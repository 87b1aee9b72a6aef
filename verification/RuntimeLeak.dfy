/** A concrete run through the one gap in crash recovery: the process dies between its first added
    route and the save of the undo file. */
module RuntimeLeak {
  import opened Options
  import opened Network
  import opened Runtime
  import opened RuntimeTheorems

  /** The run that the events `es` make of the start state, state by state. */
  ghost predicate Feasible(s0: Machine, es: seq<Event>, states: seq<Machine>)
    decreases |es|
  {
    && |states| == |es| + 1
    && if es == [] then states[0] == s0
       else
         var n := |es| - 1;
         && Feasible(s0, es[..n], states[..n + 1])
         && Enabled(states[n], es[n]) && states[n + 1] == Apply(states[n], es[n])
  }

  lemma Extend(s0: Machine, es: seq<Event>, states: seq<Machine>, s: Machine, e: Event, s': Machine)
    requires Feasible(s0, es, states) && states[|es|] == s
    requires Enabled(s, e) && Apply(s, e) == s'
    ensures Feasible(s0, es + [e], states + [s'])
  {
    assert (es + [e])[..|es|] == es && (states + [s'])[..|es| + 1] == states;
  }

  lemma Push(s0: Machine, es: seq<Event>, states: seq<Machine>, s: Machine, e: Event, s': Machine)
    returns (states': seq<Machine>, es': seq<Event>)
    requires Feasible(s0, es, states) && states[|es|] == s
    requires Enabled(s, e) && Apply(s, e) == s'
    ensures Feasible(s0, es', states') && es' == es + [e]
    ensures states'[|es'|] == s' && states'[|es'| - 1] == s && es'[|es'| - 1] == e
  {
    Extend(s0, es, states, s, e, s');
    states', es' := states + [s'], es + [e];
  }

  lemma {:induction false} FeasibleIsRun(background: set<RouteSpec>, s0: Machine, es: seq<Event>, states: seq<Machine>)
    requires Init(background, s0) && Feasible(s0, es, states)
    ensures IsRun(background, states, es)
    decreases |es|
  {
    if es != [] {
      var n := |es| - 1;
      FeasibleIsRun(background, s0, es[..n], states[..n + 1]);
      forall i | 0 <= i < |es|
        ensures Enabled(states[i], es[i]) && states[i + 1] == Apply(states[i], es[i])
      {
        if i < n {
          assert es[..n][i] == es[i] && states[..n + 1][i] == states[i] && states[..n + 1][i + 1] == states[i + 1];
        }
      }
    }
  }

  /** A machine whose only thread is `t` at `pc`. */
  function Alone(s: Machine, t: nat, pc: Pc, booted: bool, status: Status): Machine {
    s.(mem := BOOT.(status := status, booted := booted, threads := map[t := pc],
                    lock := if Holds(pc) then Some(t) else None))
  }

  lemma AloneStep(s: Machine, t: nat, pc: Pc, booted: bool, status: Status, c: Choice, next: Pc)
    requires NextPc(Alone(s, t, pc, booted, status), pc, c) == Some(next)
    requires Effect(Alone(s, t, pc, booted, status), pc, c) == Alone(s, t, pc, booted, status)
    ensures Enabled(Alone(s, t, pc, booted, status), Advance(t, c))
    ensures Apply(Alone(s, t, pc, booted, status), Advance(t, c)) == Alone(s, t, next, booted, status)
  {
    assert map[t := pc][t := next] == map[t := next];
  }

  /** The states of a cleanup that finds no undo file and no rule, by thread 0 of a new process. */
  function Booting(s: Machine, i: nat): Machine {
    if i == 0 then Alone(s, 0, CleanWait, false, Stopped)
    else if i == 1 then Alone(s, 0, ReadFile(CleanJob), false, Stopped)
    else if i == 2 then Alone(s, 0, ClearNrpt(CleanJob), false, Stopped)
    else if i == 3 then Alone(s, 0, RemoveFile(CleanJob), false, Stopped)
    else s.(mem := BOOT.(threads := map[], booted := true))
  }

  lemma BootStep(s: Machine, i: nat, c: Choice)
    requires s.file == None && !s.nrpt && i < 4
    ensures Enabled(Booting(s, i), Advance(0, c))
    ensures Apply(Booting(s, i), Advance(0, c)) == Booting(s, i + 1)
  {
    if i == 0 {
      AloneStep(s, 0, CleanWait, false, Stopped, c, ReadFile(CleanJob));
    } else if i == 1 {
      AloneStep(s, 0, ReadFile(CleanJob), false, Stopped, c, ClearNrpt(CleanJob));
    } else if i == 2 {
      AloneStep(s, 0, ClearNrpt(CleanJob), false, Stopped, c, RemoveFile(CleanJob));
    } else {
      BootEnd(s, c);
    }
  }

  lemma BootEnd(s: Machine, c: Choice)
    requires s.file == None
    ensures Apply(Alone(s, 0, RemoveFile(CleanJob), false, Stopped), Advance(0, c)) == Booting(s, 4)
  {
    assert map[0 := RemoveFile(CleanJob)] - {0} == map[];
  }

  /** The places of a start worker that meets no trouble, up to its first route. */
  function StartPc(plan: Plan, i: nat): Pc {
    if i == 0 then Begin
    else if i == 1 then StartWait(0)
    else if i == 2 then StartCheck(0)
    else if i == 3 then ReadFile(StartJob(0))
    else if i == 4 then ClearNrpt(StartJob(0))
    else if i == 5 then RemoveFile(StartJob(0))
    else if i == 6 then StartEngine(0)
    else Install(0, plan, 0, NOTHING)
  }

  lemma StartStep(s: Machine, plan: Plan, i: nat)
    requires s.file == None && !s.nrpt && i < 7
    ensures var c := Choice(true, false, plan);
            && NextPc(Alone(s, 1, StartPc(plan, i), true, Starting), StartPc(plan, i), c) == Some(StartPc(plan, i + 1))
            && Effect(Alone(s, 1, StartPc(plan, i), true, Starting), StartPc(plan, i), c)
               == Alone(s, 1, StartPc(plan, i), true, Starting)
  {
  }

  /** Carries a run through the boot cleanup. */
  lemma BootSegment(s0: Machine, es: seq<Event>, states: seq<Machine>, s: Machine, c: Choice)
    returns (states': seq<Machine>, es': seq<Event>)
    requires Feasible(s0, es, states) && states[|es|] == Booting(s, 0) && s.file == None && !s.nrpt
    ensures Feasible(s0, es', states') && states'[|es'|] == Booting(s, 4)
    ensures |es'| > 0 && states'[|es'| - 1] == Booting(s, 3) && es'[|es'| - 1] == Advance(0, c)
  {
    states', es' := states, es;
    for i := 0 to 4
      invariant Feasible(s0, es', states') && states'[|es'|] == Booting(s, i)
      invariant i > 0 ==>
                  |es'| > 0 && states'[|es'| - 1] == Booting(s, i - 1) && es'[|es'| - 1] == Advance(0, c)
    {
      BootStep(s, i, c);
      states', es' := Push(s0, es', states', Booting(s, i), Advance(0, c), Booting(s, i + 1));
    }
  }

  /** Carries a run through a start worker up to its first route. */
  lemma StartSegment(s0: Machine, es: seq<Event>, states: seq<Machine>, s: Machine, c: Choice)
    returns (states': seq<Machine>, es': seq<Event>)
    requires Feasible(s0, es, states) && states[|es|] == Alone(s, 1, Begin, true, Starting)
    requires s.file == None && !s.nrpt && c.ok && !c.rule
    ensures Feasible(s0, es', states')
    ensures states'[|es'|] == Alone(s, 1, Install(0, c.plan, 0, NOTHING), true, Starting)
  {
    states', es' := states, es;
    for i := 0 to 7
      invariant Feasible(s0, es', states')
      invariant states'[|es'|] == Alone(s, 1, StartPc(c.plan, i), true, Starting)
    {
      StartStep(s, c.plan, i);
      AloneStep(s, 1, StartPc(c.plan, i), true, Starting, c, StartPc(c.plan, i + 1));
      var now, then' := states'[|es'|], Alone(s, 1, StartPc(c.plan, i + 1), true, Starting);
      Extend(s0, es', states', now, Advance(1, c), then');
      states', es' := states' + [then'], es' + [Advance(1, c)];
    }
  }

  lemma FirstRoute(s: Machine, r: RouteSpec, c: Choice)
    requires r !in s.table && c == Choice(true, false, Plan([], [r], false))
    ensures var dying := Apply(Alone(s, 1, Install(0, c.plan, 0, NOTHING), true, Starting), Advance(1, c));
            && dying.table == s.table + {r} && dying.file == s.file && dying.nrpt == s.nrpt
            && Unsaved(dying) == {r}
  {
    assert AllRoutes(c.plan) == [r];
  }

  lemma BeginAlone(s: Machine)
    ensures Enabled(Booting(s, 4), BeginStart(1))
    ensures Apply(Booting(s, 4), BeginStart(1)) == Alone(s, 1, Begin, true, Starting)
  {
    assert map[][1 := Begin] == map[1 := Begin];
  }

  /** A run up to the first added route of the first start. */
  lemma RunToWindow(background: set<RouteSpec>, r: RouteSpec)
    returns (states: seq<Machine>, es: seq<Event>, dying: Machine)
    requires r !in background
    ensures Feasible(Machine(background, false, None, BOOT, {}), es, states) && states[|es|] == dying
    ensures dying.table == background + {r} && dying.file == None && !dying.nrpt && Unsaved(dying) == {r}
  {
    var c := Choice(true, false, Plan([], [r], false));
    var s0 := Machine(background, false, None, BOOT, {});
    states, es := BootSegment(s0, [], [s0], s0, c);
    BeginAlone(s0);
    var s := Alone(s0, 1, Begin, true, Starting);
    Extend(s0, es, states, Booting(s0, 4), BeginStart(1), s);
    states, es := StartSegment(s0, es + [BeginStart(1)], states + [s], s0, c);
    FirstRoute(s0, r, c);
    s := states[|es|];
    dying := Apply(s, Advance(1, c));
    Extend(s0, es, states, s, Advance(1, c), dying);
    states, es := states + [dying], es + [Advance(1, c)];
  }

  lemma Reboot(s: Machine)
    ensures Apply(s, Crash) == Booting(Apply(s, Crash), 0)
  {
  }

  /** A run in which the cleanup after a crash does not restore the background: the process dies
      right after its first added route, which no undo file names. */
  lemma LeakRun(background: set<RouteSpec>, r: RouteSpec) returns (states: seq<Machine>, es: seq<Event>)
    requires r !in background
    ensures |es| > 0 && IsRun(background, states, es)
    ensures EndsTeardown(states[|es| - 1], es[|es| - 1])
    ensures states[|es|].table == background + {r} && background + {r} != background
  {
    var s0 := Machine(background, false, None, BOOT, {});
    var dying: Machine;
    states, es, dying := RunToWindow(background, r);
    var reborn := Apply(dying, Crash);
    assert reborn.table == background + {r} && reborn.file == None && !reborn.nrpt;
    Reboot(dying);
    Extend(s0, es, states, dying, Crash, reborn);
    states, es := BootSegment(s0, es + [Crash], states + [reborn], reborn, Choice(true, false, Plan([], [], false)));
    FeasibleIsRun(background, s0, es, states);
    assert r in states[|es|].table;
  }
}

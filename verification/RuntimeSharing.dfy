/** When two start workers carry the same generation, and a run in which two do. */
module RuntimeSharing {
  import opened Options
  import opened Network
  import opened Runtime
  import opened RuntimeTheorems
  import opened RuntimeLeak

  /** Nobody calls stop between states i and j. */
  ghost predicate NoStopCall(events: seq<Event>, i: nat, j: nat)
    requires i <= j <= |events|
  {
    forall k :: i <= k < j ==> !events[k].CallStop?
  }

  lemma StepCounts(s: Machine, e: Event, s': Machine)
    requires Enabled(s, e) && s' == Apply(s, e) && !e.Crash?
    ensures s'.mem.generation == s.mem.generation + if e.CallStop? then 1 else 0
  {
  }

  lemma CountStep(background: set<RouteSpec>, states: seq<Machine>, events: seq<Event>, k: nat)
    requires IsRun(background, states, events) && k < |events| && !events[k].Crash?
    ensures Counts(states[k], events[k], states[k + 1])
  {
    RunStep(background, states, events, k);
    StepCounts(states[k], events[k], states[k + 1]);
  }

  ghost predicate Counts(s: Machine, e: Event, s': Machine) {
    s'.mem.generation == s.mem.generation + if e.CallStop? then 1 else 0
  }

  lemma {:induction false} CountsAlong(states: seq<Machine>, events: seq<Event>, i: nat, j: nat)
    requires i <= j <= |events| < |states| && forall k :: i <= k < j ==> Counts(states[k], events[k], states[k + 1])
    ensures states[i].mem.generation <= states[j].mem.generation
    ensures states[i].mem.generation == states[j].mem.generation <==> NoStopCall(events, i, j)
    decreases j
  {
    if i < j {
      CountsAlong(states, events, i, j - 1);
      assert Counts(states[j - 1], events[j - 1], states[j]);
    }
  }

  /** Within a process the counter rises exactly when somebody calls stop. */
  lemma GenerationCounts(background: set<RouteSpec>, states: seq<Machine>, events: seq<Event>, i: nat, j: nat)
    requires IsRun(background, states, events) && i <= j < |states| && NoCrash(events, i, j)
    ensures states[i].mem.generation <= states[j].mem.generation
    ensures states[i].mem.generation == states[j].mem.generation <==> NoStopCall(events, i, j)
  {
    forall k | i <= k < j
      ensures Counts(states[k], events[k], states[k + 1])
    {
      CountStep(background, states, events, k);
    }
    CountsAlong(states, events, i, j);
  }

  /** The event makes thread `t` read the generation `g` for its start. */
  ghost predicate ReadsGeneration(s: Machine, e: Event, t: nat, g: nat) {
    StepsFrom(s, e, t, Begin) && NextPc(s, Begin, e.c) == Some(StartWait(g))
  }

  /** Two start workers of one process carry the same generation if and only if nobody called stop
      between the two reads. */
  lemma SameGeneration(background: set<RouteSpec>, states: seq<Machine>, events: seq<Event>,
                       i: nat, t: nat, g: nat, j: nat, u: nat, h: nat)
    requires IsRun(background, states, events) && i < j < |events| && NoCrash(events, i, j)
    requires ReadsGeneration(states[i], events[i], t, g) && ReadsGeneration(states[j], events[j], u, h)
    ensures g == h <==> NoStopCall(events, i, j)
    ensures g <= h
  {
    GenerationCounts(background, states, events, i, j);
  }

  // ---- A run with two workers of one generation ----

  /** The machine of the run: a process that has booted, with these threads. */
  function Stage(s: Machine, threads: map<nat, Pc>, status: Status, generation: nat, stopped: nat): Machine {
    s.(mem := BOOT.(booted := true, threads := threads, status := status, generation := generation, stopped := stopped,
                    lock := if 2 in threads && Holds(threads[2]) then Some(2) else None))
  }

  /** Where the stop stands after its `i`-th step, while worker 1 has not read the generation yet. */
  function StopPc(i: nat): Pc {
    if i == 0 then StopMark(1)
    else if i == 1 then StopWait(1)
    else if i == 2 then StopTake(1)
    else if i == 3 then Undo([], false, StopJob(1))
    else if i == 4 then RemoveFile(StopJob(1))
    else Finish(StopJob(1))
  }

  function Stopping1(s: Machine, i: nat): Machine {
    Stage(s, map[1 := Begin, 2 := StopPc(i)], if i == 0 then Starting else Stopping, 1, if i < 2 then 0 else 1)
  }

  lemma StopMoves(s: Machine, i: nat, c: Choice)
    requires i < 5 && s.file == None
    ensures var now, next := Stopping1(s, i), Stopping1(s, i + 1);
            && NextPc(now, StopPc(i), c) == Some(StopPc(i + 1))
            && Effect(now, StopPc(i), c) == next.(mem := next.mem.(threads := now.mem.threads, lock := now.mem.lock))
  {
  }

  lemma StopStep(s: Machine, i: nat, c: Choice)
    requires i < 5 && s.file == None
    ensures Enabled(Stopping1(s, i), Advance(2, c)) && Apply(Stopping1(s, i), Advance(2, c)) == Stopping1(s, i + 1)
  {
    StopMoves(s, i, c);
    assert map[1 := Begin, 2 := StopPc(i)][2 := StopPc(i + 1)] == map[1 := Begin, 2 := StopPc(i + 1)];
  }

  lemma StopEnds(s: Machine, c: Choice)
    ensures Enabled(Stopping1(s, 5), Advance(2, c))
    ensures Apply(Stopping1(s, 5), Advance(2, c)) == Stage(s, map[1 := Begin], Stopped, 1, 1)
  {
    assert map[1 := Begin, 2 := StopPc(5)] - {2} == map[1 := Begin];
  }

  lemma WorkerBegins(s: Machine)
    ensures var calm := Stage(s, map[], Stopped, 0, 0);
            Enabled(calm, BeginStart(1)) && Apply(calm, BeginStart(1)) == Stage(s, map[1 := Begin], Starting, 0, 0)
    ensures var begun := Stage(s, map[1 := Begin], Starting, 0, 0);
            Enabled(begun, CallStop(2)) && Apply(begun, CallStop(2)) == Stopping1(s, 0)
  {
    assert map[][1 := Begin] == map[1 := Begin];
    assert map[1 := Begin][2 := StopMark(1)] == map[1 := Begin, 2 := StopMark(1)];
  }

  lemma BothRead(s: Machine, c: Choice)
    requires c.ok
    ensures var one := Stage(s, map[1 := Begin], Stopped, 1, 1);
            var two := Stage(s, map[1 := Begin, 3 := Begin], Starting, 1, 1);
            var half := Stage(s, map[1 := StartWait(1), 3 := Begin], Starting, 1, 1);
            && Enabled(one, BeginStart(3)) && Apply(one, BeginStart(3)) == two
            && Enabled(two, Advance(1, c)) && Apply(two, Advance(1, c)) == half
            && Enabled(half, Advance(3, c))
            && ReadsGeneration(two, Advance(1, c), 1, 1) && ReadsGeneration(half, Advance(3, c), 3, 1)
  {
    assert map[1 := Begin][3 := Begin] == map[1 := Begin, 3 := Begin];
    assert map[1 := Begin, 3 := Begin][1 := StartWait(1)] == map[1 := StartWait(1), 3 := Begin];
  }

  /** The event has happened. */
  ghost predicate Happened(e: Event, events: seq<Event>) {
    exists k :: 0 <= k < |events| && events[k] == e
  }

  /** A run to the call of a stop by thread 2, while worker 1 has not read the generation yet. */
  lemma StopCalled(background: set<RouteSpec>) returns (states: seq<Machine>, es: seq<Event>)
    ensures var s0 := Machine(background, false, None, BOOT, {});
            Feasible(s0, es, states) && states[|es|] == Stopping1(s0, 0) && Happened(CallStop(2), es)
  {
    var c := Choice(true, false, Plan([], [], false));
    var s0 := Machine(background, false, None, BOOT, {});
    states, es := BootSegment(s0, [], [s0], s0, c);
    assert Booting(s0, 4) == Stage(s0, map[], Stopped, 0, 0);
    WorkerBegins(s0);
    var calm, begun := Stage(s0, map[], Stopped, 0, 0), Stage(s0, map[1 := Begin], Starting, 0, 0);
    states, es := Push(s0, es, states, calm, BeginStart(1), begun);
    states, es := Push(s0, es, states, begun, CallStop(2), Stopping1(s0, 0));
  }

  /** The stop takes its steps. */
  lemma StopRuns(background: set<RouteSpec>) returns (states: seq<Machine>, es: seq<Event>)
    ensures var s0 := Machine(background, false, None, BOOT, {});
            Feasible(s0, es, states) && states[|es|] == Stopping1(s0, 5) && Happened(CallStop(2), es)
  {
    var c := Choice(true, false, Plan([], [], false));
    var s0 := Machine(background, false, None, BOOT, {});
    states, es := StopCalled(background);
    for k := 0 to 5
      invariant Feasible(s0, es, states) && states[|es|] == Stopping1(s0, k) && Happened(CallStop(2), es)
    {
      StopStep(s0, k, c);
      var before := es;
      states, es := Push(s0, es, states, Stopping1(s0, k), Advance(2, c), Stopping1(s0, k + 1));
      StillHappened(CallStop(2), before, es);
    }
  }

  lemma StillHappened(e: Event, events: seq<Event>, more: seq<Event>)
    requires Happened(e, events) && events <= more
    ensures Happened(e, more)
  {
  }

  /** A run to the point where two start workers, begun before and after a completed stop of thread 2,
      have not yet read the generation. */
  lemma TwoBegun(background: set<RouteSpec>) returns (states: seq<Machine>, es: seq<Event>)
    ensures var s0 := Machine(background, false, None, BOOT, {});
            && Feasible(s0, es, states) && states[|es|] == Stage(s0, map[1 := Begin, 3 := Begin], Starting, 1, 1)
    ensures Happened(CallStop(2), es)
  {
    var c := Choice(true, false, Plan([], [], false));
    var s0 := Machine(background, false, None, BOOT, {});
    states, es := StopRuns(background);
    var before := es;
    StopEnds(s0, c);
    BothRead(s0, c);
    var one, two := Stage(s0, map[1 := Begin], Stopped, 1, 1), Stage(s0, map[1 := Begin, 3 := Begin], Starting, 1, 1);
    states, es := Push(s0, es, states, Stopping1(s0, 5), Advance(2, c), one);
    states, es := Push(s0, es, states, one, BeginStart(3), two);
    StillHappened(CallStop(2), before, es);
  }

  /** On every background there is a run in which two different start workers, begun before and after a
      completed stop, read the same generation one right after the other. */
  lemma SharedGenerationRun(background: set<RouteSpec>) returns (states: seq<Machine>, es: seq<Event>, i: nat)
    ensures IsRun(background, states, es) && i + 1 < |es|
    ensures ReadsGeneration(states[i], es[i], 1, 1) && ReadsGeneration(states[i + 1], es[i + 1], 3, 1)
  {
    var c := Choice(true, false, Plan([], [], false));
    var s0 := Machine(background, false, None, BOOT, {});
    states, es := TwoBegun(background);
    BothRead(s0, c);
    var two := Stage(s0, map[1 := Begin, 3 := Begin], Starting, 1, 1);
    var half := Stage(s0, map[1 := StartWait(1), 3 := Begin], Starting, 1, 1);
    i := |es|;
    Extend(s0, es, states, two, Advance(1, c), half);
    states, es := states + [half], es + [Advance(1, c)];
    var done := Apply(half, Advance(3, c));
    Extend(s0, es, states, half, Advance(3, c), done);
    states, es := states + [done], es + [Advance(3, c)];
    FeasibleIsRun(background, s0, es, states);
  }
}

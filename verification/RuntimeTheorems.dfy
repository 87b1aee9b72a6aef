/** What the runtime promises over whole runs, however its threads interleave and however often the
    process dies. */
module RuntimeTheorems {
  import opened Options
  import opened Network
  import opened Runtime
  import opened RuntimeInvariant

  /** The routes that the crashes among the first `n` events left on no record. */
  ghost function CrashLosses(states: seq<Machine>, events: seq<Event>, n: nat): set<RouteSpec>
    requires n <= |events| < |states|
  {
    if n == 0 then {}
    else CrashLosses(states, events, n - 1) + Loses(states[n - 1], events[n - 1])
  }

  ghost predicate NoCrash(events: seq<Event>, i: nat, j: nat)
    requires i <= j <= |events|
  {
    forall k :: i <= k < j ==> !events[k].Crash?
  }

  /** No crash hit a start worker between its first added route and its save of the undo file. */
  ghost predicate NoCrashInWindow(states: seq<Machine>, events: seq<Event>, n: nat)
    requires n <= |events| < |states|
  {
    forall k :: 0 <= k < n && events[k].Crash? ==> Unsaved(states[k]) == {}
  }

  ghost predicate StepsFrom(s: Machine, e: Event, t: nat, pc: Pc) {
    e.Advance? && e.t == t && t in s.mem.threads && s.mem.threads[t] == pc
  }

  /** The event ends a stop, a monitor's teardown or a cleanup. */
  ghost predicate EndsTeardown(s: Machine, e: Event) {
    && e.Advance? && e.t in s.mem.threads
    && (s.mem.threads[e.t].Finish? || s.mem.threads[e.t] == RemoveFile(CleanJob))
  }

  lemma RunStep(background: set<RouteSpec>, states: seq<Machine>, events: seq<Event>, i: nat)
    requires IsRun(background, states, events) && i < |events|
    ensures Enabled(states[i], events[i]) && states[i + 1] == Apply(states[i], events[i])
  {
  }

  lemma {:induction false} LostIsCrashLosses(background: set<RouteSpec>, states: seq<Machine>, events: seq<Event>,
                                             i: nat)
    requires IsRun(background, states, events) && i < |states|
    ensures states[i].lost == CrashLosses(states, events, i)
  {
    if i > 0 {
      LostIsCrashLosses(background, states, events, i - 1);
      RunStep(background, states, events, i - 1);
      LostStep(states[i - 1], events[i - 1]);
    }
  }

  lemma {:induction false} NothingLost(background: set<RouteSpec>, states: seq<Machine>, events: seq<Event>, i: nat)
    requires IsRun(background, states, events) && i < |states|
    ensures CrashLosses(states, events, i) == {} <==> NoCrashInWindow(states, events, i)
  {
    if i > 0 {
      NothingLost(background, states, events, i - 1);
    }
  }

  /** Whenever the lock is free, each route beyond the background is on record in memory and in the
      undo file; in fact there are either none, or exactly those of a record the two agree on. */
  lemma RoutesOnRecord(background: set<RouteSpec>, states: seq<Machine>, events: seq<Event>, i: nat)
    requires IsRun(background, states, events) && i < |states|
    requires states[i].mem.booted && states[i].mem.lock == None
    ensures var s, b := states[i], background + CrashLosses(states, events, i);
            && b <= s.table
            && s.table - b <= Routes(s.mem.network.routes) * Recorded(s.file)
            && (s.table == b
                || (s.file == Some(s.mem.network) && s.table - b == Routes(s.mem.network.routes)))
            && (s.nrpt ==> s.file.Some? && s.file.value.nrpt)
  {
    InvAlways(background, states, events, i);
    LostIsCrashLosses(background, states, events, i);
  }

  /** A completed stop, teardown or cleanup leaves the table exactly as the helper found it, if and
      only if no earlier crash fell between a first added route and the save of the undo file. */
  lemma TeardownRestores(background: set<RouteSpec>, states: seq<Machine>, events: seq<Event>, i: nat)
    requires IsRun(background, states, events) && i < |events| && EndsTeardown(states[i], events[i])
    ensures var s' := states[i + 1];
            && s'.table == background + CrashLosses(states, events, i)
            && background !! CrashLosses(states, events, i)
            && !s'.nrpt && s'.file == None && s'.mem.lock == None
            && (s'.table == background <==> NoCrashInWindow(states, events, i))
  {
    InvAlways(background, states, events, i);
    LostIsCrashLosses(background, states, events, i);
    NothingLost(background, states, events, i);
    RunStep(background, states, events, i);
    TeardownEnds(background + states[i].lost, states[i], events[i], states[i + 1]);
  }

  lemma TeardownEnds(b: set<RouteSpec>, s: Machine, e: Event, s': Machine)
    requires NetInv(b, s) && EndsTeardown(s, e) && Enabled(s, e) && s' == Apply(s, e)
    ensures s'.table == b && !s'.nrpt && s'.file == None && s'.mem.lock == None
  {
    assert s.mem.lock == Some(e.t);
    assert Own(b, s, s.mem.threads[e.t]);
  }

  /** A completed stop also leaves no engine and no record in memory. */
  lemma StopEmptiesState(background: set<RouteSpec>, states: seq<Machine>, events: seq<Event>, i: nat, t: nat, k: nat)
    requires IsRun(background, states, events) && i < |events|
    requires StepsFrom(states[i], events[i], t, Finish(StopJob(k)))
    ensures states[i + 1].mem.engine == None && states[i + 1].mem.network == NOTHING
    ensures states[i + 1].mem.status == Stopped
  {
    InvAlways(background, states, events, i);
  }

  /** At no point of any run is a route missing that was not the helper's. */
  lemma BackgroundKept(background: set<RouteSpec>, states: seq<Machine>, events: seq<Event>, i: nat)
    requires IsRun(background, states, events) && i < |states|
    ensures background <= states[i].table
  {
    InvAlways(background, states, events, i);
    var s := states[i];
    if s.mem.lock.Some? {
      OwnKeepsBase(background + s.lost, s, s.mem.threads[s.mem.lock.value]);
    }
  }

  lemma OwnKeepsBase(b: set<RouteSpec>, s: Machine, pc: Pc)
    requires Own(b, s, pc) && Holds(pc)
    ensures b <= s.table
  {
  }

  // ---- Cancellation ----

  lemma StepHistory(s: Machine, e: Event, s': Machine)
    requires Enabled(s, e) && s' == Apply(s, e) && !e.Crash?
    ensures s.mem.stopped <= s'.mem.stopped
    ensures s.mem.published <= s'.mem.published
  {
  }

  lemma HistoryStep(background: set<RouteSpec>, states: seq<Machine>, events: seq<Event>, k: nat)
    requires IsRun(background, states, events) && k < |events| && !events[k].Crash?
    ensures Later(states[k].mem, states[k + 1].mem)
  {
    RunStep(background, states, events, k);
    StepHistory(states[k], events[k], states[k + 1]);
  }

  /** The history of `m'` goes on from that of `m`. */
  ghost predicate Later(m: Memory, m': Memory) {
    m.stopped <= m'.stopped && m.published <= m'.published
  }

  lemma LaterChains(a: Memory, b: Memory, c: Memory)
    requires Later(a, b) && Later(b, c)
    ensures Later(a, c)
  {
  }

  lemma {:induction false} LaterAlong(states: seq<Machine>, i: nat, j: nat)
    requires i <= j < |states| && forall k :: i <= k < j ==> Later(states[k].mem, states[k + 1].mem)
    ensures Later(states[i].mem, states[j].mem)
    decreases j
  {
    if i < j {
      LaterAlong(states, i, j - 1);
      LaterChains(states[i].mem, states[j - 1].mem, states[j].mem);
    }
  }

  /** Within a process publications and executed stops only accumulate. */
  lemma HistoryGrows(background: set<RouteSpec>, states: seq<Machine>, events: seq<Event>, i: nat, j: nat)
    requires IsRun(background, states, events) && i <= j < |states| && NoCrash(events, i, j)
    ensures states[i].mem.stopped <= states[j].mem.stopped
    ensures states[i].mem.published <= states[j].mem.published
  {
    forall k | i <= k < j
      ensures Later(states[k].mem, states[k + 1].mem)
    {
      HistoryStep(background, states, events, k);
    }
    LaterAlong(states, i, j);
  }

  /** Once a stop that raised the generation to k has entered its critical section, no worker that
      captured a smaller generation publishes an engine. */
  lemma StopCancels(background: set<RouteSpec>, states: seq<Machine>, events: seq<Event>,
                    i: nat, j: nat, t: nat, k: nat, u: nat, g: nat, net: NetworkState)
    requires IsRun(background, states, events) && i < j < |events| && NoCrash(events, i, j)
    requires StepsFrom(states[i], events[i], t, StopWait(k))
    requires StepsFrom(states[j], events[j], u, Publish(g, net))
    ensures k <= g
  {
    InvAlways(background, states, events, j);
    assert k <= states[i + 1].mem.stopped;
    HistoryGrows(background, states, events, i + 1, j);
    assert GenPc(states[j].mem, states[j].mem.threads[u]);
  }

  /** Published generations never decrease within one process. */
  lemma PublicationsInOrder(background: set<RouteSpec>, states: seq<Machine>, events: seq<Event>,
                            i: nat, j: nat, t: nat, g: nat, net: NetworkState, u: nat, h: nat, net': NetworkState)
    requires IsRun(background, states, events) && i < j < |events| && NoCrash(events, i, j)
    requires StepsFrom(states[i], events[i], t, Publish(g, net))
    requires StepsFrom(states[j], events[j], u, Publish(h, net'))
    ensures g <= h
  {
    InvAlways(background, states, events, j);
    var before, now := states[i + 1].mem.published, states[j].mem.published;
    assert before == states[i].mem.published + [g];
    HistoryGrows(background, states, events, i + 1, j);
    assert GenPc(states[j].mem, states[j].mem.threads[u]);
    assert now[|before| - 1] == g && Sorted(now);
  }

  /** A monitor tears down no engine but one published in its own generation, and every route that its
      undo really removes is one of the helper's and named by the undo file. */
  lemma MonitorTakesItsOwn(background: set<RouteSpec>, states: seq<Machine>, events: seq<Event>,
                           i: nat, t: nat, g: nat, failed: bool)
    requires IsRun(background, states, events) && i < |events|
    requires StepsFrom(states[i], events[i], t, MonitorTake(g, failed))
    ensures states[i].mem.engine.Some? ==> states[i].mem.engine.value == g
    ensures states[i].table == background + CrashLosses(states, events, i)
            || states[i].file == Some(states[i].mem.network)
    ensures var removed := Routes(states[i].mem.network.routes) * states[i].table;
            removed <= Recorded(states[i].file) && removed !! background
  {
    InvAlways(background, states, events, i);
    LostIsCrashLosses(background, states, events, i);
    TakerKnows(background, states[i], t, g, failed);
  }

  lemma TakerKnows(background: set<RouteSpec>, s: Machine, t: nat, g: nat, failed: bool)
    requires Inv(background, s) && t in s.mem.threads && s.mem.threads[t] == MonitorTake(g, failed)
    ensures s.mem.engine.Some? ==> s.mem.engine.value == g
    ensures s.table == background + s.lost || s.file == Some(s.mem.network)
    ensures Routes(s.mem.network.routes) * s.table <= Recorded(s.file)
    ensures Routes(s.mem.network.routes) !! background
  {
    assert GenPc(s.mem, s.mem.threads[t]);
    assert s.mem.lock == Some(t);
    assert Own(background + s.lost, s, s.mem.threads[t]);
  }
}

/** What other start workers and cleanups do to a running tunnel. An engine stays in the state record
    while a second worker, or a cleanup, deletes the routes it was started with. */
module RuntimeOverlap {
  import opened Options
  import opened Network
  import opened Runtime
  import opened RuntimeInvariant
  import opened RuntimeTheorems

  /** The step starts to delete what the undo file names: a start worker passes its check, or a cleanup
      takes the lock. */
  predicate Disturbs(s: Machine, pc: Pc) {
    pc.CleanWait? || (pc.StartCheck? && pc.gen == s.mem.generation)
  }

  /** The step changes the engine in the state record. */
  predicate Replaces(pc: Pc) {
    pc.Publish? || pc.MonitorTake? || pc.StopTake?
  }

  ghost predicate DisturbsBy(s: Machine, e: Event) {
    e.Advance? && e.t in s.mem.threads && Disturbs(s, s.mem.threads[e.t])
  }

  /** The engine published before state i is still the one in the record at state j. */
  ghost predicate Untouched(states: seq<Machine>, events: seq<Event>, i: nat, j: nat)
    requires i <= j <= |events| < |states|
  {
    forall k :: i <= k < j ==>
      !events[k].Crash?
      && (events[k].Advance? && events[k].t in states[k].mem.threads ==> !Replaces(states[k].mem.threads[events[k].t]))
  }

  ghost predicate Disturbed(states: seq<Machine>, events: seq<Event>, i: nat, j: nat)
    requires i <= j <= |events| < |states|
  {
    exists k :: i <= k < j && DisturbsBy(states[k], events[k])
  }

  // ---- What is known of the network in between ----

  function Holder(m: Memory): Option<Pc> {
    if m.lock.Some? && m.lock.value in m.threads then Some(m.threads[m.lock.value]) else None
  }

  predicate Critical(next: Option<Pc>) {
    next.Some? && Holds(next.value)
  }

  /** A place inside a critical section before anything is undone. */
  predicate Calm(pc: Pc) {
    pc.SpawnMonitor? || pc.StartCheck? || pc.MonitorCheck? || pc.MonitorTake? || pc.StopTake?
  }

  ghost predicate Intact(b: set<RouteSpec>, s: Machine, net: NetworkState, next: Option<Pc>) {
    s.file == Some(net) && RuntimeInvariant.Added(b, s, net) && (Critical(next) ==> Calm(next.value))
  }

  ghost predicate Torn(b: set<RouteSpec>, s: Machine, next: Option<Pc>) {
    && (!Critical(next) || Calm(next.value) ==> Clean(b, s))
    && (Critical(next) ==> !next.value.SpawnMonitor?)
  }

  ghost predicate Since(b: set<RouteSpec>, s: Machine, net: NetworkState, torn: bool, next: Option<Pc>) {
    if torn then Torn(b, s, next) else Intact(b, s, net, next)
  }

  ghost predicate Running(m: Memory, g: nat, net: NetworkState) {
    m.engine == Some(g) && m.network == net && m.booted
  }

  lemma IntactStep(b: set<RouteSpec>, s: Machine, pc: Pc, c: Choice, g: nat, net: NetworkState)
    requires Intact(b, s, net, Some(pc)) && Running(s.mem, g, net) && !Replaces(pc)
    requires Acquires(pc) || Holds(pc)
    ensures Since(b, Effect(s, pc, c), net, Disturbs(s, pc), NextPc(s, pc, c))
    ensures Running(Effect(s, pc, c).mem, g, net)
  {
  }

  lemma TornStart(b: set<RouteSpec>, s: Machine, pc: Pc, c: Choice, g: nat, net: NetworkState)
    requires Mine(b, s, pc) && Torn(b, s, Some(pc)) && Running(s.mem, g, net) && !Replaces(pc)
    requires Acquires(pc) || (Holds(pc) && !InUndo(pc))
    ensures Torn(b, Effect(s, pc, c), NextPc(s, pc, c))
    ensures Running(Effect(s, pc, c).mem, g, net)
  {
  }

  lemma TornUndo(b: set<RouteSpec>, s: Machine, pc: Pc, c: Choice, g: nat, net: NetworkState)
    requires Mine(b, s, pc) && Torn(b, s, Some(pc)) && Running(s.mem, g, net) && InUndo(pc)
    ensures Torn(b, Effect(s, pc, c), NextPc(s, pc, c))
    ensures Running(Effect(s, pc, c).mem, g, net)
  {
  }

  lemma SinceStep(b: set<RouteSpec>, s: Machine, pc: Pc, c: Choice, g: nat, net: NetworkState, torn: bool)
    requires Mine(b, s, pc) && Since(b, s, net, torn, Some(pc)) && Running(s.mem, g, net) && !Replaces(pc)
    requires Acquires(pc) || Holds(pc)
    ensures Since(b, Effect(s, pc, c), net, torn || Disturbs(s, pc), NextPc(s, pc, c))
    ensures Running(Effect(s, pc, c).mem, g, net)
  {
    if !torn {
      IntactStep(b, s, pc, c, g, net);
    } else if InUndo(pc) {
      TornUndo(b, s, pc, c, g, net);
    } else {
      TornStart(b, s, pc, c, g, net);
    }
  }

  lemma PlaceHolder(m: Memory, t: nat, next: Option<Pc>)
    requires t in m.threads && LockInv(m) && (Critical(next) && !Holds(m.threads[t]) ==> m.lock == None)
    ensures if Critical(next) then Holder(Place(m, t, next)) == next
            else if Holds(m.threads[t]) then Holder(Place(m, t, next)) == None
            else Holder(Place(m, t, next)) == Holder(m)
  {
  }

  /** Only what the network part of the machine holds matters, and whether the lock is held. */
  lemma SinceFrame(b: set<RouteSpec>, s: Machine, s': Machine, net: NetworkState, torn: bool,
                   next: Option<Pc>, next': Option<Pc>)
    requires Since(b, s, net, torn, next) && s'.table == s.table && s'.nrpt == s.nrpt && s'.file == s.file
    requires next' == next || (!Critical(next') && !Critical(next))
    ensures Since(b, s', net, torn, next')
  {
  }

  lemma SinceAdvance(b: set<RouteSpec>, s: Machine, t: nat, c: Choice, g: nat, net: NetworkState, torn: bool)
    requires NetInv(b, s) && Enabled(s, Advance(t, c)) && !Replaces(s.mem.threads[t])
    requires Since(b, s, net, torn, Holder(s.mem)) && Running(s.mem, g, net)
    ensures var s' := Apply(s, Advance(t, c));
            && Since(b, s', net, torn || Disturbs(s, s.mem.threads[t]), Holder(s'.mem))
            && Running(s'.mem, g, net)
  {
    var pc := s.mem.threads[t];
    var after, next := Effect(s, pc, c), NextPc(s, pc, c);
    NextPlace(s, t, c);
    PlaceHolder(after.mem, t, next);
    if Acquires(pc) || Holds(pc) {
      SinceFrame(b, s, s, net, torn, Holder(s.mem), Some(pc));
      SinceStep(b, s, pc, c, g, net, torn);
      SinceFrame(b, after, Apply(s, Advance(t, c)), net, torn || Disturbs(s, pc), next, Holder(Place(after.mem, t, next)));
    } else {
      OutsideStep(s, pc, c);
      SinceFrame(b, s, Apply(s, Advance(t, c)), net, torn, Holder(s.mem), Holder(s.mem));
    }
  }

  /** The machine some time after the publication of engine `g` with record `net`. */
  ghost predicate Follows(background: set<RouteSpec>, s: Machine, lost: set<RouteSpec>, g: nat, net: NetworkState,
                          torn: bool)
  {
    && s.lost == lost && Since(background + lost, s, net, torn, Holder(s.mem))
    && Running(s.mem, g, net) && Routes(net.routes) !! background + lost
  }

  lemma FollowsEvent(background: set<RouteSpec>, s: Machine, e: Event, s': Machine, lost: set<RouteSpec>, g: nat,
                     net: NetworkState, torn: bool)
    requires NetInv(background + lost, s) && Enabled(s, e) && s' == Apply(s, e) && !e.Crash?
    requires e.Advance? ==> !Replaces(s.mem.threads[e.t])
    requires Follows(background, s, lost, g, net, torn)
    ensures Follows(background, s', lost, g, net, torn || DisturbsBy(s, e))
  {
    LostStep(s, e);
    assert s.lost + {} == s.lost;
    if e.Advance? {
      SinceAdvance(background + lost, s, e.t, e.c, g, net, torn);
    } else {
      SinceFrame(background + lost, s, s', net, torn, Holder(s.mem), Holder(s'.mem));
    }
  }

  lemma FollowsPublish(background: set<RouteSpec>, s: Machine, e: Event, s': Machine, u: nat, g: nat, net: NetworkState)
    requires NetInv(background + s.lost, s) && Enabled(s, e) && s' == Apply(s, e) && StepsFrom(s, e, u, Publish(g, net))
    ensures Follows(background, s', s.lost, g, net, false)
  {
    assert s.mem.lock == Some(u);
    assert Own(background + s.lost, s, Publish(g, net));
  }

  lemma NetAlways(background: set<RouteSpec>, states: seq<Machine>, events: seq<Event>, i: nat)
    requires IsRun(background, states, events) && i < |states|
    ensures NetInv(background + states[i].lost, states[i])
  {
    InvAlways(background, states, events, i);
  }

  lemma UntouchedSplit(states: seq<Machine>, events: seq<Event>, i: nat, j: nat)
    requires i < j <= |events| < |states| && Untouched(states, events, i, j)
    ensures Untouched(states, events, i, j - 1) && !events[j - 1].Crash?
    ensures events[j - 1].Advance? && events[j - 1].t in states[j - 1].mem.threads ==>
              !Replaces(states[j - 1].mem.threads[events[j - 1].t])
  {
  }

  lemma DisturbedSnoc(states: seq<Machine>, events: seq<Event>, i: nat, j: nat)
    requires i < j <= |events| < |states|
    ensures Disturbed(states, events, i, j)
            <==> Disturbed(states, events, i, j - 1) || DisturbsBy(states[j - 1], events[j - 1])
  {
  }

  lemma {:induction false} SincePublication(background: set<RouteSpec>, states: seq<Machine>, events: seq<Event>,
                                            p: nat, u: nat, g: nat, net: NetworkState, i: nat)
    requires IsRun(background, states, events) && p < i < |states|
    requires StepsFrom(states[p], events[p], u, Publish(g, net)) && Untouched(states, events, p + 1, i)
    ensures Follows(background, states[i], states[p].lost, g, net, Disturbed(states, events, p + 1, i))
    decreases i
  {
    NetAlways(background, states, events, i - 1);
    RunStep(background, states, events, i - 1);
    if i == p + 1 {
      FollowsPublish(background, states[p], events[p], states[i], u, g, net);
    } else {
      UntouchedSplit(states, events, p + 1, i);
      DisturbedSnoc(states, events, p + 1, i);
      SincePublication(background, states, events, p, u, g, net, i - 1);
      FollowsEvent(background, states[i - 1], events[i - 1], states[i], states[p].lost, g, net,
                   Disturbed(states, events, p + 1, i - 1));
    }
  }

  /** A running tunnel has its routes if and only if, since its engine was published, no start worker has
      passed its check and no cleanup has taken the lock; unless it had no routes of its own to lose. */
  lemma TunnelKeepsRoutes(background: set<RouteSpec>, states: seq<Machine>, events: seq<Event>,
                          p: nat, u: nat, g: nat, net: NetworkState, i: nat)
    requires IsRun(background, states, events) && p < i < |states| && states[i].mem.lock == None
    requires StepsFrom(states[p], events[p], u, Publish(g, net)) && Untouched(states, events, p + 1, i)
    ensures states[i].mem.engine == Some(g) && states[i].mem.network == net
    ensures var b := background + CrashLosses(states, events, i);
            states[i].table == b + Routes(net.routes)
            <==> net.routes == [] || !Disturbed(states, events, p + 1, i)
    ensures Disturbed(states, events, p + 1, i) ==> states[i].table == background + CrashLosses(states, events, i)
  {
    SincePublication(background, states, events, p, u, g, net, i);
    LostIsCrashLosses(background, states, events, i);
    if net.routes != [] {
      assert net.routes[0] in Routes(net.routes);
    }
  }
}

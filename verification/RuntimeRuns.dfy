/** Runs in which several threads share a running tunnel, put together from the paths of single threads:
    a cleanup or another worker takes the routes away, a late failure overwrites the status, a monitor
    takes an engine that is not its own. */
module RuntimeRuns {
  import opened Options
  import opened Network
  import opened Runtime
  import opened RuntimeTheorems
  import opened RuntimeLeak
  import opened RuntimeOverlap
  import opened RuntimeSharing

  // ---- One thread among others ----

  /** The machine `m` with one more thread, `t`, which alone may hold the lock. */
  function At(m: Machine, t: nat, pc: Pc): Machine {
    m.(mem := m.mem.(threads := m.mem.threads[t := pc], lock := if Holds(pc) then Some(t) else None))
  }

  /** Room for thread `t`. */
  predicate Room(m: Machine, t: nat) {
    t !in m.mem.threads && m.mem.lock == None
  }

  ghost predicate Moves(m: Machine, m': Machine, t: nat, pc: Pc, next: Pc, c: Choice) {
    && m'.mem.threads == m.mem.threads && m'.mem.lock == None
    && NextPc(At(m, t, pc), pc, c) == Some(next) && Effect(At(m, t, pc), pc, c) == At(m', t, pc)
  }

  lemma MoveStep(m: Machine, m': Machine, t: nat, pc: Pc, next: Pc, c: Choice)
    requires Room(m, t) && Moves(m, m', t, pc, next, c)
    ensures Enabled(At(m, t, pc), Advance(t, c)) && Apply(At(m, t, pc), Advance(t, c)) == At(m', t, next)
  {
    assert m.mem.threads[t := pc][t := next] == m.mem.threads[t := next];
  }

  lemma EndStep(m: Machine, m': Machine, t: nat, pc: Pc, c: Choice)
    requires Room(m, t) && m'.mem.threads == m.mem.threads && m'.mem.lock == None
    requires NextPc(At(m, t, pc), pc, c) == None && Effect(At(m, t, pc), pc, c) == At(m', t, pc)
    ensures Enabled(At(m, t, pc), Advance(t, c)) && Apply(At(m, t, pc), Advance(t, c)) == m'
  {
    assert m.mem.threads[t := pc] - {t} == m.mem.threads;
  }

  // ---- Traces ----

  datatype Trace = Trace(states: seq<Machine>, events: seq<Event>)

  ghost predicate Ends(s0: Machine, tr: Trace, s: Machine) {
    Feasible(s0, tr.events, tr.states) && tr.states[|tr.events|] == s
  }

  /** `tr'` goes on from `tr`. */
  ghost predicate Extends(tr: Trace, tr': Trace) {
    tr.events <= tr'.events && tr.states <= tr'.states
  }

  /** From number `p` on no event of the trace is a crash or changes the engine in the record. */
  ghost predicate Kept(tr: Trace, p: nat) {
    p <= |tr.events| < |tr.states| && Untouched(tr.states, tr.events, p, |tr.events|)
  }

  lemma Go(s0: Machine, tr: Trace, s: Machine, e: Event, s': Machine) returns (tr': Trace)
    requires Ends(s0, tr, s) && Enabled(s, e) && Apply(s, e) == s'
    ensures Ends(s0, tr', s') && Extends(tr, tr') && tr'.events == tr.events + [e] && tr'.states == tr.states + [s']
  {
    Extend(s0, tr.events, tr.states, s, e, s');
    tr' := Trace(tr.states + [s'], tr.events + [e]);
  }

  lemma KeptOn(tr: Trace, tr': Trace, p: nat, e: Event, s: Machine, s': Machine)
    requires Kept(tr, p) && |tr.states| == |tr.events| + 1 && tr.states[|tr.events|] == s
    requires tr'.events == tr.events + [e] && tr'.states == tr.states + [s']
    requires !e.Crash? && (e.Advance? && e.t in s.mem.threads ==> !Replaces(s.mem.threads[e.t]))
    ensures Kept(tr', p)
  {
  }

  /** One step of thread `t` that leaves the engine in the record alone. */
  lemma Step(s0: Machine, tr: Trace, p: nat, m: Machine, m': Machine, t: nat, pc: Pc, next: Pc, c: Choice)
    returns (tr': Trace)
    requires Ends(s0, tr, At(m, t, pc)) && Kept(tr, p) && Room(m, t) && Moves(m, m', t, pc, next, c) && !Replaces(pc)
    ensures Ends(s0, tr', At(m', t, next)) && Kept(tr', p) && Extends(tr, tr')
  {
    MoveStep(m, m', t, pc, next, c);
    tr' := Go(s0, tr, At(m, t, pc), Advance(t, c), At(m', t, next));
    KeptOn(tr, tr', p, Advance(t, c), At(m, t, pc), At(m', t, next));
  }

  lemma ExtendsOn(a: Trace, b: Trace, c: Trace)
    requires Extends(a, b) && Extends(b, c)
    ensures Extends(a, c)
  {
  }

  /** A place together with the machine around the thread. */
  datatype Spot = Spot(m: Machine, pc: Pc)

  ghost predicate Leads(a: Spot, b: Spot, t: nat, c: Choice) {
    Room(a.m, t) && Moves(a.m, b.m, t, a.pc, b.pc, c) && !Replaces(a.pc)
  }

  /** A whole path of one thread. */
  lemma Follow(s0: Machine, tr: Trace, p: nat, spot: nat -> Spot, n: nat, t: nat, c: Choice) returns (tr': Trace)
    requires Ends(s0, tr, At(spot(0).m, t, spot(0).pc)) && Kept(tr, p)
    requires forall i :: 0 <= i < n ==> Leads(spot(i), spot(i + 1), t, c)
    ensures Ends(s0, tr', At(spot(n).m, t, spot(n).pc)) && Kept(tr', p) && Extends(tr, tr')
  {
    tr' := tr;
    for i := 0 to n
      invariant Ends(s0, tr', At(spot(i).m, t, spot(i).pc)) && Kept(tr', p) && Extends(tr, tr')
    {
      var a, b := spot(i), spot(i + 1);
      assert Leads(a, b, t, c);
      var on := Step(s0, tr', p, a.m, b.m, t, a.pc, b.pc, c);
      ExtendsOn(tr, tr', on);
      tr' := on;
    }
  }

  // ---- Paths ----

  function OneRoute(r: RouteSpec): NetworkState {
    NetworkState([r], false)
  }

  function Agreeing(r: RouteSpec): Choice {
    Choice(true, false, Plan([], [r], false))
  }

  /** From its beginning to the leading cleanup, a start worker whose generation is current. */
  function EnterSpot(m: Machine, i: nat): Spot {
    var g := m.mem.generation;
    Spot(m, if i == 0 then Begin else if i == 1 then StartWait(g) else if i == 2 then StartCheck(g) else ReadFile(StartJob(g)))
  }

  lemma EnterLeads(m: Machine, t: nat, r: RouteSpec, i: nat)
    requires Room(m, t) && i < 3
    ensures Leads(EnterSpot(m, i), EnterSpot(m, i + 1), t, Agreeing(r))
  {
  }

  /** The trace has, behind event number p, a step of `t` from `pc`. */
  ghost predicate Has(tr: Trace, p: nat, t: nat, pc: Pc) {
    && |tr.events| < |tr.states|
    && exists k :: p <= k < |tr.events| && StepsFrom(tr.states[k], tr.events[k], t, pc)
  }

  lemma HasStays(tr: Trace, tr': Trace, p: nat, t: nat, pc: Pc)
    requires Has(tr, p, t, pc) && Extends(tr, tr') && |tr'.events| < |tr'.states|
    ensures Has(tr', p, t, pc)
  {
    var k :| p <= k < |tr.events| && StepsFrom(tr.states[k], tr.events[k], t, pc);
    assert StepsFrom(tr'.states[k], tr'.events[k], t, pc);
  }

  /** The check of a worker whose generation is current, seen as an event of the trace. */
  lemma CheckPath(s0: Machine, tr: Trace, p: nat, m: Machine, t: nat, r: RouteSpec) returns (tr': Trace)
    requires Ends(s0, tr, At(m, t, Begin)) && Kept(tr, p) && Room(m, t)
    ensures Ends(s0, tr', At(m, t, ReadFile(StartJob(m.mem.generation)))) && Kept(tr', p) && Extends(tr, tr')
    ensures Has(tr', |tr.events|, t, StartCheck(m.mem.generation))
  {
    var g := m.mem.generation;
    forall i | 0 <= i < 3
      ensures Leads(EnterSpot(m, i), EnterSpot(m, i + 1), t, Agreeing(r))
    {
      EnterLeads(m, t, r, i);
    }
    var a := Follow(s0, tr, p, (i: nat) => EnterSpot(m, i), 2, t, Agreeing(r));
    tr' := CheckStep(s0, a, p, m, t, r);
    ExtendsOn(tr, a, tr');
  }

  lemma CheckStep(s0: Machine, tr: Trace, p: nat, m: Machine, t: nat, r: RouteSpec) returns (tr': Trace)
    requires Ends(s0, tr, At(m, t, StartCheck(m.mem.generation))) && Kept(tr, p) && Room(m, t)
    ensures Ends(s0, tr', At(m, t, ReadFile(StartJob(m.mem.generation)))) && Kept(tr', p) && Extends(tr, tr')
    ensures Has(tr', |tr.events|, t, StartCheck(m.mem.generation))
  {
    var g, c := m.mem.generation, Agreeing(r);
    EnterLeads(m, t, r, 2);
    MoveStep(m, m, t, StartCheck(g), ReadFile(StartJob(g)), c);
    tr' := Go(s0, tr, At(m, t, StartCheck(g)), Advance(t, c), At(m, t, ReadFile(StartJob(g))));
    KeptOn(tr, tr', p, Advance(t, c), At(m, t, StartCheck(g)), At(m, t, ReadFile(StartJob(g))));
    assert StepsFrom(tr'.states[|tr.events|], tr'.events[|tr.events|], t, StartCheck(g));
  }

  /** A cleanup that finds no undo file and no rule. */
  function NothingSpot(m: Machine, job: Job, i: nat): Spot {
    Spot(m, if i == 0 then ReadFile(job) else if i == 1 then ClearNrpt(job) else RemoveFile(job))
  }

  lemma NothingLeads(m: Machine, t: nat, job: Job, r: RouteSpec, i: nat)
    requires Room(m, t) && m.file == None && !m.nrpt && i < 2
    ensures Leads(NothingSpot(m, job, i), NothingSpot(m, job, i + 1), t, Agreeing(r))
  {
  }

  lemma NothingPath(s0: Machine, tr: Trace, p: nat, m: Machine, t: nat, job: Job, r: RouteSpec) returns (tr': Trace)
    requires Ends(s0, tr, At(m, t, ReadFile(job))) && Kept(tr, p) && Room(m, t)
    requires m.file == None && !m.nrpt
    ensures Ends(s0, tr', At(m, t, RemoveFile(job))) && Kept(tr', p) && Extends(tr, tr')
  {
    forall i | 0 <= i < 2
      ensures Leads(NothingSpot(m, job, i), NothingSpot(m, job, i + 1), t, Agreeing(r))
    {
      NothingLeads(m, t, job, r, i);
    }
    tr' := Follow(s0, tr, p, (i: nat) => NothingSpot(m, job, i), 2, t, Agreeing(r));
  }

  function Without(m: Machine, r: RouteSpec): Machine {
    m.(table := m.table - {r})
  }

  /** A cleanup that finds the undo file of a tunnel with one route. */
  function TearSpot(m: Machine, job: Job, r: RouteSpec, i: nat): Spot {
    if i == 0 then Spot(m, ReadFile(job))
    else if i == 1 then Spot(m, Undo([r], false, job))
    else Spot(Without(m, r), if i == 2 then Undo([], false, job) else if i == 3 then ClearNrpt(job) else RemoveFile(job))
  }

  lemma TearLeads(m: Machine, t: nat, job: Job, r: RouteSpec, i: nat)
    requires Room(m, t) && m.file == Some(OneRoute(r)) && !m.nrpt && (job.StartJob? || job.CleanJob?) && i < 4
    ensures Leads(TearSpot(m, job, r, i), TearSpot(m, job, r, i + 1), t, Agreeing(r))
  {
    assert [r][..0] == [];
  }

  lemma TearPath(s0: Machine, tr: Trace, p: nat, m: Machine, t: nat, job: Job, r: RouteSpec) returns (tr': Trace)
    requires Ends(s0, tr, At(m, t, ReadFile(job))) && Kept(tr, p) && Room(m, t)
    requires m.file == Some(OneRoute(r)) && !m.nrpt && (job.StartJob? || job.CleanJob?)
    ensures Ends(s0, tr', At(Without(m, r), t, RemoveFile(job))) && Kept(tr', p) && Extends(tr, tr')
  {
    forall i | 0 <= i < 4
      ensures Leads(TearSpot(m, job, r, i), TearSpot(m, job, r, i + 1), t, Agreeing(r))
    {
      TearLeads(m, t, job, r, i);
    }
    tr' := Follow(s0, tr, p, (i: nat) => TearSpot(m, job, r, i), 4, t, Agreeing(r));
  }

  function FileGone(m: Machine): Machine {
    m.(file := None)
  }

  function With(m: Machine, r: RouteSpec): Machine {
    m.(table := m.table + {r})
  }

  /** From the end of the leading cleanup to the save of the undo file. */
  function InstallSpot(m: Machine, r: RouteSpec, i: nat): Spot {
    var g, plan := m.mem.generation, Agreeing(r).plan;
    if i == 0 then Spot(m, RemoveFile(StartJob(g)))
    else if i == 1 then Spot(FileGone(m), StartEngine(g))
    else if i == 2 then Spot(FileGone(m), Install(g, plan, 0, NOTHING))
    else Spot(With(FileGone(m), r), if i == 3 then Install(g, plan, 1, OneRoute(r)) else Save(g, OneRoute(r), true))
  }

  lemma InstallLeads(m: Machine, t: nat, r: RouteSpec, i: nat)
    requires Room(m, t) && r !in m.table && i < 4
    ensures Leads(InstallSpot(m, r, i), InstallSpot(m, r, i + 1), t, Agreeing(r))
  {
    assert AllRoutes(Agreeing(r).plan) == [r];
    assert [] + [r] == [r];
  }

  lemma InstallPath(s0: Machine, tr: Trace, p: nat, m: Machine, t: nat, r: RouteSpec) returns (tr': Trace)
    requires Ends(s0, tr, At(m, t, RemoveFile(StartJob(m.mem.generation)))) && Kept(tr, p) && Room(m, t) && r !in m.table
    ensures Ends(s0, tr', At(With(FileGone(m), r), t, Save(m.mem.generation, OneRoute(r), true)))
    ensures Kept(tr', p) && Extends(tr, tr')
  {
    forall i | 0 <= i < 4
      ensures Leads(InstallSpot(m, r, i), InstallSpot(m, r, i + 1), t, Agreeing(r))
    {
      InstallLeads(m, t, r, i);
    }
    tr' := Follow(s0, tr, p, (i: nat) => InstallSpot(m, r, i), 4, t, Agreeing(r));
  }

  /** The machine once a worker of its generation has saved and published the one route. */
  function Published(m: Machine, r: RouteSpec): Machine {
    var g := m.mem.generation;
    m.(file := Some(OneRoute(r)),
       mem := m.mem.(engine := Some(g), network := OneRoute(r), status := Running, published := m.mem.published + [g]))
  }

  function SaveSpot(m: Machine, r: RouteSpec, i: nat): Spot {
    var g := m.mem.generation;
    if i == 0 then Spot(m, Save(g, OneRoute(r), true))
    else Spot(m.(file := Some(OneRoute(r))), if i == 1 then Recheck(g, OneRoute(r)) else Publish(g, OneRoute(r)))
  }

  lemma SaveLeads(m: Machine, t: nat, r: RouteSpec, i: nat)
    requires Room(m, t) && i < 2
    ensures Leads(SaveSpot(m, r, i), SaveSpot(m, r, i + 1), t, Agreeing(r))
  {
  }

  lemma PublishMoves(m: Machine, t: nat, r: RouteSpec)
    requires Room(m, t)
    ensures Moves(m.(file := Some(OneRoute(r))), Published(m, r), t, Publish(m.mem.generation, OneRoute(r)),
                  SpawnMonitor(m.mem.generation), Agreeing(r))
    ensures Leads(Spot(Published(m, r), SpawnMonitor(m.mem.generation)), Spot(Published(m, r), MonitorPoll(m.mem.generation)),
                  t, Agreeing(r))
  {
  }

  /** Event number p - 1 of the trace is a publication by thread `t`. */
  ghost predicate IsPublication(tr: Trace, p: nat, t: nat, g: nat, r: RouteSpec) {
    && 0 < p <= |tr.events| < |tr.states|
    && StepsFrom(tr.states[p - 1], tr.events[p - 1], t, Publish(g, OneRoute(r)))
  }

  lemma PublicationStays(tr: Trace, tr': Trace, p: nat, t: nat, g: nat, r: RouteSpec)
    requires IsPublication(tr, p, t, g, r) && Extends(tr, tr') && |tr'.events| < |tr'.states|
    ensures IsPublication(tr', p, t, g, r)
  {
  }

  lemma PublishStep(s0: Machine, tr: Trace, p: nat, m: Machine, t: nat, r: RouteSpec) returns (tr': Trace, p': nat)
    requires Room(m, t)
    requires Ends(s0, tr, At(m.(file := Some(OneRoute(r))), t, Publish(m.mem.generation, OneRoute(r)))) && Kept(tr, p)
    ensures Ends(s0, tr', At(Published(m, r), t, SpawnMonitor(m.mem.generation))) && Extends(tr, tr')
    ensures |tr.events| < p' && Kept(tr', p') && IsPublication(tr', p', t, m.mem.generation, r)
  {
    var g, n := m.mem.generation, m.(file := Some(OneRoute(r)));
    PublishMoves(m, t, r);
    MoveStep(n, Published(m, r), t, Publish(g, OneRoute(r)), SpawnMonitor(g), Agreeing(r));
    tr' := Go(s0, tr, At(n, t, Publish(g, OneRoute(r))), Advance(t, Agreeing(r)), At(Published(m, r), t, SpawnMonitor(g)));
    p' := |tr'.events|;
  }

  lemma SavePath(s0: Machine, tr: Trace, p: nat, m: Machine, t: nat, r: RouteSpec) returns (tr': Trace)
    requires Ends(s0, tr, At(m, t, Save(m.mem.generation, OneRoute(r), true))) && Kept(tr, p) && Room(m, t)
    ensures Ends(s0, tr', At(m.(file := Some(OneRoute(r))), t, Publish(m.mem.generation, OneRoute(r))))
    ensures Kept(tr', p) && Extends(tr, tr')
  {
    forall i | 0 <= i < 2
      ensures Leads(SaveSpot(m, r, i), SaveSpot(m, r, i + 1), t, Agreeing(r))
    {
      SaveLeads(m, t, r, i);
    }
    tr' := Follow(s0, tr, p, (i: nat) => SaveSpot(m, r, i), 2, t, Agreeing(r));
  }

  /** From the save to the monitor; `p'` is the number of the event behind the publication. */
  lemma PublishPath(s0: Machine, tr: Trace, p: nat, m: Machine, t: nat, r: RouteSpec) returns (tr': Trace, p': nat)
    requires Ends(s0, tr, At(m, t, Save(m.mem.generation, OneRoute(r), true))) && Kept(tr, p) && Room(m, t)
    ensures Ends(s0, tr', At(Published(m, r), t, MonitorPoll(m.mem.generation))) && Kept(tr', p') && Extends(tr, tr')
    ensures |tr.events| < p' && IsPublication(tr', p', t, m.mem.generation, r)
  {
    var g, n := m.mem.generation, Published(m, r);
    var a := SavePath(s0, tr, p, m, t, r);
    var b;
    b, p' := PublishStep(s0, a, p, m, t, r);
    PublishMoves(m, t, r);
    tr' := Step(s0, b, p', n, n, t, SpawnMonitor(g), MonitorPoll(g), Agreeing(r));
    ExtendsOn(tr, a, b);
    ExtendsOn(tr, b, tr');
    PublicationStays(b, tr', p', t, g, r);
  }

  /** The machine with a tunnel of the current generation and one route. */
  function Tunnel(m: Machine, r: RouteSpec): Machine {
    Published(With(FileGone(m), r), r)
  }

  /** A start worker behind its leading cleanup brings up the tunnel. */
  lemma TunnelPath(s0: Machine, tr: Trace, p: nat, m: Machine, t: nat, r: RouteSpec) returns (tr': Trace, p': nat)
    requires Ends(s0, tr, At(m, t, RemoveFile(StartJob(m.mem.generation)))) && Kept(tr, p) && Room(m, t) && r !in m.table
    ensures Ends(s0, tr', At(Tunnel(m, r), t, MonitorPoll(m.mem.generation))) && Kept(tr', p') && Extends(tr, tr')
    ensures |tr.events| < p' && IsPublication(tr', p', t, m.mem.generation, r)
  {
    var a := InstallPath(s0, tr, p, m, t, r);
    tr', p' := PublishPath(s0, a, p, With(FileGone(m), r), t, r);
    ExtendsOn(tr, a, tr');
  }

  /** A start worker, from its beginning, on a machine without leftovers. */
  lemma StartPath(s0: Machine, tr: Trace, p: nat, m: Machine, t: nat, r: RouteSpec) returns (tr': Trace, p': nat)
    requires Ends(s0, tr, At(m, t, Begin)) && Kept(tr, p) && Room(m, t)
    requires m.file == None && !m.nrpt && r !in m.table
    ensures Ends(s0, tr', At(Tunnel(m, r), t, MonitorPoll(m.mem.generation))) && Kept(tr', p') && Extends(tr, tr')
    ensures |tr.events| < p' && IsPublication(tr', p', t, m.mem.generation, r)
  {
    var a := CheckPath(s0, tr, p, m, t, r);
    var b := NothingPath(s0, a, p, m, t, StartJob(m.mem.generation), r);
    tr', p' := TunnelPath(s0, b, p, m, t, r);
    ExtendsOn(tr, a, b);
    ExtendsOn(tr, b, tr');
  }

  // ---- Calls, and turning to another thread ----

  function Remove(m: Machine, t: nat): Machine {
    m.(mem := m.mem.(threads := m.mem.threads - {t}))
  }

  /** Any thread outside the critical sections can be the one that moves next. */
  lemma Focus(m: Machine, t: nat)
    requires t in m.mem.threads && m.mem.lock == None && !Holds(m.mem.threads[t])
    ensures m == At(Remove(m, t), t, m.mem.threads[t]) && Room(Remove(m, t), t)
  {
    assert (m.mem.threads - {t})[t := m.mem.threads[t]] == m.mem.threads;
  }

  function WithStatus(m: Machine, status: Status): Machine {
    m.(mem := m.mem.(status := status))
  }

  function WithGeneration(m: Machine, g: nat): Machine {
    m.(mem := m.mem.(generation := g))
  }

  lemma StopCall(s0: Machine, tr: Trace, p: nat, m: Machine, t: nat) returns (tr': Trace)
    requires Ends(s0, tr, m) && Kept(tr, p) && Room(m, t) && m.mem.booted
    ensures var k := m.mem.generation + 1; Ends(s0, tr', At(WithGeneration(m, k), t, StopMark(k)))
    ensures Kept(tr', p) && Extends(tr, tr')
  {
    var k := m.mem.generation + 1;
    tr' := Go(s0, tr, m, CallStop(t), At(WithGeneration(m, k), t, StopMark(k)));
    KeptOn(tr, tr', p, CallStop(t), m, At(WithGeneration(m, k), t, StopMark(k)));
  }

  lemma CleanupCall(s0: Machine, tr: Trace, p: nat, m: Machine, t: nat) returns (tr': Trace)
    requires Ends(s0, tr, m) && Kept(tr, p) && Room(m, t) && m.mem.booted
    ensures Ends(s0, tr', At(m, t, CleanWait)) && Kept(tr', p) && Extends(tr, tr')
    ensures tr'.events == tr.events + [CallCleanup(t)]
  {
    tr' := Go(s0, tr, m, CallCleanup(t), At(m, t, CleanWait));
    KeptOn(tr, tr', p, CallCleanup(t), m, At(m, t, CleanWait));
  }

  // ---- Two workers at once ----

  /** Threads 1 and 3 are start workers that have not read the generation, which is 1; no tunnel is up. */
  ghost predicate TwoWorkers(m: Machine, background: set<RouteSpec>) {
    && m.table == background && m.file == None && !m.nrpt && m.mem.booted && m.mem.generation == 1
    && m.mem.engine == None && m.mem.lock == None && m.mem.threads == map[1 := Begin, 3 := Begin]
  }

  lemma TwoAtOnce(background: set<RouteSpec>) returns (tr: Trace, m: Machine)
    ensures Ends(Fresh(background), tr, m) && Kept(tr, |tr.events|) && TwoWorkers(m, background)
    ensures Happened(CallStop(2), tr.events)
  {
    var states, es := TwoBegun(background);
    tr, m := Trace(states, es), states[|es|];
  }

  /** Thread `t`, one of two workers, brings up a tunnel while the other waits to begin. */
  lemma OneOfTwo(background: set<RouteSpec>, a: Trace, m: Machine, t: nat, u: nat, r: RouteSpec)
    returns (tr: Trace, p: nat, live: Machine)
    requires Ends(Fresh(background), a, m) && Kept(a, |a.events|) && TwoWorkers(m, background)
    requires r !in background && {t, u} == {1, 3}
    ensures Extends(a, tr) && |a.events| < p
    ensures Ends(Fresh(background), tr, live) && Kept(tr, p) && IsPublication(tr, p, t, 1, r)
    ensures TunnelRuns(live, background, 1, r) && live.mem.threads == map[u := Begin, t := MonitorPoll(1)]
    ensures live.mem.generation == 1
  {
    Focus(m, t);
    var n := Remove(m, t);
    assert n.mem.threads == map[u := Begin];
    tr, p := StartPath(Fresh(background), a, |a.events|, n, t, r);
    TunnelIsUp(n, t, background, r);
    live := At(Tunnel(n, r), t, MonitorPoll(1));
  }

  // ---- A cleanup takes the routes of a running tunnel ----

  lemma CleanupPath(s0: Machine, tr: Trace, p: nat, m: Machine, t: nat, r: RouteSpec) returns (tr': Trace)
    requires Ends(s0, tr, At(m, t, CleanWait)) && Kept(tr, p) && Room(m, t)
    requires m.file == Some(OneRoute(r)) && !m.nrpt && m.mem.booted
    ensures Ends(s0, tr', FileGone(Without(m, r))) && Kept(tr', p) && Extends(tr, tr')
  {
    var n := Without(m, r);
    var a := Step(s0, tr, p, m, m, t, CleanWait, ReadFile(CleanJob), Agreeing(r));
    var b := TearPath(s0, a, p, m, t, CleanJob, r);
    tr' := CleanupEnd(s0, b, p, n, t, r);
    ExtendsOn(tr, a, b);
    ExtendsOn(tr, b, tr');
  }

  lemma CleanupEnd(s0: Machine, tr: Trace, p: nat, m: Machine, t: nat, r: RouteSpec) returns (tr': Trace)
    requires Ends(s0, tr, At(m, t, RemoveFile(CleanJob))) && Kept(tr, p) && Room(m, t) && m.mem.booted
    ensures Ends(s0, tr', FileGone(m)) && Kept(tr', p) && Extends(tr, tr')
  {
    EndStep(m, FileGone(m), t, RemoveFile(CleanJob), Agreeing(r));
    tr' := Go(s0, tr, At(m, t, RemoveFile(CleanJob)), Advance(t, Agreeing(r)), FileGone(m));
    KeptOn(tr, tr', p, Advance(t, Agreeing(r)), At(m, t, RemoveFile(CleanJob)), FileGone(m));
  }

  /** A booted machine on the background, before anything else. */
  function Fresh(background: set<RouteSpec>): Machine {
    Machine(background, false, None, BOOT, {})
  }

  lemma IsARun(background: set<RouteSpec>, tr: Trace, m: Machine)
    requires Ends(Fresh(background), tr, m)
    ensures IsRun(background, tr.states, tr.events)
  {
    FeasibleIsRun(background, Fresh(background), tr.events, tr.states);
  }

  /** A tunnel of generation `g` with one route on the background runs. */
  ghost predicate TunnelRuns(m: Machine, background: set<RouteSpec>, g: nat, r: RouteSpec) {
    && r !in background && m.table == background + {r} && m.file == Some(OneRoute(r)) && !m.nrpt && m.mem.booted
    && m.mem.engine == Some(g) && m.mem.network == OneRoute(r) && m.mem.status == Running && m.mem.lock == None
  }

  lemma TunnelIsUp(m: Machine, t: nat, background: set<RouteSpec>, r: RouteSpec)
    requires m.table == background && r !in background && !m.nrpt && m.mem.booted && Room(m, t)
    ensures TunnelRuns(At(Tunnel(m, r), t, MonitorPoll(m.mem.generation)), background, m.mem.generation, r)
  {
  }

  /** What is left when the routes of a running tunnel are taken away. */
  ghost predicate TunnelTorn(m: Machine, background: set<RouteSpec>, g: nat, r: RouteSpec) {
    && m.table == background && m.mem.engine == Some(g) && m.mem.network.routes == [r] && m.mem.lock == None
  }

  lemma TearingTears(m: Machine, background: set<RouteSpec>, g: nat, r: RouteSpec)
    requires TunnelRuns(m, background, g, r)
    ensures TunnelTorn(FileGone(Without(m, r)), background, g, r) && FileGone(Without(m, r)).mem.status == Running
  {
    assert background + {r} - {r} == background;
  }

  /** The event happens in the trace, at a number from `i` up to but not including `j`. */
  ghost predicate Happens(e: Event, tr: Trace, i: nat, j: nat) {
    exists k :: i <= k < j <= |tr.events| && tr.events[k] == e
  }

  lemma StopThenCleanup(two: Trace, p: nat, a: Trace, b: Trace, tr: Trace)
    requires Happened(CallStop(2), two.events) && |two.events| < p <= |a.events|
    requires Extends(two, a) && Extends(a, b) && Extends(b, tr) && b.events == a.events + [CallCleanup(2)]
    ensures Happens(CallStop(2), tr, 0, p) && Happens(CallCleanup(2), tr, p, |tr.events|)
  {
    var k :| 0 <= k < |two.events| && two.events[k] == CallStop(2);
    assert tr.events[k] == CallStop(2) && tr.events[|a.events|] == CallCleanup(2);
  }

  /** On every background and for every other route there is a run in which a cleanup leaves a running
      tunnel without its route: the engine, the record and the status stay. Thread 2 executes the cleanup
      command, a stop and then a cleanup, and the tunnel comes up between the two. */
  lemma CleanupTearsTunnel(background: set<RouteSpec>, r: RouteSpec) returns (tr: Trace, p: nat)
    requires r !in background
    ensures IsRun(background, tr.states, tr.events) && IsPublication(tr, p, 3, 1, r) && Kept(tr, p)
    ensures Happens(CallStop(2), tr, 0, p) && Happens(CallCleanup(2), tr, p, |tr.events|)
    ensures TunnelTorn(tr.states[|tr.events|], background, 1, r) && tr.states[|tr.events|].mem.status == Running
  {
    var two, m := TwoAtOnce(background);
    var a, live;
    a, p, live := OneOfTwo(background, two, m, 3, 1, r);
    var b := CleanupCall(Fresh(background), a, p, live, 2);
    tr := CleanupPath(Fresh(background), b, p, live, 2, r);
    ExtendsOn(a, b, tr);
    PublicationStays(a, tr, p, 3, 1, r);
    StopThenCleanup(two, p, a, b, tr);
    TearingTears(live, background, 1, r);
    IsARun(background, tr, FileGone(Without(live, r)));
  }

  // ---- A worker of a newer generation takes the routes ----

  /** Behind its leading cleanup a worker fails to start its engine. */
  lemma FailLeads(m: Machine, t: nat, r: RouteSpec)
    requires Room(m, t)
    ensures var g, n := m.mem.generation, FileGone(m);
            && Leads(Spot(m, RemoveFile(StartJob(g))), Spot(n, StartEngine(g)), t, Agreeing(r))
            && Leads(Spot(n, StartEngine(g)), Spot(n, FailReport(g)), t, Agreeing(r).(ok := false))
  {
  }

  lemma FailPath(s0: Machine, tr: Trace, p: nat, m: Machine, t: nat, r: RouteSpec) returns (tr': Trace)
    requires Ends(s0, tr, At(m, t, RemoveFile(StartJob(m.mem.generation)))) && Kept(tr, p) && Room(m, t)
    ensures Ends(s0, tr', At(FileGone(m), t, FailReport(m.mem.generation))) && Kept(tr', p) && Extends(tr, tr')
  {
    var g, n := m.mem.generation, FileGone(m);
    FailLeads(m, t, r);
    var a := Step(s0, tr, p, m, n, t, RemoveFile(StartJob(g)), StartEngine(g), Agreeing(r));
    tr' := Step(s0, a, p, n, n, t, StartEngine(g), FailReport(g), Agreeing(r).(ok := false));
    ExtendsOn(tr, a, tr');
  }

  /** A worker of the current generation takes the routes of a running tunnel and then fails. */
  lemma WorkerTears(s0: Machine, tr: Trace, p: nat, m: Machine, t: nat, r: RouteSpec) returns (tr': Trace)
    requires Ends(s0, tr, At(m, t, Begin)) && Kept(tr, p) && Room(m, t)
    requires m.file == Some(OneRoute(r)) && !m.nrpt
    ensures Ends(s0, tr', At(FileGone(Without(m, r)), t, FailReport(m.mem.generation))) && Kept(tr', p) && Extends(tr, tr')
    ensures Has(tr', |tr.events|, t, StartCheck(m.mem.generation))
  {
    var g := m.mem.generation;
    var a := CheckPath(s0, tr, p, m, t, r);
    var b := TearPath(s0, a, p, m, t, StartJob(g), r);
    tr' := FailPath(s0, b, p, Without(m, r), t, r);
    ExtendsOn(tr, a, b);
    ExtendsOn(tr, b, tr');
    ExtendsOn(a, b, tr');
    HasStays(a, tr', |tr.events|, t, StartCheck(g));
  }

  /** A stop has raised the generation while the tunnel of generation 1 runs; worker 1 has yet to begin. */
  ghost predicate StopPending(m: Machine, background: set<RouteSpec>, r: RouteSpec) {
    && r !in background && m.table == background + {r} && m.file == Some(OneRoute(r)) && !m.nrpt
    && m.mem.engine == Some(1) && m.mem.network == OneRoute(r) && m.mem.generation == 2 && Room(m, 1)
  }

  lemma StopComes(s0: Machine, tr: Trace, p: nat, live: Machine, background: set<RouteSpec>, r: RouteSpec)
    returns (tr': Trace, m: Machine)
    requires Ends(s0, tr, live) && Kept(tr, p) && TunnelRuns(live, background, 1, r)
    requires live.mem.threads == map[1 := Begin, 3 := MonitorPoll(1)] && live.mem.generation == 1
    ensures Ends(s0, tr', At(m, 1, Begin)) && Kept(tr', p) && Extends(tr, tr') && StopPending(m, background, r)
  {
    tr' := StopCall(s0, tr, p, live, 4);
    var stopping := At(WithGeneration(live, 2), 4, StopMark(2));
    Focus(stopping, 1);
    m := Remove(stopping, 1);
  }

  lemma PendingTears(m: Machine, background: set<RouteSpec>, r: RouteSpec)
    requires StopPending(m, background, r)
    ensures TunnelTorn(At(FileGone(Without(m, r)), 1, FailReport(2)), background, 1, r)
  {
    assert background + {r} - {r} == background;
  }

  /** There is also such a run in which the disturbing worker carries the generation of a stop that waits
      for the lock, newer than the engine's: the worker passes its check all the same. */
  lemma NewerWorkerTearsTunnel(background: set<RouteSpec>, r: RouteSpec) returns (tr: Trace, p: nat)
    requires r !in background
    ensures IsRun(background, tr.states, tr.events) && IsPublication(tr, p, 3, 1, r) && Kept(tr, p)
    ensures Has(tr, p, 1, StartCheck(2)) && TunnelTorn(tr.states[|tr.events|], background, 1, r)
  {
    var s0 := Fresh(background);
    var two, m := TwoAtOnce(background);
    var a, live, b;
    a, p, live := OneOfTwo(background, two, m, 3, 1, r);
    b, m := StopComes(s0, a, p, live, background, r);
    tr := WorkerTears(s0, b, p, m, 1, r);
    PendingTears(m, background, r);
    ExtendsOn(a, b, tr);
    PublicationStays(a, tr, p, 3, 1, r);
    HasFrom(tr, p, |b.events|, 1, StartCheck(2));
    IsARun(background, tr, At(FileGone(Without(m, r)), 1, FailReport(2)));
  }

  lemma HasFrom(tr: Trace, p: nat, q: nat, t: nat, pc: Pc)
    requires Has(tr, q, t, pc) && p <= q
    ensures Has(tr, p, t, pc)
  {
  }

  // ---- A late failure is written over the status of a running tunnel ----

  /** A worker fails to start its engine and stands before writing Failed. */
  lemma FailurePath(s0: Machine, tr: Trace, p: nat, m: Machine, t: nat, r: RouteSpec) returns (tr': Trace)
    requires Ends(s0, tr, At(m, t, Begin)) && Kept(tr, p) && Room(m, t) && m.file == None && !m.nrpt
    ensures Ends(s0, tr', At(m, t, FailSet)) && Kept(tr', p) && Extends(tr, tr')
  {
    var g := m.mem.generation;
    var a := FailedStart(s0, tr, p, m, t, r);
    ReportLeads(m, t, r);
    tr' := Step(s0, a, p, m, m, t, FailReport(g), FailSet, Agreeing(r));
    ExtendsOn(tr, a, tr');
  }

  lemma ReportLeads(m: Machine, t: nat, r: RouteSpec)
    requires Room(m, t)
    ensures Leads(Spot(m, FailReport(m.mem.generation)), Spot(m, FailSet), t, Agreeing(r))
  {
  }

  lemma FailedStart(s0: Machine, tr: Trace, p: nat, m: Machine, t: nat, r: RouteSpec) returns (tr': Trace)
    requires Ends(s0, tr, At(m, t, Begin)) && Kept(tr, p) && Room(m, t) && m.file == None && !m.nrpt
    ensures Ends(s0, tr', At(m, t, FailReport(m.mem.generation))) && Kept(tr', p) && Extends(tr, tr')
  {
    var a := CheckPath(s0, tr, p, m, t, r);
    var b := NothingPath(s0, a, p, m, t, StartJob(m.mem.generation), r);
    tr' := FailPath(s0, b, p, m, t, r);
    ExtendsOn(tr, a, b);
    ExtendsOn(tr, b, tr');
  }

  /** Worker 1 of two stands before writing Failed; worker 3 has yet to begin. */
  lemma LateFailure(background: set<RouteSpec>, r: RouteSpec) returns (tr: Trace, m: Machine)
    ensures Ends(Fresh(background), tr, At(m, 3, Begin)) && Kept(tr, |tr.events|) && Room(m, 3)
    ensures m.table == background && m.file == None && !m.nrpt && m.mem.booted && m.mem.generation == 1
    ensures m.mem.threads == map[1 := FailSet]
  {
    var a, both := TwoAtOnce(background);
    Focus(both, 1);
    var n := Remove(both, 1);
    tr := FailurePath(Fresh(background), a, |a.events|, n, 1, r);
    Focus(At(n, 1, FailSet), 3);
    m := Remove(At(n, 1, FailSet), 3);
    assert m.mem.threads == map[1 := FailSet];
  }

  lemma FailureLands(s0: Machine, tr: Trace, p: nat, m: Machine, r: RouteSpec) returns (tr': Trace)
    requires Ends(s0, tr, At(m, 1, FailSet)) && Kept(tr, p) && Room(m, 1)
    ensures Ends(s0, tr', WithStatus(m, Failed)) && Kept(tr', p) && Extends(tr, tr')
  {
    EndStep(m, WithStatus(m, Failed), 1, FailSet, Agreeing(r));
    tr' := Go(s0, tr, At(m, 1, FailSet), Advance(1, Agreeing(r)), WithStatus(m, Failed));
    KeptOn(tr, tr', p, Advance(1, Agreeing(r)), At(m, 1, FailSet), WithStatus(m, Failed));
  }

  /** On every background there is a run in which the engine of worker 3 runs with its route in the table
      and the status is Failed, because another worker of the generation reported late. */
  lemma FailureHidesTunnel(background: set<RouteSpec>, r: RouteSpec) returns (tr: Trace, p: nat)
    requires r !in background
    ensures IsRun(background, tr.states, tr.events) && IsPublication(tr, p, 3, 1, r) && Kept(tr, p)
    ensures var s := tr.states[|tr.events|];
            && s.mem.engine == Some(1) && s.mem.lock == None && s.table == background + {r} && s.mem.status == Failed
  {
    var s0 := Fresh(background);
    var a, m := LateFailure(background, r);
    var b;
    b, p := StartPath(s0, a, |a.events|, m, 3, r);
    var live := At(Tunnel(m, r), 3, MonitorPoll(1));
    Focus(live, 1);
    tr := FailureLands(s0, b, p, Remove(live, 1), r);
    PublicationStays(b, tr, p, 3, 1, r);
    IsARun(background, tr, WithStatus(Remove(live, 1), Failed));
  }

  // ---- A monitor takes another worker's engine ----

  /** The monitor of thread `t` finds its own engine stopped and comes to take what is in the record. */
  function MonitorSpot(m: Machine, g: nat, i: nat): Spot {
    Spot(m, if i == 0 then MonitorPoll(g) else if i == 1 then MonitorWait(g) else if i == 2 then MonitorCheck(g)
            else MonitorTake(g, false))
  }

  lemma MonitorLeads(m: Machine, t: nat, r: RouteSpec, i: nat)
    requires Room(m, t) && i < 3
    ensures Leads(MonitorSpot(m, m.mem.generation, i), MonitorSpot(m, m.mem.generation, i + 1), t, Agreeing(r).(ok := false))
  {
  }

  lemma MonitorPath(s0: Machine, tr: Trace, p: nat, m: Machine, t: nat, r: RouteSpec) returns (tr': Trace)
    requires Ends(s0, tr, At(m, t, MonitorPoll(m.mem.generation))) && Kept(tr, p) && Room(m, t)
    ensures Ends(s0, tr', At(m, t, MonitorTake(m.mem.generation, false))) && Kept(tr', p) && Extends(tr, tr')
  {
    var g, c := m.mem.generation, Agreeing(r).(ok := false);
    forall i | 0 <= i < 3
      ensures Leads(MonitorSpot(m, g, i), MonitorSpot(m, g, i + 1), t, c)
    {
      MonitorLeads(m, t, r, i);
    }
    tr' := Follow(s0, tr, p, (i: nat) => MonitorSpot(m, g, i), 3, t, c);
  }

  /** A worker takes the routes of the running tunnel and brings up its own, of the same generation. */
  lemma ReplacePath(s0: Machine, tr: Trace, p: nat, m: Machine, t: nat, r: RouteSpec) returns (tr': Trace, q: nat)
    requires Ends(s0, tr, At(m, t, Begin)) && Kept(tr, p) && Room(m, t) && m.file == Some(OneRoute(r)) && !m.nrpt
    ensures Ends(s0, tr', At(Tunnel(Without(m, r), r), t, MonitorPoll(m.mem.generation))) && Kept(tr', q)
    ensures Extends(tr, tr') && |tr.events| < q && IsPublication(tr', q, t, m.mem.generation, r)
  {
    var a := CheckPath(s0, tr, p, m, t, r);
    var b := TearPath(s0, a, p, m, t, StartJob(m.mem.generation), r);
    tr', q := TunnelPath(s0, b, p, Without(m, r), t, r);
    ExtendsOn(tr, a, b);
    ExtendsOn(tr, b, tr');
  }

  /** The tunnel of worker 1 runs, and worker 3 is about to begin. */
  lemma OtherBegins(background: set<RouteSpec>, r: RouteSpec) returns (tr: Trace, p: nat, n: Machine)
    requires r !in background
    ensures Ends(Fresh(background), tr, At(n, 3, Begin)) && Kept(tr, p) && IsPublication(tr, p, 1, 1, r) && Room(n, 3)
    ensures n.mem.threads == map[1 := MonitorPoll(1)] && n.mem.generation == 1
    ensures n.file == Some(OneRoute(r)) && !n.nrpt
  {
    var two, m := TwoAtOnce(background);
    var live;
    tr, p, live := OneOfTwo(background, two, m, 1, 3, r);
    Focus(live, 3);
    n := Remove(live, 3);
    assert n.mem.threads == map[1 := MonitorPoll(1)];
  }

  /** Worker 3 does so to the tunnel of worker 1. */
  lemma Replacement(background: set<RouteSpec>, r: RouteSpec) returns (tr: Trace, p: nat, q: nat, m: Machine)
    requires r !in background
    ensures Ends(Fresh(background), tr, At(m, 1, MonitorPoll(1))) && Kept(tr, q) && Room(m, 1)
    ensures p < q && IsPublication(tr, p, 1, 1, r) && IsPublication(tr, q, 3, 1, r)
    ensures m.mem.engine == Some(1) && m.mem.generation == 1
  {
    var a, n;
    a, p, n := OtherBegins(background, r);
    tr, q := ReplacePath(Fresh(background), a, p, n, 3, r);
    PublicationStays(a, tr, p, 1, 1, r);
    m := TurnToOne(Without(n, r), r);
  }

  lemma TurnToOne(n: Machine, r: RouteSpec) returns (m: Machine)
    requires n.mem.threads == map[1 := MonitorPoll(1)] && n.mem.generation == 1 && n.mem.lock == None
    ensures At(Tunnel(n, r), 3, MonitorPoll(1)) == At(m, 1, MonitorPoll(1)) && Room(m, 1)
    ensures m.mem.engine == Some(1) && m.mem.generation == 1
  {
    var two := At(Tunnel(n, r), 3, MonitorPoll(1));
    Focus(two, 1);
    m := Remove(two, 1);
  }

  /** On every background there is a run in which the monitor of worker 1 takes the engine that worker 3
      published after it in the same generation. */
  lemma MonitorTakesAnother(background: set<RouteSpec>, r: RouteSpec) returns (tr: Trace, p: nat, q: nat)
    requires r !in background
    ensures IsRun(background, tr.states, tr.events) && p < q < |tr.events|
    ensures IsPublication(tr, p, 1, 1, r) && IsPublication(tr, q, 3, 1, r)
    ensures var i := |tr.events| - 1;
            && StepsFrom(tr.states[i], tr.events[i], 1, MonitorTake(1, false)) && tr.states[i].mem.engine == Some(1)
            && Untouched(tr.states, tr.events, q, i)
  {
    var s0, c := Fresh(background), Agreeing(r);
    var a, m;
    a, p, q, m := Replacement(background, r);
    var b := MonitorPath(s0, a, q, m, 1, r);
    PublicationStays(a, b, p, 1, 1, r);
    PublicationStays(a, b, q, 3, 1, r);
    var s := At(m, 1, MonitorTake(1, false));
    tr := Go(s0, b, s, Advance(1, c), Apply(s, Advance(1, c)));
    PublicationStays(b, tr, p, 1, 1, r);
    PublicationStays(b, tr, q, 3, 1, r);
    IsARun(background, tr, Apply(s, Advance(1, c)));
    UntouchedPart(b, tr, q);
  }

  lemma UntouchedPart(tr: Trace, tr': Trace, q: nat)
    requires Kept(tr, q) && Extends(tr, tr') && |tr'.events| < |tr'.states|
    ensures Untouched(tr'.states, tr'.events, q, |tr.events|)
  {
  }
}

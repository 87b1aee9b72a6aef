/** What becomes of a start: a failed one is reported, an announced one has a worker, a cancelled one
    touches nothing, and none begins while a tunnel shows as running. Also how a monitor reports. */
module RuntimeStarts {
  import opened Options
  import opened Network
  import opened Runtime
  import opened RuntimeInvariant
  import opened RuntimeTheorems
  import opened RuntimeThreads
  import opened RuntimeLeak
  import opened RuntimeSharing
  import opened RuntimeOverlap
  import opened RuntimeStatus

  // ---- A failed start ----

  /** The start worker of generation `g` meets a failure: its engine does not start, a route of the tunnel is
      refused, or the rule cannot be applied. */
  ghost predicate FailsStart(s: Machine, e: Event, t: nat, g: nat) {
    && e.Advance? && e.t == t && t in s.mem.threads && !e.c.ok
    && match s.mem.threads[t]
       case StartEngine(h) => h == g
       case Install(h, plan, i, _) => h == g && |plan.bypass| <= i < |AllRoutes(plan)|
       case ApplyNrpt(h, _) => h == g
       case _ => false
  }

  /** The places of a worker that takes a failed start back and has yet to report it. */
  predicate Failing(pc: Pc, g: nat) {
    match pc
    case Save(h, _, ok) => h == g && !ok
    case Undo(_, _, job) => job == AbortJob(g, true)
    case FailReport(h) => h == g
    case FailSet => true
    case _ => false
  }

  lemma FailureStarts(s: Machine, e: Event, s': Machine, t: nat, g: nat)
    requires FailsStart(s, e, t, g) && Enabled(s, e) && s' == Apply(s, e)
    ensures t in s'.mem.threads && Failing(s'.mem.threads[t], g) && !s'.mem.threads[t].FailSet?
  {
  }

  lemma FailingLasts(g: nat)
    ensures Lasting((pc: Pc) => Failing(pc, g))
  {
    forall s, pc, c | Failing(pc, g) && NextPc(s, pc, c).Some?
      ensures Failing(NextPc(s, pc, c).value, g)
    {
      FailingNext(s, pc, c, g);
    }
  }

  lemma FailingNext(s: Machine, pc: Pc, c: Choice, g: nat)
    requires Failing(pc, g)
    ensures match NextPc(s, pc, c)
            case Some(next) => Failing(next, g) && (next.FailSet? ==> pc.FailReport? && s.mem.generation == g)
            case None => pc.FailSet? || (pc.FailReport? && s.mem.generation != g)
  {
  }

  /** The worker has looked at the generation between states i and k, and it was still its own. */
  ghost predicate Reports(states: seq<Machine>, events: seq<Event>, t: nat, g: nat, i: nat, k: nat)
    requires k <= |events| < |states|
  {
    exists r :: i <= r < k && ReportStep(states[r], events[r], t, g)
  }

  ghost predicate ReportStep(s: Machine, e: Event, t: nat, g: nat) {
    StepsFrom(s, e, t, FailReport(g)) && s.mem.generation == g
  }

  /** A worker that takes a failed start back goes on doing so, and comes to write only by a report. */
  ghost predicate FailsOn(s: Machine, e: Event, s': Machine, t: nat, g: nat) {
    && t in s.mem.threads && t in s'.mem.threads
    && (Failing(s.mem.threads[t], g) ==>
          && Failing(s'.mem.threads[t], g)
          && (s'.mem.threads[t].FailSet? ==> s.mem.threads[t].FailSet? || ReportStep(s, e, t, g)))
  }

  lemma FailingStep(background: set<RouteSpec>, states: seq<Machine>, events: seq<Event>, t: nat, g: nat, k: nat)
    requires IsRun(background, states, events) && k < |events| && !events[k].Crash?
    requires t in states[k].mem.threads && t in states[k + 1].mem.threads
    ensures FailsOn(states[k], events[k], states[k + 1], t, g)
  {
    RunStep(background, states, events, k);
    if events[k].Advance? && events[k].t == t {
      ItsOwnStep(states[k], events[k], states[k + 1], t);
      if Failing(states[k].mem.threads[t], g) {
        FailingNext(states[k], states[k].mem.threads[t], events[k].c, g);
      }
    } else {
      OthersLeaveIt(states[k], events[k], states[k + 1], t);
    }
  }

  lemma {:induction false} FailingAlong(states: seq<Machine>, events: seq<Event>, t: nat, g: nat, i: nat, j: nat)
    requires i <= j <= |events| < |states| && t in states[i].mem.threads
    requires Failing(states[i].mem.threads[t], g) && !states[i].mem.threads[t].FailSet?
    requires forall k :: i <= k < j ==> FailsOn(states[k], events[k], states[k + 1], t, g)
    ensures t in states[j].mem.threads && Failing(states[j].mem.threads[t], g)
    ensures states[j].mem.threads[t].FailSet? ==> Reports(states, events, t, g, i, j)
    decreases j
  {
    if i < j {
      FailingAlong(states, events, t, g, i, j - 1);
      assert FailsOn(states[j - 1], events[j - 1], states[j], t, g);
      if ReportStep(states[j - 1], events[j - 1], t, g) {
        assert Reports(states, events, t, g, i, j);
      }
    }
  }

  lemma SetIsReported(background: set<RouteSpec>, states: seq<Machine>, events: seq<Event>, t: nat, g: nat, i: nat, j: nat)
    requires IsRun(background, states, events) && i <= j < |states| && NoCrash(events, i, j) && Alive(states, t, i, j)
    requires Failing(states[i].mem.threads[t], g) && !states[i].mem.threads[t].FailSet?
    ensures Failing(states[j].mem.threads[t], g)
    ensures states[j].mem.threads[t].FailSet? ==> Reports(states, events, t, g, i, j)
  {
    forall k | i <= k < j
      ensures FailsOn(states[k], events[k], states[k + 1], t, g)
    {
      FailingStep(background, states, events, t, g, k);
    }
    FailingAlong(states, events, t, g, i, j);
  }

  /** A start worker that failed ends by writing Failed if nobody has called stop since it read its
      generation. If it ends without writing, somebody has; if it writes, nobody had by the step before. */
  lemma FailureReported(background: set<RouteSpec>, states: seq<Machine>, events: seq<Event>,
                        b: nat, i: nat, t: nat, g: nat, j: nat)
    requires IsRun(background, states, events) && b < i < j < |events| && NoCrash(events, b, j)
    requires ReadsGeneration(states[b], events[b], t, g) && FailsStart(states[i], events[i], t, g)
    requires Alive(states, t, i + 1, j) && Ends(states[j], events[j], states[j + 1], t)
    ensures NoStopCall(events, b, j) ==> states[j].mem.threads[t] == FailSet
    ensures if states[j].mem.threads[t] == FailSet
            then states[j + 1].mem.status == Failed && ReportedBefore(states, events, b, i, t, g, j)
            else StepsFrom(states[j], events[j], t, FailReport(g)) && !NoStopCall(events, b, j)
                 && states[j + 1].mem.status == states[j].mem.status
  {
    RunStep(background, states, events, i);
    FailureStarts(states[i], events[i], states[i + 1], t, g);
    SetIsReported(background, states, events, t, g, i + 1, j);
    EndsItself(background, states, events, j, t);
    FailingNext(states[j], states[j].mem.threads[t], events[j].c, g);
    GenerationCounts(background, states, events, b, j);
    if states[j].mem.threads[t] == FailSet {
      ReportWasCurrent(background, states, events, b, i, t, g, j);
    }
  }

  /** Between i and j the worker has looked at the generation, and nobody had called stop since its read. */
  ghost predicate ReportedBefore(states: seq<Machine>, events: seq<Event>, b: nat, i: nat, t: nat, g: nat, j: nat)
    requires b <= i && j <= |events| < |states|
  {
    exists r :: i < r < j && StepsFrom(states[r], events[r], t, FailReport(g)) && NoStopCall(events, b, r)
  }

  lemma ReportWasCurrent(background: set<RouteSpec>, states: seq<Machine>, events: seq<Event>,
                         b: nat, i: nat, t: nat, g: nat, j: nat)
    requires IsRun(background, states, events) && b < i < j < |events| && NoCrash(events, b, j)
    requires ReadsGeneration(states[b], events[b], t, g) && Reports(states, events, t, g, i + 1, j)
    ensures ReportedBefore(states, events, b, i, t, g, j)
  {
    var r :| i + 1 <= r < j && ReportStep(states[r], events[r], t, g);
    GenerationCounts(background, states, events, b, r);
  }

  // ---- An announced start ----

  /** The worker will end the starting: nothing has cancelled it. */
  predicate OnItsWay(pc: Pc, generation: nat) {
    match pc
    case Begin | FailSet => true
    case StartWait(g) => g == generation
    case StartCheck(g) => g == generation
    case StartEngine(g) => g == generation
    case Install(g, _, _, _) => g == generation
    case ApplyNrpt(g, _) => g == generation
    case Save(g, _, _) => g == generation
    case Recheck(g, _) => g == generation
    case Publish(g, _) => g == generation
    case FailReport(g) => g == generation
    case ReadFile(job) => job == StartJob(generation)
    case Undo(_, _, job) => job == StartJob(generation) || job == AbortJob(generation, true)
    case ClearNrpt(job) => job == StartJob(generation)
    case RemoveFile(job) => job == StartJob(generation)
    case _ => false
  }

  ghost predicate HasWorker(m: Memory) {
    exists t :: t in m.threads && OnItsWay(m.threads[t], m.generation)
  }

  /** A stop has raised the generation and has not yet changed the status. */
  ghost predicate HasStop(m: Memory) {
    exists t :: t in m.threads && m.threads[t].StopMark?
  }

  ghost predicate Tended(m: Memory) {
    m.status == Starting ==> HasWorker(m) || HasStop(m)
  }

  /** No thread of a start fails to be spawned. */
  ghost predicate Spawns(s: Machine, e: Event) {
    e.Advance? && e.t in s.mem.threads && s.mem.threads[e.t] == Begin ==> e.c.ok
  }

  lemma WorkerNext(s: Machine, pc: Pc, c: Choice)
    requires OnItsWay(pc, s.mem.generation) && (pc.Begin? ==> c.ok)
    requires Effect(s, pc, c).mem.status == Starting
    ensures NextPc(s, pc, c).Some? && OnItsWay(NextPc(s, pc, c).value, s.mem.generation)
  {
  }

  lemma StartingGoesOn(s: Machine, pc: Pc, c: Choice)
    requires Effect(s, pc, c).mem.status == Starting
    ensures s.mem.status == Starting && !pc.StopMark?
    ensures Effect(s, pc, c).mem.generation == s.mem.generation
  {
  }

  lemma TendedAdvance(s: Machine, e: Event, s': Machine)
    requires Tended(s.mem) && e.Advance? && Enabled(s, e) && s' == Apply(s, e) && Spawns(s, e)
    ensures Tended(s'.mem)
  {
    var t := e.t;
    var pc := s.mem.threads[t];
    if s'.mem.status == Starting {
      StartingGoesOn(s, pc, e.c);
      if HasStop(s.mem) {
        var u :| u in s.mem.threads && s.mem.threads[u].StopMark?;
        OthersLeaveIt(s, e, s', u);
        assert u in s'.mem.threads && s'.mem.threads[u].StopMark?;
      } else {
        var u :| u in s.mem.threads && OnItsWay(s.mem.threads[u], s.mem.generation);
        if u == t {
          WorkerNext(s, pc, e.c);
          ItsOwnStep(s, e, s', t);
        } else {
          OthersLeaveIt(s, e, s', u);
        }
        assert u in s'.mem.threads && OnItsWay(s'.mem.threads[u], s'.mem.generation);
      }
    }
  }

  lemma TendedStep(s: Machine, e: Event, s': Machine)
    requires Tended(s.mem) && Enabled(s, e) && s' == Apply(s, e) && Spawns(s, e)
    ensures Tended(s'.mem)
  {
    match e
    case Crash =>
    case BeginStart(t) => assert t in s'.mem.threads && OnItsWay(s'.mem.threads[t], s'.mem.generation);
    case CallStop(t) => assert t in s'.mem.threads && s'.mem.threads[t].StopMark?;
    case CallCleanup(t) =>
      if s.mem.status == Starting && HasWorker(s.mem) {
        var u :| u in s.mem.threads && OnItsWay(s.mem.threads[u], s.mem.generation);
        assert u in s'.mem.threads && OnItsWay(s'.mem.threads[u], s'.mem.generation);
      } else if s.mem.status == Starting {
        var u :| u in s.mem.threads && s.mem.threads[u].StopMark?;
        assert u in s'.mem.threads && s'.mem.threads[u].StopMark?;
      }
    case Advance(t, c) => TendedAdvance(s, e, s');
  }

  lemma {:induction false} TendedAlong(background: set<RouteSpec>, states: seq<Machine>, events: seq<Event>, p: nat, i: nat)
    requires IsRun(background, states, events) && p <= i < |states| && Tended(states[p].mem)
    requires forall k :: p <= k < i ==> Spawns(states[k], events[k])
    ensures Tended(states[i].mem)
    decreases i
  {
    if p < i {
      TendedAlong(background, states, events, p, i - 1);
      RunStep(background, states, events, i - 1);
      TendedStep(states[i - 1], events[i - 1], states[i]);
    }
  }

  /** If every start thread has been spawned since a time when the status was not Starting, then a status of
      Starting means that a worker nobody has cancelled is on its way, or that a stop is about to mark it. */
  lemma StartingHasWorker(background: set<RouteSpec>, states: seq<Machine>, events: seq<Event>, p: nat, i: nat)
    requires IsRun(background, states, events) && p <= i < |states| && states[p].mem.status != Starting
    requires forall k :: p <= k < i ==> Spawns(states[k], events[k])
    requires states[i].mem.status == Starting
    ensures HasWorker(states[i].mem) || HasStop(states[i].mem)
  {
    TendedAlong(background, states, events, p, i);
  }

  // ---- A start whose thread could not be spawned ----

  /** The status says Starting, and there are no threads but cleanups. */
  ghost predicate Stuck(m: Memory) {
    m.booted && m.status == Starting && forall t :: t in m.threads ==> IsCleaning(m.threads[t])
  }

  lemma CleaningNext(s: Machine, pc: Pc, c: Choice)
    requires IsCleaning(pc)
    ensures NextPc(s, pc, c).Some? ==> IsCleaning(NextPc(s, pc, c).value)
    ensures Effect(s, pc, c).mem.status == s.mem.status && (s.mem.booted ==> Effect(s, pc, c).mem.booted)
    ensures Effect(s, pc, c).mem.threads == s.mem.threads
  {
  }

  lemma StuckStep(s: Machine, e: Event, s': Machine)
    requires Stuck(s.mem) && Enabled(s, e) && s' == Apply(s, e) && !e.Crash? && !e.CallStop?
    ensures Stuck(s'.mem) && !e.BeginStart?
  {
    if e.Advance? {
      CleaningNext(s, s.mem.threads[e.t], e.c);
    }
  }

  /** A step that leaves it so. */
  ghost predicate StaysStuck(s: Machine, e: Event, s': Machine) {
    Stuck(s.mem) ==> Stuck(s'.mem) && !e.BeginStart?
  }

  lemma StuckAt(background: set<RouteSpec>, states: seq<Machine>, events: seq<Event>, k: nat)
    requires IsRun(background, states, events) && k < |events| && !events[k].Crash? && !events[k].CallStop?
    ensures StaysStuck(states[k], events[k], states[k + 1])
  {
    RunStep(background, states, events, k);
    if Stuck(states[k].mem) {
      StuckStep(states[k], events[k], states[k + 1]);
    }
  }

  lemma {:induction false} StuckAlong(states: seq<Machine>, events: seq<Event>, i: nat, j: nat)
    requires i <= j <= |events| < |states| && Stuck(states[i].mem)
    requires forall k :: i <= k < j ==> StaysStuck(states[k], events[k], states[k + 1])
    ensures Stuck(states[j].mem) && forall k :: i <= k < j ==> !events[k].BeginStart?
    decreases j
  {
    if i < j {
      StuckAlong(states, events, i, j - 1);
      assert StaysStuck(states[j - 1], events[j - 1], states[j]);
    }
  }

  /** Such a status stays, and so no start is accepted, until somebody calls stop or the process dies. */
  lemma StuckStays(background: set<RouteSpec>, states: seq<Machine>, events: seq<Event>, i: nat, j: nat)
    requires IsRun(background, states, events) && i <= j < |states| && NoCrash(events, i, j) && NoStopCall(events, i, j)
    requires Stuck(states[i].mem)
    ensures Stuck(states[j].mem) && forall k :: i <= k < j ==> !events[k].BeginStart?
  {
    forall k | i <= k < j
      ensures StaysStuck(states[k], events[k], states[k + 1])
    {
      StuckAt(background, states, events, k);
    }
    StuckAlong(states, events, i, j);
  }

  lemma FirstBegins(s: Machine)
    ensures Enabled(Booting(s, 4), BeginStart(1))
    ensures Apply(Booting(s, 4), BeginStart(1)) == Alone(s, 1, Begin, true, Starting)
  {
    assert map[][1 := Begin] == map[1 := Begin];
  }

  lemma NotSpawned(s: Machine, c: Choice) returns (stuck: Machine)
    requires !c.ok
    ensures Enabled(Alone(s, 1, Begin, true, Starting), Advance(1, c))
    ensures stuck == Apply(Alone(s, 1, Begin, true, Starting), Advance(1, c)) && Stuck(stuck.mem)
    ensures stuck.mem.threads == map[]
  {
    stuck := Apply(Alone(s, 1, Begin, true, Starting), Advance(1, c));
    assert map[1 := Begin] - {1} == map[];
  }

  /** On every background there is a run that ends so: the thread of the first start is not spawned. */
  lemma StuckRun(background: set<RouteSpec>) returns (states: seq<Machine>, events: seq<Event>)
    ensures IsRun(background, states, events) && Stuck(states[|events|].mem) && states[|events|].mem.threads == map[]
  {
    var s0 := Machine(background, false, None, BOOT, {});
    var c := Choice(false, false, Plan([], [], false));
    FirstBegins(s0);
    var stuck := NotSpawned(s0, c);
    states, events := StuckSteps(s0, c, stuck);
    FeasibleIsRun(background, s0, events, states);
  }

  lemma StuckSteps(s0: Machine, c: Choice, stuck: Machine) returns (states: seq<Machine>, events: seq<Event>)
    requires s0 == Booting(s0, 0) && s0.file == None && !s0.nrpt
    requires Enabled(Booting(s0, 4), BeginStart(1))
    requires Apply(Booting(s0, 4), BeginStart(1)) == Alone(s0, 1, Begin, true, Starting)
    requires Enabled(Alone(s0, 1, Begin, true, Starting), Advance(1, c))
    requires Apply(Alone(s0, 1, Begin, true, Starting), Advance(1, c)) == stuck
    ensures Feasible(s0, events, states) && states[|events|] == stuck
  {
    states, events := BootSegment(s0, [], [s0], s0, c);
    states, events := Push(s0, events, states, Booting(s0, 4), BeginStart(1), Alone(s0, 1, Begin, true, Starting));
    states, events := Push(s0, events, states, Alone(s0, 1, Begin, true, Starting), Advance(1, c), stuck);
  }

  // ---- A cancelled start, and a start that is refused ----

  /** A worker that reads its generation before a stop is called and reaches its check after that ends there
      and leaves network and record alone. */
  lemma StopKeepsOut(background: set<RouteSpec>, states: seq<Machine>, events: seq<Event>,
                     b: nat, t: nat, g: nat, j: nat)
    requires IsRun(background, states, events) && b < j < |events| && NoCrash(events, b, j)
    requires ReadsGeneration(states[b], events[b], t, g) && StepsFrom(states[j], events[j], t, StartCheck(g))
    ensures t in states[j + 1].mem.threads <==> NoStopCall(events, b, j)
    ensures !NoStopCall(events, b, j) ==> SameNet(states[j], states[j + 1]) && states[j + 1].mem.lock == None
  {
    GenerationCounts(background, states, events, b, j);
    RunStep(background, states, events, j);
    ItsOwnStep(states[j], events[j], states[j + 1], t);
  }

  /** While a published engine stays in the record no start is accepted, unless a stop has marked the status
      or a failure was reported since. */
  lemma NoStartOverTunnel(background: set<RouteSpec>, states: seq<Machine>, events: seq<Event>,
                          p: nat, u: nat, g: nat, net: NetworkState, i: nat)
    requires IsRun(background, states, events) && p < i < |events| && events[i].BeginStart?
    requires StepsFrom(states[p], events[p], u, Publish(g, net)) && Untouched(states, events, p + 1, i)
    ensures Marked(states, events, p + 1, i)
  {
    EngineShows(background, states, events, p, u, g, net, i);
    RunStep(background, states, events, i);
  }

  // ---- When a monitor stands down, and what it reports ----

  /** A monitor looks at the generation before and after it takes the lock. It ends there exactly if somebody has
      called stop since its start worker read the generation, and leaves network, record and status alone. */
  lemma MonitorStandsDown(background: set<RouteSpec>, states: seq<Machine>, events: seq<Event>,
                          b: nat, t: nat, g: nat, j: nat)
    requires IsRun(background, states, events) && b < j < |events| && NoCrash(events, b, j)
    requires ReadsGeneration(states[b], events[b], t, g)
    requires StepsFrom(states[j], events[j], t, MonitorPoll(g)) || StepsFrom(states[j], events[j], t, MonitorCheck(g))
    ensures t in states[j + 1].mem.threads <==> NoStopCall(events, b, j)
    ensures !NoStopCall(events, b, j) ==>
              SameNet(states[j], states[j + 1]) && states[j + 1].mem.status == states[j].mem.status
  {
    GenerationCounts(background, states, events, b, j);
    RunStep(background, states, events, j);
    ItsOwnStep(states[j], events[j], states[j + 1], t);
  }

  /** The places of a monitor that has seen its engine stopped, with or without an error. */
  predicate TearingDown(pc: Pc, g: nat, failed: bool) {
    match pc
    case MonitorTake(h, f) => h == g && f == failed
    case Undo(_, _, job) => job == MonitorJob(g, failed)
    case RemoveFile(job) => job == MonitorJob(g, failed)
    case Finish(job) => job == MonitorJob(g, failed)
    case _ => false
  }

  lemma TearingNext(s: Machine, pc: Pc, c: Choice, g: nat, failed: bool)
    requires TearingDown(pc, g, failed)
    ensures match NextPc(s, pc, c)
            case Some(next) => TearingDown(next, g, failed)
            case None => pc == Finish(MonitorJob(g, failed))
  {
  }

  /** A monitor that finds its generation current tears down, and in the end the status is Failed if the
      engine had stopped with an error and Stopped otherwise. */
  lemma MonitorReports(background: set<RouteSpec>, states: seq<Machine>, events: seq<Event>, i: nat, t: nat, g: nat, j: nat)
    requires IsRun(background, states, events) && i < j < |events| && NoCrash(events, i, j)
    requires StepsFrom(states[i], events[i], t, MonitorCheck(g)) && states[i].mem.generation == g
    requires Alive(states, t, i + 1, j) && Ends(states[j], events[j], states[j + 1], t)
    ensures states[j + 1].mem.status == if events[i].c.ok then Failed else Stopped
    ensures EndsTeardown(states[j], events[j])
  {
    var failed := events[i].c.ok;
    RunStep(background, states, events, i);
    ItsOwnStep(states[i], events[i], states[i + 1], t);
    forall s, pc, c | TearingDown(pc, g, failed) && NextPc(s, pc, c).Some?
      ensures TearingDown(NextPc(s, pc, c).value, g, failed)
    {
      TearingNext(s, pc, c, g, failed);
    }
    ThreadStays(background, states, events, t, (pc: Pc) => TearingDown(pc, g, failed), i + 1, j);
    EndsItself(background, states, events, j, t);
    TearingNext(states[j], states[j].mem.threads[t], events[j].c, g, failed);
  }
}

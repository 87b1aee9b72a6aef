/** The Windows runtime as a transition system: start workers, monitors, stops and cleanups
    interleave over one state record, one `operation` lock, one generation counter, the undo file
    and the route table. Every shared read or write is a step of its own, each route is added and
    deleted on its own, and the process may die between any two steps. */
module Runtime {
  import opened Options
  import opened Network

  datatype Status = Stopped | Starting | Running | Stopping | Failed

  /** Why a thread that holds the lock is taking network state back. */
  datatype Job =
    | StartJob(gen: nat)
    | AbortJob(gen: nat, failed: bool)
    | MonitorJob(gen: nat, failed: bool)
    | StopJob(gen: nat)
    | CleanJob

  /** Where a thread stands. The comment gives the source lines of the step to come. */
  datatype Pc =
    | Begin                                                     // 255: generation not yet read
    | StartWait(gen: nat)                                       // 282
    | StartCheck(gen: nat)                                      // 283
    | StartEngine(gen: nat)                                     // 288-357
    | Install(gen: nat, plan: Plan, done: nat, net: NetworkState) // 601-630
    | ApplyNrpt(gen: nat, net: NetworkState)                    // 631
    | Save(gen: nat, net: NetworkState, ok: bool)               // 363
    | Recheck(gen: nat, net: NetworkState)                      // 373
    | Publish(gen: nat, net: NetworkState)                      // 380-388
    | SpawnMonitor(gen: nat)                                    // 390
    | FailReport(gen: nat)                                      // 272
    | FailSet                                                   // 273
    | MonitorPoll(gen: nat)                                     // 401-406
    | MonitorWait(gen: nat)                                     // 407
    | MonitorCheck(gen: nat)                                    // 408-411
    | MonitorTake(gen: nat, failed: bool)                       // 412-418
    | StopMark(gen: nat)                                        // 435-440
    | StopWait(gen: nat)                                        // 441
    | StopTake(gen: nat)                                        // 442-447
    | CleanWait                                                 // 203
    | ReadFile(job: Job)                                        // 660-661
    | Undo(todo: seq<RouteSpec>, nrpt: bool, job: Job)          // 635-640
    | ClearNrpt(job: Job)                                       // 671
    | RemoveFile(job: Job)                                      // 421, 452, 672
    | Finish(job: Job)                                          // 422-427, 453

  /** Everything that dies with the process. `published` and `stopped` are history: the
      generations published so far, and the highest generation of a stop that took the lock. */
  datatype Memory = Memory(
    status: Status,
    engine: Option<nat>,
    network: NetworkState,
    generation: nat,
    lock: Option<nat>,
    threads: map<nat, Pc>,
    booted: bool,
    published: seq<nat>,
    stopped: nat)

  /** The machine. `lost` is history: routes that were in the table but on no record when a
      process died. */
  datatype Machine = Machine(
    table: set<RouteSpec>,
    nrpt: bool,
    file: Option<NetworkState>,
    mem: Memory,
    lost: set<RouteSpec>)

  /** What the environment decides during a step. */
  datatype Choice = Choice(ok: bool, rule: bool, plan: Plan)

  /** What happens next. A cleanup may come at any time here; its callers in the source are the boot and the
      cleanup command, which calls it after a stop. */
  datatype Event =
    | BeginStart(t: nat)
    | CallStop(t: nat)
    | CallCleanup(t: nat)
    | Advance(t: nat, c: Choice)
    | Crash

  predicate Holds(pc: Pc) {
    !(|| pc.Begin? || pc.StartWait? || pc.FailReport? || pc.FailSet? || pc.MonitorPoll?
      || pc.MonitorWait? || pc.StopMark? || pc.StopWait? || pc.CleanWait?)
  }

  predicate Acquires(pc: Pc) {
    pc.StartWait? || pc.MonitorWait? || pc.StopWait? || pc.CleanWait?
  }

  /** A new process cleans up leftovers before it accepts commands. */
  const BOOT := Memory(Stopped, None, NOTHING, 0, None, map[0 := CleanWait], false, [], 0)

  ghost predicate Init(background: set<RouteSpec>, s: Machine) {
    s == Machine(background, false, None, BOOT, {})
  }

  predicate Enabled(s: Machine, e: Event) {
    match e
    case BeginStart(t) =>
      s.mem.booted && t !in s.mem.threads && (s.mem.status == Stopped || s.mem.status == Failed)
    case CallStop(t) => s.mem.booted && t !in s.mem.threads
    case CallCleanup(t) => s.mem.booted && t !in s.mem.threads
    case Advance(t, c) =>
      t in s.mem.threads && (Acquires(s.mem.threads[t]) ==> s.mem.lock == None)
    case Crash => true
  }

  /** Routes in the table that no record names yet: those of an install that has not saved. */
  ghost function Unsaved(s: Machine): set<RouteSpec> {
    if s.mem.lock.Some? && s.mem.lock.value in s.mem.threads then
      match s.mem.threads[s.mem.lock.value]
      case Install(_, _, _, net) => Routes(net.routes)
      case ApplyNrpt(_, net) => Routes(net.routes)
      case Save(_, net, _) => Routes(net.routes)
      case _ => {}
    else {}
  }

  /** Where thread `t` goes from `pc`; None when it ends. A worker that publishes goes on as the
      monitor thread it spawns. */
  function NextPc(s: Machine, pc: Pc, c: Choice): Option<Pc> {
    if InStart(pc) then NextStart(s, pc, c)
    else if InUndo(pc) then NextUndo(s, pc)
    else
      var current := s.mem.generation;
      match pc
      case Begin => if c.ok then Some(StartWait(current)) else None
      case FailReport(g) => if current == g then Some(FailSet) else None
      case FailSet => None
      case MonitorPoll(g) =>
        if current != g then None else if c.ok then Some(pc) else Some(MonitorWait(g))
      case MonitorWait(g) => Some(MonitorCheck(g))
      case MonitorCheck(g) => if current != g then None else Some(MonitorTake(g, c.ok))
      case MonitorTake(g, failed) =>
        Some(Undo(s.mem.network.routes, s.mem.network.nrpt, MonitorJob(g, failed)))
      case StopMark(k) => Some(StopWait(k))
      case StopWait(k) => Some(StopTake(k))
      case StopTake(k) => Some(Undo(s.mem.network.routes, s.mem.network.nrpt, StopJob(k)))
      case CleanWait => Some(ReadFile(CleanJob))
  }

  predicate InStart(pc: Pc) {
    || pc.StartWait? || pc.StartCheck? || pc.StartEngine? || pc.Install? || pc.ApplyNrpt? || pc.Save?
    || pc.Recheck? || pc.Publish? || pc.SpawnMonitor?
  }

  predicate InUndo(pc: Pc) {
    pc.ReadFile? || pc.Undo? || pc.ClearNrpt? || pc.RemoveFile? || pc.Finish?
  }

  function NextStart(s: Machine, pc: Pc, c: Choice): Option<Pc>
    requires InStart(pc)
  {
    match pc
    case StartWait(g) => Some(StartCheck(g))
    case StartCheck(g) => if s.mem.generation != g then None else Some(ReadFile(StartJob(g)))
    case StartEngine(g) => Some(if c.ok then Install(g, c.plan, 0, NOTHING) else FailReport(g))
    case Install(g, plan, i, net) =>
      var rs := AllRoutes(plan);
      if i >= |rs| then
        Some(if plan.nrpt then ApplyNrpt(g, net.(nrpt := true)) else Save(g, net, true))
      else if !c.ok && i >= |plan.bypass| then
        Some(Save(g, net, false))
      else
        Some(Install(g, plan, i + 1,
                     if c.ok && rs[i] !in s.table then net.(routes := net.routes + [rs[i]]) else net))
    case ApplyNrpt(g, net) => Some(Save(g, net, c.ok))
    case Save(g, net, ok) =>
      Some(if ok then Recheck(g, net) else Undo(net.routes, net.nrpt, AbortJob(g, true)))
    case Recheck(g, net) =>
      Some(if s.mem.generation == g then Publish(g, net) else Undo(net.routes, net.nrpt, AbortJob(g, false)))
    case Publish(g, net) => Some(SpawnMonitor(g))
    case SpawnMonitor(g) => if c.ok then Some(MonitorPoll(g)) else None
  }

  function NextUndo(s: Machine, pc: Pc): Option<Pc>
    requires InUndo(pc)
  {
    match pc
    case ReadFile(job) =>
      Some(if s.file.Some? then Undo(s.file.value.routes, s.file.value.nrpt, job) else ClearNrpt(job))
    case Undo(todo, rule, job) =>
      if todo != [] then Some(Undo(todo[..|todo| - 1], rule, job))
      else if job.StartJob? || job.CleanJob? then Some(ClearNrpt(job))
      else if job.MonitorJob? || job.StopJob? then Some(RemoveFile(job))
      else if job.failed then Some(FailReport(job.gen))
      else None
    case ClearNrpt(job) => Some(RemoveFile(job))
    case RemoveFile(job) =>
      if job.CleanJob? then None else if job.StartJob? then Some(StartEngine(job.gen)) else Some(Finish(job))
    case Finish(job) => None
  }

  /** What the step changes besides the place of the thread and the lock. */
  function Effect(s: Machine, pc: Pc, c: Choice): Machine {
    var m := s.mem;
    match pc
    case Install(_, plan, i, _) =>
      if i < |AllRoutes(plan)| && c.ok then s.(table := s.table + {AllRoutes(plan)[i]}) else s
    case ApplyNrpt(_, _) => s.(nrpt := c.rule)
    case Save(_, net, _) => s.(file := Some(net))
    case Publish(g, net) =>
      s.(mem := m.(engine := Some(g), network := net, status := Running, published := m.published + [g]))
    case FailSet => s.(mem := m.(status := Failed))
    case MonitorTake(_, _) => s.(mem := m.(engine := None, network := NOTHING))
    case StopMark(_) =>
      if m.status == Running || m.status == Starting then s.(mem := m.(status := Stopping)) else s
    case StopWait(k) => s.(mem := m.(stopped := if k > m.stopped then k else m.stopped))
    case StopTake(_) => s.(mem := m.(engine := None, network := NOTHING))
    case Undo(todo, rule, _) =>
      if todo != [] then s.(table := s.table - {todo[|todo| - 1]})
      else if rule then s.(nrpt := false) else s
    case ClearNrpt(_) => s.(nrpt := false)
    case RemoveFile(job) =>
      if job.CleanJob? then s.(file := None, mem := m.(booted := true)) else s.(file := None)
    case Finish(job) =>
      s.(mem := m.(status := if job.MonitorJob? && job.failed then Failed else Stopped))
    case _ => s
  }

  /** Puts `t` at its next place. The lock is held exactly inside critical sections. */
  function Place(m: Memory, t: nat, next: Option<Pc>): Memory
    requires t in m.threads
  {
    var lock := if next.Some? && Holds(next.value) then Some(t)
                else if Holds(m.threads[t]) then None else m.lock;
    m.(lock := lock, threads := if next.Some? then m.threads[t := next.value] else m.threads - {t})
  }

  function Spawn(s: Machine, t: nat, pc: Pc): Machine {
    s.(mem := s.mem.(threads := s.mem.threads[t := pc]))
  }

  ghost function Apply(s: Machine, e: Event): Machine
    requires Enabled(s, e)
  {
    match e
    case BeginStart(t) => Spawn(s.(mem := s.mem.(status := Starting)), t, Begin)
    case CallStop(t) =>
      var k := s.mem.generation + 1;
      Spawn(s.(mem := s.mem.(generation := k)), t, StopMark(k))
    case CallCleanup(t) => Spawn(s, t, CleanWait)
    case Crash => s.(mem := BOOT, lost := s.lost + Unsaved(s))
    case Advance(t, c) =>
      var pc := s.mem.threads[t];
      var after := Effect(s, pc, c);
      after.(mem := Place(after.mem, t, NextPc(s, pc, c)))
  }

  /** A run: states[i + 1] follows from states[i] by events[i]. */
  ghost predicate IsRun(background: set<RouteSpec>, states: seq<Machine>, events: seq<Event>) {
    && |states| == |events| + 1
    && Init(background, states[0])
    && forall i :: 0 <= i < |events| ==>
         Enabled(states[i], events[i]) && states[i + 1] == Apply(states[i], events[i])
  }
}

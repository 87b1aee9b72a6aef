/** What every step of the runtime keeps, and the proof that it does. */
module RuntimeInvariant {
  import opened Options
  import opened Network
  import opened Runtime

  /** The lock is held by the one thread inside a critical section. */
  ghost predicate LockInv(m: Memory) {
    && (m.lock.Some? ==> m.lock.value in m.threads && Holds(m.threads[m.lock.value]))
    && forall t :: t in m.threads && Holds(m.threads[t]) ==> m.lock == Some(t)
  }

  predicate IsCleaning(pc: Pc) {
    || pc.CleanWait?
    || ((pc.ReadFile? || pc.Undo? || pc.ClearNrpt? || pc.RemoveFile?) && pc.job == CleanJob)
  }

  /** Before the boot cleanup is over nothing else runs. */
  ghost predicate BootInv(m: Memory) {
    !m.booted ==> m.network == NOTHING && forall t :: t in m.threads ==> IsCleaning(m.threads[t])
  }

  /** No record ever names a route that was not the helper's to remove. */
  ghost predicate RecordsOwn(b: set<RouteSpec>, s: Machine) {
    Recorded(s.file) !! b && Routes(s.mem.network.routes) !! b
  }

  /** Deleting what the undo file names gives back the table `b`. */
  ghost predicate Recoverable(b: set<RouteSpec>, s: Machine) {
    b <= s.table <= b + Recorded(s.file)
  }

  ghost predicate Clean(b: set<RouteSpec>, s: Machine) {
    s.table == b && !s.nrpt
  }

  ghost predicate Added(b: set<RouteSpec>, s: Machine, net: NetworkState) {
    && Routes(net.routes) !! b
    && s.table == b + Routes(net.routes)
    && (s.nrpt ==> net.nrpt)
  }

  /** A running tunnel: its routes are in the table, in memory and in the undo file. */
  ghost predicate Live(b: set<RouteSpec>, s: Machine) {
    s.file == Some(s.mem.network) && Added(b, s, s.mem.network)
  }

  ghost predicate Settled(b: set<RouteSpec>, s: Machine) {
    if s.mem.booted then Clean(b, s) || Live(b, s) else Recoverable(b, s)
  }

  predicate FromFile(job: Job) {
    job.StartJob? || job.CleanJob?
  }

  /** A stop or a monitor has already emptied the state record. */
  predicate Taken(m: Memory, job: Job) {
    job.StopJob? || job.MonitorJob? ==> m.engine == None && m.network == NOTHING
  }

  /** What the lock holder at `pc` knows of the machine. */
  ghost predicate Own(b: set<RouteSpec>, s: Machine, pc: Pc) {
    match pc
    case StartCheck(_) | MonitorCheck(_) | MonitorTake(_, _) | StopTake(_) => Settled(b, s)
    case ReadFile(job) => Settled(b, s) && FromFile(job)
    case Undo(todo, rule, job) =>
      && Routes(todo) !! b && b <= s.table <= b + Routes(todo) && Recoverable(b, s)
      && (s.nrpt ==> rule || FromFile(job))
      && Taken(s.mem, job)
    case ClearNrpt(job) => s.table == b && FromFile(job)
    case RemoveFile(job) => Clean(b, s) && !job.AbortJob? && Taken(s.mem, job)
    case Finish(job) =>
      Clean(b, s) && s.file == None && (job.StopJob? || job.MonitorJob?) && Taken(s.mem, job)
    case StartEngine(_) => Clean(b, s) && s.file == None
    case Install(_, plan, i, net) =>
      && s.file == None && Added(b, s, net) && !net.nrpt
      && i <= |AllRoutes(plan)| && Routes(net.routes) <= Routes(AllRoutes(plan)[..i])
    case ApplyNrpt(_, net) => s.file == None && Added(b, s, net) && net.nrpt
    case Save(_, net, _) => s.file == None && Added(b, s, net)
    case Recheck(_, net) => s.file == Some(net) && Added(b, s, net)
    case Publish(_, net) => s.file == Some(net) && Added(b, s, net)
    case SpawnMonitor(_) => Live(b, s)
    case _ => true
  }

  ghost predicate Control(m: Memory) {
    LockInv(m) && BootInv(m)
  }

  /** The network, seen from the lock: settled when it is free, as its holder knows it otherwise. */
  ghost predicate Data(b: set<RouteSpec>, s: Machine) {
    && RecordsOwn(b, s)
    && (if s.mem.lock.Some? && s.mem.lock.value in s.mem.threads
        then Own(b, s, s.mem.threads[s.mem.lock.value]) else Settled(b, s))
  }

  ghost predicate NetInv(b: set<RouteSpec>, s: Machine) {
    Control(s.mem) && Data(b, s)
  }

  ghost predicate Sorted(xs: seq<nat>) {
    forall i, j :: 0 <= i < j < |xs| ==> xs[i] <= xs[j]
  }

  ghost predicate Last(xs: seq<nat>, x: nat) {
    xs != [] && xs[|xs| - 1] == x
  }

  ghost predicate AtMostLast(xs: seq<nat>, x: nat) {
    xs != [] && x <= xs[|xs| - 1]
  }

  /** How the generation a thread carries relates to the counter and to what was published. */
  ghost predicate GenPc(m: Memory, pc: Pc) {
    && (pc.Publish? ==>
          && m.stopped <= pc.gen <= m.generation
          && (m.published != [] ==> m.published[|m.published| - 1] <= pc.gen))
    && (pc.SpawnMonitor? || pc.MonitorTake? ==> Last(m.published, pc.gen))
    && (pc.MonitorPoll? || pc.MonitorWait? || pc.MonitorCheck? ==> AtMostLast(m.published, pc.gen))
    && (pc.StopMark? || pc.StopWait? || pc.StopTake? ==> pc.gen <= m.generation)
    && (pc.StopTake? ==> pc.gen <= m.stopped)
  }

  ghost predicate Counters(m: Memory) {
    && m.stopped <= m.generation
    && Sorted(m.published)
    && (m.published != [] ==> m.published[|m.published| - 1] <= m.generation)
    && (m.engine.Some? ==> Last(m.published, m.engine.value))
  }

  ghost predicate GenInv(m: Memory) {
    Counters(m) && forall t :: t in m.threads ==> GenPc(m, m.threads[t])
  }

  ghost predicate Inv(background: set<RouteSpec>, s: Machine) {
    && NetInv(background + s.lost, s)
    && GenInv(s.mem)
    && background !! s.lost
  }

  // ---- The lock ----

  /** A thread enters a critical section only through a lock it finds free, and before the boot
      cleanup is over it goes nowhere but through that cleanup. */
  lemma NextPlace(s: Machine, t: nat, c: Choice)
    requires Control(s.mem) && Enabled(s, Advance(t, c))
    ensures Moves(s.mem, Effect(s, s.mem.threads[t], c).mem, t, NextPc(s, s.mem.threads[t], c))
  {
  }

  ghost predicate Moves(m: Memory, after: Memory, t: nat, next: Option<Pc>) {
    && t in m.threads && after.threads == m.threads && after.lock == m.lock
    && (next.Some? && Holds(next.value) && !Holds(m.threads[t]) ==> m.lock == None)
    && (!after.booted ==>
          !m.booted && after.network == NOTHING && (next.Some? ==> IsCleaning(next.value)))
  }

  lemma ControlPlace(m: Memory, after: Memory, t: nat, next: Option<Pc>)
    requires Control(m) && Moves(m, after, t, next)
    ensures Control(Place(after, t, next))
  {
  }

  lemma ControlAdvance(s: Machine, t: nat, c: Choice)
    requires Control(s.mem) && Enabled(s, Advance(t, c))
    ensures Control(Apply(s, Advance(t, c)).mem)
  {
    NextPlace(s, t, c);
    ControlPlace(s.mem, Effect(s, s.mem.threads[t], c).mem, t, NextPc(s, s.mem.threads[t], c));
  }

  // ---- The network ----

  /** The part of the machine the network invariant looks at. */
  ghost predicate SameNet(s: Machine, s': Machine) {
    && s'.table == s.table && s'.nrpt == s.nrpt && s'.file == s.file
    && s'.mem.network == s.mem.network && s'.mem.engine == s.mem.engine && s'.mem.booted == s.mem.booted
  }

  lemma OwnFrame(b: set<RouteSpec>, s: Machine, s': Machine, pc: Pc)
    requires SameNet(s, s') && Own(b, s, pc)
    ensures Own(b, s', pc)
  {
  }

  /** A step outside the critical section leaves the holder's view alone. */
  lemma Quiet(b: set<RouteSpec>, s: Machine, s': Machine)
    requires NetInv(b, s) && SameNet(s, s') && s'.mem.lock == s.mem.lock
    requires s.mem.lock.Some? ==>
               var h := s.mem.lock.value; h in s'.mem.threads && s'.mem.threads[h] == s.mem.threads[h]
    ensures Data(b, s')
  {
    if s.mem.lock.Some? {
      OwnFrame(b, s, s', s.mem.threads[s.mem.lock.value]);
    }
  }

  /** What is known where a thread inside the critical section may stand next. */
  ghost predicate Holding(b: set<RouteSpec>, s: Machine, next: Option<Pc>) {
    RecordsOwn(b, s) && (if next.Some? && Holds(next.value) then Own(b, s, next.value) else Settled(b, s))
  }

  /** What a thread that holds the lock, or has just found it free, may rely on. */
  ghost predicate Mine(b: set<RouteSpec>, s: Machine, pc: Pc) {
    && RecordsOwn(b, s)
    && (if Holds(pc) then Own(b, s, pc) else Settled(b, s))
    && (!s.mem.booted ==> s.mem.network == NOTHING && IsCleaning(pc))
  }

  lemma AcquireStep(b: set<RouteSpec>, s: Machine, pc: Pc, c: Choice)
    requires Mine(b, s, pc) && Acquires(pc)
    ensures Holding(b, Effect(s, pc, c), NextPc(s, pc, c))
  {
  }

  lemma InstallStep(b: set<RouteSpec>, s: Machine, pc: Pc, c: Choice)
    requires Mine(b, s, pc) && pc.Install?
    ensures Holding(b, Effect(s, pc, c), NextPc(s, pc, c))
  {
    var rs := AllRoutes(pc.plan);
    if pc.done < |rs| {
      assert rs[..pc.done + 1] == rs[..pc.done] + [rs[pc.done]];
      RoutesSnoc(rs[..pc.done], rs[pc.done]);
      RoutesSnoc(pc.net.routes, rs[pc.done]);
    }
  }

  lemma StartStep(b: set<RouteSpec>, s: Machine, pc: Pc, c: Choice)
    requires Mine(b, s, pc) && InStart(pc) && Holds(pc) && !pc.Install?
    ensures Holding(b, Effect(s, pc, c), NextPc(s, pc, c))
  {
    match pc
    case StartCheck(_) =>
    case StartEngine(_) =>
    case ApplyNrpt(_, _) =>
    case Save(_, _, _) =>
    case Recheck(_, _) =>
    case Publish(_, _) =>
    case SpawnMonitor(_) =>
  }

  lemma MonitorStep(b: set<RouteSpec>, s: Machine, pc: Pc, c: Choice)
    requires Mine(b, s, pc) && pc.MonitorCheck?
    ensures Holding(b, Effect(s, pc, c), NextPc(s, pc, c))
  {
  }

  lemma TakeStep(b: set<RouteSpec>, s: Machine, pc: Pc, c: Choice)
    requires Mine(b, s, pc) && (pc.MonitorTake? || pc.StopTake?)
    ensures Holding(b, Effect(s, pc, c), NextPc(s, pc, c))
  {
  }

  lemma UndoStep(b: set<RouteSpec>, s: Machine, pc: Pc, c: Choice)
    requires Mine(b, s, pc) && pc.Undo?
    ensures Holding(b, Effect(s, pc, c), NextPc(s, pc, c))
  {
    if pc.todo != [] {
      RoutesDropLast(pc.todo);
    }
  }

  lemma RemoveStep(b: set<RouteSpec>, s: Machine, pc: Pc, c: Choice)
    requires Mine(b, s, pc) && pc.RemoveFile?
    ensures Holding(b, Effect(s, pc, c), NextPc(s, pc, c))
  {
  }

  lemma RestStep(b: set<RouteSpec>, s: Machine, pc: Pc, c: Choice)
    requires Mine(b, s, pc) && (pc.ReadFile? || pc.ClearNrpt? || pc.Finish?)
    ensures Holding(b, Effect(s, pc, c), NextPc(s, pc, c))
  {
  }

  lemma HoldingStep(b: set<RouteSpec>, s: Machine, pc: Pc, c: Choice)
    requires Mine(b, s, pc) && (Acquires(pc) || Holds(pc))
    ensures Holding(b, Effect(s, pc, c), NextPc(s, pc, c))
  {
    if Acquires(pc) {
      AcquireStep(b, s, pc, c);
    } else if pc.Install? {
      InstallStep(b, s, pc, c);
    } else if InStart(pc) {
      StartStep(b, s, pc, c);
    } else if pc.Undo? {
      UndoStep(b, s, pc, c);
    } else if pc.RemoveFile? {
      RemoveStep(b, s, pc, c);
    } else if InUndo(pc) {
      RestStep(b, s, pc, c);
    } else if pc.MonitorCheck? {
      MonitorStep(b, s, pc, c);
    } else {
      TakeStep(b, s, pc, c);
    }
  }

  /** Outside the critical section a thread touches nothing the network invariant looks at. */
  lemma OutsideStep(s: Machine, pc: Pc, c: Choice)
    requires !Acquires(pc) && !Holds(pc)
    ensures SameNet(s, Effect(s, pc, c))
    ensures NextPc(s, pc, c).Some? ==> !Holds(NextPc(s, pc, c).value)
  {
  }

  lemma DataPlace(b: set<RouteSpec>, after: Machine, t: nat, next: Option<Pc>)
    requires t in after.mem.threads && Holding(b, after, next)
    requires after.mem.lock == None || after.mem.lock == Some(t)
    requires Holds(after.mem.threads[t]) || after.mem.lock == None
    ensures Data(b, after.(mem := Place(after.mem, t, next)))
  {
    if next.Some? && Holds(next.value) {
      OwnFrame(b, after, after.(mem := Place(after.mem, t, next)), next.value);
    }
  }

  lemma DataAdvance(b: set<RouteSpec>, s: Machine, t: nat, c: Choice)
    requires NetInv(b, s) && Enabled(s, Advance(t, c))
    ensures Data(b, Apply(s, Advance(t, c)))
  {
    var pc := s.mem.threads[t];
    NextPlace(s, t, c);
    if Acquires(pc) || Holds(pc) {
      HoldingStep(b, s, pc, c);
      DataPlace(b, Effect(s, pc, c), t, NextPc(s, pc, c));
    } else {
      OutsideStep(s, pc, c);
      Quiet(b, s, Apply(s, Advance(t, c)));
    }
  }

  /** A dying process leaves a table the undo file can restore, up to the unsaved routes. */
  lemma NetCrash(b: set<RouteSpec>, s: Machine)
    requires NetInv(b, s)
    ensures Unsaved(s) !! b
    ensures NetInv(b + Unsaved(s), Apply(s, Crash))
  {
  }

  /** A thread that begins changes nothing of what the network invariant looks at. */
  lemma NetSpawn(b: set<RouteSpec>, s: Machine, s': Machine, t: nat, pc: Pc)
    requires NetInv(b, s) && s.mem.booted && t !in s.mem.threads && !Holds(pc)
    requires s' == s.(mem := s.mem.(threads := s.mem.threads[t := pc], status := s'.mem.status,
                                    generation := s'.mem.generation))
    ensures NetInv(b, s')
  {
    Quiet(b, s, s');
  }

  lemma NetCall(b: set<RouteSpec>, s: Machine, e: Event)
    requires NetInv(b, s) && Enabled(s, e) && !e.Crash? && !e.Advance?
    ensures NetInv(b, Apply(s, e)) && Apply(s, e).lost == s.lost
  {
    match e
    case BeginStart(t) => NetSpawn(b, s, Apply(s, e), t, Begin);
    case CallStop(t) => NetSpawn(b, s, Apply(s, e), t, StopMark(s.mem.generation + 1));
    case CallCleanup(t) => NetSpawn(b, s, Apply(s, e), t, CleanWait);
  }

  lemma NetAdvance(b: set<RouteSpec>, s: Machine, t: nat, c: Choice)
    requires NetInv(b, s) && Enabled(s, Advance(t, c))
    ensures NetInv(b, Apply(s, Advance(t, c)))
  {
    ControlAdvance(s, t, c);
    DataAdvance(b, s, t, c);
  }

  /** What an event loses for good. */
  ghost function Loses(s: Machine, e: Event): set<RouteSpec> {
    if e.Crash? then Unsaved(s) else {}
  }

  lemma LostStep(s: Machine, e: Event)
    requires Enabled(s, e)
    ensures Apply(s, e).lost == s.lost + Loses(s, e)
  {
  }

  lemma NetEvent(b: set<RouteSpec>, s: Machine, e: Event)
    requires NetInv(b, s) && Enabled(s, e)
    ensures NetInv(b + Loses(s, e), Apply(s, e)) && Loses(s, e) !! b
  {
    if e.Crash? {
      NetCrash(b, s);
    } else {
      assert b + Loses(s, e) == b;
      if e.Advance? {
        NetAdvance(b, s, e.t, e.c);
      } else {
        NetCall(b, s, e);
      }
    }
  }

  lemma NetStep(background: set<RouteSpec>, s: Machine, e: Event, s': Machine)
    requires NetInv(background + s.lost, s) && background !! s.lost && Enabled(s, e) && s' == Apply(s, e)
    ensures NetInv(background + s'.lost, s') && background !! s'.lost
  {
    NetEvent(background + s.lost, s, e);
    LostStep(s, e);
    assert background + s.lost + Loses(s, e) == background + s'.lost;
  }

  // ---- The generations ----

  /** What a thread knows about generations survives any step of another thread. */
  lemma GenFrame(m: Memory, m': Memory, pc: Pc)
    requires GenPc(m, pc) && m.generation <= m'.generation
    requires m'.published == m.published && m'.stopped == m.stopped
    ensures GenPc(m', pc)
  {
  }

  /** Outside its critical section a thread also survives a publication and a stop taking the lock. */
  lemma GenFrameOutside(m: Memory, m': Memory, pc: Pc)
    requires GenPc(m, pc) && !Holds(pc) && Counters(m') && m.generation <= m'.generation
    requires m'.published == m.published
             || (m'.published != [] && m.published == m'.published[..|m'.published| - 1])
    ensures GenPc(m', pc)
  {
  }

  lemma GenPublish(s: Machine, pc: Pc, c: Choice)
    requires Counters(s.mem) && GenPc(s.mem, pc) && pc.Publish?
    ensures Counters(Effect(s, pc, c).mem)
  {
  }

  lemma GenEffect(s: Machine, pc: Pc, c: Choice)
    requires Counters(s.mem) && GenPc(s.mem, pc)
    ensures var m' := Effect(s, pc, c).mem;
            && Counters(m') && m'.generation == s.mem.generation && m'.threads == s.mem.threads
            && m'.published == (if pc.Publish? then s.mem.published + [pc.gen] else s.mem.published)
            && (pc.StopWait? || m'.stopped == s.mem.stopped)
  {
    if pc.Publish? {
      GenPublish(s, pc, c);
    }
  }

  lemma GenNextStart(s: Machine, pc: Pc, c: Choice)
    requires Counters(s.mem) && GenPc(s.mem, pc) && InStart(pc)
    ensures NextPc(s, pc, c).Some? ==> GenPc(Effect(s, pc, c).mem, NextPc(s, pc, c).value)
  {
  }

  lemma GenNextUndo(s: Machine, pc: Pc, c: Choice)
    requires Counters(s.mem) && GenPc(s.mem, pc) && InUndo(pc)
    ensures NextPc(s, pc, c).Some? ==> GenPc(Effect(s, pc, c).mem, NextPc(s, pc, c).value)
  {
  }

  lemma GenNextRest(s: Machine, pc: Pc, c: Choice)
    requires Counters(s.mem) && GenPc(s.mem, pc) && !InStart(pc) && !InUndo(pc)
    ensures NextPc(s, pc, c).Some? ==> GenPc(Effect(s, pc, c).mem, NextPc(s, pc, c).value)
  {
  }

  /** The place a thread moves to asks for nothing it does not know. */
  lemma GenNext(s: Machine, pc: Pc, c: Choice)
    requires Counters(s.mem) && GenPc(s.mem, pc)
    ensures NextPc(s, pc, c).Some? ==> GenPc(Effect(s, pc, c).mem, NextPc(s, pc, c).value)
  {
    if InStart(pc) {
      GenNextStart(s, pc, c);
    } else if InUndo(pc) {
      GenNextUndo(s, pc, c);
    } else {
      GenNextRest(s, pc, c);
    }
  }

  lemma GenPlace(m: Memory, after: Memory, t: nat, next: Option<Pc>)
    requires LockInv(m) && GenInv(m) && t in m.threads
    requires after.threads == m.threads && after.generation == m.generation && Counters(after)
    requires next.Some? ==> GenPc(after, next.value)
    requires (after.published == m.published && after.stopped == m.stopped)
             || (m.lock == Some(t) || m.lock == None)
    requires after.published == m.published
             || (after.published != [] && m.published == after.published[..|after.published| - 1])
    ensures GenInv(Place(after, t, next))
  {
    var m' := Place(after, t, next);
    forall u | u in m'.threads
      ensures GenPc(m', m'.threads[u])
    {
      if u == t {
        GenFrame(after, m', next.value);
      } else if after.published == m.published && after.stopped == m.stopped {
        GenFrame(m, m', m.threads[u]);
      } else {
        GenFrameOutside(m, m', m.threads[u]);
      }
    }
  }

  lemma GenAdvance(s: Machine, t: nat, c: Choice)
    requires LockInv(s.mem) && GenInv(s.mem) && Enabled(s, Advance(t, c))
    ensures GenInv(Apply(s, Advance(t, c)).mem)
  {
    var pc := s.mem.threads[t];
    GenEffect(s, pc, c);
    GenNext(s, pc, c);
    GenPlace(s.mem, Effect(s, pc, c).mem, t, NextPc(s, pc, c));
  }

  lemma GenSpawn(m: Memory, m': Memory, t: nat, pc: Pc)
    requires GenInv(m) && m' == m.(threads := m.threads[t := pc], status := m'.status, generation := m'.generation)
    requires m.generation <= m'.generation && GenPc(m', pc)
    ensures GenInv(m')
  {
    forall u | u in m'.threads && u != t
      ensures GenPc(m', m'.threads[u])
    {
      GenFrame(m, m', m.threads[u]);
    }
  }

  lemma GenStep(s: Machine, e: Event)
    requires LockInv(s.mem) && GenInv(s.mem) && Enabled(s, e)
    ensures GenInv(Apply(s, e).mem)
  {
    match e
    case Crash =>
    case BeginStart(t) => GenSpawn(s.mem, Apply(s, e).mem, t, Begin);
    case CallStop(t) => GenSpawn(s.mem, Apply(s, e).mem, t, StopMark(s.mem.generation + 1));
    case CallCleanup(t) => GenSpawn(s.mem, Apply(s, e).mem, t, CleanWait);
    case Advance(t, c) => GenAdvance(s, t, c);
  }

  // ---- Both ----

  lemma InvStep(background: set<RouteSpec>, s: Machine, e: Event)
    requires Inv(background, s) && Enabled(s, e)
    ensures Inv(background, Apply(s, e))
  {
    NetStep(background, s, e, Apply(s, e));
    GenStep(s, e);
  }

  /** The invariant holds in every state of every run. */
  lemma {:induction false} InvAlways(background: set<RouteSpec>, states: seq<Machine>, events: seq<Event>, i: nat)
    requires IsRun(background, states, events) && i < |states|
    ensures Inv(background, states[i])
  {
    if i > 0 {
      InvAlways(background, states, events, i - 1);
      InvStep(background, states[i - 1], events[i - 1]);
    }
  }
}

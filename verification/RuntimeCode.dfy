/** The steps of the transition system add up to what the code does: a thread that walks through an
    install, an undo or a cleanup leaves what the methods of Network leave. */
module RuntimeCode {
  import opened Options
  import opened Network
  import opened Runtime

  /** A machine and the place of the thread that holds the lock. */
  datatype Walker = Walker(s: Machine, pc: Option<Pc>)

  /** `n` steps of the holder, the environment choosing cs(i), cs(i + 1) and so on. */
  ghost function Walk(w: Walker, cs: nat -> Choice, i: nat, n: nat): Walker
    decreases n
  {
    if n == 0 || w.pc == None then w
    else Walk(Walker(Effect(w.s, w.pc.value, cs(i)), NextPc(w.s, w.pc.value, cs(i))), cs, i + 1, n - 1)
  }

  lemma {:induction false} WalkOn(w: Walker, cs: nat -> Choice, i: nat, m: nat, n: nat)
    ensures Walk(w, cs, i, m + n) == Walk(Walk(w, cs, i, m), cs, i + m, n)
    decreases m
  {
    if m > 0 && w.pc.Some? {
      WalkOn(Walker(Effect(w.s, w.pc.value, cs(i)), NextPc(w.s, w.pc.value, cs(i))), cs, i + 1, m - 1, n);
    } else if w.pc == None && n > 0 {
      assert Walk(w, cs, i, m) == w;
    }
  }

  lemma WalkThen(w: Walker, mid: Walker, cs: nat -> Choice, i: nat, m: nat, n: nat)
    requires Walk(w, cs, i, m) == mid
    ensures Walk(w, cs, i, m + n) == Walk(mid, cs, i + m, n)
  {
    WalkOn(w, cs, i, m, n);
  }

  lemma WalkOne(s: Machine, pc: Pc, cs: nat -> Choice, i: nat)
    ensures Walk(Walker(s, Some(pc)), cs, i, 1) == Walker(Effect(s, pc, cs(i)), NextPc(s, pc, cs(i)))
  {
    var after := Walker(Effect(s, pc, cs(i)), NextPc(s, pc, cs(i)));
    assert Walk(after, cs, i + 1, 0) == after;
  }

  // ---- Install ----

  /** The environment refuses the same routes. */
  ghost predicate Refuses(cs: nat -> Choice, count: nat, refuse: nat -> bool) {
    forall k :: 0 <= k < count ==> cs(k).ok == !refuse(k)
  }

  /** Where the holder stands when the loops of an install are over. */
  function LoopsOver(g: nat, plan: Plan, o: Outcome): Pc {
    if !o.ok then Save(g, NetworkState(o.routes, false), false)
    else if plan.nrpt then ApplyNrpt(g, NetworkState(o.routes, true))
    else Save(g, NetworkState(o.routes, false), true)
  }

  lemma {:induction false} LoopSteps(s: Machine, g: nat, plan: Plan, k: nat, routes: seq<RouteSpec>, cs: nat -> Choice,
                                     refuse: nat -> bool)
    returns (n: nat)
    requires k <= |AllRoutes(plan)| && Refuses(cs, |AllRoutes(plan)|, refuse)
    ensures var o := AddFrom(s.table, routes, AllRoutes(plan), k, |plan.bypass|, refuse);
            && Walk(Walker(s, Some(Install(g, plan, k, NetworkState(routes, false)))), cs, k, n)
               == Walker(s.(table := o.table), Some(LoopsOver(g, plan, o)))
            && (o.ok ==> k + n == |AllRoutes(plan)| + 1)
    decreases |AllRoutes(plan)| - k
  {
    var rs := AllRoutes(plan);
    var pc := Install(g, plan, k, NetworkState(routes, false));
    var s' := Effect(s, pc, cs(k));
    if k == |rs| || (refuse(k) && k >= |plan.bypass|) {
      n := 1;
      WalkOne(s, pc, cs, k);
    } else {
      var net := if refuse(k) || rs[k] in s.table then routes else routes + [rs[k]];
      assert refuse(k) || rs[k] in s.table ==> s'.table == s.table;
      var rest := LoopSteps(s', g, plan, k + 1, net, cs, refuse);
      n := rest + 1;
    }
  }

  /** From the first route to the save of the undo file a start worker does to the machine exactly what
      `install_network_plan` does, and takes the same record along. */
  lemma InstallIsTheSteps(s: Machine, g: nat, plan: Plan, cs: nat -> Choice, refuse: nat -> bool, rule: bool, nrptOk: bool)
    returns (n: nat)
    requires Refuses(cs, |AllRoutes(plan)|, refuse)
    requires var c := cs(|AllRoutes(plan)| + 1); c.ok == nrptOk && c.rule == rule
    ensures var r := InstallResult(s.table, s.nrpt, plan, refuse, rule, nrptOk);
            Walk(Walker(s, Some(Install(g, plan, 0, NOTHING))), cs, 0, n)
            == Walker(s.(table := r.table, nrpt := r.nrpt), Some(Save(g, r.network, r.ok)))
  {
    n := LoopSteps(s, g, plan, 0, [], cs, refuse);
    var o := AddFrom(s.table, [], AllRoutes(plan), 0, |plan.bypass|, refuse);
    if o.ok && plan.nrpt {
      WalkOn(Walker(s, Some(Install(g, plan, 0, NOTHING))), cs, 0, n, 1);
      ApplyStep(s.(table := o.table), g, NetworkState(o.routes, true), cs, n);
      n := n + 1;
    }
  }

  lemma ApplyStep(s: Machine, g: nat, net: NetworkState, cs: nat -> Choice, i: nat)
    ensures Walk(Walker(s, Some(ApplyNrpt(g, net))), cs, i, 1)
         == Walker(s.(nrpt := cs(i).rule), Some(Save(g, net, cs(i).ok)))
  {
    WalkOne(s, ApplyNrpt(g, net), cs, i);
  }

  // ---- Undo and cleanup ----

  lemma DeleteOne(s: Machine, todo: seq<RouteSpec>, rule: bool, job: Job, cs: nat -> Choice, i: nat, n: nat)
    requires todo != [] && n > 0
    ensures var last, front := todo[|todo| - 1], todo[..|todo| - 1];
            Walk(Walker(s, Some(Undo(todo, rule, job))), cs, i, n)
            == Walk(Walker(s.(table := s.table - {last}), Some(Undo(front, rule, job))), cs, i + 1, n - 1)
  {
  }

  /** Where a thread goes that has undone a record; an aborted start reports exactly if it failed. */
  function AfterUndo(job: Job): Option<Pc> {
    match job
    case StartJob(_) | CleanJob => Some(ClearNrpt(job))
    case MonitorJob(_, _) | StopJob(_) => Some(RemoveFile(job))
    case AbortJob(g, failed) => if failed then Some(FailReport(g)) else None
  }

  /** Undoing a record step by step does what `undo_network_state` does. */
  lemma {:induction false} UndoIsTheSteps(s: Machine, todo: seq<RouteSpec>, rule: bool, job: Job, cs: nat -> Choice, i: nat)
    ensures Walk(Walker(s, Some(Undo(todo, rule, job))), cs, i, |todo| + 1)
         == Walker(s.(table := s.table - Routes(todo), nrpt := s.nrpt && !rule), AfterUndo(job))
    decreases |todo|
  {
    if todo == [] {
      WalkOne(s, Undo(todo, rule, job), cs, i);
      assert s.table - Routes(todo) == s.table;
    } else {
      var last, front := todo[|todo| - 1], todo[..|todo| - 1];
      DeleteOne(s, todo, rule, job, cs, i, |todo| + 1);
      UndoIsTheSteps(s.(table := s.table - {last}), front, rule, job, cs, i + 1);
      RoutesDropLast(todo);
      assert s.table - {last} - Routes(front) == s.table - Routes(todo);
    }
  }

  /** Where a thread goes that has cleaned up. */
  function AfterCleanup(job: Job): Option<Pc>
    requires job.StartJob? || job.CleanJob?
  {
    if job.StartJob? then Some(StartEngine(job.gen)) else None
  }

  /** The end of a cleanup: the rule and the undo file go in any case. */
  lemma ClearSteps(s: Machine, job: Job, cs: nat -> Choice, i: nat)
    requires job.StartJob? || job.CleanJob?
    ensures var r := Walk(Walker(s, Some(ClearNrpt(job))), cs, i, 2);
            && r.s.table == s.table && !r.s.nrpt && r.s.file == None
            && r.pc == AfterCleanup(job)
  {
    WalkOn(Walker(s, Some(ClearNrpt(job))), cs, i, 1, 1);
    WalkOne(s, ClearNrpt(job), cs, i);
    WalkOne(s.(nrpt := false), RemoveFile(job), cs, i + 1);
  }

  lemma UndoneThenClear(s: Machine, rule: bool, job: Job, cs: nat -> Choice, i: nat)
    requires job.StartJob? || job.CleanJob?
    ensures var r := Walk(Walker(s, Some(Undo([], rule, job))), cs, i, 3);
            r.s.table == s.table && !r.s.nrpt && r.s.file == None && r.pc == AfterCleanup(job)
  {
    var s' := s.(nrpt := s.nrpt && !rule);
    WalkOne(s, Undo([], rule, job), cs, i);
    WalkThen(Walker(s, Some(Undo([], rule, job))), Walker(s', Some(ClearNrpt(job))), cs, i, 1, 2);
    ClearSteps(s', job, cs, i + 1);
  }

  lemma {:induction false} UndoThenClear(s: Machine, todo: seq<RouteSpec>, rule: bool, job: Job, cs: nat -> Choice, i: nat)
    requires job.StartJob? || job.CleanJob?
    ensures var r := Walk(Walker(s, Some(Undo(todo, rule, job))), cs, i, |todo| + 3);
            r.s.table == s.table - Routes(todo) && !r.s.nrpt && r.s.file == None && r.pc == AfterCleanup(job)
    decreases |todo|
  {
    if todo == [] {
      UndoneThenClear(s, rule, job, cs, i);
      assert s.table - Routes(todo) == s.table;
    } else {
      var last, front := todo[|todo| - 1], todo[..|todo| - 1];
      DeleteOne(s, todo, rule, job, cs, i, |todo| + 3);
      UndoThenClear(s.(table := s.table - {last}), front, rule, job, cs, i + 1);
      RoutesDropLast(todo);
      assert s.table - {last} - Routes(front) == s.table - Routes(todo);
    }
  }

  /** A cleanup step by step does what `cleanup_persisted_network_state` does. */
  lemma CleanupIsTheSteps(s: Machine, job: Job, cs: nat -> Choice) returns (n: nat)
    requires job.StartJob? || job.CleanJob?
    ensures var r := Walk(Walker(s, Some(ReadFile(job))), cs, 0, n);
            && r.s.table == s.table - Recorded(s.file) && !r.s.nrpt && r.s.file == None
            && r.pc == AfterCleanup(job)
  {
    WalkOne(s, ReadFile(job), cs, 0);
    if s.file == None {
      n := 3;
      WalkThen(Walker(s, Some(ReadFile(job))), Walker(s, Some(ClearNrpt(job))), cs, 0, 1, 2);
      ClearSteps(s, job, cs, 1);
      assert s.table - Recorded(s.file) == s.table;
    } else {
      var net := s.file.value;
      n := 1 + (|net.routes| + 3);
      WalkThen(Walker(s, Some(ReadFile(job))), Walker(s, Some(Undo(net.routes, net.nrpt, job))), cs, 0, 1,
               |net.routes| + 3);
      UndoThenClear(s, net.routes, net.nrpt, job, cs, 1);
    }
  }
}

/** Whose engine a monitor takes. Engines are numbered by their publication: the record holds the last. */
module RuntimeMonitors {
  import opened Options
  import opened Network
  import opened Runtime
  import opened RuntimeInvariant
  import opened RuntimeTheorems
  import opened RuntimeThreads
  import opened RuntimeOverlap

  // ---- The places of a monitor ----

  /** A place of the monitor of generation `g`, from its spawning to its end. */
  predicate Monitoring(pc: Pc, g: nat) {
    match pc
    case SpawnMonitor(h) => h == g
    case MonitorPoll(h) => h == g
    case MonitorWait(h) => h == g
    case MonitorCheck(h) => h == g
    case MonitorTake(h, _) => h == g
    case Undo(_, _, job) => job.MonitorJob? && job.gen == g
    case RemoveFile(job) => job.MonitorJob? && job.gen == g
    case Finish(job) => job.MonitorJob? && job.gen == g
    case _ => false
  }

  lemma MonitoringNext(s: Machine, pc: Pc, c: Choice, g: nat)
    requires Monitoring(pc, g)
    ensures NextPc(s, pc, c).Some? ==> Monitoring(NextPc(s, pc, c).value, g)
  {
  }

  lemma MonitorStays(background: set<RouteSpec>, states: seq<Machine>, events: seq<Event>, t: nat, g: nat, i: nat, j: nat)
    requires IsRun(background, states, events) && i <= j < |states| && NoCrash(events, i, j) && Alive(states, t, i, j)
    requires Monitoring(states[i].mem.threads[t], g)
    ensures Monitoring(states[j].mem.threads[t], g)
  {
    forall s, pc, c | Monitoring(pc, g) && NextPc(s, pc, c).Some?
      ensures Monitoring(NextPc(s, pc, c).value, g)
    {
      MonitoringNext(s, pc, c, g);
    }
    ThreadStays(background, states, events, t, (pc: Pc) => Monitoring(pc, g), i, j);
  }

  // ---- Publications ----

  ghost predicate PublishesBy(s: Machine, e: Event) {
    e.Advance? && e.t in s.mem.threads && s.mem.threads[e.t].Publish?
  }

  ghost predicate TakesBy(s: Machine, e: Event) {
    e.Advance? && e.t in s.mem.threads && (s.mem.threads[e.t].MonitorTake? || s.mem.threads[e.t].StopTake?)
  }

  ghost predicate NoPublication(states: seq<Machine>, events: seq<Event>, i: nat, j: nat)
    requires i <= j <= |events| < |states|
  {
    forall k :: i <= k < j ==> !PublishesBy(states[k], events[k])
  }

  ghost predicate CountsPublication(s: Machine, e: Event, s': Machine) {
    |s'.mem.published| == |s.mem.published| + if PublishesBy(s, e) then 1 else 0
  }

  lemma PublicationCounts(s: Machine, e: Event, s': Machine)
    requires Enabled(s, e) && s' == Apply(s, e) && !e.Crash?
    ensures CountsPublication(s, e, s')
    ensures !PublishesBy(s, e) && s.mem.engine == None ==> s'.mem.engine == None
    ensures TakesBy(s, e) ==> s'.mem.engine == None
  {
  }

  /** What a step means for the number of publications and for an empty record. */
  ghost predicate Records(s: Machine, e: Event, s': Machine) {
    && CountsPublication(s, e, s')
    && (!PublishesBy(s, e) && s.mem.engine == None ==> s'.mem.engine == None)
    && (TakesBy(s, e) ==> s'.mem.engine == None)
  }

  lemma PublicationStep(background: set<RouteSpec>, states: seq<Machine>, events: seq<Event>, k: nat)
    requires IsRun(background, states, events) && k < |events| && !events[k].Crash?
    ensures Records(states[k], events[k], states[k + 1])
  {
    RunStep(background, states, events, k);
    PublicationCounts(states[k], events[k], states[k + 1]);
  }

  ghost predicate RecordsAll(states: seq<Machine>, events: seq<Event>, i: nat, j: nat)
    requires i <= j <= |events| < |states|
  {
    forall k :: i <= k < j ==> Records(states[k], events[k], states[k + 1])
  }

  lemma RunRecords(background: set<RouteSpec>, states: seq<Machine>, events: seq<Event>, i: nat, j: nat)
    requires IsRun(background, states, events) && i <= j < |states| && NoCrash(events, i, j)
    ensures RecordsAll(states, events, i, j)
  {
    forall k | i <= k < j
      ensures Records(states[k], events[k], states[k + 1])
    {
      PublicationStep(background, states, events, k);
    }
  }

  /** The list of publications grows by one with each, and only then. */
  lemma {:induction false} PublishedCounts(states: seq<Machine>, events: seq<Event>, i: nat, j: nat)
    requires i <= j <= |events| < |states| && RecordsAll(states, events, i, j)
    ensures |states[i].mem.published| <= |states[j].mem.published|
    ensures |states[i].mem.published| == |states[j].mem.published| <==> NoPublication(states, events, i, j)
    decreases j
  {
    if i < j {
      PublishedCounts(states, events, i, j - 1);
      assert Records(states[j - 1], events[j - 1], states[j]);
    }
  }

  /** Without a publication the record stays empty. */
  lemma {:induction false} EmptyStays(states: seq<Machine>, events: seq<Event>, i: nat, j: nat)
    requires i <= j <= |events| < |states| && RecordsAll(states, events, i, j)
    requires NoPublication(states, events, i, j) && states[i].mem.engine == None
    ensures states[j].mem.engine == None
    decreases j
  {
    if i < j {
      EmptyStays(states, events, i, j - 1);
      assert Records(states[j - 1], events[j - 1], states[j]);
    }
  }

  /** An engine still in the record after no further publication has never left it. */
  lemma EngineStayed(states: seq<Machine>, events: seq<Event>, i: nat, j: nat)
    requires i <= j <= |events| < |states| && RecordsAll(states, events, i, j) && NoCrash(events, i, j)
    requires states[j].mem.engine.Some?
    ensures NoPublication(states, events, i, j) <==> Untouched(states, events, i, j)
  {
    if NoPublication(states, events, i, j) {
      forall k | i <= k < j && events[k].Advance? && events[k].t in states[k].mem.threads
        ensures !Replaces(states[k].mem.threads[events[k].t])
      {
        if TakesBy(states[k], events[k]) {
          assert Records(states[k], events[k], states[k + 1]);
          EmptyStays(states, events, k + 1, j);
        }
        assert !PublishesBy(states[k], events[k]);
      }
    }
  }

  // ---- The monitor and the engine it was spawned with ----

  /** The list of publications of state i goes on in state j, and its entries from `n` on are all `g`. */
  lemma SameGenerationFrom(pubs: seq<nat>, later: seq<nat>, n: nat, g: nat)
    requires pubs <= later && n < |pubs| && pubs[n] == g && Sorted(later) && Last(later, g)
    ensures forall k :: n <= k < |later| ==> later[k] == g
  {
  }

  /** Thread `t` published engine number n, went on as its monitor, and now takes what is in the record.
      Everything published since has its generation. If there is an engine, it is its own - still the one of
      the publication, with the record it was published with - if and only if nobody has published since. */
  lemma MonitorTakesOwnEngine(background: set<RouteSpec>, states: seq<Machine>, events: seq<Event>,
                              p: nat, t: nat, g: nat, net: NetworkState, i: nat, h: nat, failed: bool)
    requires IsRun(background, states, events) && p < i < |events| && NoCrash(events, p, i)
    requires StepsFrom(states[p], events[p], t, Publish(g, net)) && Alive(states, t, p + 1, i)
    requires StepsFrom(states[i], events[i], t, MonitorTake(h, failed))
    ensures h == g
    ensures var n, later := |states[p].mem.published|, states[i].mem.published;
            && n < |later| && (forall k :: n <= k < |later| ==> later[k] == g)
            && (NoPublication(states, events, p + 1, i) <==> |later| == n + 1)
    ensures states[i].mem.engine.Some? ==>
              (Untouched(states, events, p + 1, i) <==> NoPublication(states, events, p + 1, i))
    ensures Untouched(states, events, p + 1, i) ==> RuntimeOverlap.Running(states[i].mem, g, net)
  {
    PublishSpawns(background, states, events, p, t, g, net);
    MonitorStays(background, states, events, t, g, p + 1, i);
    HistoryGrows(background, states, events, p + 1, i);
    TakerIsLast(background, states, events, i, t, g, failed);
    SameGenerationFrom(states[p + 1].mem.published, states[i].mem.published, |states[p].mem.published|, g);
    RunRecords(background, states, events, p + 1, i);
    PublishedCounts(states, events, p + 1, i);
    if states[i].mem.engine.Some? {
      EngineStayed(states, events, p + 1, i);
    }
    if Untouched(states, events, p + 1, i) {
      SincePublication(background, states, events, p, t, g, net, i);
    }
  }

  lemma PublishSpawns(background: set<RouteSpec>, states: seq<Machine>, events: seq<Event>, p: nat, t: nat, g: nat,
                      net: NetworkState)
    requires IsRun(background, states, events) && p < |events| && StepsFrom(states[p], events[p], t, Publish(g, net))
    ensures t in states[p + 1].mem.threads && Monitoring(states[p + 1].mem.threads[t], g)
    ensures states[p + 1].mem.published == states[p].mem.published + [g]
  {
    RunStep(background, states, events, p);
  }

  lemma TakerIsLast(background: set<RouteSpec>, states: seq<Machine>, events: seq<Event>, i: nat, t: nat, g: nat, failed: bool)
    requires IsRun(background, states, events) && i < |states|
    requires t in states[i].mem.threads && states[i].mem.threads[t] == MonitorTake(g, failed)
    ensures Sorted(states[i].mem.published) && Last(states[i].mem.published, g)
  {
    InvAlways(background, states, events, i);
    assert GenPc(states[i].mem, states[i].mem.threads[t]);
  }
}

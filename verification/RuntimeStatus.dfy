/** What the reported status says about the engine in the record, and what it does not. */
module RuntimeStatus {
  import opened Options
  import opened Network
  import opened Runtime
  import opened RuntimeInvariant
  import opened RuntimeTheorems
  import opened RuntimeOverlap

  // ---- A running status has an engine ----

  /** A stop or a monitor has emptied the record and has yet to write the status. */
  predicate TakingDown(next: Option<Pc>) {
    && next.Some? && (next.value.Undo? || next.value.RemoveFile? || next.value.Finish?)
    && (next.value.job.StopJob? || next.value.job.MonitorJob?)
  }

  predicate Honest(m: Memory, next: Option<Pc>) {
    m.status == Running ==> m.engine.Some? || TakingDown(next)
  }

  lemma HonestStep(s: Machine, pc: Pc, c: Choice)
    requires Honest(s.mem, Some(pc)) && (Acquires(pc) || Holds(pc))
    ensures Honest(Effect(s, pc, c).mem, NextPc(s, pc, c))
  {
  }

  lemma HonestOutside(s: Machine, pc: Pc, c: Choice, holder: Option<Pc>)
    requires Honest(s.mem, holder) && !Acquires(pc) && !Holds(pc)
    ensures Honest(Effect(s, pc, c).mem, holder)
  {
  }

  /** Only the status, the engine and the place of the holder matter. */
  lemma HonestFrame(m: Memory, m': Memory, next: Option<Pc>, next': Option<Pc>)
    requires Honest(m, next) && m'.status == m.status && m'.engine == m.engine
    requires next' == next || !TakingDown(next)
    ensures Honest(m', next')
  {
  }

  lemma HonestAdvance(s: Machine, t: nat, c: Choice)
    requires Control(s.mem) && Enabled(s, Advance(t, c)) && Honest(s.mem, Holder(s.mem))
    ensures var m' := Apply(s, Advance(t, c)).mem; Honest(m', Holder(m'))
  {
    var pc := s.mem.threads[t];
    var after, next := Effect(s, pc, c).mem, NextPc(s, pc, c);
    NextPlace(s, t, c);
    PlaceHolder(after, t, next);
    if Acquires(pc) || Holds(pc) {
      HonestFrame(s.mem, s.mem, Holder(s.mem), Some(pc));
      HonestStep(s, pc, c);
      HonestFrame(after, Place(after, t, next), next, Holder(Place(after, t, next)));
    } else {
      OutsideStep(s, pc, c);
      HonestOutside(s, pc, c, Holder(s.mem));
      HonestFrame(after, Place(after, t, next), Holder(s.mem), Holder(Place(after, t, next)));
    }
  }

  lemma HonestEvent(s: Machine, e: Event, s': Machine)
    requires Control(s.mem) && Enabled(s, e) && s' == Apply(s, e) && Honest(s.mem, Holder(s.mem))
    ensures Honest(s'.mem, Holder(s'.mem))
  {
    if e.Advance? {
      HonestAdvance(s, e.t, e.c);
    }
  }

  lemma {:induction false} HonestAlways(background: set<RouteSpec>, states: seq<Machine>, events: seq<Event>, i: nat)
    requires IsRun(background, states, events) && i < |states|
    ensures Honest(states[i].mem, Holder(states[i].mem))
  {
    if i > 0 {
      HonestAlways(background, states, events, i - 1);
      InvAlways(background, states, events, i - 1);
      RunStep(background, states, events, i - 1);
      HonestEvent(states[i - 1], events[i - 1], states[i]);
    }
  }

  /** With the lock free a running status means that there is an engine in the record. */
  lemma RunningHasEngine(background: set<RouteSpec>, states: seq<Machine>, events: seq<Event>, i: nat)
    requires IsRun(background, states, events) && i < |states|
    requires states[i].mem.lock == None && states[i].mem.status == Running
    ensures states[i].mem.engine.Some?
  {
    HonestAlways(background, states, events, i);
  }

  // ---- An engine in the record need not run by its status ----

  /** The step overwrites a running status: a stop is announced, or a start worker reports its failure. */
  predicate Marks(pc: Pc) {
    pc.StopMark? || pc.FailSet?
  }

  ghost predicate MarksBy(s: Machine, e: Event) {
    e.Advance? && e.t in s.mem.threads && Marks(s.mem.threads[e.t])
  }

  ghost predicate Marked(states: seq<Machine>, events: seq<Event>, i: nat, j: nat)
    requires i <= j <= |events| < |states|
  {
    exists k :: i <= k < j && MarksBy(states[k], events[k])
  }

  lemma MarkedSnoc(states: seq<Machine>, events: seq<Event>, i: nat, j: nat)
    requires i < j <= |events| < |states|
    ensures Marked(states, events, i, j) <==> Marked(states, events, i, j - 1) || MarksBy(states[j - 1], events[j - 1])
  {
  }

  /** An engine in the record shows as running until it is marked. */
  ghost predicate Shows(m: Memory, marked: bool) {
    m.engine.Some? && (m.status == Running <==> !marked)
  }

  lemma ShowsStep(b: set<RouteSpec>, s: Machine, t: nat, c: Choice, marked: bool)
    requires NetInv(b, s) && Enabled(s, Advance(t, c)) && Shows(s.mem, marked) && !Replaces(s.mem.threads[t])
    ensures Shows(Apply(s, Advance(t, c)).mem, marked || Marks(s.mem.threads[t]))
  {
    var pc := s.mem.threads[t];
    if pc.Finish? {
      FinisherIsEmpty(b, s, t);
    }
    EffectShows(s, pc, c, marked);
  }

  /** Who is about to write the last status has emptied the record. */
  lemma FinisherIsEmpty(b: set<RouteSpec>, s: Machine, t: nat)
    requires NetInv(b, s) && t in s.mem.threads && s.mem.threads[t].Finish?
    ensures s.mem.engine == None
  {
    assert s.mem.lock == Some(t);
    assert Own(b, s, s.mem.threads[t]);
  }

  lemma EffectShows(s: Machine, pc: Pc, c: Choice, marked: bool)
    requires Shows(s.mem, marked) && !Replaces(pc) && !pc.Finish?
    ensures Shows(Effect(s, pc, c).mem, marked || Marks(pc))
  {
  }

  lemma ShowsEvent(b: set<RouteSpec>, s: Machine, e: Event, s': Machine, marked: bool)
    requires NetInv(b, s) && Enabled(s, e) && s' == Apply(s, e) && !e.Crash? && Shows(s.mem, marked)
    requires e.Advance? ==> !Replaces(s.mem.threads[e.t])
    ensures Shows(s'.mem, marked || MarksBy(s, e))
  {
    if e.Advance? {
      ShowsStep(b, s, e.t, e.c, marked);
    }
  }

  lemma PublishShows(s: Machine, e: Event, s': Machine, u: nat, g: nat, net: NetworkState)
    requires Enabled(s, e) && s' == Apply(s, e) && StepsFrom(s, e, u, Publish(g, net))
    ensures Shows(s'.mem, false)
  {
  }

  /** For as long as a published engine stays in the record, the status is Running if and only if nobody has
      announced a stop and no start worker has reported a failure since. */
  lemma {:induction false} EngineShows(background: set<RouteSpec>, states: seq<Machine>, events: seq<Event>,
                                       p: nat, u: nat, g: nat, net: NetworkState, i: nat)
    requires IsRun(background, states, events) && p < i < |states|
    requires StepsFrom(states[p], events[p], u, Publish(g, net)) && Untouched(states, events, p + 1, i)
    ensures states[i].mem.engine.Some?
    ensures states[i].mem.status == Running <==> !Marked(states, events, p + 1, i)
    decreases i
  {
    NetAlways(background, states, events, i - 1);
    RunStep(background, states, events, i - 1);
    if i == p + 1 {
      PublishShows(states[p], events[p], states[i], u, g, net);
    } else {
      UntouchedSplit(states, events, p + 1, i);
      MarkedSnoc(states, events, p + 1, i);
      EngineShows(background, states, events, p, u, g, net, i - 1);
      ShowsEvent(background + states[i - 1].lost, states[i - 1], events[i - 1], states[i],
                 Marked(states, events, p + 1, i - 1));
    }
  }
}

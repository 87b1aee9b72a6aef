/** The engine's failure latch: two workers, cancels and takes share one result slot and one close
    flag. */
module EngineLatch {
  import opened Options
  import opened Runs

  type Error = string

  /** Where a packet worker stands. */
  datatype Worker =
    | Check             // the loop condition: has `close` been set?
    | Work              // inside the loop body
    | Leaving           // past the loop, about to look at `close` once more
    | Failing(error: Error) // in fail_engine, about to publish
    | Closing           // published, about to set `close`
    | Done

  /** `published` is history: every error handed to set_result, in order. `taken` counts how many of
      them were published when a result was last taken; `cancelled` says a cancel has begun. */
  datatype Engine = Engine(
    slot: Option<Error>,
    close: bool,
    uplink: Worker,
    downlink: Worker,
    published: seq<Error>,
    taken: nat,
    takes: nat,
    cancelled: bool)

  datatype Outcome =
    | Carry             // a packet moved, was dropped, or the error is not fatal here
    | Fatal(error: Error)
    | Interrupted       // a read failed; the worker leaves if `close` is set

  datatype Event =
    | Step(up: bool, outcome: Outcome)
    | Cancel
    | Take              // take_result empties the slot; the cancel that follows is an event of its own

  const STARTED := Engine(None, false, Check, Check, [], 0, 0, false)

  const UNEXPECTED: Error := "worker stopped unexpectedly"

  function WorkerOf(s: Engine, up: bool): Worker {
    if up then s.uplink else s.downlink
  }

  function At(s: Engine, up: bool, w: Worker): Engine {
    if up then s.(uplink := w) else s.(downlink := w)
  }

  predicate Enabled(s: Engine, e: Event) {
    match e
    case Step(up, _) => !WorkerOf(s, up).Done?
    case _ => true
  }

  function Apply(s: Engine, e: Event): Engine
    requires Enabled(s, e)
  {
    match e
    case Cancel => s.(close := true, cancelled := true)
    case Take =>
      if s.slot.Some? then s.(slot := None, taken := |s.published|, takes := s.takes + 1) else s
    case Step(up, outcome) =>
      match WorkerOf(s, up)
      case Check => At(s, up, if s.close then Leaving else Work)
      case Work =>
        (match outcome
         case Carry => At(s, up, Check)
         case Fatal(error) => At(s, up, Failing(error))
         case Interrupted => At(s, up, if s.close then Leaving else Check))
      case Leaving => At(s, up, if s.close then Done else Failing(UNEXPECTED))
      case Failing(error) =>
        At(s, up, Closing).(
          slot := if s.slot.None? then Some(error) else s.slot, published := s.published + [error])
      case Closing => At(s, up, Done).(close := true)
      case Done => s
  }

  /** One event, if it can happen. */
  function Next(s: Engine, e: Event): Option<Engine> {
    if Enabled(s, e) then Some(Apply(s, e)) else None
  }

  /** How many errors a worker has published. */
  function Shots(w: Worker): nat {
    if w.Closing? || w.Done? then 1 else 0
  }

  ghost predicate Inv(s: Engine) {
    && s.taken <= |s.published|
    && s.slot == (if s.taken < |s.published| then Some(s.published[s.taken]) else None)
    && (s.close ==> s.cancelled || s.published != [])
    && |s.published| <= Shots(s.uplink) + Shots(s.downlink)
    && (s.uplink.Leaving? || s.uplink.Done? || s.downlink.Leaving? || s.downlink.Done? ==> s.close)
    && (s.uplink.Closing? || s.downlink.Closing? ==> s.published != [])
    && (s.takes == 0 ==> s.taken == 0)
  }

  lemma InvFailing(s: Engine, up: bool, outcome: Outcome)
    requires Inv(s) && WorkerOf(s, up).Failing?
    ensures Inv(Apply(s, Step(up, outcome)))
  {
  }

  lemma InvClosing(s: Engine, up: bool, outcome: Outcome)
    requires Inv(s) && (WorkerOf(s, up).Closing? || WorkerOf(s, up).Leaving?)
    ensures Inv(Apply(s, Step(up, outcome)))
  {
  }

  lemma InvLoop(s: Engine, up: bool, outcome: Outcome)
    requires Inv(s) && (WorkerOf(s, up).Check? || WorkerOf(s, up).Work?)
    ensures Inv(Apply(s, Step(up, outcome)))
  {
  }

  lemma InvWorker(s: Engine, up: bool, outcome: Outcome)
    requires Inv(s) && !WorkerOf(s, up).Done?
    ensures Inv(Apply(s, Step(up, outcome)))
  {
    match WorkerOf(s, up)
    case Failing(_) => InvFailing(s, up, outcome);
    case Closing | Leaving => InvClosing(s, up, outcome);
    case _ => InvLoop(s, up, outcome);
  }

  lemma InvStep(s: Engine, e: Event)
    requires Inv(s) && Enabled(s, e)
    ensures Inv(Apply(s, e))
  {
    if e.Step? {
      InvWorker(s, e.up, e.outcome);
    }
  }

  lemma InvAlways(s: Engine, events: seq<Event>, s': Engine)
    requires Inv(s) && Run(Next, s, events) == Some(s')
    ensures Inv(s')
  {
    forall x, e | Inv(x) && Next(x, e).Some?
      ensures Inv(Next(x, e).value)
    {
      InvStep(x, e);
    }
    Always(Next, (x: Engine) => Inv(x), s, events, s');
  }

  /** The slot holds exactly the first failure published since a result was last taken. */
  lemma SlotIsFirstFailure(events: seq<Event>, s: Engine)
    requires Run(Next, STARTED, events) == Some(s)
    ensures s.slot == if s.taken < |s.published| then Some(s.published[s.taken]) else None
  {
    InvAlways(STARTED, events, s);
  }

  /** Whoever sees `close` set before any cancel or take finds the first published failure in the
      slot; and a worker that has ended has always set or seen `close`, so the engine never dies
      without a result unless someone cancelled it or took the result. */
  lemma ClosedHasFailure(events: seq<Event>, s: Engine)
    requires Run(Next, STARTED, events) == Some(s) && !s.cancelled && s.takes == 0
    ensures s.close ==> s.published != [] && s.slot == Some(s.published[0])
    ensures s.uplink.Done? || s.downlink.Done? ==> s.close && s.slot.Some?
  {
    InvAlways(STARTED, events, s);
  }

  /** A worker leaves its loop only after `close` was set, so neither worker ever publishes that it
      stopped unexpectedly; by then at most the other one has published a failure. */
  lemma LeavingIsClosed(events: seq<Event>, s: Engine, up: bool, outcome: Outcome)
    requires Run(Next, STARTED, events) == Some(s) && WorkerOf(s, up).Leaving?
    ensures Apply(s, Step(up, outcome)) == At(s, up, Done) && |s.published| <= 1
  {
    InvAlways(STARTED, events, s);
  }

  predicate NoTake(events: seq<Event>) {
    forall i :: 0 <= i < |events| ==> !events[i].Take?
  }

  /** A failure in the slot stays until it is taken. */
  lemma {:induction false} FailureStays(s: Engine, events: seq<Event>, s': Engine)
    requires s.slot.Some? && Run(Next, s, events) == Some(s') && NoTake(events)
    ensures s'.slot == s.slot
    decreases |events|
  {
    if events != [] {
      var n := |events| - 1;
      FailureStays(s, events[..n], Run(Next, s, events[..n]).value);
    }
  }

  /** `close` is never cleared. */
  lemma CloseStays(s: Engine, events: seq<Event>, s': Engine)
    requires s.close && Run(Next, s, events) == Some(s')
    ensures s'.close
  {
    Always(Next, (x: Engine) => x.close, s, events, s');
  }

  // ---- Cancels and failures ----

  /** A cancel leaves `close` set for good, and a cancel is on record exactly if there has been one. */
  lemma {:induction false} CancelCloses(events: seq<Event>, s: Engine)
    requires Run(Next, STARTED, events) == Some(s)
    ensures s.cancelled <==> Cancel in events
    ensures Cancel in events ==> s.close
    decreases |events|
  {
    if events != [] {
      var n := |events| - 1;
      CancelCloses(events[..n], Run(Next, STARTED, events[..n]).value);
      assert events == events[..n] + [events[n]];
    }
  }

  /** A worker on its way to publish `error`, or past that. */
  ghost predicate Publishes(s: Engine, up: bool, error: Error) {
    || WorkerOf(s, up) == Failing(error)
    || (error in s.published && (WorkerOf(s, up) == Closing || (WorkerOf(s, up) == Done && s.close)))
  }

  lemma PublishesOn(s: Engine, e: Event, up: bool, error: Error)
    requires Enabled(s, e) && Publishes(s, up, error)
    ensures Publishes(Apply(s, e), up, error)
  {
  }

  /** A worker that meets a fatal error ends only after it has published that error and set `close`. */
  lemma FatalIsPublished(s: Engine, up: bool, error: Error, events: seq<Event>, s': Engine)
    requires WorkerOf(s, up) == Work && Run(Next, Apply(s, Step(up, Fatal(error))), events) == Some(s')
    ensures Publishes(s', up, error)
    ensures WorkerOf(s', up) == Done ==> error in s'.published && s'.close
  {
    forall x, e | Publishes(x, up, error) && Next(x, e).Some?
      ensures Publishes(Next(x, e).value, up, error)
    {
      PublishesOn(x, e, up, error);
    }
    Always(Next, (x: Engine) => Publishes(x, up, error), Apply(s, Step(up, Fatal(error))), events, s');
  }

  ghost predicate Met(events: seq<Event>, error: Error) {
    exists i :: 0 <= i < |events| && events[i].Step? && events[i].outcome == Fatal(error)
  }

  lemma MetStays(events: seq<Event>, e: Event, error: Error)
    requires Met(events, error)
    ensures Met(events + [e], error)
  {
    var i :| 0 <= i < |events| && events[i].Step? && events[i].outcome == Fatal(error);
    assert (events + [e])[i] == events[i];
  }

  /** What is published, or about to be, is a fatal error that a worker has met. */
  ghost predicate OnlyMet(s: Engine, events: seq<Event>) {
    && (forall error :: error in s.published ==> Met(events, error))
    && (forall up :: WorkerOf(s, up).Failing? ==> Met(events, WorkerOf(s, up).error))
  }

  lemma OnlyMetStep(s: Engine, events: seq<Event>, e: Event)
    requires OnlyMet(s, events) && Enabled(s, e) && Inv(s)
    ensures OnlyMet(Apply(s, e), events + [e])
  {
    var s' := Apply(s, e);
    forall error | error in s'.published
      ensures Met(events + [e], error)
    {
      PublishedBefore(s, e, error);
      MetStays(events, e, error);
    }
    forall up | WorkerOf(s', up).Failing?
      ensures Met(events + [e], WorkerOf(s', up).error)
    {
      if WorkerOf(s, up).Failing? {
        MetStays(events, e, WorkerOf(s, up).error);
      } else {
        assert e == Step(up, Fatal(WorkerOf(s', up).error));
        assert (events + [e])[|events|] == e;
      }
    }
  }

  /** What is published was already, or a worker was about to publish it. */
  lemma PublishedBefore(s: Engine, e: Event, error: Error)
    requires Enabled(s, e) && error in Apply(s, e).published
    ensures error in s.published || exists up :: WorkerOf(s, up) == Failing(error)
  {
    if error !in s.published {
      assert WorkerOf(s, e.up) == Failing(error);
    }
  }

  /** Nothing else is ever published; in particular not that a worker stopped unexpectedly. */
  lemma {:induction false} PublishedWasMet(events: seq<Event>, s: Engine)
    requires Run(Next, STARTED, events) == Some(s)
    ensures OnlyMet(s, events)
    decreases |events|
  {
    if events != [] {
      var n := |events| - 1;
      var mid := Run(Next, STARTED, events[..n]).value;
      PublishedWasMet(events[..n], mid);
      InvAlways(STARTED, events[..n], mid);
      OnlyMetStep(mid, events[..n], events[n]);
      assert events == events[..n] + [events[n]];
    }
  }

  // ---- The end of the workers ----

  /** How many steps a worker has left at most once `close` is set. */
  function StepsLeft(w: Worker): nat {
    match w
    case Work => 3
    case Check | Failing(_) => 2
    case Leaving | Closing => 1
    case Done => 0
  }

  function StepsOf(events: seq<Event>, up: bool): nat {
    if events == [] then 0
    else
      var last := events[|events| - 1];
      StepsOf(events[..|events| - 1], up) + if last.Step? && last.up == up then 1 else 0
  }

  /** Once `close` is set each worker ends: it takes at most three more steps, whatever they meet. */
  lemma {:induction false} WorkersEnd(s: Engine, up: bool, events: seq<Event>, s': Engine)
    requires s.close && Run(Next, s, events) == Some(s')
    ensures StepsOf(events, up) + StepsLeft(WorkerOf(s', up)) <= StepsLeft(WorkerOf(s, up)) <= 3
    ensures StepsOf(events, up) >= 3 ==> WorkerOf(s', up).Done?
    decreases |events|
  {
    if events != [] {
      var n := |events| - 1;
      var mid := Run(Next, s, events[..n]).value;
      WorkersEnd(s, up, events[..n], mid);
      CloseStays(s, events[..n], mid);
      ClosedStep(mid, events[n], up);
    }
  }

  lemma ClosedStep(s: Engine, e: Event, up: bool)
    requires s.close && Enabled(s, e)
    ensures StepsLeft(WorkerOf(Apply(s, e), up)) + (if e.Step? && e.up == up then 1 else 0) <= StepsLeft(WorkerOf(s, up))
  {
  }

  // ---- The code ----

  /** A step of one worker leaves the other where it is. */
  lemma OtherStays(s: Engine, e: Event, up: bool)
    requires Enabled(s, e) && (e.Step? ==> e.up != up)
    ensures WorkerOf(Apply(s, e), up) == WorkerOf(s, up)
  {
  }

  class Latch {
    var result: Option<Error>
    var close: bool
    var uplink: Worker
    var downlink: Worker
    ghost var published: seq<Error>
    ghost var taken: nat
    ghost var takes: nat
    ghost var cancelled: bool

    ghost function Snapshot(): Engine
      reads this
    {
      Engine(result, close, uplink, downlink, published, taken, takes, cancelled)
    }

    constructor ()
      ensures Snapshot() == STARTED && Inv(Snapshot())
    {
      result, close, uplink, downlink := None, false, Check, Check;
      published, taken, takes, cancelled := [], 0, 0, false;
    }

    /** Follows the protocol in everything but the two shared cells. */
    method Follow(ghost s: Engine, up: bool, w: Worker)
      requires s.slot == result && s.close == close && At(s, up, w) == s
      requires WorkerOf(s, !up) == WorkerOf(Snapshot(), !up)
      modifies this`uplink, this`downlink, this`published, this`taken, this`takes, this`cancelled
      ensures Snapshot() == s
    {
      if up {
        uplink := w;
      } else {
        downlink := w;
      }
      published, taken, takes, cancelled := s.published, s.taken, s.takes, s.cancelled;
    }

    /** The first result wins. */
    method SetResult(up: bool, error: Error)
      requires WorkerOf(Snapshot(), up) == Failing(error)
      modifies this
      ensures Snapshot() == Apply(old(Snapshot()), Step(up, Carry))
      ensures WorkerOf(Snapshot(), up) == Closing && WorkerOf(Snapshot(), !up) == old(WorkerOf(Snapshot(), !up))
    {
      ghost var now := Snapshot();
      if result.None? {
        result := Some(error);
      }
      Follow(Apply(now, Step(up, Carry)), up, Closing);
    }

    /** One event of the rest of the engine, as the scheduler decides, if it can happen. */
    method OtherActs(up: bool, choice: Event) returns (acted: bool)
      requires choice.Step? ==> choice.up != up
      modifies this
      ensures acted == Enabled(old(Snapshot()), choice)
      ensures acted ==> Snapshot() == Apply(old(Snapshot()), choice)
      ensures !acted ==> Snapshot() == old(Snapshot())
    {
      ghost var now := Snapshot();
      var other := if up then downlink else uplink;
      var next := other;
      acted := true;
      match choice {
        case Cancel => close := true;
        case Take => result := None;
        case Step(_, outcome) =>
          match other {
            case Check => next := if close then Leaving else Work;
            case Work =>
              next := if outcome.Carry? then Check
                      else if outcome.Fatal? then Failing(outcome.error)
                      else if close then Leaving else Check;
            case Leaving => next := if close then Done else Failing(UNEXPECTED);
            case Failing(error) =>
              if result.None? {
                result := Some(error);
              }
              next := Closing;
            case Closing => close, next := true, Done;
            case Done => acted := false;
          }
      }
      if acted {
        Follow(Apply(now, choice), !up, next);
      }
    }

    /** Any number of events of the rest of the engine. */
    method OthersRun(up: bool, ghost start: Engine, ghost before: seq<Event>, choices: seq<Event>)
      returns (ghost log: seq<Event>)
      requires Run(Next, start, before) == Some(Snapshot())
      requires forall i :: 0 <= i < |choices| && choices[i].Step? ==> choices[i].up != up
      modifies this
      ensures Run(Next, start, log) == Some(Snapshot())
      ensures WorkerOf(Snapshot(), up) == old(WorkerOf(Snapshot(), up))
    {
      log := before;
      for i := 0 to |choices|
        invariant Run(Next, start, log) == Some(Snapshot())
        invariant WorkerOf(Snapshot(), up) == old(WorkerOf(Snapshot(), up))
      {
        ghost var now := Snapshot();
        var acted := OtherActs(up, choices[i]);
        if acted {
          log := Logged(Next, start, log, now, choices[i]);
          OtherStays(now, choices[i], up);
        }
      }
    }

    /** Publishes the failure and only then sets `close`; others may act in between. */
    method FailEngine(up: bool, error: Error, others: seq<Event>) returns (ghost log: seq<Event>)
      requires Inv(Snapshot()) && WorkerOf(Snapshot(), up) == Failing(error)
      requires forall i :: 0 <= i < |others| && others[i].Step? ==> others[i].up != up
      modifies this
      ensures Run(Next, old(Snapshot()), log) == Some(Snapshot())
      ensures Inv(Snapshot()) && close && WorkerOf(Snapshot(), up).Done?
      ensures takes == 0 ==> result.Some?
    {
      ghost var start := Snapshot();
      SetResult(up, error);
      log := Logged(Next, start, [], start, Step(up, Carry));
      log := OthersRun(up, start, log, others);
      ghost var now := Snapshot();
      InvAlways(start, log, now);
      close := true;
      Follow(Apply(now, Step(up, Carry)), up, Done);
      log := Logged(Next, start, log, now, Step(up, Carry));
      InvAlways(start, log, Snapshot());
    }
  }
}

/** The tunnel-to-application half of one TCP flow: a reader thread fills a bounded channel, the
    stack loop moves chunks into the application's socket and ends the stream with a FIN. */
module TcpDownload {
  import opened Options
  import opened Runs
  import opened Bytes

  const FLOW_CHANNEL_CAPACITY := 8

  /** What the socket still has to take: the bytes from `offset` on. */
  datatype Chunk = Chunk(data: seq<byte>, offset: nat)

  datatype Reader =
    | Reading              // about to read from the tunnel
    | Sending(chunk: seq<byte>) // blocked in, or about to enter, the channel's send
    | Ended                // the sender is dropped

  /** Where the stack loop stands in `deliver_download`. */
  datatype Place = Outside | Head | Push | Fin

  /** `read`, `accepted` and `closes` are history: what the reader got from the tunnel, what the
      socket took, and how often `deliver_download` closed it. */
  datatype Flow = Flow(
    read: seq<byte>,
    reader: Reader,
    rx: seq<seq<byte>>,
    pending: Option<Chunk>,
    eof: bool,
    finSent: bool,
    place: Place,
    accepted: seq<byte>,
    counted: nat,
    free: nat,
    open: bool,
    closes: nat)

  datatype Event =
    | ReadChunk(chunk: seq<byte>)
    | ReadEnd                      // end of stream, an error, or the closed flag seen
    | SendChunk
    | Loop(taken: nat)             // one step of deliver_download; `taken` is what send_slice accepts
    | Poll(free: nat, open: bool)  // the stack's other work on the socket, between two calls

  /** Right after `start_tcp_flow_threads`. */
  function Connected(free: nat, open: bool): Flow {
    Flow([], Reading, [], None, false, false, Outside, [], 0, free, open, 0)
  }

  predicate Enabled(f: Flow, e: Event) {
    match e
    case ReadChunk(chunk) => f.reader.Reading? && chunk != []
    case ReadEnd => f.reader.Reading?
    case SendChunk => f.reader.Sending? && |f.rx| < FLOW_CHANNEL_CAPACITY
    case Loop(taken) =>
      f.place.Push? ==> f.pending.Some? && f.pending.value.offset <= |f.pending.value.data|
                        && taken <= f.free && taken <= |f.pending.value.data| - f.pending.value.offset
    case Poll(free, open) => f.place.Outside? && (open ==> !f.finSent)
  }

  function Apply(f: Flow, e: Event): Flow
    requires Enabled(f, e)
  {
    match e
    case ReadChunk(chunk) => f.(read := f.read + chunk, reader := Sending(chunk))
    case ReadEnd => f.(reader := Ended)
    case SendChunk => f.(rx := f.rx + [f.reader.chunk], reader := Reading)
    case Poll(free, open) => f.(free := free, open := open)
    case Loop(taken) =>
      match f.place
      case Outside => f.(place := Head)
      case Head =>
        if f.pending.Some? then f.(place := Push)
        else if f.rx != [] then f.(pending := Some(Chunk(f.rx[0], 0)), rx := f.rx[1..], place := Push)
        else if f.reader.Ended? then f.(eof := true, place := Fin)
        else f.(place := Fin)
      case Push =>
        if !f.open || f.free == 0 then f.(place := Fin)
        else
          var Chunk(data, offset) := f.pending.value;
          var sent := f.(accepted := f.accepted + data[offset..offset + taken],
                         counted := f.counted + taken, free := f.free - taken);
          if offset + taken < |data|
          then sent.(pending := Some(Chunk(data, offset + taken)), place := Fin)
          else sent.(pending := None, place := Head)
      case Fin =>
        if f.eof && f.pending.None? && !f.finSent
        then f.(finSent := true, open := false, closes := f.closes + 1, place := Outside)
        else f.(place := Outside)
  }

  /** One event, if it can happen. */
  function Next(f: Flow, e: Event): Option<Flow> {
    if Enabled(f, e) then Some(Apply(f, e)) else None
  }

  // ---- What every step keeps ----

  function Unsent(f: Flow): seq<byte> {
    if f.pending.Some? && f.pending.value.offset <= |f.pending.value.data|
    then f.pending.value.data[f.pending.value.offset..] else []
  }

  function InHand(f: Flow): seq<byte> {
    if f.reader.Sending? then f.reader.chunk else []
  }

  ghost predicate Inv(f: Flow) {
    && f.accepted + Unsent(f) + Concat(f.rx) + InHand(f) == f.read
    && f.counted == |f.accepted|
    && |f.rx| <= FLOW_CHANNEL_CAPACITY
    && (forall i :: 0 <= i < |f.rx| ==> f.rx[i] != [])
    && (f.reader.Sending? ==> f.reader.chunk != [])
    && (f.pending.Some? ==> f.pending.value.offset < |f.pending.value.data|)
    && (f.place.Push? ==> f.pending.Some?)
    && (f.eof ==> f.rx == [] && f.reader.Ended?)
    && (f.finSent ==> f.eof && f.pending.None?)
    && f.closes == (if f.finSent then 1 else 0)
  }

  lemma InvSend(f: Flow)
    requires Inv(f) && Enabled(f, SendChunk)
    ensures Inv(Apply(f, SendChunk))
  {
    ConcatSnoc(f.rx, f.reader.chunk);
    var f' := Apply(f, SendChunk);
    assert f'.accepted + Unsent(f') + Concat(f'.rx) + InHand(f')
        == f.accepted + Unsent(f) + Concat(f.rx) + InHand(f);
  }

  lemma InvHead(f: Flow, taken: nat)
    requires Inv(f) && f.place.Head?
    ensures Inv(Apply(f, Loop(taken)))
  {
    if f.pending.None? && f.rx != [] {
      var f' := Apply(f, Loop(taken));
      assert Unsent(f') == f.rx[0];
      assert f'.accepted + Unsent(f') + Concat(f'.rx) + InHand(f')
          == f.accepted + Unsent(f) + Concat(f.rx) + InHand(f);
    }
  }

  lemma TailSplits(data: seq<byte>, offset: nat, taken: nat)
    requires offset + taken <= |data|
    ensures data[offset..] == data[offset..offset + taken] + data[offset + taken..]
  {
  }

  lemma Regroup(a: seq<byte>, b: seq<byte>, c: seq<byte>)
    ensures (a + b) + c == a + (b + c)
  {
  }

  lemma PushBytes(accepted: seq<byte>, data: seq<byte>, offset: nat, taken: nat)
    requires offset + taken <= |data|
    ensures (accepted + data[offset..offset + taken]) + data[offset + taken..] == accepted + data[offset..]
    ensures offset + taken == |data| ==> data[offset + taken..] == []
  {
    TailSplits(data, offset, taken);
    Regroup(accepted, data[offset..offset + taken], data[offset + taken..]);
  }

  /** What the socket takes moves from the unsent tail to the accepted bytes. */
  lemma PushMoves(f: Flow, taken: nat)
    requires f.place.Push? && Enabled(f, Loop(taken)) && f.open && f.free > 0
    ensures var f' := Apply(f, Loop(taken)); f'.accepted + Unsent(f') == f.accepted + Unsent(f)
  {
    PushBytes(f.accepted, f.pending.value.data, f.pending.value.offset, taken);
  }

  lemma InvPush(f: Flow, taken: nat)
    requires Inv(f) && f.place.Push? && Enabled(f, Loop(taken))
    ensures Inv(Apply(f, Loop(taken)))
  {
    if f.open && f.free > 0 {
      PushMoves(f, taken);
    }
  }

  lemma InvStep(f: Flow, e: Event)
    requires Inv(f) && Enabled(f, e)
    ensures Inv(Apply(f, e))
  {
    match e
    case ReadChunk(chunk) =>
      assert InHand(f) == [];
      assert f.accepted + Unsent(f) + Concat(f.rx) == f.read;
    case SendChunk => InvSend(f);
    case ReadEnd => assert InHand(f) == InHand(Apply(f, e));
    case Poll(_, _) =>
    case Loop(taken) =>
      match f.place
      case Head => InvHead(f, taken);
      case Push => InvPush(f, taken);
      case _ =>
  }

  lemma InvAlways(f: Flow, events: seq<Event>, f': Flow)
    requires Inv(f) && Run(Next, f, events) == Some(f')
    ensures Inv(f')
  {
    forall x, e | Inv(x) && Next(x, e).Some?
      ensures Inv(Next(x, e).value)
    {
      InvStep(x, e);
    }
    Always(Next, (x: Flow) => Inv(x), f, events, f');
  }

  // ---- What it means for the application ----

  /** No byte is lost, duplicated or reordered, for any interleaving and any pattern of partial
      writes, and the flow's share of the download counter is the accepted length. */
  lemma DownloadConserved(free: nat, open: bool, events: seq<Event>, f: Flow)
    requires Run(Next, Connected(free, open), events) == Some(f)
    ensures f.accepted + Unsent(f) + Concat(f.rx) + InHand(f) == f.read
    ensures f.counted == |f.accepted|
  {
    InvAlways(Connected(free, open), events, f);
  }

  /** The socket is closed at most once, and only when it has taken every byte the reader ever
      read or will read. */
  lemma CloseComesLast(free: nat, open: bool, events: seq<Event>, f: Flow, more: seq<Event>, f': Flow)
    requires Run(Next, Connected(free, open), events) == Some(f) && Run(Next, f, more) == Some(f')
    ensures f.closes <= 1
    ensures f.closes == 1 ==> f.accepted == f.read && f'.read == f.read && f'.closes == 1
  {
    InvAlways(Connected(free, open), events, f);
    if f.closes == 1 {
      ClosedStays(f, more, f');
    }
  }

  lemma ClosedStays(f: Flow, events: seq<Event>, f': Flow)
    requires Inv(f) && f.finSent && Run(Next, f, events) == Some(f')
    ensures f'.finSent && Inv(f') && f'.read == f.read && f'.accepted == f.accepted
  {
    forall x, e | Finished(f, x) && Next(x, e).Some?
      ensures Finished(f, Next(x, e).value)
    {
      InvStep(x, e);
    }
    Always(Next, (x: Flow) => Finished(f, x), f, events, f');
  }

  /** The FIN is out, and nothing has been read or accepted since `f`. */
  ghost predicate Finished(f: Flow, x: Flow) {
    x.finSent && Inv(x) && x.read == f.read && x.accepted == f.accepted
  }

  /** Steps `deliver_download` can still take before it leaves its loop. */
  function Rank(f: Flow): nat {
    match f.place
    case Head => 2 * f.free + 3
    case Push => 2 * f.free + 2
    case Fin => 1
    case Outside => 0
  }

  function LoopSteps(events: seq<Event>): nat {
    if events == [] then 0
    else LoopSteps(events[..|events| - 1]) + (if events[|events| - 1].Loop? then 1 else 0)
  }

  /** No step of the reader touches the rank, and every step of the loop lowers it: an iteration
      that goes round consumes free buffer space because no chunk is empty. */
  lemma RankFalls(f: Flow, e: Event)
    requires Inv(f) && Enabled(f, e) && !f.place.Outside?
    ensures if e.Loop? then Rank(Apply(f, e)) < Rank(f) else Rank(Apply(f, e)) == Rank(f)
  {
  }

  ghost predicate StaysInside(f: Flow, events: seq<Event>) {
    forall n :: 0 <= n < |events| ==> Run(Next, f, events[..n]).Some? && !Run(Next, f, events[..n]).value.place.Outside?
  }

  /** However fast the reader refills the channel, one call of `deliver_download` ends after at most
      2 * free + 3 steps of its own. */
  lemma {:induction false} DeliverEnds(f: Flow, events: seq<Event>, f': Flow)
    requires Inv(f) && Run(Next, f, events) == Some(f') && StaysInside(f, events)
    ensures LoopSteps(events) + Rank(f') <= Rank(f) <= 2 * f.free + 3
    decreases |events|
  {
    if events != [] {
      var n := |events| - 1;
      forall k | 0 <= k < n
        ensures Run(Next, f, events[..n][..k]).Some? && !Run(Next, f, events[..n][..k]).value.place.Outside?
      {
        assert events[..n][..k] == events[..k];
      }
      var mid := Run(Next, f, events[..n]).value;
      DeliverEnds(f, events[..n], mid);
      InvAlways(f, events[..n], mid);
      RankFalls(mid, events[n]);
    }
  }

  // ---- What a call delivers ----

  /** What the socket has not taken yet of what has reached the stack loop. */
  function Backlog(f: Flow): seq<byte> {
    Unsent(f) + Concat(f.rx)
  }

  /** Nothing more can be done in this call: the channel has been found empty, the socket is closed or full,
      or it has just taken less than it was offered. */
  ghost predicate Rests(f: Flow, e: Event) {
    && e.Loop?
    && (|| (f.place.Head? && f.pending.None? && f.rx == [])
        || (f.place.Push? && (!f.open || f.free == 0 || e.taken < |Unsent(f)|)))
  }

  /** A call leaves its loop exactly when nothing more can be done. */
  lemma LeavesAtRest(f: Flow, e: Event)
    requires Inv(f) && Enabled(f, e) && e.Loop? && (f.place.Head? || f.place.Push?)
    ensures Apply(f, e).place.Fin? <==> Rests(f, e)
    ensures !Apply(f, e).place.Fin? <==> if f.place.Head? then Apply(f, e).place.Push? else Apply(f, e).place.Head?
  {
  }

  /** Each step of the loop moves bytes from the front of the backlog to the end of what was accepted. */
  ghost predicate Moves(f: Flow, f': Flow) {
    && f'.accepted + Backlog(f') == f.accepted + Backlog(f)
    && |f'.accepted| + f'.free == |f.accepted| + f.free
    && f'.reader == f.reader && f'.read == f.read
  }

  lemma LoopMoves(f: Flow, e: Event)
    requires Inv(f) && Enabled(f, e) && e.Loop?
    ensures Moves(f, Apply(f, e))
  {
    InvStep(f, e);
    var f' := Apply(f, e);
    LoopKeeps(f, e);
    AllOf(f);
    AllOf(f');
    SameTail(f.accepted + Backlog(f), f'.accepted + Backlog(f'), InHand(f));
  }

  lemma AllOf(f: Flow)
    requires Inv(f)
    ensures f.accepted + Backlog(f) + InHand(f) == f.read
  {
    Regroup(f.accepted, Unsent(f), Concat(f.rx));
  }

  lemma LoopKeeps(f: Flow, e: Event)
    requires Enabled(f, e) && e.Loop?
    ensures var f' := Apply(f, e);
            f'.reader == f.reader && f'.read == f.read && |f'.accepted| + f'.free == |f.accepted| + f.free
  {
  }

  lemma SameTail(a: seq<byte>, b: seq<byte>, tail: seq<byte>)
    requires a + tail == b + tail
    ensures a == b
  {
    assert a == (a + tail)[..|a|] && b == (b + tail)[..|a|];
  }

  ghost predicate AllLoop(events: seq<Event>) {
    forall i :: 0 <= i < |events| ==> events[i].Loop?
  }

  /** So does the whole call when the reader is quiet meanwhile. */
  lemma {:induction false} QuietMoves(f: Flow, events: seq<Event>, f': Flow)
    requires Inv(f) && Run(Next, f, events) == Some(f') && AllLoop(events)
    ensures Moves(f, f')
    decreases |events|
  {
    if events != [] {
      var n := |events| - 1;
      var mid := Run(Next, f, events[..n]).value;
      QuietMoves(f, events[..n], mid);
      InvAlways(f, events[..n], mid);
      LoopMoves(mid, events[n]);
    }
  }

  /** `f'` has accepted all of the backlog of `f` for which there was room. */
  ghost predicate DeliversAll(f: Flow, f': Flow) {
    f'.accepted == f.accepted + Backlog(f)[..if |Backlog(f)| <= f.free then |Backlog(f)| else f.free]
  }

  lemma MovedAll(f: Flow, f': Flow)
    requires Moves(f, f') && (f'.free == 0 || Backlog(f') == [])
    ensures DeliversAll(f, f')
  {
    var all := f.accepted + Backlog(f);
    assert f'.accepted == all[..|f'.accepted|];
    assert |all| == |f'.accepted| + |Backlog(f')|;
  }

  // ---- One call ----

  /** Something outside the stack loop happens, if it can: a step of the reader or, between two calls, of the stack. */
  function Reads(f: Flow, choice: Event): Flow {
    if !choice.Loop? && Enabled(f, choice) then Apply(f, choice) else f
  }

  /** Any number of such steps. */
  function ReadsAll(f: Flow, choices: seq<Event>): Flow {
    if choices == [] then f else Reads(ReadsAll(f, choices[..|choices| - 1]), choices[|choices| - 1])
  }

  lemma {:induction false} ReadsRun(start: Flow, before: seq<Event>, f: Flow, choices: seq<Event>) returns (log: seq<Event>)
    requires Run(Next, start, before) == Some(f)
    ensures Run(Next, start, log) == Some(ReadsAll(f, choices))
    ensures LoopSteps(log) == LoopSteps(before) && (choices == [] ==> log == before)
    decreases |choices|
  {
    log := before;
    if choices != [] {
      var n := |choices| - 1;
      log := ReadsRun(start, before, f, choices[..n]);
      var now := ReadsAll(f, choices[..n]);
      if Reads(now, choices[n]) != now {
        log := LoggedLoop(start, log, now, choices[n]);
      }
    }
  }

  /** During a call they leave the loop's place and the socket alone. */
  lemma {:induction false} ReadsKeep(f: Flow, choices: seq<Event>)
    requires Inv(f)
    ensures var g := ReadsAll(f, choices);
            && Inv(g) && g.place == f.place
            && (!f.place.Outside? ==> Rank(g) == Rank(f) && g == f.(read := g.read, reader := g.reader, rx := g.rx))
    decreases |choices|
  {
    if choices != [] {
      var n := |choices| - 1;
      ReadsKeep(f, choices[..n]);
      var now := ReadsAll(f, choices[..n]);
      if Reads(now, choices[n]) != now {
        InvStep(now, choices[n]);
      }
    }
  }

  function Least(a: nat, b: nat, c: nat): nat {
    if a <= b && a <= c then a else if b <= c then b else c
  }

  /** How much a socket that would take `wish` bytes takes. */
  function TakenBy(f: Flow, wish: nat): nat {
    if f.place.Push? && f.open then Least(wish, |Unsent(f)|, f.free) else 0
  }

  /** One step of the loop; the reader has acted before it. */
  function Steps(f: Flow, choices: seq<Event>, wish: nat): Flow
    requires Inv(f)
  {
    ReadsKeep(f, choices);
    var now := ReadsAll(f, choices);
    Apply(now, Loop(TakenBy(now, wish)))
  }

  /** The head of the loop offers nothing to the socket. */
  lemma NoWishAtHead(f: Flow, choices: seq<Event>, wish: nat)
    requires Inv(f) && f.place.Head?
    ensures Steps(f, choices, wish) == Steps(f, choices, 0)
  {
    ReadsKeep(f, choices);
  }

  predicate Inside(f: Flow) {
    f.place.Head? || f.place.Push?
  }

  /** The loop of a call: `others(n)` is what the reader does before its n-th step, `wish(n)` how much send_slice
      would take in it. */
  function Loops(f: Flow, others: nat -> seq<Event>, wish: nat -> nat, n: nat): Flow
    requires Inv(f)
    decreases Rank(f)
  {
    if !Inside(f) then f
    else
      StepsKeep(f, others(n), wish(n));
      Loops(Steps(f, others(n), wish(n)), others, wish, n + 1)
  }

  lemma StepsKeep(f: Flow, choices: seq<Event>, wish: nat)
    requires Inv(f) && Inside(f)
    ensures Inv(Steps(f, choices, wish)) && Rank(Steps(f, choices, wish)) < Rank(f)
    ensures Steps(f, choices, wish).place != Outside
  {
    ReadsKeep(f, choices);
    var now := ReadsAll(f, choices);
    InvStep(now, Loop(TakenBy(now, wish)));
    RankFalls(now, Loop(TakenBy(now, wish)));
  }

  lemma {:induction false} LoopsKeep(f: Flow, others: nat -> seq<Event>, wish: nat -> nat, n: nat)
    requires Inv(f) && !f.place.Outside?
    ensures Inv(Loops(f, others, wish, n)) && Loops(f, others, wish, n).place.Fin?
    decreases Rank(f)
  {
    if Inside(f) {
      StepsKeep(f, others(n), wish(n));
      LoopsKeep(Steps(f, others(n), wish(n)), others, wish, n + 1);
    }
  }

  /** A whole call. */
  function Call(f: Flow, others: nat -> seq<Event>, wish: nat -> nat): Flow
    requires Inv(f) && f.place.Outside?
  {
    InvStep(f, Loop(0));
    LoopsKeep(Apply(f, Loop(0)), others, wish, 0);
    Apply(Loops(Apply(f, Loop(0)), others, wish, 0), Loop(0))
  }

  /** The reader does nothing during the call. */
  ghost predicate Quiet(others: nat -> seq<Event>) {
    forall n :: others(n) == []
  }

  /** The socket takes whatever fits. */
  ghost predicate Greedy(wish: nat -> nat, free: nat) {
    forall n :: wish(n) >= free
  }

  /** `log` leads from `start` by way of `last` to `f`, its last event being a step with which a call comes to
      rest. */
  ghost predicate RestsBy(start: Flow, log: seq<Event>, last: Flow, f: Flow) {
    && log != [] && Run(Next, start, log[..|log| - 1]) == Some(last)
    && Rests(last, log[|log| - 1]) && Next(last, log[|log| - 1]) == Some(f)
  }

  lemma StepsLogged(start: Flow, before: seq<Event>, f: Flow, choices: seq<Event>, wish: nat)
    returns (log: seq<Event>, last: Flow)
    requires Inv(start) && Run(Next, start, before) == Some(f) && Inv(f) && Inside(f)
    ensures Run(Next, start, log) == Some(Steps(f, choices, wish)) && LoopSteps(log) == LoopSteps(before) + 1
    ensures choices == [] && AllLoop(before) ==> AllLoop(log)
    ensures if Inside(Steps(f, choices, wish)) then true else RestsBy(start, log, last, Steps(f, choices, wish))
  {
    ReadsKeep(f, choices);
    var sofar := ReadsRun(start, before, f, choices);
    last := ReadsAll(f, choices);
    var e := Loop(TakenBy(last, wish));
    LeavesAtRest(last, e);
    log := LoggedLoop(start, sofar, last, e);
    assert log[..|log| - 1] == sofar;
  }

  lemma {:induction false} LoopsLogged(start: Flow, before: seq<Event>, f: Flow, others: nat -> seq<Event>, wish: nat -> nat,
                                       n: nat)
    returns (log: seq<Event>, last: Flow)
    requires Inv(start) && Run(Next, start, before) == Some(f) && Inv(f) && Inside(f)
    ensures RestsBy(start, log, last, Loops(f, others, wish, n))
    ensures LoopSteps(log) + 1 <= LoopSteps(before) + Rank(f)
    ensures Quiet(others) && AllLoop(before) ==> AllLoop(log)
    decreases Rank(f)
  {
    log, last := StepsLogged(start, before, f, others(n), wish(n));
    StepsKeep(f, others(n), wish(n));
    var next := Steps(f, others(n), wish(n));
    if Inside(next) {
      log, last := LoopsLogged(start, log, next, others, wish, n + 1);
    }
  }

  /** If the socket takes what fits, the loop ends with it full or with all delivered. */
  lemma {:induction false} LoopsDeliver(f: Flow, others: nat -> seq<Event>, wish: nat -> nat, n: nat, free: nat)
    requires Inv(f) && Inside(f) && f.open && f.free <= free && Greedy(wish, free)
    ensures var end := Loops(f, others, wish, n); end.free == 0 || Backlog(end) == []
    decreases Rank(f)
  {
    ReadsKeep(f, others(n));
    StepsKeep(f, others(n), wish(n));
    var next := Steps(f, others(n), wish(n));
    if Inside(next) {
      LoopsDeliver(next, others, wish, n + 1, free);
    }
  }

  /** How a call has come to rest. */
  lemma RestMeans(last: Flow, e: Event, mid: Flow)
    requires Inv(last) && Rests(last, e) && Next(last, e) == Some(mid)
    ensures mid.pending.None? <==> last.place.Head?
    ensures last.place.Head? ==> Backlog(mid) == [] && (mid.eof <==> last.reader.Ended?)
    ensures last.place.Push? ==> Backlog(mid) != []
    ensures mid.reader == last.reader && mid.place.Fin?
  {
  }

  /** Leaving the loop changes nothing but the FIN. */
  lemma FinMeans(mid: Flow)
    requires Inv(mid) && mid.place.Fin?
    ensures var f' := Apply(mid, Loop(0));
            && f'.accepted == mid.accepted && f'.reader == mid.reader && Inv(f') && f'.place.Outside?
            && (f'.finSent <==> mid.eof && mid.pending.None?)
  {
    InvStep(mid, Loop(0));
  }

  /** A call is a run of the protocol that ends only when nothing more can be done: its last step but one finds
      the channel empty, the socket closed or full, or has just been taken less than it offered. It sends the
      FIN exactly if it has found the channel empty and the reader gone. */
  lemma CallRests(f: Flow, others: nat -> seq<Event>, wish: nat -> nat) returns (log: seq<Event>, last: Flow)
    requires Inv(f) && f.place.Outside?
    ensures Run(Next, f, log) == Some(Call(f, others, wish)) && LoopSteps(log) <= 2 * f.free + 4
    ensures |log| >= 2 && Run(Next, f, log[..|log| - 2]) == Some(last) && Rests(last, log[|log| - 2])
    ensures Inv(Call(f, others, wish)) && Call(f, others, wish).place.Outside?
    ensures Call(f, others, wish).finSent <==> last.place.Head? && last.reader.Ended?
  {
    InvStep(f, Loop(0));
    var head := Apply(f, Loop(0));
    var first := LoggedLoop(f, [], f, Loop(0));
    var body;
    body, last := LoopsLogged(f, first, head, others, wish, 0);
    LoopsKeep(head, others, wish, 0);
    var mid := Loops(head, others, wish, 0);
    InvAlways(f, body[..|body| - 1], last);
    RestMeans(last, body[|body| - 1], mid);
    FinMeans(mid);
    log := LoggedLoop(f, body, mid, Loop(0));
    assert log[..|log| - 2] == body[..|body| - 1] && log[|log| - 2] == body[|body| - 1];
  }

  /** With a quiet reader and an open socket that takes what fits, a call delivers all of the backlog for which
      there is room, and sends the FIN if that was all there will be. */
  lemma CallDelivers(f: Flow, others: nat -> seq<Event>, wish: nat -> nat)
    requires Inv(f) && f.place.Outside? && f.open && Quiet(others) && Greedy(wish, f.free)
    ensures var f' := Call(f, others, wish);
            DeliversAll(f, f') && (f'.finSent <==> f.reader.Ended? && |Backlog(f)| <= f.free)
  {
    InvStep(f, Loop(0));
    var head := Apply(f, Loop(0));
    var first := LoggedLoop(f, [], f, Loop(0));
    var body, last := LoopsLogged(f, first, head, others, wish, 0);
    LoopsKeep(head, others, wish, 0);
    LoopsDeliver(head, others, wish, 0, f.free);
    var mid := Loops(head, others, wish, 0);
    InvAlways(f, body[..|body| - 1], last);
    RestMeans(last, body[|body| - 1], mid);
    FinMeans(mid);
    assert Run(Next, f, body) == Some(mid);
    QuietMoves(f, body, mid);
    MovedAll(f, mid);
    assert |Backlog(mid)| == |f.accepted + Backlog(f)| - |mid.accepted|;
  }

  // ---- The stream can always be brought to its end ----

  /** What the reader has read in these events. */
  function ChunksOf(events: seq<Event>): seq<byte> {
    if events == [] then []
    else
      var last := events[|events| - 1];
      ChunksOf(events[..|events| - 1]) + if last.ReadChunk? then last.chunk else []
  }

  /** The history is that of the reads: what the conservation law counts is what the tunnel gave. */
  lemma {:induction false} ReadIsChunks(f: Flow, events: seq<Event>, f': Flow)
    requires Run(Next, f, events) == Some(f')
    ensures f'.read == f.read + ChunksOf(events)
    decreases |events|
  {
    if events != [] {
      var n := |events| - 1;
      var mid := Run(Next, f, events[..n]).value;
      ReadIsChunks(f, events[..n], mid);
      ReadsOnce(mid, events[n]);
    }
  }

  lemma ReadsOnce(f: Flow, e: Event)
    requires Enabled(f, e)
    ensures Apply(f, e).read == f.read + if e.ReadChunk? then e.chunk else []
  {
  }

  /** Room in the socket and a call: the backlog is delivered. */
  lemma Flushes(f: Flow) returns (events: seq<Event>, g: Flow)
    requires Inv(f) && f.place.Outside? && !f.finSent
    ensures Run(Next, f, events) == Some(g) && Inv(g) && g.place.Outside?
    ensures g.accepted == f.accepted + Backlog(f) && Backlog(g) == [] && g.reader == f.reader && g.read == f.read
    ensures g.finSent <==> f.reader.Ended?
  {
    var room := Poll(|Backlog(f)| + 1, true);
    var polled := Apply(f, room);
    InvStep(f, room);
    var first := Logged(Next, f, [], f, room);
    var others, wish := (n: nat) => [], (n: nat) => polled.free;
    var call, last := CallRests(polled, others, wish);
    CallDelivers(polled, others, wish);
    g := Call(polled, others, wish);
    events := first + call;
    Joined(Next, f, first, polled, call);
    CallIsQuiet(polled, others, wish);
    assert Backlog(polled)[..|Backlog(polled)|] == Backlog(polled);
    assert Backlog(g) == [] by {
      assert g.accepted + Backlog(g) == polled.accepted + Backlog(polled);
    }
  }

  /** A call with a quiet reader only moves bytes to the socket. */
  lemma CallIsQuiet(f: Flow, others: nat -> seq<Event>, wish: nat -> nat)
    requires Inv(f) && f.place.Outside? && Quiet(others)
    ensures Moves(f, Call(f, others, wish))
  {
    InvStep(f, Loop(0));
    var head := Apply(f, Loop(0));
    var first := LoggedLoop(f, [], f, Loop(0));
    var body, last := LoopsLogged(f, first, head, others, wish, 0);
    LoopsKeep(head, others, wish, 0);
    var mid := Loops(head, others, wish, 0);
    var log := LoggedLoop(f, body, mid, Loop(0));
    QuietMoves(f, log, Call(f, others, wish));
  }

  /** From every state between two calls the flow can be brought to an end with every byte delivered that was
      ever read, and the FIN behind them: the reader enqueues what it holds and ends, and the socket makes room
      for two calls. */
  lemma CanFinish(f: Flow) returns (events: seq<Event>, g: Flow)
    requires Inv(f) && f.place.Outside?
    ensures Run(Next, f, events) == Some(g) && g.accepted == g.read == f.read && g.finSent
  {
    if f.finSent {
      events, g := [], f;
    } else if f.reader.Ended? {
      events, g := Flushes(f);
    } else {
      var flush, mid := Flushes(f);
      var last, ended := Ends(mid);
      var flush', end := Flushes(ended);
      Joined(Next, f, flush, mid, last);
      Joined(Next, f, flush + last, ended, flush');
      events, g := flush + last + flush', end;
    }
    AllRead(f, events, g);
  }

  /** Behind the FIN nothing is left. */
  lemma AllRead(f: Flow, events: seq<Event>, g: Flow)
    requires Inv(f) && Run(Next, f, events) == Some(g) && g.finSent
    ensures g.accepted == g.read
  {
    InvAlways(f, events, g);
  }

  /** The reader enqueues what it holds and ends. */
  lemma Ends(f: Flow) returns (events: seq<Event>, g: Flow)
    requires Inv(f) && f.place.Outside? && !f.finSent && !f.reader.Ended? && Backlog(f) == []
    ensures Run(Next, f, events) == Some(g) && Inv(g) && g.place.Outside? && !g.finSent
    ensures g.reader.Ended? && g.read == f.read
  {
    events, g := [], f;
    if f.reader.Sending? {
      NoChunkWaits(f);
      events := Logged(Next, f, events, g, SendChunk);
      InvStep(g, SendChunk);
      g := Apply(g, SendChunk);
    }
    events := Logged(Next, f, events, g, ReadEnd);
    InvStep(g, ReadEnd);
    g := Apply(g, ReadEnd);
  }

  lemma NoChunkWaits(f: Flow)
    requires Inv(f) && Backlog(f) == []
    ensures f.rx == []
  {
  }

  // ---- The code ----

  /** A flow together with the socket it feeds. */
  class TcpFlow {
    ghost var read: seq<byte>
    var reader: Reader
    var remoteRx: seq<seq<byte>>
    var downloadPending: Option<Chunk>
    var remoteEof: bool
    var finSent: bool
    var accepted: seq<byte>
    var downloadBytes: nat
    var free: nat
    var open: bool
    ghost var closes: nat
    ghost var place: Place

    ghost function Snapshot(): Flow
      reads this
    {
      Flow(read, reader, remoteRx, downloadPending, remoteEof, finSent, place, accepted, downloadBytes, free, open, closes)
    }

    constructor (free: nat, open: bool)
      ensures Snapshot() == Connected(free, open) && Inv(Snapshot())
    {
      read, reader, remoteRx, downloadPending := [], Reading, [], None;
      remoteEof, finSent, accepted, downloadBytes := false, false, [], 0;
      this.free, this.open, closes, place := free, open, 0, Outside;
    }

    /** The reader thread does something, or nothing. */
    method ReaderActs(choice: Event)
      requires !place.Outside?
      modifies this`read, this`reader, this`remoteRx
      ensures Snapshot() == Reads(old(Snapshot()), choice)
    {
      match choice
      case ReadChunk(chunk) =>
        if reader.Reading? && chunk != [] {
          read, reader := read + chunk, Sending(chunk);
        }
      case ReadEnd =>
        if reader.Reading? {
          reader := Ended;
        }
      case SendChunk =>
        if reader.Sending? && |remoteRx| < FLOW_CHANNEL_CAPACITY {
          remoteRx, reader := remoteRx + [reader.chunk], Reading;
        }
      case _ =>
    }

    /** Any number of reader steps, between two steps of the stack loop. */
    method ReaderRuns(choices: seq<Event>)
      requires !place.Outside?
      modifies this`read, this`reader, this`remoteRx
      ensures Snapshot() == ReadsAll(old(Snapshot()), choices)
    {
      for i := 0 to |choices|
        invariant Snapshot() == ReadsAll(old(Snapshot()), choices[..i]) && place == old(place)
      {
        assert choices[..i + 1][..i] == choices[..i];
        ReaderActs(choices[i]);
      }
      assert choices[..|choices|] == choices;
    }

    /** socket.send_slice: takes some prefix of what is offered. */
    method SendSlice(data: seq<byte>, wish: nat) returns (written: nat)
      modifies this`accepted, this`free
      ensures written == Least(wish, |data|, old(free))
      ensures accepted == old(accepted) + data[..written] && free == old(free) - written
    {
      written := if wish <= |data| then wish else |data|;
      written := if written <= free then written else free;
      accepted, free := accepted + data[..written], free - written;
    }

    /** The head of the loop: takes the next chunk unless one is pending. False leaves the loop. */
    method NextChunk() returns (more: bool)
      requires place.Head?
      modifies this`downloadPending, this`remoteRx, this`remoteEof, this`place
      ensures Snapshot() == Apply(old(Snapshot()), Loop(0)) && more == place.Push?
    {
      more := true;
      if downloadPending.None? {
        if remoteRx != [] {
          downloadPending, remoteRx := Some(Chunk(remoteRx[0], 0)), remoteRx[1..];
        } else {
          // An empty channel ends the stream only when the reader has dropped its sender.
          remoteEof := remoteEof || reader.Ended?;
          more := false;
        }
      }
      place := if more then Push else Fin;
    }

    /** The rest of an iteration: offers the pending tail to the socket. False leaves the loop. */
    method PushChunk(wish: nat) returns (more: bool)
      requires place.Push? && Inv(Snapshot())
      modifies this`accepted, this`free, this`downloadBytes, this`downloadPending, this`place
      ensures Snapshot() == Apply(old(Snapshot()), Loop(TakenBy(old(Snapshot()), wish))) && more == place.Head?
    {
      if !open || free == 0 {
        place := Fin;
        return false;
      }
      var Chunk(data, offset) := downloadPending.value;
      var written := SendSlice(data[offset..], wish);
      assert data[offset..][..written] == data[offset..offset + written];
      downloadBytes := downloadBytes + written;
      more := offset + written == |data|;
      downloadPending := if more then None else Some(Chunk(data, offset + written));
      place := if more then Head else Fin;
    }

    /** The FIN, once the stream has ended and nothing is pending. */
    method SendFin()
      requires place.Fin?
      modifies this`open, this`closes, this`finSent, this`place
      ensures Snapshot() == Apply(old(Snapshot()), Loop(0))
    {
      if remoteEof && downloadPending.None? && !finSent {
        open, closes, finSent := false, closes + 1, true;
      }
      place := Outside;
    }

    /** The reader acts, then the head of the loop. */
    method HeadStep(choices: seq<Event>) returns (more: bool)
      requires Inv(Snapshot()) && place.Head?
      modifies this`read, this`reader, this`remoteRx, this`downloadPending, this`remoteEof, this`place
      ensures Snapshot() == Steps(old(Snapshot()), choices, 0) && if more then place.Push? else place.Fin?
    {
      ReadsKeep(Snapshot(), choices);
      ReaderRuns(choices);
      more := NextChunk();
    }

    /** The reader acts, then the rest of the iteration. */
    method PushStep(choices: seq<Event>, wish: nat) returns (more: bool)
      requires Inv(Snapshot()) && place.Push?
      modifies this
      ensures Snapshot() == Steps(old(Snapshot()), choices, wish) && if more then place.Head? else place.Fin?
    {
      ReadsKeep(Snapshot(), choices);
      ReaderRuns(choices);
      more := PushChunk(wish);
    }

    /** One iteration of the loop. */
    method MoveChunk(others: nat -> seq<Event>, wish: nat -> nat, n: nat) returns (more: bool)
      requires Inv(Snapshot()) && place.Head?
      modifies this
      ensures Inv(Snapshot()) && Rank(Snapshot()) < old(Rank(Snapshot())) && if more then place.Head? else place.Fin?
      ensures old(Loops(Snapshot(), others, wish, n)) == Loops(Snapshot(), others, wish, n + 2)
    {
      StepsKeep(Snapshot(), others(n), wish(n));
      NoWishAtHead(Snapshot(), others(n), wish(n));
      more := HeadStep(others(n));
      if more {
        StepsKeep(Snapshot(), others(n + 1), wish(n + 1));
        more := PushStep(others(n + 1), wish(n + 1));
      }
    }

    /** Moves tunnel data into the socket while the reader keeps running. */
    method DeliverDownload(others: nat -> seq<Event>, wish: nat -> nat)
      requires Inv(Snapshot()) && place.Outside?
      modifies this
      ensures Snapshot() == Call(old(Snapshot()), others, wish)
    {
      InvStep(Snapshot(), Loop(0));
      place := Head;
      ghost var head := Snapshot();
      LoopsKeep(head, others, wish, 0);
      var n: nat := 0;
      var more := true;
      while more
        invariant Inv(Snapshot()) && if more then place.Head? else place.Fin?
        invariant Loops(Snapshot(), others, wish, n) == Loops(head, others, wish, 0)
        decreases Rank(Snapshot())
      {
        more := MoveChunk(others, wish, n);
        n := n + 2;
      }
      SendFin();
    }
  }

  /** A run goes on, and one more step of the loop may be on the account. */
  lemma LoggedLoop(start: Flow, events: seq<Event>, mid: Flow, e: Event) returns (log: seq<Event>)
    requires Run(Next, start, events) == Some(mid) && Enabled(mid, e)
    ensures log == events + [e] && Run(Next, start, log) == Some(Apply(mid, e))
    ensures LoopSteps(log) == LoopSteps(events) + (if e.Loop? then 1 else 0)
  {
    log := Logged(Next, start, events, mid, e);
    assert log[..|events|] == events;
  }
}

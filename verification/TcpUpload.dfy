/** The application-to-tunnel half of one TCP flow: the stack loop drains the application's socket
    into a queue while the number of queued chunks stays small, a writer thread empties the queue. */
module TcpUpload {
  import opened Options
  import opened Runs
  import opened Bytes

  const FLOW_CHANNEL_CAPACITY := 8
  const RECV_BUFFER := 64 * 1024

  datatype Writer =
    | Idle                       // waiting for a chunk
    | Writing(chunk: seq<byte>)  // inside the tunnel's write
    | Repaying                   // written; the chunk is still counted as pending
    | Gone                       // the receiver is dropped

  /** Where the stack loop stands while it drains the socket. */
  datatype Place =
    | Outside
    | Gate                     // about to compare the pending count with the capacity
    | Recv                     // about to call recv_slice
    | Count(chunk: seq<byte>)  // about to raise the pending count
    | Send(chunk: seq<byte>)   // about to send into the queue
    | Refund                   // the send failed

  /** `drained` and `written` are history: what left the socket and what the tunnel took. The pending
      count is an atomic that wraps below zero, so it is an integer here, not a natural number. */
  datatype Flow = Flow(
    inbox: seq<byte>,
    drained: seq<byte>,
    queue: seq<seq<byte>>,
    writer: Writer,
    written: seq<byte>,
    pending: int,
    hasTx: bool,
    closed: bool,
    inTable: bool,
    counted: int,
    place: Place)

  datatype Event =
    | Arrive(data: seq<byte>)   // the stack receives from the application
    | Loop(n: nat)              // one step of the drain loop; `n` is what recv_slice yields
    | Close                     // the flow is marked closed for another reason
    | Retire                    // a closed flow leaves the table
    | WriterTake
    | WriterWrite(ok: bool)
    | WriterRepay
    | WriterStop

  const CONNECTED := Flow([], [], [], Idle, [], 0, true, false, true, 0, Outside)

  predicate Enabled(f: Flow, e: Event) {
    match e
    case Arrive(_) => f.inTable && f.place.Outside?
    case Loop(n) => f.inTable && (f.place.Recv? && f.inbox != [] ==> 0 < n <= |f.inbox| && n <= RECV_BUFFER)
    case Close => f.place.Outside?
    case Retire => f.inTable && f.closed && f.place.Outside?
    case WriterTake => f.writer.Idle? && f.queue != []
    case WriterWrite(_) => f.writer.Writing?
    case WriterRepay => f.writer.Repaying?
    case WriterStop => f.writer.Idle? && (f.closed || (f.queue == [] && !f.hasTx))
  }

  function Apply(f: Flow, e: Event): Flow
    requires Enabled(f, e)
  {
    match e
    case Arrive(data) => f.(inbox := f.inbox + data)
    case Close => f.(closed := true)
    case Retire => f.(hasTx := false, inTable := false)
    case WriterTake => f.(writer := Writing(f.queue[0]), queue := f.queue[1..])
    case WriterWrite(ok) =>
      if ok then f.(writer := Repaying, written := f.written + f.writer.chunk)
      else f.(writer := Gone, closed := true, queue := [])
    case WriterRepay => f.(writer := Idle, pending := f.pending - 1)
    case WriterStop => f.(writer := Gone, queue := [])
    case Loop(n) =>
      match f.place
      case Outside => f.(place := Gate)
      case Gate => f.(place := if f.pending < FLOW_CHANNEL_CAPACITY && f.hasTx then Recv else Outside)
      case Recv =>
        if f.inbox == [] then f.(place := Outside)
        else f.(inbox := f.inbox[n..], drained := f.drained + f.inbox[..n], place := Count(f.inbox[..n]))
      case Count(chunk) => f.(pending := f.pending + 1, place := Send(chunk))
      case Send(chunk) =>
        if f.writer.Gone? then f.(place := Refund)
        else f.(queue := f.queue + [chunk], counted := f.counted + |chunk|, place := Gate)
      case Refund => f.(pending := f.pending - 1, hasTx := false, closed := true, place := Outside)
  }

  /** One event, if it can happen. */
  function Next(f: Flow, e: Event): Option<Flow> {
    if Enabled(f, e) then Some(Apply(f, e)) else None
  }

  // ---- What every step keeps ----

  /** The chunk the loop has drained but not yet queued. */
  function InHand(f: Flow): seq<byte> {
    if f.place.Count? || f.place.Send? then f.place.chunk else []
  }

  function BeingWritten(f: Flow): seq<byte> {
    if f.writer.Writing? then f.writer.chunk else []
  }

  /** Chunks counted as pending: the writer's, the queue's, and the one about to be queued. */
  function InFlight(f: Flow): nat {
    |f.queue| + (if f.writer.Writing? || f.writer.Repaying? then 1 else 0) + (if f.place.Send? then 1 else 0)
  }

  ghost predicate Flowing(f: Flow) {
    && f.written + BeingWritten(f) + Concat(f.queue) + InHand(f) == f.drained
    && f.pending == InFlight(f)
    && f.counted == |f.drained| - |InHand(f)|
    && !f.place.Refund?
  }

  ghost predicate Stopped(f: Flow) {
    && f.queue == []
    && f.written <= f.drained
    && (f.place.Send? || f.place.Refund? ==> f.pending >= 1)
  }

  ghost predicate Inv(f: Flow) {
    && 0 <= f.pending <= FLOW_CHANNEL_CAPACITY
    && (f.place.Recv? || f.place.Count? ==> f.pending < FLOW_CHANNEL_CAPACITY)
    && (f.place.Recv? || f.place.Count? || f.place.Send? ==> f.hasTx)
    && (f.hasTx ==> f.inTable)
    && (!f.inTable ==> f.place.Outside?)
    && (f.inTable && !f.hasTx ==> f.writer.Gone?)
    && (f.writer.Gone? || !f.hasTx ==> f.closed || f.place.Refund?)
    && (if f.writer.Gone? then Stopped(f) else Flowing(f))
  }

  lemma InvTake(f: Flow)
    requires Inv(f) && Enabled(f, WriterTake)
    ensures Inv(Apply(f, WriterTake))
  {
    var f' := Apply(f, WriterTake);
    assert Concat(f.queue) == BeingWritten(f') + Concat(f'.queue);
    assert BeingWritten(f) == [];
    assert f'.written + BeingWritten(f') + Concat(f'.queue) == f.written + BeingWritten(f) + Concat(f.queue);
  }

  /** Once the writer stops, what it wrote stays a prefix of what was drained. */
  lemma InvWrite(f: Flow, e: Event)
    requires Inv(f) && Enabled(f, e) && (e == WriterWrite(false) || e.WriterStop?)
    ensures Inv(Apply(f, e))
  {
    assert f.drained == f.written + (BeingWritten(f) + Concat(f.queue) + InHand(f));
  }

  lemma InvWritten(f: Flow)
    requires Inv(f) && Enabled(f, WriterWrite(true))
    ensures Inv(Apply(f, WriterWrite(true)))
  {
    var f' := Apply(f, WriterWrite(true));
    assert f'.written + BeingWritten(f') == f.written + BeingWritten(f);
  }

  lemma InvSend(f: Flow)
    requires Inv(f) && f.place.Send? && !f.writer.Gone?
    ensures Inv(Apply(f, Loop(0)))
  {
    var f' := Apply(f, Loop(0));
    ConcatSnoc(f.queue, f.place.chunk);
    var prefix := f.written + BeingWritten(f);
    assert prefix + (Concat(f.queue) + f.place.chunk) == prefix + Concat(f.queue) + f.place.chunk;
    assert InHand(f') == [];
  }

  lemma InvRecv(f: Flow, n: nat)
    requires Inv(f) && f.place.Recv? && Enabled(f, Loop(n))
    ensures Inv(Apply(f, Loop(n)))
  {
    if f.inbox != [] {
      assert InHand(f) == [];
      assert f.written + BeingWritten(f) + Concat(f.queue) == f.drained || f.writer.Gone?;
    }
  }

  lemma InvLoop(f: Flow, n: nat)
    requires Inv(f) && Enabled(f, Loop(n))
    ensures Inv(Apply(f, Loop(n)))
  {
    if f.place.Send? && !f.writer.Gone? {
      InvSend(f);
    } else if f.place.Recv? {
      InvRecv(f, n);
    }
  }

  lemma InvStep(f: Flow, e: Event)
    requires Inv(f) && Enabled(f, e)
    ensures Inv(Apply(f, e))
  {
    match e
    case Loop(n) => InvLoop(f, n);
    case WriterTake => InvTake(f);
    case WriterWrite(ok) => if ok { InvWritten(f); } else { InvWrite(f, e); }
    case WriterStop => InvWrite(f, e);
    case _ =>
  }

  lemma InvAlways(f: Flow, events: seq<Event>, f': Flow)
    requires Inv(f) && Run(Next, f, events) == Some(f')
    ensures Inv(f')
  {
    forall x, e | Inv(x) && Next(x, e).Some?
      ensures Inv(Next(x, e).value)
    {
      InvStep(x, e);
    }
    Always(Next, (x: Flow) => Inv(x), f, events, f');
  }

  // ---- What it means ----

  /** Until the writer stops no byte is lost or reordered, and the pending count is exactly the number
      of queued and in-flight chunks. */
  lemma UploadConserved(events: seq<Event>, f: Flow)
    requires Run(Next, CONNECTED, events) == Some(f) && !f.writer.Gone?
    ensures f.written + BeingWritten(f) + Concat(f.queue) + InHand(f) == f.drained
    ensures f.pending == InFlight(f)
    ensures f.counted == |f.drained| - |InHand(f)|
  {
    InvAlways(CONNECTED, events, f);
  }

  /** In every state, also after the writer or the flow is gone: the pending count neither exceeds the
      capacity nor wraps below zero, and the tunnel has a prefix of what left the socket. */
  lemma UploadBounded(events: seq<Event>, f: Flow)
    requires Run(Next, CONNECTED, events) == Some(f)
    ensures 0 <= f.pending <= FLOW_CHANNEL_CAPACITY && |f.queue| <= FLOW_CHANNEL_CAPACITY
    ensures f.written <= f.drained
  {
    InvAlways(CONNECTED, events, f);
    WrittenIsPrefix(f);
  }

  lemma WrittenIsPrefix(f: Flow)
    requires Inv(f)
    ensures f.written <= f.drained
  {
    if !f.writer.Gone? {
      assert f.drained == f.written + (BeingWritten(f) + Concat(f.queue) + InHand(f));
    }
  }

  // ---- When a call ends, and what it drains ----

  /** Nothing more can be drained in this call: there is no room in the queue, nobody to send to, or nothing
      waiting, or the writer turned out to be gone. */
  ghost predicate Rests(f: Flow, e: Event) {
    && e.Loop?
    && (|| (f.place.Gate? && (f.pending >= FLOW_CHANNEL_CAPACITY || !f.hasTx))
        || (f.place.Recv? && f.inbox == [])
        || (f.place.Refund? && f.writer.Gone?))
  }

  /** A call ends exactly when nothing more can be drained. */
  lemma LeavesAtRest(f: Flow, e: Event)
    requires Inv(f) && Enabled(f, e) && e.Loop? && !f.place.Outside?
    ensures Apply(f, e).place.Outside? <==> Rests(f, e)
  {
  }

  /** Since `f` the loop has taken `d` bytes in chunks of full size, unless the socket has run dry, and the
      writer has done nothing. */
  ghost predicate Took(f: Flow, g: Flow, d: nat) {
    && g.writer == f.writer && g.written == f.written && g.hasTx == f.hasTx
    && d <= |f.inbox| && g.inbox == f.inbox[d..] && g.drained == f.drained + f.inbox[..d]
    && f.pending <= g.pending && d <= (g.pending - f.pending) * RECV_BUFFER
    && (d == (g.pending - f.pending) * RECV_BUFFER || g.inbox == [])
  }

  lemma TookMore(f: Flow, g: Flow, d: nat, g': Flow, data: seq<byte>)
    requires Took(f, g, d) && g.inbox == data + g'.inbox && g'.drained == g.drained + data
    requires g'.writer == g.writer && g'.written == g.written && g'.hasTx == g.hasTx && g'.pending == g.pending + 1
    requires data != [] && |data| <= RECV_BUFFER && (|data| == RECV_BUFFER || g'.inbox == [])
    ensures Took(f, g', d + |data|)
  {
    Pieces(f.inbox, d, data, g'.inbox);
    Regroup(f.drained, f.inbox[..d], data);
  }

  lemma Pieces(s: seq<byte>, d: nat, data: seq<byte>, rest: seq<byte>)
    requires d <= |s| && s[d..] == data + rest
    ensures d + |data| <= |s| && s[..d + |data|] == s[..d] + data && s[d + |data|..] == rest
  {
    assert s == s[..d] + (data + rest);
  }

  lemma Regroup(a: seq<byte>, b: seq<byte>, c: seq<byte>)
    ensures (a + b) + c == a + (b + c)
  {
  }

  /** The queue has got the whole inbox of `f`, or as many full chunks of it as there was room for. */
  ghost predicate DrainsAll(f: Flow, g: Flow) {
    var room := (FLOW_CHANNEL_CAPACITY - f.pending) * RECV_BUFFER;
    var d := if |f.inbox| <= room then |f.inbox| else room;
    0 <= d && Concat(g.queue) == Concat(f.queue) + f.inbox[..d] && g.inbox == f.inbox[d..]
  }

  lemma TookAll(f: Flow, g: Flow, d: nat)
    requires Inv(f) && Inv(g) && Took(f, g, d) && !f.writer.Gone? && f.place.Outside? && g.place.Outside?
    requires g.pending == FLOW_CHANNEL_CAPACITY || g.inbox == []
    ensures DrainsAll(f, g)
  {
    AllDrained(f);
    AllDrained(g);
    TookSize(f, g, d);
    SameEnd(f.written + BeingWritten(f), Concat(f.queue), f.inbox[..d], Concat(g.queue));
  }

  lemma TookSize(f: Flow, g: Flow, d: nat)
    requires Took(f, g, d) && f.pending <= g.pending <= FLOW_CHANNEL_CAPACITY
    requires g.pending == FLOW_CHANNEL_CAPACITY || g.inbox == []
    ensures var room := (FLOW_CHANNEL_CAPACITY - f.pending) * RECV_BUFFER;
            room >= 0 && d == if |f.inbox| <= room then |f.inbox| else room
  {
    assert |g.inbox| == |f.inbox| - d;
  }

  lemma AllDrained(f: Flow)
    requires Inv(f) && !f.writer.Gone? && f.place.Outside?
    ensures f.written + BeingWritten(f) + Concat(f.queue) == f.drained
  {
    assert InHand(f) == [];
  }

  lemma SameEnd(base: seq<byte>, a: seq<byte>, b: seq<byte>, c: seq<byte>)
    requires base + c == base + a + b
    ensures c == a + b
  {
    assert c == (base + c)[|base|..] && a + b == (base + a + b)[|base|..];
  }

  // ---- One call ----

  /** Something outside the stack loop happens, if it can: a step of the writer or, between two calls, an arrival or
      the closing of the flow. */
  function Acts(f: Flow, choice: Event): Flow {
    if !choice.Loop? && !choice.Retire? && Enabled(f, choice) then Apply(f, choice) else f
  }

  /** Any number of such steps. */
  function ActsAll(f: Flow, choices: seq<Event>): Flow {
    if choices == [] then f else Acts(ActsAll(f, choices[..|choices| - 1]), choices[|choices| - 1])
  }

  lemma {:induction false} ActsRun(start: Flow, before: seq<Event>, f: Flow, choices: seq<Event>) returns (log: seq<Event>)
    requires Run(Next, start, before) == Some(f)
    ensures Run(Next, start, log) == Some(ActsAll(f, choices))
    decreases |choices|
  {
    log := before;
    if choices != [] {
      var n := |choices| - 1;
      log := ActsRun(start, before, f, choices[..n]);
      var now := ActsAll(f, choices[..n]);
      if Acts(now, choices[n]) != now {
        log := Logged(Next, start, log, now, choices[n]);
      }
    }
  }

  /** During a call they leave the loop's place and the socket alone. */
  lemma {:induction false} ActsKeep(f: Flow, choices: seq<Event>)
    requires Inv(f) && f.inTable
    ensures var g := ActsAll(f, choices);
            && Inv(g) && g.inTable && g.place == f.place
            && (!f.place.Outside? ==> g.inbox == f.inbox && g.drained == f.drained)
    decreases |choices|
  {
    if choices != [] {
      var n := |choices| - 1;
      ActsKeep(f, choices[..n]);
      var now := ActsAll(f, choices[..n]);
      if Acts(now, choices[n]) != now {
        InvStep(now, choices[n]);
      }
    }
  }

  /** How much a socket that would hand over `wish` bytes hands over: at least one if it has any. */
  function TakenBy(f: Flow, wish: nat): nat {
    if !f.place.Recv? then 0
    else
      var n := if wish == 0 then 1 else if wish <= RECV_BUFFER then wish else RECV_BUFFER;
      if n <= |f.inbox| then n else |f.inbox|
  }

  /** One step of the loop; the writer has acted before it. */
  function Steps(f: Flow, choices: seq<Event>, wish: nat): Flow
    requires Inv(f) && f.inTable
  {
    ActsKeep(f, choices);
    var now := ActsAll(f, choices);
    Apply(now, Loop(TakenBy(now, wish)))
  }

  /** Steps a call can still take, at most. */
  function Rank(f: Flow): nat {
    5 * |f.inbox| + match f.place
                    case Outside => 0
                    case Gate => 2
                    case Recv => 1
                    case Count(_) => 4
                    case Send(_) => 3
                    case Refund => 1
  }

  lemma StepsKeep(f: Flow, choices: seq<Event>, wish: nat)
    requires Inv(f) && f.inTable && !f.place.Outside?
    ensures var g := Steps(f, choices, wish); Inv(g) && g.inTable && Rank(g) < Rank(f)
  {
    ActsKeep(f, choices);
    var now := ActsAll(f, choices);
    InvStep(now, Loop(TakenBy(now, wish)));
  }

  /** The loop of a call: `others(n)` is what the writer does before its n-th step, `wish(n)` how much recv_slice
      would yield in it. */
  function Loops(f: Flow, others: nat -> seq<Event>, wish: nat -> nat, n: nat): Flow
    requires Inv(f) && f.inTable
    decreases Rank(f)
  {
    if f.place.Outside? then f
    else
      StepsKeep(f, others(n), wish(n));
      Loops(Steps(f, others(n), wish(n)), others, wish, n + 1)
  }

  /** A whole call. */
  function Call(f: Flow, others: nat -> seq<Event>, wish: nat -> nat): Flow
    requires Inv(f) && f.inTable && f.place.Outside?
  {
    InvStep(f, Loop(0));
    Loops(Apply(f, Loop(0)), others, wish, 0)
  }

  /** `log` leads from `start` by way of `last` to `f`, its last event ending a call. */
  ghost predicate RestsBy(start: Flow, log: seq<Event>, last: Flow, f: Flow) {
    && log != [] && Run(Next, start, log[..|log| - 1]) == Some(last)
    && Rests(last, log[|log| - 1]) && Next(last, log[|log| - 1]) == Some(f)
  }

  lemma StepsLogged(start: Flow, before: seq<Event>, f: Flow, choices: seq<Event>, wish: nat)
    returns (log: seq<Event>, last: Flow)
    requires Run(Next, start, before) == Some(f) && Inv(f) && f.inTable && !f.place.Outside?
    ensures Run(Next, start, log) == Some(Steps(f, choices, wish))
    ensures Steps(f, choices, wish).place.Outside? ==> RestsBy(start, log, last, Steps(f, choices, wish))
  {
    ActsKeep(f, choices);
    var sofar := ActsRun(start, before, f, choices);
    last := ActsAll(f, choices);
    var e := Loop(TakenBy(last, wish));
    LeavesAtRest(last, e);
    log := Logged(Next, start, sofar, last, e);
    assert log[..|log| - 1] == sofar;
  }

  lemma {:induction false} LoopsLogged(start: Flow, before: seq<Event>, f: Flow, others: nat -> seq<Event>, wish: nat -> nat,
                                       n: nat)
    returns (log: seq<Event>, last: Flow)
    requires Run(Next, start, before) == Some(f) && Inv(f) && f.inTable && !f.place.Outside?
    ensures RestsBy(start, log, last, Loops(f, others, wish, n)) && Loops(f, others, wish, n).place.Outside?
    decreases Rank(f)
  {
    log, last := StepsLogged(start, before, f, others(n), wish(n));
    StepsKeep(f, others(n), wish(n));
    var next := Steps(f, others(n), wish(n));
    if !next.place.Outside? {
      log, last := LoopsLogged(start, log, next, others, wish, n + 1);
    }
  }

  /** A call is a run of the protocol, whatever the writer does meanwhile, and ends only when nothing more can be
      drained. A flow whose writer turns out to be gone ends up closed, without a sender. */
  lemma CallRests(f: Flow, others: nat -> seq<Event>, wish: nat -> nat) returns (log: seq<Event>, last: Flow)
    requires Inv(f) && f.inTable && f.place.Outside?
    ensures RestsBy(f, log, last, Call(f, others, wish)) && Run(Next, f, log) == Some(Call(f, others, wish))
    ensures var g := Call(f, others, wish);
            && Inv(g) && g.inTable && g.place.Outside? && 0 <= g.pending <= FLOW_CHANNEL_CAPACITY && g.written <= g.drained
            && (last.place.Refund? ==> g.closed && !g.hasTx)
  {
    InvStep(f, Loop(0));
    var first := Logged(Next, f, [], f, Loop(0));
    log, last := LoopsLogged(f, first, Apply(f, Loop(0)), others, wish, 0);
    InvAlways(f, log[..|log| - 1], last);
    InvStep(last, log[|log| - 1]);
    WrittenIsPrefix(Call(f, others, wish));
  }

  // ---- A call with a quiet writer ----

  /** The writer does nothing during the call. */
  ghost predicate Quiet(others: nat -> seq<Event>) {
    forall n :: others(n) == []
  }

  /** The socket hands over whatever fits into the buffer. */
  ghost predicate FullReads(wish: nat -> nat) {
    forall n :: wish(n) >= RECV_BUFFER
  }

  /** From the loop condition once round: a chunk is queued, of full size unless the socket has run dry. */
  lemma Round(f: Flow, others: nat -> seq<Event>, wish: nat -> nat, n: nat) returns (g: Flow, data: seq<byte>)
    requires Inv(f) && f.inTable && f.place.Gate? && f.hasTx && !f.writer.Gone? && Quiet(others) && FullReads(wish)
    requires f.pending < FLOW_CHANNEL_CAPACITY && f.inbox != []
    ensures Inv(g) && g.inTable && g.place.Gate? && Rank(g) < Rank(f)
    ensures Loops(f, others, wish, n) == Loops(g, others, wish, n + 4)
    ensures f.inbox == data + g.inbox && g.drained == f.drained + data && g.pending == f.pending + 1
    ensures g.writer == f.writer && g.written == f.written && g.hasTx == f.hasTx
    ensures data != [] && |data| <= RECV_BUFFER && (|data| == RECV_BUFFER || g.inbox == [])
  {
    data := f.inbox[..if RECV_BUFFER <= |f.inbox| then RECV_BUFFER else |f.inbox|];
    var count := f.(inbox := f.inbox[|data|..], drained := f.drained + data, place := Count(data));
    FirstHalf(f, count, data, others, wish, n);
    g := SecondHalf(count, data, others, wish, n + 2);
  }

  lemma FirstHalf(f: Flow, count: Flow, data: seq<byte>, others: nat -> seq<Event>, wish: nat -> nat, n: nat)
    requires Inv(f) && f.inTable && f.place.Gate? && f.hasTx && Quiet(others) && FullReads(wish)
    requires f.pending < FLOW_CHANNEL_CAPACITY && f.inbox != []
    requires data == f.inbox[..if RECV_BUFFER <= |f.inbox| then RECV_BUFFER else |f.inbox|]
    requires count == f.(inbox := f.inbox[|data|..], drained := f.drained + data, place := Count(data))
    ensures Inv(count) && Rank(count) < Rank(f) && Loops(f, others, wish, n) == Loops(count, others, wish, n + 2)
  {
    var recv := f.(place := Recv);
    LoopsOn(f, others, wish, n);
    assert Steps(f, [], wish(n)) == recv;
    StepsKeep(recv, [], wish(n + 1));
    LoopsOn(recv, others, wish, n + 1);
    assert Steps(recv, [], wish(n + 1)) == count;
  }

  lemma SecondHalf(f: Flow, data: seq<byte>, others: nat -> seq<Event>, wish: nat -> nat, n: nat) returns (g: Flow)
    requires Inv(f) && f.inTable && f.place == Count(data) && !f.writer.Gone? && Quiet(others)
    ensures g == f.(pending := f.pending + 1, queue := f.queue + [data], counted := f.counted + |data|, place := Gate)
    ensures Inv(g) && Rank(g) < Rank(f) && Loops(f, others, wish, n) == Loops(g, others, wish, n + 2)
  {
    var send := f.(pending := f.pending + 1, place := Send(data));
    g := send.(queue := f.queue + [data], counted := f.counted + |data|, place := Gate);
    LoopsOn(f, others, wish, n);
    assert Steps(f, [], wish(n)) == send;
    StepsKeep(send, [], wish(n + 1));
    LoopsOn(send, others, wish, n + 1);
    assert Steps(send, [], wish(n + 1)) == g;
  }

  lemma LoopsOn(f: Flow, others: nat -> seq<Event>, wish: nat -> nat, n: nat)
    requires Inv(f) && f.inTable && !f.place.Outside? && Quiet(others)
    ensures var g := Steps(f, [], wish(n));
            Inv(g) && g.inTable && Loops(f, others, wish, n) == Loops(g, others, wish, n + 1)
  {
    StepsKeep(f, [], wish(n));
  }

  /** The end of such a call: there is no room any more, or nothing left. */
  lemma LastRound(f: Flow, others: nat -> seq<Event>, wish: nat -> nat, n: nat)
    requires Inv(f) && f.inTable && f.place.Gate? && f.hasTx && Quiet(others)
    requires f.pending == FLOW_CHANNEL_CAPACITY || f.inbox == []
    ensures Loops(f, others, wish, n) == f.(place := Outside)
  {
    LoopsOn(f, others, wish, n);
    if f.pending < FLOW_CHANNEL_CAPACITY {
      LoopsOn(f.(place := Recv), others, wish, n + 1);
    }
  }

  lemma {:induction false} LoopsDrain(start: Flow, f: Flow, d: nat, others: nat -> seq<Event>, wish: nat -> nat, n: nat)
    returns (d': nat)
    requires Inv(f) && f.inTable && f.place.Gate? && f.hasTx && !f.writer.Gone? && Quiet(others) && FullReads(wish)
    requires Took(start, f, d)
    ensures var g := Loops(f, others, wish, n);
            Took(start, g, d') && (g.pending == FLOW_CHANNEL_CAPACITY || g.inbox == [])
    decreases Rank(f)
  {
    if f.pending == FLOW_CHANNEL_CAPACITY || f.inbox == [] {
      LastRound(f, others, wish, n);
      d' := d;
    } else {
      var g, data := Round(f, others, wish, n);
      TookMore(start, f, d, g, data);
      d' := LoopsDrain(start, g, d + |data|, others, wish, n + 4);
    }
  }

  /** With a quiet living writer and full reads, a call queues all that waits in the socket and that there is room
      for. */
  lemma CallDrains(f: Flow, others: nat -> seq<Event>, wish: nat -> nat)
    requires Inv(f) && f.inTable && f.place.Outside? && f.hasTx && !f.writer.Gone? && Quiet(others) && FullReads(wish)
    ensures DrainsAll(f, Call(f, others, wish))
  {
    var d := CallTakes(f, others, wish);
    var _, _ := CallRests(f, others, wish);
    TookAll(f, Call(f, others, wish), d);
  }

  lemma CallTakes(f: Flow, others: nat -> seq<Event>, wish: nat -> nat) returns (d: nat)
    requires Inv(f) && f.inTable && f.place.Outside? && f.hasTx && !f.writer.Gone? && Quiet(others) && FullReads(wish)
    ensures var g := Call(f, others, wish);
            Took(f, g, d) && (g.pending == FLOW_CHANNEL_CAPACITY || g.inbox == [])
  {
    InvStep(f, Loop(0));
    var gate := Apply(f, Loop(0));
    assert Took(f, gate, 0);
    d := LoopsDrain(f, gate, 0, others, wish, 0);
  }

  // ---- Everything can be written ----

  /** What has arrived from the application in these events. */
  function ArrivedIn(events: seq<Event>): seq<byte> {
    if events == [] then []
    else
      var last := events[|events| - 1];
      ArrivedIn(events[..|events| - 1]) + if last.Arrive? then last.data else []
  }

  /** What was drained and what waits in the socket are together what has arrived, in order. */
  lemma {:induction false} DrainedIsArrived(f: Flow, events: seq<Event>, f': Flow)
    requires Run(Next, f, events) == Some(f')
    ensures f'.drained + f'.inbox == f.drained + f.inbox + ArrivedIn(events)
    decreases |events|
  {
    if events != [] {
      var n := |events| - 1;
      var mid := Run(Next, f, events[..n]).value;
      DrainedIsArrived(f, events[..n], mid);
      DrainsInOrder(mid, events[n]);
    }
  }

  lemma DrainsInOrder(f: Flow, e: Event)
    requires Enabled(f, e)
    ensures var f' := Apply(f, e);
            f'.drained + f'.inbox == f.drained + f.inbox + if e.Arrive? then e.data else []
  {
    if e.Loop? && f.place.Recv? && f.inbox != [] {
      assert f.inbox == f.inbox[..e.n] + f.inbox[e.n..];
    }
  }

  /** The writer is alive and between two chunks or at work on one, and the loop is between two calls. */
  ghost predicate Rested(f: Flow) {
    Inv(f) && f.inTable && f.place.Outside? && f.hasTx && !f.writer.Gone?
  }

  /** The writer finishes the chunk it is at. */
  lemma WriterIdles(f: Flow) returns (events: seq<Event>, g: Flow)
    requires Rested(f)
    ensures Run(Next, f, events) == Some(g) && Rested(g) && g.writer.Idle?
    ensures g.queue == f.queue && g.inbox == f.inbox && g.drained == f.drained
  {
    events, g := [], f;
    if g.writer.Writing? {
      events := Logged(Next, f, events, g, WriterWrite(true));
      InvStep(g, WriterWrite(true));
      g := Apply(g, WriterWrite(true));
    }
    if g.writer.Repaying? {
      events := Logged(Next, f, events, g, WriterRepay);
      InvStep(g, WriterRepay);
      g := Apply(g, WriterRepay);
    }
  }

  /** The writer empties the queue. */
  lemma {:induction false} WriterEmpties(f: Flow) returns (events: seq<Event>, g: Flow)
    requires Rested(f)
    ensures Run(Next, f, events) == Some(g) && Rested(g) && g.writer.Idle? && g.queue == []
    ensures g.inbox == f.inbox && g.drained == f.drained == g.written
    decreases |f.queue|
  {
    events, g := WriterIdles(f);
    if g.queue == [] {
      AllDrained(g);
    } else {
      var take := Logged(Next, f, events, g, WriterTake);
      InvStep(g, WriterTake);
      var rest;
      rest, g := WriterEmpties(Apply(g, WriterTake));
      Joined(Next, f, take, Run(Next, f, take).value, rest);
      events := take + rest;
    }
  }

  /** From every state between two calls everything that has arrived can be brought to the tunnel: the writer
      writes, and the loop is called often enough. */
  lemma {:induction false} CanWriteAll(f: Flow) returns (events: seq<Event>, g: Flow)
    requires Rested(f)
    ensures Run(Next, f, events) == Some(g) && g.written == f.drained + f.inbox && g.inbox == []
    decreases |f.inbox|
  {
    events, g := WriterEmpties(f);
    if g.inbox == [] {
      assert f.drained + [] == f.drained;
    } else {
      var call, drained := OneCall(g);
      var rest, end := CanWriteAll(drained);
      Joined(Next, f, events, g, call);
      Joined(Next, f, events + call, drained, rest);
      events, g := events + call + rest, end;
    }
  }

  /** One call with an empty queue drains at least one byte. */
  lemma OneCall(f: Flow) returns (events: seq<Event>, g: Flow)
    requires Rested(f) && f.writer.Idle? && f.queue == [] && f.inbox != []
    ensures Run(Next, f, events) == Some(g) && Rested(g) && |g.inbox| < |f.inbox| && g.drained + g.inbox == f.drained + f.inbox
  {
    var others, wish := (n: nat) => [], (n: nat) => RECV_BUFFER;
    var last;
    events, last := CallRests(f, others, wish);
    g := Call(f, others, wish);
    var d := CallTakes(f, others, wish);
    assert f.inbox == f.inbox[..d] + f.inbox[d..];
    TookSome(f, g, d);
  }

  lemma TookSome(f: Flow, g: Flow, d: nat)
    requires Rested(f) && f.writer.Idle? && f.queue == [] && f.inbox != [] && Took(f, g, d)
    requires g.pending == FLOW_CHANNEL_CAPACITY || g.inbox == []
    ensures |g.inbox| < |f.inbox|
  {
  }

  // ---- The code ----

  /** The upload side of a flow together with the socket it drains. */
  class TcpUpload {
    var inbox: seq<byte>
    ghost var drained: seq<byte>
    var queue: seq<seq<byte>>
    var writer: Writer
    ghost var written: seq<byte>
    var pending: int
    var hasTx: bool
    var closed: bool
    ghost var inTable: bool
    var uploadBytes: int
    ghost var place: Place

    ghost function Snapshot(): Flow
      reads this
    {
      Flow(inbox, drained, queue, writer, written, pending, hasTx, closed, inTable, uploadBytes, place)
    }

    constructor ()
      ensures Snapshot() == CONNECTED && Inv(Snapshot())
    {
      inbox, drained, queue, writer, written := [], [], [], Idle, [];
      pending, hasTx, closed, inTable, uploadBytes, place := 0, true, false, true, 0, Outside;
    }

    /** The writer thread does something, or nothing. */
    method WriterActs(choice: Event)
      requires !place.Outside?
      modifies this`queue, this`writer, this`written, this`pending, this`closed
      ensures Snapshot() == Acts(old(Snapshot()), choice)
    {
      match choice
      case WriterTake =>
        if writer.Idle? && queue != [] {
          writer, queue := Writing(queue[0]), queue[1..];
        }
      case WriterWrite(ok) =>
        if writer.Writing? {
          if ok {
            written, writer := written + writer.chunk, Repaying;
          } else {
            closed, writer, queue := true, Gone, [];
          }
        }
      case WriterRepay =>
        if writer.Repaying? {
          pending, writer := pending - 1, Idle;
        }
      case WriterStop =>
        if writer.Idle? && (closed || (queue == [] && !hasTx)) {
          writer, queue := Gone, [];
        }
      case _ =>
    }

    /** Any number of writer steps, between two steps of the stack loop. */
    method WriterRuns(choices: seq<Event>)
      requires !place.Outside?
      modifies this`queue, this`writer, this`written, this`pending, this`closed
      ensures Snapshot() == ActsAll(old(Snapshot()), choices)
    {
      for i := 0 to |choices|
        invariant Snapshot() == ActsAll(old(Snapshot()), choices[..i])
      {
        assert choices[..i + 1][..i] == choices[..i];
        WriterActs(choices[i]);
      }
      assert choices[..|choices|] == choices;
    }

    /** recv_slice: up to a buffer of what the application sent. */
    method RecvSlice(wish: nat) returns (data: seq<byte>)
      requires place.Recv?
      modifies this`inbox, this`drained
      ensures data == old(inbox)[..TakenBy(old(Snapshot()), wish)]
      ensures inbox == old(inbox)[|data|..] && drained == old(drained) + data
    {
      var n := if wish == 0 then 1 else wish;
      n := if n <= RECV_BUFFER then n else RECV_BUFFER;
      n := if n <= |inbox| then n else |inbox|;
      data := inbox[..n];
      inbox, drained := inbox[n..], drained + data;
    }

    /** The loop condition: room in the queue, and someone to send to. */
    method Gate(choices: seq<Event>) returns (room: bool)
      requires Inv(Snapshot()) && inTable && place.Gate?
      modifies this`queue, this`writer, this`written, this`pending, this`closed, this`place
      ensures Snapshot() == Steps(old(Snapshot()), choices, 0)
      ensures if room then place.Recv? else place.Outside?
    {
      ActsKeep(Snapshot(), choices);
      WriterRuns(choices);
      room := pending < FLOW_CHANNEL_CAPACITY && hasTx;
      place := if room then Recv else Outside;
    }

    method Receive(choices: seq<Event>, wish: nat) returns (data: seq<byte>)
      requires Inv(Snapshot()) && inTable && place.Recv?
      modifies this`inbox, this`drained, this`queue, this`writer, this`written, this`pending, this`closed, this`place
      ensures Snapshot() == Steps(old(Snapshot()), choices, wish)
      ensures if data == [] then place.Outside? else place == Count(data)
    {
      ActsKeep(Snapshot(), choices);
      WriterRuns(choices);
      data := RecvSlice(wish);
      place := if data == [] then Outside else Count(data);
    }

    method Raise(choices: seq<Event>, data: seq<byte>)
      requires Inv(Snapshot()) && inTable && place == Count(data)
      modifies this`queue, this`writer, this`written, this`pending, this`closed, this`place
      ensures Snapshot() == Steps(old(Snapshot()), choices, 0) && place == Send(data)
    {
      ActsKeep(Snapshot(), choices);
      WriterRuns(choices);
      pending, place := pending + 1, Send(data);
    }

    method SendChunk(choices: seq<Event>, data: seq<byte>) returns (sent: bool)
      requires Inv(Snapshot()) && inTable && place == Send(data)
      modifies this`queue, this`writer, this`written, this`pending, this`closed, this`uploadBytes, this`place
      ensures Snapshot() == Steps(old(Snapshot()), choices, 0)
      ensures if sent then place.Gate? else place.Refund?
    {
      ActsKeep(Snapshot(), choices);
      WriterRuns(choices);
      sent := !writer.Gone?;
      if sent {
        queue, uploadBytes, place := queue + [data], uploadBytes + |data|, Place.Gate;
      } else {
        place := Refund;
      }
    }

    /** After a failed send: takes the count back, drops the sender and marks the flow closed. */
    method GiveUp(choices: seq<Event>)
      requires Inv(Snapshot()) && inTable && place.Refund?
      modifies this`queue, this`writer, this`written, this`pending, this`hasTx, this`closed, this`place
      ensures Snapshot() == Steps(old(Snapshot()), choices, 0) && place.Outside?
    {
      ActsKeep(Snapshot(), choices);
      WriterRuns(choices);
      pending, hasTx, closed, place := pending - 1, false, true, Outside;
    }

    /** Counts and queues one drained chunk; the writer may act between the count and the send. */
    method QueueChunk(data: seq<byte>, others: nat -> seq<Event>, wish: nat -> nat, n: nat) returns (more: bool)
      requires Inv(Snapshot()) && inTable && place == Count(data)
      modifies this`queue, this`writer, this`written, this`pending, this`hasTx, this`closed, this`uploadBytes, this`place
      ensures Inv(Snapshot()) && inTable && Rank(Snapshot()) < old(Rank(Snapshot()))
      ensures if more then place.Gate? else place.Outside?
      ensures old(Loops(Snapshot(), others, wish, n)) == Loops(Snapshot(), others, wish, n + 2)
    {
      NextStep(Snapshot(), others, wish, n);
      Raise(others(n), data);
      NextStep(Snapshot(), others, wish, n + 1);
      more := SendChunk(others(n + 1), data);
      if !more {
        NextStep(Snapshot(), others, wish, n + 2);
        GiveUp(others(n + 2));
      }
    }

    /** One iteration of the drain loop. */
    method DrainOne(others: nat -> seq<Event>, wish: nat -> nat, n: nat) returns (more: bool)
      requires Inv(Snapshot()) && inTable && place.Gate?
      modifies this
      ensures Inv(Snapshot()) && inTable && Rank(Snapshot()) < old(Rank(Snapshot()))
      ensures if more then place.Gate? else place.Outside?
      ensures old(Loops(Snapshot(), others, wish, n)) == Loops(Snapshot(), others, wish, n + 4)
    {
      NextStep(Snapshot(), others, wish, n);
      more := Gate(others(n));
      if more {
        NextStep(Snapshot(), others, wish, n + 1);
        var data := Receive(others(n + 1), wish(n + 1));
        more := data != [];
        if more {
          more := QueueChunk(data, others, wish, n + 2);
        }
      }
    }

    /** Drains the socket while fewer than FLOW_CHANNEL_CAPACITY chunks are pending. */
    method DrainUpload(others: nat -> seq<Event>, wish: nat -> nat)
      requires Inv(Snapshot()) && place.Outside? && inTable
      modifies this
      ensures Snapshot() == Call(old(Snapshot()), others, wish)
    {
      InvStep(Snapshot(), Loop(0));
      place := Place.Gate;
      ghost var gate := Snapshot();
      var n: nat := 0;
      var more := true;
      while more
        invariant Inv(Snapshot()) && inTable && if more then place.Gate? else place.Outside?
        invariant Loops(Snapshot(), others, wish, n) == Loops(gate, others, wish, 0)
        decreases Rank(Snapshot())
      {
        more := DrainOne(others, wish, n);
        n := n + 4;
      }
    }
  }

  /** One step further along a call; only recv_slice asks the socket for anything. */
  lemma NextStep(f: Flow, others: nat -> seq<Event>, wish: nat -> nat, n: nat)
    requires Inv(f) && f.inTable && !f.place.Outside?
    ensures var g := Steps(f, others(n), wish(n));
            && Inv(g) && g.inTable && Rank(g) < Rank(f)
            && Loops(f, others, wish, n) == Loops(g, others, wish, n + 1)
            && (!f.place.Recv? ==> g == Steps(f, others(n), 0))
  {
    ActsKeep(f, others(n));
    StepsKeep(f, others(n), wish(n));
  }
}

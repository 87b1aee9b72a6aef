/** One UDP flow: datagrams wait while the tunnel connects, then go through a bounded queue to a
    writer thread. */
module UdpFlows {
  import opened Bytes

  const MAX_UDP_FLOWS := 512
  const UDP_PENDING_DATAGRAMS := 32
  const UDP_FLOW_IDLE_TIMEOUT_MS := 60_000

  type Datagram = seq<byte>

  /** `upload` says the writer queue exists. `kept`, `sent` and `delivered` are history: the datagrams
      buffered while the tunnel connected, every datagram the queue accepted, and every datagram from
      the tunnel that the application's socket took. */
  datatype UdpFlow = UdpFlow(
    connecting: bool,
    upload: bool,
    queue: seq<Datagram>,
    pending: seq<Datagram>,
    lastActivity: nat,
    closed: bool,
    kept: seq<Datagram>,
    sent: seq<Datagram>,
    delivered: seq<Datagram>)

  /** A datagram that comes back from the tunnel, and whether the application's socket takes it. */
  datatype Returned = Returned(data: Datagram, taken: bool)

  /** The datagrams taken, in order. */
  function Taken(returned: seq<Returned>): seq<Datagram> {
    if returned == [] then []
    else
      var last := returned[|returned| - 1];
      Taken(returned[..|returned| - 1]) + if last.taken then [last.data] else []
  }

  /** `some` is what is left of `all` when elements are dropped. */
  predicate Subsequence(some: seq<Datagram>, all: seq<Datagram>) {
    if all == [] then some == []
    else
      var n := |all| - 1;
      || Subsequence(some, all[..n])
      || (some != [] && some[|some| - 1] == all[n] && Subsequence(some[..|some| - 1], all[..n]))
  }

  function DataOf(returned: seq<Returned>): seq<Datagram> {
    seq(|returned|, i requires 0 <= i < |returned| => returned[i].data)
  }

  /** They are what came back less what was refused; all of it if nothing was. */
  lemma {:induction false} TakenInOrder(returned: seq<Returned>)
    ensures Subsequence(Taken(returned), DataOf(returned))
    ensures (forall i :: 0 <= i < |returned| ==> returned[i].taken) <==> Taken(returned) == DataOf(returned)
    ensures |Taken(returned)| <= |returned|
  {
    if returned != [] {
      var n := |returned| - 1;
      TakenInOrder(returned[..n]);
      assert DataOf(returned) == DataOf(returned[..n]) + [returned[n].data];
      if returned[n].taken {
        OneMoreTaken(Taken(returned[..n]), DataOf(returned[..n]), returned[n].data);
      } else {
        OneMoreRefused(Taken(returned[..n]), DataOf(returned[..n]), returned[n].data);
      }
    }
  }

  lemma OneMoreTaken(some: seq<Datagram>, all: seq<Datagram>, data: Datagram)
    requires Subsequence(some, all)
    ensures Subsequence(some + [data], all + [data])
    ensures some + [data] == all + [data] <==> some == all
  {
    assert (some + [data])[..|some|] == some && (all + [data])[..|all|] == all;
  }

  lemma OneMoreRefused(some: seq<Datagram>, all: seq<Datagram>, data: Datagram)
    requires Subsequence(some, all) && |some| <= |all|
    ensures Subsequence(some, all + [data]) && some + [] == some != all + [data]
  {
    assert (all + [data])[..|all|] == all;
  }

  function Opened(now: nat): UdpFlow {
    UdpFlow(true, false, [], [], now, false, [], [], [])
  }

  /** A connecting flow has sent nothing and holds what it kept; a connected one has sent all of it
      first, in order, and holds nothing back; what waits in the queue was sent last. */
  ghost predicate FlowInv(f: UdpFlow) {
    && |f.queue| <= UDP_PENDING_DATAGRAMS && |f.kept| <= UDP_PENDING_DATAGRAMS
    && (f.connecting ==> !f.upload) && (f.connecting || f.upload || f.closed)
    && (if f.upload then f.pending == [] && f.kept <= f.sent && EndsWith(f.sent, f.queue)
        else f.pending == f.kept && f.queue == [] && f.sent == [])
  }

  predicate EndsWith(all: seq<Datagram>, end: seq<Datagram>) {
    |end| <= |all| && all[|all| - |end|..] == end
  }

  /** The writer thread takes up to `n` datagrams off the queue. */
  function Drained(f: UdpFlow, n: nat): UdpFlow {
    f.(queue := Left(f.queue, n))
  }

  function Left(queue: seq<Datagram>, n: nat): seq<Datagram> {
    queue[if n <= |queue| then n else |queue|..]
  }

  /** try_send: drops rather than blocks. */
  function TrySend(f: UdpFlow, data: Datagram): UdpFlow {
    if |f.queue| < UDP_PENDING_DATAGRAMS then f.(queue := f.queue + [data], sent := f.sent + [data]) else f
  }

  /** A datagram of the application arrives for the flow; the writer has just taken `drained`. */
  function Arrive(f: UdpFlow, data: Datagram, now: nat, drained: nat): UdpFlow {
    var active := f.(lastActivity := now);
    if f.upload then TrySend(Drained(active, drained), data)
    else if |f.pending| < UDP_PENDING_DATAGRAMS then active.(pending := f.pending + [data], kept := f.kept + [data])
    else active
  }

  lemma ArriveKeeps(f: UdpFlow, data: Datagram, now: nat, drained: nat)
    requires FlowInv(f)
    ensures FlowInv(Arrive(f, data, now, drained))
    ensures !f.upload && |f.pending| < UDP_PENDING_DATAGRAMS ==>
              Arrive(f, data, now, drained).pending == f.pending + [data]
  {
    if f.upload {
      LeftEnds(f.sent, f.queue, drained);
      EndsMore(f.sent, Left(f.queue, drained), data);
    }
  }

  lemma LeftEnds(sent: seq<Datagram>, queue: seq<Datagram>, n: nat)
    requires EndsWith(sent, queue)
    ensures EndsWith(sent, Left(queue, n))
  {
  }

  lemma EndsMore(sent: seq<Datagram>, queue: seq<Datagram>, data: Datagram)
    requires EndsWith(sent, queue)
    ensures EndsWith(sent + [data], queue + [data])
  {
  }

  /** A datagram for a connected flow joins the end of the queue, unless the queue is full behind what the
      writer has taken; nothing else is dropped, and what was to be sent before it still is, in order. */
  lemma ArriveConnected(f: UdpFlow, data: Datagram, now: nat, drained: nat)
    requires FlowInv(f) && f.upload
    ensures var g, left := Arrive(f, data, now, drained), f.queue[if drained <= |f.queue| then drained else |f.queue|..];
            && g == f.(lastActivity := now, queue := g.queue, sent := g.sent)
            && (if |left| < UDP_PENDING_DATAGRAMS
                then g.queue == left + [data] && g.sent == f.sent + [data]
                else g.queue == f.queue == left && g.sent == f.sent)
  {
  }

  /** A datagram for a flow that is still connecting is kept, unless the buffer is full. */
  lemma ArriveConnecting(f: UdpFlow, data: Datagram, now: nat, drained: nat)
    requires FlowInv(f) && !f.upload
    ensures Arrive(f, data, now, drained)
         == if |f.pending| < UDP_PENDING_DATAGRAMS
            then f.(lastActivity := now, pending := f.pending + [data], kept := f.kept + [data])
            else f.(lastActivity := now)
  {
  }

  /** After `k` sends of a flush of `f`. */
  ghost predicate Flushed(f: UdpFlow, g: UdpFlow, k: nat)
    requires k <= |f.pending|
  {
    && g.pending == f.pending[k..] && g.sent == f.sent + f.pending[..k]
    && |g.queue| <= k && EndsWith(g.sent, g.queue)
    && g == f.(pending := g.pending, queue := g.queue, sent := g.sent)
  }

  lemma FlushStep(f: UdpFlow, g: UdpFlow, k: nat, drained: nat)
    requires k < |f.pending| <= UDP_PENDING_DATAGRAMS && Flushed(f, g, k)
    ensures Flushed(f, TrySend(Drained(g.(pending := g.pending[1..]), drained), g.pending[0]), k + 1)
  {
    var data := g.pending[0];
    LeftEnds(g.sent, g.queue, drained);
    EndsMore(g.sent, Left(g.queue, drained), data);
    NextPending(f.sent, f.pending, k);
    var g' := g.(pending := f.pending[k + 1..], queue := Left(g.queue, drained) + [data], sent := g.sent + [data]);
    assert TrySend(Drained(g.(pending := g.pending[1..]), drained), data) == g';
  }

  lemma NextPending(sent: seq<Datagram>, pending: seq<Datagram>, k: nat)
    requires k < |pending|
    ensures pending[k..][0] == pending[k] && pending[k..][1..] == pending[k + 1..]
    ensures sent + pending[..k] + [pending[k]] == sent + pending[..k + 1]
  {
    assert pending[..k + 1] == pending[..k] + [pending[k]];
  }

  /** Moves the pending datagrams into the queue while the writer runs; `drained(k)` is what it takes
      before the k-th send. A fresh queue has room for all of them, so none is dropped. */
  method Flush(f: UdpFlow, drained: nat -> nat) returns (g: UdpFlow)
    requires f.upload && f.queue == [] && |f.pending| <= UDP_PENDING_DATAGRAMS
    ensures g.pending == [] && g.sent == f.sent + f.pending && |g.queue| <= UDP_PENDING_DATAGRAMS
    ensures EndsWith(g.sent, g.queue)
    ensures g == f.(pending := g.pending, queue := g.queue, sent := g.sent)
  {
    g := f;
    var k := 0;
    while g.pending != []
      invariant k <= |f.pending| && Flushed(f, g, k)
      decreases |g.pending|
    {
      var data := g.pending[0];
      FlushStep(f, g, k, drained(k));
      g := TrySend(Drained(g.(pending := g.pending[1..]), drained(k)), data);
      k := k + 1;
    }
    assert f.pending[..k] == f.pending;
  }

  datatype Connect = Waiting | Connected | Refused

  /** What one pass does to a flow. A flow that connects hands all it had buffered to the queue, in
      order; a connected flow buffers nothing and asks for no connection again. */
  ghost predicate Serviced(f: UdpFlow, g: UdpFlow, outcome: Connect, now: nat, received: seq<Returned>, ended: bool) {
    && g.connecting == (f.connecting && outcome.Waiting?)
    && g.upload == (f.upload || (f.connecting && outcome.Connected?))
    && g.kept == f.kept
    && (if f.upload then g.sent == f.sent && g.queue == f.queue && g.pending == f.pending
        else if g.upload then g.sent == f.pending && g.pending == []
        else g.sent == f.sent && g.queue == f.queue && g.pending == f.pending)
    && (g.closed <==> f.closed || (f.connecting && outcome.Refused?) || (g.upload && ended))
    && g.delivered == f.delivered + (if g.upload then Taken(received) else [])
    && g.lastActivity == if g.upload && received != [] then now else f.lastActivity
  }

  /** Hands what came back to the application's socket; a datagram it refuses is dropped. */
  method Deliver(f: UdpFlow, received: seq<Returned>, now: nat) returns (g: UdpFlow)
    ensures g == f.(delivered := f.delivered + Taken(received),
                    lastActivity := if received == [] then f.lastActivity else now)
  {
    var delivered, lastActivity := [], f.lastActivity;
    for i := 0 to |received|
      invariant delivered == Taken(received[..i]) && lastActivity == if i == 0 then f.lastActivity else now
    {
      assert received[..i + 1][..i] == received[..i];
      lastActivity := now;
      if received[i].taken {
        delivered := delivered + [received[i].data];
      }
    }
    assert received[..|received|] == received;
    g := f.(delivered := f.delivered + delivered, lastActivity := lastActivity);
  }

  /** One pass over a flow: the outcome of the connection attempt, the flush, and the datagrams that
      came back from the tunnel (`ended` when the reader is gone). */
  method Service(f: UdpFlow, outcome: Connect, now: nat, drained: nat -> nat, received: seq<Returned>, ended: bool)
    returns (g: UdpFlow)
    requires FlowInv(f)
    ensures FlowInv(g) && Serviced(f, g, outcome, now, received, ended)
  {
    g := f;
    if g.connecting {
      match outcome {
        case Connected => g := g.(connecting := false, upload := true);
        case Refused => g := g.(connecting := false, closed := true);
        case Waiting =>
      }
    }
    if g.upload {
      // A flow that was connected before has nothing pending, so its flush would do nothing.
      if !f.upload {
        g := Flush(g, drained);
      }
      g := Deliver(g, received, now);
      g := g.(closed := g.closed || ended);
    }
  }

  predicate Expired(f: UdpFlow, now: nat) {
    f.closed || now >= f.lastActivity + UDP_FLOW_IDLE_TIMEOUT_MS
  }
}

/** The tables of the transport stack: which socket belongs to which listener or flow. Looking up or
    removing a socket that is not there, or as the wrong kind, panics; the code here never does. The
    invariant and the single steps are about values; the classes of StackLoop hold those values. */
module SocketTables {
  import opened Options
  import opened Network
  import opened TcpFlows
  import opened UdpFlows
  import opened UdpTables

  const LISTENER_IDLE_TIMEOUT_MS := 5 * 60_000

  /** What the tables need to know of a socket; the stack's poll may change the flags at will. */
  datatype Socket =
    | Tcp(socket: TcpSocket)
    | Udp(inbox: seq<Arrival>)

  datatype Listing = Listing(byTarget: map<Target, Handle>, byHandle: map<Handle, Target>, lastUsed: map<Target, nat>)

  datatype Tables = Tables(
    sockets: map<Handle, Socket>,
    tcp: Listing,
    udp: Listing,
    tcpFlows: map<Handle, TcpFlow>,
    udpFlows: UdpTable)

  // ---- The invariant ----

  ghost predicate Inverse(l: Listing) {
    && (forall t | t in l.byTarget :: l.byTarget[t] in l.byHandle && l.byHandle[l.byTarget[t]] == t)
    && (forall h | h in l.byHandle :: l.byHandle[h] in l.byTarget && l.byTarget[l.byHandle[h]] == h)
  }

  ghost predicate Timed(l: Listing) {
    forall t | t in l.byTarget :: t in l.lastUsed
  }

  /** Every live socket is owned by exactly one of the TCP listeners, the TCP flows and the UDP
      listeners, of its own kind; and what they own is live. */
  ghost predicate Owned(sockets: map<Handle, Socket>, listeners: map<Handle, Target>, flows: map<Handle, TcpFlow>,
                        udp: map<Handle, Target>)
  {
    && (forall h | h in sockets ::
          if sockets[h].Tcp? then h !in udp && (h in listeners) != (h in flows)
          else h in udp && h !in listeners && h !in flows)
    && (forall h | h in listeners :: h in sockets)
    && (forall h | h in flows :: h in sockets)
    && (forall h | h in udp :: h in sockets)
  }

  ghost predicate Structured(t: Tables) {
    && Inverse(t.tcp) && Inverse(t.udp)
    && Owned(t.sockets, t.tcp.byHandle, t.tcpFlows, t.udp.byHandle)
    && FlowsFit(t.udpFlows, t.udp.byHandle)
  }

  ghost predicate AllCarried(flows: map<Handle, TcpFlow>) {
    forall h | h in flows :: Carried(flows[h])
  }

  ghost predicate Good(t: Tables) {
    Structured(t) && Timed(t.tcp) && Timed(t.udp) && AllCarried(t.tcpFlows)
  }

  const LISTENING := TcpSocket(Listen, false, false, false)

  const NO_LISTING := Listing(map[], map[], map[])
  const NO_TABLES := Tables(map[], NO_LISTING, NO_LISTING, map[], map[])

  /** A handle that names no socket names nothing else either, so whoever gets it next cannot be taken
      for an earlier listener or flow. */
  lemma FreeHandleNamesNothing(t: Tables, h: Handle)
    requires Good(t) && h !in t.sockets
    ensures h !in t.tcp.byHandle && h !in t.tcpFlows && h !in t.udp.byHandle
    ensures forall u | u in t.tcp.byTarget :: t.tcp.byTarget[u] != h
    ensures forall u | u in t.udp.byTarget :: t.udp.byTarget[u] != h
    ensures forall k | k in t.udpFlows :: k.handle != h
  {
  }

  // ---- Single steps ----

  function With(l: Listing, target: Target, h: Handle): Listing {
    l.(byTarget := l.byTarget[target := h], byHandle := l.byHandle[h := target])
  }

  function Without(l: Listing, h: Handle): Listing {
    if h in l.byHandle then l.(byTarget := l.byTarget - {l.byHandle[h]}, byHandle := l.byHandle - {h}) else l
  }

  function Touched(l: Listing, target: Target, now: nat): Listing {
    l.(lastUsed := l.lastUsed[target := now])
  }

  function Forgotten(l: Listing, target: Target): Listing {
    l.(lastUsed := l.lastUsed - {target})
  }

  /** Not used for LISTENER_IDLE_TIMEOUT_MS, or never. */
  predicate Idle(l: Listing, target: Target, now: nat) {
    target !in l.lastUsed || now >= l.lastUsed[target] + LISTENER_IDLE_TIMEOUT_MS
  }

  function AddTcp(t: Tables, target: Target, h: Handle): Tables {
    t.(sockets := t.sockets[h := Tcp(LISTENING)], tcp := With(t.tcp, target, h))
  }

  function AddUdp(t: Tables, target: Target, h: Handle): Tables {
    t.(sockets := t.sockets[h := Udp([])], udp := With(t.udp, target, h))
  }

  /** A listener that has accepted a connection becomes that connection's flow. */
  function Promote(t: Tables, h: Handle, flow: TcpFlow): Tables {
    t.(tcp := Without(t.tcp, h), tcpFlows := t.tcpFlows[h := flow])
  }

  function DropTcpFlow(t: Tables, h: Handle): Tables {
    t.(sockets := t.sockets - {h}, tcpFlows := t.tcpFlows - {h})
  }

  function DropListener(l: Listing, h: Handle): Listing {
    if h in l.byHandle then Forgotten(Without(l, h), l.byHandle[h]) else l
  }

  function DropTcp(t: Tables, h: Handle): Tables {
    t.(sockets := t.sockets - {h}, tcp := DropListener(t.tcp, h))
  }

  function DropUdp(t: Tables, h: Handle): Tables {
    t.(sockets := t.sockets - {h}, udp := DropListener(t.udp, h))
  }

  lemma WithKeepsInverse(l: Listing, target: Target, h: Handle)
    requires Inverse(l) && target !in l.byTarget && h !in l.byHandle
    ensures Inverse(With(l, target, h))
  {
  }

  lemma WithoutKeepsInverse(l: Listing, h: Handle)
    requires Inverse(l)
    ensures Inverse(Without(l, h)) && Inverse(DropListener(l, h))
    ensures Timed(l) ==> Timed(Without(l, h)) && Timed(DropListener(l, h))
  {
  }

  lemma AddTcpKeeps(t: Tables, target: Target, h: Handle)
    requires Structured(t) && target !in t.tcp.byTarget && h !in t.sockets
    ensures Structured(AddTcp(t, target, h))
  {
    WithKeepsInverse(t.tcp, target, h);
  }

  lemma AddUdpKeeps(t: Tables, target: Target, h: Handle)
    requires Structured(t) && target !in t.udp.byTarget && h !in t.sockets
    ensures Structured(AddUdp(t, target, h))
  {
    WithKeepsInverse(t.udp, target, h);
  }

  lemma PromoteKeeps(t: Tables, h: Handle, flow: TcpFlow)
    requires Good(t) && h in t.tcp.byHandle && Carried(flow)
    ensures Good(Promote(t, h, flow)) && h !in t.tcpFlows && t.tcp.byHandle[h] !in Promote(t, h, flow).tcp.byTarget
  {
    WithoutKeepsInverse(t.tcp, h);
  }

  lemma DropTcpFlowKeeps(t: Tables, h: Handle)
    requires Good(t) && h in t.tcpFlows
    ensures h in t.sockets && t.sockets[h].Tcp? && Good(DropTcpFlow(t, h))
  {
  }

  lemma DropTcpKeeps(t: Tables, h: Handle)
    requires Good(t) && h in t.tcp.byHandle
    ensures h in t.sockets && t.sockets[h].Tcp? && Good(DropTcp(t, h))
  {
    WithoutKeepsInverse(t.tcp, h);
  }

  /** Only a listener without flows may go, or its flows would be left behind. */
  lemma DropUdpKeeps(t: Tables, h: Handle)
    requires Good(t) && h in t.udp.byHandle && forall k | k in t.udpFlows :: k.handle != h
    ensures h in t.sockets && t.sockets[h].Udp? && Good(DropUdp(t, h))
  {
    WithoutKeepsInverse(t.udp, h);
    OwnedWithoutUdp(t.sockets, t.tcp.byHandle, t.tcpFlows, t.udp.byHandle, h);
  }

  lemma OwnedWithoutUdp(sockets: map<Handle, Socket>, listeners: map<Handle, Target>, flows: map<Handle, TcpFlow>,
                        udp: map<Handle, Target>, h: Handle)
    requires Owned(sockets, listeners, flows, udp) && h in udp
    ensures Owned(sockets - {h}, listeners, flows, udp - {h})
  {
  }

  /** A socket may change in place, but not its kind. */
  ghost predicate SameKinds(a: map<Handle, Socket>, b: map<Handle, Socket>) {
    && (forall h | h in a :: h in b && a[h].Tcp? == b[h].Tcp?)
    && (forall h | h in b :: h in a)
  }

  lemma SameKindsKeeps(t: Tables, sockets: map<Handle, Socket>)
    requires Good(t) && SameKinds(t.sockets, sockets)
    ensures Good(t.(sockets := sockets))
  {
  }

  // ---- Accepting connections ----

  /** `after` is `before` with a listener for `target`: the one that was there, a new one on a handle
      that was free, or none when listening failed. */
  ghost predicate Listened(before: Tables, after: Tables, target: Target, ok: bool) {
    if target in before.tcp.byTarget || !ok then after == before
    else exists h :: h !in before.sockets && after == AddTcp(before, target, h)
  }

  ghost predicate UdpListened(before: Tables, after: Tables, target: Target, ok: bool) {
    if target in before.udp.byTarget || !ok then after == before
    else exists h :: h !in before.sockets && after == AddUdp(before, target, h)
  }

  lemma ListenedKeeps(before: Tables, after: Tables, target: Target, ok: bool)
    requires Structured(before) && Listened(before, after, target, ok)
    ensures Structured(after)
  {
    if !(target in before.tcp.byTarget || !ok) {
      var h :| h !in before.sockets && after == AddTcp(before, target, h);
      AddTcpKeeps(before, target, h);
    }
  }

  lemma UdpListenedKeeps(before: Tables, after: Tables, target: Target, ok: bool)
    requires Structured(before) && UdpListened(before, after, target, ok)
    ensures Structured(after)
  {
    if !(target in before.udp.byTarget || !ok) {
      var h :| h !in before.sockets && after == AddUdp(before, target, h);
      AddUdpKeeps(before, target, h);
    }
  }

  /** Touching the target of a packet restores the time of last use that a new listener lacks. */
  lemma TouchKeeps(before: Tables, mid: Tables, target: Target, ok: bool, now: nat)
    requires Good(before) && Structured(mid) && Listened(before, mid, target, ok)
    ensures Good(mid.(tcp := Touched(mid.tcp, target, now)))
  {
  }

  lemma UdpTouchKeeps(before: Tables, mid: Tables, target: Target, ok: bool, now: nat)
    requires Good(before) && Structured(mid) && UdpListened(before, mid, target, ok)
    ensures Good(mid.(udp := Touched(mid.udp, target, now)))
  {
  }

  /** A replacement needs no touch: its target was in use already. */
  lemma ListenedTimed(before: Tables, mid: Tables, after: Tables, h: Handle, flow: TcpFlow, ok: bool)
    requires Good(before) && h in before.tcp.byHandle && mid == Promote(before, h, flow) && Good(mid)
    requires Structured(after) && Listened(mid, after, before.tcp.byHandle[h], ok)
    ensures Good(after)
  {
  }

  ghost function ActiveListeners(t: Tables): set<Handle> {
    set h | h in t.tcp.byHandle && h in t.sockets && t.sockets[h].Tcp? && t.sockets[h].socket.active
  }

  /** What accepting asks of the outside: the names that addresses stand for when a handle's turn comes,
      whether a replacement gets to listen, and the clock. */
  datatype Accepting = Accepting(name: (Handle, Ipv4) -> string, relisten: Handle -> bool, clock: Handle -> nat)

  /** The flow that listener `h` for `target` turns into. */
  function FlowFor(a: Accepting, h: Handle, target: Target): (f: TcpFlow)
    ensures f.connectTo == a.name(h, target.ip) && f.started == a.clock(h) && !f.connected && !f.closed
    ensures f.down.accepted == [] && f.up.drained == [] && !f.down.finSent
  {
    NewFlow(a.name(h, target.ip), a.clock(h))
  }

  /** The listeners in `done` have become flows to the right names, each replaced by a listener on a
      handle that was free (unless listening failed); nothing else changed. */
  ghost predicate Accepted(before: Tables, after: Tables, done: set<Handle>, a: Accepting) {
    && after.udp == before.udp && after.udpFlows == before.udpFlows && after.tcp.lastUsed == before.tcp.lastUsed
    && AcceptedFlows(before, after.tcpFlows, done, a)
    && AcceptedListeners(before, after.tcp.byTarget, done, a.relisten)
    && SocketsKept(before.sockets, after.sockets)
  }

  ghost predicate SocketsKept(before: map<Handle, Socket>, after: map<Handle, Socket>) {
    forall h | h in before :: h in after && after[h] == before[h]
  }

  lemma AddKeepsSockets(before: map<Handle, Socket>, now: map<Handle, Socket>, free: Handle, socket: Socket)
    requires SocketsKept(before, now) && free !in now
    ensures SocketsKept(before, now[free := socket]) && free !in before
  {
  }

  ghost predicate AcceptedFlows(before: Tables, flows: map<Handle, TcpFlow>, done: set<Handle>, a: Accepting) {
    && (forall h | h in flows :: h in before.tcpFlows || h in done)
    && (forall h | h in before.tcpFlows && h !in done :: h in flows && flows[h] == before.tcpFlows[h])
    && (forall h | h in done ::
          h in before.tcp.byHandle && h in flows && flows[h] == FlowFor(a, h, before.tcp.byHandle[h]))
  }

  ghost predicate AcceptedListeners(before: Tables, byTarget: map<Target, Handle>, done: set<Handle>, ok: Handle -> bool) {
    && (forall u | u in byTarget :: u in before.tcp.byTarget)
    && (forall u | u in before.tcp.byTarget && before.tcp.byTarget[u] !in done ::
          u in byTarget && byTarget[u] == before.tcp.byTarget[u])
    && (forall u | u in before.tcp.byTarget && before.tcp.byTarget[u] in done ::
          (u in byTarget <==> ok(before.tcp.byTarget[u])) && (u in byTarget ==> byTarget[u] !in before.sockets))
  }

  /** What is asked of the outside later on does not matter to what has been accepted. */
  lemma AcceptedAgrees(before: Tables, after: Tables, done: set<Handle>, a: Accepting, a': Accepting)
    requires Accepted(before, after, done, a) && a'.relisten == a.relisten && a'.clock == a.clock
    requires forall h: Handle, ip: Ipv4 :: h in done ==> a'.name(h, ip) == a.name(h, ip)
    ensures Accepted(before, after, done, a')
  {
  }

  lemma AcceptedFlowsStep(before: Tables, flows: map<Handle, TcpFlow>, done: set<Handle>, h: Handle, a: Accepting)
    requires AcceptedFlows(before, flows, done, a) && h in before.tcp.byHandle
    ensures AcceptedFlows(before, flows[h := FlowFor(a, h, before.tcp.byHandle[h])], done + {h}, a)
  {
  }

  /** `link` is the replacement's handle, if there is one. */
  lemma AcceptedListenersStep(before: Tables, byTarget: map<Target, Handle>, done: set<Handle>, h: Handle,
                              link: Option<Handle>, ok: Handle -> bool)
    requires Inverse(before.tcp) && AcceptedListeners(before, byTarget, done, ok)
    requires h in before.tcp.byHandle && h !in done && link.Some? == ok(h)
    requires link.Some? ==> link.value !in before.sockets
    ensures var target := before.tcp.byHandle[h];
            var after := if link.Some? then (byTarget - {target})[target := link.value] else byTarget - {target};
            AcceptedListeners(before, after, done + {h}, ok)
  {
  }

  lemma AcceptedStep(before: Tables, now: Tables, after: Tables, done: set<Handle>, h: Handle, a: Accepting)
    requires Inverse(before.tcp) && Accepted(before, now, done, a)
    requires h in before.tcp.byHandle && h !in done
    requires h in now.tcp.byHandle && now.tcp.byHandle[h] == before.tcp.byHandle[h]
    requires var target := before.tcp.byHandle[h];
             Listened(Promote(now, h, FlowFor(a, h, target)), after, target, a.relisten(h))
    ensures Accepted(before, after, done + {h}, a)
  {
    var target := before.tcp.byHandle[h];
    var mid := Promote(now, h, FlowFor(a, h, target));
    AcceptedFlowsStep(before, now.tcpFlows, done, h, a);
    var link: Option<Handle> := None;
    if a.relisten(h) {
      var free :| free !in mid.sockets && after == AddTcp(mid, target, free);
      link := Some(free);
      AddKeepsSockets(before.sockets, now.sockets, free, Tcp(LISTENING));
    }
    AcceptedListenersStep(before, now.tcp.byTarget, done, h, link, a.relisten);
  }

  /** A listener not yet served is still there under its handle. */
  lemma StillListening(before: Tables, now: Tables, done: set<Handle>, h: Handle, a: Accepting)
    requires Good(before) && Good(now) && Accepted(before, now, done, a)
    requires h in before.tcp.byHandle && h !in done
    ensures h in now.tcp.byHandle && now.tcp.byHandle[h] == before.tcp.byHandle[h]
  {
    assert now.tcp.byTarget[before.tcp.byHandle[h]] == h;
  }

  // ---- UDP ----

  /** Emptying an inbox into its flows leaves the tables in order. */
  lemma InboxKeeps(t: Tables, handle: Handle, now: nat, drained: nat -> nat)
    requires Good(t) && handle in t.udp.byHandle
    ensures handle in t.sockets && t.sockets[handle].Udp?
    ensures Good(t.(sockets := t.sockets[handle := Udp([])],
                    udpFlows := ReceivedAll(t.udpFlows, handle, t.sockets[handle].inbox, now, drained)))
  {
    ReceivedAllKeeps(t.udpFlows, t.udp.byHandle, handle, t.sockets[handle].inbox, now, drained);
    SameKindsKeeps(t, t.sockets[handle := Udp([])]);
  }

  // ---- Passes over whole tables ----

  /** The per-flow work of a turn: the socket may change state, and the flow is served. */
  function ServeOne(t: Tables, h: Handle, socket: TcpSocket, w: Work): Tables
    requires h in t.tcpFlows && Carried(t.tcpFlows[h])
  {
    t.(sockets := t.sockets[h := Tcp(socket)], tcpFlows := t.tcpFlows[h := Served(t.tcpFlows[h], w, socket)])
  }

  lemma ServeTcpKeeps(t: Tables, h: Handle, socket: TcpSocket, w: Work)
    requires Good(t) && h in t.tcpFlows
    ensures h in t.sockets && t.sockets[h].Tcp? && Good(ServeOne(t, h, socket, w))
  {
    ServedCarries(t.tcpFlows[h], w, socket);
  }

  /** Every flow in `done` has been served; sockets may have changed state, but not kind. */
  ghost predicate TcpServed(before: Tables, after: Tables, done: set<Handle>, state: Handle -> TcpSocket,
                            work: Handle -> Work)
  {
    && AllCarried(before.tcpFlows)
    && SameKinds(before.sockets, after.sockets) && SameUdp(before.sockets, after.sockets)
    && after == before.(sockets := after.sockets, tcpFlows := after.tcpFlows)
    && before.tcpFlows.Keys == after.tcpFlows.Keys
    && forall h | h in before.tcpFlows ::
         after.tcpFlows[h] == if h in done then Served(before.tcpFlows[h], work(h), state(h)) else before.tcpFlows[h]
  }

  /** No UDP socket changes. */
  ghost predicate SameUdp(before: map<Handle, Socket>, after: map<Handle, Socket>) {
    forall h | h in before && before[h].Udp? :: h in after && after[h] == before[h]
  }

  lemma TcpServedNone(t: Tables, state: Handle -> TcpSocket, work: Handle -> Work)
    requires AllCarried(t.tcpFlows)
    ensures TcpServed(t, t, {}, state, work)
  {
  }

  lemma TcpServedStep(before: Tables, now: Tables, done: set<Handle>, h: Handle, state: Handle -> TcpSocket,
                      work: Handle -> Work)
    requires TcpServed(before, now, done, state, work) && h in before.tcpFlows && h !in done
    requires h in now.sockets && now.sockets[h].Tcp?
    ensures TcpServed(before, ServeOne(now, h, state(h), work(h)), done + {h}, state, work)
  {
    var after := ServeOne(now, h, state(h), work(h));
    assert after.tcpFlows.Keys == now.tcpFlows.Keys;
    SameSocketsStep(before.sockets, now.sockets, h, state(h));
  }

  lemma SameSocketsStep(before: map<Handle, Socket>, now: map<Handle, Socket>, h: Handle, socket: TcpSocket)
    requires SameKinds(before, now) && SameUdp(before, now) && h in now && now[h].Tcp?
    ensures SameKinds(before, now[h := Tcp(socket)]) && SameUdp(before, now[h := Tcp(socket)])
  {
  }

  ghost function DeadFlows(t: Tables): set<Handle> {
    set h | h in t.tcpFlows && t.tcpFlows[h].closed
  }

  /** Exactly the flows in `dead` have left, and their sockets with them. */
  ghost predicate Reaped(before: Tables, after: Tables, dead: set<Handle>) {
    after == before.(sockets := before.sockets - dead, tcpFlows := before.tcpFlows - dead)
  }

  lemma ReapedNone(t: Tables)
    ensures Reaped(t, t, {})
  {
    assert t.sockets - {} == t.sockets;
    assert t.tcpFlows - {} == t.tcpFlows;
  }

  lemma ReapedStep(before: Tables, now: Tables, dead: set<Handle>, h: Handle)
    requires Reaped(before, now, dead) && h in before.tcpFlows && h !in dead
    ensures h in now.tcpFlows && Reaped(before, DropTcpFlow(now, h), dead + {h})
  {
    assert before.sockets - dead - {h} == before.sockets - (dead + {h});
    assert before.tcpFlows - dead - {h} == before.tcpFlows - (dead + {h});
  }

  /** What has become of flow `f` of handle `h`: it has been served, and has left if that ended it. */
  ghost predicate Passed(f: TcpFlow, h: Handle, after: map<Handle, TcpFlow>, w: Work, s: TcpSocket)
    requires Carried(f)
  {
    var g := Served(f, w, s);
    if g.closed then h !in after else h in after && after[h] == g
  }

  /** A turn of the TCP flows: the flows of before and those of the connections that waited have been served, and
      those that ended have left; there are no others. */
  ghost predicate TcpTurned(before: Tables, after: map<Handle, TcpFlow>, a: Accepting, state: Handle -> TcpSocket,
                            work: Handle -> Work)
  {
    && AllCarried(before.tcpFlows)
    && (forall h | h in after :: h in before.tcpFlows || h in ActiveListeners(before))
    && (forall h | h in ActiveListeners(before) ::
          Carried(FlowFor(a, h, before.tcp.byHandle[h]))
          && Passed(FlowFor(a, h, before.tcp.byHandle[h]), h, after, work(h), state(h)))
    && (forall h | h in before.tcpFlows && h !in ActiveListeners(before) ::
          Passed(before.tcpFlows[h], h, after, work(h), state(h)))
  }

  lemma TcpTurns(before: Tables, accepted: Tables, served: Tables, after: Tables, a: Accepting, state: Handle -> TcpSocket,
                 work: Handle -> Work)
    requires AllCarried(before.tcpFlows) && Accepted(before, accepted, ActiveListeners(before), a)
    requires TcpServed(accepted, served, accepted.tcpFlows.Keys, state, work) && Reaped(served, after, DeadFlows(served))
    ensures TcpTurned(before, after.tcpFlows, a, state, work)
  {
    forall h | h in ActiveListeners(before)
      ensures Carried(FlowFor(a, h, before.tcp.byHandle[h]))
      ensures Passed(FlowFor(a, h, before.tcp.byHandle[h]), h, after.tcpFlows, work(h), state(h))
    {
      assert accepted.tcpFlows[h] == FlowFor(a, h, before.tcp.byHandle[h]);
      assert served.tcpFlows[h] == Served(accepted.tcpFlows[h], work(h), state(h));
    }
    forall h | h in before.tcpFlows && h !in ActiveListeners(before)
      ensures Passed(before.tcpFlows[h], h, after.tcpFlows, work(h), state(h))
    {
      assert served.tcpFlows[h] == Served(accepted.tcpFlows[h], work(h), state(h));
    }
  }

  /** Meanwhile the UDP inboxes have not changed. */
  lemma InboxesStay(before: Tables, accepted: Tables, served: Tables, after: Tables, a: Accepting,
                    state: Handle -> TcpSocket, work: Handle -> Work, h: Handle)
    requires Good(before) && Good(served) && Accepted(before, accepted, ActiveListeners(before), a)
    requires TcpServed(accepted, served, accepted.tcpFlows.Keys, state, work) && Reaped(served, after, DeadFlows(served))
    requires h in before.udp.byHandle
    ensures InboxOf(after.sockets, h) == InboxOf(before.sockets, h)
  {
    assert accepted.sockets[h] == before.sockets[h] && served.sockets[h] == before.sockets[h];
    assert h !in served.tcpFlows;
  }

  function InboxOf(sockets: map<Handle, Socket>, h: Handle): seq<Arrival> {
    if h in sockets && sockets[h].Udp? then sockets[h].inbox else []
  }

  function Inboxes(sockets: map<Handle, Socket>): Handle -> seq<Arrival> {
    (h: Handle) => InboxOf(sockets, h)
  }

  /** The flows and inboxes of the listeners in `done` have been worked off, the others are untouched. */
  ghost predicate UdpProcessed(before: Tables, sockets: map<Handle, Socket>, flows: UdpTable, done: set<Handle>, w: UdpWork) {
    && before.sockets.Keys == sockets.Keys
    && (forall h | h in sockets :: sockets[h] == if h in done then Udp([]) else before.sockets[h])
    && FlowsProcessed(before.udpFlows, Inboxes(before.sockets), flows, done, w)
  }

  lemma UdpProcessedStep(before: Tables, sockets: map<Handle, Socket>, flows: UdpTable, done: set<Handle>, handle: Handle,
                         after: UdpTable, w: UdpWork)
    requires UdpProcessed(before, sockets, flows, done, w)
    requires FlowsFit(flows, before.udp.byHandle) && handle in before.udp.byHandle && handle in sockets && handle !in done
    requires sockets[handle].Udp?
    requires var mid := ReceivedAll(flows, handle, sockets[handle].inbox, w.now, w.drained(handle));
             UdpServed(mid, after, FlowsOf(mid, handle), w)
    ensures UdpProcessed(before, sockets[handle := Udp([])], after, done + {handle}, w)
  {
    ListenerTurns(flows, before.udp.byHandle, handle, sockets[handle].inbox, after, w);
    FlowsProcessedStep(before.udpFlows, Inboxes(before.sockets), flows, done, handle, after, w);
    assert sockets[handle := Udp([])].Keys == sockets.Keys;
  }

  /** The target was used within the timeout. */
  ghost predicate InUse(l: Listing, target: Target, now: nat) {
    target in l.lastUsed && now < l.lastUsed[target] + LISTENER_IDLE_TIMEOUT_MS
  }

  /** The listeners that a sweep removes: idle, and not in use. */
  ghost function StaleTcp(t: Tables, now: nat): set<Handle> {
    set h | h in t.tcp.byHandle && h in t.sockets && t.sockets[h].Tcp?
            && !InUse(t.tcp, t.tcp.byHandle[h], now) && t.sockets[h].socket.state.Listen?
  }

  ghost function StaleUdp(t: Tables, now: nat): set<Handle> {
    set h | h in t.udp.byHandle && !InUse(t.udp, t.udp.byHandle[h], now) && forall k | k in t.udpFlows :: k.handle != h
  }

  /** Exactly the listeners in `gone` have left, with their times of last use. */
  ghost predicate Left(before: Listing, after: Listing, gone: set<Handle>) {
    && after.byHandle == before.byHandle - gone
    && (forall u | u in after.byTarget :: u in before.byTarget && after.byTarget[u] == before.byTarget[u])
    && (forall u | u in after.lastUsed :: u in before.lastUsed && after.lastUsed[u] == before.lastUsed[u])
    && (forall u | u in before.lastUsed ::
          u in after.lastUsed <==> !(exists h :: h in gone && h in before.byHandle && before.byHandle[h] == u))
  }

  /** A target with a time of last use but no listener: listening for it failed. */
  ghost predicate Orphan(l: Listing, u: Target) {
    u in l.lastUsed && u !in l.byTarget
  }

  /** If it was an orphan it still is, with the same time of last use. */
  ghost predicate OrphanStays(before: Listing, after: Listing, u: Target) {
    Orphan(before, u) ==> Orphan(after, u) && after.lastUsed[u] == before.lastUsed[u]
  }

  /** A packet whose target cannot be listened for leaves an orphan. */
  lemma FailedListenOrphans(before: Tables, mid: Tables, target: Target, now: nat)
    requires Listened(before, mid, target, false) && target !in before.tcp.byTarget
    ensures Orphan(Touched(mid.tcp, target, now), target)
  {
  }

  /** So does a connection whose listener cannot be replaced. */
  lemma FailedReplacementOrphans(before: Tables, after: Tables, done: set<Handle>, h: Handle, a: Accepting)
    requires Good(before) && Accepted(before, after, done, a) && h in done && h in before.tcp.byHandle && !a.relisten(h)
    ensures Orphan(after.tcp, before.tcp.byHandle[h])
  {
    assert before.tcp.byTarget[before.tcp.byHandle[h]] == h;
  }

  /** An entry leaves in a sweep if and only if its target has a listener that the sweep takes: an entry
      without a listener never does. */
  lemma EntryLeaves(before: Listing, after: Listing, gone: set<Handle>, u: Target)
    requires Inverse(before) && Left(before, after, gone) && u in before.lastUsed
    ensures u !in after.lastUsed <==> u in before.byTarget && before.byTarget[u] in gone
    ensures OrphanStays(before, after, u)
  {
    if u in before.byTarget && before.byTarget[u] in gone {
      assert before.byHandle[before.byTarget[u]] == u;
    }
    forall h | h in gone && h in before.byHandle && before.byHandle[h] == u
      ensures u in before.byTarget && before.byTarget[u] == h
    {
    }
  }

  /** No orphan leaves or changes in a sweep. */
  ghost predicate OrphansStay(before: Listing, after: Listing) {
    forall u | u in before.lastUsed :: OrphanStays(before, after, u)
  }

  lemma SweepKeepsOrphans(before: Listing, after: Listing, gone: set<Handle>)
    requires Inverse(before) && Left(before, after, gone)
    ensures OrphansStay(before, after)
  {
    forall u | u in before.lastUsed
      ensures OrphanStays(before, after, u)
    {
      EntryLeaves(before, after, gone, u);
    }
  }

  lemma LeftStep(before: Listing, now: Listing, gone: set<Handle>, h: Handle)
    requires Inverse(before) && Left(before, now, gone) && h in before.byHandle && h !in gone
    ensures Left(before, DropListener(now, h), gone + {h})
  {
    assert now.byHandle[h] == before.byHandle[h];
  }

  ghost predicate TcpSwept(before: Tables, after: Tables, gone: set<Handle>) {
    after == before.(sockets := before.sockets - gone, tcp := after.tcp) && Left(before.tcp, after.tcp, gone)
  }

  ghost predicate UdpSwept(before: Tables, after: Tables, gone: set<Handle>) {
    after == before.(sockets := before.sockets - gone, udp := after.udp) && Left(before.udp, after.udp, gone)
  }

  lemma TcpSweptNone(t: Tables)
    ensures TcpSwept(t, t, {})
  {
    assert t.sockets - {} == t.sockets;
    assert t.tcp.byHandle - {} == t.tcp.byHandle;
  }

  lemma UdpSweptNone(t: Tables)
    ensures UdpSwept(t, t, {})
  {
    assert t.sockets - {} == t.sockets;
    assert t.udp.byHandle - {} == t.udp.byHandle;
  }

  lemma TcpSweptStep(before: Tables, now: Tables, gone: set<Handle>, h: Handle)
    requires Inverse(before.tcp) && TcpSwept(before, now, gone) && h in before.tcp.byHandle && h !in gone
    ensures h in now.tcp.byHandle && TcpSwept(before, DropTcp(now, h), gone + {h})
  {
    LeftStep(before.tcp, now.tcp, gone, h);
    assert before.sockets - gone - {h} == before.sockets - (gone + {h});
  }

  lemma UdpSweptStep(before: Tables, now: Tables, gone: set<Handle>, h: Handle)
    requires Inverse(before.udp) && UdpSwept(before, now, gone) && h in before.udp.byHandle && h !in gone
    ensures h in now.udp.byHandle && now.udpFlows == before.udpFlows && UdpSwept(before, DropUdp(now, h), gone + {h})
  {
    LeftStep(before.udp, now.udp, gone, h);
    assert before.sockets - gone - {h} == before.sockets - (gone + {h});
  }

  /** A sweep forgets nothing that was used within the timeout. */
  ghost predicate KeptInUse(before: Listing, after: Listing, now: nat) {
    forall u | u in before.lastUsed && InUse(before, u, now) :: u in after.lastUsed && after.lastUsed[u] == before.lastUsed[u]
  }

  lemma TcpSweepIsComplete(before: Tables, after: Tables, now: nat)
    requires Good(before) && Good(after) && TcpSwept(before, after, StaleTcp(before, now))
    ensures StaleTcp(after, now) == {} && KeptInUse(before.tcp, after.tcp, now)
  {
    LeavesInUse(before.tcp, after.tcp, StaleTcp(before, now), now);
  }

  lemma UdpSweepIsComplete(before: Tables, after: Tables, now: nat)
    requires Good(before) && Good(after) && UdpSwept(before, after, StaleUdp(before, now))
    ensures StaleUdp(after, now) == {} && KeptInUse(before.udp, after.udp, now)
    ensures StaleTcp(before, now) == {} ==> StaleTcp(after, now) == {}
  {
    LeavesInUse(before.udp, after.udp, StaleUdp(before, now), now);
  }

  lemma LeavesInUse(before: Listing, after: Listing, gone: set<Handle>, now: nat)
    requires Left(before, after, gone) && Inverse(after) && Inverse(before)
    requires forall h | h in gone :: h in before.byHandle && !InUse(before, before.byHandle[h], now)
    ensures KeptInUse(before, after, now)
    ensures forall h | h in after.byHandle :: InUse(after, after.byHandle[h], now) == InUse(before, before.byHandle[h], now)
  {
    forall h | h in after.byHandle
      ensures InUse(after, after.byHandle[h], now) == InUse(before, before.byHandle[h], now)
    {
      var u := after.byHandle[h];
      assert forall g | g in gone :: before.byHandle[g] != u;
    }
  }

  ghost function Unexpired(flows: UdpTable, now: nat): UdpTable {
    map k | k in flows && !flows[k].closed && now < flows[k].lastActivity + UDP_FLOW_IDLE_TIMEOUT_MS :: flows[k]
  }

  lemma UnexpiredFits(flows: UdpTable, udp: map<Handle, Target>, now: nat)
    requires FlowsFit(flows, udp)
    ensures FlowsFit(Unexpired(flows, now), udp)
  {
    FewerKeys(Unexpired(flows, now), flows);
  }

  /** The handles in `done` are those of the targets no longer in `todo`. */
  ghost predicate WorkedOff(l: Listing, done: set<Handle>, todo: set<Target>) {
    forall h :: h in done <==> h in l.byHandle && l.byHandle[h] !in todo
  }

  lemma WorkedOffStep(l: Listing, done: set<Handle>, todo: set<Target>, t: Target)
    requires Inverse(l) && WorkedOff(l, done, todo) && t in todo && t in l.byTarget
    ensures WorkedOff(l, done + {l.byTarget[t]}, todo - {t})
  {
  }

  // ---- Sets worked off one element at a time ----

  ghost predicate Partition<T>(all: set<T>, done: set<T>, todo: set<T>) {
    done + todo == all && done !! todo
  }

  lemma PartitionStep<T>(all: set<T>, done: set<T>, todo: set<T>, x: T)
    requires Partition(all, done, todo) && x in todo
    ensures Partition(all, done + {x}, todo - {x})
  {
  }

  lemma PartitionEnd<T>(all: set<T>, done: set<T>)
    requires Partition(all, done, {})
    ensures done == all
  {
  }

  /** There is always a handle that is not in use. */
  lemma {:induction false} FreeHandle(used: set<Handle>) returns (h: Handle)
    ensures forall u :: u in used ==> u < h
    decreases |used|
  {
    if used == {} {
      h := 0;
    } else {
      var u :| u in used;
      var rest := FreeHandle(used - {u});
      h := if rest > u then rest else u + 1;
      assert used == (used - {u}) + {u};
    }
  }

  lemma FewerKeys<K, V>(m: map<K, V>, n: map<K, V>)
    requires m.Keys <= n.Keys
    ensures |m| <= |n|
  {
    FewerElements(m.Keys, n.Keys);
  }

  lemma {:induction false} FewerElements<K>(a: set<K>, b: set<K>)
    requires a <= b
    ensures |a| <= |b|
    decreases a
  {
    if a != {} {
      var x :| x in a;
      FewerElements(a - {x}, b - {x});
    }
  }
}

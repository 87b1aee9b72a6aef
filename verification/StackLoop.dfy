/** The loop of the transport stack over its listener, socket and flow tables. Every method says how the
    new tables follow from the old ones; `Valid` holds before and after each, so no lookup can fail. */
module StackLoop {
  import opened Options
  import opened TcpFlows
  import opened UdpFlows
  import opened UdpTables
  import opened SocketTables

  const LISTENER_SWEEP_INTERVAL_MS := 30_000

  /** Which socket waits for which destination, both ways round, and when each destination was last sent to. */
  class Listeners {
    var byTarget: map<Target, Handle>
    var byHandle: map<Handle, Target>
    var lastUsed: map<Target, nat>

    function Is(): Listing
      reads this
    {
      Listing(byTarget, byHandle, lastUsed)
    }

    constructor ()
      ensures Is() == NO_LISTING
    {
      byTarget, byHandle, lastUsed := map[], map[], map[];
    }

    method Insert(target: Target, handle: Handle)
      modifies this
      ensures Is() == With(old(Is()), target, handle)
    {
      byTarget := byTarget[target := handle];
      byHandle := byHandle[handle := target];
    }

    method RemoveHandle(handle: Handle) returns (target: Option<Target>)
      modifies this
      ensures Is() == Without(old(Is()), handle)
      ensures target == if handle in old(byHandle) then Some(old(byHandle)[handle]) else None
    {
      if handle !in byHandle {
        return None;
      }
      target := Some(byHandle[handle]);
      byHandle := byHandle - {handle};
      byTarget := byTarget - {target.value};
    }

    method Touch(target: Target, now: nat)
      modifies this
      ensures Is() == Touched(old(Is()), target, now)
    {
      lastUsed := lastUsed[target := now];
    }

    method Forget(target: Target)
      modifies this
      ensures Is() == Forgotten(old(Is()), target)
    {
      lastUsed := lastUsed - {target};
    }
  }

  datatype Protocol = TCP | UDP | Other

  /** A packet from the device; `ok` is the answer that listening for it would get. */
  datatype Packet = Packet(protocol: Protocol, target: Target, ok: bool)

  /** What the outside does during one turn of the loop: the packets, the sockets after either poll, how
      connections are accepted, what befalls each TCP flow, and what connects, arrives and drains for
      UDP. The UDP pass reads the clock again. */
  datatype Turn = Turn(
    now: nat,
    packets: seq<Packet>,
    polled: Handle -> Socket,
    accepting: Accepting,
    served: Handle -> TcpSocket,
    work: Handle -> Work,
    udp: UdpWork,
    polledAgain: Handle -> Socket)

  /** The destination of every packet of the protocol was last used at `now`. */
  ghost predicate UsedNow(l: Listing, packets: seq<Packet>, protocol: Protocol, now: nat) {
    forall p | p in packets && p.protocol == protocol :: p.target in l.lastUsed && l.lastUsed[p.target] == now
  }

  lemma InUseSurvives(before: Listing, after: Listing, packets: seq<Packet>, protocol: Protocol, now: nat)
    requires UsedNow(before, packets, protocol, now) && KeptInUse(before, after, now)
    ensures UsedNow(after, packets, protocol, now)
  {
  }

  /** No packet of the protocol goes to `u`. */
  predicate NoPacketFor(packets: seq<Packet>, protocol: Protocol, u: Target) {
    forall p | p in packets :: p.protocol == protocol ==> p.target != u
  }

  /** Orphans for which no packet comes stay as they are. */
  ghost predicate QuietOrphansStay(before: Listing, after: Listing, packets: seq<Packet>, protocol: Protocol) {
    forall u | u in before.lastUsed && NoPacketFor(packets, protocol, u) :: OrphanStays(before, after, u)
  }

  ghost predicate NoneForgotten(before: Listing, after: Listing) {
    forall u | u in before.lastUsed :: u in after.lastUsed
  }

  /** One more packet, seen from one protocol's listing: the listing of another protocol stays, its own
      changes for the packet's target alone. */
  ghost predicate OnlyTarget(before: Listing, after: Listing, p: Packet, protocol: Protocol) {
    && (p.protocol != protocol ==> after == before)
    && NoneForgotten(before, after)
    && (forall u :: u in after.byTarget <==> u in before.byTarget || (p.protocol == protocol && p.target == u && p.ok))
    && (forall u | u in before.byTarget :: u in after.byTarget && after.byTarget[u] == before.byTarget[u])
    && (forall u | u != p.target && u in before.lastUsed :: u in after.lastUsed && after.lastUsed[u] == before.lastUsed[u])
  }

  /** Some packet of the protocol gets a listener for `u`. */
  predicate Opens(packets: seq<Packet>, protocol: Protocol, u: Target) {
    exists p :: p in packets && p.protocol == protocol && p.target == u && p.ok
  }

  /** After the packets there are the listeners of before, under their handles, and one for each destination of a
      packet that could get one. */
  ghost predicate Listens(before: Listing, after: Listing, packets: seq<Packet>, protocol: Protocol) {
    && (forall u :: u in after.byTarget <==> u in before.byTarget || Opens(packets, protocol, u))
    && (forall u | u in before.byTarget :: u in after.byTarget && after.byTarget[u] == before.byTarget[u])
  }

  /** A packet, seen from its own protocol's listing; `link` is the handle of the listener it gets, if it gets a new
      one. */
  lemma TouchedOnly(before: Listing, after: Listing, p: Packet, link: Option<Handle>, now: nat)
    requires link.Some? <==> p.target !in before.byTarget && p.ok
    requires after == Touched(if link.Some? then With(before, p.target, link.value) else before, p.target, now)
    ensures OnlyTarget(before, after, p, p.protocol)
    ensures !p.ok && p.target !in before.byTarget ==> Orphan(after, p.target)
  {
  }

  lemma OneNewSocket(before: map<Handle, Socket>, h: Handle, socket: Socket)
    requires h !in before && socket in {Tcp(LISTENING), Udp([])}
    ensures OnlyNewSockets(before, before[h := socket]) && OnlyNewSockets(before, before)
  {
  }

  lemma TcpListenedOnly(before: Tables, mid: Tables, p: Packet, now: nat)
    requires p.protocol.TCP? && Listened(before, mid, p.target, p.ok)
    ensures OnlyTarget(before.tcp, Touched(mid.tcp, p.target, now), p, TCP) && mid.udp == before.udp
    ensures OnlyNewSockets(before.sockets, mid.sockets)
    ensures mid.tcpFlows == before.tcpFlows && mid.udpFlows == before.udpFlows
    ensures !p.ok && p.target !in before.tcp.byTarget ==> Orphan(Touched(mid.tcp, p.target, now), p.target)
  {
    if p.target in before.tcp.byTarget || !p.ok {
      TouchedOnly(before.tcp, Touched(mid.tcp, p.target, now), p, None, now);
    } else {
      var h :| h !in before.sockets && mid == AddTcp(before, p.target, h);
      TouchedOnly(before.tcp, Touched(mid.tcp, p.target, now), p, Some(h), now);
      OneNewSocket(before.sockets, h, Tcp(LISTENING));
    }
  }

  lemma UdpListenedOnly(before: Tables, mid: Tables, p: Packet, now: nat)
    requires p.protocol.UDP? && UdpListened(before, mid, p.target, p.ok)
    ensures OnlyTarget(before.udp, Touched(mid.udp, p.target, now), p, UDP) && mid.tcp == before.tcp
    ensures OnlyNewSockets(before.sockets, mid.sockets)
    ensures mid.tcpFlows == before.tcpFlows && mid.udpFlows == before.udpFlows
    ensures !p.ok && p.target !in before.udp.byTarget ==> Orphan(Touched(mid.udp, p.target, now), p.target)
  {
    if p.target in before.udp.byTarget || !p.ok {
      TouchedOnly(before.udp, Touched(mid.udp, p.target, now), p, None, now);
    } else {
      var h :| h !in before.sockets && mid == AddUdp(before, p.target, h);
      TouchedOnly(before.udp, Touched(mid.udp, p.target, now), p, Some(h), now);
      OneNewSocket(before.sockets, h, Udp([]));
    }
  }

  lemma ListensStep(before: Listing, mid: Listing, after: Listing, packets: seq<Packet>, p: Packet, protocol: Protocol)
    requires Listens(before, mid, packets, protocol) && OnlyTarget(mid, after, p, protocol)
    ensures Listens(before, after, packets + [p], protocol)
  {
    forall u
      ensures Opens(packets + [p], protocol, u) <==>
                Opens(packets, protocol, u) || (p.protocol == protocol && p.target == u && p.ok)
    {
      assert p in packets + [p];
      assert forall q | q in packets :: q in packets + [p];
    }
  }

  /** Sockets stay as they are, and new ones have nothing in them. */
  ghost predicate OnlyNewSockets(before: map<Handle, Socket>, after: map<Handle, Socket>) {
    SocketsKept(before, after) && forall h | h in after && h !in before :: after[h] in {Tcp(LISTENING), Udp([])}
  }

  lemma NewSocketsStep(before: map<Handle, Socket>, mid: map<Handle, Socket>, after: map<Handle, Socket>)
    requires OnlyNewSockets(before, mid) && OnlyNewSockets(mid, after)
    ensures OnlyNewSockets(before, after)
  {
  }

  /** A poll: every socket takes the state given, if it is one of its kind. */
  ghost predicate PolledBy(before: map<Handle, Socket>, after: map<Handle, Socket>, states: Handle -> Socket) {
    && before.Keys == after.Keys
    && forall h | h in before :: after[h] == if before[h].Tcp? == states(h).Tcp? then states(h) else before[h]
  }

  lemma QuietOrphansStep(before: Listing, mid: Listing, after: Listing, packets: seq<Packet>, p: Packet, protocol: Protocol)
    requires QuietOrphansStay(before, mid, packets, protocol) && OnlyTarget(mid, after, p, protocol)
    ensures QuietOrphansStay(before, after, packets + [p], protocol)
  {
    forall u | u in before.lastUsed && NoPacketFor(packets + [p], protocol, u)
      ensures OrphanStays(before, after, u)
    {
      assert p in packets + [p];
      assert forall q | q in packets :: q in packets + [p];
      assert NoPacketFor(packets, protocol, u);
    }
  }

  lemma UsedNowStep(l: Listing, after: Listing, packets: seq<Packet>, p: Packet, protocol: Protocol, now: nat)
    requires UsedNow(l, packets, protocol, now) && OnlyTarget(l, after, p, protocol)
    requires p.protocol == protocol ==> p.target in after.lastUsed && after.lastUsed[p.target] == now
    ensures UsedNow(after, packets + [p], protocol, now)
  {
  }

  /** What the packets of a turn do to a listing. */
  ghost predicate Handled(before: Listing, after: Listing, packets: seq<Packet>, protocol: Protocol, now: nat) {
    && UsedNow(after, packets, protocol, now) && Listens(before, after, packets, protocol)
    && QuietOrphansStay(before, after, packets, protocol) && NoneForgotten(before, after)
  }

  lemma HandledStep(before: Listing, mid: Listing, after: Listing, packets: seq<Packet>, i: nat, protocol: Protocol, now: nat)
    requires i < |packets| && Handled(before, mid, packets[..i], protocol, now)
    requires OnlyTarget(mid, after, packets[i], protocol)
    requires packets[i].protocol == protocol ==>
               packets[i].target in after.lastUsed && after.lastUsed[packets[i].target] == now
    ensures Handled(before, after, packets[..i + 1], protocol, now)
  {
    var done, p := packets[..i], packets[i];
    assert packets[..i + 1] == done + [p];
    UsedNowStep(mid, after, done, p, protocol, now);
    ListensStep(before, mid, after, done, p, protocol);
    QuietOrphansStep(before, mid, after, done, p, protocol);
  }

  /** What the rest of a turn does to a listing: a sweep may take entries, but no orphan. */
  lemma QuietOrphansThen(before: Listing, mid: Listing, after: Listing, packets: seq<Packet>, protocol: Protocol)
    requires QuietOrphansStay(before, mid, packets, protocol) && OrphansStay(mid, after)
    ensures QuietOrphansStay(before, after, packets, protocol)
  {
    forall u | u in before.lastUsed && NoPacketFor(packets, protocol, u)
      ensures OrphanStays(before, after, u)
    {
      assert OrphanStays(before, mid, u);
    }
  }

  /** The listeners of accepted connections are no listeners any more. */
  lemma NoneWaits(polled: Tables, after: Listing, ok: Handle -> bool)
    requires Good(polled) && Inverse(after) && AcceptedListeners(polled, after.byTarget, ActiveListeners(polled), ok)
    ensures forall h | h in ActiveListeners(polled) :: h !in after.byHandle
  {
    forall h | h in after.byHandle
      ensures h !in ActiveListeners(polled)
    {
      assert after.byTarget[after.byHandle[h]] == h;
    }
  }

  lemma AcceptedKeepsOrphans(before: Tables, after: Tables, done: set<Handle>, a: Accepting)
    requires Accepted(before, after, done, a)
    ensures OrphansStay(before.tcp, after.tcp)
  {
  }

  /** No turn has a packet of the protocol for `u`. */
  predicate NeverPacketFor(turns: seq<Turn>, protocol: Protocol, u: Target) {
    forall i | 0 <= i < |turns| :: NoPacketFor(turns[i].packets, protocol, u)
  }

  /** Every socket has the state that the poll gave it, if that is one of its kind. */
  ghost predicate AsPolled(sockets: map<Handle, Socket>, states: Handle -> Socket) {
    forall h | h in sockets :: sockets[h].Tcp? == states(h).Tcp? ==> sockets[h] == states(h)
  }

  class Stack {
    const tcp: Listeners
    const udp: Listeners
    var sockets: map<Handle, Socket>
    var tcpFlows: map<Handle, TcpFlow>
    var udpFlows: UdpTable
    var nextSweep: nat

    function Now(): Tables
      reads this, tcp, udp
    {
      Tables(sockets, tcp.Is(), udp.Is(), tcpFlows, udpFlows)
    }

    ghost predicate Valid()
      reads this, tcp, udp
    {
      tcp != udp && Good(Now())
    }

    constructor (now: nat)
      ensures Valid() && fresh(tcp) && fresh(udp) && Now() == NO_TABLES
    {
      tcp := new Listeners();
      udp := new Listeners();
      sockets, tcpFlows, udpFlows := map[], map[], map[];
      nextSweep := now + LISTENER_SWEEP_INTERVAL_MS;
    }

    /** SocketSet::get: panics unless the handle is live and of the kind asked for. */
    function Get(handle: Handle, isTcp: bool): (socket: Socket)
      requires handle in sockets && sockets[handle].Tcp? == isTcp
      reads this
      ensures socket.Tcp? == isTcp
    {
      sockets[handle]
    }

    /** SocketSet::add: any handle that is not in use. */
    method Add(socket: Socket) returns (handle: Handle)
      modifies this
      ensures handle !in old(sockets) && Now() == old(Now()).(sockets := old(sockets)[handle := socket])
      ensures nextSweep == old(nextSweep)
    {
      ghost var free := FreeHandle(sockets.Keys);
      assert free !in sockets;
      handle :| handle !in sockets;
      sockets := sockets[handle := socket];
    }

    /** SocketSet::remove: panics unless the handle is live. */
    method Remove(handle: Handle)
      requires handle in sockets
      modifies this
      ensures Now() == old(Now()).(sockets := old(sockets) - {handle}) && nextSweep == old(nextSweep)
    {
      sockets := sockets - {handle};
    }

    // ---- Listeners ----

    method EnsureTcpListener(target: Target, ok: bool)
      requires tcp != udp
      modifies this, tcp
      ensures Listened(old(Now()), Now(), target, ok) && nextSweep == old(nextSweep)
    {
      if target in tcp.byTarget {
        return;
      }
      var handle := Add(Tcp(LISTENING));
      if ok {
        tcp.Insert(target, handle);
        assert Now() == AddTcp(old(Now()), target, handle);
      } else {
        Remove(handle);
        assert sockets == old(sockets);
      }
    }

    method EnsureUdpListener(target: Target, ok: bool)
      requires tcp != udp
      modifies this, udp
      ensures UdpListened(old(Now()), Now(), target, ok) && nextSweep == old(nextSweep)
    {
      if target in udp.byTarget {
        return;
      }
      var handle := Add(Udp([]));
      if ok {
        udp.Insert(target, handle);
        assert Now() == AddUdp(old(Now()), target, handle);
      } else {
        Remove(handle);
        assert sockets == old(sockets);
      }
    }

    method HandlePacket(p: Packet, now: nat)
      requires Valid()
      modifies this, tcp, udp
      ensures Valid() && nextSweep == old(nextSweep)
      ensures tcpFlows == old(tcpFlows) && udpFlows == old(udpFlows)
      ensures OnlyTarget(old(tcp.Is()), tcp.Is(), p, TCP) && OnlyTarget(old(udp.Is()), udp.Is(), p, UDP)
      ensures OnlyNewSockets(old(sockets), sockets)
      ensures p.protocol.TCP? && !p.ok && p.target !in old(tcp.byTarget) ==> Orphan(tcp.Is(), p.target)
      ensures p.protocol.UDP? && !p.ok && p.target !in old(udp.byTarget) ==> Orphan(udp.Is(), p.target)
      ensures p.protocol.Other? ==> Now() == old(Now())
      ensures p.protocol.TCP? ==>
                exists mid :: Listened(old(Now()), mid, p.target, p.ok) && Now() == mid.(tcp := Touched(mid.tcp, p.target, now))
      ensures p.protocol.UDP? ==>
                exists mid ::
                  UdpListened(old(Now()), mid, p.target, p.ok) && Now() == mid.(udp := Touched(mid.udp, p.target, now))
    {
      match p.protocol {
        case TCP => {
          EnsureTcpListener(p.target, p.ok);
          ghost var mid := Now();
          ListenedKeeps(old(Now()), mid, p.target, p.ok);
          TcpListenedOnly(old(Now()), mid, p, now);
          tcp.Touch(p.target, now);
          TouchKeeps(old(Now()), mid, p.target, p.ok, now);
        }
        case UDP => {
          EnsureUdpListener(p.target, p.ok);
          ghost var mid := Now();
          UdpListenedKeeps(old(Now()), mid, p.target, p.ok);
          UdpListenedOnly(old(Now()), mid, p, now);
          udp.Touch(p.target, now);
          UdpTouchKeeps(old(Now()), mid, p.target, p.ok, now);
        }
        case Other => {
        }
      }
    }

    /** The stack's poll changes what sockets hold, but neither adds, removes nor converts them. */
    method Poll(states: Handle -> Socket)
      requires Valid()
      modifies this
      ensures Valid() && nextSweep == old(nextSweep)
      ensures PolledBy(old(sockets), sockets, states) && Now() == old(Now()).(sockets := sockets)
    {
      ghost var before := Now();
      sockets := map h | h in sockets :: if sockets[h].Tcp? == states(h).Tcp? then states(h) else sockets[h];
      SameKindsKeeps(before, sockets);
      assert Now() == before.(sockets := sockets);
    }

    // ---- TCP ----

    /** The listener's entries go and the flow comes. */
    method TurnIntoFlow(handle: Handle, a: Accepting)
      requires Valid() && handle in tcp.byHandle
      modifies this, tcp
      ensures Valid() && nextSweep == old(nextSweep)
      ensures Now() == Promote(old(Now()), handle, FlowFor(a, handle, old(tcp.byHandle)[handle]))
    {
      ghost var before := Now();
      var target := tcp.RemoveHandle(handle);
      var flow := FlowFor(a, handle, target.value);
      tcpFlows := tcpFlows[handle := flow];
      assert Now() == Promote(before, handle, flow);
      NewFlowCarries(a.name(handle, target.value.ip), a.clock(handle));
      PromoteKeeps(before, handle, flow);
    }

    /** The listener `handle` becomes the flow of its first connection; a new one takes its place. */
    method Accept(handle: Handle, a: Accepting)
      requires Valid() && handle in tcp.byHandle
      modifies this, tcp
      ensures Valid() && nextSweep == old(nextSweep)
      ensures var target := old(tcp.byHandle)[handle];
              && Listened(Promote(old(Now()), handle, FlowFor(a, handle, target)), Now(), target, a.relisten(handle))
              && tcpFlows == old(tcpFlows)[handle := FlowFor(a, handle, target)]
    {
      ghost var before := Now();
      var target := tcp.byHandle[handle];
      TurnIntoFlow(handle, a);
      ghost var mid := Now();
      EnsureTcpListener(target, a.relisten(handle));
      ListenedKeeps(mid, Now(), target, a.relisten(handle));
      ListenedTimed(before, mid, Now(), handle, FlowFor(a, handle, target), a.relisten(handle));
    }

    /** Accepts one more of the connections that `before` had waiting. */
    method AcceptNext(handle: Handle, a: Accepting, ghost before: Tables, ghost done: set<Handle>)
      requires Valid() && Good(before) && Accepted(before, Now(), done, a)
      requires handle in before.tcp.byHandle && handle !in done
      modifies this, tcp
      ensures Valid() && nextSweep == old(nextSweep) && Accepted(before, Now(), done + {handle}, a)
      ensures tcpFlows == old(tcpFlows)[handle := FlowFor(a, handle, before.tcp.byHandle[handle])]
    {
      ghost var now := Now();
      StillListening(before, now, done, handle, a);
      Accept(handle, a);
      AcceptedStep(before, now, Now(), done, handle, a);
    }

    method AcceptThese(accepted: set<Handle>, a: Accepting)
      requires Valid() && accepted <= tcp.byHandle.Keys
      modifies this, tcp
      ensures Valid() && nextSweep == old(nextSweep) && Accepted(old(Now()), Now(), accepted, a)
    {
      ghost var before := Now();
      var todo := accepted;
      ghost var done: set<Handle> := {};
      while todo != {}
        invariant Valid() && nextSweep == old(nextSweep)
        invariant Partition(accepted, done, todo) && Accepted(before, Now(), done, a)
        decreases todo
      {
        var handle :| handle in todo;
        AcceptNext(handle, a, before, done);
        PartitionStep(accepted, done, todo, handle);
        done, todo := done + {handle}, todo - {handle};
      }
      PartitionEnd(accepted, done);
    }

    method AcceptAll(a: Accepting)
      requires Valid()
      modifies this, tcp
      ensures Valid() && nextSweep == old(nextSweep)
      ensures Accepted(old(Now()), Now(), ActiveListeners(old(Now())), a)
    {
      var accepted := set h | h in tcp.byHandle && Get(h, true).socket.active;
      assert accepted == ActiveListeners(Now());
      AcceptThese(accepted, a);
    }

    method ServeFlow(h: Handle, socket: TcpSocket, w: Work)
      requires h in tcpFlows && Carried(tcpFlows[h])
      modifies this
      ensures nextSweep == old(nextSweep) && Now() == ServeOne(old(Now()), h, socket, w)
    {
      sockets := sockets[h := Tcp(socket)];
      tcpFlows := tcpFlows[h := Served(tcpFlows[h], w, socket)];
    }

    /** Serves one more of the flows of `before`. */
    method ServeNext(h: Handle, state: Handle -> TcpSocket, work: Handle -> Work, ghost before: Tables,
                     ghost done: set<Handle>)
      requires Valid() && TcpServed(before, Now(), done, state, work) && h in before.tcpFlows && h !in done
      modifies this
      ensures Valid() && nextSweep == old(nextSweep)
      ensures TcpServed(before, Now(), done + {h}, state, work)
    {
      ServeTcpKeeps(Now(), h, state(h), work(h));
      TcpServedStep(before, Now(), done, h, state, work);
      ServeFlow(h, state(h), work(h));
    }

    /** The per-flow work of a turn: each flow's socket is found, the flow's bytes move, and the flow
        ends when it is refused, its upload gives up or its socket is finished. */
    method ServeTcp(state: Handle -> TcpSocket, work: Handle -> Work)
      requires Valid()
      modifies this
      ensures Valid() && nextSweep == old(nextSweep)
      ensures TcpServed(old(Now()), Now(), old(tcpFlows).Keys, state, work)
    {
      ServeThese(tcpFlows.Keys, state, work);
    }

    method ServeThese(flows: set<Handle>, state: Handle -> TcpSocket, work: Handle -> Work)
      requires Valid() && flows <= tcpFlows.Keys
      modifies this
      ensures Valid() && nextSweep == old(nextSweep)
      ensures TcpServed(old(Now()), Now(), flows, state, work)
    {
      ghost var before := Now();
      var todo := flows;
      ghost var done: set<Handle> := {};
      TcpServedNone(before, state, work);
      while todo != {}
        invariant Valid() && nextSweep == old(nextSweep)
        invariant Partition(flows, done, todo) && TcpServed(before, Now(), done, state, work)
        decreases todo
      {
        var h :| h in todo;
        ServeNext(h, state, work, before, done);
        PartitionStep(flows, done, todo, h);
        done, todo := done + {h}, todo - {h};
      }
      PartitionEnd(flows, done);
    }

    /** Retires one more of the flows that were dead in `before`. */
    method RemoveFlow(h: Handle, ghost before: Tables, ghost done: set<Handle>)
      requires Valid() && Reaped(before, Now(), done) && h in before.tcpFlows && h !in done
      modifies this
      ensures Valid() && nextSweep == old(nextSweep) && Reaped(before, Now(), done + {h})
    {
      ReapedStep(before, Now(), done, h);
      DropTcpFlowKeeps(Now(), h);
      tcpFlows := tcpFlows - {h};
      Remove(h);
    }

    method RemoveFlows(dead: set<Handle>)
      requires Valid() && dead <= tcpFlows.Keys
      modifies this
      ensures Valid() && nextSweep == old(nextSweep) && Reaped(old(Now()), Now(), dead)
    {
      ghost var before := Now();
      var todo := dead;
      ghost var done: set<Handle> := {};
      ReapedNone(before);
      while todo != {}
        invariant Valid() && nextSweep == old(nextSweep)
        invariant Partition(dead, done, todo) && Reaped(before, Now(), done)
        decreases todo
      {
        var h :| h in todo;
        RemoveFlow(h, before, done);
        PartitionStep(dead, done, todo, h);
        done, todo := done + {h}, todo - {h};
      }
      PartitionEnd(dead, done);
    }

    method ReapTcp()
      requires Valid()
      modifies this
      ensures Valid() && nextSweep == old(nextSweep)
      ensures Reaped(old(Now()), Now(), DeadFlows(old(Now())))
    {
      var dead := set h | h in tcpFlows && tcpFlows[h].closed;
      assert dead == DeadFlows(Now());
      RemoveFlows(dead);
    }

    // ---- UDP ----

    /** One datagram of the application; a flow is opened for it while there is room. */
    method Receive(key: Key, data: Datagram, now: nat, drained: nat)
      modifies this`udpFlows
      ensures udpFlows == Received(old(udpFlows), key, data, now, drained)
    {
      if key !in udpFlows && |udpFlows| < MAX_UDP_FLOWS {
        udpFlows := udpFlows[key := Opened(now)];
      }
      if key in udpFlows {
        udpFlows := udpFlows[key := Arrive(udpFlows[key], data, now, drained)];
      }
    }

    method ReceiveInbox(handle: Handle, inbox: seq<Arrival>, now: nat, drained: nat -> nat)
      modifies this`udpFlows
      ensures udpFlows == ReceivedAll(old(udpFlows), handle, inbox, now, drained)
    {
      for i := 0 to |inbox|
        invariant udpFlows == ReceivedAll(old(udpFlows), handle, inbox[..i], now, drained)
      {
        assert inbox[..i + 1][..i] == inbox[..i];
        Receive(KeyOf(handle, inbox[i]), inbox[i].data, now, drained(i));
      }
      assert inbox[..|inbox|] == inbox;
    }

    /** Empties the inbox of one listener into its flows. */
    method ReceiveAll(handle: Handle, now: nat, drained: nat -> nat)
      requires Valid() && handle in udp.byHandle
      modifies this
      ensures Valid() && nextSweep == old(nextSweep) && handle in old(sockets) && old(sockets)[handle].Udp?
      ensures Now() == old(Now()).(sockets := old(sockets)[handle := Udp([])],
                                   udpFlows := ReceivedAll(old(udpFlows), handle, old(sockets)[handle].inbox, now, drained))
    {
      ghost var before := Now();
      var inbox := Get(handle, false).inbox;
      sockets := sockets[handle := Udp([])];
      ReceiveInbox(handle, inbox, now, drained);
      InboxKeeps(before, handle, now, drained);
    }

    method ServeUdpFlow(k: Key, now: nat, outcome: Connect, received: seq<Returned>, ended: bool, drained: nat -> nat)
      requires k in udpFlows && FlowInv(udpFlows[k])
      modifies this
      ensures nextSweep == old(nextSweep) && Now() == old(Now()).(udpFlows := udpFlows)
      ensures k in udpFlows && udpFlows == old(udpFlows)[k := udpFlows[k]]
      ensures FlowInv(udpFlows[k]) && Serviced(old(udpFlows)[k], udpFlows[k], outcome, now, received, ended)
    {
      var g := Service(udpFlows[k], outcome, now, drained, received, ended);
      udpFlows := udpFlows[k := g];
    }

    /** One pass over the flows of one listener. */
    method ServeUdp(handle: Handle, w: UdpWork)
      requires Valid() && handle in udp.byHandle
      modifies this
      ensures Valid() && nextSweep == old(nextSweep) && Now() == old(Now()).(udpFlows := udpFlows)
      ensures UdpServed(old(udpFlows), udpFlows, FlowsOf(old(udpFlows), handle), w)
    {
      ghost var before := Now();
      var todo := set k | k in udpFlows && k.handle == handle;
      ghost var done: set<Key> := {};
      assert todo == FlowsOf(before.udpFlows, handle);
      while todo != {}
        invariant nextSweep == old(nextSweep) && Now() == before.(udpFlows := udpFlows)
        invariant Partition(FlowsOf(before.udpFlows, handle), done, todo)
        invariant UdpServed(before.udpFlows, udpFlows, done, w)
        decreases todo
      {
        var k :| k in todo;
        ghost var flows := udpFlows;
        ServeUdpFlow(k, w.now, w.outcome(k), w.received(k), w.ended(k), w.flushed(k));
        UdpServedStep(before.udpFlows, flows, done, w, k, udpFlows[k]);
        PartitionStep(FlowsOf(before.udpFlows, handle), done, todo, k);
        done, todo := done + {k}, todo - {k};
      }
      PartitionEnd(FlowsOf(before.udpFlows, handle), done);
      UdpServedFits(before.udpFlows, udpFlows, done, w, before.udp.byHandle);
    }

    method ReapUdp(now: nat)
      requires Valid()
      modifies this
      ensures Valid() && nextSweep == old(nextSweep)
      ensures Now() == old(Now()).(udpFlows := udpFlows)
      ensures udpFlows == Unexpired(old(udpFlows), now)
    {
      var before := udpFlows;
      UnexpiredFits(before, udp.byHandle, now);
      udpFlows := map k | k in before && !Expired(before[k], now) :: before[k];
      assert udpFlows == Unexpired(before, now);
    }

    /** The inbox and the flows of one listener. */
    method ProcessListener(handle: Handle, w: UdpWork, ghost before: Tables, ghost done: set<Handle>)
      requires Valid() && handle in udp.byHandle && handle !in done && before.udp == udp.Is()
      requires UdpProcessed(before, sockets, udpFlows, done, w)
      modifies this
      ensures Valid() && nextSweep == old(nextSweep)
      ensures Now() == old(Now()).(sockets := sockets, udpFlows := udpFlows)
      ensures UdpProcessed(before, sockets, udpFlows, done + {handle}, w)
    {
      ghost var flows, live := udpFlows, sockets;
      ReceiveAll(handle, w.now, w.drained(handle));
      ServeUdp(handle, w);
      UdpProcessedStep(before, live, flows, done, handle, udpFlows, w);
    }

    method ProcessListeners(targets: set<Target>, w: UdpWork)
      requires Valid() && targets == udp.byTarget.Keys
      modifies this
      ensures Valid() && nextSweep == old(nextSweep)
      ensures Now() == old(Now()).(sockets := sockets, udpFlows := udpFlows)
      ensures UdpProcessed(old(Now()), sockets, udpFlows, old(udp.byHandle.Keys), w)
    {
      ghost var before := Now();
      var todo := targets;
      ghost var done: set<Handle> := {};
      while todo != {}
        invariant Valid() && nextSweep == old(nextSweep) && Now() == before.(sockets := sockets, udpFlows := udpFlows)
        invariant todo <= targets && WorkedOff(before.udp, done, todo)
        invariant UdpProcessed(before, sockets, udpFlows, done, w)
        decreases todo
      {
        var t :| t in todo;
        var handle := udp.byTarget[t];
        ProcessListener(handle, w, before, done);
        WorkedOffStep(before.udp, done, todo, t);
        done, todo := done + {handle}, todo - {t};
      }
      assert done == before.udp.byHandle.Keys;
    }

    /** Every inbox is emptied into the flows in arrival order and every flow has its pass, which leads to the
        flows `served`; then the flows that ended or went idle are dropped. */
    method ProcessUdp(w: UdpWork) returns (ghost served: UdpTable)
      requires Valid()
      modifies this
      ensures Valid() && nextSweep == old(nextSweep)
      ensures Now() == old(Now()).(sockets := sockets, udpFlows := udpFlows)
      ensures UdpProcessed(old(Now()), sockets, served, old(udp.byHandle.Keys), w) && udpFlows == Unexpired(served, w.now)
    {
      ProcessListeners(udp.byTarget.Keys, w);
      served := udpFlows;
      ReapUdp(w.now);
    }

    // ---- Sweeping ----

    method RemoveTcpListener(h: Handle)
      requires h in sockets && h in tcp.byHandle && tcp != udp
      modifies this, tcp
      ensures nextSweep == old(nextSweep) && Now() == DropTcp(old(Now()), h)
    {
      var target := tcp.RemoveHandle(h);
      if target.Some? {
        tcp.Forget(target.value);
      }
      Remove(h);
    }

    /** Drops one more of the listeners that were stale in `before`. */
    method SweepTcpNext(h: Handle, ghost before: Tables, ghost done: set<Handle>)
      requires Valid() && Inverse(before.tcp) && TcpSwept(before, Now(), done)
      requires h in before.tcp.byHandle && h !in done
      modifies this, tcp
      ensures Valid() && nextSweep == old(nextSweep) && TcpSwept(before, Now(), done + {h})
    {
      TcpSweptStep(before, Now(), done, h);
      DropTcpKeeps(Now(), h);
      RemoveTcpListener(h);
    }

    method RemoveUdpListener(h: Handle)
      requires h in sockets && h in udp.byHandle && tcp != udp
      modifies this, udp
      ensures nextSweep == old(nextSweep) && Now() == DropUdp(old(Now()), h)
    {
      var target := udp.RemoveHandle(h);
      if target.Some? {
        udp.Forget(target.value);
      }
      Remove(h);
    }

    /** Drops one more of the listeners that were stale in `before`. */
    method SweepUdpNext(h: Handle, ghost before: Tables, ghost done: set<Handle>)
      requires Valid() && Inverse(before.udp) && UdpSwept(before, Now(), done)
      requires h in before.udp.byHandle && h !in done && forall k | k in before.udpFlows :: k.handle != h
      modifies this, udp
      ensures Valid() && nextSweep == old(nextSweep) && UdpSwept(before, Now(), done + {h})
    {
      UdpSweptStep(before, Now(), done, h);
      DropUdpKeeps(Now(), h);
      RemoveUdpListener(h);
    }

    method RemoveTcpListeners(stale: set<Handle>)
      requires Valid() && stale <= tcp.byHandle.Keys
      modifies this, tcp
      ensures Valid() && nextSweep == old(nextSweep) && TcpSwept(old(Now()), Now(), stale)
    {
      ghost var before := Now();
      var todo := stale;
      ghost var done: set<Handle> := {};
      TcpSweptNone(before);
      while todo != {}
        invariant Valid() && nextSweep == old(nextSweep)
        invariant Partition(stale, done, todo) && TcpSwept(before, Now(), done)
        decreases todo
      {
        var h :| h in todo;
        SweepTcpNext(h, before, done);
        PartitionStep(stale, done, todo, h);
        done, todo := done + {h}, todo - {h};
      }
      PartitionEnd(stale, done);
    }

    method SweepTcp(now: nat)
      requires Valid()
      modifies this, tcp
      ensures Valid() && nextSweep == old(nextSweep)
      ensures TcpSwept(old(Now()), Now(), StaleTcp(old(Now()), now))
    {
      var stale := set h | h in tcp.byHandle && Idle(tcp.Is(), tcp.byHandle[h], now) && Get(h, true).socket.state.Listen?;
      assert stale == StaleTcp(Now(), now);
      RemoveTcpListeners(stale);
    }

    /** Listeners without flows. */
    method RemoveUdpListeners(stale: set<Handle>)
      requires Valid() && stale <= udp.byHandle.Keys && forall k | k in udpFlows :: k.handle !in stale
      modifies this, udp
      ensures Valid() && nextSweep == old(nextSweep) && UdpSwept(old(Now()), Now(), stale)
    {
      ghost var before := Now();
      var todo := stale;
      ghost var done: set<Handle> := {};
      UdpSweptNone(before);
      while todo != {}
        invariant Valid() && nextSweep == old(nextSweep)
        invariant Partition(stale, done, todo) && UdpSwept(before, Now(), done)
        decreases todo
      {
        var h :| h in todo;
        SweepUdpNext(h, before, done);
        PartitionStep(stale, done, todo, h);
        done, todo := done + {h}, todo - {h};
      }
      PartitionEnd(stale, done);
    }

    method SweepUdp(now: nat)
      requires Valid()
      modifies this, udp
      ensures Valid() && nextSweep == old(nextSweep)
      ensures UdpSwept(old(Now()), Now(), StaleUdp(old(Now()), now))
    {
      var stale := set h | h in udp.byHandle && Idle(udp.Is(), udp.byHandle[h], now)
                           && forall k | k in udpFlows :: k.handle != h;
      assert stale == StaleUdp(Now(), now);
      RemoveUdpListeners(stale);
    }

    // ---- The loop ----

    /** One more packet. */
    method HandleNext(packets: seq<Packet>, i: nat, now: nat, ghost tcp0: Listing, ghost udp0: Listing,
                      ghost sockets0: map<Handle, Socket>)
      requires Valid() && OnlyNewSockets(sockets0, sockets) && i < |packets|
      requires Handled(tcp0, tcp.Is(), packets[..i], TCP, now) && Handled(udp0, udp.Is(), packets[..i], UDP, now)
      modifies this, tcp, udp
      ensures Valid() && nextSweep == old(nextSweep) && tcpFlows == old(tcpFlows) && udpFlows == old(udpFlows)
      ensures OnlyNewSockets(sockets0, sockets)
      ensures Handled(tcp0, tcp.Is(), packets[..i + 1], TCP, now) && Handled(udp0, udp.Is(), packets[..i + 1], UDP, now)
    {
      ghost var tcp1, udp1, sockets1 := tcp.Is(), udp.Is(), sockets;
      HandlePacket(packets[i], now);
      HandledStep(tcp0, tcp1, tcp.Is(), packets, i, TCP, now);
      HandledStep(udp0, udp1, udp.Is(), packets, i, UDP, now);
      NewSocketsStep(sockets0, sockets1, sockets);
    }

    method HandlePackets(packets: seq<Packet>, now: nat)
      requires Valid()
      modifies this, tcp, udp
      ensures Valid() && nextSweep == old(nextSweep)
      ensures tcpFlows == old(tcpFlows) && udpFlows == old(udpFlows)
      ensures Handled(old(tcp.Is()), tcp.Is(), packets, TCP, now) && Handled(old(udp.Is()), udp.Is(), packets, UDP, now)
      ensures OnlyNewSockets(old(sockets), sockets)
    {
      ghost var tcp0, udp0, sockets0 := tcp.Is(), udp.Is(), sockets;
      for i := 0 to |packets|
        invariant Valid() && nextSweep == old(nextSweep) && tcpFlows == old(tcpFlows) && udpFlows == old(udpFlows)
        invariant Handled(tcp0, tcp.Is(), packets[..i], TCP, now) && Handled(udp0, udp.Is(), packets[..i], UDP, now)
        invariant OnlyNewSockets(sockets0, sockets)
      {
        HandleNext(packets, i, now, tcp0, udp0, sockets0);
      }
      assert packets[..|packets|] == packets;
    }

    method Sweep(now: nat)
      requires Valid()
      modifies this, tcp, udp
      ensures Valid() && nextSweep == old(nextSweep)
      ensures Now() == old(Now()).(sockets := sockets, tcp := tcp.Is(), udp := udp.Is())
      ensures StaleTcp(Now(), now) == {} && StaleUdp(Now(), now) == {}
      ensures KeptInUse(old(tcp.Is()), tcp.Is(), now) && KeptInUse(old(udp.Is()), udp.Is(), now)
      ensures OrphansStay(old(tcp.Is()), tcp.Is()) && OrphansStay(old(udp.Is()), udp.Is())
      ensures tcp.byHandle.Keys <= old(tcp.byHandle).Keys
      ensures forall h | h in sockets :: h in old(sockets) && sockets[h] == old(sockets)[h]
    {
      ghost var before := Now();
      SweepTcp(now);
      ghost var mid := Now();
      TcpSweepIsComplete(before, mid, now);
      SweepKeepsOrphans(before.tcp, mid.tcp, StaleTcp(before, now));
      SweepUdp(now);
      UdpSweepIsComplete(mid, Now(), now);
      SweepKeepsOrphans(mid.udp, Now().udp, StaleUdp(mid, now));
    }

    /** The TCP flows of a turn: connections are accepted, flows served, and those that ended retired. */
    method MoveTcp(turn: Turn)
      requires Valid()
      modifies this, tcp
      ensures Valid() && nextSweep == old(nextSweep) && udp.Is() == old(udp.Is()) && udpFlows == old(udpFlows)
      ensures TcpTurned(old(Now()), tcpFlows, turn.accepting, turn.served, turn.work) && DeadFlows(Now()) == {}
      ensures forall h | h in udp.byHandle :: InboxOf(sockets, h) == old(InboxOf(sockets, h))
      ensures AcceptedListeners(old(Now()), tcp.byTarget, old(ActiveListeners(Now())), turn.accepting.relisten)
      ensures tcp.lastUsed == old(tcp.lastUsed) && OrphansStay(old(tcp.Is()), tcp.Is())
    {
      ghost var before := Now();
      AcceptAll(turn.accepting);
      AcceptedKeepsOrphans(before, Now(), ActiveListeners(before), turn.accepting);
      ghost var accepted := Now();
      ServeTcp(turn.served, turn.work);
      ghost var served := Now();
      ReapTcp();
      TcpTurns(before, accepted, served, Now(), turn.accepting, turn.served, turn.work);
      forall h | h in udp.byHandle
        ensures InboxOf(sockets, h) == InboxOf(before.sockets, h)
      {
        InboxesStay(before, accepted, served, Now(), turn.accepting, turn.served, turn.work, h);
      }
    }

    /** What a turn does between the stack's two polls, to the tables `polled` of after the first. */
    ghost predicate Moved(turn: Turn, polled: Tables, served: UdpTable)
      reads this, tcp, udp
    {
      && TcpTurned(polled, tcpFlows, turn.accepting, turn.served, turn.work) && DeadFlows(Now()) == {}
      && FlowsProcessed(polled.udpFlows, Inboxes(polled.sockets), served, polled.udp.byHandle.Keys, turn.udp)
      && udpFlows == Unexpired(served, turn.udp.now)
    }

    /** The flows of a turn, TCP then UDP, between the stack's two polls. */
    method MoveFlows(turn: Turn) returns (ghost polled: Tables, ghost served: UdpTable)
      requires Valid()
      modifies this, tcp
      ensures Valid() && nextSweep == old(nextSweep)
      ensures polled == old(Now()).(sockets := polled.sockets) && PolledBy(old(sockets), polled.sockets, turn.polled)
      ensures Good(polled) && Moved(turn, polled, served)
      ensures AcceptedListeners(polled, tcp.byTarget, ActiveListeners(polled), turn.accepting.relisten)
      ensures AsPolled(sockets, turn.polledAgain)
      ensures tcp.lastUsed == old(tcp.lastUsed) && udp.Is() == old(udp.Is())
      ensures OrphansStay(old(tcp.Is()), tcp.Is())
    {
      Poll(turn.polled);
      polled := Now();
      MoveTcp(turn);
      ghost var mid := Now();
      served := ProcessUdp(turn.udp);
      FlowsProcessedAgrees(mid.udpFlows, Inboxes(mid.sockets), Inboxes(polled.sockets), served, polled.udp.byHandle.Keys,
                           turn.udp);
      Poll(turn.polledAgain);
    }

    /** The state after the packets and the first poll of a turn. */
    ghost predicate PolledFrom(before: Tables, polled: Tables, turn: Turn) {
      && Listens(before.tcp, polled.tcp, turn.packets, TCP) && Listens(before.udp, polled.udp, turn.packets, UDP)
      && polled.tcpFlows == before.tcpFlows && polled.udpFlows == before.udpFlows
      && exists mid :: OnlyNewSockets(before.sockets, mid) && PolledBy(mid, polled.sockets, turn.polled)
    }

    /** One turn, by way of the tables `polled` of after the packets and the first poll, and of the UDP flows
        `served` that had their pass. No connection is left waiting: its listener is gone and, unless it has
        ended at once, its flow is there; every flow has been served; every datagram that waited is in its
        flow's account. No ended or expired flow is left, every destination of a packet was used just now, and,
        when a sweep was due, no listener is left that could go. Orphans without packets stay, and unless a sweep
        was due no time of last use is forgotten and every listener of before is there or replaced. */
    method OneTurn(turn: Turn) returns (ghost polled: Tables, ghost served: UdpTable)
      requires Valid()
      modifies this, tcp, udp
      ensures Valid()
      ensures nextSweep == if turn.now >= old(nextSweep) then turn.now + LISTENER_SWEEP_INTERVAL_MS else old(nextSweep)
      ensures PolledFrom(old(Now()), polled, turn) && Good(polled) && Moved(turn, polled, served)
      ensures forall h | h in ActiveListeners(polled) :: h !in tcp.byHandle
      ensures AsPolled(sockets, turn.polledAgain)
      ensures turn.now < old(nextSweep) ==>
                AcceptedListeners(polled, tcp.byTarget, ActiveListeners(polled), turn.accepting.relisten)
      ensures UsedNow(tcp.Is(), turn.packets, TCP, turn.now) && UsedNow(udp.Is(), turn.packets, UDP, turn.now)
      ensures turn.now >= old(nextSweep) ==> StaleTcp(Now(), turn.now) == {} && StaleUdp(Now(), turn.now) == {}
      ensures QuietOrphansStay(old(tcp.Is()), tcp.Is(), turn.packets, TCP)
      ensures QuietOrphansStay(old(udp.Is()), udp.Is(), turn.packets, UDP)
      ensures turn.now < old(nextSweep) ==> NoneForgotten(old(tcp.Is()), tcp.Is()) && NoneForgotten(old(udp.Is()), udp.Is())
    {
      ghost var tcp0, udp0 := tcp.Is(), udp.Is();
      HandlePackets(turn.packets, turn.now);
      ghost var tcp1 := tcp.Is();
      polled, served := MoveFlows(turn);
      QuietOrphansThen(tcp0, tcp1, tcp.Is(), turn.packets, TCP);
      NoneWaits(polled, tcp.Is(), turn.accepting.relisten);
      if turn.now >= nextSweep {
        nextSweep := turn.now + LISTENER_SWEEP_INTERVAL_MS;
        ghost var tcp2, udp2 := tcp.Is(), udp.Is();
        Sweep(turn.now);
        InUseSurvives(tcp2, tcp.Is(), turn.packets, TCP, turn.now);
        InUseSurvives(udp2, udp.Is(), turn.packets, UDP, turn.now);
        QuietOrphansThen(tcp0, tcp2, tcp.Is(), turn.packets, TCP);
        QuietOrphansThen(udp0, udp2, udp.Is(), turn.packets, UDP);
      }
    }

    /** The tables agree after any number of turns of any kind, every flow's bytes are accounted for, and
        a time of last use without a listener stays for as long as no packet comes for its target. */
    method RunStack(turns: seq<Turn>)
      requires Valid()
      modifies this, tcp, udp
      ensures Valid()
      ensures forall h | h in tcpFlows :: Conserves(tcpFlows[h])
      ensures forall u | u in old(tcp.lastUsed) && NeverPacketFor(turns, TCP, u) :: OrphanStays(old(tcp.Is()), tcp.Is(), u)
      ensures forall u | u in old(udp.lastUsed) && NeverPacketFor(turns, UDP, u) :: OrphanStays(old(udp.Is()), udp.Is(), u)
    {
      ghost var tcp0, udp0 := tcp.Is(), udp.Is();
      for i := 0 to |turns|
        invariant Valid()
        invariant forall u | u in tcp0.lastUsed && NeverPacketFor(turns[..i], TCP, u) :: OrphanStays(tcp0, tcp.Is(), u)
        invariant forall u | u in udp0.lastUsed && NeverPacketFor(turns[..i], UDP, u) :: OrphanStays(udp0, udp.Is(), u)
      {
        ghost var tcp1, udp1 := tcp.Is(), udp.Is();
        var _, _ := OneTurn(turns[i]);
        NeverStep(tcp0, tcp1, tcp.Is(), turns, i, TCP);
        NeverStep(udp0, udp1, udp.Is(), turns, i, UDP);
      }
      assert turns[..|turns|] == turns;
      forall h | h in tcpFlows
        ensures Conserves(tcpFlows[h])
      {
        FlowConserves(tcpFlows[h]);
      }
    }
  }

  /** An entry that is never swept: on a new stack one packet whose target cannot be listened for, then
      any turns without packets for it. */
  method OrphanForever(start: nat, now: nat, target: Target, turns: seq<Turn>) returns (stack: Stack)
    requires NeverPacketFor(turns, TCP, target)
    ensures fresh(stack) && stack.Valid() && Orphan(stack.tcp.Is(), target) && stack.tcp.lastUsed[target] == now
  {
    stack := new Stack(start);
    stack.HandlePacket(Packet(TCP, target, false), now);
    stack.RunStack(turns);
  }

  lemma NeverStep(l0: Listing, l1: Listing, l2: Listing, turns: seq<Turn>, i: nat, protocol: Protocol)
    requires i < |turns| && QuietOrphansStay(l1, l2, turns[i].packets, protocol)
    requires forall u | u in l0.lastUsed && NeverPacketFor(turns[..i], protocol, u) :: OrphanStays(l0, l1, u)
    ensures forall u | u in l0.lastUsed && NeverPacketFor(turns[..i + 1], protocol, u) :: OrphanStays(l0, l2, u)
  {
    forall u | u in l0.lastUsed && NeverPacketFor(turns[..i + 1], protocol, u)
      ensures OrphanStays(l0, l2, u)
    {
      assert turns[..i + 1][i] == turns[i];
      assert forall k | 0 <= k < i :: turns[..i + 1][k] == turns[..i][k];
      assert NeverPacketFor(turns[..i], protocol, u);
    }
  }
}

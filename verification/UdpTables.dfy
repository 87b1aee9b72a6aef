/** The table of UDP flows: what arriving datagrams and a pass over the flows of a listener make of it. */
module UdpTables {
  import opened Network
  import opened UdpFlows

  type Handle = nat

  datatype Target = Target(ip: Ipv4, port: nat)

  datatype Arrival = Arrival(ip: Ipv4, port: nat, data: Datagram)

  datatype Key = Key(handle: Handle, ip: Ipv4, port: nat)

  type UdpTable = map<Key, UdpFlow>

  /** What befalls the flows during a pass: the clock, the outcomes of connection attempts, what comes back from
      the tunnels and which readers are gone, and what the writers take while datagrams arrive and while
      a flow flushes. */
  datatype UdpWork = UdpWork(
    now: nat,
    outcome: Key -> Connect,
    received: Key -> seq<Returned>,
    ended: Key -> bool,
    drained: Handle -> nat -> nat,
    flushed: Key -> nat -> nat)

  /** Every UDP flow hangs on a live UDP listener; flows are few and in order. */
  ghost predicate FlowsFit(flows: UdpTable, udp: map<Handle, Target>) {
    && (forall k | k in flows :: k.handle in udp)
    && (forall k | k in flows :: FlowInv(flows[k]))
    && |flows| <= MAX_UDP_FLOWS
  }

  // ---- Arrivals ----

  /** One datagram of the application; a flow is opened for it while there is room. */
  function Received(flows: UdpTable, key: Key, data: Datagram, now: nat, drained: nat): UdpTable {
    if key in flows then flows[key := Arrive(flows[key], data, now, drained)]
    else if |flows| < MAX_UDP_FLOWS then flows[key := Arrive(Opened(now), data, now, drained)]
    else flows
  }

  lemma ReceivedFits(flows: UdpTable, udp: map<Handle, Target>, key: Key, data: Datagram, now: nat, drained: nat)
    requires FlowsFit(flows, udp) && key.handle in udp
    ensures FlowsFit(Received(flows, key, data, now, drained), udp)
    ensures |flows| <= |Received(flows, key, data, now, drained)|
  {
    var flow := if key in flows then flows[key] else Opened(now);
    ArriveKeeps(flow, data, now, drained);
    var more := flows[key := Arrive(flow, data, now, drained)];
    assert more.Keys == flows.Keys + {key};
    assert |more| == |more.Keys| && |flows| == |flows.Keys|;
    if key in flows {
      assert more.Keys == flows.Keys;
    }
  }

  function KeyOf(handle: Handle, a: Arrival): Key {
    Key(handle, a.ip, a.port)
  }

  /** What a whole inbox does to the flows, datagram by datagram. */
  function ReceivedAll(flows: UdpTable, handle: Handle, inbox: seq<Arrival>, now: nat, drained: nat -> nat): UdpTable {
    if inbox == [] then flows
    else
      var i := |inbox| - 1;
      Received(ReceivedAll(flows, handle, inbox[..i], now, drained), KeyOf(handle, inbox[i]), inbox[i].data, now, drained(i))
  }

  /** The datagrams of one sender, in arrival order. */
  function SentBy(inbox: seq<Arrival>, ip: Ipv4, port: nat): seq<Datagram> {
    if inbox == [] then []
    else
      var a := inbox[|inbox| - 1];
      SentBy(inbox[..|inbox| - 1], ip, port) + if a.ip == ip && a.port == port then [a.data] else []
  }

  lemma {:induction false} ReceivedAllKeeps(flows: UdpTable, udp: map<Handle, Target>, handle: Handle, inbox: seq<Arrival>,
                                            now: nat, drained: nat -> nat)
    requires FlowsFit(flows, udp) && handle in udp
    ensures var after := ReceivedAll(flows, handle, inbox, now, drained);
            && FlowsFit(after, udp) && |flows| <= |after|
            && (forall k | k in flows :: k in after)
            && (forall k | k in after && k.handle != handle :: k in flows && after[k] == flows[k])
  {
    if inbox != [] {
      var i := |inbox| - 1;
      ReceivedAllKeeps(flows, udp, handle, inbox[..i], now, drained);
      ReceivedFits(ReceivedAll(flows, handle, inbox[..i], now, drained), udp, KeyOf(handle, inbox[i]), inbox[i].data, now,
                   drained(i));
    }
  }

  /** A flow is opened only for a sender of the inbox, and a sender whose first datagram found the table full
      is not admitted by a later one. */
  lemma {:induction false} NoLateAdmission(flows: UdpTable, handle: Handle, inbox: seq<Arrival>, now: nat,
                                           drained: nat -> nat, k: Key)
    requires k.handle == handle && k !in flows
    ensures var after := ReceivedAll(flows, handle, inbox, now, drained);
            && (k !in after && SentBy(inbox, k.ip, k.port) != [] ==> |after| >= MAX_UDP_FLOWS)
            && (k in after ==> SentBy(inbox, k.ip, k.port) != [])
  {
    if inbox != [] {
      var i := |inbox| - 1;
      NoLateAdmission(flows, handle, inbox[..i], now, drained, k);
      var mid := ReceivedAll(flows, handle, inbox[..i], now, drained);
      var key := KeyOf(handle, inbox[i]);
      if |mid| >= MAX_UDP_FLOWS && key in mid {
        assert mid[key := Arrive(mid[key], inbox[i].data, now, drained(i))].Keys == mid.Keys;
      }
    }
  }

  // ---- What becomes of the datagrams of one sender ----

  function FirstFew(s: seq<Datagram>): seq<Datagram> {
    if |s| <= UDP_PENDING_DATAGRAMS then s else s[..UDP_PENDING_DATAGRAMS]
  }

  /** What a connected flow takes of its sender's datagrams, counted without its queue: how many wait before
      each of them decides. */
  datatype Admission = Admission(sent: seq<Datagram>, backlog: nat)

  function Admitted(backlog: nat, inbox: seq<Arrival>, ip: Ipv4, port: nat, drained: nat -> nat): Admission {
    if inbox == [] then Admission([], backlog)
    else
      var i := |inbox| - 1;
      var before := Admitted(backlog, inbox[..i], ip, port, drained);
      if inbox[i].ip == ip && inbox[i].port == port then OneMore(before, inbox[i].data, drained(i)) else before
  }

  /** One more datagram: it is dropped exactly if as many as the queue holds are still waiting. */
  function OneMore(a: Admission, data: Datagram, drained: nat): Admission {
    var left := if drained < a.backlog then a.backlog - drained else 0;
    if left >= UDP_PENDING_DATAGRAMS then Admission(a.sent, left) else Admission(a.sent + [data], left + 1)
  }

  /** The datagrams taken are the sender's, in order; all of them are if there is room for all. */
  lemma {:induction false} AdmittedInOrder(backlog: nat, inbox: seq<Arrival>, ip: Ipv4, port: nat, drained: nat -> nat)
    ensures var got, a := SentBy(inbox, ip, port), Admitted(backlog, inbox, ip, port, drained);
            && Subsequence(a.sent, got) && a.backlog <= backlog + |got|
            && (backlog + |got| <= UDP_PENDING_DATAGRAMS ==> a.sent == got)
  {
    if inbox != [] {
      var i := |inbox| - 1;
      AdmittedInOrder(backlog, inbox[..i], ip, port, drained);
      var got, a := SentBy(inbox[..i], ip, port), Admitted(backlog, inbox[..i], ip, port, drained);
      if inbox[i].ip == ip && inbox[i].port == port {
        assert (got + [inbox[i].data])[..|got|] == got;
        assert (a.sent + [inbox[i].data])[..|a.sent|] == a.sent;
      } else {
        assert got + [] == got;
      }
    }
  }

  /** `g` is `f` after its sender's datagrams `got`: a connecting flow keeps the first few, in order; a
      connected one sends those admitted. */
  ghost predicate Got(f: UdpFlow, g: UdpFlow, got: seq<Datagram>, admitted: Admission, now: nat) {
    && g == f.(lastActivity := if got == [] then f.lastActivity else now, pending := g.pending, kept := g.kept,
               queue := g.queue, sent := g.sent)
    && (if f.upload then g.pending == f.pending && g.kept == f.kept && g.sent == f.sent + admitted.sent
                         && |g.queue| == admitted.backlog
        else g.pending == FirstFew(f.pending + got) && g.kept == g.pending && g.queue == f.queue && g.sent == f.sent)
  }

  function FlowAt(flows: UdpTable, k: Key, now: nat): UdpFlow {
    if k in flows then flows[k] else Opened(now)
  }

  lemma GotNothing(f: UdpFlow, now: nat)
    requires FlowInv(f)
    ensures Got(f, f, [], Admission([], |f.queue|), now)
  {
    assert f.pending + [] == f.pending;
    assert f.sent + [] == f.sent;
  }

  lemma GotSent(f: UdpFlow, g: UdpFlow, got: seq<Datagram>, admitted: Admission, data: Datagram, now: nat, drained: nat)
    requires FlowInv(f) && FlowInv(g) && Got(f, g, got, admitted, now) && f.upload
    ensures Got(f, Arrive(g, data, now, drained), got + [data], OneMore(admitted, data, drained), now)
  {
    ArriveConnected(g, data, now, drained);
    assert f.sent + (admitted.sent + [data]) == g.sent + [data];
  }

  lemma GotKept(f: UdpFlow, g: UdpFlow, got: seq<Datagram>, admitted: Admission, data: Datagram, now: nat, drained: nat)
    requires FlowInv(f) && FlowInv(g) && Got(f, g, got, admitted, now) && !f.upload
    ensures Got(f, Arrive(g, data, now, drained), got + [data], OneMore(admitted, data, drained), now)
  {
    ArriveConnecting(g, data, now, drained);
    assert f.pending + (got + [data]) == (f.pending + got) + [data];
  }

  /** Each flow of a listener has got exactly its own sender's datagrams of the inbox. */
  lemma {:induction false} ReceivedGot(flows: UdpTable, udp: map<Handle, Target>, handle: Handle, inbox: seq<Arrival>,
                                       now: nat, drained: nat -> nat, k: Key)
    requires FlowsFit(flows, udp) && handle in udp && k.handle == handle
    requires k in ReceivedAll(flows, handle, inbox, now, drained)
    ensures var f := FlowAt(flows, k, now);
            Got(f, ReceivedAll(flows, handle, inbox, now, drained)[k], SentBy(inbox, k.ip, k.port),
                Admitted(|f.queue|, inbox, k.ip, k.port, drained), now)
  {
    var f := FlowAt(flows, k, now);
    if inbox == [] {
      GotNothing(f, now);
    } else {
      var i := |inbox| - 1;
      var mid := ReceivedAll(flows, handle, inbox[..i], now, drained);
      ReceivedAllKeeps(flows, udp, handle, inbox[..i], now, drained);
      if k in mid {
        ReceivedGot(flows, udp, handle, inbox[..i], now, drained, k);
      } else {
        NoLateAdmission(flows, handle, inbox[..i], now, drained, k);
        NothingAdmitted(|f.queue|, inbox[..i], k.ip, k.port, drained);
        GotNothing(f, now);
      }
      if KeyOf(handle, inbox[i]) == k {
        var g, got := FlowAt(mid, k, now), SentBy(inbox[..i], k.ip, k.port);
        if f.upload {
          GotSent(f, g, got, Admitted(|f.queue|, inbox[..i], k.ip, k.port, drained), inbox[i].data, now, drained(i));
        } else {
          GotKept(f, g, got, Admitted(|f.queue|, inbox[..i], k.ip, k.port, drained), inbox[i].data, now, drained(i));
        }
      } else {
        assert SentBy(inbox[..i], k.ip, k.port) + [] == SentBy(inbox[..i], k.ip, k.port);
      }
    }
  }

  lemma {:induction false} NothingAdmitted(backlog: nat, inbox: seq<Arrival>, ip: Ipv4, port: nat, drained: nat -> nat)
    requires SentBy(inbox, ip, port) == []
    ensures Admitted(backlog, inbox, ip, port, drained) == Admission([], backlog)
  {
    if inbox != [] {
      NothingAdmitted(backlog, inbox[..|inbox| - 1], ip, port, drained);
    }
  }

  // ---- Passes ----

  /** The flows in `done` have had their pass; the others are as before. */
  ghost predicate UdpServed(before: UdpTable, after: UdpTable, done: set<Key>, w: UdpWork) {
    && before.Keys == after.Keys
    && (forall k | k in before && k !in done :: after[k] == before[k])
    && (forall k | k in before && k in done ::
          FlowInv(after[k]) && Serviced(before[k], after[k], w.outcome(k), w.now, w.received(k), w.ended(k)))
  }

  ghost function FlowsOf(flows: UdpTable, handle: Handle): set<Key> {
    set k | k in flows && k.handle == handle
  }

  lemma UdpServedStep(before: UdpTable, now: UdpTable, done: set<Key>, w: UdpWork, k: Key, g: UdpFlow)
    requires UdpServed(before, now, done, w) && k in before && k !in done
    requires FlowInv(g) && Serviced(before[k], g, w.outcome(k), w.now, w.received(k), w.ended(k))
    ensures UdpServed(before, now[k := g], done + {k}, w)
  {
    assert now[k := g].Keys == now.Keys;
  }

  lemma UdpServedFits(before: UdpTable, after: UdpTable, done: set<Key>, w: UdpWork, udp: map<Handle, Target>)
    requires UdpServed(before, after, done, w) && FlowsFit(before, udp)
    ensures FlowsFit(after, udp) && |before| == |after|
  {
    assert |before| == |before.Keys| && |after| == |after.Keys|;
  }

  /** What the turn of its listener makes of flow `f`, whose sender's datagrams were `got`. A flow that was not
      connected has kept the first few, and if it connects it has sent exactly these; a connected one has
      sent those admitted; what came back is delivered; and the flow is closed exactly if it was, if its
      connection is refused, or if its reader is gone. */
  ghost predicate Turned(f: UdpFlow, g: UdpFlow, got: seq<Datagram>, admitted: Admission, now: nat, outcome: Connect,
                         received: seq<Returned>, ended: bool)
  {
    && g.connecting == (f.connecting && outcome.Waiting?)
    && g.upload == (f.upload || (f.connecting && outcome.Connected?))
    && (if f.upload then g.kept == f.kept && g.sent == f.sent + admitted.sent && |g.queue| == admitted.backlog
        else g.kept == FirstFew(f.pending + got) && g.sent == if g.upload then g.kept else [])
    && g.pending == (if g.upload then [] else g.kept)
    && (g.closed <==> f.closed || (f.connecting && outcome.Refused?) || (g.upload && ended))
    && g.delivered == f.delivered + (if g.upload then Taken(received) else [])
    && g.lastActivity == if got != [] || (g.upload && received != []) then now else f.lastActivity
  }

  ghost predicate TurnedAt(before: UdpTable, flows: UdpTable, k: Key, inbox: seq<Arrival>, w: UdpWork)
    requires k in flows
  {
    var f := FlowAt(before, k, w.now);
    Turned(f, flows[k], SentBy(inbox, k.ip, k.port), Admitted(|f.queue|, inbox, k.ip, k.port, w.drained(k.handle)),
           w.now, w.outcome(k), w.received(k), w.ended(k))
  }

  lemma GotThenServiced(f: UdpFlow, mid: UdpFlow, g: UdpFlow, got: seq<Datagram>, admitted: Admission, now: nat,
                        outcome: Connect, received: seq<Returned>, ended: bool)
    requires FlowInv(f) && Got(f, mid, got, admitted, now) && Serviced(mid, g, outcome, now, received, ended) && FlowInv(g)
    ensures Turned(f, g, got, admitted, now, outcome, received, ended)
  {
  }

  /** The table after the turns of the listeners in `done`: flows are opened only for senders, and all senders
      have one unless the table is full; each flow has had its turn. */
  ghost predicate FlowsProcessed(before: UdpTable, inbox: Handle -> seq<Arrival>, flows: UdpTable, done: set<Handle>, w: UdpWork)
  {
    && (forall k | k in before :: k in flows)
    && (forall k | k in flows && k.handle !in done :: k in before && flows[k] == before[k])
    && (forall k | k in flows && k.handle in done :: TurnedAt(before, flows, k, inbox(k.handle), w))
    && (forall k | k in flows && k !in before :: SentBy(inbox(k.handle), k.ip, k.port) != [])
    && (forall k: Key | k.handle in done && SentBy(inbox(k.handle), k.ip, k.port) != [] ::
          k in flows || |flows| >= MAX_UDP_FLOWS)
  }

  /** One listener's turn. */
  ghost predicate ListenerProcessed(flows: UdpTable, handle: Handle, inbox: seq<Arrival>, after: UdpTable, w: UdpWork) {
    && |flows| <= |after|
    && (forall k | k in flows :: k in after)
    && (forall k | k in after && k.handle != handle :: k in flows && after[k] == flows[k])
    && (forall k | k in after && k.handle == handle :: TurnedAt(flows, after, k, inbox, w))
    && (forall k | k in after && k !in flows :: SentBy(inbox, k.ip, k.port) != [])
    && (forall k: Key | k.handle == handle && SentBy(inbox, k.ip, k.port) != [] :: k in after || |after| >= MAX_UDP_FLOWS)
  }

  lemma ListenerTurns(flows: UdpTable, udp: map<Handle, Target>, handle: Handle, inbox: seq<Arrival>, after: UdpTable,
                      w: UdpWork)
    requires FlowsFit(flows, udp) && handle in udp
    requires var mid := ReceivedAll(flows, handle, inbox, w.now, w.drained(handle));
             UdpServed(mid, after, FlowsOf(mid, handle), w)
    ensures ListenerProcessed(flows, handle, inbox, after, w)
  {
    var mid := ReceivedAll(flows, handle, inbox, w.now, w.drained(handle));
    ReceivedAllKeeps(flows, udp, handle, inbox, w.now, w.drained(handle));
    UdpServedFits(mid, after, FlowsOf(mid, handle), w, udp);
    forall k | k in after && k.handle == handle
      ensures TurnedAt(flows, after, k, inbox, w)
    {
      FlowTurns(flows, udp, handle, inbox, after, w, k);
    }
    forall k: Key | k.handle == handle && k !in flows
      ensures k in after ==> SentBy(inbox, k.ip, k.port) != []
      ensures SentBy(inbox, k.ip, k.port) != [] ==> k in after || |after| >= MAX_UDP_FLOWS
    {
      NoLateAdmission(flows, handle, inbox, w.now, w.drained(handle), k);
    }
  }

  lemma FlowTurns(flows: UdpTable, udp: map<Handle, Target>, handle: Handle, inbox: seq<Arrival>, after: UdpTable,
                  w: UdpWork, k: Key)
    requires FlowsFit(flows, udp) && handle in udp && k in after && k.handle == handle
    requires var mid := ReceivedAll(flows, handle, inbox, w.now, w.drained(handle));
             UdpServed(mid, after, FlowsOf(mid, handle), w)
    ensures TurnedAt(flows, after, k, inbox, w)
  {
    var f, mid := FlowAt(flows, k, w.now), ReceivedAll(flows, handle, inbox, w.now, w.drained(handle));
    ReceivedGot(flows, udp, handle, inbox, w.now, w.drained(handle), k);
    GotThenServiced(f, mid[k], after[k], SentBy(inbox, k.ip, k.port),
                    Admitted(|f.queue|, inbox, k.ip, k.port, w.drained(handle)), w.now, w.outcome(k), w.received(k), w.ended(k));
  }

  lemma FlowsProcessedAgrees(before: UdpTable, inbox: Handle -> seq<Arrival>, inbox': Handle -> seq<Arrival>, flows: UdpTable,
                             done: set<Handle>, w: UdpWork)
    requires FlowsProcessed(before, inbox, flows, done, w) && forall h :: h in done ==> inbox'(h) == inbox(h)
    ensures FlowsProcessed(before, inbox', flows, done, w)
  {
  }

  lemma FlowsProcessedStep(before: UdpTable, inbox: Handle -> seq<Arrival>, flows: UdpTable, done: set<Handle>, handle: Handle,
                           after: UdpTable, w: UdpWork)
    requires FlowsProcessed(before, inbox, flows, done, w) && handle !in done
    requires ListenerProcessed(flows, handle, inbox(handle), after, w)
    ensures FlowsProcessed(before, inbox, after, done + {handle}, w)
  {
    forall k | k in after && k.handle in done + {handle}
      ensures TurnedAt(before, after, k, inbox(k.handle), w)
    {
      if k.handle != handle {
        assert TurnedAt(before, flows, k, inbox(k.handle), w);
      } else {
        assert TurnedAt(flows, after, k, inbox(k.handle), w);
      }
    }
  }
}

/** The fake-IP DNS server: what it decides for a query, what it sends, and where a connection to an
    answered address leads. */
module FakeDns {
  import opened Options
  import opened Network
  import opened Bytes
  import opened FakePool
  import opened DnsCodec
  import opened DnsMessage

  const SERVFAIL := 2

  datatype Decision = Answer(ips: seq<Ipv4>) | NoData | Forward

  /** The managed-domain policy, which belongs to the client library. */
  datatype Policy = Policy(managed: string -> bool, routed: string -> Option<Ipv4>)

  predicate Managed(policy: Policy, question: Question) {
    question.qclass == CLASS_IN && policy.managed(question.name)
  }

  /** Only an A query for a managed name without a routed address touches the pool. */
  predicate NeedsFake(policy: Policy, question: Question) {
    Managed(policy, question) && question.qtype == TYPE_A && policy.routed(question.name) == None
  }

  method Decide(policy: Policy, pool: FakeIpPool, question: Question) returns (decision: Decision)
    requires pool.Valid()
    modifies pool, pool.slots
    ensures pool.Valid()
    ensures decision.Forward? <==> !Managed(policy, question)
    ensures decision.NoData? <==> Managed(policy, question) && question.qtype != TYPE_A
    ensures decision.Answer? ==> |decision.ips| == 1
    ensures decision.Answer? && !NeedsFake(policy, question) ==> Some(decision.ips[0]) == policy.routed(question.name)
    ensures NeedsFake(policy, question) ==>
              DomainFor(pool.Snapshot(), pool.first, decision.ips[0]) == Some(Normalize(question.name))
    ensures pool.names == if NeedsFake(policy, question)
                          then Request(old(pool.names), pool.slots.Length, Normalize(question.name)) else old(pool.names)
    ensures pool.names == old(pool.names) ==> pool.Snapshot() == old(pool.Snapshot())
  {
    if question.qclass != CLASS_IN || !policy.managed(question.name) {
      return Forward;
    }
    if question.qtype == TYPE_A {
      var routed := policy.routed(question.name);
      var ip: Ipv4;
      if routed.Some? {
        ip := routed.value;
      } else {
        ip := pool.Allocate(question.name);
      }
      return Answer([ip]);
    }
    decision := NoData;
  }

  datatype Reply = Ignored | Sent(bytes: seq<byte>) | Relayed

  /** How a reader of `bytes` sees the answer to `packet`: its id and question, an error exactly for
      unmanaged names, an address exactly for managed A queries. */
  ghost predicate GoodReply(policy: Policy, packet: seq<byte>, q: Question, bytes: seq<byte>, ip: Ipv4) {
    ParseLabels(packet, 12).Some? &&
    var qname, m := ParseLabels(packet, 12).value.labels, ReadMessage(bytes);
    && m.Some? && m.value.header.id == packet[0..2] && m.value.header.qr
    && m.value.qname == qname && m.value.qtype == q.qtype && m.value.qclass == q.qclass
    && m.value.header.rcode == (if Managed(policy, q) then 0 else SERVFAIL)
    && m.value.answers == (if Managed(policy, q) && q.qtype == TYPE_A then [ARecord(qname, ip)] else [])
  }

  lemma ReplyIsGood(policy: Policy, packet: seq<byte>, q: Question, lossy: seq<byte> -> string, ip: Ipv4)
    requires ParseQuery(packet, lossy) == Some(q)
    ensures var rcode := if Managed(policy, q) then 0 else SERVFAIL;
            var ips := if Managed(policy, q) && q.qtype == TYPE_A then [ip] else [];
            GoodReply(policy, packet, q, BuildResponse(packet, q, rcode, ips), ip)
  {
    var rcode := if Managed(policy, q) then 0 else SERVFAIL;
    var ips := if Managed(policy, q) && q.qtype == TYPE_A then [ip] else [];
    ResponseReads(packet, q, rcode, ips, lossy);
    FewAnswers(ParseLabels(packet, 12).value.labels, ips);
  }

  lemma FewAnswers(qname: seq<seq<byte>>, ips: seq<Ipv4>)
    requires |ips| <= 1
    ensures ARecords(qname, ips[..|ips| % 0x1_0000]) == if ips == [] then [] else [ARecord(qname, ips[0])]
  {
    assert ips[..|ips|] == ips;
  }

  /** Builds the reply to a query that is not relayed. */
  method Respond(policy: Policy, packet: seq<byte>, q: Question, lossy: seq<byte> -> string, rcode: byte, ips: seq<Ipv4>,
                 ip: Ipv4)
    returns (reply: Reply)
    requires ParseQuery(packet, lossy) == Some(q)
    requires rcode == if Managed(policy, q) then 0 else SERVFAIL
    requires ips == if Managed(policy, q) && q.qtype == TYPE_A then [ip] else []
    ensures reply.Sent? && GoodReply(policy, packet, q, reply.bytes, ip)
  {
    var bytes := WriteResponse(packet, q, rcode, ips);
    ReplyIsGood(policy, packet, q, lossy, ip);
    reply := Sent(bytes);
  }

  /** One datagram through the server loop; `relay` says an upstream is set and has capacity. */
  method Serve(policy: Policy, pool: FakeIpPool, packet: seq<byte>, lossy: seq<byte> -> string, relay: bool)
    returns (reply: Reply, ip: Ipv4)
    requires pool.Valid()
    modifies pool, pool.slots
    ensures pool.Valid()
    ensures match ParseQuery(packet, lossy)
            case None => reply.Ignored? && pool.names == old(pool.names)
            case Some(q) =>
              && (reply.Relayed? <==> !Managed(policy, q) && relay)
              && (reply.Sent? <==> Managed(policy, q) || !relay)
              && (reply.Sent? ==> GoodReply(policy, packet, q, reply.bytes, ip))
              && (Managed(policy, q) && q.qtype == TYPE_A && !NeedsFake(policy, q) ==> Some(ip) == policy.routed(q.name))
              && (NeedsFake(policy, q) ==> DomainFor(pool.Snapshot(), pool.first, ip) == Some(Normalize(q.name)))
              && pool.names == if NeedsFake(policy, q)
                               then Request(old(pool.names), pool.slots.Length, Normalize(q.name)) else old(pool.names)
  {
    ip := 0;
    var question := ReadQuery(packet, lossy);
    if question == None {
      return Ignored, ip;
    }
    var q := question.value;
    var decision := Decide(policy, pool, q);
    match decision
    case Answer(ips) =>
      ip := ips[0];
      assert ips == [ip];
      reply := Respond(policy, packet, q, lossy, 0, ips, ip);
    case NoData =>
      reply := Respond(policy, packet, q, lossy, 0, [], ip);
    case Forward =>
      if relay {
        return Relayed, ip;
      }
      reply := Respond(policy, packet, q, lossy, SERVFAIL, [], ip);
  }
}

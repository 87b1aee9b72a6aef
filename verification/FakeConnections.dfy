/** From a DNS answer to a TCP connection: the server answers a query with a fake address, serves any
    further queries, and then the stack accepts the connections waiting for it. */
module FakeConnections {
  import opened Options
  import opened Network
  import opened Bytes
  import opened FakePool
  import opened DnsCodec
  import opened FakeDns
  import opened UdpTables
  import opened SocketTables
  import opened StackLoop
  import opened TcpFlows

  /** A datagram to the server, with the policy and the relay capacity at that moment. */
  datatype Query = Query(policy: Policy, packet: seq<byte>, relay: bool)

  /** The name for which a query makes the server ask the pool, if any. */
  function Asked(query: Query, lossy: seq<byte> -> string): seq<string> {
    match ParseQuery(query.packet, lossy)
    case None => []
    case Some(q) => if NeedsFake(query.policy, q) then [q.name] else []
  }

  function AllAsked(queries: seq<Query>, lossy: seq<byte> -> string): seq<string> {
    if queries == [] then []
    else AllAsked(queries[..|queries| - 1], lossy) + Asked(queries[|queries| - 1], lossy)
  }

  lemma AskedOnce(names: seq<string>, n: nat, ds: seq<string>, query: Query, lossy: seq<byte> -> string)
    ensures Requests(names, n, ds + Asked(query, lossy))
         == if Asked(query, lossy) == [] then Requests(names, n, ds)
            else Request(Requests(names, n, ds), n, Normalize(Asked(query, lossy)[0]))
  {
    if Asked(query, lossy) == [] {
      assert ds + Asked(query, lossy) == ds;
    } else {
      assert (ds + Asked(query, lossy))[..|ds|] == ds;
    }
  }

  /** What becomes of a query: nothing if it does not parse, else a relay exactly for an unmanaged name when one is to
      be had, and a good reply otherwise. */
  ghost predicate Answered(query: Query, lossy: seq<byte> -> string, reply: Reply, ip: Ipv4) {
    match ParseQuery(query.packet, lossy)
    case None => reply.Ignored?
    case Some(q) =>
      if !Managed(query.policy, q) && query.relay then reply.Relayed?
      else reply.Sent? && GoodReply(query.policy, query.packet, q, reply.bytes, ip)
  }

  ghost predicate AllAnswered(queries: seq<Query>, lossy: seq<byte> -> string, replies: seq<Reply>, ips: seq<Ipv4>) {
    && |replies| == |ips| == |queries|
    && forall i :: 0 <= i < |queries| ==> Answered(queries[i], lossy, replies[i], ips[i])
  }

  lemma AnsweredNext(queries: seq<Query>, i: nat, lossy: seq<byte> -> string, replies: seq<Reply>, ips: seq<Ipv4>,
                     reply: Reply, ip: Ipv4)
    requires i < |queries| && AllAnswered(queries[..i], lossy, replies, ips) && Answered(queries[i], lossy, reply, ip)
    ensures AllAnswered(queries[..i + 1], lossy, replies + [reply], ips + [ip])
  {
  }

  /** Whatever is sent to the server, each query gets its reply and the pool follows the list of names asked of it. */
  method ServeAll(pool: FakeIpPool, queries: seq<Query>, lossy: seq<byte> -> string)
    returns (replies: seq<Reply>, ips: seq<Ipv4>)
    requires pool.Valid()
    modifies pool, pool.slots
    ensures pool.Valid() && AllAnswered(queries, lossy, replies, ips)
    ensures pool.names == Requests(old(pool.names), pool.slots.Length, AllAsked(queries, lossy))
  {
    replies, ips := [], [];
    ghost var before := pool.names;
    for i := 0 to |queries|
      invariant pool.Valid() && AllAnswered(queries[..i], lossy, replies, ips)
      invariant pool.names == Requests(before, pool.slots.Length, AllAsked(queries[..i], lossy))
    {
      var reply, ip := ServeNext(pool, queries, i, lossy, before);
      AnsweredNext(queries, i, lossy, replies, ips, reply, ip);
      replies, ips := replies + [reply], ips + [ip];
    }
    assert queries[..|queries|] == queries;
  }

  /** One more query. */
  method ServeNext(pool: FakeIpPool, queries: seq<Query>, i: nat, lossy: seq<byte> -> string, ghost before: seq<string>)
    returns (reply: Reply, ip: Ipv4)
    requires pool.Valid() && i < |queries|
    requires pool.names == Requests(before, pool.slots.Length, AllAsked(queries[..i], lossy))
    modifies pool, pool.slots
    ensures pool.Valid() && Answered(queries[i], lossy, reply, ip)
    ensures pool.names == Requests(before, pool.slots.Length, AllAsked(queries[..i + 1], lossy))
  {
    assert queries[..i + 1][..i] == queries[..i];
    reply, ip := Serve(queries[i].policy, pool, queries[i].packet, lossy, queries[i].relay);
    AskedOnce(before, pool.slots.Length, AllAsked(queries[..i], lossy), queries[i], lossy);
  }

  /** The flow of a connection to an address that was once answered for the name with number j. It goes
      to the name that the address stands for when the connection is accepted; that is the answered
      name while fewer than n fresh allocations separate the two, and another one for the n after. */
  lemma AnsweredNameConnects(before: Tables, after: Tables, done: set<Handle>, a: Accepting, h: Handle, first: Ipv4, n: nat,
                             then': seq<string>, j: nat, now: seq<string>, p: Pool, dotted: Ipv4 -> string)
    requires Accepted(before, after, done, a) && h in done && h in before.tcp.byHandle
    requires forall ip :: a.name(h, ip) == ConnectTarget(p, first, ip, dotted)
    requires Agrees(p, now, n) && Spaced(now, n) && first + n <= 0x1_0000_0000
    requires j < |then'| && then' <= now && before.tcp.byHandle[h].ip == SlotIp(first, j % n)
    ensures h in after.tcpFlows && Connects(after.tcpFlows[h].connectTo, n, j, then'[j], now)
  {
    NameConnects(then', j, now, p, first, n, dotted);
  }

  lemma NameConnects(then': seq<string>, j: nat, now: seq<string>, p: Pool, first: Ipv4, n: nat, dotted: Ipv4 -> string)
    requires Agrees(p, now, n) && Spaced(now, n) && first + n <= 0x1_0000_0000 && j < |then'| && then' <= now
    ensures Connects(ConnectTarget(p, first, SlotIp(first, j % n), dotted), n, j, then'[j], now)
  {
    AddressHolds(p, now, n, first, j, dotted);
    AddressWindow(p, now, n, first, j, dotted);
    assert now[j] == then'[j];
  }

  /** A connection made when the fresh allocations were `now`, to the address of number j, once `name`'s. */
  ghost predicate Connects(target: string, n: nat, j: nat, name: string, now: seq<string>)
    requires n > 0
  {
    && j < |now| && target == now[Latest(j, n, |now|)]
    && (|now| <= j + n ==> target == name)
    && (j + n < |now| <= j + 2 * n ==> target != name)
  }

  /** The connections in `done` that waited in `before` at the address `ip` of number j: each goes where the
      allocations at its own moment say, and these moments lie between `then'` and `now`. */
  ghost predicate AllConnect(before: Tables, flows: map<Handle, TcpFlow>, done: set<Handle>, ip: Ipv4, n: nat, j: nat,
                             then': seq<string>, now: seq<string>, moments: map<Handle, Moment>)
    requires n > 0 && j < |then'|
  {
    forall h | h in done && h in before.tcp.byHandle ::
      && h in moments && then' <= moments[h].names <= now
      && (before.tcp.byHandle[h].ip == ip ==> FlowConnects(flows, h, n, j, then'[j], moments[h].names))
  }

  ghost predicate FlowConnects(flows: map<Handle, TcpFlow>, h: Handle, n: nat, j: nat, name: string, now: seq<string>)
    requires n > 0
  {
    h in flows && Connects(flows[h].connectTo, n, j, name, now)
  }

  /** The server answers `asked` with `ip`, of number j at that moment, and then serves `later`. */
  method AnswerThenServe(pool: FakeIpPool, asked: Query, later: seq<Query>, lossy: seq<byte> -> string)
    returns (reply: Reply, ip: Ipv4, ghost j: nat)
    requires pool.Valid() && Asked(asked, lossy) != []
    modifies pool, pool.slots
    ensures pool.Valid() && ParseQuery(asked.packet, lossy).Some?
    ensures reply.Sent? && GoodReply(asked.policy, asked.packet, ParseQuery(asked.packet, lossy).value, reply.bytes, ip)
    ensures var n, name := pool.slots.Length, Normalize(ParseQuery(asked.packet, lossy).value.name);
            var then' := Request(old(pool.names), n, name);
            && Oldest(then', n) <= j < |then'| && then'[j] == name && ip == SlotIp(pool.first, j % n)
            && pool.names == Requests(then', n, AllAsked(later, lossy)) && then' <= pool.names
  {
    reply, ip := Serve(asked.policy, pool, asked.packet, lossy, asked.relay);
    ghost var n, then' := pool.slots.Length, pool.names;
    ghost var name := Normalize(ParseQuery(asked.packet, lossy).value.name);
    j := AnswerNumber(pool.Snapshot(), then', n, pool.first, ip, name);
    var _, _ := ServeAll(pool, later, lossy);
    RequestsGrow(then', n, AllAsked(later, lossy));
  }

  /** What is asked of the outside when the pool has the turn of `h`. */
  function WithNames(a: Accepting, h: Handle, p: Pool, first: Ipv4, dotted: Ipv4 -> string): Accepting {
    a.(name := (x: Handle, ip: Ipv4) => if x == h then ConnectTarget(p, first, ip, dotted) else a.name(x, ip))
  }

  lemma WithNamesAgrees(before: Tables, now: Tables, done: set<Handle>, a: Accepting, h: Handle, p: Pool, first: Ipv4,
                        dotted: Ipv4 -> string)
    requires Accepted(before, now, done, a) && h !in done
    ensures Accepted(before, now, done, WithNames(a, h, p, first, dotted))
  {
    AcceptedAgrees(before, now, done, a, WithNames(a, h, p, first, dotted));
  }

  /** Accepts one connection with the names of the pool state `p`. */
  method AcceptWith(stack: Stack, h: Handle, a: Accepting, p: Pool, first: Ipv4, dotted: Ipv4 -> string,
                    ghost before: Tables, ghost done: set<Handle>)
    returns (a': Accepting)
    requires stack.Valid() && Good(before) && Accepted(before, stack.Now(), done, a)
    requires h in before.tcp.byHandle && h !in done
    modifies stack, stack.tcp
    ensures stack.Valid() && Accepted(before, stack.Now(), done + {h}, a') && a' == WithNames(a, h, p, first, dotted)
  {
    a' := WithNames(a, h, p, first, dotted);
    WithNamesAgrees(before, stack.Now(), done, a, h, p, first, dotted);
    stack.AcceptNext(h, a', before, done);
  }

  /** The address that number j has in the pool. */
  function AddressOf(pool: FakeIpPool, j: nat): Ipv4
    requires 0 < pool.slots.Length && pool.first + pool.slots.Length <= 0x1_0000_0000
  {
    SlotIp(pool.first, j % pool.slots.Length)
  }

  /** A state of the pool and the fresh allocations that led to it. */
  datatype Moment = Moment(p: Pool, names: seq<string>)

  ghost predicate InOrder(m: Moment, n: nat, then': seq<string>, now: seq<string>) {
    Agrees(m.p, m.names, n) && Spaced(m.names, n) && then' <= m.names <= now
  }

  /** Each connection in `done` was accepted at a moment between `then'` and `now`, with its names. */
  ghost predicate Moments(a: Accepting, moments: map<Handle, Moment>, done: set<Handle>, n: nat, first: Ipv4,
                          dotted: Ipv4 -> string, then': seq<string>, now: seq<string>)
  {
    && (forall h :: h in done ==> h in moments && InOrder(moments[h], n, then', now))
    && (forall h, ip :: h in done ==> h in moments && a.name(h, ip) == ConnectTarget(moments[h].p, first, ip, dotted))
  }

  lemma MomentsStep(a: Accepting, moments: map<Handle, Moment>, done: set<Handle>, n: nat, first: Ipv4,
                    dotted: Ipv4 -> string, then': seq<string>, names: seq<string>, h: Handle, m: Moment)
    requires Moments(a, moments, done, n, first, dotted, then', names) && h !in done
    requires InOrder(m, n, then', m.names) && names <= m.names
    ensures Moments(WithNames(a, h, m.p, first, dotted), moments[h := m], done + {h}, n, first, dotted, then', m.names)
  {
    forall g | g in done
      ensures InOrder(moments[g], n, then', m.names)
    {
      assert InOrder(moments[g], n, then', names);
    }
  }

  lemma MomentsConnect(before: Tables, after: Tables, done: set<Handle>, a: Accepting, moments: map<Handle, Moment>, n: nat,
                       first: Ipv4, dotted: Ipv4 -> string, then': seq<string>, j: nat, now: seq<string>)
    requires n > 0 && first + n <= 0x1_0000_0000 && j < |then'| && done <= before.tcp.byHandle.Keys
    requires Accepted(before, after, done, a) && Moments(a, moments, done, n, first, dotted, then', now)
    ensures AllConnect(before, after.tcpFlows, done, SlotIp(first, j % n), n, j, then', now, moments)
  {
    forall h | h in done && before.tcp.byHandle[h].ip == SlotIp(first, j % n)
      ensures FlowConnects(after.tcpFlows, h, n, j, then'[j], moments[h].names)
    {
      assert InOrder(moments[h], n, then', now);
      AnsweredNameConnects(before, after, done, a, h, first, n, then', j, moments[h].names, moments[h].p, dotted);
    }
    forall h | h in done
      ensures h in moments && then' <= moments[h].names <= now
    {
      assert InOrder(moments[h], n, then', now);
    }
  }

  /** The server goes on, to the moment `m`. */
  method ServeMore(pool: FakeIpPool, queries: seq<Query>, lossy: seq<byte> -> string) returns (p: Pool)
    requires pool.Valid()
    modifies pool, pool.slots
    ensures pool.Valid() && old(pool.names) <= pool.names && p == pool.Snapshot()
  {
    ghost var names := pool.names;
    var _, _ := ServeAll(pool, queries, lossy);
    RequestsGrow(names, pool.slots.Length, AllAsked(queries, lossy));
    p := pool.Snapshot();
  }

  /** The stack accepts what is waiting, one connection after the other in any order; between two of them
      the server goes on answering. */
  method Connect(pool: FakeIpPool, stack: Stack, between: Handle -> seq<Query>, lossy: seq<byte> -> string,
                 dotted: Ipv4 -> string, relisten: Handle -> bool, clock: Handle -> nat, ghost then': seq<string>,
                 ghost j: nat)
    returns (ghost moments: map<Handle, Moment>)
    requires pool.Valid() && stack.Valid() && j < |then'| && then' <= pool.names
    modifies pool, pool.slots, stack, stack.tcp
    ensures pool.Valid() && stack.Valid() && old(pool.names) <= pool.names
    ensures exists a :: Accepted(old(stack.Now()), stack.Now(), old(ActiveListeners(stack.Now())), a)
    ensures AllConnect(old(stack.Now()), stack.tcpFlows, old(ActiveListeners(stack.Now())), AddressOf(pool, j),
                       pool.slots.Length, j, then', pool.names, moments)
  {
    var waiting := set h | h in stack.tcp.byHandle && stack.Get(h, true).socket.active;
    assert waiting == ActiveListeners(stack.Now());
    ghost var before, a := stack.Now(), Accepting((_: Handle, ip: Ipv4) => dotted(ip), relisten, clock);
    a, moments := ConnectThese(pool, stack, waiting, between, lossy, dotted, relisten, clock, then');
    MomentsConnect(before, stack.Now(), waiting, a, moments, pool.slots.Length, pool.first, dotted, then', j, pool.names);
  }

  /** One turn of it: the server goes on, and then the connection at `h` is accepted with the names it has now. */
  method ConnectTurn(pool: FakeIpPool, stack: Stack, h: Handle, asks: Accepting, queries: seq<Query>,
                     lossy: seq<byte> -> string, dotted: Ipv4 -> string, ghost before: Tables, ghost done: set<Handle>)
    returns (asks': Accepting)
    requires pool.Valid() && stack.Valid() && Good(before)
    requires Accepted(before, stack.Now(), done, asks) && h in before.tcp.byHandle && h !in done
    modifies pool, pool.slots, stack, stack.tcp
    ensures pool.Valid() && stack.Valid() && old(pool.names) <= pool.names
    ensures Accepted(before, stack.Now(), done + {h}, asks')
    ensures asks' == WithNames(asks, h, pool.Snapshot(), pool.first, dotted)
  {
    var p := ServeMore(pool, queries, lossy);
    asks' := AcceptWith(stack, h, asks, p, pool.first, dotted, before, done);
  }

  method ConnectThese(pool: FakeIpPool, stack: Stack, waiting: set<Handle>, between: Handle -> seq<Query>,
                      lossy: seq<byte> -> string, dotted: Ipv4 -> string, relisten: Handle -> bool, clock: Handle -> nat,
                      ghost then': seq<string>)
    returns (ghost a: Accepting, ghost moments: map<Handle, Moment>)
    requires pool.Valid() && stack.Valid() && then' <= pool.names && waiting <= stack.tcp.byHandle.Keys
    modifies pool, pool.slots, stack, stack.tcp
    ensures pool.Valid() && stack.Valid() && old(pool.names) <= pool.names
    ensures Accepted(old(stack.Now()), stack.Now(), waiting, a)
    ensures Moments(a, moments, waiting, pool.slots.Length, pool.first, dotted, then', pool.names)
  {
    ghost var before, names0 := stack.Now(), pool.names;
    var todo := waiting;
    ghost var done: set<Handle> := {};
    var asks := Accepting((_: Handle, ip: Ipv4) => dotted(ip), relisten, clock);
    moments := map[];
    while todo != {}
      invariant pool.Valid() && stack.Valid() && names0 <= pool.names && then' <= pool.names
      invariant Partition(waiting, done, todo) && Accepted(before, stack.Now(), done, asks)
      invariant Moments(asks, moments, done, pool.slots.Length, pool.first, dotted, then', pool.names)
      decreases todo
    {
      var h :| h in todo;
      ghost var asks0, names := asks, pool.names;
      asks := ConnectTurn(pool, stack, h, asks, between(h), lossy, dotted, before, done);
      ghost var m := Moment(pool.Snapshot(), pool.names);
      MomentsStep(asks0, moments, done, pool.slots.Length, pool.first, dotted, then', names, h, m);
      PartitionStep(waiting, done, todo, h);
      done, todo, moments := done + {h}, todo - {h}, moments[h := m];
    }
    PartitionEnd(waiting, done);
    a := asks;
  }

  /** The whole way. The server answers `asked` with `ip`; j is the number of the name's allocation at that
      moment. It serves `later`, then the stack accepts what is waiting while the server goes on. */
  method AnswerThenConnect(pool: FakeIpPool, stack: Stack, asked: Query, later: seq<Query>, between: Handle -> seq<Query>,
                           lossy: seq<byte> -> string, dotted: Ipv4 -> string, relisten: Handle -> bool, clock: Handle -> nat)
    returns (reply: Reply, ip: Ipv4, ghost j: nat, ghost moments: map<Handle, Moment>)
    requires pool.Valid() && stack.Valid()
    requires Asked(asked, lossy) != []
    modifies pool, pool.slots, stack, stack.tcp
    ensures pool.Valid() && stack.Valid()
    ensures ParseQuery(asked.packet, lossy).Some?
    ensures reply.Sent? && GoodReply(asked.policy, asked.packet, ParseQuery(asked.packet, lossy).value, reply.bytes, ip)
    ensures var n, name := pool.slots.Length, Normalize(ParseQuery(asked.packet, lossy).value.name);
            var then' := Request(old(pool.names), n, name);
            && Oldest(then', n) <= j < |then'| && then'[j] == name
            && Requests(then', n, AllAsked(later, lossy)) <= pool.names
            && AllConnect(old(stack.Now()), stack.tcpFlows, old(ActiveListeners(stack.Now())), ip, n, j, then', pool.names,
                          moments)
  {
    ghost var names := pool.names;
    reply, ip, j := AnswerThenServe(pool, asked, later, lossy);
    ghost var name := Normalize(ParseQuery(asked.packet, lossy).value.name);
    moments := Connect(pool, stack, between, lossy, dotted, relisten, clock, Request(names, pool.slots.Length, name), j);
  }
}

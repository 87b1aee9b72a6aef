/** How a network plan is made from the configured prefixes and the addresses that must stay outside
    the tunnel, and what longest-prefix matching makes of the plan. */
module NetworkPlan {
  import opened Options
  import opened Network
  import opened Ring
  import opened Sorting

  datatype Prefix = Prefix(network: Ipv4, length: nat)

  /** 127.0.0.0/8 */
  predicate IsLoopback(ip: Ipv4) {
    ip / 0x100_0000 == 127
  }

  predicate IsUnspecified(ip: Ipv4) {
    ip == 0
  }

  function Pow2(n: nat): (p: nat)
    ensures p >= 1
  {
    if n == 0 then 1 else 2 * Pow2(n - 1)
  }

  /** `ip & (u32::MAX << (32 - length))`: the high bits. The shift is in range only for length > 0. */
  function Mask(ip: Ipv4, length: nat): Ipv4
    requires 0 < length <= 32
  {
    ModBound(ip, Pow2(32 - length));
    ip - ip % Pow2(32 - length)
  }

  lemma ModBound(x: nat, b: nat)
    requires b > 0
    ensures 0 <= x % b <= x
  {
    if x < b {
      ModOf(0, b, x);
    }
  }

  // ---- Prefixes ----

  /** The pieces of text the standard library parses. */
  datatype Text = Text(trim: string -> string, address: string -> Option<Ipv4>, number: string -> Option<nat>)

  /** The index of the first '/', if there is one. */
  function Slash(s: string, k: nat): Option<nat>
    requires k <= |s|
    decreases |s| - k
  {
    if k == |s| then None else if s[k] == '/' then Some(k) else Slash(s, k + 1)
  }

  function ParseCidr(cidr: string, text: Text): (r: Option<Prefix>)
    ensures r.Some? ==> 0 < r.value.length <= 32 && Mask(r.value.network, r.value.length) == r.value.network
  {
    var s := text.trim(cidr);
    var at := Slash(s, 0);
    var host := if at.Some? && at.value < |s| then s[..at.value] else s;
    var rest := if at.Some? && at.value < |s| then s[at.value + 1..] else "32";
    var address := text.address(text.trim(host));
    var length := text.number(text.trim(rest));
    if address.None? || length.None? || length.value == 0 || length.value > 32 then None
    else
      MaskTwice(address.value, length.value);
      Some(Prefix(Mask(address.value, length.value), length.value))
  }

  lemma {:induction false} SlashIsFirst(host: string, rest: string, k: nat)
    requires k <= |host| && '/' !in host
    ensures Slash(host + "/" + rest, k) == Some(|host|) && Slash(host, k) == None
    decreases |host| - k
  {
    var s := host + "/" + rest;
    assert |s| == |host| + 1 + |rest| && s[|host|] == '/';
    if k < |host| {
      assert s[k] == host[k];
      SlashIsFirst(host, rest, k + 1);
    }
  }

  /** What is read from "host/rest": the block of that length around the address. Without a slash the whole text is
      an address, and the block is that address alone. Nothing else is accepted. */
  lemma ParseCidrReads(cidr: string, text: Text, host: string, rest: string)
    requires '/' !in host && text.number(text.trim("32")) == Some(32)
    ensures text.trim(cidr) == host + "/" + rest ==>
              match (text.address(text.trim(host)), text.number(text.trim(rest)))
              case (Some(ip), Some(n)) =>
                if 1 <= n <= 32 then ParseCidr(cidr, text) == Some(Prefix(Mask(ip, n), n)) && Covers(Prefix(Mask(ip, n), n), ip)
                else ParseCidr(cidr, text) == None
              case _ => ParseCidr(cidr, text) == None
    ensures text.trim(cidr) == host ==>
              ParseCidr(cidr, text) == match text.address(text.trim(host))
                                       case Some(ip) => Some(Prefix(ip, 32))
                                       case None => None
  {
    var s := text.trim(cidr);
    SlashIsFirst(host, rest, 0);
    if s == host + "/" + rest {
      assert s[..|host|] == host && s[|host| + 1..] == rest;
    }
    var at := text.address(text.trim(host));
    if at.Some? {
      MaskAll(at.value);
    }
  }

  lemma MaskTwice(ip: Ipv4, length: nat)
    requires 0 < length <= 32
    ensures Mask(Mask(ip, length), length) == Mask(ip, length)
  {
    var b := Pow2(32 - length);
    assert ip - ip % b == b * (ip / b) + 0;
    ModOf(ip / b, b, 0);
  }

  predicate Covers(p: Prefix, ip: Ipv4)
    requires 0 < p.length <= 32
  {
    Mask(ip, p.length) == p.network
  }

  /** A prefix covers exactly a block of 2^(32 - length) addresses from its network address on. */
  lemma CoversBlock(p: Prefix, ip: Ipv4)
    requires 0 < p.length <= 32 && Mask(p.network, p.length) == p.network
    ensures Covers(p, ip) <==> p.network <= ip < p.network + Pow2(32 - p.length)
  {
    InBlock(p.network, ip, Pow2(32 - p.length));
  }

  lemma InBlock(a: nat, x: nat, b: nat)
    requires b > 0 && a % b == 0
    ensures x - x % b == a <==> a <= x < a + b
  {
    if a <= x < a + b {
      assert x == b * (a / b) + (x - a);
      ModOf(a / b, b, x - a);
    }
  }

  /** A /32 covers its own address alone. */
  lemma CoversOne(p: Prefix, ip: Ipv4)
    requires p.length == 32
    ensures Covers(p, ip) <==> p.network == ip
  {
    assert Pow2(0) == 1;
  }

  /** Loopback addresses are those of 127.0.0.0/8. */
  lemma LoopbackIsBlock(ip: Ipv4)
    ensures IsLoopback(ip) <==> Covers(Prefix(0x7F00_0000, 8), ip)
  {
    assert Pow2(24) == 0x100_0000 by {
      assert Pow2(4) == 16 && Pow2(8) == 256;
      assert Pow2(12) == 0x1000 && Pow2(16) == 0x1_0000;
      assert Pow2(20) == 0x10_0000;
    }
  }

  // ---- The plan ----

  datatype Hop = Hop(luid: nat, nextHop: Ipv4)

  /** What planning reads: the managed prefixes as text, the DNS server and the default gateway, the
      addresses of the gateway nodes and the portal, and the routes in force before any change. */
  datatype Input = Input(
    managed: seq<string>,
    dns: Option<Ipv4>,
    gateway: Option<Ipv4>,
    hosts: seq<seq<Ipv4>>,
    bestRoute: Ipv4 -> Option<Hop>)

  const DEFAULT_MANAGED_CIDRS: seq<string> := ["198.18.0.0/15"]

  function Cidrs(input: Input): seq<string> {
    DEFAULT_MANAGED_CIDRS + input.managed
  }

  predicate PrefixLeq(a: Prefix, b: Prefix) {
    a.network < b.network || (a.network == b.network && a.length <= b.length)
  }

  predicate RouteLeq(a: RouteSpec, b: RouteSpec) {
    a.destination < b.destination || (a.destination == b.destination && a.luid <= b.luid)
  }

  ghost predicate Sound(tunnel: seq<Prefix>) {
    forall p :: p in tunnel ==> 0 < p.length <= 32 && Mask(p.network, p.length) == p.network
  }

  /** The prefixes the tunnel is to carry. */
  ghost predicate Wanted(input: Input, text: Text, p: Prefix) {
    || (exists cidr :: (cidr == "198.18.0.0/15" || cidr in input.managed) && ParseCidr(cidr, text) == Some(p))
    || (input.dns.Some? && input.dns != input.gateway && p == Prefix(input.dns.value, 32))
  }

  lemma WantedByNumber(input: Input, text: Text, p: Prefix)
    ensures Wanted(input, text, p) <==>
              || (exists k :: 0 <= k < |Cidrs(input)| && ParseCidr(Cidrs(input)[k], text) == Some(p))
              || (input.dns.Some? && input.dns != input.gateway && p == Prefix(input.dns.value, 32))
  {
    if cidr :| (cidr == "198.18.0.0/15" || cidr in input.managed) && ParseCidr(cidr, text) == Some(p) {
      assert cidr == Cidrs(input)[0] || cidr in Cidrs(input);
    }
    if k :| 0 <= k < |Cidrs(input)| && ParseCidr(Cidrs(input)[k], text) == Some(p) {
      assert Cidrs(input)[k] == "198.18.0.0/15" || Cidrs(input)[k] in input.managed;
    }
  }

  method TunnelRoutes(input: Input, text: Text) returns (tunnel: seq<Prefix>)
    ensures Sound(tunnel) && forall p :: p in tunnel <==> Wanted(input, text, p)
    ensures SortedBy(tunnel, PrefixLeq) && forall i, j :: 0 <= i < j < |tunnel| ==> tunnel[i] != tunnel[j]
  {
    var cidrs := Cidrs(input);
    var found: seq<Prefix> := [];
    for i := 0 to |cidrs|
      invariant Sound(found)
      invariant forall p :: p in found <==> exists k :: 0 <= k < i && ParseCidr(cidrs[k], text) == Some(p)
    {
      var parsed := ParseCidr(cidrs[i], text);
      if parsed.Some? {
        found := found + [parsed.value];
      }
    }
    if input.dns.Some? && input.dns != input.gateway {
      MaskAll(input.dns.value);
      found := found + [Prefix(input.dns.value, 32)];
    }
    forall p
      ensures p in found <==> Wanted(input, text, p)
    {
      WantedByNumber(input, text, p);
    }
    SortKeeps(found, PrefixLeq);
    SortSorts(found, PrefixLeq);
    DedupKeeps(Sort(found, PrefixLeq));
    DedupDistinct(Sort(found, PrefixLeq), PrefixLeq);
    tunnel := Dedup(Sort(found, PrefixLeq));
  }

  lemma MaskAll(ip: Ipv4)
    ensures Mask(ip, 32) == ip
  {
    assert Pow2(0) == 1;
  }

  predicate Covered(tunnel: seq<Prefix>, ip: Ipv4)
    requires forall p :: p in tunnel ==> 0 < p.length <= 32
  {
    exists p :: p in tunnel && Covers(p, ip)
  }

  /** The addresses that must stay outside the tunnel. */
  predicate IsNode(input: Input, ip: Ipv4) {
    !IsLoopback(ip) && !IsUnspecified(ip) && exists host :: host in input.hosts && ip in host
  }

  function Bypass(ip: Ipv4, hop: Hop): RouteSpec {
    RouteSpec(hop.luid, ip, 32, hop.nextHop)
  }

  ghost predicate BypassWanted(input: Input, tunnel: seq<Prefix>, r: RouteSpec)
    requires Sound(tunnel)
  {
    && IsNode(input, r.destination) && Covered(tunnel, r.destination)
    && r.prefix == 32 && input.bestRoute(r.destination) == Some(Hop(r.luid, r.nextHop))
  }

  method BypassRoutes(input: Input, tunnel: seq<Prefix>) returns (bypass: seq<RouteSpec>)
    requires Sound(tunnel)
    ensures forall r :: r in bypass <==> BypassWanted(input, tunnel, r)
    ensures SortedBy(bypass, RouteLeq) && forall i, j :: 0 <= i < j < |bypass| ==> bypass[i] != bypass[j]
  {
    var found: seq<RouteSpec> := [];
    for i := 0 to |input.hosts|
      invariant forall r :: r in found <==> BypassWanted(input.(hosts := input.hosts[..i]), tunnel, r)
    {
      found := HostRoutes(input, tunnel, found, i);
    }
    assert input.(hosts := input.hosts[..|input.hosts|]) == input;
    SortKeeps(found, RouteLeq);
    SortSorts(found, RouteLeq);
    DedupKeeps(Sort(found, RouteLeq));
    DedupDistinct(Sort(found, RouteLeq), RouteLeq);
    bypass := Dedup(Sort(found, RouteLeq));
  }

  /** The routes of one host, added to those of the hosts before it. */
  method HostRoutes(input: Input, tunnel: seq<Prefix>, before: seq<RouteSpec>, i: nat) returns (found: seq<RouteSpec>)
    requires Sound(tunnel) && i < |input.hosts|
    requires forall r :: r in before <==> BypassWanted(input.(hosts := input.hosts[..i]), tunnel, r)
    ensures forall r :: r in found <==> BypassWanted(input.(hosts := input.hosts[..i + 1]), tunnel, r)
  {
    var host := input.hosts[i];
    found := before;
    ghost var earlier := input.(hosts := input.hosts[..i]);
    for k := 0 to |host|
      invariant forall r :: r in found <==>
                  BypassWanted(earlier, tunnel, r)
                  || BypassWanted(input.(hosts := [host[..k]]), tunnel, r)
    {
      assert host[..k + 1] == host[..k] + [host[k]];
      OneMore(input, tunnel, host, k);
      var ip := host[k];
      if !IsLoopback(ip) && !IsUnspecified(ip) && Covered(tunnel, ip) {
        var hop := input.bestRoute(ip);
        if hop.Some? {
          found := found + [Bypass(ip, hop.value)];
        }
      }
    }
    assert host[..|host|] == host;
    assert input.hosts[..i + 1] == input.hosts[..i] + [host];
    forall ip
      ensures IsNode(input.(hosts := input.hosts[..i + 1]), ip)
           <==> IsNode(earlier, ip) || IsNode(input.(hosts := [host]), ip)
    {
      if ip in host {
        assert host in input.hosts[..i + 1] && host in [host];
      }
    }
  }

  lemma OneMore(input: Input, tunnel: seq<Prefix>, host: seq<Ipv4>, k: nat)
    requires Sound(tunnel) && k < |host|
    ensures forall r ::
      BypassWanted(input.(hosts := [host[..k + 1]]), tunnel, r) <==>
        BypassWanted(input.(hosts := [host[..k]]), tunnel, r)
        || (&& r.destination == host[k] && !IsLoopback(host[k]) && !IsUnspecified(host[k])
            && Covered(tunnel, host[k]) && input.bestRoute(host[k]).Some?
            && r == Bypass(host[k], input.bestRoute(host[k]).value))
  {
    assert host[..k + 1] == host[..k] + [host[k]];
    forall ip
      ensures IsNode(input.(hosts := [host[..k + 1]]), ip) <==>
                IsNode(input.(hosts := [host[..k]]), ip)
                || (ip == host[k] && !IsLoopback(ip) && !IsUnspecified(ip))
    {
      assert host[..k + 1] in [host[..k + 1]] && host[..k] in [host[..k]];
    }
  }

  // ---- Longest-prefix matching over the plan ----

  datatype Choice = Outside(route: RouteSpec) | Inside(prefix: Prefix)

  function Length(c: Choice): nat {
    match c
    case Outside(r) => r.prefix
    case Inside(p) => p.length
  }

  ghost predicate Matches(tunnel: seq<Prefix>, bypass: seq<RouteSpec>, ip: Ipv4, c: Choice)
    requires Sound(tunnel)
  {
    match c
    case Outside(r) => r in bypass && r.destination == ip
    case Inside(p) => p in tunnel && Covers(p, ip)
  }

  /** A route of the plan that no other matching route beats on prefix length. */
  ghost predicate Best(tunnel: seq<Prefix>, bypass: seq<RouteSpec>, ip: Ipv4, c: Choice)
    requires Sound(tunnel)
  {
    && Matches(tunnel, bypass, ip, c)
    && forall d :: Matches(tunnel, bypass, ip, d) ==> Length(d) <= Length(c)
  }

  lemma {:induction false} LongestCover(tunnel: seq<Prefix>, ip: Ipv4) returns (p: Prefix)
    requires Sound(tunnel) && Covered(tunnel, ip)
    ensures p in tunnel && Covers(p, ip)
    ensures forall q :: q in tunnel && Covers(q, ip) ==> q.length <= p.length
  {
    var rest := tunnel[1..];
    assert tunnel == [tunnel[0]] + rest;
    if Covered(rest, ip) {
      p := LongestCover(rest, ip);
      if Covers(tunnel[0], ip) && tunnel[0].length > p.length {
        p := tunnel[0];
      }
    } else {
      p := tunnel[0];
    }
  }

  /** A node's traffic may match best inside the tunnel exactly when a tunnel prefix covers it and
      either no route to it was known beforehand or a /32 tunnel route names it. */
  lemma NodeTunnelled(input: Input, tunnel: seq<Prefix>, bypass: seq<RouteSpec>, ip: Ipv4)
    requires Sound(tunnel) && forall r :: r in bypass <==> BypassWanted(input, tunnel, r)
    requires IsNode(input, ip)
    ensures (exists p :: Best(tunnel, bypass, ip, Inside(p))) <==>
              Covered(tunnel, ip) && (input.bestRoute(ip) == None || Prefix(ip, 32) in tunnel)
  {
    if Covered(tunnel, ip) {
      var p := LongestCover(tunnel, ip);
      if input.bestRoute(ip).Some? {
        var r := Bypass(ip, input.bestRoute(ip).value);
        assert BypassWanted(input, tunnel, r) && Matches(tunnel, bypass, ip, Outside(r));
        if Prefix(ip, 32) in tunnel {
          CoversOne(Prefix(ip, 32), ip);
          assert Best(tunnel, bypass, ip, Inside(Prefix(ip, 32)));
        }
        forall q | Best(tunnel, bypass, ip, Inside(q))
          ensures q == Prefix(ip, 32)
        {
          assert Length(Outside(r)) <= Length(Inside(q));
          CoversOne(q, ip);
        }
      } else {
        assert Best(tunnel, bypass, ip, Inside(p));
      }
    }
  }

  /** The whole of planning: the tunnel carries exactly the wanted prefixes, and a covered node with a
      known route matches best outside it unless a /32 tunnel route names the node itself. */
  method BuildNetworkPlan(input: Input, text: Text) returns (tunnel: seq<Prefix>, bypass: seq<RouteSpec>)
    ensures Sound(tunnel) && forall p :: p in tunnel <==> Wanted(input, text, p)
    ensures forall r :: r in bypass <==> BypassWanted(input, tunnel, r)
    ensures forall i, j :: 0 <= i < j < |tunnel| ==> tunnel[i] != tunnel[j]
    ensures forall i, j :: 0 <= i < j < |bypass| ==> bypass[i] != bypass[j]
    ensures forall ip | IsNode(input, ip) && Covered(tunnel, ip) && input.bestRoute(ip).Some? && Prefix(ip, 32) !in tunnel ::
              !exists p :: Best(tunnel, bypass, ip, Inside(p))
  {
    tunnel := TunnelRoutes(input, text);
    bypass := BypassRoutes(input, tunnel);
    forall ip | IsNode(input, ip)
      ensures (exists p :: Best(tunnel, bypass, ip, Inside(p))) <==>
                Covered(tunnel, ip) && (input.bestRoute(ip) == None || Prefix(ip, 32) in tunnel)
    {
      NodeTunnelled(input, tunnel, bypass, ip);
    }
  }
}

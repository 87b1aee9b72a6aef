/** What longest-prefix matching makes of the route table once a plan has been installed. A refused bypass
    route is only a warning, so the plan alone does not decide where a node's traffic goes. */
module InstalledPlan {
  import opened Options
  import opened Network
  import opened NetworkPlan

  /** The route of a tunnel prefix through the adapter `luid`. */
  function TunnelRoute(luid: nat, p: Prefix): RouteSpec {
    RouteSpec(luid, p.network, p.length, 0)
  }

  function TunnelRoutesOf(luid: nat, tunnel: seq<Prefix>): seq<RouteSpec> {
    seq(|tunnel|, i requires 0 <= i < |tunnel| => TunnelRoute(luid, tunnel[i]))
  }

  predicate MatchesRoute(r: RouteSpec, ip: Ipv4) {
    r.prefix == 0 || (r.prefix <= 32 && Mask(ip, r.prefix) == r.destination)
  }

  /** Some route through the adapter `luid` matches `ip`, and none in the table matches better. */
  ghost predicate MayEnter(table: set<RouteSpec>, luid: nat, ip: Ipv4) {
    exists c :: c in table && c.luid == luid && MatchesRoute(c, ip) && NoneBetter(table, ip, c.prefix)
  }

  ghost predicate NoneBetter(table: set<RouteSpec>, ip: Ipv4, length: nat) {
    forall d :: d in table && MatchesRoute(d, ip) ==> d.prefix <= length
  }

  /** The table after a successful install on `before`. */
  ghost predicate Holds(table: set<RouteSpec>, before: set<RouteSpec>, luid: nat, tunnel: seq<Prefix>,
                        bypass: seq<RouteSpec>, refuse: nat -> bool)
  {
    forall r :: r in table <==>
      r in before || r in TunnelRoutesOf(luid, tunnel) || exists i :: 0 <= i < |bypass| && !refuse(i) && bypass[i] == r
  }

  /** Nobody else uses the adapter: neither the routes in force before nor the best routes to nodes. */
  ghost predicate OwnAdapter(before: set<RouteSpec>, luid: nat, bypass: seq<RouteSpec>) {
    && (forall r :: r in before ==> r.luid != luid)
    && (forall r :: r in bypass ==> r.luid != luid)
  }

  lemma TunnelRouteIn(luid: nat, tunnel: seq<Prefix>, p: Prefix)
    requires p in tunnel
    ensures TunnelRoute(luid, p) in TunnelRoutesOf(luid, tunnel)
  {
    var i :| 0 <= i < |tunnel| && tunnel[i] == p;
    assert TunnelRoutesOf(luid, tunnel)[i] == TunnelRoute(luid, p);
  }

  lemma RouteOfTunnel(luid: nat, tunnel: seq<Prefix>, r: RouteSpec) returns (p: Prefix)
    requires r in TunnelRoutesOf(luid, tunnel)
    ensures p in tunnel && r == TunnelRoute(luid, p)
  {
    var i :| 0 <= i < |TunnelRoutesOf(luid, tunnel)| && TunnelRoutesOf(luid, tunnel)[i] == r;
    p := tunnel[i];
  }

  /** A bypass route matches its node alone. */
  lemma BypassMatches(input: Input, tunnel: seq<Prefix>, r: RouteSpec, ip: Ipv4)
    requires Sound(tunnel) && BypassWanted(input, tunnel, r)
    ensures r.prefix == 32
    ensures MatchesRoute(r, ip) <==> r.destination == ip
  {
    MaskAll(ip);
  }

  /** The bypass route of node `ip`, whose best route is known. */
  function BypassOf(input: Input, ip: Ipv4): RouteSpec
    requires input.bestRoute(ip).Some?
  {
    Bypass(ip, input.bestRoute(ip).value)
  }

  /** What decides about a node: some tunnel prefix covers it that no route of before beats, and that is a
      /32 in case the node's bypass route is in the table. */
  ghost predicate Decides(table: set<RouteSpec>, before: set<RouteSpec>, tunnel: seq<Prefix>, own: RouteSpec, ip: Ipv4)
    requires Sound(tunnel)
  {
    exists p :: p in tunnel && Covers(p, ip) && (own in table ==> p.length == 32) && NoneBetter(before, ip, p.length)
  }

  lemma EntersIf(table: set<RouteSpec>, before: set<RouteSpec>, luid: nat, input: Input, tunnel: seq<Prefix>,
                 bypass: seq<RouteSpec>, refuse: nat -> bool, ip: Ipv4)
    requires Sound(tunnel) && forall r :: r in bypass <==> BypassWanted(input, tunnel, r)
    requires Holds(table, before, luid, tunnel, bypass, refuse) && input.bestRoute(ip).Some?
    requires Decides(table, before, tunnel, BypassOf(input, ip), ip)
    ensures MayEnter(table, luid, ip)
  {
    var own := BypassOf(input, ip);
    var q :| q in tunnel && Covers(q, ip) && (own in table ==> q.length == 32) && NoneBetter(before, ip, q.length);
    var p := LongestCover(tunnel, ip);
    TunnelRouteIn(luid, tunnel, p);
    var c := TunnelRoute(luid, p);
    forall d | d in table && MatchesRoute(d, ip)
      ensures d.prefix <= p.length
    {
      if d in before {
        assert d.prefix <= q.length;
      } else if d in TunnelRoutesOf(luid, tunnel) {
        var o := RouteOfTunnel(luid, tunnel, d);
      } else {
        assert d in bypass;
        BypassMatches(input, tunnel, d, ip);
        assert d == BypassOf(input, ip);
      }
    }
    assert c in table && MatchesRoute(c, ip) && NoneBetter(table, ip, c.prefix);
  }

  lemma EntersOnlyIf(table: set<RouteSpec>, before: set<RouteSpec>, luid: nat, input: Input, tunnel: seq<Prefix>,
                     bypass: seq<RouteSpec>, refuse: nat -> bool, ip: Ipv4)
    requires Sound(tunnel) && forall r :: r in bypass <==> BypassWanted(input, tunnel, r)
    requires OwnAdapter(before, luid, bypass) && Holds(table, before, luid, tunnel, bypass, refuse)
    requires input.bestRoute(ip).Some? && MayEnter(table, luid, ip)
    ensures Decides(table, before, tunnel, BypassOf(input, ip), ip)
  {
    var c :| c in table && c.luid == luid && MatchesRoute(c, ip) && NoneBetter(table, ip, c.prefix);
    assert c in TunnelRoutesOf(luid, tunnel);
    var p := RouteOfTunnel(luid, tunnel, c);
    var own := BypassOf(input, ip);
    if own in table {
      MaskAll(ip);
      assert MatchesRoute(own, ip);
    }
    assert p in tunnel && Covers(p, ip) && (own in table ==> p.length == 32) && NoneBetter(before, ip, p.length);
  }

  /** After a successful install, traffic to a covered node with a known best route may go into the tunnel if
      and only if a tunnel prefix covers it that no route of before beats - and, where the node's bypass
      route is in the table, a /32. The bypass route is there if it was before or was not refused. */
  lemma NodeAfterInstall(table: set<RouteSpec>, before: set<RouteSpec>, luid: nat, input: Input, tunnel: seq<Prefix>,
                         bypass: seq<RouteSpec>, refuse: nat -> bool, ip: Ipv4)
    requires Sound(tunnel) && forall r :: r in bypass <==> BypassWanted(input, tunnel, r)
    requires OwnAdapter(before, luid, bypass) && Holds(table, before, luid, tunnel, bypass, refuse)
    requires IsNode(input, ip) && Covered(tunnel, ip) && input.bestRoute(ip).Some?
    ensures MayEnter(table, luid, ip) <==> Decides(table, before, tunnel, BypassOf(input, ip), ip)
    ensures var own := BypassOf(input, ip);
            own in table <==> own in before || exists i :: 0 <= i < |bypass| && !refuse(i) && bypass[i] == own
    ensures BypassOf(input, ip) in table ==> (MayEnter(table, luid, ip) <==> Prefix(ip, 32) in tunnel)
  {
    var own := BypassOf(input, ip);
    assert BypassWanted(input, tunnel, own);
    if MayEnter(table, luid, ip) {
      EntersOnlyIf(table, before, luid, input, tunnel, bypass, refuse, ip);
    }
    if Decides(table, before, tunnel, own, ip) {
      EntersIf(table, before, luid, input, tunnel, bypass, refuse, ip);
    }
    if own in TunnelRoutesOf(luid, tunnel) {
      var p := RouteOfTunnel(luid, tunnel, own);
    }
    HostPrefixDecides(table, before, tunnel, own, ip);
  }

  /** With the bypass route in the table only a /32 of the node itself decides for the tunnel. */
  lemma HostPrefixDecides(table: set<RouteSpec>, before: set<RouteSpec>, tunnel: seq<Prefix>, own: RouteSpec, ip: Ipv4)
    requires Sound(tunnel)
    ensures own in table ==> (Decides(table, before, tunnel, own, ip) <==> Prefix(ip, 32) in tunnel)
  {
    if own in table && Decides(table, before, tunnel, own, ip) {
      var p :| p in tunnel && Covers(p, ip) && p.length == 32;
      CoversOne(p, ip);
    }
    if Prefix(ip, 32) in tunnel {
      var p := Prefix(ip, 32);
      CoversOne(p, ip);
      assert p in tunnel && Covers(p, ip) && p.length == 32 && NoneBetter(before, ip, p.length);
    }
  }

  /** Planning and installing in one. */
  method PlanAndInstall(os: Os, input: Input, text: Text, luid: nat, wantsRule: bool, refuseBypass: nat -> bool,
                        refuseTunnel: nat -> bool, rule: bool, nrptOk: bool)
    returns (network: NetworkState, ok: bool, tunnel: seq<Prefix>, bypass: seq<RouteSpec>)
    modifies os`table, os`nrpt
    ensures Sound(tunnel) && (forall p :: p in tunnel <==> Wanted(input, text, p))
    ensures forall r :: r in bypass <==> BypassWanted(input, tunnel, r)
    ensures AddedTo(old(os.table), network.routes) && os.table == old(os.table) + Routes(network.routes)
    ensures ok ==> forall p | p in tunnel :: RouteSpec(luid, p.network, p.length, 0) in os.table
    ensures ok && OwnAdapter(old(os.table), luid, bypass) ==>
              forall ip | IsNode(input, ip) && Covered(tunnel, ip) && input.bestRoute(ip).Some? ::
                && (MayEnter(os.table, luid, ip) <==> Decides(os.table, old(os.table), tunnel, BypassOf(input, ip), ip))
                && (BypassOf(input, ip) in os.table ==> (MayEnter(os.table, luid, ip) <==> Prefix(ip, 32) in tunnel))
  {
    tunnel, bypass := BuildNetworkPlan(input, text);
    var plan := Plan(bypass, TunnelRoutesOf(luid, tunnel), wantsRule);
    ghost var before := os.table;
    network, ok := InstallNetworkPlan(os, plan, refuseBypass, refuseTunnel, rule, nrptOk);
    if ok {
      TableHolds(before, plan, luid, tunnel, refuseBypass, refuseTunnel);
      forall p | p in tunnel
        ensures RouteSpec(luid, p.network, p.length, 0) in os.table
      {
        TunnelRouteIn(luid, tunnel, p);
      }
    }
    if ok && OwnAdapter(before, luid, bypass) {
      TableHolds(before, plan, luid, tunnel, refuseBypass, refuseTunnel);
      forall ip | IsNode(input, ip) && Covered(tunnel, ip) && input.bestRoute(ip).Some?
        ensures MayEnter(os.table, luid, ip) <==> Decides(os.table, before, tunnel, BypassOf(input, ip), ip)
        ensures BypassOf(input, ip) in os.table ==> (MayEnter(os.table, luid, ip) <==> Prefix(ip, 32) in tunnel)
      {
        NodeAfterInstall(os.table, before, luid, input, tunnel, bypass, refuseBypass, ip);
      }
    }
  }

  lemma TableHolds(before: set<RouteSpec>, plan: Plan, luid: nat, tunnel: seq<Prefix>, first: nat -> bool,
                   second: nat -> bool)
    requires plan.tunnel == TunnelRoutesOf(luid, tunnel) && PlanOutcome(before, plan, first, second).ok
    ensures Holds(PlanOutcome(before, plan, first, second).table, before, luid, tunnel, plan.bypass, first)
  {
    forall r
      ensures r in PlanOutcome(before, plan, first, second).table <==>
                r in before || r in plan.tunnel || exists i :: 0 <= i < |plan.bypass| && !first(i) && plan.bypass[i] == r
    {
      PlanAddsExactly(before, plan, first, second, r);
    }
  }
}

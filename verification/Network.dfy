/** The operating system's route table, the helper's NRPT rule and the undo file,
    and the code that installs a network plan and takes it back. */
module Network {
  import opened Options

  /** An IPv4 address as the unsigned 32-bit number it stands for. */
  type Ipv4 = x: int | 0 <= x < 0x1_0000_0000

  datatype RouteSpec = RouteSpec(luid: nat, destination: Ipv4, prefix: nat, nextHop: Ipv4)

  /** What must be undone: the routes this helper added, and whether it touched the NRPT rule. */
  datatype NetworkState = NetworkState(routes: seq<RouteSpec>, nrpt: bool)

  const NOTHING := NetworkState([], false)

  datatype Plan = Plan(bypass: seq<RouteSpec>, tunnel: seq<RouteSpec>, nrpt: bool)

  ghost function Routes(rs: seq<RouteSpec>): set<RouteSpec> {
    set r | r in rs
  }

  /** The routes a persisted record names; no record names none. */
  ghost function Recorded(file: Option<NetworkState>): set<RouteSpec> {
    if file.Some? then Routes(file.value.routes) else {}
  }

  lemma RoutesSnoc(rs: seq<RouteSpec>, r: RouteSpec)
    ensures Routes(rs + [r]) == Routes(rs) + {r}
  {
  }

  lemma RoutesDropLast(rs: seq<RouteSpec>)
    requires rs != []
    ensures Routes(rs) == Routes(rs[..|rs| - 1]) + {rs[|rs| - 1]}
  {
    assert rs == rs[..|rs| - 1] + [rs[|rs| - 1]];
  }

  datatype AddResult = Added | Existed | Refused

  /** The operating system as far as the helper touches it. */
  class Os {
    var table: set<RouteSpec>
    var nrpt: bool
    var file: Option<NetworkState>

    constructor ()
      ensures table == {} && !nrpt && file == None
    {
      table, nrpt, file := {}, false, None;
    }

    /** `refuse` is the operating system's choice to fail for a reason of its own. */
    method AddRoute(r: RouteSpec, refuse: bool) returns (result: AddResult)
      modifies this`table
      ensures result.Refused? ==> refuse && table == old(table)
      ensures result.Existed? <==> !refuse && r in old(table)
      ensures result.Added? <==> !refuse && r !in old(table)
      ensures !result.Refused? ==> table == old(table) + {r}
    {
      if refuse {
        return Refused;
      }
      result := if r in table then Existed else Added;
      table := table + {r};
    }

    method DeleteRoute(r: RouteSpec)
      modifies this`table
      ensures table == old(table) - {r}
    {
      table := table - {r};
    }
  }

  /** The routes of a plan in the order they are installed. */
  function AllRoutes(plan: Plan): (rs: seq<RouteSpec>) {
    plan.bypass + plan.tunnel
  }

  /** `rs` are routes added on top of `before`: none twice and none that was there already. */
  ghost predicate AddedTo(before: set<RouteSpec>, rs: seq<RouteSpec>) {
    && Routes(rs) !! before
    && forall i, j :: 0 <= i < j < |rs| ==> rs[i] != rs[j]
  }

  datatype Outcome = Outcome(table: set<RouteSpec>, routes: seq<RouteSpec>, ok: bool)

  /** What adding `rs` from number k on makes of a table and a record; a refusal stops it only from
      number `strictFrom` on. */
  ghost function AddFrom(table: set<RouteSpec>, routes: seq<RouteSpec>, rs: seq<RouteSpec>, k: nat, strictFrom: nat,
                         refuse: nat -> bool): Outcome
    decreases |rs| - k
  {
    if k >= |rs| then Outcome(table, routes, true)
    else if refuse(k) then
      if k >= strictFrom then Outcome(table, routes, false) else AddFrom(table, routes, rs, k + 1, strictFrom, refuse)
    else if rs[k] in table then AddFrom(table, routes, rs, k + 1, strictFrom, refuse)
    else AddFrom(table + {rs[k]}, routes + [rs[k]], rs, k + 1, strictFrom, refuse)
  }

  lemma AddedOne(before: set<RouteSpec>, routes: seq<RouteSpec>, r: RouteSpec)
    requires AddedTo(before, routes) && r !in before + Routes(routes)
    ensures AddedTo(before, routes + [r]) && before + Routes(routes) + {r} == before + Routes(routes + [r])
  {
    RoutesSnoc(routes, r);
  }

  /** The record grows by exactly the routes that the table gains, none of them there before, none twice. */
  lemma {:induction false} AddFromRecords(before: set<RouteSpec>, routes: seq<RouteSpec>, rs: seq<RouteSpec>, k: nat,
                                          strictFrom: nat, refuse: nat -> bool)
    requires AddedTo(before, routes)
    ensures var o := AddFrom(before + Routes(routes), routes, rs, k, strictFrom, refuse);
            && AddedTo(before, o.routes) && o.table == before + Routes(o.routes) && routes <= o.routes
    decreases |rs| - k
  {
    if k < |rs| && !(refuse(k) && k >= strictFrom) {
      if refuse(k) || rs[k] in before + Routes(routes) {
        AddFromRecords(before, routes, rs, k + 1, strictFrom, refuse);
      } else {
        AddedOne(before, routes, rs[k]);
        AddFromRecords(before, routes + [rs[k]], rs, k + 1, strictFrom, refuse);
      }
    }
  }

  /** Success puts in every route not refused; a failure comes from a refusal, and nothing behind it was
      added. */
  lemma {:induction false} AddFromReaches(table: set<RouteSpec>, routes: seq<RouteSpec>, rs: seq<RouteSpec>, k: nat,
                                          strictFrom: nat, refuse: nat -> bool)
    requires k <= |rs|
    ensures var o := AddFrom(table, routes, rs, k, strictFrom, refuse);
            && table <= o.table
            && (o.ok ==> forall i :: k <= i < |rs| ==> (refuse(i) ==> i < strictFrom) && (refuse(i) || rs[i] in o.table))
            && (if o.ok then Routes(o.routes) <= Routes(routes) + Routes(rs)
                else exists i :: strictFrom <= i < |rs| && k <= i && refuse(i)
                              && Routes(o.routes) <= Routes(routes) + Routes(rs[..i]))
    decreases |rs| - k
  {
    if k < |rs| && !(refuse(k) && k >= strictFrom) {
      if refuse(k) || rs[k] in table {
        AddFromReaches(table, routes, rs, k + 1, strictFrom, refuse);
      } else {
        RoutesSnoc(routes, rs[k]);
        AddFromReaches(table + {rs[k]}, routes + [rs[k]], rs, k + 1, strictFrom, refuse);
        var o := AddFrom(table, routes, rs, k, strictFrom, refuse);
        if !o.ok {
          var i :| strictFrom <= i < |rs| && k + 1 <= i && refuse(i)
                   && Routes(o.routes) <= Routes(routes + [rs[k]]) + Routes(rs[..i]);
          assert rs[..i][k] == rs[k];
        }
      }
    }
  }

  /** Adds every route of `rs`, recording the ones that were not there before. A refused route
      stops the loop only when `strict`. */
  method AddAll(os: Os, rs: seq<RouteSpec>, strict: bool, refuse: nat -> bool, ghost before: set<RouteSpec>,
                recorded: seq<RouteSpec>)
    returns (now: seq<RouteSpec>, ok: bool)
    requires AddedTo(before, recorded) && os.table == before + Routes(recorded)
    modifies os`table
    ensures AddedTo(before, now) && os.table == before + Routes(now)
    ensures recorded <= now && old(os.table) <= os.table
    ensures ok ==> Routes(now) <= Routes(recorded) + Routes(rs)
    ensures !strict ==> ok
    ensures ok ==> forall i :: 0 <= i < |rs| ==> (strict ==> !refuse(i)) && (refuse(i) || rs[i] in os.table)
    ensures !ok ==> exists i :: 0 <= i < |rs| && refuse(i) && Routes(now) <= Routes(recorded) + Routes(rs[..i])
    ensures Outcome(os.table, now, ok) == AddFrom(old(os.table), recorded, rs, 0, if strict then 0 else |rs|, refuse)
  {
    ghost var strictFrom := if strict then 0 else |rs|;
    AddFromRecords(before, recorded, rs, 0, strictFrom, refuse);
    AddFromReaches(os.table, recorded, rs, 0, strictFrom, refuse);
    now, ok := AddLoop(os, rs, strict, refuse, recorded);
  }

  method AddLoop(os: Os, rs: seq<RouteSpec>, strict: bool, refuse: nat -> bool, recorded: seq<RouteSpec>)
    returns (now: seq<RouteSpec>, ok: bool)
    modifies os`table
    ensures Outcome(os.table, now, ok) == AddFrom(old(os.table), recorded, rs, 0, if strict then 0 else |rs|, refuse)
  {
    now, ok := recorded, true;
    ghost var strictFrom := if strict then 0 else |rs|;
    for i := 0 to |rs|
      invariant AddFrom(os.table, now, rs, i, strictFrom, refuse)
             == AddFrom(old(os.table), recorded, rs, 0, strictFrom, refuse)
    {
      ghost var table := os.table;
      var result := os.AddRoute(rs[i], refuse(i));
      if result.Refused? && strict {
        return now, false;
      }
      if result.Existed? {
        assert table + {rs[i]} == table;
      }
      AddFromOne(table, now, rs, i, strictFrom, refuse);
      if result.Added? {
        now := now + [rs[i]];
      }
    }
  }

  lemma AddFromOne(table: set<RouteSpec>, routes: seq<RouteSpec>, rs: seq<RouteSpec>, k: nat, strictFrom: nat,
                   refuse: nat -> bool)
    requires k < |rs| && !(refuse(k) && k >= strictFrom)
    ensures AddFrom(table, routes, rs, k, strictFrom, refuse)
         == if refuse(k) || rs[k] in table then AddFrom(table, routes, rs, k + 1, strictFrom, refuse)
            else AddFrom(table + {rs[k]}, routes + [rs[k]], rs, k + 1, strictFrom, refuse)
  {
  }

  /** Two lists of refusals one behind the other. */
  function Both(n: nat, first: nat -> bool, second: nat -> bool): nat -> bool {
    (k: nat) => if k < n then first(k) else second(k - n)
  }

  lemma {:induction false} AddFromFirst(table: set<RouteSpec>, routes: seq<RouteSpec>, a: seq<RouteSpec>, b: seq<RouteSpec>,
                                        k: nat, first: nat -> bool, second: nat -> bool)
    requires k <= |a|
    ensures var o := AddFrom(table, routes, a, k, |a|, first);
            && o.ok
            && AddFrom(table, routes, a + b, k, |a|, Both(|a|, first, second))
               == AddFrom(o.table, o.routes, a + b, |a|, |a|, Both(|a|, first, second))
    decreases |a| - k
  {
    if k < |a| {
      assert (a + b)[k] == a[k];
      if first(k) || a[k] in table {
        AddFromFirst(table, routes, a, b, k + 1, first, second);
      } else {
        AddFromFirst(table + {a[k]}, routes + [a[k]], a, b, k + 1, first, second);
      }
    }
  }

  lemma {:induction false} AddFromSecond(table: set<RouteSpec>, routes: seq<RouteSpec>, a: seq<RouteSpec>, b: seq<RouteSpec>,
                                         k: nat, first: nat -> bool, second: nat -> bool)
    ensures AddFrom(table, routes, a + b, |a| + k, |a|, Both(|a|, first, second)) == AddFrom(table, routes, b, k, 0, second)
    decreases |b| - k
  {
    if k < |b| {
      assert (a + b)[|a| + k] == b[k];
      if !second(k) {
        if b[k] in table {
          AddFromSecond(table, routes, a, b, k + 1, first, second);
        } else {
          AddFromSecond(table + {b[k]}, routes + [b[k]], a, b, k + 1, first, second);
        }
      }
    }
  }

  /** Everything an install leaves: the table, the rule, the record and whether it succeeded. */
  datatype Installed = Installed(table: set<RouteSpec>, nrpt: bool, network: NetworkState, ok: bool)

  ghost function InstallResult(table: set<RouteSpec>, nrpt: bool, plan: Plan, refuse: nat -> bool, rule: bool,
                               nrptOk: bool): Installed
  {
    var o := AddFrom(table, [], AllRoutes(plan), 0, |plan.bypass|, refuse);
    if o.ok && plan.nrpt then Installed(o.table, rule, NetworkState(o.routes, true), nrptOk)
    else Installed(o.table, nrpt, NetworkState(o.routes, false), o.ok)
  }

  ghost function PlanOutcome(before: set<RouteSpec>, plan: Plan, first: nat -> bool, second: nat -> bool): Outcome {
    AddFrom(before, [], AllRoutes(plan), 0, |plan.bypass|, Both(|plan.bypass|, first, second))
  }

  lemma PlanRecords(before: set<RouteSpec>, plan: Plan, first: nat -> bool, second: nat -> bool)
    ensures var o := PlanOutcome(before, plan, first, second);
            AddedTo(before, o.routes) && o.table == before + Routes(o.routes)
  {
    assert before + Routes([]) == before;
    AddFromRecords(before, [], AllRoutes(plan), 0, |plan.bypass|, Both(|plan.bypass|, first, second));
  }

  lemma PlanAddsBypass(before: set<RouteSpec>, plan: Plan, first: nat -> bool, second: nat -> bool)
    ensures forall i :: 0 <= i < |plan.bypass| && !first(i) ==>
              plan.bypass[i] in PlanOutcome(before, plan, first, second).table
  {
    var n, refuse := |plan.bypass|, Both(|plan.bypass|, first, second);
    AddFromFirst(before, [], plan.bypass, plan.tunnel, 0, first, second);
    AddFromReaches(before, [], plan.bypass, 0, n, first);
    var mid := AddFrom(before, [], plan.bypass, 0, n, first);
    AddFromReaches(mid.table, mid.routes, AllRoutes(plan), n, n, refuse);
  }

  lemma PlanAddsTunnel(before: set<RouteSpec>, plan: Plan, first: nat -> bool, second: nat -> bool)
    ensures var o := PlanOutcome(before, plan, first, second);
            if o.ok then
              && Routes(o.routes) <= Routes(AllRoutes(plan))
              && forall i :: 0 <= i < |plan.tunnel| ==> !second(i) && plan.tunnel[i] in o.table
            else exists i :: 0 <= i < |plan.tunnel| && second(i)
                          && Routes(o.routes) <= Routes(plan.bypass + plan.tunnel[..i])
  {
    var n, refuse := |plan.bypass|, Both(|plan.bypass|, first, second);
    var o := PlanOutcome(before, plan, first, second);
    AddFromReaches(before, [], AllRoutes(plan), 0, n, refuse);
    if o.ok {
      forall i | 0 <= i < |plan.tunnel|
        ensures !second(i) && plan.tunnel[i] in o.table
      {
        assert AllRoutes(plan)[n + i] == plan.tunnel[i] && refuse(n + i) == second(i);
      }
    } else {
      var i :| n <= i < |AllRoutes(plan)| && refuse(i) && Routes(o.routes) <= Routes([]) + Routes(AllRoutes(plan)[..i]);
      assert second(i - n) && AllRoutes(plan)[..i] == plan.bypass + plan.tunnel[..i - n];
    }
  }

  /** A successful run adds exactly the routes not refused. */
  lemma {:induction false} AddFromExact(table: set<RouteSpec>, routes: seq<RouteSpec>, rs: seq<RouteSpec>, k: nat,
                                        strictFrom: nat, refuse: nat -> bool, r: RouteSpec)
    requires k <= |rs| && AddFrom(table, routes, rs, k, strictFrom, refuse).ok
    ensures r in AddFrom(table, routes, rs, k, strictFrom, refuse).table
            <==> r in table || exists i :: k <= i < |rs| && !refuse(i) && rs[i] == r
    decreases |rs| - k
  {
    if k < |rs| {
      if refuse(k) || rs[k] in table {
        AddFromExact(table, routes, rs, k + 1, strictFrom, refuse, r);
      } else {
        AddFromExact(table + {rs[k]}, routes + [rs[k]], rs, k + 1, strictFrom, refuse, r);
      }
    }
  }

  /** After a successful install the table holds what it held, the tunnel routes and the bypass routes not
      refused. */
  lemma PlanAddsExactly(before: set<RouteSpec>, plan: Plan, first: nat -> bool, second: nat -> bool, r: RouteSpec)
    requires PlanOutcome(before, plan, first, second).ok
    ensures r in PlanOutcome(before, plan, first, second).table
            <==> r in before || r in plan.tunnel || exists i :: 0 <= i < |plan.bypass| && !first(i) && plan.bypass[i] == r
  {
    var n, refuse := |plan.bypass|, Both(|plan.bypass|, first, second);
    AddFromExact(before, [], AllRoutes(plan), 0, n, refuse, r);
    PlanAddsTunnel(before, plan, first, second);
    if i :| 0 <= i < |AllRoutes(plan)| && !refuse(i) && AllRoutes(plan)[i] == r {
      if i >= n {
        assert plan.tunnel[i - n] == r;
      }
    }
    if i :| 0 <= i < n && !first(i) && plan.bypass[i] == r {
      assert AllRoutes(plan)[i] == r && !refuse(i);
    }
  }

  /** Installs `plan`. The returned record names exactly what was added. `rule` is the NRPT state
      that the registry calls end in, `nrptOk` whether they succeeded. */
  method InstallNetworkPlan(os: Os, plan: Plan, refuseBypass: nat -> bool, refuseTunnel: nat -> bool,
                            rule: bool, nrptOk: bool)
    returns (network: NetworkState, ok: bool)
    modifies os`table, os`nrpt
    ensures AddedTo(old(os.table), network.routes)
    ensures os.table == old(os.table) + Routes(network.routes)
    ensures Routes(network.routes) <= Routes(AllRoutes(plan))
    ensures forall i :: 0 <= i < |plan.bypass| && !refuseBypass(i) ==> plan.bypass[i] in os.table
    ensures ok ==> forall i :: 0 <= i < |plan.tunnel| ==> !refuseTunnel(i) && plan.tunnel[i] in os.table
    ensures ok ==> network.nrpt == plan.nrpt
    ensures network.nrpt ==> plan.nrpt && forall i :: 0 <= i < |plan.tunnel| ==> plan.tunnel[i] in os.table
    ensures if network.nrpt then ok == nrptOk && os.nrpt == rule else os.nrpt == old(os.nrpt)
    ensures !ok && !network.nrpt ==> exists i :: 0 <= i < |plan.tunnel| && refuseTunnel(i)
    ensures Installed(os.table, os.nrpt, network, ok)
         == InstallResult(old(os.table), old(os.nrpt), plan, Both(|plan.bypass|, refuseBypass, refuseTunnel), rule, nrptOk)
  {
    ghost var before := os.table;
    PlanRecords(before, plan, refuseBypass, refuseTunnel);
    PlanAddsBypass(before, plan, refuseBypass, refuseTunnel);
    PlanAddsTunnel(before, plan, refuseBypass, refuseTunnel);
    AddFromFirst(before, [], plan.bypass, plan.tunnel, 0, refuseBypass, refuseTunnel);
    var routes, _ := AddAll(os, plan.bypass, false, refuseBypass, before, []);
    AddFromSecond(os.table, routes, plan.bypass, plan.tunnel, 0, refuseBypass, refuseTunnel);
    routes, ok := AddAll(os, plan.tunnel, true, refuseTunnel, before, routes);
    network := NetworkState(routes, false);
    if ok && plan.nrpt {
      network := network.(nrpt := true);
      os.nrpt := rule;
      ok := nrptOk;
    }
  }

  /** Takes back what `network` records, last route first. */
  method UndoNetworkState(os: Os, network: NetworkState)
    modifies os`table, os`nrpt
    ensures os.table == old(os.table) - Routes(network.routes)
    ensures os.nrpt == (old(os.nrpt) && !network.nrpt)
  {
    var i := |network.routes|;
    while i > 0
      invariant 0 <= i <= |network.routes|
      invariant os.table == old(os.table) - Routes(network.routes[i..])
      invariant os.nrpt == old(os.nrpt)
    {
      i := i - 1;
      assert network.routes[i..] == [network.routes[i]] + network.routes[i + 1..];
      assert Routes(network.routes[i..]) == Routes(network.routes[i + 1..]) + {network.routes[i]};
      os.DeleteRoute(network.routes[i]);
    }
    assert network.routes[0..] == network.routes;
    if network.nrpt {
      os.nrpt := false;
    }
  }

  /** Undoes whatever the undo file records, and removes the rule and the file in any case. */
  method CleanupPersistedNetworkState(os: Os)
    modifies os
    ensures os.table == old(os.table) - Recorded(old(os.file))
    ensures !os.nrpt && os.file == None
  {
    if os.file.Some? {
      UndoNetworkState(os, os.file.value);
    }
    os.nrpt := false;
    os.file := None;
  }

  /** Install followed by undo restores the table, whether or not the install failed part-way.
      A rule that was absent before is absent after. */
  method InstallThenUndo(os: Os, plan: Plan, refuseBypass: nat -> bool, refuseTunnel: nat -> bool,
                         rule: bool, nrptOk: bool)
    modifies os`table, os`nrpt
    ensures os.table == old(os.table)
    ensures !old(os.nrpt) ==> !os.nrpt
  {
    var network, ok := InstallNetworkPlan(os, plan, refuseBypass, refuseTunnel, rule, nrptOk);
    UndoNetworkState(os, network);
  }

  /** The order a start worker uses: with the leading cleanup no rule is left behind, whatever was
      there before, and the table loses exactly the leftovers on record. */
  method CleanInstallUndo(os: Os, plan: Plan, refuseBypass: nat -> bool, refuseTunnel: nat -> bool,
                          rule: bool, nrptOk: bool)
    modifies os
    ensures os.table == old(os.table) - Recorded(old(os.file)) && !os.nrpt
  {
    CleanupPersistedNetworkState(os);
    InstallThenUndo(os, plan, refuseBypass, refuseTunnel, rule, nrptOk);
  }

  /** Undo is idempotent: undoing a record a second time changes nothing more. */
  method UndoTwice(os: Os, network: NetworkState)
    modifies os`table, os`nrpt
    ensures os.table == old(os.table) - Routes(network.routes)
    ensures os.nrpt == (old(os.nrpt) && !network.nrpt)
  {
    UndoNetworkState(os, network);
    UndoNetworkState(os, network);
  }
}

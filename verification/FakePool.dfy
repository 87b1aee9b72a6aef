/** The pool of fake addresses: a ring of slots with a reverse index, against the simple account of
    it, a bounded first-in first-out list of names. */
module FakePool {
  import opened Options
  import opened Network
  import opened Ring

  /** 198.19.0.2 and 198.19.255.254. */
  const FAKE_FIRST: int := 198 * 0x100_0000 + 19 * 0x1_0000 + 2
  const FAKE_LAST: int := 198 * 0x100_0000 + 19 * 0x1_0000 + 255 * 0x100 + 254
  const FAKE_POOL_SIZE: int := FAKE_LAST - FAKE_FIRST + 1

  function TrimEndDots(s: string): string {
    if s != [] && s[|s| - 1] == '.' then TrimEndDots(s[..|s| - 1]) else s
  }

  function LowerChar(c: char): char {
    if 'A' <= c <= 'Z' then c - 'A' + 'a' else c
  }

  function Lower(s: string): (r: string)
    ensures |r| == |s| && forall i :: 0 <= i < |s| ==> r[i] == LowerChar(s[i])
  {
    seq(|s|, i requires 0 <= i < |s| => LowerChar(s[i]))
  }

  function Normalize(domain: string): string {
    Lower(TrimEndDots(domain))
  }

  /** Normalising strips every trailing dot and lower-cases the rest, and nothing is left to do. */
  lemma NormalizeTwice(domain: string)
    ensures Normalize(Normalize(domain)) == Normalize(domain)
    ensures Normalize(domain) == [] || Normalize(domain)[|Normalize(domain)| - 1] != '.'
  {
    TrimmedEnd(domain);
    var n := Normalize(domain);
    assert TrimEndDots(n) == n;
    assert Lower(n) == n;
  }

  /** Trimming takes the dots at the end, all of them and nothing else. */
  lemma {:induction false} TrimmedEnd(s: string)
    ensures TrimEndDots(s) == [] || TrimEndDots(s)[|TrimEndDots(s)| - 1] != '.'
    ensures TrimEndDots(s) <= s && forall i :: |TrimEndDots(s)| <= i < |s| ==> s[i] == '.'
    decreases |s|
  {
    if s != [] && s[|s| - 1] == '.' {
      TrimmedEnd(s[..|s| - 1]);
    }
  }

  // ---- What lower-casing means ----

  predicate Capital(c: char) {
    'A' <= c <= 'Z'
  }

  /** The ASCII small letters lie 32 behind their capitals. */
  predicate SameLetter(c: char, d: char) {
    c == d || (Capital(c) && d as int == c as int + 32) || (Capital(d) && c as int == d as int + 32)
  }

  /** Two texts agree up to ASCII case. */
  predicate SameText(a: string, b: string) {
    |a| == |b| && forall i :: 0 <= i < |a| ==> SameLetter(a[i], b[i])
  }

  /** Two names agree up to ASCII case and trailing dots. */
  predicate SameName(a: string, b: string) {
    SameText(TrimEndDots(a), TrimEndDots(b))
  }

  /** A lower-cased text has no capitals, differs from the text in nothing but case, and is the same for two
      texts exactly if they agree up to case. */
  lemma LowerMeans(a: string, b: string)
    ensures SameText(Lower(a), a) && forall i :: 0 <= i < |a| ==> !Capital(Lower(a)[i])
    ensures forall i :: 0 <= i < |a| && !Capital(a[i]) ==> Lower(a)[i] == a[i]
    ensures Lower(a) == Lower(b) <==> SameText(a, b)
  {
    if Lower(a) == Lower(b) {
      forall i | 0 <= i < |a|
        ensures SameLetter(a[i], b[i])
      {
        assert Lower(a)[i] == Lower(b)[i];
      }
    }
  }

  /** Names are one to the pool exactly if they agree up to case and trailing dots. */
  lemma NormalizeMeans(a: string, b: string)
    ensures Normalize(a) == Normalize(b) <==> SameName(a, b)
    ensures forall i :: 0 <= i < |Normalize(a)| ==> !Capital(Normalize(a)[i])
    ensures SameName(Normalize(a), a)
  {
    LowerMeans(TrimEndDots(a), TrimEndDots(b));
    NormalizeTwice(a);
    LowerMeans(TrimEndDots(Normalize(a)), TrimEndDots(a));
  }

  // ---- The simple account ----

  /** `d` is one of the last `n` names. */
  predicate InWindow(names: seq<string>, n: nat, d: string) {
    d in names[Oldest(names, n)..]
  }

  /** One request: a name that is not among the last n fresh allocations becomes a fresh one. */
  function Request(names: seq<string>, n: nat, d: string): seq<string> {
    if InWindow(names, n, d) then names else names + [d]
  }

  /** The fresh allocations that a list of requests leads to. */
  function Requests(names: seq<string>, n: nat, ds: seq<string>): seq<string> {
    if ds == [] then names
    else Request(Requests(names, n, ds[..|ds| - 1]), n, Normalize(ds[|ds| - 1]))
  }

  // ---- The ring ----

  datatype Pool = Pool(slots: seq<Option<string>>, byDomain: map<string, nat>, next: nat)

  /** The oldest fresh allocation that still has its slot. */
  function Oldest(names: seq<string>, n: nat): nat {
    if |names| > n then |names| - n else 0
  }

  /** The ring holds exactly the last n fresh allocations, each in the slot of its number. */
  ghost predicate Agrees(p: Pool, names: seq<string>, n: nat) {
    && n > 0 && |p.slots| == n && p.next == |names| % n
    && (forall j :: Oldest(names, n) <= j < |names| ==> p.slots[j % n] == Some(names[j]))
    && (forall i :: |names| <= i < n ==> p.slots[i] == None)
    && (forall i :: 0 <= i < n && p.slots[i].Some? ==>
          p.slots[i].value in p.byDomain && p.byDomain[p.slots[i].value] == i)
    && (forall j :: Oldest(names, n) <= j < |names| ==> names[j] in p.byDomain && p.byDomain[names[j]] == j % n)
    && (forall d :: d in p.byDomain ==> InWindow(names, n, d))
    && (forall j, k :: Oldest(names, n) <= j < k < |names| ==> names[j] != names[k])
  }

  lemma WindowIndex(names: seq<string>, n: nat, d: string) returns (j: nat)
    requires InWindow(names, n, d)
    ensures Oldest(names, n) <= j < |names| && names[j] == d
  {
    var w := names[Oldest(names, n)..];
    var i :| 0 <= i < |w| && w[i] == d;
    j := Oldest(names, n) + i;
  }

  lemma WindowHolds(names: seq<string>, n: nat, j: nat)
    requires Oldest(names, n) <= j < |names|
    ensures InWindow(names, n, names[j])
  {
    assert names[Oldest(names, n)..][j - Oldest(names, n)] == names[j];
  }

  /** The two tables are inverse to each other, so no two names share an address. */
  lemma TablesInverse(p: Pool, names: seq<string>, n: nat)
    requires Agrees(p, names, n)
    ensures forall d :: d in p.byDomain ==> p.byDomain[d] < n && p.slots[p.byDomain[d]] == Some(d)
    ensures forall i :: 0 <= i < n && p.slots[i].Some? ==>
              p.slots[i].value in p.byDomain && p.byDomain[p.slots[i].value] == i
    ensures forall d, e :: d in p.byDomain && e in p.byDomain && p.byDomain[d] == p.byDomain[e] ==> d == e
  {
    forall d | d in p.byDomain
      ensures p.byDomain[d] < n && p.slots[p.byDomain[d]] == Some(d)
    {
      SlotOfName(p, names, n, d);
    }
  }

  lemma SlotOfName(p: Pool, names: seq<string>, n: nat, d: string)
    requires Agrees(p, names, n) && d in p.byDomain
    ensures p.byDomain[d] < n && p.slots[p.byDomain[d]] == Some(d)
  {
    var j := WindowIndex(names, n, d);
  }

  function Evicted(p: Pool): map<string, nat>
    requires p.next < |p.slots|
  {
    if p.slots[p.next].Some? then p.byDomain - {p.slots[p.next].value} else p.byDomain
  }

  function Inserted(p: Pool, d: string): Pool
    requires p.next < |p.slots|
  {
    Pool(p.slots[p.next := Some(d)], Evicted(p)[d := p.next], (p.next + 1) % |p.slots|)
  }

  /** A fresh allocation overwrites the slot of the allocation n before it and no other. */
  lemma SlotOfNext(names: seq<string>, n: nat)
    requires n > 0
    ensures |names| >= n ==> Oldest(names, n) % n == |names| % n
    ensures |names| < n ==> |names| % n == |names|
    ensures forall j :: |names| - n < j < |names| && j >= 0 ==> j % n != |names| % n
  {
    if |names| >= n {
      SameSlot(|names| - n, n);
    } else {
      ModOf(0, n, |names|);
    }
    forall j | |names| - n < j < |names| && j >= 0
      ensures j % n != |names| % n
    {
      SlotsDiffer(j, |names|, n);
    }
  }

  lemma InsertSlots(p: Pool, names: seq<string>, n: nat, d: string)
    requires Agrees(p, names, n) && !InWindow(names, n, d)
    ensures var p', names' := Inserted(p, d), names + [d];
            && |p'.slots| == n && p'.next == |names'| % n
            && (forall j :: Oldest(names', n) <= j < |names'| ==> p'.slots[j % n] == Some(names'[j]))
            && (forall i :: |names'| <= i < n ==> p'.slots[i] == None)
  {
    NextSlot(|names|, n);
    SlotOfNext(names, n);
    var p', names' := Inserted(p, d), names + [d];
    forall j | Oldest(names', n) <= j < |names'|
      ensures p'.slots[j % n] == Some(names'[j])
    {
      if j < |names| {
        assert Oldest(names, n) <= j;
      }
    }
  }

  lemma NewName(names: seq<string>, n: nat, d: string)
    requires !InWindow(names, n, d)
    ensures forall j :: Oldest(names, n) <= j < |names| ==> names[j] != d
  {
    forall j | Oldest(names, n) <= j < |names|
      ensures names[j] != d
    {
      assert names[Oldest(names, n)..][j - Oldest(names, n)] == names[j];
    }
  }

  lemma InsertIndex(p: Pool, names: seq<string>, n: nat, d: string)
    requires Agrees(p, names, n) && !InWindow(names, n, d)
    ensures var p', names' := Inserted(p, d), names + [d];
            forall j :: Oldest(names', n) <= j < |names'| ==>
              names'[j] in p'.byDomain && p'.byDomain[names'[j]] == j % n
  {
    EvictsOldest(p, names, n);
    NewName(names, n, d);
  }

  lemma InsertedKnows(p: Pool, names: seq<string>, n: nat, d: string, e: string)
    requires Agrees(p, names, n) && e in Inserted(p, d).byDomain && e != d
    ensures InWindow(names, n, e) && (|names| >= n ==> names[|names| - n] != e)
  {
    EvictsOldest(p, names, n);
    assert e in p.byDomain;
  }

  lemma WindowStays(names: seq<string>, n: nat, d: string, e: string)
    requires InWindow(names, n, e) && (|names| >= n ==> names[|names| - n] != e)
    ensures InWindow(names + [d], n, e)
  {
    var j := WindowIndex(names, n, e);
    WindowHolds(names + [d], n, j);
  }

  lemma InsertKnown(p: Pool, names: seq<string>, n: nat, d: string, e: string)
    requires Agrees(p, names, n) && e in Inserted(p, d).byDomain
    ensures InWindow(names + [d], n, e)
  {
    if e == d {
      WindowHolds(names + [d], n, |names|);
    } else {
      InsertedKnows(p, names, n, d, e);
      WindowStays(names, n, d, e);
    }
  }

  lemma InsertBack(p: Pool, names: seq<string>, n: nat, d: string)
    requires Agrees(p, names, n) && !InWindow(names, n, d)
    ensures var p' := Inserted(p, d);
            forall i :: 0 <= i < n && p'.slots[i].Some? ==>
              p'.slots[i].value in p'.byDomain && p'.byDomain[p'.slots[i].value] == i
  {
    Absent(p, names, n, d);
  }

  lemma InsertAgrees(p: Pool, names: seq<string>, n: nat, d: string)
    requires Agrees(p, names, n) && !InWindow(names, n, d)
    ensures Agrees(Inserted(p, d), names + [d], n)
  {
    InsertSlots(p, names, n, d);
    InsertIndex(p, names, n, d);
    forall e | e in Inserted(p, d).byDomain
      ensures InWindow(names + [d], n, e)
    {
      InsertKnown(p, names, n, d, e);
    }
    InsertBack(p, names, n, d);
    NewName(names, n, d);
  }

  /** What the next allocation throws out of the reverse index is the oldest name of a full ring. */
  lemma EvictsOldest(p: Pool, names: seq<string>, n: nat)
    requires Agrees(p, names, n)
    ensures p.next < n
    ensures Evicted(p) == if |names| >= n then p.byDomain - {names[|names| - n]} else p.byDomain
  {
    SlotOfNext(names, n);
    if |names| >= n {
      assert p.slots[p.next] == Some(names[|names| - n]);
    } else {
      assert p.slots[p.next] == None;
    }
  }

  // ---- Addresses ----

  function SlotIp(first: Ipv4, slot: nat): Ipv4
    requires first + slot < 0x1_0000_0000
  {
    first + slot
  }

  predicate Contains(first: Ipv4, n: nat, ip: Ipv4) {
    first <= ip <= first + n - 1
  }

  /** The pool of the server: 198.19.0.2 to 198.19.255.254, which its constructor accepts. */
  lemma ServerRange(ip: Ipv4)
    ensures 0 < FAKE_POOL_SIZE && 0 <= FAKE_FIRST && FAKE_FIRST + FAKE_POOL_SIZE <= 0x1_0000_0000
    ensures Contains(FAKE_FIRST, FAKE_POOL_SIZE, ip) <==> FAKE_FIRST <= ip <= FAKE_LAST
    ensures Contains(FAKE_FIRST, FAKE_POOL_SIZE, ip) <==>
              ip / 0x1_0000 == 198 * 0x100 + 19 && ip % 0x1_0000 !in {0, 1, 0xFFFF}
  {
  }

  function DomainFor(p: Pool, first: Ipv4, ip: Ipv4): Option<string> {
    if !Contains(first, |p.slots|, ip) then None else p.slots[ip - first]
  }

  /** The name a TCP flow to `ip` connects to: the mapped name, or the address written out. */
  function ConnectTarget(p: Pool, first: Ipv4, ip: Ipv4, dotted: Ipv4 -> string): string {
    match DomainFor(p, first, ip)
    case Some(d) => d
    case None => dotted(ip)
  }

  lemma SlotStandsFor(p: Pool, first: Ipv4, slot: nat, name: string)
    requires slot < |p.slots| && p.slots[slot] == Some(name) && first + |p.slots| <= 0x1_0000_0000
    ensures DomainFor(p, first, SlotIp(first, slot)) == Some(name)
  {
  }

  /** Requests only ever add to the list of fresh allocations. */
  lemma {:induction false} RequestsGrow(names: seq<string>, n: nat, ds: seq<string>)
    ensures names <= Requests(names, n, ds)
    decreases |ds|
  {
    if ds != [] {
      RequestsGrow(names, n, ds[..|ds| - 1]);
    }
  }

  /** The last number below `count` that falls into the slot of number j. */
  function Latest(j: nat, n: nat, count: nat): (k: nat)
    requires n > 0 && j < count
    ensures k % n == j % n && j <= k < count <= k + n
    decreases count - j
  {
    SameSlot(j, n);
    if count <= j + n then j else Latest(j + n, n, count)
  }

  lemma SlotHolds(p: Pool, names: seq<string>, n: nat, j: nat)
    requires Agrees(p, names, n) && j < |names|
    ensures j % n < n && p.slots[j % n] == Some(names[Latest(j, n, |names|)])
  {
    var k := Latest(j, n, |names|);
    assert Oldest(names, n) <= k;
    assert p.slots[k % n] == Some(names[k]);
  }

  /** At all times an address stands for the latest fresh allocation of its slot, and a connection to it
      goes to that name. */
  lemma AddressHolds(p: Pool, names: seq<string>, n: nat, first: Ipv4, j: nat, dotted: Ipv4 -> string)
    requires Agrees(p, names, n) && first + n <= 0x1_0000_0000 && j < |names|
    ensures var name := names[Latest(j, n, |names|)];
            && DomainFor(p, first, SlotIp(first, j % n)) == Some(name)
            && ConnectTarget(p, first, SlotIp(first, j % n), dotted) == name
  {
    SlotHolds(p, names, n, j);
    SlotStandsFor(p, first, j % n, names[Latest(j, n, |names|)]);
  }

  /** An address outside the range, or one whose slot was never given out, is written out. */
  lemma AddressFree(p: Pool, names: seq<string>, n: nat, first: Ipv4, ip: Ipv4, dotted: Ipv4 -> string)
    requires Agrees(p, names, n) && first + n <= 0x1_0000_0000
    ensures ConnectTarget(p, first, ip, dotted) == dotted(ip) && DomainFor(p, first, ip) == None
            <==> !Contains(first, n, ip) || ip - first >= |names|
  {
    if Contains(first, n, ip) && ip - first < |names| {
      ModOf(0, n, ip - first);
      AddressHolds(p, names, n, first, ip - first, dotted);
    }
  }

  /** A name never recurs within n numbers. */
  ghost predicate Spaced(names: seq<string>, n: nat) {
    forall j, k :: 0 <= j < k < |names| && k <= j + n ==> names[j] != names[k]
  }

  /** No two addresses have one name. */
  lemma OneAddress(p: Pool, names: seq<string>, n: nat, first: Ipv4, x: Ipv4, y: Ipv4)
    requires Agrees(p, names, n) && DomainFor(p, first, x).Some? && DomainFor(p, first, x) == DomainFor(p, first, y)
    ensures x == y
  {
    TablesInverse(p, names, n);
  }

  /** `x` was answered for `d`, and then `y` for `e`. */
  lemma TwoAnswers(p: Pool, names: seq<string>, p': Pool, n: nat, first: Ipv4, x: Ipv4, d: string, y: Ipv4, e: string)
    requires Agrees(p, names, n) && Agrees(p', Request(names, n, e), n) && first + n <= 0x1_0000_0000
    requires DomainFor(p, first, x) == Some(d) && DomainFor(p', first, y) == Some(e)
    ensures if d == e then x == y else x == y <==> DomainFor(p', first, x) != Some(d)
  {
    var names' := Request(names, n, e);
    var j := AnswerNumber(p, names, n, first, x, d);
    AddressHolds(p', names', n, first, j, (ip: Ipv4) => "");
    var k := Latest(j, n, |names'|);
    if k != j {
      assert Oldest(names, n) <= j && k == |names|;
    }
    if DomainFor(p', first, x) == Some(e) {
      OneAddress(p', names', n, first, x, y);
    }
  }

  lemma RequestTwice(names: seq<string>, n: nat, d: string)
    requires n > 0
    ensures Request(Request(names, n, d), n, d) == Request(names, n, d)
  {
    if !InWindow(names, n, d) {
      WindowHolds(names + [d], n, |names|);
    }
  }

  lemma RequestSpaced(names: seq<string>, n: nat, d: string)
    requires Spaced(names, n)
    ensures Spaced(Request(names, n, d), n)
  {
    if !InWindow(names, n, d) {
      NewName(names, n, d);
    }
  }

  lemma {:induction false} RequestsSpaced(names: seq<string>, n: nat, ds: seq<string>)
    requires Spaced(names, n)
    ensures Spaced(Requests(names, n, ds), n)
    decreases |ds|
  {
    if ds != [] {
      RequestsSpaced(names, n, ds[..|ds| - 1]);
      RequestSpaced(Requests(names, n, ds[..|ds| - 1]), n, Normalize(ds[|ds| - 1]));
    }
  }

  /** From its fresh allocation number j until number j + n a name has its address; for the following n
      allocations the address stands for another name; in general it is the name's exactly when the
      latest allocation of the slot was for that name. */
  lemma AddressWindow(p: Pool, names: seq<string>, n: nat, first: Ipv4, j: nat, dotted: Ipv4 -> string)
    requires Agrees(p, names, n) && Spaced(names, n) && first + n <= 0x1_0000_0000 && j < |names|
    ensures var holder := DomainFor(p, first, SlotIp(first, j % n));
            && (|names| <= j + n ==> holder == Some(names[j]))
            && (j + n < |names| <= j + 2 * n ==> holder != Some(names[j]))
            && (holder == Some(names[j]) <==> names[Latest(j, n, |names|)] == names[j])
  {
    AddressHolds(p, names, n, first, j, dotted);
  }

  /** After any history of requests: the address handed out for `d` stands for the latest allocation of
      its slot, connections to it go there, and that is the normalised name until the n-th fresh
      allocation after the one that gave `d` its slot, and another name for the n after that. */
  lemma AnswerWindow(n: nat, earlier: seq<string>, d: string, later: seq<string>, p: Pool, first: Ipv4,
                     j: nat, dotted: Ipv4 -> string)
    requires first + n <= 0x1_0000_0000
    requires var then' := Requests([], n, earlier + [d]);
             && Oldest(then', n) <= j < |then'| && then'[j] == Normalize(d)
    requires Agrees(p, Requests([], n, earlier + [d] + later), n)
    ensures j < |Requests([], n, earlier + [d] + later)|
    ensures var now := Requests([], n, earlier + [d] + later);
            var target := ConnectTarget(p, first, SlotIp(first, j % n), dotted);
            && DomainFor(p, first, SlotIp(first, j % n)) == Some(target) && target == now[Latest(j, n, |now|)]
            && (|now| <= j + n ==> target == Normalize(d))
            && (j + n < |now| <= j + 2 * n ==> target != Normalize(d))
  {
    var now := Requests([], n, earlier + [d] + later);
    RequestsAppend([], n, earlier + [d], later);
    RequestsGrow(Requests([], n, earlier + [d]), n, later);
    RequestsSpaced([], n, earlier + [d] + later);
    assert now[j] == Normalize(d);
    AddressWindow(p, now, n, first, j, dotted);
    AddressHolds(p, now, n, first, j, dotted);
  }

  lemma {:induction false} RequestsAppend(names: seq<string>, n: nat, xs: seq<string>, ys: seq<string>)
    ensures Requests(names, n, xs + ys) == Requests(Requests(names, n, xs), n, ys)
    decreases |ys|
  {
    if ys == [] {
      assert xs + ys == xs;
    } else {
      RequestsAppend(names, n, xs, ys[..|ys| - 1]);
      assert (xs + ys)[..|xs + ys| - 1] == xs + ys[..|ys| - 1];
    }
  }

  /** Asking again for a name that has a slot leaves the list, and so the pool, as it was. The answer then
      lasts for exactly j + n - |names| further fresh allocations, where j is the name's number: the next
      one gives the address to another name. That is n - 1 if and only if the name is the newest one. */
  lemma RepeatDoesNotRenew(names: seq<string>, n: nat, d: string, j: nat, more: seq<string>, later: Pool, first: Ipv4,
                           dotted: Ipv4 -> string)
    requires n > 0 && Oldest(names, n) <= j < |names| && names[j] == d
    requires Agrees(later, names + more, n) && Spaced(names + more, n) && first + n <= 0x1_0000_0000
    ensures Request(names, n, d) == names
    ensures var holder, lasts := DomainFor(later, first, SlotIp(first, j % n)), j + n - |names|;
            && (|more| <= lasts ==> holder == Some(d))
            && (|more| == lasts + 1 ==> holder == Some(more[|more| - 1]) && more[|more| - 1] != d)
            && (lasts == n - 1 <==> j == |names| - 1)
  {
    WindowHolds(names, n, j);
    AddressWindow(later, names + more, n, first, j, dotted);
    AddressHolds(later, names + more, n, first, j, dotted);
    if |more| == j + n + 1 - |names| {
      assert Latest(j, n, |names + more|) == j + n;
    }
  }

  /** An answered address has the slot of the number that its name has in the window. */
  lemma AnswerNumber(p: Pool, names: seq<string>, n: nat, first: Ipv4, ip: Ipv4, d: string) returns (j: nat)
    requires Agrees(p, names, n) && first + n <= 0x1_0000_0000 && DomainFor(p, first, ip) == Some(d)
    ensures Oldest(names, n) <= j < |names| && names[j] == d && ip == SlotIp(first, j % n)
  {
    j := WindowIndex(names, n, d);
  }

  // ---- The code ----

  class FakeIpPool {
    const first: Ipv4
    const slots: array<Option<string>>
    var byDomain: map<string, nat>
    var next: nat
    ghost var names: seq<string>

    function Snapshot(): Pool
      reads this, slots
    {
      Pool(slots[..], byDomain, next)
    }

    ghost predicate Valid()
      reads this, slots
    {
      && Agrees(Snapshot(), names, slots.Length)
      && Spaced(names, slots.Length)
      && first + slots.Length <= 0x1_0000_0000
    }

    constructor (first: Ipv4, size: nat)
      requires size > 0 && first + size <= 0x1_0000_0000
      ensures Valid() && names == [] && this.first == first && slots.Length == size
      ensures fresh(slots)
    {
      this.first := first;
      slots := new Option<string>[size](_ => None);
      byDomain, next := map[], 0;
      names := [];
    }

    /** Gives the next slot to `name`, taking it from its previous owner. */
    method Store(name: string) returns (slot: nat)
      requires next < slots.Length
      modifies this`next, this`byDomain, slots
      ensures Snapshot() == Inserted(old(Snapshot()), name)
      ensures slot == old(next) && slots[slot] == Some(name)
    {
      ghost var before := Snapshot();
      slot := next;
      next := (slot + 1) % slots.Length;
      if slots[slot].Some? {
        byDomain := byDomain - {slots[slot].value};
      }
      slots[slot] := Some(name);
      assert slots[..] == before.slots[slot := Some(name)];
      byDomain := byDomain[name := slot];
    }

    method Insert(name: string) returns (slot: nat)
      requires Valid() && !InWindow(names, slots.Length, name)
      modifies this, slots
      ensures Snapshot() == Inserted(old(Snapshot()), name) && Valid()
      ensures names == old(names) + [name] && slot == old(next) < slots.Length && slots[slot] == Some(name)
    {
      InsertAgrees(Snapshot(), names, slots.Length, name);
      RequestSpaced(names, slots.Length, name);
      slot := Store(name);
      names := names + [name];
    }

    method Allocate(domain: string) returns (ip: Ipv4)
      requires Valid()
      modifies this, slots
      ensures Valid() && names == Request(old(names), slots.Length, Normalize(domain))
      ensures DomainFor(Snapshot(), first, ip) == Some(Normalize(domain))
      ensures names == old(names) ==> Snapshot() == old(Snapshot())
    {
      var name := Normalize(domain);
      Absent(Snapshot(), names, slots.Length, name);
      if name in byDomain {
        SlotOfName(Snapshot(), names, slots.Length, name);
        SlotStandsFor(Snapshot(), first, byDomain[name], name);
        return SlotIp(first, byDomain[name]);
      }
      var slot := Insert(name);
      SlotStandsFor(Snapshot(), first, slot, name);
      ip := SlotIp(first, slot);
    }

    /** Two requests in a row: spellings of one name get one address; two names have two addresses for as
        long as the first one's is its own. */
    method AllocateTwo(a: string, b: string) returns (x: Ipv4, y: Ipv4)
      requires Valid()
      modifies this, slots
      ensures Valid()
      ensures SameName(a, b) ==> x == y && names == Request(old(names), slots.Length, Normalize(a))
      ensures !SameName(a, b) ==> (x == y <==> DomainFor(Snapshot(), first, x) != Some(Normalize(a)))
    {
      NormalizeMeans(a, b);
      RequestTwice(old(names), slots.Length, Normalize(a));
      x := Allocate(a);
      ghost var mid, before := names, Snapshot();
      y := Allocate(b);
      TwoAnswers(before, mid, Snapshot(), slots.Length, first, x, Normalize(a), y, Normalize(b));
    }

    method LookUp(ip: Ipv4) returns (domain: Option<string>)
      requires Valid()
      ensures domain == DomainFor(Snapshot(), first, ip)
    {
      if !(first <= ip <= first + slots.Length - 1) {
        return None;
      }
      domain := slots[ip - first];
    }

    /** Any sequence of requests on a new pool leaves it in agreement with the simple account. */
    method AllocateAll(domains: seq<string>)
      requires Valid()
      modifies this, slots
      ensures Valid() && names == Requests(old(names), slots.Length, domains)
    {
      ghost var before := names;
      for i := 0 to |domains|
        invariant Valid() && names == Requests(before, slots.Length, domains[..i])
      {
        var _ := Allocate(domains[i]);
        RequestsSnoc(before, slots.Length, domains, i);
      }
      assert domains[..|domains|] == domains;
    }
  }

  lemma RequestsSnoc(names: seq<string>, n: nat, ds: seq<string>, i: nat)
    requires i < |ds|
    ensures Requests(names, n, ds[..i + 1]) == Request(Requests(names, n, ds[..i]), n, Normalize(ds[i]))
  {
    assert ds[..i + 1][..i] == ds[..i];
  }

  /** The reverse index knows exactly the names of the window. */
  lemma Absent(p: Pool, names: seq<string>, n: nat, d: string)
    requires Agrees(p, names, n)
    ensures d in p.byDomain <==> InWindow(names, n, d)
  {
    if InWindow(names, n, d) {
      var j := WindowIndex(names, n, d);
    }
  }
}

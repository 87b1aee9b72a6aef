/** Numbering the slots of a ring. */
module Ring {

  lemma Multiple(n: int, d: int)
    requires n > 0
    ensures d >= 1 ==> n * d >= n
    ensures d <= -1 ==> n * d <= -n
  {
  }

  lemma ModOf(q: int, n: nat, i: nat)
    requires i < n
    ensures (n * q + i) % n == i
  {
    var x := n * q + i;
    assert n * (q - x / n) == x % n - i;
    Multiple(n, q - x / n);
  }

  /** Numbers less than one turn apart have different slots. */
  lemma SlotsDiffer(j: nat, k: nat, n: nat)
    requires j < k < j + n
    ensures j % n != k % n
  {
    assert k - j == n * (k / n - j / n) + (k % n - j % n);
    Multiple(n, k / n - j / n);
  }

  lemma NextOf(k: nat, q: int, n: nat, r: nat)
    requires r < n && k == n * q + r
    ensures (r + 1) % n == (k + 1) % n
  {
    assert k + 1 == n * q + (r + 1);
    if r + 1 < n {
      ModOf(q, n, r + 1);
      ModOf(0, n, r + 1);
    } else {
      NextTurn(q, n);
      ModOf(1, n, 0);
    }
  }

  lemma NextSlot(k: nat, n: nat)
    requires n > 0
    ensures (k % n + 1) % n == (k + 1) % n
  {
    NextOf(k, k / n, n, k % n);
  }

  lemma NextTurn(q: int, n: nat)
    requires n > 0
    ensures (n * q + (n - 1) + 1) % n == 0
  {
    assert n * (q + 1) == n * q + n;
    ModOf(q + 1, n, 0);
  }

  lemma SameSlot(k: nat, n: nat)
    requires n > 0
    ensures (k + n) % n == k % n
  {
    assert n * (k / n + 1) == n * (k / n) + n;
    ModOf(k / n + 1, n, k % n);
  }
}

/** Sums over finite maps and sequences, used to state what the ledgers of the
    other modules add up to. */
module Sums {

  ghost function Pick<K>(m: map<K, int>): (k: K)
    requires m != map[]
    ensures k in m
  {
    assert m.Keys != {};
    var k :| k in m.Keys;
    k
  }

  /** The sum of all values of `m`. */
  ghost function Total<K>(m: map<K, int>): int
    decreases |m|
  {
    if m == map[] then 0 else m[Pick(m)] + Total(m - {Pick(m)})
  }

  /** The entry taken off first does not matter. */
  lemma {:induction false} TotalRemove<K>(m: map<K, int>, k: K)
    requires k in m
    ensures Total(m) == m[k] + Total(m - {k})
    decreases |m|
  {
    var c := Pick(m);
    if c != k {
      assert m - {c} - {k} == m - {k} - {c};
      TotalRemove(m - {c}, k);
      TotalRemove(m - {k}, c);
    }
  }

  /** Writing one entry moves the sum by the change of that entry. */
  lemma TotalUpdate<K>(m: map<K, int>, k: K, v: int)
    ensures Total(m[k := v]) == Total(m) - (if k in m then m[k] else 0) + v
  {
    TotalRemove(m[k := v], k);
    assert m[k := v] - {k} == m - {k};
    if k in m {
      TotalRemove(m, k);
    } else {
      assert m - {k} == m;
    }
  }

  lemma {:induction false} TotalNonNegative<K>(m: map<K, int>)
    requires forall k :: k in m ==> 0 <= m[k]
    ensures 0 <= Total(m)
    ensures forall k :: k in m ==> m[k] <= Total(m)
    decreases |m|
  {
    forall k | k in m
      ensures 0 <= m[k] <= Total(m)
    {
      TotalRemove(m, k);
      TotalNonNegative(m - {k});
    }
    if m != map[] {
      TotalRemove(m, Pick(m));
    }
  }

  /** Pointwise `a <= b` carries over to the sums. */
  lemma {:induction false} TotalMonotone<K>(a: map<K, int>, b: map<K, int>)
    requires a.Keys == b.Keys
    requires forall k :: k in a ==> a[k] <= b[k]
    ensures Total(a) <= Total(b)
    decreases |a|
  {
    if a == map[] {
      assert b == map[];
    } else {
      var k := Pick(a);
      TotalRemove(a, k);
      TotalRemove(b, k);
      TotalMonotone(a - {k}, b - {k});
    }
  }

  lemma {:induction false} TotalZero<K>(m: map<K, int>)
    requires forall k :: k in m ==> m[k] == 0
    ensures Total(m) == 0
    decreases |m|
  {
    if m != map[] {
      TotalZero(m - {Pick(m)});
    }
  }

  lemma {:induction false} TotalLinear<K>(r: map<K, int>, a: map<K, int>, b: map<K, int>, c: map<K, int>)
    requires r.Keys == a.Keys == b.Keys == c.Keys
    requires forall k :: k in r ==> r[k] == a[k] + b[k] - c[k]
    ensures Total(r) == Total(a) + Total(b) - Total(c)
    decreases |r|
  {
    if r == map[] {
      assert a == map[] && b == map[] && c == map[];
    } else {
      var k := Pick(r);
      TotalRemove(r, k);
      TotalRemove(a, k);
      TotalRemove(b, k);
      TotalRemove(c, k);
      TotalLinear(r - {k}, a - {k}, b - {k}, c - {k});
    }
  }

  /** Floor-divided shares of `stake` in proportion to the entries of `held`. */
  function Shares<K>(held: map<K, int>, stake: int, whole: int): map<K, int>
    requires 0 < whole
  {
    map k | k in held :: held[k] * stake / whole
  }

  lemma FloorShare(part: int, rest: int, shares: int, stake: int, whole: int)
    requires 0 < whole && whole * shares <= rest * stake
    ensures whole * (part * stake / whole + shares) <= (part + rest) * stake
  {
    assert whole * (part * stake / whole) <= part * stake;
  }

  lemma SharesRemove<K>(held: map<K, int>, k: K, stake: int, whole: int)
    requires 0 < whole && k in held
    ensures Total(Shares(held, stake, whole)) == held[k] * stake / whole + Total(Shares(held - {k}, stake, whole))
  {
    TotalRemove(Shares(held, stake, whole), k);
    assert Shares(held, stake, whole) - {k} == Shares(held - {k}, stake, whole);
  }

  lemma SharesOfNone<K>(held: map<K, int>, stake: int, whole: int)
    requires 0 < whole && held == map[]
    ensures Total(Shares(held, stake, whole)) == 0
  {
  }

  lemma {:induction false} SharesBound<K>(held: map<K, int>, stake: int, whole: int)
    requires 0 < whole
    ensures whole * Total(Shares(held, stake, whole)) <= Total(held) * stake
    decreases |held|
  {
    hide Shares;
    if held == map[] {
      SharesOfNone(held, stake, whole);
    } else {
      var k := Pick(held);
      SharesRemove(held, k, stake, whole);
      SharesBound(held - {k}, stake, whole);
      FloorShare(held[k], Total(held - {k}), Total(Shares(held - {k}, stake, whole)), stake, whole);
    }
  }

  /** The sum of a sequence. */
  function SeqSum(s: seq<int>): int {
    if |s| == 0 then 0 else SeqSum(s[..|s| - 1]) + s[|s| - 1]
  }

  lemma SumOfMore(s: seq<int>, x: int)
    ensures SeqSum(s + [x]) == SeqSum(s) + x
  {
    assert (s + [x])[..|s|] == s;
  }

  lemma {:induction false} SeqSumAppend(a: seq<int>, b: seq<int>)
    ensures SeqSum(a + b) == SeqSum(a) + SeqSum(b)
    decreases |b|
  {
    if |b| == 0 {
      assert a + b == a;
    } else {
      SeqSumAppend(a, b[..|b| - 1]);
      assert (a + b)[..|a + b| - 1] == a + b[..|b| - 1];
    }
  }
}

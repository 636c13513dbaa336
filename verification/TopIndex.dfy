/** The truncated index of a round's best posts
    (x/reputation/internal/store.go, SetRoundPostSumDp) and the result cut from
    it at the end of the round (reputation.go, Update). */
module TopIndex {
  import opened Basics

  type Pid = string

  datatype PostDp = PostDp(pid: Pid, dp: int)

  // ------------------------------------------------------------------- sorting

  /** How many leading entries are at least as large as `dp`. */
  function Place(s: seq<PostDp>, dp: int): (k: nat)
    ensures k <= |s|
    ensures forall i :: 0 <= i < k ==> s[i].dp >= dp
    ensures k < |s| ==> s[k].dp < dp
  {
    if s == [] || s[0].dp < dp then 0 else 1 + Place(s[1..], dp)
  }

  /** Puts `x` behind every entry that is at least as large. */
  function Insert(s: seq<PostDp>, x: PostDp): seq<PostDp> {
    var k := Place(s, x.dp);
    s[..k] + [x] + s[k..]
  }

  /** sort.SliceStable by decreasing donation power. */
  function StableSort(s: seq<PostDp>): seq<PostDp> {
    if s == [] then [] else Insert(StableSort(s[..|s| - 1]), s[|s| - 1])
  }

  predicate Sorted(s: seq<PostDp>) {
    forall i, j :: 0 <= i < j < |s| ==> s[i].dp >= s[j].dp
  }

  predicate Distinct(s: seq<PostDp>) {
    forall i, j :: 0 <= i < j < |s| ==> s[i].pid != s[j].pid
  }

  predicate Listed(s: seq<PostDp>, p: Pid) {
    exists i :: 0 <= i < |s| && s[i].pid == p
  }

  lemma InsertMembers(s: seq<PostDp>, x: PostDp)
    ensures |Insert(s, x)| == |s| + 1
    ensures multiset(Insert(s, x)) == multiset(s) + multiset{x}
  {
    hide Place;
    assert s == s[..Place(s, x.dp)] + s[Place(s, x.dp)..];
  }

  lemma InsertSorted(s: seq<PostDp>, x: PostDp)
    requires Sorted(s)
    ensures Sorted(Insert(s, x))
  {
    var k := Place(s, x.dp);
    hide Place;
    var r := Insert(s, x);
    forall i, j | 0 <= i < j < |r|
      ensures r[i].dp >= r[j].dp
    {
      InsertAt(s, x, i);
      InsertAt(s, x, j);
      assert k < j ==> s[k].dp >= s[j - 1].dp;
    }
  }

  lemma InsertAt(s: seq<PostDp>, x: PostDp, i: nat)
    requires i <= |s|
    ensures var k := Place(s, x.dp);
      |Insert(s, x)| == |s| + 1 && Insert(s, x)[i] == if i < k then s[i] else if i == k then x else s[i - 1]
  {
    hide Place;
  }

  lemma InsertDistinct(s: seq<PostDp>, x: PostDp)
    requires Distinct(s) && !Listed(s, x.pid)
    ensures Distinct(Insert(s, x))
  {
    hide Place;
    var r := Insert(s, x);
    forall i, j | 0 <= i < j < |r|
      ensures r[i].pid != r[j].pid
    {
      InsertAt(s, x, i);
      InsertAt(s, x, j);
    }
  }

  /** Sorting only reorders. */
  lemma {:induction false} StableSortKeeps(s: seq<PostDp>)
    ensures |StableSort(s)| == |s|
    ensures multiset(StableSort(s)) == multiset(s)
    ensures Sorted(StableSort(s))
  {
    hide Insert, Sorted;
    if s == [] {
      EmptySorted();
    } else {
      var front, last := s[..|s| - 1], s[|s| - 1];
      StableSortKeeps(front);
      InsertMembers(StableSort(front), last);
      InsertSorted(StableSort(front), last);
      assert s == front + [last];
    }
  }

  lemma EmptySorted()
    ensures Sorted([])
  {
  }

  lemma SortMembers(s: seq<PostDp>)
    ensures forall y :: y in StableSort(s) <==> y in s
  {
    hide StableSort, Sorted;
    StableSortKeeps(s);
    assert forall y :: y in StableSort(s) <==> y in multiset(StableSort(s));
    assert forall y :: y in s <==> y in multiset(s);
  }

  lemma {:induction false} StableSortDistinct(s: seq<PostDp>)
    requires Distinct(s)
    ensures Distinct(StableSort(s))
  {
    if s != [] {
      var front, last := s[..|s| - 1], s[|s| - 1];
      var t := StableSort(front);
      StableSortDistinct(front);
      SortMembers(front);
      SortUnfold(s);
      hide StableSort, Insert;
      forall i | 0 <= i < |t|
        ensures t[i].pid != last.pid
      {
        assert t[i] in front;
      }
      InsertDistinct(t, last);
    }
  }

  lemma SortUnfold(s: seq<PostDp>)
    requires s != []
    ensures StableSort(s) == Insert(StableSort(s[..|s| - 1]), s[|s| - 1])
  {
  }

  function OfPower(s: seq<PostDp>, d: int): seq<PostDp> {
    if s == [] then []
    else (if s[0].dp == d then [s[0]] else []) + OfPower(s[1..], d)
  }

  lemma OfPowerCons(x: PostDp, s: seq<PostDp>, d: int)
    ensures OfPower([x] + s, d) == (if x.dp == d then [x] else []) + OfPower(s, d)
  {
    assert ([x] + s)[1..] == s;
  }

  lemma {:induction false} OfPowerConcat(s: seq<PostDp>, t: seq<PostDp>, d: int)
    ensures OfPower(s + t, d) == OfPower(s, d) + OfPower(t, d)
  {
    if s == [] {
      assert s + t == t;
    } else {
      hide OfPower;
      OfPowerCons(s[0], s[1..], d);
      OfPowerCons(s[0], s[1..] + t, d);
      assert s == [s[0]] + s[1..] && s + t == [s[0]] + (s[1..] + t);
      OfPowerConcat(s[1..], t, d);
    }
  }

  lemma MoveBack(a: seq<PostDp>, x: PostDp, b: seq<PostDp>, d: int)
    requires x.dp == d ==> OfPower(b, d) == []
    ensures OfPower(a + [x] + b, d) == OfPower(a + b + [x], d)
  {
    OfPowerConcat(a + [x], b, d);
    OfPowerConcat(a, [x], d);
    OfPowerConcat(a + b, [x], d);
    OfPowerConcat(a, b, d);
    assert x.dp != d ==> OfPower([x], d) == [];
  }

  lemma InsertIsStable(s: seq<PostDp>, x: PostDp, d: int)
    requires Sorted(s)
    ensures OfPower(Insert(s, x), d) == OfPower(s + [x], d)
  {
    var k := Place(s, x.dp);
    if x.dp == d {
      NoneOfPower(s[k..], d);
    }
    MoveBack(s[..k], x, s[k..], d);
    assert s == s[..k] + s[k..];
  }

  lemma {:induction false} NoneOfPower(s: seq<PostDp>, d: int)
    requires forall i :: 0 <= i < |s| ==> s[i].dp != d
    ensures OfPower(s, d) == []
  {
    if s != [] {
      NoneOfPower(s[1..], d);
    }
  }

  lemma SortSorted(s: seq<PostDp>)
    ensures Sorted(StableSort(s))
  {
    StableSortKeeps(s);
  }

  /** Posts of equal donation power stay in the order they were in. */
  lemma {:induction false} StableSortIsStable(s: seq<PostDp>, d: int)
    ensures OfPower(StableSort(s), d) == OfPower(s, d)
  {
    hide OfPower, Insert, Sorted;
    if s != [] {
      var front, last := s[..|s| - 1], s[|s| - 1];
      var sorted := StableSort(front);
      StableSortIsStable(front, d);
      SortSorted(front);
      InsertIsStable(sorted, last, d);
      OfPowerConcat(sorted, [last], d);
      OfPowerConcat(front, [last], d);
      assert s == front + [last];
    }
  }

  // --------------------------------------------------------------------- index

  function Replaced(topN: seq<PostDp>, p: Pid, dp: int): seq<PostDp> {
    seq(|topN|, i requires 0 <= i < |topN| => if topN[i].pid == p then PostDp(p, dp) else topN[i])
  }

  function WithPost(topN: seq<PostDp>, p: Pid, dp: int): seq<PostDp> {
    if Listed(topN, p) then Replaced(topN, p, dp) else topN + [PostDp(p, dp)]
  }

  /** The index after the donation power of `p` became `dp`. */
  function Updated(topN: seq<PostDp>, p: Pid, dp: int, n: nat): seq<PostDp> {
    var sorted := StableSort(WithPost(topN, p, dp));
    if |sorted| > n then sorted[..n] else sorted
  }

  /** Every entry names a post of the round with its current donation power. */
  predicate Current(s: seq<PostDp>, all: map<Pid, int>) {
    forall i :: 0 <= i < |s| ==> s[i].pid in all && all[s[i].pid] == s[i].dp
  }

  /** The true top `n` of all posts: sorted, distinct, current, and no post
      outside is larger than one inside; it is short only if it has all posts. */
  predicate IsTop(s: seq<PostDp>, all: map<Pid, int>, n: nat) {
    && |s| <= n
    && Sorted(s) && Distinct(s) && Current(s, all)
    && (forall p :: p in all && !Listed(s, p) ==> |s| == n)
    && (forall p, i :: p in all && !Listed(s, p) && 0 <= i < |s| ==> all[p] <= s[i].dp)
  }

  lemma WithPostKeeps(topN: seq<PostDp>, all: map<Pid, int>, p: Pid, dp: int)
    requires Distinct(topN) && Current(topN, all)
    ensures var r := WithPost(topN, p, dp);
      && Distinct(r) && Current(r, all[p := dp]) && PostDp(p, dp) in r
      && |r| == (if Listed(topN, p) then |topN| else |topN| + 1)
      && forall q :: q != p ==> (Listed(r, q) <==> Listed(topN, q))
  {
    var r := WithPost(topN, p, dp);
    if Listed(topN, p) {
      var i :| 0 <= i < |topN| && topN[i].pid == p;
      assert r[i] == PostDp(p, dp);
    } else {
      assert r[|topN|] == PostDp(p, dp);
    }
    forall q | q != p
      ensures Listed(r, q) <==> Listed(topN, q)
    {
      if Listed(topN, q) {
        var i :| 0 <= i < |topN| && topN[i].pid == q;
        assert r[i].pid == q;
      }
      if Listed(r, q) {
        var i :| 0 <= i < |r| && r[i].pid == q;
        assert topN[i].pid == q;
      }
    }
  }

  /** Sorting keeps the entries, hence which posts are listed. */
  lemma SortKeepsListed(r: seq<PostDp>, q: Pid)
    ensures Listed(StableSort(r), q) <==> Listed(r, q)
  {
    hide StableSort;
    SortMembers(r);
    var s := StableSort(r);
    if Listed(r, q) {
      var i :| 0 <= i < |r| && r[i].pid == q;
      assert r[i] in s;
    }
    if Listed(s, q) {
      var i :| 0 <= i < |s| && s[i].pid == q;
      assert s[i] in r;
    }
  }

  lemma ListedPrefix(s: seq<PostDp>, m: nat, j: nat)
    requires m <= |s| && j < |s|
    ensures j < m ==> Listed(s[..m], s[j].pid)
  {
    if j < m {
      assert s[..m][j] == s[j];
    }
  }

  lemma SortKeepsCurrent(r: seq<PostDp>, all: map<Pid, int>)
    requires Current(r, all)
    ensures Current(StableSort(r), all)
  {
    StableSortKeeps(r);
    SortMembers(r);
    hide StableSort;
    assert forall i :: 0 <= i < |r| ==> StableSort(r)[i] in r;
  }

  /** Cutting a sorted list behind position `n`. */
  lemma TruncatedIsTop(s: seq<PostDp>, all: map<Pid, int>, n: nat)
    requires Sorted(s) && Distinct(s) && Current(s, all)
    requires forall q :: q in all && !Listed(s, q) ==> n <= |s| && forall i :: 0 <= i < n ==> all[q] <= s[i].dp
    ensures IsTop(if |s| > n then s[..n] else s, all, n)
  {
    var t := if |s| > n then s[..n] else s;
    assert t == s[..|t|];
    forall q | q in all && !Listed(t, q) && Listed(s, q)
      ensures |t| == n && forall i :: 0 <= i < n ==> all[q] <= s[i].dp
    {
      var j :| 0 <= j < |s| && s[j].pid == q;
      ListedPrefix(s, |t|, j);
    }
  }

  /** Donation power only grows within a round, and then the incremental update
      keeps the index the true top `n`. */
  lemma UpdatedIsTop(topN: seq<PostDp>, all: map<Pid, int>, p: Pid, dp: int, n: nat)
    requires IsTop(topN, all, n)
    requires p in all ==> all[p] <= dp
    ensures IsTop(Updated(topN, p, dp, n), all[p := dp], n)
  {
    hide WithPost, StableSort, Sorted, Distinct, Current, Listed;
    var r := WithPost(topN, p, dp);
    WithPostKeeps(topN, all, p, dp);
    StableSortKeeps(r);
    StableSortDistinct(r);
    SortKeepsCurrent(r, all[p := dp]);
    forall q | q in all[p := dp] && !Listed(StableSort(r), q)
      ensures n <= |r| && forall i :: 0 <= i < n ==> all[p := dp][q] <= StableSort(r)[i].dp
    {
      OutsideStaysSmaller(topN, all, p, dp, n, q);
    }
    TruncatedIsTop(StableSort(r), all[p := dp], n);
  }

  /** A post outside both lists is no larger than what the sorted list keeps. */
  lemma OutsideStaysSmaller(topN: seq<PostDp>, all: map<Pid, int>, p: Pid, dp: int, n: nat, q: Pid)
    requires IsTop(topN, all, n)
    requires p in all ==> all[p] <= dp
    requires q in all[p := dp] && !Listed(StableSort(WithPost(topN, p, dp)), q)
    ensures var s := StableSort(WithPost(topN, p, dp));
      n <= |s| && forall i :: 0 <= i < n ==> all[p := dp][q] <= s[i].dp
  {
    var r := WithPost(topN, p, dp);
    WithPostKeeps(topN, all, p, dp);
    StableSortKeeps(r);
    SortMembers(r);
    SortKeepsListed(r, q);
    assert q != p by {
      assert exists i :: 0 <= i < |r| && r[i] == PostDp(p, dp);
    }
    forall i | 0 <= i < n
      ensures all[q] <= StableSort(r)[i].dp
    {
      SortedKeepsLarge(topN, all, p, dp, q, i);
    }
  }

  lemma SortedKeepsLarge(topN: seq<PostDp>, all: map<Pid, int>, p: Pid, dp: int, q: Pid, i: nat)
    requires Distinct(topN) && Current(topN, all) && i < |topN|
    requires q in all && forall j :: 0 <= j < |topN| ==> all[q] <= topN[j].dp
    requires p in all ==> all[p] <= dp
    ensures i < |StableSort(WithPost(topN, p, dp))| && all[q] <= StableSort(WithPost(topN, p, dp))[i].dp
  {
    var r := WithPost(topN, p, dp);
    var s := StableSort(r);
    WithPostKeeps(topN, all, p, dp);
    StableSortKeeps(r);
    SortMembers(r);
    StableSortDistinct(r);
    hide StableSort, WithPost;
    assert s[i] in r;
    if s[i] == PostDp(p, dp) && !Listed(topN, p) {
      // some other entry follows the new one and is at least as large as q
      assert s[i + 1] in r && s[i + 1] != s[i];
      AppendedOrOld(topN, p, dp, s[i + 1]);
    } else {
      OldEntryGrew(topN, all, p, dp, s[i]);
    }
  }

  lemma AppendedOrOld(topN: seq<PostDp>, p: Pid, dp: int, x: PostDp)
    requires !Listed(topN, p) && x in WithPost(topN, p, dp) && x != PostDp(p, dp)
    ensures x in topN
  {
  }

  lemma OldEntryGrew(topN: seq<PostDp>, all: map<Pid, int>, p: Pid, dp: int, x: PostDp)
    requires Current(topN, all) && (p in all ==> all[p] <= dp)
    requires x in WithPost(topN, p, dp) && (x == PostDp(p, dp) ==> Listed(topN, p))
    ensures exists j :: 0 <= j < |topN| && topN[j].dp <= x.dp
  {
    var j :| 0 <= j < |WithPost(topN, p, dp)| && WithPost(topN, p, dp)[j] == x;
    assert j < |topN| && topN[j].dp <= x.dp;
  }

  /** SetRoundPostSumDp's edit of the index: replace or append, sort, truncate. */
  method SetTopN(entries: seq<PostDp>, p: Pid, dp: int, n: nat) returns (topN: seq<PostDp>)
    ensures topN == Updated(entries, p, dp, n)
  {
    topN := entries;
    var alreadyInTop := false;
    for i := 0 to |topN|
      invariant |topN| == |entries|
      invariant forall j :: 0 <= j < i ==> topN[j] == if entries[j].pid == p then PostDp(p, dp) else entries[j]
      invariant forall j :: i <= j < |topN| ==> topN[j] == entries[j]
      invariant alreadyInTop <==> Listed(entries[..i], p)
    {
      if topN[i].pid == p {
        alreadyInTop := true;
        topN := topN[i := topN[i].(dp := dp)];
      }
      assert entries[..i + 1] == entries[..i] + [entries[i]];
      assert Listed(entries[..i + 1], p) <==> Listed(entries[..i], p) || entries[i].pid == p by {
        ListedSnoc(entries[..i], entries[i], p);
      }
    }
    assert entries[..|entries|] == entries;
    if alreadyInTop {
      assert topN == Replaced(entries, p, dp);
    } else {
      assert topN == entries;
      topN := topN + [PostDp(p, dp)];
    }
    topN := StableSort(topN);
    StableSortKeeps(topN);
    if |topN| > n {
      topN := topN[..n];
    }
  }

  lemma ListedSnoc(s: seq<PostDp>, x: PostDp, p: Pid)
    ensures Listed(s + [x], p) <==> Listed(s, p) || x.pid == p
  {
    if Listed(s, p) {
      var i :| 0 <= i < |s| && s[i].pid == p;
      assert (s + [x])[i].pid == p;
    }
    assert (s + [x])[|s|] == x;
  }

  // ----------------------------------------------------- index and full sort

  function Pids(s: seq<PostDp>): (r: seq<Pid>)
    ensures |r| == |s| && forall i :: 0 <= i < |r| ==> r[i] == s[i].pid
  {
    seq(|s|, i requires 0 <= i < |s| => s[i].pid)
  }

  lemma PidsDistinct(s: seq<PostDp>)
    requires Distinct(s)
    ensures NoDuplicates(Pids(s))
  {
  }

  lemma PidsListed(s: seq<PostDp>)
    ensures forall p :: p in Pids(s) <==> Listed(s, p)
  {
    forall p
      ensures p in Pids(s) <==> Listed(s, p)
    {
      if Listed(s, p) {
        var i :| 0 <= i < |s| && s[i].pid == p;
        assert Pids(s)[i] == p;
      }
    }
  }

  /** A list of posts within another is no longer. */
  lemma ListedWithin(a: seq<PostDp>, b: seq<PostDp>)
    requires Distinct(a) && Distinct(b) && forall i :: 0 <= i < |a| ==> Listed(b, a[i].pid)
    ensures |a| <= |b|
  {
    hide Distinct, Listed, Pids;
    PidsDistinct(a);
    PidsDistinct(b);
    PidsListed(b);
    Pigeonhole(Pids(a), Pids(b));
  }

  lemma PrefixDistinct(s: seq<PostDp>, m: nat)
    requires Distinct(s) && m <= |s|
    ensures Distinct(s[..m])
  {
  }

  /** If `b` contains whatever in `a` exceeds its entry `i`, then `a` has nothing
      larger at position `i`. */
  lemma NotLarger(a: seq<PostDp>, b: seq<PostDp>, i: nat)
    requires i < |a| && i < |b| && Sorted(a) && Sorted(b) && Distinct(a) && Distinct(b)
    requires forall x :: x in a && x.dp > b[i].dp ==> x in b
    ensures a[i].dp <= b[i].dp
  {
    if a[i].dp > b[i].dp {
      PrefixDistinct(a, i + 1);
      PrefixDistinct(b, i);
      forall k | 0 <= k < i + 1
        ensures Listed(b[..i], a[k].pid)
      {
        LargeIsEarly(a, b, i, k);
      }
      hide Sorted, Distinct, Listed;
      ListedWithin(a[..i + 1], b[..i]);
    }
  }

  lemma LargeIsEarly(a: seq<PostDp>, b: seq<PostDp>, i: nat, k: nat)
    requires k <= i < |a| && i < |b| && Sorted(a) && Sorted(b) && a[i].dp > b[i].dp
    requires forall x :: x in a && x.dp > b[i].dp ==> x in b
    ensures Listed(b[..i], a[k].pid)
  {
    assert a[k].dp >= a[i].dp;
    assert a[k] in b;
    var j :| 0 <= j < |b| && b[j] == a[k];
    assert b[..i][j].pid == a[k].pid;
  }

  /** Both list all larger posts of the same round. */
  lemma LargerIn(s: seq<PostDp>, t: seq<PostDp>, all: map<Pid, int>, bound: int)
    requires Current(s, all) && Current(t, all)
    requires forall p :: p in all && all[p] > bound ==> Listed(t, p)
    ensures forall x :: x in s && x.dp > bound ==> x in t
  {
    forall x | x in s && x.dp > bound
      ensures x in t
    {
      var j :| 0 <= j < |t| && t[j].pid == x.pid;
      assert t[j] == x;
    }
  }

  lemma IndexLength(s: seq<PostDp>, all: map<Pid, int>, n: nat, full: seq<PostDp>)
    requires IsTop(s, all, n)
    requires Distinct(full) && Current(full, all) && forall p :: p in all ==> Listed(full, p)
    ensures |s| == Min(|full|, n)
  {
    hide Sorted, Distinct, Listed;
    ListedWithin(s, full);
    if |s| < n {
      ListedWithin(full, s);
    }
  }

  /** The index shows the same donation powers as a full sort of all posts cut at
      `n`; only the order among equals may differ. */
  lemma IndexMatchesFullSort(s: seq<PostDp>, all: map<Pid, int>, n: nat, full: seq<PostDp>)
    requires IsTop(s, all, n)
    requires Sorted(full) && Distinct(full) && Current(full, all)
    requires forall p :: p in all ==> Listed(full, p)
    ensures |s| == Min(|full|, n)
    ensures forall i :: 0 <= i < |s| ==> s[i].dp == full[i].dp
  {
    hide Sorted, Distinct, Current, Listed;
    IndexLength(s, all, n, full);
    forall i | 0 <= i < |s|
      ensures s[i].dp == full[i].dp
    {
      LargerIn(full, s, all, s[i].dp);
      NotLarger(full, s, i);
      LargerIn(s, full, all, full[i].dp);
      NotLarger(s, full, i);
    }
  }

  // ------------------------------------------------------------- round result

  function PowerSum(s: seq<PostDp>): int {
    if s == [] then 0 else PowerSum(s[..|s| - 1]) + s[|s| - 1].dp
  }

  /** `k` entries: the shortest non-empty prefix that reaches `bound`, or the
      whole index if none does. */
  predicate IsCover(s: seq<PostDp>, bound: int, k: nat) {
    && k <= |s|
    && (k == 0 ==> s == [])
    && (k < |s| ==> bound <= PowerSum(s[..k]))
    && (forall j :: 1 <= j < k ==> PowerSum(s[..j]) < bound)
  }

  function CoverFrom(s: seq<PostDp>, bound: int, k: nat): (r: nat)
    requires 1 <= k <= |s| && forall j :: 1 <= j < k ==> PowerSum(s[..j]) < bound
    ensures IsCover(s, bound, r)
    decreases |s| - k
  {
    if k == |s| || bound <= PowerSum(s[..k]) then k else CoverFrom(s, bound, k + 1)
  }

  function Cover(s: seq<PostDp>, bound: int): (k: nat)
    ensures IsCover(s, bound, k)
  {
    if s == [] then 0 else CoverFrom(s, bound, 1)
  }

  lemma CoverIsUnique(s: seq<PostDp>, bound: int, j: nat, k: nat)
    requires IsCover(s, bound, j) && IsCover(s, bound, k)
    ensures j == k
  {
  }

  function SumRepOf(sumRep: map<Pid, int>, p: Pid): int {
    if p in sumRep then sumRep[p] else 0
  }

  /** The posts with donation power and positive reputation, in order. */
  function Best(s: seq<PostDp>, sumRep: map<Pid, int>): seq<Pid> {
    if s == [] then []
    else
      var last := s[|s| - 1];
      Best(s[..|s| - 1], sumRep) + if last.dp > 0 && SumRepOf(sumRep, last.pid) > 0 then [last.pid] else []
  }

  /** Posts without donation power at the end of a prefix add nothing. */
  lemma {:induction false} PowerlessTail(s: seq<PostDp>, sumRep: map<Pid, int>, j: nat, k: nat)
    requires j <= k <= |s| && forall i :: j <= i < k ==> s[i].dp <= 0
    ensures Best(s[..k], sumRep) == Best(s[..j], sumRep)
  {
    if j < k {
      PowerlessTail(s, sumRep, j, k - 1);
      assert s[..k][..k - 1] == s[..k - 1];
    }
  }

  lemma SortedTail(s: seq<PostDp>, k: nat, end: nat)
    requires Sorted(s) && 0 < k <= end <= |s|
    ensures forall j :: k <= j < end ==> s[j].dp <= s[k - 1].dp
  {
  }

  /** The loop of Update over the index. `power` is re-read for each post, as the
      code does. */
  method RoundResult(topN: seq<PostDp>, power: map<Pid, int>, sumRep: map<Pid, int>, bound: int)
    returns (result: seq<Pid>)
    requires Sorted(topN) && Current(topN, power) && forall i :: 0 <= i < |topN| ==> 0 <= topN[i].dp
    ensures result == Best(topN[..Cover(topN, bound)], sumRep)
  {
    result := [];
    var covered := 0;
    ghost var cover := Cover(topN, bound);
    var i := 0;
    while i < |topN|
      invariant 0 <= i <= |topN|
      invariant covered == PowerSum(topN[..i])
      invariant result == Best(topN[..i], sumRep)
      invariant 0 < cover && (cover < i || (cover == i && i < |topN|)) ==> topN[cover - 1].dp <= 0
    {
      var postDp := power[topN[i].pid];
      covered := covered + postDp;
      assert topN[..i + 1][..i] == topN[..i];
      i := i + 1;
      if postDp <= 0 {
        continue;
      }
      if SumRepOf(sumRep, topN[i - 1].pid) > 0 {
        result := result + [topN[i - 1].pid];
      }
      if covered >= bound {
        break;
      }
    }
    assert topN[..|topN|] == topN;
    if cover < i {
      SortedTail(topN, cover, i);
      PowerlessTail(topN, sumRep, cover, i);
    }
  }
}

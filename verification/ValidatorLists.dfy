/** The on-call list always holds the highest deposits (x/validator/manager.go). */
module ValidatorLists {
  import opened Basics
  import opened Validators

  // --------------------------------------------------------------------- lists

  lemma {:induction false} RemoveKeeps(me: Name, list: seq<Name>)
    requires NoDuplicates(list)
    ensures NoDuplicates(Remove(me, list))
    ensures forall n :: n in Remove(me, list) <==> n in list && n != me
    ensures |Remove(me, list)| == |list| - if me in list then 1 else 0
  {
    if list != [] {
      var front, last := list[..|list| - 1], list[|list| - 1];
      RemoveKeeps(me, front);
      assert list == front + [last];
      assert last !in front;
    }
  }

  lemma {:induction false} RemoveAbsent(me: Name, list: seq<Name>)
    requires me !in list
    ensures Remove(me, list) == list
  {
    if list != [] {
      assert list == list[..|list| - 1] + [list[|list| - 1]];
      RemoveAbsent(me, list[..|list| - 1]);
    }
  }

  lemma ReplaceKeeps(list: seq<Name>, from: Name, successor: Name)
    requires NoDuplicates(list) && successor !in list && from in list
    ensures NoDuplicates(Replace(list, from, successor))
    ensures forall n :: n in Replace(list, from, successor) <==> n == successor || (n in list && n != from)
  {
    var r := Replace(list, from, successor);
    forall n
      ensures n in r <==> n == successor || (n in list && n != from)
    {
      if n == successor {
        var i :| 0 <= i < |list| && list[i] == from;
        assert r[i] == n;
      } else if n in list && n != from {
        var i :| 0 <= i < |list| && list[i] == n;
        assert r[i] == n;
      }
    }
  }

  // ----------------------------------------------------------- lowest and best

  /** The search starts from the largest int64. It finds nobody exactly when every
      deposit is at least that, and a true lowest otherwise. */
  lemma {:induction false} LowestIsLowest(vals: map<Name, Validator>, oncall: seq<Name>)
    ensures var (name, power) := Lowest(vals, oncall);
      && power <= MAX_INT64
      && (power == MAX_INT64 <==> forall n :: n in oncall ==> MAX_INT64 <= Dep(vals, n))
      && (power == MAX_INT64 ==> name == "")
      && (power < MAX_INT64 ==> name in oncall && power == Dep(vals, name))
      && forall n :: n in oncall ==> power <= Dep(vals, n)
  {
    if oncall != [] {
      var front, last := oncall[..|oncall| - 1], oncall[|oncall| - 1];
      LowestIsLowest(vals, front);
      assert oncall == front + [last];
    }
  }

  /** Of several lowest the first on call is named. */
  lemma {:induction false} LowestIsFirst(vals: map<Name, Validator>, oncall: seq<Name>) returns (j: nat)
    requires Lowest(vals, oncall).1 < MAX_INT64
    ensures j < |oncall| && oncall[j] == Lowest(vals, oncall).0
    ensures forall i :: 0 <= i < j ==> Lowest(vals, oncall).1 < Dep(vals, oncall[i])
  {
    j := 0;
    if oncall != [] {
      var front, last := oncall[..|oncall| - 1], oncall[|oncall| - 1];
      if Lowest(vals, front).1 > Dep(vals, last) {
        LowestIsLowest(vals, front);
        assert forall i :: 0 <= i < |front| ==> oncall[i] == front[i] && front[i] in front;
        j := |oncall| - 1;
      } else {
        j := LowestIsFirst(vals, front);
      }
    }
  }

  /** One validator on call, whose deposit the search does not see. */
  lemma HugeDepositIsNeverLowest()
    ensures var vals := map["ann" := Validator(MAX_INT64, 0)];
      Lowest(vals, ["ann"]) == ("", MAX_INT64) && Dep(vals, "ann") == MAX_INT64
  {
    var vals := map["ann" := Validator(MAX_INT64, 0)];
    LowestIsLowest(vals, ["ann"]);
  }

  /** Only the deposits of the on-call validators matter. */
  lemma {:induction false} LowestFrame(vals: map<Name, Validator>, vals': map<Name, Validator>, oncall: seq<Name>)
    requires forall n :: n in oncall ==> Dep(vals', n) == Dep(vals, n)
    ensures Lowest(vals', oncall) == Lowest(vals, oncall)
  {
    if oncall != [] {
      LowestFrame(vals, vals', oncall[..|oncall| - 1]);
    }
  }

  /** A standby validator is listed but not on call. */
  predicate Standby(s: State, n: Name) {
    n in s.all && n !in s.oncall
  }

  lemma {:induction false} BestIsBest(vals: map<Name, Validator>, all: seq<Name>, oncall: seq<Name>)
    requires forall n :: n in all ==> 0 < Dep(vals, n) && n != ""
    ensures var (name, power) := Best(vals, all, oncall);
      && 0 <= power
      && (name == "" ==> power == 0 && forall n :: n in all ==> n in oncall)
      && (name != "" ==> name in all && name !in oncall && power == Dep(vals, name))
      && forall n :: n in all && n !in oncall ==> Dep(vals, n) <= power
  {
    if all != [] {
      var front, last := all[..|all| - 1], all[|all| - 1];
      assert all == front + [last];
      assert forall n :: n in front ==> n in all;
      BestIsBest(vals, front, oncall);
    }
  }

  /** Of several highest candidates the first listed is named. */
  lemma {:induction false} BestIsFirst(vals: map<Name, Validator>, all: seq<Name>, oncall: seq<Name>) returns (j: nat)
    requires forall n :: n in all ==> 0 < Dep(vals, n) && n != ""
    requires Best(vals, all, oncall).0 != ""
    ensures j < |all| && all[j] == Best(vals, all, oncall).0
    ensures forall i :: 0 <= i < j && all[i] !in oncall ==> Dep(vals, all[i]) < Best(vals, all, oncall).1
  {
    j := 0;
    if all != [] {
      var front, last := all[..|all| - 1], all[|all| - 1];
      assert forall n :: n in front ==> n in all;
      if last !in oncall && Dep(vals, last) > Best(vals, front, oncall).1 {
        BestIsBest(vals, front, oncall);
        assert forall i :: 0 <= i < |front| ==> all[i] == front[i] && front[i] in front;
        j := |all| - 1;
      } else {
        j := BestIsFirst(vals, front, oncall);
      }
    }
  }

  // ------------------------------------------------------------------ invariant

  predicate ValidParams(p: Params) {
    0 < p.minCommit
  }

  /** Shape of the two lists and range of the deposits in them. */
  predicate Base(p: Params, s: State) {
    && NoDuplicates(s.oncall) && NoDuplicates(s.all)
    && (forall n :: n in s.oncall ==> n in s.all)
    && (forall n :: n in s.all ==> n != "" && n in s.vals && p.minCommit <= s.vals[n].deposit < MAX_INT64)
  }

  /** Who is not listed has no deposit. */
  predicate Unlisted(s: State) {
    forall n :: n in s.vals && n !in s.all ==> s.vals[n].deposit == 0
  }

  predicate Full(p: Params, s: State) {
    |s.oncall| == Min(p.listSize, |s.all|)
  }

  /** Every on-call deposit, except possibly that of `odd`, is at least every
      standby deposit. */
  ghost predicate Top(s: State, odd: Name) {
    forall o, n :: o in s.oncall && o != odd && Standby(s, n) ==> Dep(s.vals, o) >= Dep(s.vals, n)
  }

  predicate LowestOk(s: State) {
    s.oncall != [] ==> (s.lowest, s.lowestPower) == Lowest(s.vals, s.oncall)
  }

  ghost predicate ListInv(p: Params, s: State) {
    Base(p, s) && Full(p, s) && Top(s, "") && LowestOk(s)
  }

  // ------------------------------------------------------------------- joining

  /** The cached lowest is a lowest. */
  lemma CachedLowest(p: Params, s: State)
    requires Base(p, s) && LowestOk(s) && s.oncall != []
    ensures s.lowest in s.oncall && s.lowestPower == Dep(s.vals, s.lowest)
    ensures forall n :: n in s.oncall ==> s.lowestPower <= Dep(s.vals, n)
  {
    LowestIsLowest(s.vals, s.oncall);
  }

  /** What `n` may find when it tries to join: the others are in order, except
      that one on-call deposit may be too low if `n` is a highest standby. */
  ghost predicate CanTry(p: Params, s: State, n: Name, odd: Name) {
    && Base(p, s) && LowestOk(s) && Qualifies(p, s, n) && s.vals[n].deposit < MAX_INT64 && n != "" && n !in s.oncall
    && |s.oncall| <= p.listSize
    && (forall o, m :: o in s.oncall && o != odd && Standby(s, m) && m != n ==> Dep(s.vals, o) >= Dep(s.vals, m))
    && (|s.oncall| < p.listSize || odd != "" ==> forall m :: Standby(s, m) ==> Dep(s.vals, m) <= Dep(s.vals, n))
    && (|s.oncall| < p.listSize ==> odd == "")
  }

  /** `n` in the place of the lowest, or at the end. */
  lemma JoinMembers(p: Params, s: State, n: Name)
    requires Base(p, s) && LowestOk(s) && n !in s.oncall && |s.oncall| <= p.listSize
    ensures NoDuplicates(Join(p, s, n))
    ensures |s.oncall| < p.listSize ==>
      |Join(p, s, n)| == |s.oncall| + 1 && forall m :: m in Join(p, s, n) <==> m in s.oncall || m == n
    ensures |s.oncall| == p.listSize ==> |Join(p, s, n)| == |s.oncall|
    ensures |s.oncall| == p.listSize && (Dep(s.vals, n) <= s.lowestPower || s.oncall == []) ==>
      Join(p, s, n) == s.oncall
    ensures |s.oncall| == p.listSize && Dep(s.vals, n) > s.lowestPower && s.oncall != [] ==>
      s.lowest in s.oncall && forall m :: m in Join(p, s, n) <==> m == n || (m in s.oncall && m != s.lowest)
  {
    if s.oncall != [] {
      CachedLowest(p, s);
      ReplaceKeeps(s.oncall, s.lowest, n);
    }
  }

  lemma TryBecomeFields(p: Params, s: State, n: Name)
    requires Qualifies(p, s, n)
    ensures var t := TryBecome(p, s, n);
      && t == s.(all := t.all, oncall := t.oncall, lowest := t.lowest, lowestPower := t.lowestPower)
      && t.all == (if n in s.oncall || n in s.all then s.all else s.all + [n])
      && t.oncall == (if n in s.oncall then s.oncall else Join(p, s, n))
      && LowestOk(t)
  {
    hide Lowest, Join;
  }

  lemma JoinKeepsTop(p: Params, s: State, n: Name, odd: Name, all: seq<Name>)
    requires CanTry(p, s, n, odd)
    requires forall m :: m in all <==> m in s.all || m == n
    ensures Top(s.(all := all, oncall := Join(p, s, n)), "")
  {
    hide Join, Lowest;
    JoinMembers(p, s, n);
    var joined := Join(p, s, n);
    if s.oncall != [] {
      CachedLowest(p, s);
    }
    forall o, m | o in joined && m in all && m !in joined
      ensures Dep(s.vals, o) >= Dep(s.vals, m)
    {
      assert m == n || m in s.oncall || Standby(s, m);
    }
  }

  lemma TryBecomeKeeps(p: Params, s: State, n: Name, odd: Name)
    requires CanTry(p, s, n, odd)
    requires Full(p, s) || (|s.oncall| < p.listSize && n in s.all && |s.oncall| + 1 == Min(p.listSize, |s.all|))
    ensures ListInv(p, TryBecome(p, s, n))
  {
    hide Join, Lowest, Top;
    TryBecomeFields(p, s, n);
    var t := TryBecome(p, s, n);
    JoinMembers(p, s, n);
    if n !in s.all {
      AppendKeeps(s.all, n);
    }
    JoinKeepsTop(p, s, n, odd, t.all);
    TopFrame(s.(all := t.all, oncall := t.oncall), t);
    TryBecomeSize(p, s, n);
  }

  lemma TopFrame(s: State, t: State)
    requires Top(s, "") && t.all == s.all && t.oncall == s.oncall && t.vals == s.vals
    ensures Top(t, "")
  {
    assert forall n :: Standby(t, n) ==> Standby(s, n);
  }

  lemma TryBecomeSize(p: Params, s: State, n: Name)
    requires Base(p, s) && LowestOk(s) && n !in s.oncall && Qualifies(p, s, n) && |s.oncall| <= p.listSize
    requires Full(p, s) || (|s.oncall| < p.listSize && n in s.all && |s.oncall| + 1 == Min(p.listSize, |s.all|))
    ensures Full(p, TryBecome(p, s, n))
  {
    hide Join, Lowest;
    TryBecomeFields(p, s, n);
    JoinMembers(p, s, n);
    Pigeonhole(s.oncall, s.all);
  }

  // ----------------------------------------------------------------- adjusting

  /** What AdjustValidatorList can repair: one place on call is free, or one
      on-call deposit has become too low. */
  ghost predicate Repairable(p: Params, s: State, odd: Name) {
    && Base(p, s) && Top(s, odd)
    && (|s.oncall| == Min(p.listSize, |s.all|) || (odd == "" && |s.oncall| + 1 == Min(p.listSize, |s.all|)))
  }

  lemma UpdateLowestRepairable(p: Params, s: State, odd: Name)
    requires Repairable(p, s, odd)
    ensures Repairable(p, UpdateLowest(s), odd) && LowestOk(UpdateLowest(s))
  {
    hide Lowest;
    var u := UpdateLowest(s);
    assert forall n :: Standby(u, n) ==> Standby(s, n);
  }

  lemma BestCanTry(p: Params, s: State, odd: Name, best: Name)
    requires Repairable(p, s, odd) && LowestOk(s)
    requires Standby(s, best) && forall n :: Standby(s, n) ==> Dep(s.vals, n) <= Dep(s.vals, best)
    ensures CanTry(p, s, best, odd)
  {
    hide Lowest;
    Pigeonhole(s.oncall, s.all);
  }

  lemma AdjustFields(p: Params, s: State)
    ensures var a := Adjust(p, s);
      a == s.(all := a.all, oncall := a.oncall, lowest := a.lowest, lowestPower := a.lowestPower)
  {
    hide Lowest, Best, Join;
  }

  lemma NoStandby(p: Params, s: State, odd: Name)
    requires Repairable(p, s, odd) && LowestOk(s) && forall n :: n in s.all ==> n in s.oncall
    ensures ListInv(p, s)
  {
    hide Lowest;
    Pigeonhole(s.all, s.oncall);
    Pigeonhole(s.oncall, s.all);
  }

  /** If no on-call deposit is too low, nobody on call is replaced. */
  lemma StandbyIsPromoted(p: Params, s: State, n: Name)
    requires Base(p, s) && Top(s, "") && LowestOk(s) && Standby(s, n)
    ensures s.oncall <= Join(p, s, n)
  {
    hide Lowest;
    if s.oncall != [] {
      CachedLowest(p, s);
    }
  }

  /** One swap, or one promotion, restores the order. Without an odd one among
      them, those on call stay where they are. */
  lemma AdjustKeeps(p: Params, s: State, odd: Name)
    requires ValidParams(p) && Repairable(p, s, odd)
    ensures ListInv(p, Adjust(p, s))
    ensures Adjust(p, s).all == s.all
    ensures odd == "" ==> s.oncall <= Adjust(p, s).oncall
  {
    hide Lowest, Best, Join, Top, LowestOk, CanTry;
    var s1 := UpdateLowest(s);
    UpdateLowestRepairable(p, s, odd);
    BestIsBest(s1.vals, s1.all, s1.oncall);
    var best := Best(s1.vals, s1.all, s1.oncall).0;
    if best == "" {
      NoStandby(p, s1, odd);
    } else {
      BestCanTry(p, s1, odd, best);
      TryBecomeKeeps(p, s1, best, odd);
      TryBecomeFields(p, s1, best);
      if odd == "" {
        StandbyIsPromoted(p, s1, best);
      }
    }
  }

  /** In an ordered list with the right lowest there is nothing to adjust. */
  lemma InvIsRepairable(p: Params, s: State, odd: Name)
    requires ListInv(p, s)
    ensures Repairable(p, s, odd)
  {
    hide Lowest;
  }

  // ------------------------------------------------------------------ removing

  lemma RemovedIsRepairable(p: Params, s: State, n: Name)
    requires Base(p, s) && Full(p, s) && Top(s, "") && n in s.all
    ensures Repairable(p, s.(all := Remove(n, s.all), oncall := Remove(n, s.oncall)), "")
  {
    hide Remove;
    RemoveKeeps(n, s.all);
    RemoveKeeps(n, s.oncall);
    var r := s.(all := Remove(n, s.all), oncall := Remove(n, s.oncall));
    assert forall m :: Standby(r, m) ==> Standby(s, m);
    Pigeonhole(s.oncall, s.all);
  }

  /** The others stay listed in their order; those on call keep their places, and
      one is promoted behind them if a place is free. `n` may already have lost its
      deposit when it is taken off the lists. */
  lemma RemoveFromAllKeeps(p: Params, s: State, n: Name, deposit: int)
    requires ValidParams(p) && ListInv(p, s) && n in s.vals
    requires deposit == s.vals[n].deposit || deposit == 0
    ensures var t := s.(vals := s.vals[n := s.vals[n].(deposit := deposit)]);
      var r := RemoveFromAll(p, t, n);
      && r == t.(all := r.all, oncall := r.oncall, lowest := r.lowest, lowestPower := r.lowestPower)
      && r.all == Remove(n, s.all) && Remove(n, s.oncall) <= r.oncall
      && (forall m :: m in r.all <==> m in s.all && m != n)
      && ListInv(p, r)
  {
    hide Adjust, Lowest, Remove;
    var t := s.(vals := s.vals[n := s.vals[n].(deposit := deposit)]);
    if n in s.all {
      RemovedIsRepairable(p, s, n);
      RemoveKeeps(n, s.all);
      RemoveKeeps(n, s.oncall);
      var cut := s.(all := Remove(n, s.all), oncall := Remove(n, s.oncall));
      var r := t.(all := Remove(n, s.all), oncall := Remove(n, s.oncall));
      RepairableFrame(p, cut, r);
      AdjustKeeps(p, r, "");
      AdjustFields(p, r);
    } else {
      InvFrame(p, s, t);
      RemoveAbsent(n, s.all);
      RemoveAbsent(n, s.oncall);
    }
  }

  lemma RepairableFrame(p: Params, s: State, t: State)
    requires Repairable(p, s, "") && t.all == s.all && t.oncall == s.oncall
    requires forall n :: n in s.all ==> n in t.vals && t.vals[n].deposit == s.vals[n].deposit
    ensures Repairable(p, t, "")
  {
    assert forall n :: Standby(t, n) ==> Standby(s, n);
  }

  /** Only listed deposits matter. */
  lemma InvFrame(p: Params, s: State, t: State)
    requires ListInv(p, s) && t.all == s.all && t.oncall == s.oncall
    requires t.lowest == s.lowest && t.lowestPower == s.lowestPower
    requires forall n :: n in s.all ==> n in t.vals && t.vals[n].deposit == s.vals[n].deposit
    ensures ListInv(p, t)
  {
    assert forall n :: Standby(t, n) ==> Standby(s, n);
    LowestFrame(s.vals, t.vals, s.oncall);
  }

  // ------------------------------------------------------------------ punishing

  ghost predicate Inv(p: Params, s: State) {
    ValidParams(p) && ListInv(p, s) && Unlisted(s)
  }

  lemma LowerKeeps(p: Params, s: State, n: Name, v: Validator)
    requires Inv(p, s) && n in s.vals && p.minCommit <= v.deposit <= s.vals[n].deposit
    ensures Repairable(p, s.(vals := s.vals[n := v]), n)
    ensures n in s.all
  {
    hide Lowest;
    var t := s.(vals := s.vals[n := v]);
    assert forall m :: Standby(t, m) ==> Standby(s, m);
  }

  /** What one punishment does to the stored validators. */
  function Penalised(p: Params, v: Validator, penalty: nat, offence: Offence): Validator {
    var left := v.deposit - Min(penalty, v.deposit);
    Validator(if offence == Byzantine || left < p.minCommit then 0 else left,
              if offence == AbsentCommit then 0 else v.absent)
  }

  lemma PunishFields(p: Params, s: State, n: Name, penalty: nat, offence: Offence)
    requires n in s.vals
    ensures var (t, actual) := Punish(p, s, n, penalty, offence);
      && t == s.(vals := s.vals[n := Penalised(p, s.vals[n], penalty, offence)],
                 all := t.all, oncall := t.oncall, lowest := t.lowest, lowestPower := t.lowestPower)
      && actual == s.vals[n].deposit - t.vals[n].deposit
  {
    hide Adjust;
    RemoveFromAllFields(p, s, n);
    var (t, actual) := Punish(p, s, n, penalty, offence);
    var v := Penalised(p, s.vals[n], penalty, offence);
    AdjustFields(p, RemoveFromAll(p, s, n).(vals := s.vals[n := v]));
    AdjustFields(p, s.(vals := s.vals[n := v]));
  }

  lemma RemoveFromAllFields(p: Params, s: State, n: Name)
    ensures var r := RemoveFromAll(p, s, n);
      r == s.(all := r.all, oncall := r.oncall, lowest := r.lowest, lowestPower := r.lowestPower)
  {
    hide Adjust;
    AdjustFields(p, s.(all := Remove(n, s.all), oncall := Remove(n, s.oncall)));
  }

  lemma PunishKeeps(p: Params, s: State, n: Name, penalty: nat, offence: Offence)
    requires Inv(p, s) && n in s.vals
    ensures Inv(p, Punish(p, s, n, penalty, offence).0)
  {
    hide Adjust, RemoveFromAll, ListInv, Repairable;
    UnlistedNonNegative(p, s, n);
    RemoveFromAllFields(p, s, n);
    var v := Penalised(p, s.vals[n], penalty, offence);
    if v.deposit == 0 {
      FiredKeeps(p, s, n, v);
    } else {
      FinedKeeps(p, s, n, v);
    }
  }

  lemma UnlistedNonNegative(p: Params, s: State, n: Name)
    requires Inv(p, s) && n in s.vals
    ensures 0 <= s.vals[n].deposit < MAX_INT64
  {
    hide Lowest, Top;
  }

  lemma FiredKeeps(p: Params, s: State, n: Name, v: Validator)
    requires Inv(p, s) && n in s.vals && v.deposit == 0
    ensures Inv(p, Adjust(p, RemoveFromAll(p, s, n).(vals := s.vals[n := v])))
  {
    hide Adjust, RemoveFromAll, Lowest, Repairable, Top;
    assert s.(vals := s.vals[n := s.vals[n].(deposit := s.vals[n].deposit)]) == s;
    RemoveFromAllKeeps(p, s, n, s.vals[n].deposit);
    var r := RemoveFromAll(p, s, n);
    var t := r.(vals := s.vals[n := v]);
    InvFrame(p, r, t);
    InvIsRepairable(p, t, "");
    AdjustKeeps(p, t, "");
    AdjustFields(p, t);
  }

  lemma FinedKeeps(p: Params, s: State, n: Name, v: Validator)
    requires Inv(p, s) && n in s.vals && p.minCommit <= v.deposit <= s.vals[n].deposit
    ensures Inv(p, Adjust(p, s.(vals := s.vals[n := v])))
  {
    hide Adjust, Lowest, Repairable, Top;
    var t := s.(vals := s.vals[n := v]);
    LowerKeeps(p, s, n, v);
    AdjustKeeps(p, t, n);
    AdjustFields(p, t);
  }
}

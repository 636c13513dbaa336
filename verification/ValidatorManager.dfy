/** The validator manager, its handlers and its block ticks, changing the stored
    lists and records in place. */
module ValidatorManager {
  import opened Basics
  import opened Validators
  import opened ValidatorLists
  import opened ValidatorPenalties
  import opened ValidatorRuns

  // ------------------------------------------------------------------- helpers

  /** Every listed validator has a record. */
  predicate Recorded(s: State) {
    (forall n :: n in s.oncall ==> n in s.vals) && (forall n :: n in s.all ==> n in s.vals)
  }

  lemma {:induction false} RemoveMembers(me: Name, users: seq<Name>)
    ensures forall n :: n in Remove(me, users) ==> n in users
  {
    if users != [] {
      RemoveMembers(me, users[..|users| - 1]);
      assert users == users[..|users| - 1] + [users[|users| - 1]];
    }
  }

  lemma {:induction false} RemoveSplice(me: Name, users: seq<Name>, i: nat)
    requires i < |users| && users[i] == me
    ensures Remove(me, users) == Remove(me, users[..i] + users[i + 1..])
  {
    var m := |users| - 1;
    if i == m {
      assert users[..i] + users[i + 1..] == users[..m];
    } else {
      RemoveSplice(me, users[..m], i);
      var cut := users[..i] + users[i + 1..];
      assert cut[..|cut| - 1] == users[..m][..i] + users[..m][i + 1..];
    }
  }

  lemma ReplaceMembers(users: seq<Name>, from: Name, successor: Name)
    ensures forall n :: n in Replace(users, from, successor) ==> n in users || n == successor
  {
  }

  lemma TryBecomeRecorded(p: Params, s: State, n: Name)
    requires Recorded(s)
    ensures Recorded(TryBecome(p, s, n))
  {
    hide Lowest, Replace;
    ReplaceMembers(s.oncall, s.lowest, n);
  }

  lemma AdjustRecorded(p: Params, s: State)
    requires Recorded(s)
    ensures Recorded(Adjust(p, s))
  {
    hide Lowest, Best, TryBecome;
    var s1 := UpdateLowest(s);
    TryBecomeRecorded(p, s1, Best(s1.vals, s1.all, s1.oncall).0);
  }

  lemma RemoveRecorded(p: Params, s: State, n: Name)
    requires Recorded(s)
    ensures Recorded(RemoveFromAll(p, s, n))
    ensures Recorded(s.(all := Remove(n, s.all), oncall := Remove(n, s.oncall)))
  {
    hide Adjust, Remove;
    RemoveMembers(n, s.all);
    RemoveMembers(n, s.oncall);
    AdjustRecorded(p, s.(all := Remove(n, s.all), oncall := Remove(n, s.oncall)));
  }

  lemma InvRecorded(p: Params, s: State)
    requires Inv(p, s)
    ensures Recorded(s)
  {
    hide Lowest, Top;
  }

  /** Dropping one occurrence at a time, as the Go slice is spliced. */
  method RemoveName(me: Name, list: seq<Name>) returns (users: seq<Name>)
    ensures users == Remove(me, list)
  {
    users := list;
    var idx := 0;
    while idx < |users|
      invariant 0 <= idx <= |users|
      invariant me !in users[..idx]
      invariant Remove(me, users) == Remove(me, list)
      decreases |users| - idx
    {
      if users[idx] == me {
        RemoveSplice(me, users, idx);
        ghost var before := users;
        users := users[..idx] + users[idx + 1..];
        assert users[..idx] == before[..idx];
      } else {
        assert users[..idx + 1] == users[..idx] + [users[idx]];
        idx := idx + 1;
      }
    }
    assert users[..idx] == users;
    RemoveAbsent(me, users);
  }

  // ------------------------------------------------------------------- manager

  class Manager {
    const p: Params
    var vals: map<Name, Validator>
    var oncall: seq<Name>
    var all: seq<Name>
    var pre: seq<Name>
    var lowest: Name
    var lowestPower: int
    var pool: int
    var inBlock: bool
    var consensus: set<Name>

    constructor (p: Params)
      ensures this.p == p && St() == GENESIS
    {
      this.p := p;
      vals, oncall, all, pre, lowest, lowestPower := map[], [], [], [], "", 0;
      pool, inBlock, consensus := 0, false, {};
    }

    function St(): State
      reads this
    {
      State(vals, oncall, all, pre, lowest, lowestPower, pool, inBlock, consensus)
    }

    method UpdateLowestValidator()
      requires Recorded(St())
      modifies `lowest, `lowestPower
      ensures St() == UpdateLowest(old(St()))
    {
      var newPower, newLowest := MAX_INT64, "";
      var i := 0;
      while i < |oncall|
        invariant 0 <= i <= |oncall|
        invariant (newLowest, newPower) == Lowest(vals, oncall[..i])
      {
        assert oncall[..i + 1][..i] == oncall[..i];
        if newPower > vals[oncall[i]].deposit {
          newPower := vals[oncall[i]].deposit;
          newLowest := oncall[i];
        }
        i := i + 1;
      }
      assert oncall[..i] == oncall;
      lowestPower := newPower;
      lowest := newLowest;
    }

    method GetBestCandidate() returns (best: Name)
      requires Recorded(St())
      ensures best == Best(vals, all, oncall).0
    {
      best := "";
      var power := 0;
      var i := 0;
      while i < |all|
        invariant 0 <= i <= |all|
        invariant (best, power) == Best(vals, all[..i], oncall)
      {
        assert all[..i + 1][..i] == all[..i];
        if all[i] !in oncall && vals[all[i]].deposit > power {
          best := all[i];
          power := vals[all[i]].deposit;
        }
        i := i + 1;
      }
      assert all[..i] == all;
    }

    method TryBecomeOncallValidator(n: Name) returns (ok: bool)
      requires Recorded(St())
      modifies `oncall, `all, `lowest, `lowestPower
      ensures ok == Qualifies(p, St(), n)
      ensures St() == TryBecome(p, old(St()), n) && Recorded(St())
    {
      hide Lowest;
      TryBecomeRecorded(p, St(), n);
      ok := n in vals;
      if !ok || vals[n].deposit < p.minCommit {
        return false;
      }
      if n in oncall {
        UpdateLowestValidator();
        return;
      }
      if n !in all {
        all := all + [n];
      }
      if |oncall| < p.listSize {
        oncall := oncall + [n];
      } else if vals[n].deposit > lowestPower {
        ReplaceLowest(n);
      }
      assert forall m :: m in oncall ==> m in old(oncall) || m == n;
      UpdateLowestValidator();
    }

    method ReplaceLowest(n: Name)
      modifies `oncall
      ensures oncall == Replace(old(oncall), lowest, n)
    {
      var i := 0;
      while i < |oncall|
        invariant 0 <= i <= |oncall| == |old(oncall)|
        invariant forall j :: 0 <= j < i ==> oncall[j] == if old(oncall)[j] == lowest then n else old(oncall)[j]
        invariant forall j :: i <= j < |oncall| ==> oncall[j] == old(oncall)[j]
      {
        if oncall[i] == lowest {
          oncall := oncall[i := n];
        }
        i := i + 1;
      }
    }

    method AdjustValidatorList()
      requires Recorded(St())
      modifies `oncall, `all, `lowest, `lowestPower
      ensures St() == Adjust(p, old(St())) && Recorded(St())
    {
      hide Lowest, Best, TryBecome;
      AdjustRecorded(p, St());
      UpdateLowestValidator();
      var best := GetBestCandidate();
      if best != "" {
        var _ := TryBecomeOncallValidator(best);
      }
    }

    method RemoveValidatorFromAllLists(n: Name)
      requires Recorded(St())
      modifies `oncall, `all, `lowest, `lowestPower
      ensures St() == RemoveFromAll(p, old(St()), n) && Recorded(St())
    {
      hide Adjust, Remove;
      RemoveRecorded(p, St(), n);
      if n !in all {
        return;
      }
      all := RemoveName(n, all);
      oncall := RemoveName(n, oncall);
      AdjustValidatorList();
    }

    /** Without a record there is an error, and the penalty is returned as asked. */
    method PunishOncallValidator(n: Name, penalty: nat, offence: Offence) returns (ok: bool, actual: int)
      requires Recorded(St())
      modifies `vals, `oncall, `all, `lowest, `lowestPower
      ensures ok == (n in old(vals))
      ensures ok ==> (St(), actual) == Punish(p, old(St()), n, penalty, offence)
      ensures !ok ==> St() == old(St()) && actual == penalty
      ensures Recorded(St()) && vals.Keys == old(vals.Keys)
    {
      hide Adjust, RemoveFromAll;
      actual := penalty;
      ok := n in vals;
      if !ok {
        return;
      }
      var v := vals[n];
      if penalty > v.deposit {
        actual := v.deposit;
        v := v.(deposit := 0);
      } else {
        v := v.(deposit := v.deposit - penalty);
      }
      if offence == AbsentCommit {
        v := v.(absent := 0);
      }
      if offence == Byzantine || v.deposit < p.minCommit {
        RemoveFromAllFields(p, St(), n);
        RemoveValidatorFromAllLists(n);
        actual := actual + v.deposit;
        v := v.(deposit := 0);
      }
      vals := vals[n := v];
      AdjustFields(p, St());
      AdjustValidatorList();
    }

    /** FireIncompetentValidator, over the on-call list as it was at the start. */
    method FireIncompetentValidator(byzantine: set<Name>) returns (total: int)
      requires Recorded(St())
      modifies `vals, `oncall, `all, `lowest, `lowestPower
      ensures (St(), total) == Fire(p, old(St()), old(oncall), byzantine)
    {
      hide Punish, Recorded;
      InList(St());
      total := 0;
      var names := oncall;
      var i := 0;
      while i < |names|
        invariant 0 <= i <= |names|
        invariant Recorded(St()) && vals.Keys == old(vals.Keys)
        invariant (St(), total) == Fire(p, old(St()), names[..i], byzantine)
        invariant pool == old(pool) && inBlock == old(inBlock) && pre == old(pre) && consensus == old(consensus)
      {
        assert names[..i + 1][..i] == names[..i];
        var penalty := FireIfIncompetent(names[i], byzantine);
        total := total + penalty;
        i := i + 1;
      }
      assert names[..i] == names;
    }

    method FireIfIncompetent(n: Name, byzantine: set<Name>) returns (total: int)
      requires Recorded(St()) && n in vals
      modifies `vals, `oncall, `all, `lowest, `lowestPower
      ensures (St(), total) == FireOne(p, old(St()), n, byzantine)
      ensures Recorded(St()) && vals.Keys == old(vals.Keys)
    {
      hide Punish, Recorded;
      total := 0;
      var v := vals[n];
      if n in byzantine {
        var _, penalty := PunishOncallValidator(n, p.byzantine, Byzantine);
        total := penalty;
      }
      if v.absent > p.absentLimit {
        var _, penalty := PunishOncallValidator(n, p.missCommit, AbsentCommit);
        total := total + penalty;
      }
    }

    method UpdateSigningValidator(signers: set<Name>)
      requires Recorded(St())
      modifies `vals
      ensures vals == UpdateSigning(old(vals), oncall, signers)
      ensures vals.Keys == old(vals.Keys)
    {
      var i := 0;
      while i < |oncall|
        invariant 0 <= i <= |oncall|
        invariant vals == UpdateSigning(old(vals), oncall[..i], signers) && vals.Keys == old(vals.Keys)
      {
        assert oncall[..i + 1][..i] == oncall[..i];
        var v := vals[oncall[i]];
        if oncall[i] !in signers {
          v := v.(absent := v.absent + 1);
        } else if v.absent > 0 {
          v := v.(absent := v.absent - 1);
        }
        vals := vals[oncall[i] := v];
        i := i + 1;
      }
      assert oncall[..i] == oncall;
    }

    // ----------------------------------------------------- tick.go and handlers

    method BeginBlocker(signers: set<Name>, byzantine: set<Name>)
      requires RunInv(p, St()) && !inBlock
      modifies this
      ensures St() == Step(p, old(St()), Begin(signers, byzantine)) && RunInv(p, St())
      ensures Money(St()) == Money(old(St())) && BegunByRule(p, old(St()), St(), signers, byzantine)
    {
      hide Fire, UpdateSigning, RunInv, Recorded, Money, BegunByRule;
      BeginTreats(p, St(), signers, byzantine);
      InvOfRun(p, St());
      InvRecorded(p, St());
      StepKeeps(p, St(), Begin(signers, byzantine));
      pre := oncall;
      UpdateSigningValidator(signers);
      inBlock := true;
      RecordedFrame(old(St()).(pre := oncall, vals := vals), St());
      var penalty := FireIncompetentValidator(byzantine);
      pool := pool + penalty;
    }

    /** The coins have left the savings of the account. */
    method HandleDeposit(n: Name, coin: int, linoStake: Amount) returns (ok: bool)
      requires RunInv(p, St()) && inBlock && n != "" && 0 < coin
      modifies this
      ensures ok == if n in old(vals) then p.minCommit <= old(vals)[n].deposit + coin <= linoStake
                    else p.minVoting <= linoStake && p.minCommit <= coin <= linoStake
      ensures St() == Step(p, old(St()), Op.Deposit(n, coin, linoStake)) && RunInv(p, St())
    {
      hide TryBecome, RunInv, Recorded;
      InvOfRun(p, St());
      InvRecorded(p, St());
      StepKeeps(p, St(), Op.Deposit(n, coin, linoStake));
      var saved := vals;
      if n !in vals {
        if linoStake < p.minVoting || coin < p.minCommit {
          return false;
        }
        vals := vals[n := Validator(coin, 0)];
      } else {
        vals := vals[n := vals[n].(deposit := vals[n].deposit + coin)];
      }
      RecordedFrame(old(St()), St());
      ok := linoStake >= vals[n].deposit;
      if ok {
        ghost var paid := St();
        ok := TryBecomeOncallValidator(n);
        if !ok {
          NotQualified(p, paid, n);
        }
      }
      if !ok {
        vals := saved;
      }
    }

    method HandleWithdraw(n: Name, coin: int) returns (ok: bool)
      requires RunInv(p, St()) && inBlock && 0 < coin
      modifies this
      ensures ok == (n in old(vals) && n !in old(oncall) && p.minWithdraw <= coin
                     && p.minCommit <= old(vals)[n].deposit - coin)
      ensures St() == Step(p, old(St()), Op.Withdraw(n, coin)) && RunInv(p, St())
    {
      hide RunInv;
      StepKeeps(p, St(), Op.Withdraw(n, coin));
      ok := n in vals;
      if !ok || coin < p.minWithdraw || n in oncall || vals[n].deposit - coin < p.minCommit {
        return false;
      }
      vals := vals[n := vals[n].(deposit := vals[n].deposit - coin)];
    }

    method HandleRevoke(n: Name) returns (ok: bool, coin: int)
      requires RunInv(p, St()) && inBlock
      modifies this
      ensures ok == (n in old(vals) && old(vals)[n].deposit != 0)
      ensures St() == Step(p, old(St()), Op.Revoke(n)) && RunInv(p, St())
      ensures ok ==> n in old(vals) && coin == old(vals)[n].deposit
    {
      hide RunInv, RemoveFromAll, Recorded;
      InvOfRun(p, St());
      InvRecorded(p, St());
      StepKeeps(p, St(), Op.Revoke(n));
      ok, coin := n in vals, 0;
      if !ok || vals[n].deposit == 0 {
        return false, 0;
      }
      coin := vals[n].deposit;
      vals := vals[n := vals[n].(deposit := vals[n].deposit - coin)];
      RecordedFrame(old(St()), St());
      RemoveValidatorFromAllLists(n);
    }

    /** Stops with an error at the first name without a record, after `done` others
        have been punished. */
    method PunishValidatorsDidntVote(names: seq<Name>) returns (ok: bool, done: nat, total: int)
      requires RunInv(p, St()) && inBlock
      modifies this
      ensures done <= |names| && ok == (done == |names|)
      ensures forall i :: 0 <= i < done ==> names[i] in old(vals)
      ensures !ok ==> names[done] !in old(vals)
      ensures ok ==> St() == Step(p, old(St()), MissedVote(names)) && Money(St()) == old(Money(St()))
      ensures !ok ==> (St(), total) == PunishAll(p, old(St()), names[..done])
                      && Money(St()) + total == old(Money(St()))
      ensures RunInv(p, St())
    {
      hide Punish, RunInv, Recorded, Money;
      InvOfRun(p, St());
      InvRecorded(p, St());
      ok, done, total := true, 0, 0;
      while done < |names|
        invariant 0 <= done <= |names|
        invariant Recorded(St()) && vals.Keys == old(vals.Keys)
        invariant forall i :: 0 <= i < done ==> names[i] in old(vals)
        invariant (St(), total) == PunishAll(p, old(St()), names[..done])
      {
        assert names[..done + 1][..done] == names[..done];
        var penalty;
        ok, penalty := PunishOncallValidator(names[done], p.missVote, DidntVote);
        if !ok {
          PunishAllKeeps(p, old(St()), names[..done]);
          return;
        }
        total := total + penalty;
        done := done + 1;
      }
      ok := true;
      assert names[..done] == names;
      StepKeeps(p, old(St()), MissedVote(names));
      pool := pool + total;
    }

    /** The part of GetUpdateValidatorList about the validators before the block. */
    method CollectLeaving() returns (updates: seq<Update>)
      modifies `vals
      ensures updates == Leaving(pre, oncall) && vals == Cleared(old(vals), pre, oncall)
    {
      updates := [];
      var i := 0;
      while i < |pre|
        invariant 0 <= i <= |pre|
        invariant updates == Leaving(pre[..i], oncall)
        invariant vals == Cleared(old(vals), pre[..i], oncall)
      {
        assert pre[..i + 1][..i] == pre[..i];
        if pre[i] !in oncall {
          if pre[i] in vals && vals[pre[i]].deposit == 0 {
            vals := vals - {pre[i]};
          }
          updates := updates + [(pre[i], false)];
        }
        i := i + 1;
      }
      assert pre[..i] == pre;
    }

    method CollectStaying(leaving: seq<Update>) returns (updates: seq<Update>)
      ensures updates == leaving + Staying(oncall)
    {
      updates := leaving;
      var i := 0;
      while i < |oncall|
        invariant 0 <= i <= |oncall|
        invariant updates == leaving + Staying(oncall)[..i]
      {
        updates := updates + [(oncall[i], true)];
        i := i + 1;
      }
      assert Staying(oncall)[..i] == Staying(oncall);
    }

    /** GetUpdateValidatorList, and consensus applying it. */
    method EndBlocker() returns (updates: seq<Update>)
      requires RunInv(p, St()) && inBlock
      modifies this
      ensures St() == Step(p, old(St()), End) && RunInv(p, St())
      ensures updates == Updates(old(St())) && consensus == Members(oncall)
    {
      hide RunInv, Apply, Cleared, Leaving, Staying, Members, Accepted;
      EndKeeps(p, St());
      StepKeeps(p, St(), End);
      updates := CollectLeaving();
      updates := CollectStaying(updates);
      consensus := Apply(consensus, updates);
      inBlock := false;
    }
  }

  lemma InList(s: State)
    requires Recorded(s)
    ensures forall n :: n in s.oncall ==> n in s.vals
  {
  }

  lemma RecordedFrame(s: State, t: State)
    requires Recorded(s) && t.oncall == s.oncall && t.all == s.all && s.vals.Keys <= t.vals.Keys
    ensures Recorded(t)
  {
  }

  lemma NotQualified(p: Params, s: State, n: Name)
    requires !Qualifies(p, s, n)
    ensures TryBecome(p, s, n) == s
  {
  }
}

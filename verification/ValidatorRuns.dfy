/** All runs of the validator machine: the on-call list, the money in deposits and
    penalties, and what consensus is told. */
module ValidatorRuns {
  import opened Basics
  import opened Sums
  import opened Validators
  import opened ValidatorLists

  // --------------------------------------------------------------------- money

  function Deposits(vals: map<Name, Validator>): map<Name, int> {
    map n | n in vals :: vals[n].deposit
  }

  /** All deposits and the validator inflation pool. */
  ghost function Money(s: State): int {
    Total(Deposits(s.vals)) + s.pool
  }

  lemma DepositsUpdate(vals: map<Name, Validator>, n: Name, v: Validator)
    ensures Total(Deposits(vals[n := v])) == Total(Deposits(vals)) - Dep(vals, n) + v.deposit
  {
    assert Deposits(vals[n := v]) == Deposits(vals)[n := v.deposit];
    TotalUpdate(Deposits(vals), n, v.deposit);
  }

  /** What punishing changes: deposits fall by the actual penalty. */
  ghost predicate Fined(s: State, t: State, penalty: int) {
    && t == s.(vals := t.vals, all := t.all, oncall := t.oncall, lowest := t.lowest, lowestPower := t.lowestPower)
    && t.vals.Keys == s.vals.Keys
    && (forall n :: n in s.vals ==> 0 <= t.vals[n].deposit <= s.vals[n].deposit)
    && Total(Deposits(t.vals)) + penalty == Total(Deposits(s.vals))
    && 0 <= penalty
  }

  lemma DepositsNonNegative(p: Params, s: State)
    requires Inv(p, s)
    ensures forall n :: n in s.vals ==> 0 <= s.vals[n].deposit < MAX_INT64
  {
    hide ListInv;
    forall n | n in s.vals
      ensures 0 <= s.vals[n].deposit < MAX_INT64
    {
      UnlistedNonNegative(p, s, n);
    }
  }

  lemma NotFined(p: Params, s: State)
    requires Inv(p, s)
    ensures Fined(s, s, 0)
  {
    hide Inv, Total;
    DepositsNonNegative(p, s);
  }

  lemma FinedTwice(s: State, t: State, u: State, a: int, b: int)
    requires Fined(s, t, a) && Fined(t, u, b)
    ensures Fined(s, u, a + b)
  {
    hide Total, Deposits;
  }

  /** Each actual penalty is the drop in the stored deposit. */
  lemma PunishFines(p: Params, s: State, n: Name, penalty: nat, offence: Offence)
    requires Inv(p, s) && n in s.vals
    ensures var (t, actual) := Punish(p, s, n, penalty, offence);
      && Inv(p, t) && Fined(s, t, actual)
      && actual == s.vals[n].deposit - t.vals[n].deposit
      && actual >= Min(penalty, s.vals[n].deposit)
      && (forall m :: m in s.vals && m != n ==> t.vals[m] == s.vals[m])
  {
    hide Inv, Punish, Total;
    PunishKeeps(p, s, n, penalty, offence);
    PunishFields(p, s, n, penalty, offence);
    DepositsNonNegative(p, s);
    DepositsUpdate(s.vals, n, Penalised(p, s.vals[n], penalty, offence));
  }

  /** One validator who may be byzantine, absent or both, with replacements
      happening in between. */
  lemma FireOneFines(p: Params, s: State, n: Name, byzantine: set<Name>)
    requires Inv(p, s)
    ensures var (t, penalty) := FireOne(p, s, n, byzantine); Inv(p, t) && Fined(s, t, penalty)
  {
    hide Inv, Fined, Punish;
    NotFined(p, s);
    if n in s.vals {
      var s1, a1 := s, 0;
      if n in byzantine {
        PunishFines(p, s, n, p.byzantine, Byzantine);
        var (t, a) := Punish(p, s, n, p.byzantine, Byzantine);
        s1, a1 := t, a;
      }
      if s.vals[n].absent > p.absentLimit && n in s1.vals {
        PunishFines(p, s1, n, p.missCommit, AbsentCommit);
        var (s2, a2) := Punish(p, s1, n, p.missCommit, AbsentCommit);
        FinedTwice(s, s1, s2, a1, a2);
      }
    }
  }

  /** The whole firing loop keeps deposits plus penalties constant. */
  lemma {:induction false} FireFines(p: Params, s: State, names: seq<Name>, byzantine: set<Name>)
    requires Inv(p, s)
    ensures var (t, penalty) := Fire(p, s, names, byzantine); Inv(p, t) && Fined(s, t, penalty)
  {
    hide Inv, Fined, FireOne;
    if names == [] {
      NotFined(p, s);
    } else {
      FireFines(p, s, names[..|names| - 1], byzantine);
      var (s1, a1) := Fire(p, s, names[..|names| - 1], byzantine);
      FireOneFines(p, s1, names[|names| - 1], byzantine);
      var (s2, a2) := FireOne(p, s1, names[|names| - 1], byzantine);
      FinedTwice(s, s1, s2, a1, a2);
    }
  }

  lemma {:induction false} PunishAllFines(p: Params, s: State, names: seq<Name>)
    requires Inv(p, s)
    ensures var (t, penalty) := PunishAll(p, s, names); Inv(p, t) && Fined(s, t, penalty)
  {
    hide Inv, Fined, Punish;
    if names == [] {
      NotFined(p, s);
    } else {
      var front, last := names[..|names| - 1], names[|names| - 1];
      PunishAllFines(p, s, front);
      var (s1, a1) := PunishAll(p, s, front);
      if last in s1.vals {
        PunishFines(p, s1, last, p.missVote, DidntVote);
        var (s2, a2) := Punish(p, s1, last, p.missVote, DidntVote);
        FinedTwice(s, s1, s2, a1, a2);
      }
    }
  }

  // ------------------------------------------------------------------- signing

  /** Every on-call validator is counted once, and no deposit changes. */
  lemma {:induction false} SigningCounts(vals: map<Name, Validator>, oncall: seq<Name>, signers: set<Name>)
    requires NoDuplicates(oncall)
    ensures var u := UpdateSigning(vals, oncall, signers);
      && u.Keys == vals.Keys
      && (forall n :: n in vals ==> u[n] == if n in oncall then Signed(vals[n], n in signers) else vals[n])
  {
    if oncall != [] {
      var front, last := oncall[..|oncall| - 1], oncall[|oncall| - 1];
      SigningCounts(vals, front, signers);
      assert oncall == front + [last] && last !in front;
    }
  }

  // ------------------------------------------------------------------- updates

  function Members(list: seq<Name>): set<Name> {
    set n | n in list
  }

  lemma {:induction false} ApplyConcat(known: set<Name>, a: seq<Update>, b: seq<Update>)
    ensures Apply(known, a + b) == Apply(Apply(known, a), b)
  {
    if b == [] {
      assert a + b == a;
    } else {
      ApplyConcat(known, a, b[..|b| - 1]);
      assert (a + b)[..|a + b| - 1] == a + b[..|b| - 1];
    }
  }

  lemma {:induction false} ApplyLeaving(known: set<Name>, pre: seq<Name>, oncall: seq<Name>)
    ensures Apply(known, Leaving(pre, oncall)) == known - (Members(pre) - Members(oncall))
  {
    if pre != [] {
      var front, last := pre[..|pre| - 1], pre[|pre| - 1];
      ApplyLeaving(known, front, oncall);
      assert pre == front + [last];
      assert Members(pre) == Members(front) + {last};
      ApplyConcat(known, Leaving(front, oncall), if last in oncall then [] else [(last, false)]);
      ApplyOne(Apply(known, Leaving(front, oncall)), last, false);
    }
  }

  lemma ApplyOne(known: set<Name>, n: Name, stays: bool)
    ensures Apply(known, [(n, stays)]) == if stays then known + {n} else known - {n}
  {
    assert [(n, stays)][..0] == [];
  }

  lemma {:induction false} ApplyStaying(known: set<Name>, oncall: seq<Name>)
    ensures Apply(known, Staying(oncall)) == known + Members(oncall)
  {
    if oncall != [] {
      var front, last := oncall[..|oncall| - 1], oncall[|oncall| - 1];
      ApplyStaying(known, front);
      assert Staying(oncall)[..|oncall| - 1] == Staying(front);
      assert oncall == front + [last];
      assert Members(oncall) == Members(front) + {last};
    }
  }

  /** The updates of a block turn the validators before it into those on call. */
  lemma UpdatesReachOncall(s: State)
    ensures Apply(Members(s.pre), Updates(s)) == Members(s.oncall)
  {
    hide Apply, Leaving, Staying;
    ApplyConcat(Members(s.pre), Leaving(s.pre, s.oncall), Staying(s.oncall));
    ApplyLeaving(Members(s.pre), s.pre, s.oncall);
    ApplyStaying(Members(s.pre) - (Members(s.pre) - Members(s.oncall)), s.oncall);
  }

  lemma {:induction false} ClearedKeeps(vals: map<Name, Validator>, pre: seq<Name>, oncall: seq<Name>)
    ensures var c := Cleared(vals, pre, oncall);
      && (forall n :: n in c ==> n in vals && c[n] == vals[n])
      && (forall n :: n in vals ==> (n !in c <==> n in pre && n !in oncall && vals[n].deposit == 0))
      && Total(Deposits(c)) == Total(Deposits(vals))
  {
    hide Total;
    if pre != [] {
      var front, last := pre[..|pre| - 1], pre[|pre| - 1];
      ClearedKeeps(vals, front, oncall);
      assert pre == front + [last];
      var rest := Cleared(vals, front, oncall);
      if last in rest {
        TotalRemove(Deposits(rest), last);
        assert Deposits(rest - {last}) == Deposits(rest) - {last};
      }
    }
  }

  // --------------------------------------------------------------- whole steps

  /** Within a block consensus still knows the validators from before it, who all
      have records; between blocks it knows those on call. */
  predicate BlockInv(s: State) {
    && (s.inBlock ==> s.consensus == Members(s.pre) && forall n :: n in s.pre ==> n in s.vals)
    && (!s.inBlock ==> s.consensus == Members(s.oncall))
  }

  ghost predicate RunInv(p: Params, s: State) {
    Inv(p, s) && BlockInv(s)
  }

  function Inflow(p: Params, s: State, op: Op): int {
    if !Accepted(p, s, op) then 0
    else match op
      case Deposit(_, coin, _) => coin
      case Withdraw(_, coin) => -coin
      case Revoke(n) => -s.vals[n].deposit
      case _ => 0
  }

  lemma SigningKeeps(p: Params, s: State, signers: set<Name>, t: State)
    requires RunInv(p, s) && !s.inBlock
    requires t == s.(pre := s.oncall, vals := UpdateSigning(s.vals, s.oncall, signers), inBlock := true)
    ensures Inv(p, t) && BlockInv(t) && Money(t) == Money(s)
  {
    hide UpdateSigning, Total, Lowest, Top, Full;
    SigningCounts(s.vals, s.oncall, signers);
    InvFrame(p, s, t);
    assert Deposits(t.vals) == Deposits(s.vals);
  }

  lemma BeginKeeps(p: Params, s: State, signers: set<Name>, byzantine: set<Name>)
    requires RunInv(p, s) && !s.inBlock
    ensures RunInv(p, BeginBlock(p, s, signers, byzantine))
    ensures Money(BeginBlock(p, s, signers, byzantine)) == Money(s)
  {
    hide Inv, Fire, UpdateSigning, Total, Deposits;
    var s1 := s.(pre := s.oncall, vals := UpdateSigning(s.vals, s.oncall, signers), inBlock := true);
    SigningKeeps(p, s, signers, s1);
    FireFines(p, s1, s1.oncall, byzantine);
    var (s2, penalty) := Fire(p, s1, s1.oncall, byzantine);
    PoolFrame(p, s2, s2.(pool := s2.pool + penalty));
  }

  lemma PoolFrame(p: Params, s: State, t: State)
    requires Inv(p, s) && t == s.(pool := t.pool)
    ensures Inv(p, t)
  {
    hide Lowest, Top, Full;
    InvFrame(p, s, t);
  }

  lemma PunishAllKeeps(p: Params, s: State, names: seq<Name>)
    requires RunInv(p, s) && s.inBlock
    ensures var (s1, penalty) := PunishAll(p, s, names);
      RunInv(p, s1) && Money(s1) + penalty == Money(s)
  {
    hide Inv, PunishAll, Total, Deposits;
    PunishAllFines(p, s, names);
  }

  lemma MissedVoteKeeps(p: Params, s: State, names: seq<Name>)
    requires RunInv(p, s) && s.inBlock
    ensures var (s1, penalty) := PunishAll(p, s, names);
      var t := s1.(pool := s1.pool + penalty);
      RunInv(p, t) && Money(t) == Money(s)
  {
    hide Inv, PunishAll, Total, Deposits;
    PunishAllKeeps(p, s, names);
    var (s1, penalty) := PunishAll(p, s, names);
    PoolFrame(p, s1, s1.(pool := s1.pool + penalty));
  }

  /** Until a block ends, records only change. */
  lemma BlockInvFrame(s: State, t: State)
    requires BlockInv(s) && s.inBlock && t.inBlock && t.pre == s.pre && t.consensus == s.consensus
    requires s.vals.Keys <= t.vals.Keys
    ensures BlockInv(t)
  {
  }

  lemma DepositCanTry(p: Params, s: State, n: Name, coin: int, linoStake: Amount)
    requires Inv(p, s) && Accepted(p, s, Deposit(n, coin, linoStake)) && n !in s.oncall
    ensures CanTry(p, DepositCoin(s, n, coin), n, "")
  {
    hide Lowest;
    var d := DepositCoin(s, n, coin);
    assert forall m :: Standby(d, m) ==> Standby(s, m);
    LowestFrame(s.vals, d.vals, s.oncall);
    Pigeonhole(s.oncall, s.all);
  }

  lemma DepositOncall(p: Params, s: State, n: Name, coin: int, linoStake: Amount)
    requires Inv(p, s) && Accepted(p, s, Deposit(n, coin, linoStake)) && n in s.oncall
    ensures ListInv(p, UpdateLowest(DepositCoin(s, n, coin)))
  {
    hide Lowest;
    var u := UpdateLowest(DepositCoin(s, n, coin));
    assert forall m :: Standby(u, m) ==> Standby(s, m);
  }

  lemma DepositKeeps(p: Params, s: State, n: Name, coin: int, linoStake: Amount)
    requires RunInv(p, s) && Accepted(p, s, Deposit(n, coin, linoStake))
    ensures var t := TryBecome(p, DepositCoin(s, n, coin), n);
      RunInv(p, t) && Money(t) == Money(s) + coin
  {
    hide ListInv, CanTry, Lowest, Join, Total;
    var d := DepositCoin(s, n, coin);
    TryBecomeFields(p, d, n);
    var t := TryBecome(p, d, n);
    InvMeansFull(p, s);
    if n in s.oncall {
      DepositOncall(p, s, n, coin, linoStake);
    } else {
      DepositCanTry(p, s, n, coin, linoStake);
      TryBecomeKeeps(p, d, n, "");
    }
    DepositsUpdate(s.vals, n, d.vals[n]);
    BlockInvFrame(s, t);
  }

  lemma InvMeansFull(p: Params, s: State)
    requires Inv(p, s)
    ensures Full(p, s) && forall n :: n in s.oncall ==> n in s.all
  {
    hide Lowest, Top;
  }

  lemma WithdrawKeeps(p: Params, s: State, n: Name, coin: int)
    requires RunInv(p, s) && Accepted(p, s, Withdraw(n, coin))
    ensures var t := s.(vals := s.vals[n := s.vals[n].(deposit := s.vals[n].deposit - coin)]);
      RunInv(p, t) && Money(t) == Money(s) - coin
  {
    hide Lowest, Total;
    var t := s.(vals := s.vals[n := s.vals[n].(deposit := s.vals[n].deposit - coin)]);
    assert forall m :: Standby(t, m) ==> Standby(s, m);
    LowestFrame(s.vals, t.vals, s.oncall);
    DepositsUpdate(s.vals, n, t.vals[n]);
  }

  lemma RevokeKeeps(p: Params, s: State, n: Name)
    requires RunInv(p, s) && Accepted(p, s, Revoke(n))
    ensures var t := RemoveFromAll(p, s.(vals := s.vals[n := s.vals[n].(deposit := 0)]), n);
      RunInv(p, t) && Money(t) == Money(s) - s.vals[n].deposit
  {
    hide ListInv, RemoveFromAll, Total;
    RemoveFromAllKeeps(p, s, n, 0);
    DepositsUpdate(s.vals, n, s.vals[n].(deposit := 0));
  }

  lemma EndKeeps(p: Params, s: State)
    requires RunInv(p, s) && s.inBlock
    ensures Accepted(p, s, End)
    ensures RunInv(p, EndBlock(s)) && Money(EndBlock(s)) == Money(s)
    ensures EndBlock(s).consensus == Members(s.oncall)
  {
    hide Apply, Cleared, Lowest, Top, Full, Total, Updates;
    UpdatesReachOncall(s);
    ClearedKeeps(s.vals, s.pre, s.oncall);
    InvFrame(p, s, EndBlock(s));
  }

  lemma StepKeeps(p: Params, s: State, op: Op)
    requires RunInv(p, s)
    ensures RunInv(p, Step(p, s, op))
    ensures Money(Step(p, s, op)) == Money(s) + Inflow(p, s, op)
  {
    hide RunInv, BeginBlock, EndBlock, TryBecome, RemoveFromAll, PunishAll, DepositCoin, Money, Qualifies;
    if Accepted(p, s, op) {
      match op
      case Begin(signers, byzantine) => BeginKeeps(p, s, signers, byzantine);
      case Deposit(n, coin, linoStake) => DepositKeeps(p, s, n, coin, linoStake);
      case Withdraw(n, coin) => WithdrawKeeps(p, s, n, coin);
      case Revoke(n) => RevokeKeeps(p, s, n);
      case MissedVote(names) => MissedVoteKeeps(p, s, names);
      case End => EndKeeps(p, s);
    }
  }

  lemma MessageMovesDeposit(p: Params, s: State, op: Op, m: Name)
    requires op.Deposit? || op.Withdraw? || op.Revoke?
    ensures Dep(Step(p, s, op).vals, m) == Dep(s.vals, m) + OwnInflow(p, s, op, m)
  {
    hide Join, Lowest, Adjust, Remove, TryBecome, RemoveFromAll;
    if Accepted(p, s, op) {
      match op
      case Deposit(n, coin, _) => TryBecomeFields(p, DepositCoin(s, n, coin), n);
      case Withdraw(_, _) =>
      case Revoke(n) => RemoveFromAllFields(p, s.(vals := s.vals[n := s.vals[n].(deposit := 0)]), n);
    }
  }

  function OwnInflow(p: Params, s: State, op: Op, m: Name): int {
    if (op.Deposit? || op.Withdraw? || op.Revoke?) && op.name == m then Inflow(p, s, op) else 0
  }

  lemma FinedDep(s: State, t: State, penalty: int, m: Name)
    requires Fined(s, t, penalty)
    ensures 0 <= Dep(t.vals, m) <= Dep(s.vals, m)
  {
    hide Total;
  }

  lemma BeginLowersDep(p: Params, s: State, signers: set<Name>, byzantine: set<Name>, m: Name)
    requires RunInv(p, s) && !s.inBlock
    ensures Dep(BeginBlock(p, s, signers, byzantine).vals, m) <= Dep(s.vals, m)
  {
    hide Inv, Fire, UpdateSigning, Fined;
    var s1 := s.(pre := s.oncall, vals := UpdateSigning(s.vals, s.oncall, signers), inBlock := true);
    SigningKeeps(p, s, signers, s1);
    SigningDep(p, s, signers, m);
    FireFines(p, s1, s1.oncall, byzantine);
    FinedDep(s1, Fire(p, s1, s1.oncall, byzantine).0, Fire(p, s1, s1.oncall, byzantine).1, m);
  }

  lemma SigningDep(p: Params, s: State, signers: set<Name>, m: Name)
    requires RunInv(p, s)
    ensures Dep(UpdateSigning(s.vals, s.oncall, signers), m) == Dep(s.vals, m)
  {
    hide UpdateSigning, Lowest, Top, Full;
    SigningCounts(s.vals, s.oncall, signers);
  }

  lemma StepWithinOwnCoins(p: Params, s: State, op: Op, m: Name)
    requires RunInv(p, s)
    ensures Dep(Step(p, s, op).vals, m) <= Dep(s.vals, m) + OwnInflow(p, s, op, m)
  {
    hide RunInv, BeginBlock, PunishAll, Dep, Cleared, Fined, Inv;
    if Accepted(p, s, op) {
      match op
      case Begin(signers, byzantine) => BeginLowersDep(p, s, signers, byzantine, m);
      case Deposit(_, _, _) => MessageMovesDeposit(p, s, op, m);
      case Withdraw(_, _) => MessageMovesDeposit(p, s, op, m);
      case Revoke(_) => MessageMovesDeposit(p, s, op, m);
      case MissedVote(names) =>
        InvOfRun(p, s);
        PunishAllFines(p, s, names);
        FinedDep(s, PunishAll(p, s, names).0, PunishAll(p, s, names).1, m);
      case End => ClearedDep(s, m);
    }
  }

  lemma InvOfRun(p: Params, s: State)
    requires RunInv(p, s)
    ensures Inv(p, s)
  {
    hide Inv;
  }

  lemma ClearedDep(s: State, m: Name)
    ensures Dep(EndBlock(s).vals, m) == Dep(s.vals, m)
  {
    hide Apply, Cleared, Total, Updates;
    ClearedKeeps(s.vals, s.pre, s.oncall);
  }

  // -------------------------------------------------------------- whole runs

  function Inflows(p: Params, s: State, ops: seq<Op>): int {
    if ops == [] then 0
    else Inflows(p, s, ops[..|ops| - 1]) + Inflow(p, Run(p, s, ops[..|ops| - 1]), ops[|ops| - 1])
  }

  /** Every run keeps the on-call list on top and the money accounted for. */
  lemma {:induction false} RunKeepsInv(p: Params, s: State, ops: seq<Op>)
    requires RunInv(p, s)
    ensures RunInv(p, Run(p, s, ops))
    ensures Money(Run(p, s, ops)) == Money(s) + Inflows(p, s, ops)
  {
    hide RunInv, Step, Money, Inflow;
    if ops != [] {
      RunKeepsInv(p, s, ops[..|ops| - 1]);
      StepKeeps(p, Run(p, s, ops[..|ops| - 1]), ops[|ops| - 1]);
    }
  }

  /** What `m` put in, minus what `m` took out. */
  function OwnCoins(p: Params, s: State, ops: seq<Op>, m: Name): int {
    if ops == [] then 0
    else OwnCoins(p, s, ops[..|ops| - 1], m) + OwnInflow(p, Run(p, s, ops[..|ops| - 1]), ops[|ops| - 1], m)
  }

  /** In every run a deposit is at most what its owner put in and did not take
      out: penalties only lower it, and nobody else's coins raise it. */
  lemma {:induction false} DepositWithinOwnCoins(p: Params, s: State, ops: seq<Op>, m: Name)
    requires RunInv(p, s)
    ensures Dep(Run(p, s, ops).vals, m) <= Dep(s.vals, m) + OwnCoins(p, s, ops, m)
  {
    hide RunInv, Step, Money, OwnInflow, Dep;
    if ops != [] {
      var front := ops[..|ops| - 1];
      DepositWithinOwnCoins(p, s, front, m);
      RunKeepsInv(p, s, front);
      StepWithinOwnCoins(p, Run(p, s, front), ops[|ops| - 1], m);
    }
  }

  /** A chain without validators is where runs start. */
  lemma GenesisInv(p: Params)
    requires ValidParams(p)
    ensures RunInv(p, GENESIS) && Money(GENESIS) == 0
  {
  }

  /** On call are the highest deposits, as many as there is room for, and the
      cached lowest is the real one. */
  ghost predicate HighestOnCall(p: Params, s: State) {
    && NoDuplicates(s.oncall) && NoDuplicates(s.all) && (forall n :: n in s.oncall ==> n in s.all)
    && |s.oncall| == Min(p.listSize, |s.all|)
    && (forall n :: n in s.all ==> n in s.vals && p.minCommit <= s.vals[n].deposit)
    && (forall o, n :: o in s.oncall && n in s.all && n !in s.oncall ==> Dep(s.vals, n) <= Dep(s.vals, o))
    && (s.oncall != [] ==> s.lowest in s.oncall && s.lowestPower == Dep(s.vals, s.lowest))
    && (forall o :: o in s.oncall ==> s.lowestPower <= Dep(s.vals, o))
  }

  lemma InvMeansHighest(p: Params, s: State)
    requires Inv(p, s)
    ensures HighestOnCall(p, s)
  {
    hide Lowest;
    if s.oncall != [] {
      CachedLowest(p, s);
    }
    assert forall n :: n in s.all && n !in s.oncall ==> Standby(s, n);
  }

  lemma OncallIsHighest(p: Params, ops: seq<Op>)
    requires ValidParams(p)
    ensures HighestOnCall(p, Run(p, GENESIS, ops))
  {
    hide Run, Inv, HighestOnCall, BlockInv, Money, Inflows;
    GenesisInv(p);
    RunKeepsInv(p, GENESIS, ops);
    InvMeansHighest(p, Run(p, GENESIS, ops));
  }

  /** The update list is never refused, and after every block consensus knows
      exactly the on-call validators. */
  ghost predicate InStep(p: Params, s: State) {
    if s.inBlock then Accepted(p, s, End) && EndBlock(s).consensus == Members(s.oncall)
    else s.consensus == Members(s.oncall)
  }

  lemma InvMeansInStep(p: Params, s: State)
    requires RunInv(p, s)
    ensures InStep(p, s)
  {
    hide Inv, EndBlock, Accepted;
    if s.inBlock {
      EndKeeps(p, s);
    }
  }

  lemma ConsensusFollowsOncall(p: Params, ops: seq<Op>)
    requires ValidParams(p)
    ensures InStep(p, Run(p, GENESIS, ops))
  {
    hide Run, RunInv, InStep, Money, Inflows;
    GenesisInv(p);
    RunKeepsInv(p, GENESIS, ops);
    InvMeansInStep(p, Run(p, GENESIS, ops));
  }
}

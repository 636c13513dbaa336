/** Delegated power and voting power (x/vote/manager.go), and what all runs of
    the stake ledger have in common. */
module Delegations {
  import opened Sums
  import opened Stake
  import opened StakeInterest

  type Pair = (Name, Name)

  /** The voter or the delegator of a delegation. */
  function Side(k: Pair, voterSide: bool): Name {
    if voterSide then k.0 else k.1
  }

  /** The delegations received (voter side) or given (delegator side) by `n`. */
  function Parts(m: map<Pair, int>, voterSide: bool, n: Name): map<Pair, int> {
    map k | k in m :: if Side(k, voterSide) == n then m[k] else 0
  }

  /** Power received (voter side) or given away (delegator side). */
  function Power(v: Voter, voterSide: bool): int {
    if voterSide then v.delegatedPower else v.toOthers
  }

  ghost predicate Balanced(s: State, voterSide: bool, n: Name) {
    n in s.voters && Power(s.voters[n], voterSide) == Total(Parts(s.delegations, voterSide, n))
  }

  predicate Sane(s: State) {
    forall k :: k in s.delegations ==> 0 < s.delegations[k] && k.0 in s.voters && k.1 in s.voters
  }

  /** On this side, every voter's power is the sum of the delegations. */
  ghost predicate SideBalanced(s: State, voterSide: bool) {
    Sane(s) && forall n :: n in s.voters ==> Balanced(s, voterSide, n)
  }

  /** Power given away is the sum of delegations given, and nobody gives away
      more than the own stake. */
  ghost predicate GivenInv(s: State) {
    && SideBalanced(s, false)
    && (forall n :: n in s.voters ==> s.voters[n].toOthers <= s.voters[n].stake)
  }

  /** In addition, delegated power is the sum of delegations received. */
  ghost predicate DelegationInv(s: State) {
    GivenInv(s) && SideBalanced(s, true)
  }

  lemma PartsUpdate(m: map<Pair, int>, k: Pair, x: int, voterSide: bool, n: Name)
    ensures Total(Parts(m[k := x], voterSide, n))
      == Total(Parts(m, voterSide, n)) + if Side(k, voterSide) == n then x - (if k in m then m[k] else 0) else 0
  {
    var part := if Side(k, voterSide) == n then x else 0;
    assert Parts(m[k := x], voterSide, n) == Parts(m, voterSide, n)[k := part];
    TotalUpdate(Parts(m, voterSide, n), k, part);
  }

  lemma PartsRemove(m: map<Pair, int>, k: Pair, voterSide: bool, n: Name)
    requires k in m
    ensures Total(Parts(m - {k}, voterSide, n))
      == Total(Parts(m, voterSide, n)) - if Side(k, voterSide) == n then m[k] else 0
  {
    TotalRemove(Parts(m, voterSide, n), k);
    assert Parts(m - {k}, voterSide, n) == Parts(m, voterSide, n) - {k};
  }

  /** Per name, what its delegations on one side add up to. */
  ghost function SideSums(m: map<Pair, int>, voterSide: bool, names: set<Name>): map<Name, int> {
    map n | n in names :: Total(Parts(m, voterSide, n))
  }

  lemma SumsRemove(m: map<Pair, int>, k: Pair, voterSide: bool, names: set<Name>)
    requires k in m && Side(k, voterSide) in names
    ensures Total(SideSums(m, voterSide, names)) == Total(SideSums(m - {k}, voterSide, names)) + m[k]
  {
    hide Parts, Total;
    var rest := SideSums(m - {k}, voterSide, names);
    var n := Side(k, voterSide);
    forall i | i in names
      ensures Total(Parts(m, voterSide, i)) == rest[i] + if n == i then m[k] else 0
    {
      PartsRemove(m, k, voterSide, i);
    }
    assert SideSums(m, voterSide, names) == rest[n := rest[n] + m[k]];
    TotalUpdate(rest, n, rest[n] + m[k]);
  }

  lemma SumsOfNone(voterSide: bool, names: set<Name>)
    ensures Total(SideSums(map[], voterSide, names)) == 0
  {
    forall n | n in names
      ensures SideSums(map[], voterSide, names)[n] == 0
    {
      TotalZero(Parts(map[], voterSide, n));
    }
    TotalZero(SideSums(map[], voterSide, names));
  }

  /** Each delegation counts for exactly one voter and one delegator. */
  lemma {:induction false} PartsAddUp(m: map<Pair, int>, voterSide: bool, names: set<Name>)
    requires forall k :: k in m ==> Side(k, voterSide) in names
    ensures Total(SideSums(m, voterSide, names)) == Total(m)
    decreases |m|
  {
    hide SideSums;
    if m == map[] {
      SumsOfNone(voterSide, names);
    } else {
      var k := Pick(m);
      SumsRemove(m, k, voterSide, names);
      PartsAddUp(m - {k}, voterSide, names);
    }
  }

  lemma PartsBound(m: map<Pair, int>, voterSide: bool, n: Name)
    requires forall k :: k in m ==> 0 < m[k]
    ensures 0 <= Total(Parts(m, voterSide, n))
    ensures forall k :: k in m && Side(k, voterSide) == n ==> m[k] <= Total(Parts(m, voterSide, n))
  {
    hide Total;
    var parts := Parts(m, voterSide, n);
    TotalNonNegative(parts);
    assert forall k :: k in m && Side(k, voterSide) == n ==> parts[k] == m[k];
  }

  /** A single delegation is within the power its delegator gave away. */
  lemma DelegationWithin(s: State, k: Pair)
    requires GivenInv(s) && k in s.delegations
    ensures k.1 in s.voters && s.delegations[k] <= s.voters[k.1].toOthers
  {
    hide Parts, Total;
    PartsBound(s.delegations, false, k.1);
    assert Balanced(s, false, k.1);
  }

  lemma PowerNonNegative(s: State, voterSide: bool, n: Name)
    requires SideBalanced(s, voterSide) && n in s.voters
    ensures 0 <= Power(s.voters[n], voterSide)
  {
    hide Parts, Total;
    PartsBound(s.delegations, voterSide, n);
    assert Balanced(s, voterSide, n);
  }

  lemma VotingPowerNonNegative(s: State, n: Name)
    requires DelegationInv(s) && n in s.voters
    ensures 0 <= s.voters[n].toOthers <= s.voters[n].stake
    ensures 0 <= s.voters[n].delegatedPower
    ensures 0 <= VotingPower(s.voters[n])
  {
    hide SideBalanced;
    PowerNonNegative(s, false, n);
    PowerNonNegative(s, true, n);
  }

  lemma VotingPowerParts(s: State, n: Name)
    requires DelegationInv(s) && n in s.voters
    ensures VotingPower(s.voters[n])
      == s.voters[n].stake + Total(Parts(s.delegations, true, n)) - Total(Parts(s.delegations, false, n))
  {
    hide Parts, Total;
    assert Balanced(s, true, n) && Balanced(s, false, n);
  }

  function Powers(s: State): map<Name, int> {
    map n | n in s.voters :: VotingPower(s.voters[n])
  }

  function StakesOf(s: State): map<Name, int> {
    map n | n in s.voters :: s.voters[n].stake
  }

  /** Delegation moves voting power around but neither creates nor destroys it. */
  lemma VotingPowerIsStake(s: State)
    requires DelegationInv(s)
    ensures Total(Powers(s)) == Total(StakesOf(s))
  {
    hide Parts, Total;
    var names := s.voters.Keys;
    PartsAddUp(s.delegations, true, names);
    PartsAddUp(s.delegations, false, names);
    var received, given := SideSums(s.delegations, true, names), SideSums(s.delegations, false, names);
    forall n | n in s.voters
      ensures Powers(s)[n] == StakesOf(s)[n] + received[n] - given[n]
    {
      assert Balanced(s, true, n) && Balanced(s, false, n);
    }
    TotalLinear(Powers(s), StakesOf(s), received, given);
  }

  // ------------------------------------------------------------- the operations

  /** Of the voter records, settling and moving stake changes one. */
  lemma ChangeStakeVoters(s: State, name: Name, delta: int)
    requires Claimable(s, name)
    ensures var c := ChangeStake(s, name, delta);
      && name in s.voters && name in c.voters && c.delegations == s.delegations
      && c.voters == s.voters[name := s.voters[name].(stake := s.voters[name].stake + delta,
                                                      interest := c.voters[name].interest, changedAt := s.now)]
  {
    hide ClaimDays, HasDays, PastDay;
  }

  lemma AccrueVoters(s: State, name: Name)
    requires Accruable(s, name)
    ensures var a := Accrue(s, name);
      && name in s.voters && name in a.voters && a.delegations == s.delegations
      && a.voters == s.voters[name := s.voters[name].(interest := a.voters[name].interest, changedAt := s.now)]
  {
    hide ClaimDays, HasDays, PastDay;
  }

  /** Stake, interest and time do not matter for what is balanced. */
  lemma BalanceFrame(s: State, s': State, voterSide: bool)
    requires SideBalanced(s, voterSide)
    requires s'.delegations == s.delegations && s'.voters.Keys == s.voters.Keys
    requires forall n :: n in s.voters ==>
      s'.voters[n].delegatedPower == s.voters[n].delegatedPower && s'.voters[n].toOthers == s.voters[n].toOthers
    ensures SideBalanced(s', voterSide)
  {
    hide Parts, Total;
    assert forall n :: n in s.voters ==> Balanced(s, voterSide, n);
  }

  lemma WithVoterBalanced(s: State, name: Name, voterSide: bool)
    requires SideBalanced(s, voterSide)
    ensures SideBalanced(WithVoter(s, name), voterSide)
  {
    hide Total;
    var w := WithVoter(s, name);
    if name !in s.voters {
      TotalZero(Parts(s.delegations, voterSide, name));
      forall n | n in w.voters
        ensures Balanced(w, voterSide, n)
      {
        assert n != name ==> Balanced(s, voterSide, n);
      }
    }
  }

  lemma ChangeStakeBalanced(s: State, name: Name, delta: int, voterSide: bool)
    requires SideBalanced(s, voterSide) && Claimable(s, name) && name in s.voters
    ensures SideBalanced(ChangeStake(s, name, delta), voterSide)
  {
    hide SideBalanced, Claimable, ChangeStake;
    ChangeStakeVoters(s, name, delta);
    BalanceFrame(s, ChangeStake(s, name, delta), voterSide);
  }

  /** What a delegation changes on one side, unless it is to oneself. */
  lemma AddDelegationPower(s: State, voter: Name, delegator: Name, coin: int, voterSide: bool, n: Name)
    requires delegator in s.voters && (voterSide ==> voter != delegator)
    ensures var a := AddDelegation(s, voter, delegator, coin);
      && a.voters.Keys == WithVoter(s, voter).voters.Keys
      && (n in a.voters ==> Power(a.voters[n], voterSide) == Power(WithVoter(s, voter).voters[n], voterSide)
                            + if Side((voter, delegator), voterSide) == n then coin else 0)
  {
  }

  lemma AddDelegationBalanced(s: State, voter: Name, delegator: Name, coin: int, voterSide: bool)
    requires SideBalanced(s, voterSide) && delegator in s.voters && 0 < coin
    requires voterSide ==> voter != delegator
    ensures SideBalanced(AddDelegation(s, voter, delegator, coin), voterSide)
  {
    hide Parts, Total, Power;
    WithVoterBalanced(s, voter, voterSide);
    var w := WithVoter(s, voter);
    var a := AddDelegation(s, voter, delegator, coin);
    AddDelegationPower(s, voter, delegator, coin, voterSide, voter);
    forall n | n in a.voters
      ensures Balanced(a, voterSide, n)
    {
      assert Balanced(w, voterSide, n);
      AddDelegationPower(s, voter, delegator, coin, voterSide, n);
      PartsUpdate(s.delegations, (voter, delegator), Delegation(s, voter, delegator) + coin, voterSide, n);
    }
  }

  lemma AddDelegationGiven(s: State, voter: Name, delegator: Name, coin: int)
    requires GivenInv(s) && delegator in s.voters && 0 < coin
    requires s.voters[delegator].toOthers + coin <= s.voters[delegator].stake
    ensures GivenInv(AddDelegation(s, voter, delegator, coin))
  {
    hide SideBalanced, Parts, Total;
    AddDelegationBalanced(s, voter, delegator, coin, false);
  }

  /** A delegation keeps the books exactly when voter and delegator differ:
      delegating to oneself loses the update of the delegated power. */
  lemma DelegationBalancedIffDistinct(s: State, voter: Name, delegator: Name, coin: int)
    requires DelegationInv(s) && delegator in s.voters && 0 < coin
    requires s.voters[delegator].toOthers + coin <= s.voters[delegator].stake
    ensures DelegationInv(AddDelegation(s, voter, delegator, coin)) <==> voter != delegator
  {
    hide Parts, Total;
    AddDelegationGiven(s, voter, delegator, coin);
    if voter != delegator {
      AddDelegationBalanced(s, voter, delegator, coin, true);
    } else {
      PartsUpdate(s.delegations, (voter, voter), Delegation(s, voter, voter) + coin, true, voter);
      assert Balanced(s, true, voter);
      assert !Balanced(AddDelegation(s, voter, voter, coin), true, voter);
    }
  }

  /** One coin delegated to oneself in the first block. */
  lemma SelfDelegationLosesPower()
    ensures var s := Run([Block(1), Delegate("ann", "ann", 1, 1)]);
      && "ann" in s.voters
      && s.voters["ann"].toOthers == 1 && s.voters["ann"].delegatedPower == 0
      && VotingPower(s.voters["ann"]) == 0 && s.voters["ann"].stake == 1
  {
    hide Claimable, Today, ClaimDays, CatchUp;
    var first, op := [Block(1)], Delegate("ann", "ann", 1, 1);
    assert [Block(1), op] == first + [op];
    assert (first + [op])[..1] == first && first[..0] == [];
    FirstBlock();
    var s := BeginBlock(GENESIS, 1);
    assert Run(first) == Step(GENESIS, Block(1)) == s;
    var w := WithVoter(s, "ann");
    AnnCanClaim(w);
    ChangeStakeVoters(w, "ann", 1);
    assert Run(first + [op]) == Step(s, op);
  }

  lemma FirstBlock()
    ensures BeginBlock(GENESIS, 1) == GENESIS.(now := 1, start := 1)
  {
  }

  lemma AnnCanClaim(w: State)
    requires w == WithVoter(GENESIS.(now := 1, start := 1), "ann")
    ensures Claimable(w, "ann")
  {
  }

  lemma WithdrawDelegationBalanced(s: State, voter: Name, delegator: Name, coin: int, voterSide: bool)
    requires SideBalanced(s, voterSide)
    requires (voter, delegator) in s.delegations && voter in s.voters && delegator in s.voters
    requires 0 < coin <= s.delegations[(voter, delegator)]
    ensures SideBalanced(WithdrawDelegation(s, voter, delegator, coin), voterSide)
  {
    hide Parts, Total;
    var w := WithdrawDelegation(s, voter, delegator, coin);
    var k := (voter, delegator);
    forall n | n in w.voters
      ensures Balanced(w, voterSide, n)
    {
      assert Balanced(s, voterSide, n);
      PartsUpdate(s.delegations, k, s.delegations[k] - coin, voterSide, n);
      PartsRemove(s.delegations, k, voterSide, n);
    }
  }

  lemma WithdrawBalanced(s: State, voter: Name, delegator: Name, coin: int, voterSide: bool)
    requires SideBalanced(s, voterSide) && Claimable(s, delegator) && (voter, delegator) in s.delegations
    requires 0 < coin <= s.delegations[(voter, delegator)]
    ensures voter in ChangeStake(s, delegator, -coin).voters && delegator in ChangeStake(s, delegator, -coin).voters
    ensures SideBalanced(WithdrawDelegation(ChangeStake(s, delegator, -coin), voter, delegator, coin), voterSide)
  {
    hide Balanced, Claimable, ChangeStake, WithdrawDelegation;
    ChangeStakeVoters(s, delegator, -coin);
    var c := ChangeStake(s, delegator, -coin);
    BalanceFrame(s, c, voterSide);
    WithdrawDelegationBalanced(c, voter, delegator, coin, voterSide);
  }

  /** What was given shrinks by as much as the stake. */
  lemma WithdrawGivenPower(s: State, voter: Name, delegator: Name, coin: int, n: Name)
    requires voter in s.voters && delegator in s.voters
    ensures var w := WithdrawDelegation(s, voter, delegator, coin);
      && w.voters.Keys == s.voters.Keys
      && (n in s.voters ==> w.voters[n].stake == s.voters[n].stake
                            && w.voters[n].toOthers == s.voters[n].toOthers - if n == delegator then coin else 0)
  {
  }

  lemma WithdrawGiven(s: State, voter: Name, delegator: Name, coin: int)
    requires GivenInv(s) && Claimable(s, delegator) && (voter, delegator) in s.delegations
    requires 0 < coin <= s.delegations[(voter, delegator)]
    ensures voter in ChangeStake(s, delegator, -coin).voters && delegator in ChangeStake(s, delegator, -coin).voters
    ensures GivenInv(WithdrawDelegation(ChangeStake(s, delegator, -coin), voter, delegator, coin))
  {
    hide SideBalanced, Claimable, ChangeStake, WithdrawDelegation;
    WithdrawBalanced(s, voter, delegator, coin, false);
    ChangeStakeVoters(s, delegator, -coin);
    var c := ChangeStake(s, delegator, -coin);
    WithdrawGivenPower(c, voter, delegator, coin, voter);
    forall n | n in c.voters
      ensures var w := WithdrawDelegation(c, voter, delegator, coin);
        n in w.voters && w.voters[n].toOthers <= w.voters[n].stake
    {
      WithdrawGivenPower(c, voter, delegator, coin, n);
    }
  }
}

/** All runs of the stake ledger: daily counters, conservation of friction,
    delegated power, and the minute ticker. */
module StakeRuns {
  import opened Sums
  import opened Stake
  import opened StakeInterest
  import opened Delegations

  // -------------------------------------------------------------------- ticker

  /** All periodic events up to `minute`, in order. */
  function Schedule(minute: int): seq<Periodic> {
    if minute <= 0 then [] else Schedule(minute - 1) + Due(minute)
  }

  predicate OnSchedule(s: State) {
    s.fired == Schedule(s.pastMinutes)
  }

  function Period(p: Periodic): (r: int)
    ensures 0 < r
  {
    match p
    case Hourly => 60
    case Daily => MINUTES_PER_DAY
    case Monthly => MINUTES_PER_MONTH
    case Yearly => MINUTES_PER_YEAR
  }

  /** Events due at one minute fire from the shortest period to the longest. */
  lemma DueInPeriodOrder(minute: int)
    ensures forall i, j :: 0 <= i < j < |Due(minute)| ==> Period(Due(minute)[i]) < Period(Due(minute)[j])
  {
  }

  lemma FiresOnce(due: bool, p: Periodic, q: Periodic)
    ensures multiset(Fires(due, p))[q] == if due && p == q then 1 else 0
  {
  }

  lemma DueOnce(minute: int, p: Periodic)
    ensures multiset(Due(minute))[p] == if minute % Period(p) == 0 then 1 else 0
  {
    hide Fires;
    FiresOnce(minute % 60 == 0, Hourly, p);
    FiresOnce(minute % MINUTES_PER_DAY == 0, Daily, p);
    FiresOnce(minute % MINUTES_PER_MONTH == 0, Monthly, p);
    FiresOnce(minute % MINUTES_PER_YEAR == 0, Yearly, p);
  }

  lemma PeriodGrows(minute: int, period: int)
    requires 0 < minute && 0 < period
    ensures minute / period == (minute - 1) / period + if minute % period == 0 then 1 else 0
  {
    var q := (minute - 1) / period;
    var r := (minute - 1) % period;
    if r == period - 1 {
      assert minute == (q + 1) * period;
    } else {
      assert minute == q * period + (r + 1);
    }
    QuotientOf(minute, if r == period - 1 then q + 1 else q, if r == period - 1 then 0 else r + 1, period);
  }

  lemma MultiplesAreFar(d: int, period: int)
    requires 0 < period
    ensures d >= 1 ==> d * period >= period
    ensures d <= -1 ==> d * period <= -period
  {
  }

  lemma QuotientOf(x: int, q: int, r: int, period: int)
    requires 0 < period && 0 <= r < period && x == q * period + r
    ensures x / period == q && x % period == r
  {
    var d := x / period - q;
    assert d * period == r - x % period;
    MultiplesAreFar(d, period);
  }

  /** Each kind of event has fired once per full period. */
  lemma {:induction false} ScheduleCounts(minute: nat, p: Periodic)
    ensures multiset(Schedule(minute))[p] == minute / Period(p)
  {
    hide Due, Period;
    if minute > 0 {
      ScheduleCounts(minute - 1, p);
      DueOnce(minute, p);
      PeriodGrows(minute, Period(p));
    } else {
      QuotientOf(0, 0, 0, Period(p));
    }
  }

  lemma {:induction false} CatchUpOnSchedule(s: State)
    requires OnSchedule(s) && 0 <= s.pastMinutes
    ensures OnSchedule(CatchUp(s))
    decreases Elapsed(s) - s.pastMinutes
  {
    hide Due, RecordDay;
    if Elapsed(s) > s.pastMinutes {
      CatchUpOnSchedule(IncreaseMinute(s));
    }
  }

  lemma TimeStandsStill(s: State, op: Op)
    requires !op.Block?
    ensures var s' := Step(s, op);
      s'.start == s.start && s'.now == s.now && s'.pastMinutes == s.pastMinutes && s'.fired == s.fired
  {
    hide ClaimDays, HasDays, PastDay, Delegation;
  }

  // ------------------------------------------------------------------ each step

  ghost predicate LedgerInv(s: State) {
    Inv(s) && Caught(s) && GivenInv(s) && OnSchedule(s)
  }

  /** Voter and delegator of a delegation differ. */
  predicate Distinct(op: Op) {
    op.Delegate? ==> op.voter != op.delegator
  }

  lemma {:induction false} CatchUpVoters(s: State)
    ensures CatchUp(s).voters == s.voters && CatchUp(s).delegations == s.delegations
    decreases Elapsed(s) - s.pastMinutes
  {
    hide Due, RecordDay;
    if Elapsed(s) > s.pastMinutes {
      CatchUpVoters(IncreaseMinute(s));
    }
  }

  lemma BlockVoters(s: State, now: int)
    ensures BeginBlock(s, now).voters == s.voters && BeginBlock(s, now).delegations == s.delegations
  {
    hide CatchUp;
    CatchUpVoters(s.(now := now, start := if s.start == 0 then now else s.start));
  }

  /** Either side of the books is kept by every step, the voters' side unless
      the step delegates to oneself. */
  lemma StepBalanced(s: State, op: Op, voterSide: bool)
    requires SideBalanced(s, voterSide) && (voterSide ==> Distinct(op))
    ensures SideBalanced(Step(s, op), voterSide)
  {
    hide SideBalanced, Claimable, Accruable, BeginBlock, AddFriction, Accrue;
    hide ChangeStake, ClaimInterest, AddDelegation, WithdrawDelegation, WithVoter;
    if Accepted(s, op) {
      match op
      case Block(now) =>
        BlockVoters(s, now);
        BalanceFrame(s, BeginBlock(s, now), voterSide);
      case Friction(amount) =>
        FrictionVoters(s, amount);
        BalanceFrame(s, AddFriction(s, amount), voterSide);
      case StakeIn(name, coin, _) =>
        WithVoterBalanced(s, name, voterSide);
        ClaimableVoter(WithVoter(s, name), name);
        ChangeStakeBalanced(WithVoter(s, name), name, coin, voterSide);
      case StakeOut(name, coin, _) =>
        ClaimableVoter(s, name);
        ChangeStakeBalanced(s, name, -coin, voterSide);
      case Delegate(voter, delegator, coin, _) => DelegateBalanced(s, voter, delegator, coin, voterSide);
      case DelegatorWithdraw(voter, delegator, coin) => WithdrawBalanced(s, voter, delegator, coin, voterSide);
      case Claim(name) => ClaimBalanced(s, name, voterSide);
    }
  }

  lemma FrictionVoters(s: State, amount: int)
    requires Today(s) in s.stats
    ensures AddFriction(s, amount).voters == s.voters && AddFriction(s, amount).delegations == s.delegations
  {
  }

  lemma ClaimBalanced(s: State, name: Name, voterSide: bool)
    requires SideBalanced(s, voterSide) && Accruable(s, name)
    ensures name in Accrue(s, name).voters && SideBalanced(ClaimInterest(Accrue(s, name), name), voterSide)
  {
    hide SideBalanced, Accruable, Accrue;
    AccrueVoters(s, name);
    BalanceFrame(s, ClaimInterest(Accrue(s, name), name), voterSide);
  }

  lemma DelegateBalanced(s: State, voter: Name, delegator: Name, coin: int, voterSide: bool)
    requires SideBalanced(s, voterSide) && Claimable(WithVoter(s, delegator), delegator) && 0 < coin
    requires voterSide ==> voter != delegator
    ensures delegator in ChangeStake(WithVoter(s, delegator), delegator, coin).voters
    ensures var c := ChangeStake(WithVoter(s, delegator), delegator, coin);
      SideBalanced(AddDelegation(c, voter, delegator, coin), voterSide)
  {
    hide SideBalanced, Claimable, ChangeStake, AddDelegation;
    WithVoterBalanced(s, delegator, voterSide);
    var w := WithVoter(s, delegator);
    ChangeStakeVoters(w, delegator, coin);
    ChangeStakeBalanced(w, delegator, coin, voterSide);
    AddDelegationBalanced(ChangeStake(w, delegator, coin), voter, delegator, coin, voterSide);
  }

  /** Nobody gives away more than the own stake. */
  predicate Affordable(s: State) {
    forall n :: n in s.voters ==> s.voters[n].toOthers <= s.voters[n].stake
  }

  lemma GivenIsAffordable(s: State)
    ensures GivenInv(s) <==> SideBalanced(s, false) && Affordable(s)
  {
    hide SideBalanced;
  }

  lemma ChangeStakeAffordable(s: State, name: Name, delta: int)
    requires Affordable(s) && Claimable(s, name) && name in s.voters
    requires s.voters[name].toOthers <= s.voters[name].stake + delta
    ensures Affordable(ChangeStake(s, name, delta))
  {
    hide Claimable, ChangeStake;
    ChangeStakeVoters(s, name, delta);
  }

  lemma StakeInAffordable(s: State, name: Name, coin: int)
    requires Affordable(s) && Claimable(WithVoter(s, name), name) && 0 <= coin
    ensures Affordable(ChangeStake(WithVoter(s, name), name, coin))
  {
    hide Claimable, ChangeStake;
    ClaimableVoter(WithVoter(s, name), name);
    ChangeStakeAffordable(WithVoter(s, name), name, coin);
  }

  lemma DelegateAffordable(s: State, voter: Name, delegator: Name, coin: int)
    requires Affordable(s) && Claimable(WithVoter(s, delegator), delegator) && 0 < coin
    ensures delegator in ChangeStake(WithVoter(s, delegator), delegator, coin).voters
    ensures Affordable(AddDelegation(ChangeStake(WithVoter(s, delegator), delegator, coin), voter, delegator, coin))
  {
    hide Claimable, ChangeStake;
    ChangeStakeVoters(WithVoter(s, delegator), delegator, coin);
  }

  lemma ClaimAffordable(s: State, name: Name)
    requires Affordable(s) && Accruable(s, name)
    ensures name in Accrue(s, name).voters && Affordable(ClaimInterest(Accrue(s, name), name))
  {
    hide Accruable, Accrue;
    AccrueVoters(s, name);
  }

  lemma StepAffordable(s: State, op: Op)
    requires GivenInv(s)
    ensures Affordable(Step(s, op))
  {
    hide GivenInv, SideBalanced, Affordable, Claimable, Accruable, BeginBlock, AddFriction;
    hide Accrue, ChangeStake, AddDelegation, WithdrawDelegation, ClaimInterest, WithVoter;
    GivenIsAffordable(s);
    if Accepted(s, op) {
      match op
      case Block(now) =>
        BlockVoters(s, now);
        SameVotersAffordable(s, BeginBlock(s, now));
      case Friction(amount) =>
        FrictionVoters(s, amount);
        SameVotersAffordable(s, AddFriction(s, amount));
      case StakeIn(name, coin, _) => StakeInAffordable(s, name, coin);
      case StakeOut(name, coin, _) =>
        ClaimableVoter(s, name);
        ChangeStakeAffordable(s, name, -coin);
      case Delegate(voter, delegator, coin, _) => DelegateAffordable(s, voter, delegator, coin);
      case DelegatorWithdraw(voter, delegator, coin) =>
        WithdrawGiven(s, voter, delegator, coin);
        GivenIsAffordable(WithdrawDelegation(ChangeStake(s, delegator, -coin), voter, delegator, coin));
      case Claim(name) => ClaimAffordable(s, name);
    }
  }

  lemma SameVotersAffordable(s: State, s': State)
    requires Affordable(s) && s'.voters == s.voters
    ensures Affordable(s')
  {
  }

  lemma StepOnSchedule(s: State, op: Op)
    requires LedgerInv(s)
    ensures OnSchedule(Step(s, op))
  {
    hide CatchUp, Schedule, ClaimDays, HasDays, PastDay, GivenInv, DayInv;
    if op.Block? {
      if Accepted(s, op) {
        CatchUpOnSchedule(s.(now := op.now, start := if s.start == 0 then op.now else s.start));
      }
    } else {
      TimeStandsStill(s, op);
    }
  }

  // -------------------------------------------------------------- whole runs

  function TotalPaid(ops: seq<Op>): int {
    if ops == [] then 0
    else TotalPaid(ops[..|ops| - 1]) + PaidOut(Run(ops[..|ops| - 1]), ops[|ops| - 1])
  }

  function TotalFriction(ops: seq<Op>): int {
    if ops == [] then 0
    else TotalFriction(ops[..|ops| - 1]) + FrictionOf(Run(ops[..|ops| - 1]), ops[|ops| - 1])
  }

  lemma WithdrawalsAreCovered(s: State)
    requires GivenInv(s)
    ensures forall n :: n in s.voters ==> 0 <= s.voters[n].toOthers <= s.voters[n].stake
    ensures forall k :: k in s.delegations ==> k.1 in s.voters && s.delegations[k] <= s.voters[k.1].toOthers
  {
    hide SideBalanced;
    forall n | n in s.voters
      ensures 0 <= s.voters[n].toOthers
    {
      PowerNonNegative(s, false, n);
    }
    forall k | k in s.delegations
      ensures k.1 in s.voters && s.delegations[k] <= s.voters[k.1].toOthers
    {
      DelegationWithin(s, k);
    }
  }

  lemma StepKeepsLedger(s: State, op: Op)
    requires LedgerInv(s)
    ensures LedgerInv(Step(s, op))
    ensures Owed(Step(s, op)) + PaidOut(s, op) == Owed(s) + FrictionOf(s, op)
  {
    hide Inv, Caught, SideBalanced, OnSchedule, Owed, Step;
    WithdrawalsAreCovered(s);
    StakeInterest.StepKeeps(s, op);
    StepBalanced(s, op, false);
    StepAffordable(s, op);
    StepOnSchedule(s, op);
  }

  /** What a sender can check: who has a record, and how much there is to take. */
  predicate Legal(s: State, op: Op) {
    match op
    case Block(now) => s.now <= now && 0 < now
    case Friction(_) => true
    case StakeIn(_, coin, minimum) => 0 < coin && minimum <= coin
    case StakeOut(name, coin, isValidator) =>
      name in s.voters && !isValidator && 0 < coin <= s.voters[name].stake - s.voters[name].toOthers
    case Delegate(_, _, coin, minimum) => 0 < coin && minimum <= coin
    case DelegatorWithdraw(voter, delegator, coin) =>
      (voter, delegator) in s.delegations && 0 < coin <= s.delegations[(voter, delegator)]
    case Claim(name) => name in s.voters
  }

  lemma NewVoterIsClaimable(s: State, name: Name)
    requires Inv(s) && Caught(s)
    ensures Claimable(WithVoter(s, name), name)
  {
    hide Inv, Caught, Claimable, WithVoter;
    WithVoterKeeps(s, name);
    WithVoterHas(s, name);
    VoterIsClaimable(WithVoter(s, name), name);
  }

  lemma WithVoterHas(s: State, name: Name)
    ensures name in WithVoter(s, name).voters
  {
  }

  lemma TodayIsRecorded(s: State)
    requires Inv(s) && Caught(s)
    ensures Today(s) in s.stats
  {
    hide DayInv, StatInv, PastDay;
    NowIsToday(s);
  }

  lemma DelegationSides(s: State, k: Pair)
    requires GivenInv(s) && k in s.delegations
    ensures k.0 in s.voters && k.1 in s.voters
  {
    hide Balanced;
  }

  /** No message fails for a reason its sender could not see. */
  lemma AcceptedIffLegal(s: State, op: Op)
    requires LedgerInv(s)
    ensures Accepted(s, op) <==> Legal(s, op)
  {
    hide Inv, Caught, GivenInv, OnSchedule, Claimable, Accruable, WithVoter, Today;
    match op
    case Block(_) =>
    case Friction(_) => TodayIsRecorded(s);
    case StakeIn(name, _, _) => NewVoterIsClaimable(s, name);
    case StakeOut(name, _, _) =>
      if name in s.voters {
        VoterIsClaimable(s, name);
      } else {
        NotClaimable(s, name);
      }
    case Delegate(_, delegator, _, _) => NewVoterIsClaimable(s, delegator);
    case DelegatorWithdraw(voter, delegator, _) =>
      if (voter, delegator) in s.delegations {
        DelegationSides(s, (voter, delegator));
        VoterIsClaimable(s, delegator);
      }
    case Claim(name) =>
      if name in s.voters {
        VoterIsClaimable(s, name);
      } else {
        NotClaimable(s, name);
      }
  }

  lemma NotClaimable(s: State, name: Name)
    requires name !in s.voters
    ensures !Accruable(s, name) && !Claimable(s, name)
  {
  }

  lemma GenesisInv()
    ensures LedgerInv(GENESIS) && Owed(GENESIS) == 0 && SideBalanced(GENESIS, true)
  {
    hide PastDay;
    TotalZero(StakesSince(GENESIS.voters, 0, 0));
    TotalZero(Claimables(GENESIS.stats, 0));
    TotalZero(Interests(GENESIS.voters));
    assert forall d :: d in GENESIS.stats ==> DayInv(GENESIS, d);
  }

  lemma GenesisLedger()
    ensures LedgerInv(GENESIS)
  {
    hide LedgerInv;
    GenesisInv();
  }

  /** In every reachable state the daily counters, the delegations given and the
      ticker are as they should be, and all friction ever added is either still
      owed to stakers or was paid out. */
  lemma {:induction false} RunKeepsInv(ops: seq<Op>)
    ensures LedgerInv(Run(ops))
    ensures Owed(Run(ops)) + TotalPaid(ops) == TotalFriction(ops)
  {
    hide LedgerInv, Owed, Step;
    if ops == [] {
      GenesisInv();
    } else {
      var m := |ops| - 1;
      RunKeepsInv(ops[..m]);
      StepKeepsLedger(Run(ops[..m]), ops[m]);
    }
  }

  /** Nobody is ever refused for a missing daily record. */
  lemma EveryVoterCanClaim(ops: seq<Op>, name: Name)
    requires name in Run(ops).voters
    ensures Claimable(Run(ops), name)
  {
    hide Claimable, Run;
    RunKeepsInv(ops);
    VoterIsClaimable(Run(ops), name);
  }

  /** In every reachable state a voter's claim of a past day takes between nothing
      and all of the day's unclaimed friction, and whoever is left with the whole
      unclaimed stake takes exactly the remainder. */
  lemma EveryClaimIsCovered(ops: seq<Op>, name: Name, d: int)
    requires name in Run(ops).voters
    requires PastDay(Run(ops).start, Run(ops).voters[name].changedAt) <= d < Today(Run(ops))
    ensures d in Run(ops).stats
    ensures var (day, stake) := (Run(ops).stats[d], Run(ops).voters[name].stake);
      var (after, interest) := ClaimDay(day, stake);
      && 0 <= stake <= day.unclaimedStake && 0 <= interest <= day.unclaimedFriction
      && after.unclaimedFriction + interest == day.unclaimedFriction
      && (0 < stake == day.unclaimedStake ==> interest == day.unclaimedFriction)
      && FairClaim(day, after, stake)
  {
    hide Run, ClaimDay, FairClaim, PastDay, DayInv, GivenInv, StatInv;
    RunKeepsInv(ops);
    var s := Run(ops);
    VoterIsClaimable(s, name);
    StakeIsUnclaimed(s, name, d);
    ClaimWithinFriction(s.stats[d], s.voters[name].stake);
  }

  /** As long as nobody delegates to oneself, delegated power is the sum of the
      delegations received. */
  lemma {:induction false} RunKeepsDelegations(ops: seq<Op>)
    requires forall i :: 0 <= i < |ops| ==> Distinct(ops[i])
    ensures DelegationInv(Run(ops))
  {
    hide SideBalanced, Step, LedgerInv;
    if ops == [] {
      GenesisInv();
    } else {
      var m := |ops| - 1;
      RunKeepsDelegations(ops[..m]);
      StepBalanced(Run(ops[..m]), ops[m], true);
    }
    RunKeepsInv(ops);
    LedgerIsGiven(Run(ops));
  }

  lemma LedgerIsGiven(s: State)
    requires LedgerInv(s)
    ensures GivenInv(s) && OnSchedule(s) && Caught(s)
  {
    hide Inv, GivenInv, Caught, OnSchedule;
  }

  /** The voting power of all voters is their stake, and none is negative. */
  lemma VotingPowerInEveryRun(ops: seq<Op>)
    requires forall i :: 0 <= i < |ops| ==> Distinct(ops[i])
    ensures var s := Run(ops);
      && Total(Powers(s)) == Total(StakesOf(s))
      && (forall n :: n in s.voters ==> 0 <= VotingPower(s.voters[n]))
      && (forall n :: n in s.voters ==>
            VotingPower(s.voters[n])
            == s.voters[n].stake + Total(Parts(s.delegations, true, n)) - Total(Parts(s.delegations, false, n)))
  {
    hide Run, DelegationInv, VotingPower, Parts, Total;
    RunKeepsDelegations(ops);
    var s := Run(ops);
    VotingPowerIsStake(s);
    forall n | n in s.voters
      ensures 0 <= VotingPower(s.voters[n])
      ensures VotingPower(s.voters[n])
        == s.voters[n].stake + Total(Parts(s.delegations, true, n)) - Total(Parts(s.delegations, false, n))
    {
      VotingPowerNonNegative(s, n);
      VotingPowerParts(s, n);
    }
  }

  // ----------------------------------------------------------- whose stake it is

  function StakeOf(s: State, n: Name): int {
    if n in s.voters then s.voters[n].stake else 0
  }

  /** The coins that `op` stakes for `n`, or takes out for it. */
  function StakeMoved(s: State, op: Op, n: Name): int {
    if !Accepted(s, op) then 0
    else match op
      case StakeIn(name, coin, _) => if name == n then coin else 0
      case StakeOut(name, coin, _) => if name == n then -coin else 0
      case Delegate(_, delegator, coin, _) => if delegator == n then coin else 0
      case DelegatorWithdraw(_, delegator, coin) => if delegator == n then -coin else 0
      case _ => 0
  }

  function CoinsStaked(ops: seq<Op>, n: Name): int {
    if ops == [] then 0
    else CoinsStaked(ops[..|ops| - 1], n) + StakeMoved(Run(ops[..|ops| - 1]), ops[|ops| - 1], n)
  }

  lemma ChangeStakeOf(s: State, name: Name, delta: int, n: Name)
    requires Claimable(s, name)
    ensures StakeOf(ChangeStake(s, name, delta), n) == StakeOf(s, n) + if n == name then delta else 0
    ensures ChangeStake(s, name, delta).voters.Keys == s.voters.Keys
  {
    hide Claimable, ChangeStake;
    ChangeStakeVoters(s, name, delta);
  }

  lemma WithVoterStake(s: State, name: Name, n: Name)
    ensures StakeOf(WithVoter(s, name), n) == StakeOf(s, n)
  {
  }

  lemma AddDelegationStake(s: State, voter: Name, delegator: Name, coin: int, n: Name)
    requires delegator in s.voters
    ensures StakeOf(AddDelegation(s, voter, delegator, coin), n) == StakeOf(s, n)
  {
  }

  lemma WithdrawDelegationStake(s: State, voter: Name, delegator: Name, coin: int, n: Name)
    requires voter in s.voters && delegator in s.voters
    ensures StakeOf(WithdrawDelegation(s, voter, delegator, coin), n) == StakeOf(s, n)
  {
  }

  lemma ClaimStake(s: State, name: Name, n: Name)
    requires Accruable(s, name)
    ensures name in Accrue(s, name).voters && StakeOf(ClaimInterest(Accrue(s, name), name), n) == StakeOf(s, n)
  {
    hide Accruable, Accrue;
    AccrueVoters(s, name);
  }

  lemma SameVotersStake(s: State, s': State, n: Name)
    requires s'.voters == s.voters
    ensures StakeOf(s', n) == StakeOf(s, n)
  {
  }

  lemma DelegateStake(s: State, voter: Name, delegator: Name, coin: int, n: Name)
    requires Claimable(WithVoter(s, delegator), delegator)
    ensures delegator in ChangeStake(WithVoter(s, delegator), delegator, coin).voters
    ensures StakeOf(AddDelegation(ChangeStake(WithVoter(s, delegator), delegator, coin), voter, delegator, coin), n)
      == StakeOf(s, n) + if n == delegator then coin else 0
  {
    hide Claimable, ChangeStake, AddDelegation, WithVoter, StakeOf;
    WithVoterHas(s, delegator);
    WithVoterStake(s, delegator, n);
    ChangeStakeOf(WithVoter(s, delegator), delegator, coin, n);
    AddDelegationStake(ChangeStake(WithVoter(s, delegator), delegator, coin), voter, delegator, coin, n);
  }

  lemma StepStake(s: State, op: Op, n: Name)
    ensures StakeOf(Step(s, op), n) == StakeOf(s, n) + StakeMoved(s, op, n)
  {
    hide Claimable, Accruable, BeginBlock, AddFriction, StakeOf;
    hide Accrue, ChangeStake, AddDelegation, WithdrawDelegation, ClaimInterest, WithVoter;
    if Accepted(s, op) {
      match op
      case Block(now) =>
        BlockVoters(s, now);
        SameVotersStake(s, BeginBlock(s, now), n);
      case Friction(amount) =>
        FrictionVoters(s, amount);
        SameVotersStake(s, AddFriction(s, amount), n);
      case StakeIn(name, coin, _) =>
        WithVoterStake(s, name, n);
        ChangeStakeOf(WithVoter(s, name), name, coin, n);
      case StakeOut(name, coin, _) => ChangeStakeOf(s, name, -coin, n);
      case Delegate(voter, delegator, coin, _) => DelegateStake(s, voter, delegator, coin, n);
      case DelegatorWithdraw(voter, delegator, coin) =>
        ClaimableVoter(s, delegator);
        ChangeStakeOf(s, delegator, -coin, n);
        WithdrawDelegationStake(ChangeStake(s, delegator, -coin), voter, delegator, coin, n);
      case Claim(name) => ClaimStake(s, name, n);
    }
  }

  /** In every run a stake is what its owner staked or delegated and did not take
      out again. */
  lemma {:induction false} StakesAreOwn(ops: seq<Op>, n: Name)
    ensures StakeOf(Run(ops), n) == CoinsStaked(ops, n)
  {
    hide Step, StakeMoved;
    if ops != [] {
      StakesAreOwn(ops[..|ops| - 1], n);
      StepStake(Run(ops[..|ops| - 1]), ops[|ops| - 1], n);
    }
  }

  /** The coins that `op` delegates from `delegator` to `voter`, or takes back. */
  function DelegationMoved(s: State, op: Op, voter: Name, delegator: Name): int {
    if !Accepted(s, op) || !((op.Delegate? || op.DelegatorWithdraw?) && op.voter == voter && op.delegator == delegator)
    then 0
    else if op.Delegate? then op.coin else -op.coin
  }

  function CoinsDelegated(ops: seq<Op>, voter: Name, delegator: Name): int {
    if ops == [] then 0
    else CoinsDelegated(ops[..|ops| - 1], voter, delegator)
         + DelegationMoved(Run(ops[..|ops| - 1]), ops[|ops| - 1], voter, delegator)
  }

  lemma AddDelegationEntry(s: State, v: Name, d: Name, coin: int, voter: Name, delegator: Name)
    requires d in s.voters
    ensures Delegation(AddDelegation(s, v, d, coin), voter, delegator)
      == Delegation(s, voter, delegator) + if v == voter && d == delegator then coin else 0
  {
  }

  lemma WithdrawDelegationEntry(s: State, v: Name, d: Name, coin: int, voter: Name, delegator: Name)
    requires v in s.voters && d in s.voters
    ensures Delegation(WithdrawDelegation(s, v, d, coin), voter, delegator)
      == Delegation(s, voter, delegator) - if v == voter && d == delegator then coin else 0
  {
  }

  lemma SameDelegations(s: State, s': State, voter: Name, delegator: Name)
    requires s'.delegations == s.delegations
    ensures Delegation(s', voter, delegator) == Delegation(s, voter, delegator)
  {
  }

  lemma SimpleStepDelegations(s: State, op: Op)
    requires !op.Delegate? && !op.DelegatorWithdraw?
    ensures Step(s, op).delegations == s.delegations
  {
    hide Claimable, Accruable, BeginBlock, Accrue, ChangeStake, Today;
    if Accepted(s, op) {
      match op
      case Block(now) => BlockVoters(s, now);
      case StakeIn(name, coin, _) => ChangeStakeVoters(WithVoter(s, name), name, coin);
      case StakeOut(name, coin, _) => ChangeStakeVoters(s, name, -coin);
      case Claim(name) => AccrueVoters(s, name);
      case _ =>
    }
  }

  lemma WithVoterDelegations(s: State, name: Name)
    ensures WithVoter(s, name).delegations == s.delegations
  {
  }

  lemma StepDelegation(s: State, op: Op, voter: Name, delegator: Name)
    ensures Delegation(Step(s, op), voter, delegator)
      == Delegation(s, voter, delegator) + DelegationMoved(s, op, voter, delegator)
  {
    hide Claimable, Accruable, ChangeStake, AddDelegation, WithdrawDelegation, WithVoter, Delegation;
    if Accepted(s, op) && op.Delegate? {
      var w := WithVoter(s, op.delegator);
      WithVoterDelegations(s, op.delegator);
      ChangeStakeVoters(w, op.delegator, op.coin);
      var c := ChangeStake(w, op.delegator, op.coin);
      SameDelegations(s, c, voter, delegator);
      AddDelegationEntry(c, op.voter, op.delegator, op.coin, voter, delegator);
    } else if Accepted(s, op) && op.DelegatorWithdraw? {
      ChangeStakeVoters(s, op.delegator, -op.coin);
      var c := ChangeStake(s, op.delegator, -op.coin);
      SameDelegations(s, c, voter, delegator);
      WithdrawDelegationEntry(c, op.voter, op.delegator, op.coin, voter, delegator);
    } else if Accepted(s, op) {
      SimpleStepDelegations(s, op);
      SameDelegations(s, Step(s, op), voter, delegator);
    }
  }

  /** In every run a delegation is what its delegator gave that voter and did not
      take back. */
  lemma {:induction false} DelegationsAreOwn(ops: seq<Op>, voter: Name, delegator: Name)
    ensures Delegation(Run(ops), voter, delegator) == CoinsDelegated(ops, voter, delegator)
  {
    hide Step, DelegationMoved;
    if ops != [] {
      DelegationsAreOwn(ops[..|ops| - 1], voter, delegator);
      StepDelegation(Run(ops[..|ops| - 1]), ops[|ops| - 1], voter, delegator);
    }
  }

  /** The ticker does not depend on how time is cut into blocks: minutes, the
      events fired and their number are functions of the time since the start,
      and today has a record. */
  lemma TickerFollowsTime(ops: seq<Op>)
    ensures var s := Run(ops);
      var minutes := (s.now - s.start) / 60;
      && s.pastMinutes == minutes && s.fired == Schedule(minutes)
      && (forall p :: multiset(s.fired)[p] == minutes / Period(p))
      && (forall d :: d in s.stats <==> 0 <= d <= (s.now - s.start) / SECONDS_PER_DAY)
  {
    hide Run, GivenInv, DayInv, Schedule, Period;
    RunKeepsInv(ops);
    var s := Run(ops);
    forall p: Periodic
      ensures multiset(s.fired)[p] == s.pastMinutes / Period(p)
    {
        ScheduleCounts(s.pastMinutes, p);
    }
    NowIsToday(s);
  }
}

/** The stake ledger as the handlers of x/vote change it in place, together with
    the minute ticker of beginBlocker. Every handler is proved equal to a step of
    module Stake, keeps the invariant of module StakeRuns, and fails only for
    reasons its sender can see: errors further down cannot occur. */
module StakeLedger {
  import Delegations
  import opened Stake
  import opened StakeInterest
  import opened StakeRuns

  class Ledger {
    var start: int
    var now: int
    var pastMinutes: int
    var fired: seq<Periodic>
    var stats: map<int, Stat>
    var voters: map<Name, Voter>
    var delegations: map<(Name, Name), int>

    constructor ()
      ensures Valid() && St() == GENESIS
    {
      hide LedgerInv;
      start, now, pastMinutes, fired := 0, 0, 0, [];
      stats, voters, delegations := map[0 := Stat(0, 0, 0, 0)], map[], map[];
      new;
      GenesisLedger();
    }

    /** The daily counters, the delegations given and the ticker are in order. */
    ghost predicate Valid()
      reads this
    {
      LedgerInv(St())
    }

    function St(): State
      reads this
    {
      State(start, now, pastMinutes, fired, stats, voters, delegations)
    }

    // ------------------------------------------------------ x/global/manager.go

    method GetInterestSince(unixTime: int, stake: int) returns (ok: bool, total: int)
      modifies `stats
      ensures ok == HasDays(old(stats), PastDay(start, unixTime), PastDay(start, now))
      ensures ok ==> (stats, total) == ClaimDays(old(stats), PastDay(start, unixTime), PastDay(start, now), stake)
      ensures ok ==> FairClaims(old(stats), stats, PastDay(start, unixTime), PastDay(start, now), stake, total)
    {
      hide FairClaims, InterestOf, ClaimDays;
      if HasDays(old(stats), PastDay(start, unixTime), PastDay(start, now)) {
        ClaimDaysAreFair(stats, PastDay(start, unixTime), PastDay(start, now), stake);
      }
      total := 0;
      var first := PastDay(start, unixTime);
      var end := PastDay(start, now);
      var day := first;
      while day < end
        invariant first <= day && (first < end ==> day <= end)
        invariant HasDays(old(stats), first, day) && stats.Keys == old(stats).Keys
        invariant HasDays(old(stats), first, end) ==> HasDays(stats, day, end)
        invariant HasDays(old(stats), first, end) ==>
          var (left, rest) := ClaimDays(stats, day, end, stake);
          ClaimDays(old(stats), first, end, stake) == (left, total + rest)
      {
        if day !in stats {
          return false, 0;
        }
        ClaimDaysUnfold(stats, day, end, stake);
        var stat := stats[day];
        if stat.unclaimedStake == 0 {
          assert stats[day := stat] == stats;
        } else {
          var interest := InterestOf(stat, stake);
          total := total + interest;
          stats := stats[day := stat.(unclaimedFriction := stat.unclaimedFriction - interest,
                                      unclaimedStake := stat.unclaimedStake - stake)];
        }
        day := day + 1;
      }
      ClaimDaysUnfold(stats, day, end, stake);
      ok := true;
    }

    method ChangeStakeStat(delta: int) returns (ok: bool)
      modifies `stats
      ensures ok == (Today(St()) in old(stats))
      ensures ok ==> var today := old(stats)[Today(St())];
        stats == old(stats)[Today(St()) := today.(totalStake := today.totalStake + delta,
                                                  unclaimedStake := today.unclaimedStake + delta)]
    {
      var day := PastDay(start, now);
      if day !in stats {
        return false;
      }
      var stat := stats[day];
      stats := stats[day := stat.(totalStake := stat.totalStake + delta,
                                  unclaimedStake := stat.unclaimedStake + delta)];
      ok := true;
    }

    method AddFriction(friction: nat) returns (ok: bool)
      requires Valid()
      modifies `stats
      ensures Valid() && ok
      ensures St() == Step(old(St()), Op.Friction(friction))
      ensures Owed(St()) == old(Owed(St())) + friction
    {
      hide LedgerInv, Owed;
      StepKeepsLedger(St(), Op.Friction(friction));
      AcceptedIffLegal(St(), Op.Friction(friction));
      var day := PastDay(start, now);
      if day !in stats {
        return false;
      }
      var stat := stats[day];
      stats := stats[day := stat.(friction := stat.friction + friction,
                                  unclaimedFriction := stat.unclaimedFriction + friction)];
      ok := true;
    }

    // ------------------------------------------------------- x/vote/handler.go

    method CalculateAndAddInterest(name: Name) returns (ok: bool)
      modifies `stats, `voters
      ensures ok == Accruable(old(St()), name)
      ensures ok ==> St() == Accrue(old(St()), name)
    {
      if name !in voters {
        return false;
      }
      var since := voters[name].changedAt;
      var interest;
      ok, interest := GetInterestSince(since, voters[name].stake);
      if ok {
        voters := voters[name := voters[name].(interest := voters[name].interest + interest)];
        voters := voters[name := voters[name].(changedAt := now)];
      }
    }

    /** AddStake and MinusStake once the voter exists; `delta` is negative when
        stake is taken away. */
    method SettleAndMoveStake(name: Name, delta: int) returns (ok: bool)
      modifies `stats, `voters
      ensures ok == Claimable(old(St()), name)
      ensures ok ==> St() == ChangeStake(old(St()), name, delta)
    {
      hide Accrue, Accruable, PastDay;
      ok := CalculateAndAddInterest(name);
      if ok {
        ghost var accrued := St();
        AccrueFields(old(St()), name);
        voters := voters[name := voters[name].(stake := voters[name].stake + delta, changedAt := now)];
        ok := ChangeStakeStat(delta);
        assert ok ==> St() == MoveStake(accrued, name, delta);
      }
    }

    /** AddStake */
    method AddStake(name: Name, coin: int) returns (ok: bool)
      modifies `stats, `voters
      ensures ok == Claimable(WithVoter(old(St()), name), name)
      ensures ok ==> St() == ChangeStake(WithVoter(old(St()), name), name, coin)
    {
      if name !in voters {
        voters := voters[name := Voter(0, 0, 0, now, 0)];
      }
      assert St() == WithVoter(old(St()), name);
      ok := SettleAndMoveStake(name, coin);
    }

    method StakeIn(name: Name, coin: int, minimum: nat) returns (ok: bool)
      requires Valid() && 0 < coin
      modifies `stats, `voters
      ensures Valid() && ok == (minimum <= coin)
      ensures St() == Step(old(St()), Op.StakeIn(name, coin, minimum))
      ensures Owed(St()) == old(Owed(St()))
    {
      hide LedgerInv, Owed, Claimable, ChangeStake;
      StepKeepsLedger(St(), Op.StakeIn(name, coin, minimum));
      AcceptedIffLegal(St(), Op.StakeIn(name, coin, minimum));
      if minimum > coin {
        return false;
      }
      ok := AddStake(name, coin);
    }

    method StakeOut(name: Name, coin: int, isValidator: bool) returns (ok: bool)
      requires Valid()
      modifies `stats, `voters
      ensures Valid()
      ensures ok == (name in old(voters) && !isValidator
                     && 0 < coin <= old(voters)[name].stake - old(voters)[name].toOthers)
      ensures St() == Step(old(St()), Op.StakeOut(name, coin, isValidator))
      ensures Owed(St()) == old(Owed(St()))
    {
      hide LedgerInv, Owed, Claimable, ChangeStake;
      StepKeepsLedger(St(), Op.StakeOut(name, coin, isValidator));
      AcceptedIffLegal(St(), Op.StakeOut(name, coin, isValidator));
      ok := name in voters;
      if !ok || isValidator {
        return false;
      }
      if !(voters[name].stake - voters[name].toOthers >= coin && coin > 0) {
        return false;
      }
      ok := SettleAndMoveStake(name, -coin);
    }

    method Claim(name: Name) returns (ok: bool, paid: int)
      requires Valid()
      modifies `stats, `voters
      ensures Valid() && ok == (name in old(voters))
      ensures St() == Step(old(St()), Op.Claim(name))
      ensures paid == PaidOut(old(St()), Op.Claim(name)) && Owed(St()) + paid == old(Owed(St()))
    {
      hide LedgerInv, Owed, Accruable, Accrue;
      StepKeepsLedger(St(), Op.Claim(name));
      AcceptedIffLegal(St(), Op.Claim(name));
      paid := 0;
      var savedStats, savedVoters := stats, voters;
      ok := CalculateAndAddInterest(name);
      if ok {
        AccrueFields(old(St()), name);
        paid := voters[name].interest;
        voters := voters[name := voters[name].(interest := 0)];
      } else {
        stats, voters := savedStats, savedVoters;
      }
    }

    // ------------------------------------------------------- x/vote/manager.go

    method AddDelegation(voter: Name, delegator: Name, coin: int)
      requires delegator in voters
      modifies `voters, `delegations
      ensures St() == Stake.AddDelegation(old(St()), voter, delegator, coin)
    {
      var amount := 0;
      if (voter, delegator) in delegations {
        amount := delegations[(voter, delegator)];
      }
      if voter !in voters {
        voters := voters[voter := Voter(0, 0, 0, now, 0)];
      }
      var v := voters[voter];
      v := v.(delegatedPower := v.delegatedPower + coin);
      var d := voters[delegator];
      d := d.(toOthers := d.toOthers + coin);
      delegations := delegations[(voter, delegator) := amount + coin];
      voters := voters[voter := v];
      voters := voters[delegator := d];
    }

    method Delegate(voter: Name, delegator: Name, coin: int, minimum: nat) returns (ok: bool)
      requires Valid() && 0 < coin
      modifies `stats, `voters, `delegations
      ensures Valid() && ok == (minimum <= coin)
      ensures St() == Step(old(St()), Op.Delegate(voter, delegator, coin, minimum))
      ensures Owed(St()) == old(Owed(St()))
    {
      hide LedgerInv, Owed, Claimable, ChangeStake, Stake.AddDelegation;
      StepKeepsLedger(St(), Op.Delegate(voter, delegator, coin, minimum));
      AcceptedIffLegal(St(), Op.Delegate(voter, delegator, coin, minimum));
      if minimum > coin {
        return false;
      }
      ok := AddStake(delegator, coin);
      ChangeStakeFields(WithVoter(old(St()), delegator), delegator, coin);
      AddDelegation(voter, delegator, coin);
    }

    method MinusDelegation(voter: Name, delegator: Name, coin: int)
      requires voter in voters && delegator in voters && (voter, delegator) in delegations
      modifies `voters, `delegations
      ensures St() == WithdrawDelegation(old(St()), voter, delegator, coin)
    {
      var v := voters[voter];
      voters := voters[voter := v.(delegatedPower := v.delegatedPower - coin)];
      var d := voters[delegator];
      voters := voters[delegator := d.(toOthers := d.toOthers - coin)];
      var amount := delegations[(voter, delegator)] - coin;
      if amount == 0 {
        delegations := delegations - {(voter, delegator)};
      } else {
        delegations := delegations[(voter, delegator) := amount];
      }
    }

    method DelegatorWithdraw(voter: Name, delegator: Name, coin: int) returns (ok: bool)
      requires Valid()
      modifies `stats, `voters, `delegations
      ensures Valid()
      ensures ok == ((voter, delegator) in old(delegations) && 0 < coin <= old(delegations)[(voter, delegator)])
      ensures St() == Step(old(St()), Op.DelegatorWithdraw(voter, delegator, coin))
      ensures Owed(St()) == old(Owed(St()))
    {
      hide LedgerInv, Delegations.GivenInv, Owed, Claimable, ChangeStake, WithdrawDelegation;
      StepKeepsLedger(St(), Op.DelegatorWithdraw(voter, delegator, coin));
      AcceptedIffLegal(St(), Op.DelegatorWithdraw(voter, delegator, coin));
      ok := (voter, delegator) in delegations;
      if !ok || !(delegations[(voter, delegator)] >= coin && coin > 0) {
        return false;
      }
      LedgerIsGiven(St());
      DelegationSides(St(), (voter, delegator));
      ok := SettleAndMoveStake(delegator, -coin);
      ChangeStakeFields(old(St()), delegator, -coin);
      MinusDelegation(voter, delegator, coin);
    }

    // -------------------------------------------------------------- app/app.go

    method RecordConsumptionAndLinoStake()
      modifies `stats
      ensures stats == RecordDay(old(stats), pastMinutes / MINUTES_PER_DAY)
    {
      var day := pastMinutes / MINUTES_PER_DAY;
      if day - 1 in stats {
        var last := stats[day - 1];
        if last.totalStake != 0 {
          last := last.(friction := 0, unclaimedFriction := 0);
        }
        stats := stats[day := last];
      }
    }

    method FireWhen(due: bool, p: Periodic)
      modifies `fired
      ensures fired == old(fired) + Fires(due, p)
    {
      if due {
        fired := fired + [p];
      }
    }

    method Minute()
      modifies `pastMinutes, `fired, `stats
      ensures St() == IncreaseMinute(old(St())) && pastMinutes == old(pastMinutes) + 1
    {
      hide RecordDay, Fires, Due;
      pastMinutes := pastMinutes + 1;
      FireWhen(pastMinutes % 60 == 0, Hourly);
      FireWhen(pastMinutes % MINUTES_PER_DAY == 0, Daily);
      if pastMinutes % MINUTES_PER_DAY == 0 {
        RecordConsumptionAndLinoStake();
      }
      FireWhen(pastMinutes % MINUTES_PER_MONTH == 0, Monthly);
      FireWhen(pastMinutes % MINUTES_PER_YEAR == 0, Yearly);
      DueInOrder(old(fired), pastMinutes);
    }

    method Block(time: int)
      requires Valid() && now <= time && 0 < time
      modifies `start, `now, `pastMinutes, `fired, `stats
      ensures Valid() && St() == Step(old(St()), Op.Block(time))
      ensures now == time && pastMinutes == (now - start) / 60 && Owed(St()) == old(Owed(St()))
    {
      hide LedgerInv, Delegations.GivenInv, OnSchedule, Owed, IncreaseMinute;
      StepKeepsLedger(St(), Op.Block(time));
      LedgerIsGiven(Step(St(), Op.Block(time)));
      now := time;
      if start == 0 {
        start := time;
      }
      while (now - start) / 60 > pastMinutes
        invariant start == if old(start) == 0 then time else old(start)
        invariant now == time && voters == old(voters) && delegations == old(delegations)
        invariant CatchUp(St()) == BeginBlock(old(St()), time)
        decreases (now - start) / 60 - pastMinutes
      {
        Minute();
      }
    }
  }

  lemma DueInOrder(before: seq<Periodic>, minute: int)
    ensures before + Fires(minute % 60 == 0, Hourly) + Fires(minute % MINUTES_PER_DAY == 0, Daily)
      + Fires(minute % MINUTES_PER_MONTH == 0, Monthly) + Fires(minute % MINUTES_PER_YEAR == 0, Yearly)
      == before + Due(minute)
  {
    hide Fires;
  }

  lemma AccrueFields(s: State, name: Name)
    requires Accruable(s, name)
    ensures var a := Accrue(s, name);
      && name in s.voters && a.start == s.start && a.now == s.now
      && a.stats.Keys == s.stats.Keys && a.voters.Keys == s.voters.Keys
  {
    hide PastDay;
  }

  lemma ChangeStakeFields(s: State, name: Name, delta: int)
    requires Claimable(s, name)
    ensures ChangeStake(s, name, delta).voters.Keys == s.voters.Keys
    ensures ChangeStake(s, name, delta).delegations == s.delegations
  {
    hide PastDay;
    AccrueFields(s, name);
  }
}

/** Every day's friction is shared among the stake of that day, in whatever order
    stakers claim: the daily counters, the bounds of a claim and conservation. */
module StakeInterest {
  import opened Coins
  import opened Sums
  import opened Stake

  // --------------------------------------------------------- who still has a claim

  /** Stakes that have not changed since day `d` or before. */
  function StakesSince(voters: map<Name, Voter>, start: int, d: int): map<Name, int> {
    map n | n in voters :: if PastDay(start, voters[n].changedAt) <= d then voters[n].stake else 0
  }

  predicate VoterInv(v: Voter, start: int, today: int) {
    0 <= v.stake && PastDay(start, v.changedAt) <= today && 0 <= v.interest
  }

  predicate StatInv(day: Stat) {
    0 <= day.unclaimedFriction && 0 <= day.unclaimedStake <= day.totalStake
  }

  /** The day of the newest record; between two blocks this is today. */
  function LastDay(s: State): int {
    s.pastMinutes / MINUTES_PER_DAY
  }

  ghost predicate DayInv(s: State, d: int) {
    && d in s.stats && StatInv(s.stats[d])
    && s.stats[d].unclaimedStake == Total(StakesSince(s.voters, s.start, d))
  }

  /** Every day up to the last one has a record. Its unclaimed stake is the sum of
      the current stakes that have not changed after that day; for the last day
      this is the sum of all stakes. */
  ghost predicate Inv(s: State) {
    && 0 <= s.pastMinutes
    && (forall d :: d in s.stats <==> 0 <= d <= LastDay(s))
    && (forall n :: n in s.voters ==> VoterInv(s.voters[n], s.start, LastDay(s)))
    && (forall d :: d in s.stats ==> DayInv(s, d))
    && s.stats[LastDay(s)].totalStake == s.stats[LastDay(s)].unclaimedStake
  }

  /** The clock has caught up with the block time. Before the first block the time
      is zero. */
  ghost predicate Caught(s: State) {
    && 0 <= s.start <= s.now && s.pastMinutes == Elapsed(s)
    && (s.start == 0 ==> s.now == 0 && forall n :: n in s.voters ==> s.voters[n].changedAt == 0)
  }

  lemma CaughtToday(s: State)
    requires Caught(s)
    ensures Today(s) == LastDay(s)
  {
    var t := s.now - s.start;
    assert t / 60 / MINUTES_PER_DAY == t / SECONDS_PER_DAY;
  }

  // -------------------------------------------------------------------- one claim

  lemma InterestBounds(day: Stat, stake: int)
    requires StatInv(day) && 0 <= stake <= day.unclaimedStake && day.unclaimedStake != 0
    ensures 0 <= InterestOf(day, stake) <= day.unclaimedFriction
    ensures stake == day.unclaimedStake ==> InterestOf(day, stake) == day.unclaimedFriction
  {
    hide PartOf, Quotient;
    QuotientBetween(stake as real, day.unclaimedStake as real);
    PartBetween(day.unclaimedFriction, Quotient(stake as real, day.unclaimedStake as real));
  }

  /** A claim pays the coin nearest to the share of the unclaimed friction that is
      in proportion to the stake, and takes both out of the day. */
  predicate FairClaim(before: Stat, after: Stat, stake: int) {
    if before.unclaimedStake == 0 then after == before
    else
      var interest := before.unclaimedFriction - after.unclaimedFriction;
      var error := interest * before.unclaimedStake - before.unclaimedFriction * stake;
      && after.unclaimedStake == before.unclaimedStake - stake
      && after.friction == before.friction && after.totalStake == before.totalStake
      && (0 < before.unclaimedStake ==> -before.unclaimedStake <= 2 * error <= before.unclaimedStake)
  }

  /** If `x` is `f` over `w`, then the coin nearest to `x` times `w` is nearest to `f`. */
  lemma NearestShare(i: int, f: int, w: int, x: real)
    requires 0 < w && Product(x, w as real) == f as real && -0.5 <= i as real - x <= 0.5
    ensures -w <= 2 * (i * w - f) <= w
  {
    hide Product;
    ProductOfIntegers(i, w);
    ProductOfGap(i as real, x, w as real);
    ProductScales(i as real - x, 0.5, w as real);
    HalfProduct(w as real);
  }

  lemma HalfProduct(w: real)
    ensures Product(0.5, w) == 0.5 * w
  {
  }

  lemma ShareTimes(f: int, stake: int, w: int)
    requires w != 0
    ensures Product(Times(f, Quotient(stake as real, w as real)), w as real) == (f * stake) as real
  {
    var s, d := stake as real, w as real;
    assert Quotient(s, d) * d == s;
    assert f as real * Quotient(s, d) * d == f as real * s;
  }

  lemma ClaimIsFair(day: Stat, stake: int)
    ensures FairClaim(day, ClaimDay(day, stake).0, stake)
    ensures day.unclaimedFriction - ClaimDay(day, stake).0.unclaimedFriction == ClaimDay(day, stake).1
  {
    hide RatToCoin, Quotient, Product, Times;
    if 0 < day.unclaimedStake {
      var x := Times(day.unclaimedFriction, Quotient(stake as real, day.unclaimedStake as real));
      ShareTimes(day.unclaimedFriction, stake, day.unclaimedStake);
      NearestShare(InterestOf(day, stake), day.unclaimedFriction * stake, day.unclaimedStake, x);
    }
  }

  /** A larger stake never earns less. */
  lemma InterestMonotone(day: Stat, stake: int, more: int)
    requires 0 <= day.unclaimedFriction && 0 < day.unclaimedStake && 0 <= stake <= more
    ensures InterestOf(day, stake) <= InterestOf(day, more)
  {
    hide PartOf, Quotient;
    QuotientMonotone(stake as real, more as real, day.unclaimedStake as real);
    QuotientMonotone(0.0, stake as real, day.unclaimedStake as real);
    DivideZero(day.unclaimedStake as real);
    PartMonotone(day.unclaimedFriction, Quotient(stake as real, day.unclaimedStake as real),
                 day.unclaimedFriction, Quotient(more as real, day.unclaimedStake as real));
  }

  /** What was paid for the days from `first` until `end`. */
  function Paid(before: map<int, Stat>, after: map<int, Stat>, first: int, end: int): int
    requires HasDays(before, first, end) && HasDays(after, first, end)
    decreases end - first
  {
    if first >= end then 0
    else before[first].unclaimedFriction - after[first].unclaimedFriction + Paid(before, after, first + 1, end)
  }

  /** Each day is claimed fairly, and the interest is what they paid together. */
  ghost predicate FairClaims(before: map<int, Stat>, after: map<int, Stat>, first: int, end: int,
                             stake: int, interest: int) {
    && after.Keys == before.Keys && HasDays(before, first, end) && HasDays(after, first, end)
    && (forall d :: d in before && !(first <= d < end) ==> after[d] == before[d])
    && (forall d :: first <= d < end ==> FairClaim(before[d], after[d], stake))
    && interest == Paid(before, after, first, end)
  }

  lemma {:induction false} PaidFrame(a: map<int, Stat>, b: map<int, Stat>, after: map<int, Stat>, first: int, end: int)
    requires HasDays(a, first, end) && HasDays(b, first, end) && HasDays(after, first, end)
    requires forall d :: first <= d < end ==> a[d] == b[d]
    ensures Paid(a, after, first, end) == Paid(b, after, first, end)
    decreases end - first
  {
    if first < end {
      PaidFrame(a, b, after, first + 1, end);
    }
  }

  lemma ClaimDaysUnfold(stats: map<int, Stat>, first: int, end: int, stake: int)
    ensures first >= end ==> ClaimDays(stats, first, end, stake) == (stats, 0)
    ensures HasDays(stats, first, end) && first < end ==>
      var (day, interest) := ClaimDay(stats[first], stake);
      var later := ClaimDays(stats[first := day], first + 1, end, stake);
      ClaimDays(stats, first, end, stake) == (later.0, interest + later.1)
  {
  }

  lemma FairClaimsMore(stats: map<int, Stat>, day: Stat, after: map<int, Stat>, first: int, end: int,
                       stake: int, later: int)
    requires first < end && first in stats && FairClaim(stats[first], day, stake)
    requires FairClaims(stats[first := day], after, first + 1, end, stake, later)
    ensures FairClaims(stats, after, first, end, stake,
                       stats[first].unclaimedFriction - day.unclaimedFriction + later)
  {
    hide FairClaim, Paid;
    var next := stats[first := day];
    forall d | first <= d < end
      ensures d in stats
    {
      assert first < d ==> d in next;
    }
    PaidFrame(next, stats, after, first + 1, end);
    PaidUnfold(stats, after, first, end);
    assert after[first] == day;
  }

  lemma {:induction false} ClaimDaysAreFair(stats: map<int, Stat>, first: int, end: int, stake: int)
    requires HasDays(stats, first, end)
    ensures var (after, interest) := ClaimDays(stats, first, end, stake);
      FairClaims(stats, after, first, end, stake, interest)
    decreases end - first
  {
    hide ClaimDay, ClaimDays, FairClaim, FairClaims;
    ClaimDaysUnfold(stats, first, end, stake);
    if first < end {
      ClaimIsFair(stats[first], stake);
      var day := ClaimDay(stats[first], stake).0;
      var next := stats[first := day];
      ClaimDaysAreFair(next, first + 1, end, stake);
      var (after, later) := ClaimDays(next, first + 1, end, stake);
      FairClaimsMore(stats, day, after, first, end, stake, later);
    } else {
      NoClaims(stats, first, end, stake);
    }
  }

  lemma NoClaims(stats: map<int, Stat>, first: int, end: int, stake: int)
    requires first >= end
    ensures FairClaims(stats, stats, first, end, stake, 0)
  {
  }

  lemma PaidUnfold(before: map<int, Stat>, after: map<int, Stat>, first: int, end: int)
    requires first < end && HasDays(before, first, end) && HasDays(after, first, end)
    ensures Paid(before, after, first, end)
      == before[first].unclaimedFriction - after[first].unclaimedFriction + Paid(before, after, first + 1, end)
  {
  }

  /** A claim takes between nothing and everything of a day's unclaimed friction;
      whoever holds all unclaimed stake takes exactly the remainder. */
  lemma ClaimWithinFriction(day: Stat, stake: int)
    requires StatInv(day) && 0 <= stake <= day.unclaimedStake
    ensures var (after, interest) := ClaimDay(day, stake);
      && 0 <= interest <= day.unclaimedFriction && StatInv(after)
      && (stake == day.unclaimedStake && 0 < stake ==>
            interest == day.unclaimedFriction && after.unclaimedFriction == 0)
      && after.unclaimedStake == day.unclaimedStake - stake
      && after.totalStake == day.totalStake
      && after.unclaimedFriction + interest == day.unclaimedFriction
      && (day.totalStake == 0 ==> interest == 0)
      && FairClaim(day, after, stake)
  {
    hide InterestOf, FairClaim;
    ClaimIsFair(day, stake);
    if day.unclaimedStake != 0 {
      InterestBounds(day, stake);
    }
  }

  /** Unclaimed friction that stakers can still claim: today's, and that of past
      days that had stake. A day without stake has passed its friction on. */
  function Claimables(stats: map<int, Stat>, today: int): map<int, int> {
    map d | d in stats :: if d == today || 0 < stats[d].totalStake then stats[d].unclaimedFriction else 0
  }

  ghost predicate DayCanPay(stats: map<int, Stat>, d: int, stake: int) {
    d in stats && StatInv(stats[d]) && stake <= stats[d].unclaimedStake
  }

  lemma ClaimMovesFriction(stats: map<int, Stat>, d: int, stake: int, today: int)
    requires DayCanPay(stats, d, stake) && 0 <= stake
    ensures var (after, interest) := ClaimDay(stats[d], stake);
      Total(Claimables(stats[d := after], today)) + interest == Total(Claimables(stats, today))
  {
    hide ClaimDay, StatInv;
    StatBounds(stats[d]);
    ClaimWithinFriction(stats[d], stake);
    var (after, interest) := ClaimDay(stats[d], stake);
    var left := if d == today || 0 < after.totalStake then after.unclaimedFriction else 0;
    assert Claimables(stats[d := after], today) == Claimables(stats, today)[d := left];
    TotalUpdate(Claimables(stats, today), d, left);
  }

  lemma StatBounds(day: Stat)
    requires StatInv(day)
    ensures 0 <= day.totalStake
  {
  }

  /** Claiming a range of days: each day of the range is claimed once, the others
      are untouched, and the friction taken is the interest paid. */
  lemma {:induction false} ClaimDaysEffect(stats: map<int, Stat>, first: int, end: int, stake: int, today: int)
    requires 0 <= stake
    requires forall d :: first <= d < end ==> DayCanPay(stats, d, stake)
    ensures HasDays(stats, first, end)
    ensures var (after, interest) := ClaimDays(stats, first, end, stake);
      && 0 <= interest
      && (forall d :: d in stats ==>
            after[d] == if first <= d < end then ClaimDay(stats[d], stake).0 else stats[d])
      && Total(Claimables(after, today)) + interest == Total(Claimables(stats, today))
    decreases end - first
  {
    hide ClaimDay, StatInv, Claimables, Total;
    assert forall d :: first <= d < end ==> DayCanPay(stats, d, stake) ==> d in stats;
    if first < end {
      assert DayCanPay(stats, first, stake);
      ClaimWithinFriction(stats[first], stake);
      ClaimMovesFriction(stats, first, stake, today);
      var (day, interest) := ClaimDay(stats[first], stake);
      var next := stats[first := day];
      forall d | first + 1 <= d < end
        ensures DayCanPay(next, d, stake)
      {
        assert DayCanPay(stats, d, stake);
      }
      ClaimDaysEffect(next, first + 1, end, stake, today);
    }
  }

  // ------------------------------------------------------------- the operations

  lemma StakesUpdate(voters: map<Name, Voter>, start: int, d: int, name: Name, v: Voter)
    ensures Total(StakesSince(voters[name := v], start, d))
      == Total(StakesSince(voters, start, d))
         - (if name in voters && PastDay(start, voters[name].changedAt) <= d then voters[name].stake else 0)
         + (if PastDay(start, v.changedAt) <= d then v.stake else 0)
  {
    hide PastDay;
    var stake := if PastDay(start, v.changedAt) <= d then v.stake else 0;
    assert StakesSince(voters[name := v], start, d) == StakesSince(voters, start, d)[name := stake];
    TotalUpdate(StakesSince(voters, start, d), name, stake);
  }

  /** A voter's stake is part of the unclaimed stake of every day it has not yet
      claimed. */
  lemma StakeIsUnclaimed(s: State, name: Name, d: int)
    requires Inv(s) && name in s.voters && PastDay(s.start, s.voters[name].changedAt) <= d <= LastDay(s)
    ensures DayCanPay(s.stats, d, s.voters[name].stake)
  {
    hide PastDay;
    var stakes := StakesSince(s.voters, s.start, d);
    TotalNonNegative(stakes);
    assert stakes[name] == s.voters[name].stake;
    PastDayNonNegative(s.start, s.voters[name].changedAt);
    assert d in s.stats && DayInv(s, d);
  }

  lemma PastDayNonNegative(start: int, t: int)
    ensures 0 <= PastDay(start, t)
  {
  }

  function Interests(voters: map<Name, Voter>): map<Name, int> {
    map n | n in voters :: voters[n].interest
  }

  /** All friction that is not yet paid out. */
  ghost function Owed(s: State): int {
    Total(Claimables(s.stats, LastDay(s))) + Total(Interests(s.voters))
  }

  lemma InterestsUpdate(voters: map<Name, Voter>, name: Name, v: Voter)
    ensures Total(Interests(voters[name := v]))
      == Total(Interests(voters)) - (if name in voters then voters[name].interest else 0) + v.interest
  {
    assert Interests(voters[name := v]) == Interests(voters)[name := v.interest];
    TotalUpdate(Interests(voters), name, v.interest);
  }

  lemma VoterIsClaimable(s: State, name: Name)
    requires Inv(s) && Caught(s) && name in s.voters
    ensures Claimable(s, name) && Accruable(s, name) && Today(s) == LastDay(s)
    ensures 0 <= PastDay(s.start, s.voters[name].changedAt) <= LastDay(s)
    ensures VoterInv(s.voters[name], s.start, LastDay(s))
  {
    hide PastDay, StatInv, DayInv;
    CaughtToday(s);
    PastDayNonNegative(s.start, s.voters[name].changedAt);
  }

  /** What settling the interest of `name` does to every day and to its record. */
  lemma AccrueEffect(s: State, name: Name)
    requires Inv(s) && Caught(s) && name in s.voters
    ensures Accruable(s, name)
    ensures var a := Accrue(s, name);
      var v := s.voters[name];
      var first := PastDay(s.start, v.changedAt);
      var interest := a.voters[name].interest - v.interest;
      && 0 <= interest
      && a == s.(stats := a.stats,
                 voters := s.voters[name := v.(interest := v.interest + interest, changedAt := s.now)])
      && a.stats.Keys == s.stats.Keys
      && (forall d :: d in s.stats ==>
            a.stats[d] == if first <= d < LastDay(s) then ClaimDay(s.stats[d], v.stake).0 else s.stats[d])
      && Total(Claimables(a.stats, LastDay(s))) + interest == Total(Claimables(s.stats, LastDay(s)))
  {
    hide Inv, PastDay, ClaimDay, Claimables, Total, DayCanPay;
    VoterIsClaimable(s, name);
    var v := s.voters[name];
    var first := PastDay(s.start, v.changedAt);
    forall d | first <= d < LastDay(s)
      ensures DayCanPay(s.stats, d, v.stake)
    {
      StakeIsUnclaimed(s, name, d);
    }
    ClaimDaysEffect(s.stats, first, LastDay(s), v.stake, LastDay(s));
  }

  lemma AccrueKeepsDay(s: State, name: Name, d: int)
    requires Inv(s) && Caught(s) && name in s.voters && d in s.stats
    ensures Accruable(s, name) && DayInv(Accrue(s, name), d)
  {
    hide PastDay, ClaimDay, Claimables, Accrue, Accruable, Total;
    AccrueEffect(s, name);
    VoterIsClaimable(s, name);
    NowIsToday(s);
    var v := s.voters[name];
    var a := Accrue(s, name);
    StakesUpdate(s.voters, s.start, d, name, a.voters[name]);
    assert DayInv(s, d);
    if PastDay(s.start, v.changedAt) <= d < LastDay(s) {
      StakeIsUnclaimed(s, name, d);
      ClaimWithinFriction(s.stats[d], v.stake);
    }
  }

  lemma NowIsToday(s: State)
    requires Caught(s)
    ensures PastDay(s.start, s.now) == LastDay(s)
  {
    CaughtToday(s);
  }

  lemma AccrueKeeps(s: State, name: Name)
    requires Inv(s) && Caught(s) && name in s.voters
    ensures Accruable(s, name)
    ensures var a := Accrue(s, name);
      && Inv(a) && Caught(a) && Owed(a) == Owed(s)
      && a.voters.Keys == s.voters.Keys && a.delegations == s.delegations
      && a.voters[name].changedAt == s.now && a.voters[name].stake == s.voters[name].stake
  {
    hide PastDay, ClaimDay, Claimables, Accrue, Accruable, Total, DayInv, StatInv, StakesSince, Interests;
    AccrueEffect(s, name);
    VoterIsClaimable(s, name);
    NowIsToday(s);
    var a := Accrue(s, name);
    forall d | d in a.stats
      ensures DayInv(a, d)
    {
      AccrueKeepsDay(s, name, d);
    }
    InterestsUpdate(s.voters, name, a.voters[name]);
  }

  /** A stake that changed today only counts for today. */
  lemma MoveKeeps(s: State, name: Name, delta: int)
    requires Inv(s) && Caught(s) && name in s.voters && s.voters[name].changedAt == s.now
    requires 0 <= s.voters[name].stake + delta
    ensures Today(s) in s.stats
    ensures var m := MoveStake(s, name, delta);
      && Inv(m) && Caught(m) && Owed(m) == Owed(s)
      && m.voters.Keys == s.voters.Keys && m.delegations == s.delegations
  {
    hide PastDay, Claimables, Total, StakesSince, Interests;
    VoterIsClaimable(s, name);
    NowIsToday(s);
    var today := LastDay(s);
    assert DayInv(s, today);
    var m := MoveStake(s, name, delta);
    forall d | d in m.stats
      ensures DayInv(m, d)
    {
      assert DayInv(s, d);
      StakesUpdate(s.voters, s.start, d, name, m.voters[name]);
      StakeIsUnclaimed(s, name, today);
    }
    InterestsUpdate(s.voters, name, m.voters[name]);
    ClaimablesSame(s.stats, today, m.stats[today]);
  }

  lemma ClaimablesSame(stats: map<int, Stat>, today: int, day: Stat)
    requires today in stats
    ensures Total(Claimables(stats[today := day], today))
      == Total(Claimables(stats, today)) + day.unclaimedFriction - stats[today].unclaimedFriction
  {
    assert Claimables(stats[today := day], today) == Claimables(stats, today)[today := day.unclaimedFriction];
    TotalUpdate(Claimables(stats, today), today, day.unclaimedFriction);
  }

  lemma WithVoterKeeps(s: State, name: Name)
    requires Inv(s) && Caught(s)
    ensures Inv(WithVoter(s, name)) && Caught(WithVoter(s, name)) && Owed(WithVoter(s, name)) == Owed(s)
  {
    hide PastDay, Claimables, Total, StakesSince, Interests, StatInv;
    NowIsToday(s);
    var w := WithVoter(s, name);
    if name !in s.voters {
      forall d | d in s.stats
        ensures DayInv(w, d)
      {
        assert DayInv(s, d);
        StakesUpdate(s.voters, s.start, d, name, w.voters[name]);
      }
      InterestsUpdate(s.voters, name, w.voters[name]);
    }
  }

  lemma ChangeStakeKeeps(s: State, name: Name, delta: int)
    requires Inv(s) && Caught(s) && name in s.voters && 0 <= s.voters[name].stake + delta
    ensures Claimable(s, name)
    ensures var c := ChangeStake(s, name, delta);
      && Inv(c) && Caught(c) && Owed(c) == Owed(s)
      && c.voters.Keys == s.voters.Keys && c.delegations == s.delegations
  {
    hide Inv, Caught, Owed, MoveStake, ClaimDays;
    AccrueKeeps(s, name);
    MoveKeeps(Accrue(s, name), name, delta);
  }

  /** Operations that leave days, stakes and interests alone. */
  lemma FrameKeeps(s: State, s': State)
    requires Inv(s) && Caught(s)
    requires s' == s.(voters := s'.voters, delegations := s'.delegations)
    requires s'.voters.Keys == s.voters.Keys
    requires forall n :: n in s.voters ==>
      s'.voters[n] == s.voters[n].(delegatedPower := s'.voters[n].delegatedPower, toOthers := s'.voters[n].toOthers)
    ensures Inv(s') && Caught(s') && Owed(s') == Owed(s)
  {
    hide PastDay, StatInv;
    forall d | d in s.stats
      ensures DayInv(s', d)
    {
      assert DayInv(s, d);
      assert StakesSince(s'.voters, s.start, d) == StakesSince(s.voters, s.start, d);
    }
    assert Interests(s'.voters) == Interests(s.voters);
  }

  lemma FrictionKeeps(s: State, amount: nat)
    requires Inv(s) && Caught(s)
    ensures Today(s) in s.stats
    ensures var f := AddFriction(s, amount);
      Inv(f) && Caught(f) && Owed(f) == Owed(s) + amount
  {
    hide PastDay, Claimables, Total, StakesSince, Interests;
    NowIsToday(s);
    var f := AddFriction(s, amount);
    forall d | d in f.stats
      ensures DayInv(f, d)
    {
      assert DayInv(s, d);
    }
    ClaimablesSame(s.stats, LastDay(s), f.stats[LastDay(s)]);
  }

  lemma PayoutKeeps(s: State, name: Name)
    requires Inv(s) && Caught(s) && name in s.voters
    ensures var c := ClaimInterest(s, name);
      Inv(c) && Caught(c) && Owed(c) == Owed(s) - s.voters[name].interest
  {
    hide PastDay, Claimables, Total, StakesSince, Interests, StatInv;
    var c := ClaimInterest(s, name);
    forall d | d in s.stats
      ensures DayInv(c, d)
    {
      assert DayInv(s, d);
      StakesUpdate(s.voters, s.start, d, name, c.voters[name]);
    }
    InterestsUpdate(s.voters, name, c.voters[name]);
  }

  // ----------------------------------------------------------------- a new minute

  lemma NewDayOwed(stats: map<int, Stat>, day: int)
    requires day - 1 in stats && day !in stats && 0 <= stats[day - 1].totalStake
    ensures Total(Claimables(RecordDay(stats, day), day)) == Total(Claimables(stats, day - 1))
  {
    var last := stats[day - 1];
    var next := RecordDay(stats, day)[day];
    var left := if 0 < last.totalStake then last.unclaimedFriction else 0;
    assert Claimables(RecordDay(stats, day), day)
        == Claimables(stats, day - 1)[day - 1 := left][day := next.unclaimedFriction];
    TotalUpdate(Claimables(stats, day - 1), day - 1, left);
    TotalUpdate(Claimables(stats, day - 1)[day - 1 := left], day, next.unclaimedFriction);
  }

  lemma NewDayStakes(s: State, day: int)
    requires Inv(s) && LastDay(s) <= day
    ensures StakesSince(s.voters, s.start, day) == StakesSince(s.voters, s.start, LastDay(s))
  {
    hide PastDay, DayInv, StatInv;
    assert forall n :: n in s.voters ==> VoterInv(s.voters[n], s.start, LastDay(s));
  }

  lemma MinuteAndDay(minute: int)
    requires 0 < minute
    ensures minute / MINUTES_PER_DAY == (minute - 1) / MINUTES_PER_DAY + if minute % MINUTES_PER_DAY == 0 then 1 else 0
  {
  }

  lemma MinuteKeeps(s: State)
    requires Inv(s)
    ensures Inv(IncreaseMinute(s)) && Owed(IncreaseMinute(s)) == Owed(s)
  {
    hide PastDay, Claimables, Total, StakesSince, Interests, Due;
    MinuteAndDay(s.pastMinutes + 1);
    var m := IncreaseMinute(s);
    var last := LastDay(s);
    assert DayInv(s, last);
    if last < LastDay(m) {
      NewDayOwed(s.stats, last + 1);
      NewDayStakes(s, last + 1);
    }
    forall d | d in m.stats
      ensures DayInv(m, d)
    {
      assert d <= last ==> DayInv(s, d);
    }
  }

  lemma {:induction false} CatchUpKeeps(s: State)
    requires Inv(s)
    ensures var c := CatchUp(s);
      && Inv(c) && Owed(c) == Owed(s)
      && c == s.(pastMinutes := c.pastMinutes, fired := c.fired, stats := c.stats)
      && c.pastMinutes == if s.pastMinutes <= Elapsed(s) then Elapsed(s) else s.pastMinutes
    decreases Elapsed(s) - s.pastMinutes
  {
    hide Inv, Owed, Due, RecordDay;
    if Elapsed(s) > s.pastMinutes {
      MinuteKeeps(s);
      CatchUpKeeps(IncreaseMinute(s));
    }
  }

  lemma BlockKeeps(s: State, now: int)
    requires Inv(s) && Caught(s) && s.now <= now && 0 < now
    ensures Inv(BeginBlock(s, now)) && Caught(BeginBlock(s, now)) && Owed(BeginBlock(s, now)) == Owed(s)
  {
    hide CatchUp, Claimables, Interests, StatInv, Total;
    var t := s.(now := now, start := if s.start == 0 then now else s.start);
    forall d | d in s.stats
      ensures DayInv(t, d)
    {
      assert DayInv(s, d);
      assert StakesSince(t.voters, t.start, d) == StakesSince(s.voters, s.start, d);
    }
    ElapsedGrows(s, now);
    CatchUpKeeps(t);
  }

  lemma ElapsedGrows(s: State, now: int)
    requires Caught(s) && s.now <= now
    ensures s.pastMinutes <= Elapsed(s.(now := now, start := if s.start == 0 then now else s.start))
  {
  }

  // ------------------------------------------------------------------ each step

  lemma DelegateKeeps(s: State, voter: Name, delegator: Name, coin: int)
    requires Inv(s) && Caught(s) && 0 <= coin
    ensures Claimable(WithVoter(s, delegator), delegator)
    ensures var d := AddDelegation(ChangeStake(WithVoter(s, delegator), delegator, coin), voter, delegator, coin);
      Inv(d) && Caught(d) && Owed(d) == Owed(s)
  {
    hide Inv, Caught, Owed, Claimable, ChangeStake;
    WithVoterKeeps(s, delegator);
    VoterStake(WithVoter(s, delegator), delegator);
    ChangeStakeKeeps(WithVoter(s, delegator), delegator, coin);
    var c := ChangeStake(WithVoter(s, delegator), delegator, coin);
    WithVoterKeeps(c, voter);
    FrameKeeps(WithVoter(c, voter), AddDelegation(c, voter, delegator, coin));
  }

  lemma VoterStake(s: State, name: Name)
    requires Inv(s) && name in s.voters
    ensures 0 <= s.voters[name].stake
  {
  }

  lemma WithdrawKeeps(s: State, voter: Name, delegator: Name, coin: int)
    requires Inv(s) && Caught(s) && voter in s.voters && delegator in s.voters && coin <= s.voters[delegator].stake
    ensures Claimable(s, delegator)
    ensures voter in ChangeStake(s, delegator, -coin).voters && delegator in ChangeStake(s, delegator, -coin).voters
    ensures var w := WithdrawDelegation(ChangeStake(s, delegator, -coin), voter, delegator, coin);
      Inv(w) && Caught(w) && Owed(w) == Owed(s)
  {
    hide Inv, Caught, Owed, Claimable, ChangeStake;
    ChangeStakeKeeps(s, delegator, -coin);
    var c := ChangeStake(s, delegator, -coin);
    FrameKeeps(c, WithdrawDelegation(c, voter, delegator, coin));
  }

  lemma ClaimKeeps(s: State, name: Name)
    requires Inv(s) && Caught(s) && name in s.voters
    ensures Accruable(s, name)
    ensures var a := Accrue(s, name);
      && name in a.voters && Inv(ClaimInterest(a, name)) && Caught(ClaimInterest(a, name))
      && Owed(ClaimInterest(a, name)) + a.voters[name].interest == Owed(s)
  {
    hide Inv, Caught, Owed, Accruable, Accrue, ClaimInterest;
    AccrueKeeps(s, name);
    PayoutKeeps(Accrue(s, name), name);
  }

  lemma AccruableVoter(s: State, name: Name)
    requires Accruable(s, name)
    ensures name in s.voters
  {
  }

  lemma ClaimableVoter(s: State, name: Name)
    requires Claimable(s, name)
    ensures Accruable(s, name) && name in s.voters
  {
  }

  /** Every step keeps the daily counters and conserves the friction. Withdrawals
      never exceed the stake, as module Delegations proves of every run. */
  lemma StepKeeps(s: State, op: Op)
    requires Inv(s) && Caught(s)
    requires forall n :: n in s.voters ==> 0 <= s.voters[n].toOthers <= s.voters[n].stake
    requires forall k :: k in s.delegations ==> k.1 in s.voters && s.delegations[k] <= s.voters[k.1].toOthers
    ensures Inv(Step(s, op)) && Caught(Step(s, op))
    ensures Owed(Step(s, op)) + PaidOut(s, op) == Owed(s) + FrictionOf(s, op)
  {
    hide Inv, Caught, Owed, Claimable, Accruable, BeginBlock, AddFriction;
    hide Accrue, ChangeStake, ClaimInterest, AddDelegation, WithdrawDelegation;
    if Accepted(s, op) {
      match op
      case Block(now) => BlockKeeps(s, now);
      case Friction(amount) => FrictionKeeps(s, amount);
      case StakeIn(name, coin, _) =>
        WithVoterKeeps(s, name);
        VoterStake(WithVoter(s, name), name);
        ChangeStakeKeeps(WithVoter(s, name), name, coin);
      case StakeOut(name, coin, _) =>
        ClaimableVoter(s, name);
        ChangeStakeKeeps(s, name, -coin);
      case Delegate(voter, delegator, coin, _) => DelegateKeeps(s, voter, delegator, coin);
      case DelegatorWithdraw(voter, delegator, coin) => WithdrawKeeps(s, voter, delegator, coin);
      case Claim(name) =>
        AccruableVoter(s, name);
        ClaimKeeps(s, name);
    }
  }
}

/** Stake, delegation and daily friction: the voter records of x/vote, the daily
    statistics of x/global/manager.go and the minute ticker of app/app.go. */
module Stake {
  import opened Coins

  const SECONDS_PER_DAY := 3600 * 24
  const MINUTES_PER_DAY := 60 * 24
  const MINUTES_PER_YEAR := 8766 * 60
  const MINUTES_PER_MONTH := MINUTES_PER_YEAR / 12

  type Name = string

  datatype Stat = Stat(friction: int, unclaimedFriction: int, totalStake: int, unclaimedStake: int)

  datatype Voter = Voter(stake: int, delegatedPower: int, toOthers: int, changedAt: int, interest: int)

  datatype Periodic = Hourly | Daily | Monthly | Yearly

  /** `start` is zero before the first block; `fired` records the periodic events. */
  datatype State = State(start: int, now: int, pastMinutes: int, fired: seq<Periodic>,
                         stats: map<int, Stat>, voters: map<Name, Voter>, delegations: map<(Name, Name), int>)

  const GENESIS := State(0, 0, 0, [], map[0 := Stat(0, 0, 0, 0)], map[], map[])

  /** GetPastDay: Go's truncated division, with negative results read as day 0. */
  function PastDay(start: int, t: int): int {
    if t < start then 0 else (t - start) / SECONDS_PER_DAY
  }

  function Today(s: State): int {
    PastDay(s.start, s.now)
  }

  // ------------------------------------------------------------------ interest

  function InterestOf(day: Stat, stake: int): int
    requires day.unclaimedStake != 0
  {
    PartOf(day.unclaimedFriction, Quotient(stake as real, day.unclaimedStake as real))
  }

  function ClaimDay(day: Stat, stake: int): (Stat, int) {
    if day.unclaimedStake == 0 then (day, 0)
    else
      var interest := InterestOf(day, stake);
      (day.(unclaimedFriction := day.unclaimedFriction - interest, unclaimedStake := day.unclaimedStake - stake),
       interest)
  }

  predicate HasDays(stats: map<int, Stat>, first: int, end: int) {
    forall d :: first <= d < end ==> d in stats
  }

  /** GetInterestSince: claims every day from `first` until `end` (exclusive). */
  function ClaimDays(stats: map<int, Stat>, first: int, end: int, stake: int): (r: (map<int, Stat>, int))
    requires HasDays(stats, first, end)
    ensures r.0.Keys == stats.Keys
    decreases end - first
  {
    if first >= end then (stats, 0)
    else
      var (day, interest) := ClaimDay(stats[first], stake);
      var later := ClaimDays(stats[first := day], first + 1, end, stake);
      (later.0, interest + later.1)
  }

  /** All past days that a claim of `name` reads are recorded. */
  predicate Accruable(s: State, name: Name) {
    name in s.voters && HasDays(s.stats, PastDay(s.start, s.voters[name].changedAt), Today(s))
  }

  /** In addition, today is recorded. */
  predicate Claimable(s: State, name: Name) {
    Accruable(s, name) && Today(s) in s.stats
  }

  /** calculateAndAddInterest */
  function Accrue(s: State, name: Name): State
    requires Accruable(s, name)
  {
    var v := s.voters[name];
    var (stats, interest) := ClaimDays(s.stats, PastDay(s.start, v.changedAt), Today(s), v.stake);
    s.(stats := stats, voters := s.voters[name := v.(interest := v.interest + interest, changedAt := s.now)])
  }

  // --------------------------------------------------------------------- stake

  /** A missing voter starts without stake. */
  function WithVoter(s: State, name: Name): State {
    if name in s.voters then s else s.(voters := s.voters[name := Voter(0, 0, 0, s.now, 0)])
  }

  function MoveStake(s: State, name: Name, delta: int): State
    requires name in s.voters && Today(s) in s.stats
  {
    var v := s.voters[name];
    var day := s.stats[Today(s)];
    s.(voters := s.voters[name := v.(stake := v.stake + delta, changedAt := s.now)],
       stats := s.stats[Today(s) := day.(totalStake := day.totalStake + delta,
                                         unclaimedStake := day.unclaimedStake + delta)])
  }

  /** AddStake and MinusStake: settle the interest, then move the stake. */
  function ChangeStake(s: State, name: Name, delta: int): State
    requires Claimable(s, name)
  {
    MoveStake(Accrue(s, name), name, delta)
  }

  function AddFriction(s: State, friction: int): State
    requires Today(s) in s.stats
  {
    var day := s.stats[Today(s)];
    s.(stats := s.stats[Today(s) := day.(friction := day.friction + friction,
                                         unclaimedFriction := day.unclaimedFriction + friction)])
  }

  function ClaimInterest(s: State, name: Name): State
    requires name in s.voters
  {
    s.(voters := s.voters[name := s.voters[name].(interest := 0)])
  }

  // --------------------------------------------------------------- delegations

  function Delegation(s: State, voter: Name, delegator: Name): int {
    if (voter, delegator) in s.delegations then s.delegations[(voter, delegator)] else 0
  }

  /** Both records are read before either is written back: if they are the same
      record, the delegator's copy wins. */
  function AddDelegation(s: State, voter: Name, delegator: Name, coin: int): State
    requires delegator in s.voters
  {
    var s1 := WithVoter(s, voter);
    var v := s1.voters[voter];
    var d := s1.voters[delegator];
    s1.(voters := s1.voters[voter := v.(delegatedPower := v.delegatedPower + coin)]
                           [delegator := d.(toOthers := d.toOthers + coin)],
        delegations := s1.delegations[(voter, delegator) := Delegation(s, voter, delegator) + coin])
  }

  function WithdrawDelegation(s: State, voter: Name, delegator: Name, coin: int): State
    requires voter in s.voters && delegator in s.voters
  {
    var voters := s.voters[voter := s.voters[voter].(delegatedPower := s.voters[voter].delegatedPower - coin)];
    var rest := Delegation(s, voter, delegator) - coin;
    s.(voters := voters[delegator := voters[delegator].(toOthers := voters[delegator].toOthers - coin)],
       delegations := if rest == 0 then s.delegations - {(voter, delegator)}
                      else s.delegations[(voter, delegator) := rest])
  }

  function VotingPower(v: Voter): int {
    v.stake + v.delegatedPower - v.toOthers
  }

  // ---------------------------------------------------------------------- time

  /** RecordConsumptionAndLinoStake; its error (no record for the day before) is
      ignored by the caller. */
  function RecordDay(stats: map<int, Stat>, day: int): map<int, Stat> {
    if day - 1 !in stats then stats
    else
      var last := stats[day - 1];
      stats[day := if last.totalStake != 0 then last.(friction := 0, unclaimedFriction := 0) else last]
  }

  function Fires(due: bool, p: Periodic): seq<Periodic> {
    if due then [p] else []
  }

  /** The events due when `minute` is reached, in order. */
  function Due(minute: int): seq<Periodic> {
    Fires(minute % 60 == 0, Hourly)
    + Fires(minute % MINUTES_PER_DAY == 0, Daily)
    + Fires(minute % MINUTES_PER_MONTH == 0, Monthly)
    + Fires(minute % MINUTES_PER_YEAR == 0, Yearly)
  }

  function IncreaseMinute(s: State): State {
    var minute := s.pastMinutes + 1;
    s.(pastMinutes := minute,
       fired := s.fired + Due(minute),
       stats := if minute % MINUTES_PER_DAY == 0 then RecordDay(s.stats, minute / MINUTES_PER_DAY) else s.stats)
  }

  function Elapsed(s: State): int {
    (s.now - s.start) / 60
  }

  function CatchUp(s: State): State
    decreases Elapsed(s) - s.pastMinutes
  {
    if Elapsed(s) > s.pastMinutes then CatchUp(IncreaseMinute(s)) else s
  }

  /** The clock part of beginBlocker. */
  function BeginBlock(s: State, now: int): State {
    CatchUp(s.(now := now, start := if s.start == 0 then now else s.start))
  }

  // -------------------------------------------------------------- whole runs

  /** Operations as far as these records are concerned: bank transfers, account
      checks and the registration of coin returns have succeeded. */
  datatype Op =
    | Block(now: int)
    | Friction(amount: nat)
    | StakeIn(name: Name, coin: int, minimum: nat)
    | StakeOut(name: Name, coin: int, isValidator: bool)
    | Delegate(voter: Name, delegator: Name, coin: int, minimum: nat)
    | DelegatorWithdraw(voter: Name, delegator: Name, coin: int)
    | Claim(name: Name)

  /** The handler's own checks; a rejected message changes nothing. Block times
      are positive and never decrease. */
  predicate Accepted(s: State, op: Op) {
    match op
    case Block(now) => s.now <= now && 0 < now
    case Friction(_) => Today(s) in s.stats
    case StakeIn(name, coin, minimum) => 0 < coin && minimum <= coin && Claimable(WithVoter(s, name), name)
    case StakeOut(name, coin, isValidator) =>
      && Claimable(s, name) && !isValidator
      && coin <= s.voters[name].stake - s.voters[name].toOthers && 0 < coin
    case Delegate(_, delegator, coin, minimum) =>
      0 < coin && minimum <= coin && Claimable(WithVoter(s, delegator), delegator)
    case DelegatorWithdraw(voter, delegator, coin) =>
      && (voter, delegator) in s.delegations && voter in s.voters
      && coin <= s.delegations[(voter, delegator)] && 0 < coin && Claimable(s, delegator)
    case Claim(name) => Accruable(s, name)
  }

  function Step(s: State, op: Op): State {
    if !Accepted(s, op) then s
    else match op
      case Block(now) => BeginBlock(s, now)
      case Friction(amount) => AddFriction(s, amount)
      case StakeIn(name, coin, _) => ChangeStake(WithVoter(s, name), name, coin)
      case StakeOut(name, coin, _) => ChangeStake(s, name, -coin)
      case Delegate(voter, delegator, coin, _) =>
        AddDelegation(ChangeStake(WithVoter(s, delegator), delegator, coin), voter, delegator, coin)
      case DelegatorWithdraw(voter, delegator, coin) =>
        WithdrawDelegation(ChangeStake(s, delegator, -coin), voter, delegator, coin)
      case Claim(name) => ClaimInterest(Accrue(s, name), name)
  }

  /** What a claim credits to the bank. */
  function PaidOut(s: State, op: Op): int {
    if Accepted(s, op) && op.Claim? then Accrue(s, op.name).voters[op.name].interest else 0
  }

  function FrictionOf(s: State, op: Op): int {
    if Accepted(s, op) && op.Friction? then op.amount else 0
  }

  function Run(ops: seq<Op>): State {
    if ops == [] then GENESIS else Step(Run(ops[..|ops| - 1]), ops[|ops| - 1])
  }
}

/** The sliding consumption window and the content reward pool
    (x/global/manager.go), from the donation that registers a reward event
    (x/post/handler.go) to its execution (x/post/event.go). */
module RewardWindow {
  import opened Coins
  import opened Sums

  type Name = string

  datatype Event = Event(author: Name, evaluate: int, original: int, friction: int)

  datatype State = State(pool: int, window: int, pending: seq<Event>, earned: map<Name, int>, staked: map<Name, int>)

  const GENESIS := State(0, 0, [], map[], map[])

  function Of(m: map<Name, int>, n: Name): int {
    if n in m then m[n] else 0
  }

  // ------------------------------------------------------------------- rewards

  /** GetPenaltyScore */
  function PenaltyScore(sumRep: int, maxReport: int): real {
    if sumRep >= 0 then 0.0
    else if maxReport == 0 || -sumRep >= maxReport then 1.0
    else
      var score := Round(Quotient((-sumRep) as real, maxReport as real));
      if score > 1.0 then 1.0 else score
  }

  function Scaled(x: real, kept: real, whole: real): real
    requires whole != 0.0
  {
    Quotient(x * kept, whole)
  }

  function Ratio(evaluate: int, window: int, penalty: real): real
    requires window != 0
  {
    Round(Scaled(evaluate as real, 1.0 - penalty, window as real))
  }

  /** The reward GetRewardAndPopFromWindow takes from the pool. */
  function Reward(pool: int, window: int, evaluate: int, penalty: real): int
    requires evaluate == 0 || window != 0
  {
    if evaluate == 0 then 0 else PartOf(pool, Ratio(evaluate, window, penalty))
  }

  function Half(reward: int): int {
    PartOf(reward, 0.5)
  }

  lemma PenaltyBetween(sumRep: int, maxReport: int)
    ensures 0.0 <= PenaltyScore(sumRep, maxReport) <= 1.0
  {
    hide Round, Quotient;
    if sumRep < 0 && -sumRep < maxReport {
      QuotientBetween((-sumRep) as real, maxReport as real);
      RoundBetween(0, Quotient((-sumRep) as real, maxReport as real), 1);
    }
  }

  lemma RoundMonotone(x: real, y: real)
    requires x <= y
    ensures Round(x) <= Round(y)
  {
    hide RatToCoin;
    RatToCoinMonotone(x * 10000000.0, y * 10000000.0);
  }

  /** A post without negative reputation has no penalty, one at the limit or beyond
      the full penalty, and in between the penalty is the share of the limit, to
      seven decimals. */
  predicate PenaltyRule(sumRep: int, maxReport: int, penalty: real) {
    if 0 <= sumRep then penalty == 0.0
    else if maxReport == 0 || sumRep + maxReport <= 0 then penalty == 1.0
    else -HALF_DECIMAL <= penalty + sumRep as real / maxReport as real <= HALF_DECIMAL
  }

  lemma PenaltyIsShare(sumRep: int, maxReport: int)
    ensures PenaltyRule(sumRep, maxReport, PenaltyScore(sumRep, maxReport))
  {
    hide Round, Quotient;
    PenaltyBetween(sumRep, maxReport);
    if sumRep < 0 && 0 < sumRep + maxReport {
      var share := Quotient((-sumRep) as real, maxReport as real);
      NegatedShare(sumRep, maxReport);
      QuotientBetween((-sumRep) as real, maxReport as real);
      RoundBetween(0, share, 1);
      RoundIsNear(share);
    }
  }

  lemma NegatedShare(sumRep: int, maxReport: int)
    requires maxReport != 0
    ensures Quotient((-sumRep) as real, maxReport as real) == -(sumRep as real / maxReport as real)
  {
  }

  /** The worse a post's reputation, the higher its penalty. */
  lemma PenaltyMonotone(sumRep: int, worse: int, maxReport: int)
    requires worse <= sumRep
    ensures PenaltyScore(sumRep, maxReport) <= PenaltyScore(worse, maxReport)
  {
    hide Round, Quotient;
    PenaltyBetween(sumRep, maxReport);
    PenaltyBetween(worse, maxReport);
    if 0 < maxReport && sumRep < 0 {
      QuotientMonotone((-sumRep) as real, (-worse) as real, maxReport as real);
      RoundMonotone(Quotient((-sumRep) as real, maxReport as real), Quotient((-worse) as real, maxReport as real));
    }
  }

  lemma ScaledBetween(x: real, u: real, w: real)
    requires 0.0 <= x <= w && 0.0 < w && 0.0 <= u <= 1.0
    ensures 0.0 <= Scaled(x, u, w) <= 1.0
    ensures x == w && u == 1.0 ==> Scaled(x, u, w) == 1.0
    ensures u == 0.0 ==> Scaled(x, u, w) == 0.0
  {
    hide Quotient;
    FractionOf(x, u);
    QuotientBetween(x * u, w);
  }

  lemma ScaledMonotone(x: real, u: real, y: real, v: real, w: real)
    requires 0.0 <= x <= y && 0.0 <= u <= v && 0.0 < w
    ensures Scaled(x, u, w) <= Scaled(y, v, w)
  {
    hide Quotient;
    ProductOfBoth(x, u, y, v);
    QuotientMonotone(x * u, y * v, w);
  }

  lemma RatioBetween(evaluate: int, window: int, penalty: real)
    requires 0 <= evaluate <= window && 0 < window && 0.0 <= penalty <= 1.0
    ensures 0.0 <= Ratio(evaluate, window, penalty) <= 1.0
    ensures evaluate == window && penalty == 0.0 ==> Ratio(evaluate, window, penalty) == 1.0
    ensures penalty == 1.0 ==> Ratio(evaluate, window, penalty) == 0.0
  {
    hide Round, Scaled;
    ScaledBetween(evaluate as real, 1.0 - penalty, window as real);
    RoundBetween(0, Scaled(evaluate as real, 1.0 - penalty, window as real), 1);
  }

  lemma RatioMonotone(evaluate: int, window: int, penalty: real, more: int, less: real)
    requires 0 <= evaluate <= more && 0 < window && 0.0 <= less <= penalty <= 1.0
    ensures Ratio(evaluate, window, penalty) <= Ratio(more, window, less)
  {
    hide Round, Scaled;
    ScaledMonotone(evaluate as real, 1.0 - penalty, more as real, 1.0 - less, window as real);
    RoundMonotone(Scaled(evaluate as real, 1.0 - penalty, window as real),
                  Scaled(more as real, 1.0 - less, window as real));
  }

  /** A reward never exceeds the pool; the whole window without penalty takes all
      of it, a full penalty nothing. */
  lemma RewardBetween(pool: int, window: int, evaluate: int, penalty: real)
    requires 0 <= pool && 0 <= evaluate <= window && 0.0 <= penalty <= 1.0
    ensures 0 <= Reward(pool, window, evaluate, penalty) <= pool
    ensures 0 < evaluate == window && penalty == 0.0 ==> Reward(pool, window, evaluate, penalty) == pool
    ensures penalty == 1.0 ==> Reward(pool, window, evaluate, penalty) == 0
  {
    hide Ratio, PartOf;
    if evaluate != 0 {
      RatioBetween(evaluate, window, penalty);
      PartBetween(pool, Ratio(evaluate, window, penalty));
    }
  }

  /** The reward is the pool's share in proportion to the evaluation that is left
      after the penalty: up to half a coin, and half a seventh decimal of the pool. */
  predicate RewardRule(pool: int, window: int, evaluate: int, penalty: real, reward: int)
    requires window != 0
  {
    var exact := Times(pool, Scaled(evaluate as real, 1.0 - penalty, window as real));
    -0.5 - Times(pool, HALF_DECIMAL) <= reward as real - exact <= 0.5 + Times(pool, HALF_DECIMAL)
  }

  lemma RatioIsNear(evaluate: int, window: int, penalty: real)
    requires window != 0
    ensures var exact := Scaled(evaluate as real, 1.0 - penalty, window as real);
      -HALF_DECIMAL <= Ratio(evaluate, window, penalty) - exact <= HALF_DECIMAL
  {
    hide Round, Scaled;
    var exact := Scaled(evaluate as real, 1.0 - penalty, window as real);
    RoundIsNear(exact);
  }

  lemma RewardIsShare(pool: int, window: int, evaluate: int, penalty: real)
    requires 0 <= pool && window != 0
    ensures RewardRule(pool, window, evaluate, penalty, Reward(pool, window, evaluate, penalty))
  {
    hide Ratio, Scaled, PartOf, Times;
    var exact := Scaled(evaluate as real, 1.0 - penalty, window as real);
    if evaluate == 0 {
      NothingScaled(pool, 1.0 - penalty, window as real);
    } else {
      RatioIsNear(evaluate, window, penalty);
      PartOfNearRate(pool, Ratio(evaluate, window, penalty), exact, HALF_DECIMAL);
    }
  }

  lemma NothingScaled(pool: int, kept: real, whole: real)
    requires 0 <= pool && whole != 0.0
    ensures Times(pool, Scaled(0.0, kept, whole)) == 0.0 && 0.0 <= Times(pool, HALF_DECIMAL)
  {
    hide Quotient;
    DivideZero(whole);
    assert 0.0 * kept == 0.0;
  }

  /** A larger contribution or a smaller penalty never earns less. */
  lemma RewardMonotone(pool: int, window: int, evaluate: int, penalty: real, more: int, less: real)
    requires 0 <= pool && 0 < evaluate <= more <= window && 0.0 <= less <= penalty <= 1.0
    ensures Reward(pool, window, evaluate, penalty) <= Reward(pool, window, more, less)
  {
    hide Ratio, PartOf;
    RatioBetween(evaluate, window, penalty);
    RatioMonotone(evaluate, window, penalty, more, less);
    PartMonotone(pool, Ratio(evaluate, window, penalty), pool, Ratio(more, window, less));
  }

  /** The income part of a reward: the half, and of two equally near ones the even
      one; the rest is staked. */
  predicate HalfRule(reward: int, income: int) {
    -1 <= reward - 2 * income <= 1 && (reward % 2 == 1 ==> income % 2 == 0)
  }

  lemma HalfBetween(reward: int)
    requires 0 <= reward
    ensures 0 <= Half(reward) <= reward && HalfRule(reward, Half(reward))
  {
    hide RatToCoin;
    PartBetween(reward, 0.5);
    HalfIsHalf(reward);
  }

  lemma HalfIsHalf(reward: int)
    ensures HalfRule(reward, Half(reward))
  {
    hide RatToCoin, Times;
    var k := reward / 2;
    if reward == 2 * k {
      HalfOfEven(k);
      RatToCoinOfInteger(k);
    } else {
      HalfOfOdd(k);
      RatToCoinOfHalf(k);
    }
  }

  lemma HalfOfEven(k: int)
    ensures Times(2 * k, 0.5) == k as real
  {
  }

  lemma HalfOfOdd(k: int)
    ensures Times(2 * k + 1, 0.5) == k as real + 0.5
  {
  }

  /** Half a coin above `k` rounds to the even one of its neighbours. */
  lemma RatToCoinOfHalf(k: int)
    ensures RatToCoin(k as real + 0.5) == if k % 2 == 0 then k else k + 1
  {
  }

  // ------------------------------------------------------------------ donations

  datatype Part = Part(coin: int, coinDay: int)

  /** handleDonateMsg with a source post: the source's part and the post's own. */
  function Redistribute(coin: int, coinDay: int, splitRate: real): (Part, Part) {
    var source := Part(PartOf(coin, 1.0 - splitRate), PartOf(coinDay, 1.0 - splitRate));
    (source, Part(coin - source.coin, coinDay - source.coinDay))
  }

  /** processDonationFriction: the friction and the direct deposit. */
  function Friction(coin: int, frictionRate: real): (int, int) {
    (PartOf(coin, frictionRate), coin - PartOf(coin, frictionRate))
  }

  /** A donation is split without creating or losing coins, no part is negative,
      and the coin-day of each part stays between zero and its coins. */
  lemma DonationIsSplit(coin: int, coinDay: int, splitRate: real, frictionRate: real)
    requires 0 <= coinDay <= coin && 0.0 <= splitRate <= 1.0 && 0.0 <= frictionRate <= 1.0
    ensures var (source, own) := Redistribute(coin, coinDay, splitRate);
      var (f0, d0) := Friction(source.coin, frictionRate);
      var (f1, d1) := Friction(own.coin, frictionRate);
      && f0 + d0 + f1 + d1 == coin && source.coinDay + own.coinDay == coinDay
      && 0 <= f0 && 0 <= d0 && 0 <= f1 && 0 <= d1
      && 0 <= source.coinDay <= source.coin && 0 <= own.coinDay <= own.coin
      && Near(source.coin, coin, 1.0 - splitRate) && Near(source.coinDay, coinDay, 1.0 - splitRate)
      && Near(f0, source.coin, frictionRate) && Near(f1, own.coin, frictionRate)
  {
    hide PartOf, Near;
    PartIsNear(coin, 1.0 - splitRate);
    PartIsNear(coinDay, 1.0 - splitRate);
    PartBetween(coin, 1.0 - splitRate);
    PartBetween(coinDay, 1.0 - splitRate);
    PartGap(coinDay, coin, 1.0 - splitRate);
    var (source, own) := Redistribute(coin, coinDay, splitRate);
    PartBetween(source.coin, frictionRate);
    PartBetween(own.coin, frictionRate);
    PartIsNear(source.coin, frictionRate);
    PartIsNear(own.coin, frictionRate);
  }

  // ------------------------------------------------------------------ the machine

  /** `amount` is content creator inflation; the evaluation of a donation and the
      reputation of a post when its event is due are given. */
  datatype Op =
    | Inflow(amount: nat)
    | Donate(event: Event)
    | Execute(i: nat, sumRep: int, maxReport: int, deleted: bool)

  function Evaluates(pending: seq<Event>): int {
    if pending == [] then 0 else Evaluates(pending[..|pending| - 1]) + pending[|pending| - 1].evaluate
  }

  function Without(pending: seq<Event>, i: nat): seq<Event>
    requires i < |pending|
  {
    pending[..i] + pending[i + 1..]
  }

  function PenaltyOf(op: Op): real
    requires op.Execute?
  {
    if op.deleted then 1.0 else PenaltyScore(op.sumRep, op.maxReport)
  }

  predicate Accepted(s: State, op: Op) {
    match op
    case Inflow(_) => true
    case Donate(event) => 0 <= event.evaluate
    case Execute(i, _, _, _) => i < |s.pending| && (s.pending[i].evaluate == 0 || s.window != 0)
  }

  function RewardOf(s: State, op: Op): int {
    if op.Execute? && Accepted(s, op) then Reward(s.pool, s.window, s.pending[op.i].evaluate, PenaltyOf(op)) else 0
  }

  function Payout(s: State, i: nat, reward: int): State
    requires i < |s.pending|
  {
    var author := s.pending[i].author;
    var rest := reward - Half(reward);
    s.(pool := s.pool - reward, window := s.window - s.pending[i].evaluate, pending := Without(s.pending, i),
       earned := s.earned[author := Of(s.earned, author) + Half(reward)],
       staked := if rest == 0 then s.staked else s.staked[author := Of(s.staked, author) + rest])
  }

  function Step(s: State, op: Op): State {
    if !Accepted(s, op) then s
    else match op
      case Inflow(amount) => s.(pool := s.pool + amount)
      case Donate(event) => s.(window := s.window + event.evaluate, pending := s.pending + [event])
      case Execute(i, _, _, _) => Payout(s, i, RewardOf(s, op))
  }

  function Run(ops: seq<Op>): State {
    if ops == [] then GENESIS else Step(Run(ops[..|ops| - 1]), ops[|ops| - 1])
  }

  function Inflows(ops: seq<Op>): int {
    if ops == [] then 0
    else Inflows(ops[..|ops| - 1]) + if ops[|ops| - 1].Inflow? then ops[|ops| - 1].amount else 0
  }

  ghost function PaidOut(s: State): int {
    Total(s.earned) + Total(s.staked)
  }

  ghost predicate Inv(s: State) {
    && 0 <= s.pool
    && s.window == Evaluates(s.pending)
    && forall e :: e in s.pending ==> 0 <= e.evaluate
  }

  lemma {:induction false} EvaluatesWithout(pending: seq<Event>, i: nat)
    requires i < |pending|
    ensures Evaluates(pending) == Evaluates(Without(pending, i)) + pending[i].evaluate
  {
    var m := |pending| - 1;
    if i == m {
      assert Without(pending, i) == pending[..m];
    } else {
      EvaluatesWithout(pending[..m], i);
      var rest := Without(pending, i);
      assert rest[..|rest| - 1] == Without(pending[..m], i);
    }
  }

  lemma {:induction false} EvaluatesNonNegative(pending: seq<Event>)
    requires forall e :: e in pending ==> 0 <= e.evaluate
    ensures 0 <= Evaluates(pending)
  {
    if pending != [] {
      EvaluatesNonNegative(pending[..|pending| - 1]);
    }
  }

  /** One event's evaluation is within the window, which is therefore positive
      when the event pops anything. */
  lemma EventWithinWindow(s: State, i: nat)
    requires Inv(s) && i < |s.pending|
    ensures 0 <= s.pending[i].evaluate <= s.window
  {
    EvaluatesWithout(s.pending, i);
    EvaluatesNonNegative(Without(s.pending, i));
  }

  /** No pop divides by zero, and every reward is between 0 and the pool. */
  lemma RewardWithinPool(s: State, op: Op)
    requires Inv(s) && op.Execute? && op.i < |s.pending|
    ensures Accepted(s, op)
    ensures 0 <= RewardOf(s, op) <= s.pool
    ensures op.deleted ==> RewardOf(s, op) == 0
  {
    EventWithinWindow(s, op.i);
    PenaltyBetween(op.sumRep, op.maxReport);
    RewardBetween(s.pool, s.window, s.pending[op.i].evaluate, PenaltyOf(op));
  }

  /** The last event of the window, without penalty, takes the whole pool. */
  lemma SoleEventDrainsPool(s: State, op: Op)
    requires Inv(s) && op.Execute? && |s.pending| == 1 && op.i == 0 && s.pending[0].evaluate != 0
    requires 0 <= op.sumRep && !op.deleted
    ensures Step(s, op).pool == 0 && Step(s, op).window == 0 && Step(s, op).pending == []
    ensures PaidOut(Step(s, op)) == PaidOut(s) + s.pool
  {
    hide PartOf, Total, Ratio;
    EventWithinWindow(s, 0);
    EvaluatesWithout(s.pending, 0);
    RewardBetween(s.pool, s.window, s.pending[0].evaluate, 0.0);
    PayoutMovesReward(s, 0, RewardOf(s, op));
  }

  lemma PayoutMovesReward(s: State, i: nat, reward: int)
    requires i < |s.pending|
    ensures PaidOut(Payout(s, i, reward)) == PaidOut(s) + reward
    ensures Payout(s, i, reward).pool == s.pool - reward
  {
    hide PartOf, Total;
    var author := s.pending[i].author;
    TotalUpdate(s.earned, author, Of(s.earned, author) + Half(reward));
    TotalUpdate(s.staked, author, Of(s.staked, author) + reward - Half(reward));
  }

  /** What executing one event does: the penalty and the reward follow their rules,
      the event leaves the window, and its author, and nobody else, is paid, one
      half as income and the rest as stake. */
  ghost predicate PaidByRule(s: State, t: State, op: Op, reward: int, penalty: real)
    requires op.Execute? && op.i < |s.pending|
  {
    var e := s.pending[op.i];
    var income := Of(t.earned, e.author) - Of(s.earned, e.author);
    && (if op.deleted then penalty == 1.0 else PenaltyRule(op.sumRep, op.maxReport, penalty))
    && (if e.evaluate == 0 then reward == 0
        else s.window != 0 && RewardRule(s.pool, s.window, e.evaluate, penalty, reward))
    && t.pool == s.pool - reward && t.window == s.window - e.evaluate
    && t.pending == s.pending[..op.i] + s.pending[op.i + 1..]
    && HalfRule(reward, income) && Of(t.staked, e.author) == Of(s.staked, e.author) + reward - income
    && (forall n :: n != e.author ==> Of(t.earned, n) == Of(s.earned, n) && Of(t.staked, n) == Of(s.staked, n))
  }

  lemma ExecutePaysByRule(s: State, op: Op)
    requires Inv(s) && op.Execute? && op.i < |s.pending|
    ensures PaidByRule(s, Step(s, op), op, RewardOf(s, op), PenaltyOf(op))
  {
    hide PartOf, Reward, PenaltyScore, PenaltyRule, RewardRule, HalfRule, Inv, Half;
    RewardWithinPool(s, op);
    PoolNonNegative(s);
    var evaluate := s.pending[op.i].evaluate;
    if evaluate != 0 {
      RewardIsShare(s.pool, s.window, evaluate, PenaltyOf(op));
    } else {
      NoReward(s.pool, s.window, PenaltyOf(op));
    }
    PenaltyIsShare(op.sumRep, op.maxReport);
    HalfIsHalf(RewardOf(s, op));
  }

  lemma PoolNonNegative(s: State)
    requires Inv(s)
    ensures 0 <= s.pool
  {
  }

  lemma NoReward(pool: int, window: int, penalty: real)
    ensures Reward(pool, window, 0, penalty) == 0
  {
    hide PartOf, Ratio;
  }

  lemma StepEarns(s: State, op: Op, n: Name)
    ensures var t := Step(s, op);
      && Of(t.earned, n) == Of(s.earned, n) + EarningOf(s, op, n, false)
      && Of(t.staked, n) == Of(s.staked, n) + EarningOf(s, op, n, true)
  {
    hide PartOf, RewardOf;
  }

  lemma StepKeeps(s: State, op: Op)
    requires Inv(s)
    ensures Inv(Step(s, op))
    ensures Step(s, op).pool + PaidOut(Step(s, op)) == s.pool + PaidOut(s) + if op.Inflow? then op.amount else 0
  {
    hide PartOf, Total, Reward, PenaltyScore;
    match op
    case Inflow(_) =>
    case Donate(event) =>
      assert (s.pending + [event])[..|s.pending|] == s.pending;
    case Execute(i, _, _, _) =>
      if Accepted(s, op) {
        RewardWithinPool(s, op);
        EvaluatesWithout(s.pending, i);
        PayoutMovesReward(s, i, RewardOf(s, op));
      }
  }

  /** In every run the window is the sum of the evaluations still pending, and
      the pool with all rewards paid is the inflation that came in. */
  lemma {:induction false} RunKeepsInv(ops: seq<Op>)
    ensures Inv(Run(ops))
    ensures Run(ops).pool + PaidOut(Run(ops)) == Inflows(ops)
  {
    hide Step, Inv, PaidOut;
    if ops == [] {
      GenesisInv();
    } else {
      var m := |ops| - 1;
      RunKeepsInv(ops[..m]);
      StepKeeps(Run(ops[..m]), ops[m]);
    }
  }

  lemma GenesisWindow()
    ensures Inv(GENESIS)
  {
  }

  lemma GenesisInv()
    ensures Inv(GENESIS) && PaidOut(GENESIS) == 0
  {
  }

  /** The rewards of `n`'s own events, as far as they are income, and as far as they
      are staked. */
  function Earnings(ops: seq<Op>, n: Name, staked: bool): int {
    if ops == [] then 0
    else Earnings(ops[..|ops| - 1], n, staked) + EarningOf(Run(ops[..|ops| - 1]), ops[|ops| - 1], n, staked)
  }

  function EarningOf(s: State, op: Op, n: Name, staked: bool): int {
    if op.Execute? && Accepted(s, op) && s.pending[op.i].author == n then
      if staked then RewardOf(s, op) - Half(RewardOf(s, op)) else Half(RewardOf(s, op))
    else 0
  }

  /** In every run an author has received exactly the halves of the rewards of the
      author's own events, one as income and the rest as stake. */
  lemma {:induction false} RewardsGoToAuthors(ops: seq<Op>, n: Name)
    ensures Of(Run(ops).earned, n) == Earnings(ops, n, false)
    ensures Of(Run(ops).staked, n) == Earnings(ops, n, true)
  {
    hide Step, EarningOf, Of;
    if ops == [] {
      NothingEarned(n);
    } else {
      RewardsGoToAuthors(ops[..|ops| - 1], n);
      StepEarns(Run(ops[..|ops| - 1]), ops[|ops| - 1], n);
    }
  }

  lemma NothingEarned(n: Name)
    ensures Of(GENESIS.earned, n) == 0 && Of(GENESIS.staked, n) == 0
  {
  }

  /** No pending event is ever refused. */
  lemma EveryEventExecutes(ops: seq<Op>, op: Op)
    requires op.Execute? && op.i < |Run(ops).pending|
    ensures Accepted(Run(ops), op)
    ensures 0 <= RewardOf(Run(ops), op) <= Run(ops).pool
  {
    hide Run, Inv, RewardOf, Accepted;
    RunKeepsInv(ops);
    RewardWithinPool(Run(ops), op);
  }

  // ------------------------------------------------------------------- in place

  class RewardPool {
    var pool: int
    var window: int
    var pending: seq<Event>
    var earned: map<Name, int>
    var staked: map<Name, int>

    /** The window is the sum of the pending evaluations. */
    ghost predicate Valid()
      reads this
    {
      Inv(St())
    }

    constructor ()
      ensures Valid() && St() == GENESIS
    {
      hide Inv;
      pool, window, pending, earned, staked := 0, 0, [], map[], map[];
      new;
      GenesisWindow();
    }

    function St(): State
      reads this
    {
      State(pool, window, pending, earned, staked)
    }

    /** The window part of AddFrictionAndRegisterContentRewardEvent. */
    method Register(event: Event)
      requires Valid() && 0 <= event.evaluate
      modifies `window, `pending
      ensures Valid() && St() == Step(old(St()), Donate(event))
    {
      hide Inv;
      StepKeeps(St(), Donate(event));
      window := window + event.evaluate;
      pending := pending + [event];
    }

    method GetRewardAndPopFromWindow(evaluate: int, penalty: real) returns (reward: int)
      requires evaluate == 0 || window != 0
      modifies `pool, `window
      ensures reward == Reward(old(pool), old(window), evaluate, penalty)
      ensures pool == old(pool) - reward && window == old(window) - evaluate
      ensures 0 <= old(pool) && old(window) != 0 ==> RewardRule(old(pool), old(window), evaluate, penalty, reward)
      ensures evaluate == 0 ==> reward == 0
    {
      if 0 <= pool && window != 0 {
        RewardIsShare(pool, window, evaluate, penalty);
      }
      if evaluate == 0 {
        return 0;
      }
      hide RatToCoin, Round, Scaled, Times;
      var ratio := Round(Scaled(evaluate as real, 1.0 - penalty, window as real));
      reward := RatToCoin(Times(pool, ratio));
      pool := pool - reward;
      window := window - evaluate;
    }

    /** Half of the reward goes to the author's income, the rest to the stake. */
    method Credit(author: Name, reward: int)
      modifies `earned, `staked
      ensures earned == old(earned)[author := Of(old(earned), author) + Half(reward)]
      ensures Of(staked, author) == Of(old(staked), author) + reward - Half(reward)
      ensures staked == if reward == Half(reward) then old(staked) else old(staked)[author := Of(staked, author)]
    {
      hide PartOf;
      var toReward := Half(reward);
      var toStake := reward - toReward;
      earned := earned[author := Of(earned, author) + toReward];
      if toStake != 0 {
        staked := staked[author := Of(staked, author) + toStake];
      }
    }

    /** RewardEvent.Execute for the pending event `i`. */
    method Execute(i: nat, sumRep: int, maxReport: int, deleted: bool) returns (reward: int)
      requires Valid() && i < |pending|
      modifies this
      ensures Valid() && St() == Step(old(St()), Op.Execute(i, sumRep, maxReport, deleted))
      ensures reward == RewardOf(old(St()), Op.Execute(i, sumRep, maxReport, deleted))
      ensures 0 <= reward <= old(pool)
      ensures exists penalty ::
        PaidByRule(old(St()), St(), Op.Execute(i, sumRep, maxReport, deleted), reward, penalty)
    {
      hide PartOf, Reward, PenaltyScore, Evaluates, PaidByRule;
      ExecutePaysByRule(St(), Op.Execute(i, sumRep, maxReport, deleted));
      ghost var op := Op.Execute(i, sumRep, maxReport, deleted);
      StepKeeps(St(), op);
      RewardWithinPool(St(), op);
      var event := pending[i];
      var penalty := PenaltyScore(sumRep, maxReport);
      if deleted {
        penalty := 1.0;
      }
      reward := GetRewardAndPopFromWindow(event.evaluate, penalty);
      Credit(event.author, reward);
      pending := pending[..i] + pending[i + 1..];
    }
  }
}

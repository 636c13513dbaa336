/** The reputation game (x/reputation/internal/reputation.go and store.go):
    records, operations and runs. Records keyed by several names in the store are
    nested maps here; a missing record reads as the store's default. */
module Reputation {
  import opened Basics
  import opened Sums
  import opened KeySale
  import opened TopIndex

  const ROUND_DURATION := 25 * 3600
  const SAMPLE_WINDOW_SIZE := 10
  const DECAY_FACTOR := 100 - 100 / (3 * SAMPLE_WINDOW_SIZE)
  const INITIAL_CUSTOMER_SCORE := 100000

  type Uid = string

  datatype User = User(score: int, free: int, lastSettled: int, lastDonated: int)
  datatype UserPost = UserPost(donated: int, donationRep: int, reportRep: int)
  datatype RoundPost = RoundPost(sumDp: int, sumStake: int, sold: nat, held: map<Uid, nat>)
  datatype Round = Round(result: seq<Pid>, sumDp: int, startAt: int, topN: seq<PostDp>, posts: map<Pid, RoundPost>)

  datatype State = State(users: map<Uid, User>, sumRep: map<Pid, int>,
                         userPosts: map<Pid, map<Uid, UserPost>>, rounds: map<int, Round>, current: int)

  const GENESIS := State(map[], map[], map[], map[], 1)

  // ------------------------------------------------------------------- getters

  function UserOf(s: State, u: Uid): User {
    if u in s.users then s.users[u] else User(INITIAL_CUSTOMER_SCORE, 0, 0, 0)
  }

  function DonorsOf(s: State, p: Pid): map<Uid, UserPost> {
    if p in s.userPosts then s.userPosts[p] else map[]
  }

  function UserPostOf(s: State, u: Uid, p: Pid): UserPost {
    if u in DonorsOf(s, p) then DonorsOf(s, p)[u] else UserPost(0, 0, 0)
  }

  function RoundOf(s: State, r: int): Round {
    if r in s.rounds then s.rounds[r] else Round([], 0, 0, [], map[])
  }

  function RoundPostOf(round: Round, p: Pid): RoundPost {
    if p in round.posts then round.posts[p] else RoundPost(0, 0, 0, map[])
  }

  function KeysHeld(rp: RoundPost, u: Uid): nat {
    if u in rp.held then rp.held[u] else 0
  }

  // ---------------------------------------------------------------- settlement

  function ShareOf(round: Round, u: Uid, p: Pid): int {
    var rp := RoundPostOf(round, p);
    if rp.sold > 0 then KeysHeld(rp, u) * rp.sumStake / rp.sold else 0
  }

  function Unsettled(round: Round, u: Uid, best: seq<Pid>): int {
    if best == [] then 0
    else Unsettled(round, u, best[..|best| - 1]) + ShareOf(round, u, best[|best| - 1])
  }

  /** The customer score after a round that earned `unsettled`. */
  function NewScore(score: int, unsettled: int): int {
    var sampled := (score * (SAMPLE_WINDOW_SIZE - 1) + unsettled) / SAMPLE_WINDOW_SIZE;
    Max(Max(sampled, score * DECAY_FACTOR / 100), INITIAL_CUSTOMER_SCORE)
  }

  predicate HasUnsettled(s: State, u: Uid) {
    UserOf(s, u).lastSettled < UserOf(s, u).lastDonated < s.current
  }

  function ScoreAfter(s: State, u: Uid, r: int): int {
    NewScore(UserOf(s, u).score, Unsettled(RoundOf(s, r), u, RoundOf(s, r).result))
  }

  /** What GetSettledCustomerScore returns. */
  function SettledScore(s: State, u: Uid): int {
    if HasUnsettled(s, u) then ScoreAfter(s, u, UserOf(s, u).lastDonated) else UserOf(s, u).score
  }

  /** What GetSettledCustomerScore leaves behind. */
  function Settle(s: State, u: Uid): State {
    if HasUnsettled(s, u)
    then s.(users := s.users[u := UserOf(s, u).(score := SettledScore(s, u), lastSettled := UserOf(s, u).lastDonated)])
    else s
  }

  function RepOf(s: State, u: Uid): int {
    SettledScore(s, u) + UserOf(s, u).free
  }

  // ---------------------------------------------------------------- operations

  /** buyKey, and the sums of one post. */
  ghost function DonateToPost(rp: RoundPost, u: Uid, stake: int, dp: int): RoundPost {
    var keys := KeysFor(rp.sold, stake);
    var held := if keys > 0 then rp.held[u := KeysHeld(rp, u) + keys] else rp.held;
    RoundPost(rp.sumDp + dp, rp.sumStake + stake, rp.sold + keys, held)
  }

  /** A donation's effect on the records of the current round. */
  ghost function DonateInRound(round: Round, u: Uid, p: Pid, stake: int, dp: int, n: nat): Round {
    var rp := RoundPostOf(round, p);
    round.(posts := round.posts[p := DonateToPost(rp, u, stake, dp)],
           topN := Updated(round.topN, p, rp.sumDp + dp, n),
           sumDp := round.sumDp + dp)
  }

  function SetUserPost(s: State, u: Uid, p: Pid, up: UserPost): State {
    s.(userPosts := s.userPosts[p := DonorsOf(s, p)[u := up]])
  }

  /** The part of the stake that counts: with all earlier donations to `p` it stays
      within the donor's reputation, and all of it counts unless that is used up. */
  function UsedDp(s: State, u: Uid, p: Pid, stake: int, rep: int): (dp: int)
    ensures 0 <= stake ==> 0 <= dp <= stake
    ensures dp + UserPostOf(s, u, p).donated <= Max(rep, UserPostOf(s, u, p).donated)
    ensures dp == stake || dp + UserPostOf(s, u, p).donated == Max(rep, UserPostOf(s, u, p).donated)
  {
    Min(Max(rep - UserPostOf(s, u, p).donated, 0), stake)
  }

  /** A donation's effect on the records of its donor and of the post. */
  function NoteDonation(s: State, u: Uid, p: Pid, dp: int, rep: int): State {
    var up := UserPostOf(s, u, p);
    SetUserPost(s, u, p, up.(donated := dp + up.donated, donationRep := rep))
      .(sumRep := s.sumRep[p := SumRepOf(s.sumRep, p) + (rep - up.donationRep)],
        users := s.users[u := UserOf(s, u).(lastDonated := s.current)])
  }

  /** DonateAt once the donor's reputation is known. */
  ghost function DonateWith(s: State, u: Uid, p: Pid, stake: int, rep: int, n: nat): State {
    var dp := UsedDp(s, u, p, stake, rep);
    NoteDonation(s, u, p, dp, rep)
      .(rounds := s.rounds[s.current := DonateInRound(RoundOf(s, s.current), u, p, stake, dp, n)])
  }

  function ReportWith(s: State, u: Uid, p: Pid, rep: int): State {
    var up := UserPostOf(s, u, p);
    SetUserPost(s, u, p, up.(reportRep := rep))
      .(sumRep := s.sumRep[p := SumRepOf(s.sumRep, p) - (rep - up.reportRep)])
  }

  function IncFree(s: State, u: Uid, score: int): State {
    s.(users := s.users[u := UserOf(s, u).(free := UserOf(s, u).free + score)])
  }

  predicate RoundEnds(s: State, t: int) {
    t - RoundOf(s, s.current).startAt >= ROUND_DURATION
  }

  /** 80 percent of the round's donation power, floored. */
  function Bound(round: Round): int {
    round.sumDp * 8 / 10
  }

  function Update(s: State, t: int): State {
    if !RoundEnds(s, t) then s
    else
      var round := RoundOf(s, s.current);
      var best := Best(round.topN[..Cover(round.topN, Bound(round))], s.sumRep);
      s.(rounds := s.rounds[s.current := round.(result := best)][s.current + 1 := Round([], 0, t, [], map[])],
         current := s.current + 1)
  }

  // -------------------------------------------------------------- whole runs

  datatype Op =
    | Donate(u: Uid, p: Pid, stake: nat)
    | Report(u: Uid, p: Pid)
    | FreeScore(u: Uid, score: int)
    | Query(u: Uid)
    | EndBlock(t: int)

  /** Empty names are rejected by the reputation manager. */
  predicate Accepted(op: Op) {
    match op
    case Donate(u, p, _) => u != "" && p != ""
    case Report(u, p) => u != "" && p != ""
    case FreeScore(u, _) => u != ""
    case Query(u) => u != ""
    case EndBlock(_) => true
  }

  ghost function Step(s: State, op: Op, n: nat): State {
    if !Accepted(op) then s
    else match op
      case Donate(u, p, stake) => DonateWith(Settle(s, u), u, p, stake, RepOf(s, u), n)
      case Report(u, p) => ReportWith(Settle(s, u), u, p, RepOf(s, u))
      case FreeScore(u, score) => IncFree(s, u, score)
      case Query(u) => Settle(s, u)
      case EndBlock(t) => Update(s, t)
  }

  /** What the caller of the operation sees. */
  function Answer(s: State, op: Op): int {
    if !Accepted(op) then 0
    else match op
      case Donate(u, p, stake) => UsedDp(s, u, p, stake, RepOf(s, u))
      case Report(u, p) => SumRepOf(s.sumRep, p) - (RepOf(s, u) - UserPostOf(s, u, p).reportRep)
      case FreeScore(_, _) => 0
      case Query(u) => RepOf(s, u)
      case EndBlock(_) => s.current
  }

  ghost function Run(ops: seq<Op>, n: nat): State {
    if ops == [] then GENESIS else Step(Run(ops[..|ops| - 1], n), ops[|ops| - 1], n)
  }

  // ------------------------------------------------------- settlement lemmas

  /** `x` is `u`'s share of the stake on a post, in proportion to the keys held and
      rounded down. */
  predicate IsShare(round: Round, u: Uid, p: Pid, x: int) {
    var rp := RoundPostOf(round, p);
    if rp.sold > 0 then x * rp.sold <= KeysHeld(rp, u) * rp.sumStake < (x + 1) * rp.sold else x == 0
  }

  lemma FloorOf(a: int, d: int)
    requires 0 < d
    ensures a / d * d <= a < (a / d + 1) * d
  {
  }

  lemma ShareIsProportional(round: Round, u: Uid, p: Pid)
    ensures IsShare(round, u, p, ShareOf(round, u, p))
  {
    var rp := RoundPostOf(round, p);
    if rp.sold > 0 {
      FloorOf(KeysHeld(rp, u) * rp.sumStake, rp.sold);
    }
  }

  /** `earned` lists the shares of one user in each best post of a round. */
  predicate AreShares(round: Round, u: Uid, earned: seq<int>) {
    && |earned| == |round.result|
    && forall i :: 0 <= i < |earned| ==> IsShare(round, u, round.result[i], earned[i])
  }

  /** The sampled score weighs the old one nine times and the earnings once, over
      ten and rounded down; the new score is that, or the old one less the decay,
      or the initial one, whichever is largest. */
  predicate ScoreRule(before: int, earned: int, score: int) {
    && INITIAL_CUSTOMER_SCORE <= score
    && (SAMPLE_WINDOW_SIZE - 1) * before + earned < SAMPLE_WINDOW_SIZE * (score + 1)
    && DECAY_FACTOR * before < 100 * (score + 1)
    && (|| score == INITIAL_CUSTOMER_SCORE
        || SAMPLE_WINDOW_SIZE * score <= (SAMPLE_WINDOW_SIZE - 1) * before + earned
        || 100 * score <= DECAY_FACTOR * before)
  }

  lemma NewScoreRule(score: int, unsettled: int)
    ensures ScoreRule(score, unsettled, NewScore(score, unsettled))
  {
  }

  /** The rule leaves one score. */
  lemma ScoreRuleIsUnique(score: int, earned: int, a: int, b: int)
    requires ScoreRule(score, earned, a) && ScoreRule(score, earned, b)
    ensures a == b
  {
  }

  lemma {:induction false} UnsettledIsSum(round: Round, u: Uid, best: seq<Pid>) returns (earned: seq<int>)
    ensures |earned| == |best| && Unsettled(round, u, best) == SeqSum(earned)
    ensures forall i :: 0 <= i < |earned| ==> IsShare(round, u, best[i], earned[i])
  {
    hide IsShare, ShareOf;
    if best == [] {
      earned := [];
    } else {
      var m := |best| - 1;
      earned := UnsettledIsSum(round, u, best[..m]);
      ShareIsProportional(round, u, best[m]);
      SumOfMore(earned, ShareOf(round, u, best[m]));
      earned := earned + [ShareOf(round, u, best[m])];
    }
  }

  /** What a user is paid for a round: by the rule, with the shares of all its best
      posts as earnings. A user with nothing to settle keeps the score. */
  lemma SettlementRule(s: State, u: Uid) returns (earned: seq<int>)
    ensures HasUnsettled(s, u) ==>
      && AreShares(RoundOf(s, UserOf(s, u).lastDonated), u, earned)
      && ScoreRule(UserOf(s, u).score, SeqSum(earned), SettledScore(s, u))
    ensures !HasUnsettled(s, u) ==> SettledScore(s, u) == UserOf(s, u).score
  {
    hide IsShare, ScoreRule, Unsettled, NewScore;
    var round := RoundOf(s, UserOf(s, u).lastDonated);
    earned := UnsettledIsSum(round, u, round.result);
    NewScoreRule(UserOf(s, u).score, SeqSum(earned));
  }

  /** Settling changes nothing but the user's own record, and settles it. */
  lemma SettleOnce(s: State, u: Uid)
    ensures forall v :: v != u ==> UserOf(Settle(s, u), v) == UserOf(s, v)
    ensures !HasUnsettled(Settle(s, u), u)
    ensures SettledScore(Settle(s, u), u) == SettledScore(s, u)
    ensures Settle(s, u) == s.(users := Settle(s, u).users)
    ensures RepOf(Settle(s, u), u) == RepOf(s, u)
    ensures Settle(Settle(s, u), u) == Settle(s, u)
  {
  }
}

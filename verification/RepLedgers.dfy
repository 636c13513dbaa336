/** What the ledgers of the reputation game add up to in every run. */
module RepLedgers {
  import opened Basics
  import opened Sums
  import opened KeySale
  import opened TopIndex
  import opened Reputation

  // ------------------------------------------------------------------- a round

  function Powers(round: Round): map<Pid, int> {
    map p | p in round.posts :: round.posts[p].sumDp
  }

  ghost predicate PostInv(rp: RoundPost) {
    0 <= rp.sumDp && 0 <= rp.sumStake && Total(rp.held) == rp.sold
  }

  ghost predicate RoundInv(round: Round, n: nat) {
    && IsTop(round.topN, Powers(round), n)
    && round.sumDp == Total(Powers(round))
    && forall p :: p in round.posts ==> PostInv(round.posts[p])
  }

  lemma DonateKeepsPost(rp: RoundPost, u: Uid, stake: nat, dp: nat)
    requires PostInv(rp)
    ensures PostInv(DonateToPost(rp, u, stake, dp))
  {
    TotalUpdate(rp.held, u, KeysHeld(rp, u) + KeysFor(rp.sold, stake));
  }

  lemma EmptyPostInv()
    ensures PostInv(RoundPost(0, 0, 0, map[]))
  {
  }

  lemma RoundFields(round: Round, u: Uid, p: Pid, stake: nat, dp: nat, n: nat)
    ensures var rp := RoundPostOf(round, p);
      var after := DonateInRound(round, u, p, stake, dp, n);
      && after.posts == round.posts[p := DonateToPost(rp, u, stake, dp)]
      && after.topN == Updated(round.topN, p, rp.sumDp + dp, n)
      && after.sumDp == round.sumDp + dp
      && Powers(after) == Powers(round)[p := rp.sumDp + dp]
  {
    hide KeysFor, Updated;
  }

  lemma DonateKeepsIndex(round: Round, u: Uid, p: Pid, stake: nat, dp: nat, n: nat)
    requires RoundInv(round, n)
    ensures var after := DonateInRound(round, u, p, stake, dp, n);
      IsTop(after.topN, Powers(after), n) && after.sumDp == Total(Powers(after))
  {
    hide IsTop, Updated, Total, DonateToPost, DonateInRound, Powers;
    var rp := RoundPostOf(round, p);
    RoundFields(round, u, p, stake, dp, n);
    PowersKeys(round);
    UpdatedIsTop(round.topN, Powers(round), p, rp.sumDp + dp, n);
    TotalUpdate(Powers(round), p, rp.sumDp + dp);
  }

  lemma PowersKeys(round: Round)
    ensures Powers(round).Keys == round.posts.Keys
    ensures forall p :: p in round.posts ==> Powers(round)[p] == round.posts[p].sumDp
  {
  }

  lemma DonateKeepsPosts(round: Round, u: Uid, p: Pid, stake: nat, dp: nat, n: nat)
    requires RoundInv(round, n)
    ensures var after := DonateInRound(round, u, p, stake, dp, n);
      forall q :: q in after.posts ==> PostInv(after.posts[q])
  {
    hide IsTop, Updated, Total, PostInv, DonateToPost, DonateInRound, Powers;
    EmptyPostInv();
    RoundFields(round, u, p, stake, dp, n);
    DonateKeepsPost(RoundPostOf(round, p), u, stake, dp);
  }

  lemma DonateKeepsRound(round: Round, u: Uid, p: Pid, stake: nat, dp: nat, n: nat)
    requires RoundInv(round, n)
    ensures RoundInv(DonateInRound(round, u, p, stake, dp, n), n)
  {
    hide IsTop, PostInv, Total, Powers, DonateInRound;
    DonateKeepsIndex(round, u, p, stake, dp, n);
    DonateKeepsPosts(round, u, p, stake, dp, n);
  }

  /** Floor-divided shares of all key holders never exceed the post's stake. */
  lemma SharesWithinStake(round: Round, p: Pid, n: nat)
    requires RoundInv(round, n) && p in round.posts
    ensures Total(map u | u in round.posts[p].held :: ShareOf(round, u, p)) <= round.posts[p].sumStake
  {
    var rp := round.posts[p];
    var shares := map u | u in rp.held :: ShareOf(round, u, p);
    if rp.sold > 0 {
      assert shares == Shares(rp.held, rp.sumStake, rp.sold);
      SharesBound(rp.held, rp.sumStake, rp.sold);
      CancelFactor(rp.sold, Total(shares), rp.sumStake);
    } else {
      TotalMonotone(shares, map u | u in rp.held :: 0);
      TotalZero(map u | u in rp.held :: 0);
    }
  }

  lemma CancelFactor(k: int, a: int, b: int)
    requires 0 < k && k * a <= k * b
    ensures a <= b
  {
  }

  // --------------------------------------------------------------- user records

  predicate UserInv(user: User, current: int) {
    && 0 <= user.lastSettled <= user.lastDonated <= current
    && user.lastSettled < current
    && INITIAL_CUSTOMER_SCORE <= user.score
  }

  /** A settled score grows with what was earned and stays within what it averages,
      unless that is less than the initial score. */
  lemma NewScoreBetween(score: int, unsettled: int, more: int)
    requires 0 <= score && 0 <= unsettled <= more
    ensures NewScore(score, unsettled) <= Max(Max(score, unsettled), INITIAL_CUSTOMER_SCORE)
    ensures NewScore(score, unsettled) <= NewScore(score, more)
  {
    hide NewScore;
    NewScoreRule(score, unsettled);
    NewScoreRule(score, more);
  }

  // --------------------------------------------------------------- post records

  function DonorReps(m: map<Uid, UserPost>): map<Uid, int> {
    map u | u in m :: m[u].donationRep
  }

  function ReportReps(m: map<Uid, UserPost>): map<Uid, int> {
    map u | u in m :: m[u].reportRep
  }

  function DonatedBy(m: map<Uid, UserPost>): map<Uid, int> {
    map u | u in m :: m[u].donated
  }

  /** The donation power of `p` in every round. */
  function PowerOf(rounds: map<int, Round>, p: Pid): map<int, int> {
    map r | r in rounds :: RoundPostOf(rounds[r], p).sumDp
  }

  lemma UserPostUpdate(m: map<Uid, UserPost>, u: Uid, up: UserPost)
    ensures var before := if u in m then m[u] else UserPost(0, 0, 0);
      && Total(DonorReps(m[u := up])) == Total(DonorReps(m)) + up.donationRep - before.donationRep
      && Total(ReportReps(m[u := up])) == Total(ReportReps(m)) + up.reportRep - before.reportRep
      && Total(DonatedBy(m[u := up])) == Total(DonatedBy(m)) + up.donated - before.donated
  {
    assert DonorReps(m[u := up]) == DonorReps(m)[u := up.donationRep];
    assert ReportReps(m[u := up]) == ReportReps(m)[u := up.reportRep];
    assert DonatedBy(m[u := up]) == DonatedBy(m)[u := up.donated];
    TotalUpdate(DonorReps(m), u, up.donationRep);
    TotalUpdate(ReportReps(m), u, up.reportRep);
    TotalUpdate(DonatedBy(m), u, up.donated);
  }

  /** A post's reputation is what its donors last had minus what its reporters
      last had; its donation power over all rounds is what its donors gave. */
  ghost predicate LedgerOf(s: State, p: Pid) {
    && SumRepOf(s.sumRep, p) == Total(DonorReps(DonorsOf(s, p))) - Total(ReportReps(DonorsOf(s, p)))
    && Total(PowerOf(s.rounds, p)) == Total(DonatedBy(DonorsOf(s, p)))
  }

  // ------------------------------------------------------------- the invariant

  ghost predicate Inv(s: State, n: nat) {
    && 1 <= s.current
    && (forall r :: r in s.rounds ==> r <= s.current && RoundInv(s.rounds[r], n))
    && (forall u :: u in s.users ==> UserInv(s.users[u], s.current))
    && (forall p :: LedgerOf(s, p))
  }

  lemma EmptyRoundInv(t: int, n: nat)
    ensures RoundInv(Round([], 0, t, [], map[]), n)
  {
  }

  lemma SettleKeeps(s: State, u: Uid, n: nat)
    requires Inv(s, n)
    ensures Inv(Settle(s, u), n)
  {
    hide RoundInv, Unsettled, RoundOf;
    var s' := Settle(s, u);
    forall p
      ensures LedgerOf(s', p)
    {
      assert LedgerOf(s, p);
    }
  }

  /** The records of the current round, written or still missing. */
  lemma CurrentRound(s: State, n: nat)
    requires Inv(s, n)
    ensures RoundInv(RoundOf(s, s.current), n)
  {
    EmptyRoundInv(0, n);
  }

  /** Replacing the record of round `r` moves the power of `q` by its change. */
  lemma PowerUpdate(s: State, r: int, round: Round, q: Pid)
    ensures Total(PowerOf(s.rounds[r := round], q))
      == Total(PowerOf(s.rounds, q)) + RoundPostOf(round, q).sumDp - RoundPostOf(RoundOf(s, r), q).sumDp
  {
    assert PowerOf(s.rounds[r := round], q) == PowerOf(s.rounds, q)[r := RoundPostOf(round, q).sumDp];
    TotalUpdate(PowerOf(s.rounds, q), r, RoundPostOf(round, q).sumDp);
  }

  lemma DonatedPower(round: Round, u: Uid, p: Pid, stake: nat, dp: nat, n: nat, q: Pid)
    ensures RoundPostOf(DonateInRound(round, u, p, stake, dp, n), q).sumDp
      == RoundPostOf(round, q).sumDp + if q == p then dp else 0
  {
    hide KeysFor, Updated;
  }

  lemma DonateFields(s: State, u: Uid, p: Pid, stake: nat, rep: int, n: nat, q: Pid)
    ensures var s' := DonateWith(s, u, p, stake, rep, n);
      var up := UserPostOf(s, u, p);
      var dp := UsedDp(s, u, p, stake, rep);
      && DonorsOf(s', q) == (if q != p then DonorsOf(s, q)
                             else DonorsOf(s, p)[u := up.(donated := dp + up.donated, donationRep := rep)])
      && SumRepOf(s'.sumRep, q) == SumRepOf(s.sumRep, q) + (if q == p then rep - up.donationRep else 0)
      && s'.rounds == s.rounds[s.current := DonateInRound(RoundOf(s, s.current), u, p, stake, dp, n)]
      && s'.users == s.users[u := UserOf(s, u).(lastDonated := s.current)]
      && s'.current == s.current
  {
    hide DonateInRound, UsedDp;
  }

  lemma DonateKeepsLedger(s: State, u: Uid, p: Pid, stake: nat, rep: int, n: nat, q: Pid)
    requires LedgerOf(s, q)
    ensures LedgerOf(DonateWith(s, u, p, stake, rep, n), q)
  {
    hide DonateInRound, UsedDp, DonateWith, Total, PowerOf, DonatedBy, DonorReps, ReportReps;
    var up := UserPostOf(s, u, p);
    var dp := UsedDp(s, u, p, stake, rep);
    DonateFields(s, u, p, stake, rep, n, q);
    UserPostUpdate(DonorsOf(s, p), u, up.(donated := dp + up.donated, donationRep := rep));
    PowerUpdate(s, s.current, DonateInRound(RoundOf(s, s.current), u, p, stake, dp, n), q);
    DonatedPower(RoundOf(s, s.current), u, p, stake, dp, n, q);
  }

  lemma SettledUser(s: State, u: Uid, n: nat)
    requires Inv(s, n) && !HasUnsettled(s, u)
    ensures UserInv(UserOf(s, u).(lastDonated := s.current), s.current)
  {
  }

  lemma DonateKeeps(s: State, u: Uid, p: Pid, stake: nat, rep: int, n: nat)
    requires Inv(s, n) && !HasUnsettled(s, u)
    ensures Inv(DonateWith(s, u, p, stake, rep, n), n)
  {
    hide RoundInv, DonateInRound, LedgerOf, UsedDp, DonateWith, HasUnsettled;
    SettledUser(s, u, n);
    var dp := UsedDp(s, u, p, stake, rep);
    CurrentRound(s, n);
    DonateKeepsRound(RoundOf(s, s.current), u, p, stake, dp, n);
    DonateFields(s, u, p, stake, rep, n, p);
    forall q
      ensures LedgerOf(DonateWith(s, u, p, stake, rep, n), q)
    {
      DonateKeepsLedger(s, u, p, stake, rep, n, q);
    }
  }

  lemma ReportKeepsLedger(s: State, u: Uid, p: Pid, rep: int, q: Pid)
    requires LedgerOf(s, q)
    ensures LedgerOf(ReportWith(s, u, p, rep), q)
  {
    UserPostUpdate(DonorsOf(s, p), u, UserPostOf(s, u, p).(reportRep := rep));
    hide Total, PowerOf, DonatedBy, DonorReps, ReportReps;
    assert q != p ==> DonorsOf(ReportWith(s, u, p, rep), q) == DonorsOf(s, q);
  }

  lemma ReportKeeps(s: State, u: Uid, p: Pid, rep: int, n: nat)
    requires Inv(s, n)
    ensures Inv(ReportWith(s, u, p, rep), n)
  {
    hide RoundInv, LedgerOf;
    forall q
      ensures LedgerOf(ReportWith(s, u, p, rep), q)
    {
      ReportKeepsLedger(s, u, p, rep, q);
    }
  }

  lemma UpdateKeepsLedger(s: State, t: int, q: Pid)
    requires LedgerOf(s, q) && s.current + 1 !in s.rounds
    ensures LedgerOf(Update(s, t), q)
  {
    hide Best, Cover, Total, PowerOf, DonorReps, ReportReps, DonatedBy;
    if RoundEnds(s, t) {
      var s' := Update(s, t);
      var ended := s'.rounds[s.current];
      assert ended.posts == RoundOf(s, s.current).posts;
      PowerUpdate(s, s.current, ended, q);
      PowerUpdate(s.(rounds := s.rounds[s.current := ended]), s.current + 1, Round([], 0, t, [], map[]), q);
    }
  }

  lemma UpdateKeeps(s: State, t: int, n: nat)
    requires Inv(s, n)
    ensures Inv(Update(s, t), n)
  {
    hide LedgerOf, Best, Cover, RoundInv;
    forall q
      ensures LedgerOf(Update(s, t), q)
    {
      UpdateKeepsLedger(s, t, q);
    }
    if RoundEnds(s, t) {
      CurrentRound(s, n);
      EmptyRoundInv(t, n);
      ResultKeepsRound(RoundOf(s, s.current), Update(s, t).rounds[s.current].result, n);
    }
  }

  lemma ResultKeepsRound(round: Round, best: seq<Pid>, n: nat)
    requires RoundInv(round, n)
    ensures RoundInv(round.(result := best), n)
  {
    hide IsTop, PostInv;
    assert Powers(round.(result := best)) == Powers(round);
  }

  lemma FreeKeeps(s: State, u: Uid, score: int, n: nat)
    requires Inv(s, n)
    ensures Inv(IncFree(s, u, score), n)
  {
    hide RoundInv;
    forall p
      ensures LedgerOf(IncFree(s, u, score), p)
    {
      assert LedgerOf(s, p);
    }
  }

  lemma StepKeeps(s: State, op: Op, n: nat)
    requires Inv(s, n)
    ensures Inv(Step(s, op, n), n)
  {
    hide Inv, DonateWith, ReportWith, IncFree, Update, Settle;
    if Accepted(op) {
      match op
      case Donate(u, p, stake) =>
        SettleKeeps(s, u, n);
        SettleOnce(s, u);
        DonateKeeps(Settle(s, u), u, p, stake, RepOf(s, u), n);
      case Report(u, p) =>
        SettleKeeps(s, u, n);
        ReportKeeps(Settle(s, u), u, p, RepOf(s, u), n);
      case FreeScore(u, score) => FreeKeeps(s, u, score, n);
      case Query(u) => SettleKeeps(s, u, n);
      case EndBlock(t) => UpdateKeeps(s, t, n);
    }
  }

  /** All ledgers agree in every reachable state. */
  lemma {:induction false} RunKeepsInv(ops: seq<Op>, n: nat)
    ensures Inv(Run(ops, n), n)
  {
    hide Inv, Step;
    if ops == [] {
      GenesisInv(n);
    } else {
      RunKeepsInv(ops[..|ops| - 1], n);
      StepKeeps(Run(ops[..|ops| - 1], n), ops[|ops| - 1], n);
    }
  }

  lemma GenesisInv(n: nat)
    ensures Inv(GENESIS, n)
  {
  }

  // ----------------------------------------------------------- reachable states

  lemma RoundOfReachable(ops: seq<Op>, n: nat, r: int)
    ensures RoundInv(RoundOf(Run(ops, n), r), n)
  {
    hide RoundInv, Run;
    RunKeepsInv(ops, n);
    EmptyRoundInv(0, n);
  }

  /** In every reachable state the keys of a post add up to the keys sold, so the
      settlement shares of all holders never exceed the stake put on it. */
  lemma SettlementWithinStake(ops: seq<Op>, n: nat, r: int, p: Pid)
    ensures var round := RoundOf(Run(ops, n), r);
      var rp := RoundPostOf(round, p);
      && Total(rp.held) == rp.sold
      && Total(map u | u in rp.held :: ShareOf(round, u, p)) <= rp.sumStake
  {
    hide Run;
    RoundOfReachable(ops, n, r);
    var round := RoundOf(Run(ops, n), r);
    EmptyPostInv();
    if p in round.posts {
      SharesWithinStake(round, p, n);
    } else {
      assert (map u | u in RoundPostOf(round, p).held :: ShareOf(round, u, p)) == map[];
    }
  }

  lemma {:induction false} BestMembers(s: seq<PostDp>, sumRep: map<Pid, int>, p: Pid)
    ensures p in Best(s, sumRep) <==>
      exists i :: 0 <= i < |s| && s[i].pid == p && s[i].dp > 0 && SumRepOf(sumRep, p) > 0
  {
    if s != [] {
      var m := |s| - 1;
      BestMembers(s[..m], sumRep, p);
      assert forall i :: 0 <= i < m ==> s[..m][i] == s[i];
    }
  }

  /** What a reachable round ends with: its index is the true top `n`, and the
      result lists exactly the positively rated posts with donation power of the
      shortest prefix covering 80 percent of all donation power of the round. */
  lemma RoundEndsWithBestPosts(ops: seq<Op>, n: nat, t: int)
    requires RoundEnds(Run(ops, n), t)
    ensures var s := Run(ops, n);
      var round := RoundOf(s, s.current);
      var k := Cover(round.topN, Bound(round));
      && IsTop(round.topN, Powers(round), n)
      && IsCover(round.topN, Total(Powers(round)) * 8 / 10, k)
      && RoundOf(Update(s, t), s.current).result == Best(round.topN[..k], s.sumRep)
      && (forall p :: p in RoundOf(Update(s, t), s.current).result <==>
            exists i :: 0 <= i < k && round.topN[i].pid == p && round.topN[i].dp > 0 && SumRepOf(s.sumRep, p) > 0)
  {
    hide Run, IsTop, PostInv, Best, Total;
    var s := Run(ops, n);
    var round := RoundOf(s, s.current);
    RoundOfReachable(ops, n, s.current);
    var k := Cover(round.topN, Bound(round));
    forall p
      ensures p in Best(round.topN[..k], s.sumRep) <==>
        exists i :: 0 <= i < k && round.topN[i].pid == p && round.topN[i].dp > 0 && SumRepOf(s.sumRep, p) > 0
    {
      BestMembers(round.topN[..k], s.sumRep, p);
    }
  }

  // ------------------------------------------- donated power and reputation

  /** The highest reputation `u` had when donating to `p`. */
  ghost function PeakRep(ops: seq<Op>, n: nat, u: Uid, p: Pid): int {
    if ops == [] then 0
    else
      var last := ops[|ops| - 1];
      var before := PeakRep(ops[..|ops| - 1], n, u, p);
      if last.Donate? && Accepted(last) && last.u == u && last.p == p
      then Max(before, RepOf(Run(ops[..|ops| - 1], n), u)) else before
  }

  lemma StepDonated(s: State, op: Op, n: nat, u: Uid, p: Pid)
    ensures var donated := UserPostOf(s, u, p).donated;
      if op.Donate? && Accepted(op) && op.u == u && op.p == p
      then UserPostOf(Step(s, op, n), u, p).donated == donated + UsedDp(s, u, p, op.stake, RepOf(s, u))
      else UserPostOf(Step(s, op, n), u, p).donated == donated
  {
    hide DonateWith, ReportWith, IncFree, Update, Settle, RepOf, UserPostOf, UsedDp;
    SamePostsDonated(s, op, u, p);
    if Accepted(op) {
      match op
      case Donate(_, _, stake) => DonateDonated(s, op, n, u, p);
      case Report(v, q) => ReportDonated(Settle(s, v), v, q, RepOf(s, v), u, p);
      case _ =>
    }
  }

  /** Settling, free score and the end of a round leave these records alone. */
  lemma SamePostsDonated(s: State, op: Op, u: Uid, p: Pid)
    ensures op.Donate? || op.Report? || op.Query? ==> UserPostOf(Settle(s, op.u), u, p) == UserPostOf(s, u, p)
    ensures op.FreeScore? ==> UserPostOf(IncFree(s, op.u, op.score), u, p) == UserPostOf(s, u, p)
    ensures op.EndBlock? ==> UserPostOf(Update(s, op.t), u, p) == UserPostOf(s, u, p)
  {
    hide SettledScore, HasUnsettled, Best, Cover;
  }

  lemma DonateDonated(s: State, op: Op, n: nat, u: Uid, p: Pid)
    requires op.Donate?
    ensures UserPostOf(DonateWith(Settle(s, op.u), op.u, op.p, op.stake, RepOf(s, op.u), n), u, p).donated
      == UserPostOf(s, u, p).donated
         + if op.u == u && op.p == p then UsedDp(s, u, p, op.stake, RepOf(s, u)) else 0
  {
    hide DonateInRound, NoteDonation, RepOf, SettledScore, HasUnsettled;
    NotedDonated(Settle(s, op.u), op, UsedDp(s, op.u, op.p, op.stake, RepOf(s, op.u)), RepOf(s, op.u), u, p);
  }

  lemma ReportDonated(s: State, v: Uid, q: Pid, rep: int, u: Uid, p: Pid)
    ensures UserPostOf(ReportWith(s, v, q, rep), u, p).donated == UserPostOf(s, u, p).donated
  {
  }

  lemma NotedDonated(s: State, op: Op, dp: int, rep: int, u: Uid, p: Pid)
    requires op.Donate?
    ensures UserPostOf(NoteDonation(s, op.u, op.p, dp, rep), u, p).donated
      == UserPostOf(s, u, p).donated + if op.u == u && op.p == p then dp else 0
  {
  }

  /** Donation power is bounded by reputation: what a user ever donated to a post
      with effect never exceeds the highest reputation behind a donation. */
  lemma {:induction false} DonatedWithinPeakRep(ops: seq<Op>, n: nat, u: Uid, p: Pid)
    ensures 0 <= UserPostOf(Run(ops, n), u, p).donated <= PeakRep(ops, n, u, p)
  {
    hide RepOf, Step;
    if ops != [] {
      var s := Run(ops[..|ops| - 1], n);
      DonatedWithinPeakRep(ops[..|ops| - 1], n, u, p);
      StepDonated(s, ops[|ops| - 1], n, u, p);
    }
  }
}

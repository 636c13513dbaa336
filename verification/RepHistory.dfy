/** What the records of the reputation game say about its history: in every run
    they are what the operations so far add up to. */
module RepHistory {
  import opened Basics
  import opened KeySale
  import opened TopIndex
  import opened Reputation
  import opened RepLedgers

  // ------------------------------------------------------- the posts of a round

  function PostAt(s: State, r: int, p: Pid): RoundPost {
    RoundPostOf(RoundOf(s, r), p)
  }

  /** Is `op` a donation to `p` in round `r`? */
  predicate DonatesTo(s: State, op: Op, r: int, p: Pid) {
    op.Donate? && Accepted(op) && op.p == p && s.current == r
  }

  ghost function PostAfter(s: State, op: Op, r: int, p: Pid): RoundPost {
    if !DonatesTo(s, op, r, p) then PostAt(s, r, p)
    else DonateToPost(PostAt(s, r, p), op.u, op.stake, UsedDp(s, op.u, p, op.stake, RepOf(s, op.u)))
  }

  lemma DonateInRoundPost(round: Round, u: Uid, p: Pid, stake: nat, dp: int, n: nat, q: Pid)
    ensures RoundPostOf(DonateInRound(round, u, p, stake, dp, n), q)
      == if q == p then DonateToPost(RoundPostOf(round, p), u, stake, dp) else RoundPostOf(round, q)
  {
    hide KeysFor, Updated, DonateToPost;
  }

  lemma SettledLookups(s: State, u: Uid, p: Pid, stake: int, rep: int)
    ensures UsedDp(Settle(s, u), u, p, stake, rep) == UsedDp(s, u, p, stake, rep)
    ensures Settle(s, u).rounds == s.rounds && Settle(s, u).current == s.current
  {
    hide SettledScore, HasUnsettled;
  }

  lemma DonatePost(s: State, op: Op, n: nat, r: int, q: Pid)
    requires op.Donate? && Accepted(op)
    ensures PostAt(Step(s, op, n), r, q) == PostAfter(s, op, r, q)
  {
    hide DonateInRound, DonateToPost, NoteDonation, UsedDp, RepOf, Settle, RoundPostOf;
    SettledLookups(s, op.u, op.p, op.stake, RepOf(s, op.u));
    var dp := UsedDp(s, op.u, op.p, op.stake, RepOf(s, op.u));
    DonateInRoundPost(RoundOf(s, s.current), op.u, op.p, op.stake, dp, n, q);
  }

  lemma UpdatePost(s: State, t: int, r: int, q: Pid)
    requires forall k :: k in s.rounds ==> k <= s.current
    ensures PostAt(Update(s, t), r, q) == PostAt(s, r, q)
  {
    hide Best, Cover;
  }

  lemma SameRoundsPost(s: State, s': State, r: int, q: Pid)
    requires s'.rounds == s.rounds
    ensures PostAt(s', r, q) == PostAt(s, r, q)
  {
  }

  /** The records of a post in a round change by donations to it in that round. */
  lemma StepPost(s: State, op: Op, n: nat, r: int, q: Pid)
    requires forall k :: k in s.rounds ==> k <= s.current
    ensures PostAt(Step(s, op, n), r, q) == PostAfter(s, op, r, q)
  {
    hide DonateWith, Update, PostAt, SettledScore, RepOf, DonateToPost;
    if Accepted(op) {
      match op
      case Donate(_, _, _) => DonatePost(s, op, n, r, q);
      case Report(_, _) => SameRoundsPost(s, Step(s, op, n), r, q);
      case FreeScore(_, _) => SameRoundsPost(s, Step(s, op, n), r, q);
      case Query(_) => SameRoundsPost(s, Step(s, op, n), r, q);
      case EndBlock(t) => UpdatePost(s, t, r, q);
    }
  }

  lemma NoFutureRounds(s: State, n: nat)
    requires Inv(s, n)
    ensures forall k :: k in s.rounds ==> k <= s.current
  {
    hide RoundInv, LedgerOf;
  }

  lemma RunPost(ops: seq<Op>, n: nat, r: int, q: Pid)
    requires ops != []
    ensures var s := Run(ops[..|ops| - 1], n);
      PostAt(Run(ops, n), r, q) == PostAfter(s, ops[|ops| - 1], r, q)
  {
    hide Step, Inv, PostAt, PostAfter;
    var front := ops[..|ops| - 1];
    RunKeepsInv(front, n);
    NoFutureRounds(Run(front, n), n);
    StepPost(Run(front, n), ops[|ops| - 1], n, r, q);
  }

  /** The keys that `u`'s own donations to `p` in round `r` bought. */
  ghost function KeysBought(ops: seq<Op>, n: nat, r: int, u: Uid, p: Pid): nat {
    if ops == [] then 0
    else
      var s, last := Run(ops[..|ops| - 1], n), ops[|ops| - 1];
      KeysBought(ops[..|ops| - 1], n, r, u, p)
      + if DonatesTo(s, last, r, p) && last.u == u then KeysFor(PostAt(s, r, p).sold, last.stake) else 0
  }

  /** All stakes donated to `p` in round `r`. */
  ghost function StakeGiven(ops: seq<Op>, n: nat, r: int, p: Pid): int {
    if ops == [] then 0
    else
      var s, last := Run(ops[..|ops| - 1], n), ops[|ops| - 1];
      StakeGiven(ops[..|ops| - 1], n, r, p) + if DonatesTo(s, last, r, p) then last.stake else 0
  }

  /** The part of them that counted. */
  ghost function PowerGiven(ops: seq<Op>, n: nat, r: int, p: Pid): int {
    if ops == [] then 0
    else
      var s, last := Run(ops[..|ops| - 1], n), ops[|ops| - 1];
      PowerGiven(ops[..|ops| - 1], n, r, p) + if DonatesTo(s, last, r, p) then Answer(s, last) else 0
  }

  lemma DonateToPostFields(rp: RoundPost, u: Uid, stake: nat, dp: int, v: Uid)
    ensures var after := DonateToPost(rp, u, stake, dp);
      && after.sumStake == rp.sumStake + stake && after.sumDp == rp.sumDp + dp
      && KeysHeld(after, v) == KeysHeld(rp, v) + if v == u then KeysFor(rp.sold, stake) else 0
  {
    hide KeysFor;
  }

  lemma GenesisPost(r: int, p: Pid, u: Uid)
    ensures PostAt(GENESIS, r, p) == RoundPost(0, 0, 0, map[]) && KeysHeld(PostAt(GENESIS, r, p), u) == 0
  {
  }

  /** In every run a user holds exactly the keys that the user's own donations to
      the post bought while the round was open. */
  lemma {:induction false} HeldKeysWereBought(ops: seq<Op>, n: nat, r: int, u: Uid, p: Pid)
    ensures KeysHeld(PostAt(Run(ops, n), r, p), u) == KeysBought(ops, n, r, u, p)
  {
    hide Run, PostAt, DonateToPost, KeysHeld, DonatesTo, RepOf, UsedDp, KeysFor;
    if ops == [] {
      GenesisRun(n);
      GenesisPost(r, p, u);
    } else {
      var s, last := Run(ops[..|ops| - 1], n), ops[|ops| - 1];
      HeldKeysWereBought(ops[..|ops| - 1], n, r, u, p);
      RunPost(ops, n, r, p);
      if DonatesTo(s, last, r, p) {
        DonationFacts(s, last, r, p);
        var dp := UsedDp(s, last.u, p, last.stake, RepOf(s, last.u));
        DonateToPostFields(PostAt(s, r, p), last.u, last.stake, dp, u);
      }
    }
  }

  lemma GenesisRun(n: nat)
    ensures Run([], n) == GENESIS
  {
  }

  lemma DonationFacts(s: State, op: Op, r: int, p: Pid)
    requires DonatesTo(s, op, r, p)
    ensures op.Donate? && Accepted(op) && op.p == p
    ensures Answer(s, op) == UsedDp(s, op.u, p, op.stake, RepOf(s, op.u))
  {
    hide RepOf, UsedDp;
  }

  /** In every run a post's stake in a round is the sum of all stakes donated to it
      while the round was open, and its power the sum of what counted. */
  lemma {:induction false} StakesWereGiven(ops: seq<Op>, n: nat, r: int, p: Pid)
    ensures PostAt(Run(ops, n), r, p).sumStake == StakeGiven(ops, n, r, p)
    ensures PostAt(Run(ops, n), r, p).sumDp == PowerGiven(ops, n, r, p)
  {
    hide Run, PostAt, DonateToPost, KeysHeld, DonatesTo, RepOf, UsedDp, Answer;
    if ops == [] {
      GenesisRun(n);
      GenesisPost(r, p, "");
    } else {
      var s, last := Run(ops[..|ops| - 1], n), ops[|ops| - 1];
      StakesWereGiven(ops[..|ops| - 1], n, r, p);
      RunPost(ops, n, r, p);
      if DonatesTo(s, last, r, p) {
        DonationFacts(s, last, r, p);
        var dp := UsedDp(s, last.u, p, last.stake, RepOf(s, last.u));
        DonateToPostFields(PostAt(s, r, p), last.u, last.stake, dp, "");
      }
    }
  }

  // -------------------------------------------------------- the users of a post

  /** The reputation `u` had when last donating to `p`, or reporting it. */
  ghost function LastRep(ops: seq<Op>, n: nat, u: Uid, p: Pid, reports: bool): int {
    if ops == [] then 0
    else
      var s, last := Run(ops[..|ops| - 1], n), ops[|ops| - 1];
      if Concerns(last, u, p, reports) then RepOf(s, u) else LastRep(ops[..|ops| - 1], n, u, p, reports)
  }

  predicate Concerns(op: Op, u: Uid, p: Pid, reports: bool) {
    Accepted(op) && (if reports then op.Report? else op.Donate?) && op.u == u && op.p == p
  }

  function Noted(up: UserPost, reports: bool): int {
    if reports then up.reportRep else up.donationRep
  }

  lemma NotedByDonation(s: State, v: Uid, q: Pid, dp: int, rep: int, u: Uid, p: Pid, reports: bool)
    ensures Noted(UserPostOf(NoteDonation(s, v, q, dp, rep), u, p), reports)
      == if v == u && q == p && !reports then rep else Noted(UserPostOf(s, u, p), reports)
  {
  }

  lemma NotedByReport(s: State, v: Uid, q: Pid, rep: int, u: Uid, p: Pid, reports: bool)
    ensures Noted(UserPostOf(ReportWith(s, v, q, rep), u, p), reports)
      == if v == u && q == p && reports then rep else Noted(UserPostOf(s, u, p), reports)
  {
  }

  lemma DonateUserPost(s: State, v: Uid, q: Pid, stake: int, rep: int, n: nat, u: Uid, p: Pid)
    ensures UserPostOf(DonateWith(s, v, q, stake, rep, n), u, p)
      == UserPostOf(NoteDonation(s, v, q, UsedDp(s, v, q, stake, rep), rep), u, p)
  {
    hide DonateInRound, NoteDonation, UsedDp;
  }

  lemma StepNoted(s: State, op: Op, n: nat, u: Uid, p: Pid, reports: bool)
    ensures Noted(UserPostOf(Step(s, op, n), u, p), reports)
      == if Concerns(op, u, p, reports) then RepOf(s, u) else Noted(UserPostOf(s, u, p), reports)
  {
    hide DonateWith, NoteDonation, ReportWith, IncFree, Update, Settle, RepOf, UserPostOf, UsedDp, Noted;
    SamePostsDonated(s, op, u, p);
    if Accepted(op) {
      match op
      case Donate(v, q, stake) =>
        DonateUserPost(Settle(s, v), v, q, stake, RepOf(s, v), n, u, p);
        NotedByDonation(Settle(s, v), v, q, UsedDp(Settle(s, v), v, q, stake, RepOf(s, v)), RepOf(s, v), u, p, reports);
      case Report(v, q) => NotedByReport(Settle(s, v), v, q, RepOf(s, v), u, p, reports);
      case _ =>
    }
  }

  /** In every run the reputations noted for a user and a post are those the user
      had when last donating to it and when last reporting it. */
  lemma {:induction false} NotedRepsAreLast(ops: seq<Op>, n: nat, u: Uid, p: Pid, reports: bool)
    ensures Noted(UserPostOf(Run(ops, n), u, p), reports) == LastRep(ops, n, u, p, reports)
  {
    hide Step, RepOf;
    if ops != [] {
      NotedRepsAreLast(ops[..|ops| - 1], n, u, p, reports);
      StepNoted(Run(ops[..|ops| - 1], n), ops[|ops| - 1], n, u, p, reports);
    }
  }

  function FreeGiven(ops: seq<Op>, u: Uid): int {
    if ops == [] then 0
    else
      var last := ops[|ops| - 1];
      FreeGiven(ops[..|ops| - 1], u) + if last.FreeScore? && Accepted(last) && last.u == u then last.score else 0
  }

  lemma StepFree(s: State, op: Op, n: nat, u: Uid)
    ensures UserOf(Step(s, op, n), u).free
      == UserOf(s, u).free + if op.FreeScore? && Accepted(op) && op.u == u then op.score else 0
  {
    hide DonateInRound, SettledScore, HasUnsettled, UsedDp, Best, Cover;
  }

  /** In every run a user's free score is the sum of what was added to it. */
  lemma {:induction false} FreeScoreWasGiven(ops: seq<Op>, n: nat, u: Uid)
    ensures UserOf(Run(ops, n), u).free == FreeGiven(ops, u)
  {
    hide Step;
    if ops != [] {
      FreeScoreWasGiven(ops[..|ops| - 1], n, u);
      StepFree(Run(ops[..|ops| - 1], n), ops[|ops| - 1], n, u);
    }
  }

  // --------------------------------------------------------------------- rounds

  /** The time at which round `r` was opened, 0 for the first one. */
  ghost function OpenedAt(ops: seq<Op>, n: nat, r: int): int {
    if ops == [] then 0
    else
      var s, last := Run(ops[..|ops| - 1], n), ops[|ops| - 1];
      if last.EndBlock? && s.current + 1 == r && Step(s, last, n).current == r then last.t
      else OpenedAt(ops[..|ops| - 1], n, r)
  }

  /** A round ends with the first block that is late enough, and nothing else ends
      it; the next one is then opened at the time of that block. */
  lemma StepRound(s: State, op: Op, n: nat, r: int)
    requires forall k :: k in s.rounds ==> k <= s.current
    ensures var s' := Step(s, op, n);
      var ends := op.EndBlock? && op.t >= RoundOf(s, s.current).startAt + ROUND_DURATION;
      && s'.current == (if ends then s.current + 1 else s.current)
      && RoundOf(s', r).startAt == if ends && r == s.current + 1 then op.t else RoundOf(s, r).startAt
  {
    hide DonateWith, ReportWith, IncFree, Update, Settle, RepOf, RoundOf;
    if op.Donate? || op.Report? || op.Query? {
      SettledLookups(s, op.u, "", 0, 0);
      SameStarts(s, Settle(s, op.u), r);
    }
    if Accepted(op) {
      match op
      case Donate(u, p, stake) => DonateStart(Settle(s, u), u, p, stake, RepOf(s, u), n, r);
      case Report(u, p) =>
        SameRounds(Settle(s, u), u, p, RepOf(s, u), 0);
        SameStarts(Settle(s, u), ReportWith(Settle(s, u), u, p, RepOf(s, u)), r);
      case FreeScore(u, score) =>
        SameRounds(s, u, "", 0, score);
        SameStarts(s, IncFree(s, u, score), r);
      case Query(_) =>
      case EndBlock(t) => UpdateStart(s, t, r);
    }
  }

  lemma SameRounds(s: State, u: Uid, p: Pid, rep: int, score: int)
    ensures ReportWith(s, u, p, rep).rounds == s.rounds && ReportWith(s, u, p, rep).current == s.current
    ensures IncFree(s, u, score).rounds == s.rounds && IncFree(s, u, score).current == s.current
  {
  }

  lemma SameStarts(s: State, s': State, r: int)
    ensures s'.rounds == s.rounds ==> RoundOf(s', r) == RoundOf(s, r)
  {
  }

  lemma DonateStart(s: State, u: Uid, p: Pid, stake: int, rep: int, n: nat, r: int)
    ensures var t := DonateWith(s, u, p, stake, rep, n);
      t.current == s.current && RoundOf(t, r).startAt == RoundOf(s, r).startAt
  {
    hide DonateInRound, NoteDonation, UsedDp;
    DonateInRoundStart(RoundOf(s, s.current), u, p, stake, UsedDp(s, u, p, stake, rep), n);
    NoteKeepsRounds(s, u, p, UsedDp(s, u, p, stake, rep), rep);
  }

  lemma NoteKeepsRounds(s: State, u: Uid, p: Pid, dp: int, rep: int)
    ensures NoteDonation(s, u, p, dp, rep).rounds == s.rounds && NoteDonation(s, u, p, dp, rep).current == s.current
  {
  }

  lemma UpdateStart(s: State, t: int, r: int)
    requires forall k :: k in s.rounds ==> k <= s.current
    ensures var s' := Update(s, t);
      var ends := t >= RoundOf(s, s.current).startAt + ROUND_DURATION;
      && s'.current == (if ends then s.current + 1 else s.current)
      && RoundOf(s', r).startAt == if ends && r == s.current + 1 then t else RoundOf(s, r).startAt
  {
    hide Best, Cover;
  }

  lemma DonateInRoundStart(round: Round, u: Uid, p: Pid, stake: int, dp: int, n: nat)
    ensures DonateInRound(round, u, p, stake, dp, n).startAt == round.startAt
  {
  }

  /** In every run each round starts when it was opened, which is no earlier than
      the end of the duration of the round before it. */
  lemma {:induction false} RoundsTakeTheirTime(ops: seq<Op>, n: nat, r: int)
    ensures RoundOf(Run(ops, n), r).startAt == OpenedAt(ops, n, r)
    ensures 1 <= r < Run(ops, n).current ==>
      RoundOf(Run(ops, n), r).startAt + ROUND_DURATION <= RoundOf(Run(ops, n), r + 1).startAt
  {
    hide Step, Inv, RoundOf;
    if ops == [] {
      GenesisRound(r);
    } else {
      var front, last := ops[..|ops| - 1], ops[|ops| - 1];
      RoundsTakeTheirTime(front, n, r);
      RunKeepsInv(front, n);
      NoFutureRounds(Run(front, n), n);
      StepRound(Run(front, n), last, n, r);
      StepRound(Run(front, n), last, n, r + 1);
    }
  }

  lemma GenesisRound(r: int)
    ensures RoundOf(GENESIS, r).startAt == 0
  {
  }
}

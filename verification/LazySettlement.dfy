/** Users are settled lazily, when they are next touched. This module compares
    every run with an eager game that settles all donors of a round at the very
    moment the round ends. */
module LazySettlement {
  import opened KeySale
  import opened TopIndex
  import opened Reputation

  // ------------------------------------------------------------ the eager game

  /** Settles every user who donated in the round just ended. */
  function SettleAll(s: State, ended: int): State {
    s.(users := map u | u in s.users ::
      if s.users[u].lastDonated == ended then s.users[u].(score := ScoreAfter(s, u, ended)) else s.users[u])
  }

  function EagerRep(s: State, u: Uid): int {
    UserOf(s, u).score + UserOf(s, u).free
  }

  /** No operation but the end of a round settles anybody. */
  ghost function EagerStep(s: State, op: Op, n: nat): State {
    if !Accepted(op) then s
    else match op
      case Donate(u, p, stake) => DonateWith(s, u, p, stake, EagerRep(s, u), n)
      case Report(u, p) => ReportWith(s, u, p, EagerRep(s, u))
      case FreeScore(u, score) => IncFree(s, u, score)
      case Query(u) => s
      case EndBlock(t) => if RoundEnds(s, t) then SettleAll(Update(s, t), s.current) else s
  }

  function EagerAnswer(s: State, op: Op): int {
    if !Accepted(op) then 0
    else match op
      case Donate(u, p, stake) => UsedDp(s, u, p, stake, EagerRep(s, u))
      case Report(u, p) => SumRepOf(s.sumRep, p) - (EagerRep(s, u) - UserPostOf(s, u, p).reportRep)
      case FreeScore(_, _) => 0
      case Query(u) => EagerRep(s, u)
      case EndBlock(_) => s.current
  }

  ghost function EagerRun(ops: seq<Op>, n: nat): State {
    if ops == [] then GENESIS else EagerStep(EagerRun(ops[..|ops| - 1], n), ops[|ops| - 1], n)
  }

  // ------------------------------------------------------- the simulation

  /** Unsettled keys exist only in a user's last donation round. */
  predicate Clock(user: User, current: int) {
    0 <= user.lastSettled <= user.lastDonated <= current && user.lastSettled < current
  }

  predicate SameUser(lazy: State, eager: State, u: Uid) {
    && Clock(UserOf(lazy, u), lazy.current)
    && UserOf(eager, u).score == SettledScore(lazy, u)
    && UserOf(eager, u).free == UserOf(lazy, u).free
    && UserOf(eager, u).lastDonated == UserOf(lazy, u).lastDonated
  }

  /** The games agree on everything but when scores are written. */
  ghost predicate Related(lazy: State, eager: State) {
    && eager == lazy.(users := eager.users)
    && eager.users.Keys == lazy.users.Keys
    && 1 <= lazy.current
    && (forall r :: r in lazy.rounds ==> r <= lazy.current)
    && (forall u :: SameUser(lazy, eager, u))
  }

  /** A round that has ended never changes again. */
  lemma PastRoundsAreFrozen(s: State, op: Op, n: nat, r: int)
    requires r < s.current
    ensures RoundOf(Step(s, op, n), r) == RoundOf(s, r)
    ensures s.current <= Step(s, op, n).current <= s.current + 1
  {
    hide DonateInRound, UsedDp, Unsettled, Best, Cover, SettledScore, ScoreAfter;
  }

  lemma SettleRelated(lazy: State, eager: State, u: Uid)
    requires Related(lazy, eager)
    ensures Related(Settle(lazy, u), eager)
    ensures SettledScore(Settle(lazy, u), u) == SettledScore(lazy, u)
    ensures !HasUnsettled(Settle(lazy, u), u)
    ensures RepOf(lazy, u) == EagerRep(eager, u)
  {
    hide Unsettled, NewScore;
    assert SameUser(lazy, eager, u);
    forall v
      ensures SameUser(Settle(lazy, u), eager, v)
    {
      assert SameUser(lazy, eager, v);
    }
  }

  lemma DonateSameUser(lazy: State, eager: State, u: Uid, p: Pid, stake: int, rep: int, n: nat, v: Uid)
    requires 1 <= lazy.current == eager.current
    requires SameUser(lazy, eager, u) && SameUser(lazy, eager, v) && !HasUnsettled(lazy, u)
    ensures SameUser(DonateWith(lazy, u, p, stake, rep, n), DonateWith(eager, u, p, stake, rep, n), v)
  {
    hide DonateInRound, NewScore, Unsettled, UsedDp;
    var lazy' := DonateWith(lazy, u, p, stake, rep, n);
    var r := UserOf(lazy, v).lastDonated;
    assert r < lazy.current ==> RoundOf(lazy', r) == RoundOf(lazy, r);
  }

  lemma NoteRelated(lazy: State, eager: State, u: Uid, p: Pid, dp: int, rep: int)
    requires eager == lazy.(users := eager.users) && eager.users.Keys == lazy.users.Keys
    ensures var l, e := NoteDonation(lazy, u, p, dp, rep), NoteDonation(eager, u, p, dp, rep);
      && e == l.(users := e.users) && e.users.Keys == l.users.Keys
      && l.rounds == lazy.rounds && l.current == lazy.current
  {
  }

  lemma DonateRelated(lazy: State, eager: State, u: Uid, p: Pid, stake: int, rep: int, n: nat)
    requires Related(lazy, eager) && !HasUnsettled(lazy, u)
    ensures Related(DonateWith(lazy, u, p, stake, rep, n), DonateWith(eager, u, p, stake, rep, n))
  {
    hide DonateInRound, SameUser, HasUnsettled, NoteDonation;
    NoteRelated(lazy, eager, u, p, UsedDp(lazy, u, p, stake, rep), rep);
    forall v
      ensures SameUser(DonateWith(lazy, u, p, stake, rep, n), DonateWith(eager, u, p, stake, rep, n), v)
    {
      DonateSameUser(lazy, eager, u, p, stake, rep, n, v);
    }
  }

  /** Only the records a score depends on matter. */
  lemma SameUserFrame(lazy: State, eager: State, lazy': State, eager': State, v: Uid)
    requires SameUser(lazy, eager, v)
    requires lazy'.rounds == lazy.rounds && lazy'.current == lazy.current
    requires UserOf(lazy', v) == UserOf(lazy, v).(free := UserOf(lazy', v).free)
    requires UserOf(eager', v) == UserOf(eager, v).(free := UserOf(lazy', v).free)
    ensures SameUser(lazy', eager', v)
  {
    hide NewScore, Unsettled;
  }

  lemma ReportRelated(lazy: State, eager: State, u: Uid, p: Pid, rep: int)
    requires Related(lazy, eager)
    ensures Related(ReportWith(lazy, u, p, rep), ReportWith(eager, u, p, rep))
  {
    hide SettledScore;
    forall v
      ensures SameUser(ReportWith(lazy, u, p, rep), ReportWith(eager, u, p, rep), v)
    {
      assert SameUser(lazy, eager, v);
      SameUserFrame(lazy, eager, ReportWith(lazy, u, p, rep), ReportWith(eager, u, p, rep), v);
    }
  }

  lemma FreeRelated(lazy: State, eager: State, u: Uid, score: int)
    requires Related(lazy, eager)
    ensures Related(IncFree(lazy, u, score), IncFree(eager, u, score))
  {
    hide SettledScore;
    forall v
      ensures SameUser(IncFree(lazy, u, score), IncFree(eager, u, score), v)
    {
      assert SameUser(lazy, eager, v) && SameUser(lazy, eager, u);
      SameUserFrame(lazy, eager, IncFree(lazy, u, score), IncFree(eager, u, score), v);
    }
  }

  lemma RoundEndRelated(lazy: State, eager: State, t: int)
    requires Related(lazy, eager) && RoundEnds(lazy, t)
    ensures Related(Update(lazy, t), SettleAll(Update(eager, t), eager.current))
  {
    hide Best, Cover, NewScore, Unsettled;
    var lazy' := Update(lazy, t);
    var eager' := SettleAll(Update(eager, t), eager.current);
    forall v
      ensures SameUser(lazy', eager', v)
    {
      assert SameUser(lazy, eager, v);
      var r := UserOf(lazy, v).lastDonated;
      assert r < lazy.current ==> RoundOf(lazy', r) == RoundOf(lazy, r);
    }
  }

  lemma StepRelated(lazy: State, eager: State, op: Op, n: nat)
    requires Related(lazy, eager)
    ensures Answer(lazy, op) == EagerAnswer(eager, op)
    ensures Related(Step(lazy, op, n), EagerStep(eager, op, n))
  {
    hide Related, DonateWith, ReportWith, IncFree, Update, SettleAll, RepOf, EagerRep, UsedDp;
    RelatedFields(lazy, eager, op);
    if Accepted(op) {
      match op
      case Donate(u, p, stake) =>
        SettleRelated(lazy, eager, u);
        DonateRelated(Settle(lazy, u), eager, u, p, stake, RepOf(lazy, u), n);
      case Report(u, p) =>
        SettleRelated(lazy, eager, u);
        ReportRelated(Settle(lazy, u), eager, u, p, RepOf(lazy, u));
      case FreeScore(u, score) => FreeRelated(lazy, eager, u, score);
      case Query(u) => SettleRelated(lazy, eager, u);
      case EndBlock(t) =>
        if RoundEnds(lazy, t) {
          RoundEndRelated(lazy, eager, t);
        } else {
          UpdateTooEarly(lazy, t);
        }
    }
  }

  lemma UpdateTooEarly(s: State, t: int)
    requires !RoundEnds(s, t)
    ensures Update(s, t) == s
  {
  }

  lemma RelatedFields(lazy: State, eager: State, op: Op)
    requires Related(lazy, eager)
    ensures lazy.current == eager.current
    ensures op.EndBlock? ==> RoundEnds(lazy, op.t) == RoundEnds(eager, op.t)
    ensures op.Report? ==> SumRepOf(lazy.sumRep, op.p) == SumRepOf(eager.sumRep, op.p)
    ensures op.Report? ==> UserPostOf(lazy, op.u, op.p) == UserPostOf(eager, op.u, op.p)
    ensures op.Donate? ==>
      forall rep :: UsedDp(lazy, op.u, op.p, op.stake, rep) == UsedDp(eager, op.u, op.p, op.stake, rep)
  {
  }

  lemma GenesisRelated()
    ensures Related(GENESIS, GENESIS)
  {
    assert forall u :: SameUser(GENESIS, GENESIS, u);
  }

  lemma RelatedScores(lazy: State, eager: State, u: Uid)
    requires Related(lazy, eager)
    ensures SettledScore(lazy, u) == UserOf(eager, u).score
  {
    hide SettledScore;
    assert SameUser(lazy, eager, u);
  }

  /** Lazy settlement refines eager settlement: over every run of operations both
      games give every caller the same answer, and at any time a user's settled
      score is the score of the eager game. */
  lemma {:induction false} LazyRefinesEager(ops: seq<Op>, n: nat)
    ensures Related(Run(ops, n), EagerRun(ops, n))
    ensures forall k :: 0 <= k < |ops| ==>
      Answer(Run(ops[..k], n), ops[k]) == EagerAnswer(EagerRun(ops[..k], n), ops[k])
    ensures forall u :: SettledScore(Run(ops, n), u) == UserOf(EagerRun(ops, n), u).score
  {
    hide Step, EagerStep, Answer, EagerAnswer, Related, SettledScore, UserOf;
    if ops == [] {
      GenesisRelated();
    } else {
      var m := |ops| - 1;
      LazyRefinesEager(ops[..m], n);
      StepRelated(Run(ops[..m], n), EagerRun(ops[..m], n), ops[m], n);
      forall k | 0 <= k < m
        ensures Answer(Run(ops[..k], n), ops[k]) == EagerAnswer(EagerRun(ops[..k], n), ops[k])
      {
        assert ops[..m][..k] == ops[..k] && ops[..m][k] == ops[k];
      }
    }
    forall u
      ensures SettledScore(Run(ops, n), u) == UserOf(EagerRun(ops, n), u).score
    {
      RelatedScores(Run(ops, n), EagerRun(ops, n), u);
    }
  }
}

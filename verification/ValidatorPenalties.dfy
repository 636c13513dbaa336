/** Who is punished, and how much it costs: what one block's firing loop and a
    missed vote do to each validator. */
module ValidatorPenalties {
  import opened Basics
  import opened Validators
  import opened ValidatorLists
  import opened ValidatorRuns

  /** The deposit after a fine: what is left, or nothing below the minimum. */
  predicate LeftAfter(p: Params, before: int, fine: nat, after: int) {
    after == if before - Min(fine, before) >= p.minCommit then before - Min(fine, before) else 0
  }

  /** What the firing loop makes of one validator: a byzantine one loses everything,
      one absent too often is fined and starts counting anew, and all others are
      left alone. */
  predicate Treated(p: Params, before: Validator, after: Validator, byzantine: bool) {
    var late := before.absent > p.absentLimit;
    && after.absent == (if late then 0 else before.absent)
    && (byzantine ==> after.deposit == 0)
    && (!byzantine && late ==> LeftAfter(p, before.deposit, p.missCommit, after.deposit))
    && (!byzantine && !late ==> after.deposit == before.deposit)
  }

  lemma PunishedRecord(p: Params, s: State, n: Name, penalty: nat, offence: Offence)
    requires Inv(p, s) && n in s.vals
    ensures var t := Punish(p, s, n, penalty, offence).0;
      && Inv(p, t) && t.vals.Keys == s.vals.Keys
      && (forall m :: m in s.vals && m != n ==> t.vals[m] == s.vals[m])
      && t.vals[n].absent == (if offence == AbsentCommit then 0 else s.vals[n].absent)
      && (offence == Byzantine ==> t.vals[n].deposit == 0)
      && (offence != Byzantine ==> LeftAfter(p, s.vals[n].deposit, penalty, t.vals[n].deposit))
  {
    hide Inv, Punish;
    PunishKeeps(p, s, n, penalty, offence);
    PunishFields(p, s, n, penalty, offence);
  }

  lemma FireOneTreats(p: Params, s: State, n: Name, byzantine: set<Name>)
    requires Inv(p, s) && n in s.vals
    ensures var t := FireOne(p, s, n, byzantine).0;
      && Inv(p, t) && t.vals.Keys == s.vals.Keys
      && Treated(p, s.vals[n], t.vals[n], n in byzantine)
      && (forall m :: m in s.vals && m != n ==> t.vals[m] == s.vals[m])
  {
    hide Inv, Punish;
    MinimumIsPositive(p, s);
    var s1 := s;
    if n in byzantine {
      PunishedRecord(p, s, n, p.byzantine, Byzantine);
      s1 := Punish(p, s, n, p.byzantine, Byzantine).0;
    }
    if s.vals[n].absent > p.absentLimit {
      PunishedRecord(p, s1, n, p.missCommit, AbsentCommit);
    }
  }

  lemma MinimumIsPositive(p: Params, s: State)
    requires Inv(p, s)
    ensures 0 < p.minCommit
  {
    hide ListInv, Unlisted;
  }

  /** Over the whole loop each listed name is treated by the rule, and nobody else
      is touched. */
  ghost predicate FiredByRule(p: Params, s: State, t: State, names: seq<Name>, byzantine: set<Name>) {
    && t.vals.Keys == s.vals.Keys
    && (forall n :: n in s.vals && n in names ==> Treated(p, s.vals[n], t.vals[n], n in byzantine))
    && (forall n :: n in s.vals && n !in names ==> t.vals[n] == s.vals[n])
  }

  lemma FiredMore(p: Params, s: State, t: State, u: State, front: seq<Name>, last: Name, byzantine: set<Name>)
    requires last !in front && FiredByRule(p, s, t, front, byzantine) && u.vals.Keys == t.vals.Keys
    requires forall m :: m in t.vals && m != last ==> u.vals[m] == t.vals[m]
    requires last in t.vals ==> Treated(p, t.vals[last], u.vals[last], last in byzantine)
    ensures FiredByRule(p, s, u, front + [last], byzantine)
  {
    hide Treated;
  }

  lemma {:induction false} FireTreats(p: Params, s: State, names: seq<Name>, byzantine: set<Name>)
    requires Inv(p, s) && NoDuplicates(names)
    ensures var t := Fire(p, s, names, byzantine).0; Inv(p, t) && FiredByRule(p, s, t, names, byzantine)
  {
    hide Inv, FireOne, FiredByRule, Treated;
    if names == [] {
      NobodyFired(p, s, byzantine);
    } else {
      var front, last := names[..|names| - 1], names[|names| - 1];
      assert names == front + [last];
      FireTreats(p, s, front, byzantine);
      var t := Fire(p, s, front, byzantine).0;
      if last in t.vals {
        FireOneTreats(p, t, last, byzantine);
      } else {
        FireNobody(p, t, last, byzantine);
      }
      FiredMore(p, s, t, FireOne(p, t, last, byzantine).0, front, last, byzantine);
    }
  }

  lemma NobodyFired(p: Params, s: State, byzantine: set<Name>)
    ensures FiredByRule(p, s, s, [], byzantine)
  {
  }

  lemma FireNobody(p: Params, s: State, n: Name, byzantine: set<Name>)
    requires n !in s.vals
    ensures FireOne(p, s, n, byzantine) == (s, 0)
  {
  }

  /** Listed are exactly those with a deposit. */
  lemma ListedIffDeposit(p: Params, s: State, n: Name)
    requires Inv(p, s) && n in s.vals
    ensures n in s.all <==> 0 < s.vals[n].deposit
    ensures n in s.oncall ==> n in s.all
  {
    hide Lowest, Top, Full;
  }

  // ------------------------------------------------------------------- a block

  /** The count of blocks not signed: one more for each, one less for a block that
      was signed, but not below zero. */
  predicate Counted(before: Validator, after: Validator, signed: bool) {
    && after.deposit == before.deposit
    && (!signed ==> after.absent == before.absent + 1)
    && (signed ==> after.absent == if before.absent > 0 then before.absent - 1 else before.absent)
  }

  /** One block: everybody on call at its beginning is counted and then treated by
      the rule; nobody else is touched; whoever has no deposit left is off the
      lists, and everybody else stays listed. */
  ghost predicate BegunByRule(p: Params, s: State, t: State, signers: set<Name>, byzantine: set<Name>) {
    && t.vals.Keys == s.vals.Keys
    && (forall n :: n in s.vals && n !in s.oncall ==> t.vals[n] == s.vals[n])
    && (forall n :: n in s.vals && n in s.oncall ==> CountedAndTreated(p, s, t, n, signers, byzantine))
    && (forall n :: n in t.vals ==> (n in t.all <==> 0 < t.vals[n].deposit))
  }

  ghost predicate CountedAndTreated(p: Params, s: State, t: State, n: Name, signers: set<Name>, byzantine: set<Name>)
    requires n in s.vals && n in t.vals
  {
    exists v :: Counted(s.vals[n], v, n in signers) && Treated(p, v, t.vals[n], n in byzantine)
  }

  lemma SigningIsCounting(s: State, signers: set<Name>)
    requires NoDuplicates(s.oncall)
    ensures var u := UpdateSigning(s.vals, s.oncall, signers);
      && u.Keys == s.vals.Keys
      && (forall n :: n in s.vals && n in s.oncall ==> Counted(s.vals[n], u[n], n in signers))
      && (forall n :: n in s.vals && n !in s.oncall ==> u[n] == s.vals[n])
  {
    hide UpdateSigning;
    SigningCounts(s.vals, s.oncall, signers);
  }

  lemma OncallIsDistinct(p: Params, s: State)
    requires Inv(p, s)
    ensures NoDuplicates(s.oncall)
  {
    hide Lowest, Top, Full;
  }

  lemma BeginTreats(p: Params, s: State, signers: set<Name>, byzantine: set<Name>)
    requires RunInv(p, s) && !s.inBlock
    ensures BegunByRule(p, s, BeginBlock(p, s, signers, byzantine), signers, byzantine)
  {
    hide Inv, Fire, UpdateSigning, Treated, Counted;
    var s1 := s.(pre := s.oncall, vals := UpdateSigning(s.vals, s.oncall, signers), inBlock := true);
    OncallIsDistinct(p, s);
    SigningIsCounting(s, signers);
    SigningKeeps(p, s, signers, s1);
    FireTreats(p, s1, s1.oncall, byzantine);
    var t := Fire(p, s1, s1.oncall, byzantine).0;
    forall n | n in t.vals
      ensures n in t.all <==> 0 < t.vals[n].deposit
    {
      ListedIffDeposit(p, t, n);
    }
  }

  // ------------------------------------------------------------- a missed vote

  /** Each of those who missed a vote is fined once, and nobody else. */
  ghost predicate VotersFined(p: Params, s: State, t: State, names: seq<Name>) {
    && t.vals.Keys == s.vals.Keys
    && (forall n :: n in s.vals && n in names ==>
          t.vals[n].absent == s.vals[n].absent && LeftAfter(p, s.vals[n].deposit, p.missVote, t.vals[n].deposit))
    && (forall n :: n in s.vals && n !in names ==> t.vals[n] == s.vals[n])
  }

  lemma {:induction false} MissedVoteCosts(p: Params, s: State, names: seq<Name>)
    requires Inv(p, s) && NoDuplicates(names)
    ensures var t := PunishAll(p, s, names).0; Inv(p, t) && VotersFined(p, s, t, names)
  {
    hide Inv, Punish, LeftAfter;
    if names != [] {
      var front, last := names[..|names| - 1], names[|names| - 1];
      assert names == front + [last] && last !in front;
      MissedVoteCosts(p, s, front);
      var t := PunishAll(p, s, front).0;
      if last in t.vals {
        PunishedRecord(p, t, last, p.missVote, DidntVote);
      }
    }
  }
}

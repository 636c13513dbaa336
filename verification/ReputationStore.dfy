/** The reputation system as the code runs it: records read, changed and written
    back one after the other. Every method is proved against the operations of
    module Reputation and keeps the ledgers of module RepLedgers. */
module ReputationStore {
  import opened Basics
  import opened Sums
  import opened KeySale
  import opened TopIndex
  import opened Reputation
  import opened RepLedgers

  class Store {
    const bestContentIndexN: nat
    var users: map<Uid, User>
    var sumRep: map<Pid, int>
    var userPosts: map<Pid, map<Uid, UserPost>>
    var rounds: map<int, Round>
    var current: int

    ghost function St(): State
      reads this
    {
      State(users, sumRep, userPosts, rounds, current)
    }

    ghost predicate Valid()
      reads this
    {
      Inv(St(), bestContentIndexN)
    }

    constructor (n: nat)
      ensures bestContentIndexN == n && St() == GENESIS && Valid()
    {
      bestContentIndexN := n;
      users, sumRep, userPosts, rounds, current := map[], map[], map[], map[], 1;
      new;
      GenesisInv(n);
    }

    function GetUser(u: Uid): User
      reads this
    {
      if u in users then users[u] else User(INITIAL_CUSTOMER_SCORE, 0, 0, 0)
    }

    function GetRound(r: int): Round
      reads this
    {
      if r in rounds then rounds[r] else Round([], 0, 0, [], map[])
    }

    function GetDonors(p: Pid): map<Uid, UserPost>
      reads this
    {
      if p in userPosts then userPosts[p] else map[]
    }

    function GetUserPost(u: Uid, p: Pid): UserPost
      reads this
    {
      if u in GetDonors(p) then GetDonors(p)[u] else UserPost(0, 0, 0)
    }

    method SetUserPost(u: Uid, p: Pid, up: UserPost)
      modifies this`userPosts
      ensures St() == Reputation.SetUserPost(old(St()), u, p, up)
    {
      userPosts := userPosts[p := GetDonors(p)[u := up]];
    }

    /** `earned` are the shares in the best posts of the round that is settled. */
    method GetSettledCustomerScore(u: Uid) returns (score: int, ghost earned: seq<int>)
      requires Valid()
      modifies this`users
      ensures Valid() && St() == Settle(old(St()), u) && score == SettledScore(old(St()), u)
      ensures var user := UserOf(old(St()), u);
        if user.lastSettled < user.lastDonated < current
        then AreShares(RoundOf(St(), user.lastDonated), u, earned) && ScoreRule(user.score, SeqSum(earned), score)
        else score == user.score
    {
      hide Inv, IsShare, ScoreRule;
      SettleKeeps(St(), u, bestContentIndexN);
      earned := SettlementRule(St(), u);
      var user := GetUser(u);
      score := user.score;
      if user.lastSettled < user.lastDonated && user.lastDonated < current {
        var round := GetRound(user.lastDonated);
        var unsettled := 0;
        for i := 0 to |round.result|
          invariant unsettled == Unsettled(round, u, round.result[..i])
        {
          var rp := RoundPostOf(round, round.result[i]);
          if rp.sold > 0 {
            unsettled := unsettled + KeysHeld(rp, u) * rp.sumStake / rp.sold;
          }
          assert round.result[..i + 1][..i] == round.result[..i];
        }
        assert round.result[..|round.result|] == round.result;
        var newScore := (score * (SAMPLE_WINDOW_SIZE - 1) + unsettled) / SAMPLE_WINDOW_SIZE;
        score := Max(Max(newScore, score * DECAY_FACTOR / 100), INITIAL_CUSTOMER_SCORE);
        users := users[u := user.(score := score, lastSettled := user.lastDonated)];
      }
    }

    method GetReputation(u: Uid) returns (rep: int)
      requires Valid()
      modifies this`users
      ensures Valid() && St() == Settle(old(St()), u) && rep == RepOf(old(St()), u)
      ensures rep == SettledScore(old(St()), u) + UserOf(old(St()), u).free
    {
      hide Inv, SettledScore;
      var score, _ := GetSettledCustomerScore(u);
      rep := score + GetUser(u).free;
    }

    /** Buys keys of `p` in one round's records. */
    method BuyKey(rp: RoundPost, u: Uid, stake: nat) returns (sold: nat, held: map<Uid, nat>)
      ensures sold == rp.sold + KeysFor(rp.sold, stake)
      ensures held == if sold > rp.sold then rp.held[u := KeysHeld(rp, u) + sold - rp.sold] else rp.held
    {
      var keys := NumKeysCanBuy(rp.sold, stake);
      sold, held := rp.sold, rp.held;
      if keys > 0 {
        held := held[u := KeysHeld(rp, u) + keys];
        sold := sold + keys;
      }
    }

    /** The three increments of the round's records, and the index. */
    method DonateToRound(u: Uid, p: Pid, stake: nat, dp: int)
      modifies this`rounds
      ensures St() == old(St()).(rounds := old(rounds)[current :=
        DonateInRound(RoundOf(old(St()), current), u, p, stake, dp, bestContentIndexN)])
    {
      hide KeysFor, Updated;
      var round := GetRound(current);
      var rp := RoundPostOf(round, p);
      var sold, held := BuyKey(rp, u, stake);
      var topN := SetTopN(round.topN, p, rp.sumDp + dp, bestContentIndexN);
      round := round.(posts := round.posts[p := RoundPost(rp.sumDp + dp, rp.sumStake + stake, sold, held)],
                      topN := topN, sumDp := round.sumDp + dp);
      rounds := rounds[current := round];
    }

    method NoteDonation(u: Uid, p: Pid, dp: int, rep: int)
      modifies this`users, this`sumRep, this`userPosts
      ensures St() == Reputation.NoteDonation(old(St()), u, p, dp, rep)
    {
      var up := GetUserPost(u, p);
      SetUserPost(u, p, up.(donated := dp + up.donated, donationRep := rep));
      sumRep := sumRep[p := SumRepOf(sumRep, p) + (rep - up.donationRep)];
      users := users[u := GetUser(u).(lastDonated := current)];
    }

    /** DonateAt once the donor's reputation is read. */
    method RecordDonation(u: Uid, p: Pid, stake: nat, rep: int) returns (dp: int)
      modifies this
      ensures St() == DonateWith(old(St()), u, p, stake, rep, bestContentIndexN)
      ensures dp == UsedDp(old(St()), u, p, stake, rep)
    {
      hide DonateInRound, Reputation.NoteDonation;
      var available := Max(rep - GetUserPost(u, p).donated, 0);
      dp := Min(available, stake);
      NoteDonation(u, p, dp, rep);
      DonateToRound(u, p, stake, dp);
    }

    /** False for an empty name, as the reputation manager reports an error. */
    method DonateAt(u: Uid, p: Pid, stake: nat) returns (ok: bool, dp: int)
      requires Valid()
      modifies this
      ensures Valid()
      ensures ok == Accepted(Donate(u, p, stake))
      ensures St() == Step(old(St()), Donate(u, p, stake), bestContentIndexN)
      ensures dp == Answer(old(St()), Donate(u, p, stake))
      ensures ok ==> var donated, rep := UserPostOf(old(St()), u, p).donated, RepOf(old(St()), u);
        && 0 <= dp <= stake && dp + donated <= Max(rep, donated)
        && (dp == stake || dp + donated == Max(rep, donated))
    {
      hide Inv, RepOf, DonateWith, SettledScore;
      StepKeeps(St(), Donate(u, p, stake), bestContentIndexN);
      if u == "" || p == "" {
        return false, 0;
      }
      var rep := GetReputation(u);
      dp := RecordDonation(u, p, stake, rep);
      ok := true;
    }

    method ReportAt(u: Uid, p: Pid) returns (ok: bool, newSum: int)
      requires Valid()
      modifies this
      ensures Valid()
      ensures ok == Accepted(Report(u, p))
      ensures St() == Step(old(St()), Report(u, p), bestContentIndexN)
      ensures newSum == Answer(old(St()), Report(u, p))
    {
      hide Inv, Settle, RepOf;
      StepKeeps(St(), Report(u, p), bestContentIndexN);
      if u == "" || p == "" {
        return false, 0;
      }
      SettleOnce(St(), u);
      newSum := SumRepOf(sumRep, p);
      var rep := GetReputation(u);
      var up := GetUserPost(u, p);
      newSum := newSum - (rep - up.reportRep);
      sumRep := sumRep[p := newSum];
      SetUserPost(u, p, up.(reportRep := rep));
      ok := true;
    }

    method IncFreeScore(u: Uid, score: int)
      requires Valid()
      modifies this
      ensures Valid() && St() == IncFree(old(St()), u, score)
    {
      hide Inv;
      FreeKeeps(St(), u, score, bestContentIndexN);
      users := users[u := GetUser(u).(free := GetUser(u).free + score)];
    }

    method Update(t: int)
      requires Valid()
      modifies this
      ensures Valid() && St() == Reputation.Update(old(St()), t)
    {
      hide Inv, RoundInv, Best, Cover, IsTop, Powers;
      UpdateKeeps(St(), t, bestContentIndexN);
      var round := GetRound(current);
      if t - round.startAt >= ROUND_DURATION {
        CurrentRound(St(), bestContentIndexN);
        IndexReady(round, bestContentIndexN);
        var bound := round.sumDp * 8 / 10;
        var result := RoundResult(round.topN, Powers(round), sumRep, bound);
        rounds := rounds[current := round.(result := result)];
        rounds := rounds[current + 1 := Round([], 0, t, [], map[])];
        current := current + 1;
      }
    }
  }

  lemma IndexReady(round: Round, n: nat)
    requires RoundInv(round, n)
    ensures Sorted(round.topN) && Current(round.topN, Powers(round))
    ensures forall i :: 0 <= i < |round.topN| ==> 0 <= round.topN[i].dp
  {
  }
}

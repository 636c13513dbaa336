/** The coin-day queue of one account (x/account/manager.go). A deposit matures
    linearly over `recover` seconds; only aggregates of the queue are kept, and
    two withdrawal disciplines cut it from the tail or from the head. */
module CoinDay {
  import opened Basics
  import opened Coins

  /** Deposits are recorded in 20-minute buckets. */
  const RECORD_INTERVAL := 1200

  datatype Params = Params(recover: int, minBalance: int) {
    predicate Valid() {
      0 < recover && 0 <= minBalance
    }
  }

  datatype Pending = Pending(start: int, end: int, coin: int)

  /** AccountBank and PendingCoinDayQueue of one user. */
  datatype Account = Account(saving: int, coinDay: int,
                             updatedAt: int, totalCoinDay: real, totalCoin: int, pending: seq<Pending>)

  datatype Result<T> = Ok(value: T) | NotEnoughSaving

  function Slot(now: int): int {
    now / RECORD_INTERVAL * RECORD_INTERVAL
  }

  /** What `coin` matures in `elapsed` seconds: the recover ratio times the coin. */
  function Share(elapsed: int, coin: int, p: Params): real
    requires p.Valid()
  {
    elapsed as real / p.recover as real * coin as real
  }

  // ---------------------------------------------------------------- operations

  /** Takes `coin` off entry `i`; an emptied entry leaves the queue. */
  function Cut(a: Account, i: nat, coin: int, p: Params): Account
    requires p.Valid() && i < |a.pending|
  {
    var e := a.pending[i];
    a.(totalCoinDay := a.totalCoinDay - Share(a.updatedAt - e.start, coin, p),
       totalCoin := a.totalCoin - coin,
       pending := CutPending(a.pending, i, coin))
  }

  function CutPending(q: seq<Pending>, i: nat, coin: int): seq<Pending>
    requires i < |q|
  {
    if coin == q[i].coin then q[..i] + q[i + 1..] else q[i := q[i].(coin := q[i].coin - coin)]
  }

  function CutWhole(a: Account, i: nat, p: Params): (b: Account)
    requires p.Valid() && i < |a.pending|
    ensures |b.pending| == |a.pending| - 1
  {
    Cut(a, i, a.pending[i].coin, p)
  }

  /** The oldest entry has matured: its coins become coin-day. */
  function Pop(a: Account, p: Params): (b: Account)
    requires p.Valid() && a.pending != []
    ensures |b.pending| < |a.pending|
  {
    CutWhole(a, 0, p).(coinDay := a.coinDay + a.pending[0].coin)
  }

  function Expire(a: Account, slot: int, p: Params): Account
    requires p.Valid()
    decreases |a.pending|
  {
    if a.pending == [] || slot < a.pending[0].end then a else Expire(Pop(a, p), slot, p)
  }

  /** updateTXFromPendingCoinDayQueue */
  function Refresh(a: Account, now: int, p: Params): Account
    requires p.Valid()
  {
    var b := Expire(a, Slot(now), p);
    if b.pending == [] then b.(totalCoin := 0, totalCoinDay := 0.0, updatedAt := Slot(now))
    else b.(totalCoinDay := b.totalCoinDay + Share(Slot(now) - b.updatedAt, b.totalCoin, p),
            updatedAt := Slot(now))
  }

  /** Does a deposit at `now` fall in the bucket of the newest entry? */
  predicate SameBucket(a: Account, now: int) {
    a.pending != [] && a.pending[|a.pending| - 1].start == Slot(now)
  }

  function AddSaving(a: Account, coin: int, now: int, p: Params): Account
    requires p.Valid()
  {
    if coin == 0 then a
    else
      var b := Refresh(a.(saving := a.saving + coin), now, p);
      // the sum of the two coins is computed and dropped
      if SameBucket(b, now) then b
      else b.(pending := b.pending + [Pending(Slot(now), Slot(now) + p.recover, coin)],
              totalCoin := b.totalCoin + coin)
  }

  function AddSavingWithFullCoinDay(a: Account, coin: int): Account {
    a.(saving := a.saving + coin, coinDay := a.coinDay + coin)
  }

  /** Newest entries first; returns what could not be taken. */
  function CutTail(a: Account, coin: int, p: Params): (Account, int)
    requires p.Valid()
    decreases |a.pending|
  {
    if a.pending == [] then (a, coin)
    else
      var last := |a.pending| - 1;
      if a.pending[last].coin <= coin
      then CutTail(CutWhole(a, last, p), coin - a.pending[last].coin, p)
      else (Cut(a, last, coin, p), 0)
  }

  /** Oldest entries first. */
  function CutHead(a: Account, coin: int, p: Params): Account
    requires p.Valid()
    decreases |a.pending|
  {
    if a.pending == [] then a
    else if a.pending[0].coin <= coin
    then CutHead(CutWhole(a, 0, p), coin - a.pending[0].coin, p)
    else Cut(a, 0, coin, p)
  }

  function MinusSaving(a: Account, coin: int, now: int, p: Params): Result<Account>
    requires p.Valid()
  {
    if a.saving - coin < p.minBalance then NotEnoughSaving
    else if coin == 0 then Ok(a)
    else
      var (b, rest) := CutTail(Refresh(a.(saving := a.saving - coin), now, p), coin, p);
      Ok(if rest > 0 then b.(coinDay := b.saving) else b)
  }

  function MinusSavingWithFullCoinDay(a: Account, coin: int, now: int, p: Params): Result<Account>
    requires p.Valid()
  {
    if coin == 0 then Ok(a)
    else if a.saving - coin < p.minBalance then NotEnoughSaving
    else
      var b := Refresh(a.(saving := a.saving - coin), now, p);
      Ok(if coin <= b.coinDay then b.(coinDay := b.coinDay - coin)
         else CutHead(b.(coinDay := 0), coin - b.coinDay, p))
  }

  /** The value GetCoinDay returns once the queue is refreshed. */
  function CoinDayValue(a: Account): int {
    a.coinDay + RatToCoin(a.totalCoinDay)
  }

  // ----------------------------------------------------------------- invariant

  function PendingCoins(q: seq<Pending>): int {
    if q == [] then 0 else q[0].coin + PendingCoins(q[1..])
  }

  /** Coin-seconds matured by time `t`. */
  function Matured(q: seq<Pending>, t: int): int {
    if q == [] then 0 else q[0].coin * (t - q[0].start) + Matured(q[1..], t)
  }

  function CoinDays(coinSeconds: int, p: Params): real
    requires p.Valid()
  {
    coinSeconds as real / p.recover as real
  }

  predicate WellQueued(q: seq<Pending>, t: int, p: Params) {
    && (forall i :: 0 <= i < |q| ==> 0 < q[i].coin && q[i].start <= t < q[i].end == q[i].start + p.recover)
    && (forall i, j :: 0 <= i < j < |q| ==> q[i].start < q[j].start)
  }

  /** The aggregates agree with the queue, which is in strictly increasing start
      order and holds no entry that has expired. */
  predicate Tracks(a: Account, p: Params) {
    && p.Valid()
    && WellQueued(a.pending, a.updatedAt, p)
    && a.totalCoin == PendingCoins(a.pending)
    && a.totalCoinDay == CoinDays(Matured(a.pending, a.updatedAt), p)
  }

  predicate Inv(a: Account, p: Params) {
    && Tracks(a, p)
    && 0 <= a.coinDay
    && a.coinDay + a.totalCoin <= a.saving
  }

  // ---------------------------------------------------------- queue arithmetic

  lemma {:induction false} PendingCoinsConcat(q: seq<Pending>, r: seq<Pending>, t: int)
    ensures PendingCoins(q + r) == PendingCoins(q) + PendingCoins(r)
    ensures Matured(q + r, t) == Matured(q, t) + Matured(r, t)
  {
    if q == [] {
      assert q + r == r;
    } else {
      assert (q + r)[1..] == q[1..] + r;
      PendingCoinsConcat(q[1..], r, t);
    }
  }

  /** Splitting the queue around entry `i`. */
  lemma AroundEntry(q: seq<Pending>, i: nat, t: int)
    requires i < |q|
    ensures PendingCoins(q) == PendingCoins(q[..i]) + q[i].coin + PendingCoins(q[i + 1..])
    ensures Matured(q, t) == Matured(q[..i], t) + q[i].coin * (t - q[i].start) + Matured(q[i + 1..], t)
  {
    assert q == q[..i] + q[i..] && q[i..][0] == q[i] && q[i..][1..] == q[i + 1..];
    PendingCoinsConcat(q[..i], q[i..], t);
  }

  lemma {:induction false} MaturedLater(q: seq<Pending>, t: int, u: int)
    ensures Matured(q, u) == Matured(q, t) + (u - t) * PendingCoins(q)
  {
    if q != [] {
      MaturedLater(q[1..], t, u);
      assert q[0].coin * (u - q[0].start) == q[0].coin * (t - q[0].start) + (u - t) * q[0].coin;
    }
  }

  lemma ProductBounds(coin: int, elapsed: int, limit: int)
    requires 0 <= coin && 0 <= elapsed <= limit
    ensures 0 <= coin * elapsed <= coin * limit
  {
  }

  /** Nothing has matured beyond its own coin. */
  lemma {:induction false} MaturedBounds(q: seq<Pending>, t: int, p: Params)
    requires p.Valid() && WellQueued(q, t, p)
    ensures 0 <= PendingCoins(q)
    ensures 0 <= Matured(q, t) <= PendingCoins(q) * p.recover
  {
    hide WellQueued;
    if q != [] {
      RestWellQueued(q, t, p);
      MaturedBounds(q[1..], t, p);
      ProductBounds(q[0].coin, t - q[0].start, p.recover);
      Distribute(q[0].coin, -PendingCoins(q[1..]), p.recover);
    }
  }

  /** One aggregate update in exact arithmetic: the rational stays the quotient of
      the matured coin-seconds. */
  lemma ShareIsExact(total: real, w: int, elapsed: int, coin: int, p: Params)
    requires p.Valid() && total == CoinDays(w, p)
    ensures total - Share(elapsed, coin, p) == CoinDays(w - coin * elapsed, p)
    ensures total + Share(elapsed, coin, p) == CoinDays(w + coin * elapsed, p)
  {
    var r := p.recover as real;
    assert Share(elapsed, coin, p) == (coin * elapsed) as real / r;
  }

  lemma NothingMatured(p: Params)
    requires p.Valid()
    ensures CoinDays(0, p) == 0.0
  {
  }

  lemma CutWellQueued(q: seq<Pending>, i: nat, coin: int, t: int, p: Params)
    requires WellQueued(q, t, p) && i < |q| && 0 <= coin <= q[i].coin
    ensures WellQueued(CutPending(q, i, coin), t, p)
  {
  }

  lemma CutSums(q: seq<Pending>, i: nat, coin: int, t: int)
    requires i < |q|
    ensures PendingCoins(CutPending(q, i, coin)) == PendingCoins(q) - coin
    ensures Matured(CutPending(q, i, coin), t) == Matured(q, t) - coin * (t - q[i].start)
  {
    var r := CutPending(q, i, coin);
    AroundEntry(q, i, t);
    if coin == q[i].coin {
      PendingCoinsConcat(q[..i], q[i + 1..], t);
    } else {
      AroundEntry(r, i, t);
      assert r[..i] == q[..i] && r[i + 1..] == q[i + 1..];
      Distribute(q[i].coin, coin, t - q[i].start);
    }
  }

  lemma Distribute(x: int, y: int, z: int)
    ensures (x - y) * z == x * z - y * z
  {
  }

  lemma CutTracks(a: Account, i: nat, coin: int, p: Params)
    requires Tracks(a, p) && i < |a.pending| && 0 <= coin <= a.pending[i].coin
    ensures Tracks(Cut(a, i, coin, p), p)
  {
    hide Share, CoinDays, Matured, CutPending, WellQueued;
    CutWellQueued(a.pending, i, coin, a.updatedAt, p);
    CutSums(a.pending, i, coin, a.updatedAt);
    ShareIsExact(a.totalCoinDay, Matured(a.pending, a.updatedAt), a.updatedAt - a.pending[i].start, coin, p);
  }

  lemma ParamsValid(a: Account, p: Params)
    requires Tracks(a, p)
    ensures p.Valid()
  {
    hide WellQueued, CoinDays, Matured, PendingCoins;
  }

  lemma CutFields(a: Account, i: nat, coin: int, p: Params)
    requires p.Valid() && i < |a.pending|
    ensures Cut(a, i, coin, p) == a.(totalCoinDay := a.totalCoinDay - Share(a.updatedAt - a.pending[i].start, coin, p),
                                     totalCoin := a.totalCoin - coin, pending := CutPending(a.pending, i, coin))
  {
    hide Share, CutPending;
  }

  /** What the queue says of each of its entries. */
  lemma EntryInQueue(a: Account, i: nat, p: Params)
    requires Tracks(a, p) && i < |a.pending|
    ensures var e := a.pending[i];
      0 < e.coin && e.start <= a.updatedAt < e.end && e.end == e.start + p.recover
    ensures 0 < i ==> a.pending[0].end < a.pending[i].end
  {
    hide CoinDays, Matured, PendingCoins;
  }

  lemma TotalCoinIsPending(a: Account, p: Params)
    requires Tracks(a, p)
    ensures a.totalCoin == PendingCoins(a.pending) && 0 <= a.totalCoin
  {
    hide CoinDays, Matured;
    PendingCoinsNonNegative(a.pending, a.updatedAt, p);
  }

  lemma {:induction false} PendingCoinsNonNegative(q: seq<Pending>, t: int, p: Params)
    requires WellQueued(q, t, p)
    ensures 0 <= PendingCoins(q)
  {
    hide WellQueued;
    if q != [] {
      RestWellQueued(q, t, p);
      PendingCoinsNonNegative(q[1..], t, p);
    }
  }

  lemma RestWellQueued(q: seq<Pending>, t: int, p: Params)
    requires WellQueued(q, t, p) && q != []
    ensures WellQueued(q[1..], t, p) && 0 < q[0].coin && 0 <= t - q[0].start < p.recover
  {
  }

  lemma HeadWithinTotal(a: Account, p: Params)
    requires Tracks(a, p) && a.pending != []
    ensures 0 < a.pending[0].coin <= a.totalCoin
  {
    hide CoinDays, Matured, WellQueued;
    RestWellQueued(a.pending, a.updatedAt, p);
    PendingCoinsNonNegative(a.pending[1..], a.updatedAt, p);
  }

  lemma EmptyQueue(a: Account, p: Params)
    requires Tracks(a, p) && a.pending == []
    ensures a.totalCoin == 0 && a.totalCoinDay == 0.0
  {
    NothingMatured(p);
  }

  // ------------------------------------------------------- every step keeps it

  lemma CutWholeFields(a: Account, i: nat, p: Params)
    requires p.Valid() && i < |a.pending|
    ensures var b := CutWhole(a, i, p);
      && b == a.(totalCoinDay := b.totalCoinDay, totalCoin := a.totalCoin - a.pending[i].coin, pending := b.pending)
      && b.pending == a.pending[..i] + a.pending[i + 1..]
      && (i == 0 ==> b.pending == a.pending[1..])
      && (i == |a.pending| - 1 ==> b.pending == a.pending[..i])
  {
    hide Share;
  }

  lemma PopFields(a: Account, p: Params)
    requires p.Valid() && a.pending != []
    ensures var b := Pop(a, p);
      && b == a.(coinDay := a.coinDay + a.pending[0].coin, totalCoinDay := b.totalCoinDay,
                 totalCoin := a.totalCoin - a.pending[0].coin, pending := a.pending[1..])
  {
    hide CutWhole;
    CutWholeFields(a, 0, p);
  }

  lemma PopTracks(a: Account, p: Params)
    requires Tracks(a, p) && a.pending != []
    ensures Tracks(Pop(a, p), p) && 0 < a.pending[0].coin
  {
    hide Share, Tracks, CutPending, Cut;
    ParamsValid(a, p);
    EntryInQueue(a, 0, p);
    CutTracks(a, 0, a.pending[0].coin, p);
    TracksIgnoresCoinDay(CutWhole(a, 0, p), Pop(a, p), p);
  }

  lemma TracksIgnoresCoinDay(a: Account, b: Account, p: Params)
    requires Tracks(a, p) && a.(saving := b.saving, coinDay := b.coinDay) == b
    ensures Tracks(b, p)
  {
    hide CoinDays, Matured, PendingCoins, WellQueued;
  }

  /** How many entries, oldest first, have matured by `slot`. */
  function Expired(q: seq<Pending>, slot: int): (k: nat)
    ensures k <= |q|
  {
    if q == [] || slot < q[0].end then 0 else 1 + Expired(q[1..], slot)
  }

  lemma ExpiredUnfold(q: seq<Pending>, slot: int)
    ensures Expired(q, slot) == if q == [] || slot < q[0].end then 0 else 1 + Expired(q[1..], slot)
  {
  }

  lemma ExpireUnfold(a: Account, slot: int, p: Params)
    requires p.Valid()
    ensures Expire(a, slot, p) == if a.pending == [] || slot < a.pending[0].end then a else Expire(Pop(a, p), slot, p)
  {
  }

  lemma {:induction false} ExpiredAreTheOld(a: Account, slot: int, p: Params)
    requires Tracks(a, p)
    ensures forall i :: 0 <= i < |a.pending| ==> (a.pending[i].end <= slot <==> i < Expired(a.pending, slot))
    decreases |a.pending|
  {
    hide Tracks, Pop, Expired;
    ParamsValid(a, p);
    ExpiredUnfold(a.pending, slot);
    if a.pending != [] && a.pending[0].end <= slot {
      PopTracks(a, p);
      PopFields(a, p);
      ExpiredAreTheOld(Pop(a, p), slot, p);
      assert forall i :: 0 < i < |a.pending| ==> a.pending[1..][i - 1] == a.pending[i];
    } else {
      forall i | 0 <= i < |a.pending|
        ensures slot < a.pending[i].end
      {
        EntryInQueue(a, i, p);
      }
    }
  }

  /** `b` is `a` after its `k` oldest entries have become coin-day. */
  predicate Dropped(a: Account, b: Account, k: nat) {
    && k <= |a.pending|
    && b.updatedAt == a.updatedAt && b.saving == a.saving
    && b.pending == a.pending[k..]
    && b.coinDay == a.coinDay + PendingCoins(a.pending[..k])
    && b.totalCoin == a.totalCoin - PendingCoins(a.pending[..k])
  }

  lemma DropNone(a: Account)
    ensures Dropped(a, a, 0)
  {
  }

  lemma DropOneMore(a: Account, p: Params, b: Account, k: nat)
    requires p.Valid() && a.pending != [] && Dropped(Pop(a, p), b, k)
    ensures Dropped(a, b, k + 1)
  {
    hide Pop, PendingCoins;
    PopFields(a, p);
    RestOfPrefix(a.pending, k);
  }

  lemma RestOfPrefix(q: seq<Pending>, k: nat)
    requires k < |q|
    ensures q[1..][k..] == q[k + 1..]
    ensures PendingCoins(q[..k + 1]) == q[0].coin + PendingCoins(q[1..][..k])
  {
    assert q[..k + 1][1..] == q[1..][..k];
  }

  /** Exactly the expired entries leave the queue, and exactly their coins become
      coin-day. */
  lemma {:induction false} ExpireDropsExpired(a: Account, slot: int, p: Params)
    requires Tracks(a, p)
    ensures Tracks(Expire(a, slot, p), p) && Dropped(a, Expire(a, slot, p), Expired(a.pending, slot))
    decreases |a.pending|
  {
    hide Tracks, Pop, Expire, Expired, Dropped;
    ParamsValid(a, p);
    ExpireUnfold(a, slot, p);
    ExpiredUnfold(a.pending, slot);
    if a.pending != [] && a.pending[0].end <= slot {
      PopTracks(a, p);
      PopFields(a, p);
      ExpireDropsExpired(Pop(a, p), slot, p);
      DropOneMore(a, p, Expire(Pop(a, p), slot, p), Expired(a.pending[1..], slot));
    } else {
      DropNone(a);
    }
  }

  lemma MatureTracks(a: Account, slot: int, p: Params)
    requires Tracks(a, p) && a.updatedAt <= slot
    requires forall i :: 0 <= i < |a.pending| ==> slot < a.pending[i].end
    ensures Tracks(a.(totalCoinDay := a.totalCoinDay + Share(slot - a.updatedAt, a.totalCoin, p),
                      updatedAt := slot), p)
  {
    hide Share, CoinDays, Matured, PendingCoins, WellQueued;
    MaturedLater(a.pending, a.updatedAt, slot);
    LaterWellQueued(a.pending, a.updatedAt, slot, p);
    ShareIsExact(a.totalCoinDay, Matured(a.pending, a.updatedAt), slot - a.updatedAt, a.totalCoin, p);
  }

  lemma LaterWellQueued(q: seq<Pending>, t: int, slot: int, p: Params)
    requires WellQueued(q, t, p) && t <= slot && forall i :: 0 <= i < |q| ==> slot < q[i].end
    ensures WellQueued(q, slot, p)
  {
  }

  lemma FreshAfterExpire(a: Account, slot: int, p: Params)
    requires Tracks(a, p)
    ensures forall i :: 0 <= i < |Expire(a, slot, p).pending| ==> slot < Expire(a, slot, p).pending[i].end
  {
    hide Tracks, Expire;
    ParamsValid(a, p);
    ExpireDropsExpired(a, slot, p);
    ExpiredAreTheOld(a, slot, p);
    var k := Expired(a.pending, slot);
    assert forall i :: 0 <= i < |a.pending| - k ==> a.pending[k..][i] == a.pending[k + i];
  }

  /** A refresh drops exactly the entries that have expired by now, turns exactly
      their coins into coin-day, and keeps the aggregates. */
  lemma RefreshKeeps(a: Account, now: int, p: Params)
    requires Tracks(a, p) && a.updatedAt <= Slot(now)
    ensures var b := Refresh(a, now, p);
      var k := Expired(a.pending, Slot(now));
      && Tracks(b, p) && b.updatedAt == Slot(now) && b.saving == a.saving
      && b.pending == a.pending[k..]
      && (forall i :: 0 <= i < |a.pending| ==> (a.pending[i].end <= Slot(now) <==> i < k))
      && b.coinDay == a.coinDay + PendingCoins(a.pending[..k])
      && b.coinDay + b.totalCoin == a.coinDay + a.totalCoin && a.coinDay <= b.coinDay
  {
    hide Tracks, Expire, Share, Slot, Expired;
    ParamsValid(a, p);
    var e := Expire(a, Slot(now), p);
    ExpireDropsExpired(a, Slot(now), p);
    ExpiredAreTheOld(a, Slot(now), p);
    FreshAfterExpire(a, Slot(now), p);
    PrefixNonNegative(a, Expired(a.pending, Slot(now)), p);
    if e.pending == [] {
      EmptyQueue(e, p);
      EmptyTracks(e.(updatedAt := Slot(now)), p);
    } else {
      MatureTracks(e, Slot(now), p);
    }
  }

  lemma EmptyTracks(a: Account, p: Params)
    requires p.Valid() && a.pending == [] && a.totalCoin == 0 && a.totalCoinDay == 0.0
    ensures Tracks(a, p)
  {
    NothingMatured(p);
  }

  lemma PrefixNonNegative(a: Account, k: nat, p: Params)
    requires Tracks(a, p) && k <= |a.pending|
    ensures 0 <= PendingCoins(a.pending[..k])
  {
    hide CoinDays, Matured;
    PendingCoinsNonNegative(a.pending[..k], a.updatedAt, p);
  }

  /** Taking coins off an entry takes some of its matured coin-day, and less than
      the coins. */
  lemma CutLowersCoinDay(a: Account, i: nat, coin: int, p: Params)
    requires Tracks(a, p) && i < |a.pending| && 0 <= coin
    ensures Cut(a, i, coin, p).totalCoinDay <= a.totalCoinDay
    ensures if coin == 0 then Cut(a, i, coin, p).totalCoinDay == a.totalCoinDay
            else a.totalCoinDay < Cut(a, i, coin, p).totalCoinDay + coin as real
  {
    hide Tracks, Cut, Share, CutPending;
    ParamsValid(a, p);
    EntryInQueue(a, i, p);
    CutFields(a, i, coin, p);
    ShareBelowCoin(a.updatedAt - a.pending[i].start, coin, p);
  }

  /** `b` is `a` after `taken` pending coins have been cut off. */
  predicate Lighter(a: Account, b: Account, taken: int) {
    && b == a.(totalCoinDay := b.totalCoinDay, totalCoin := a.totalCoin - taken, pending := b.pending)
    && 0 <= taken
    && b.totalCoinDay <= a.totalCoinDay
    && (b.totalCoinDay == a.totalCoinDay || a.totalCoinDay < b.totalCoinDay + taken as real)
  }

  lemma LighterTwice(a: Account, b: Account, c: Account, x: int, y: int)
    requires Lighter(a, b, x) && Lighter(b, c, y)
    ensures Lighter(a, c, x + y)
  {
  }

  lemma CutIsLighter(a: Account, i: nat, coin: int, p: Params)
    requires Tracks(a, p) && i < |a.pending| && 0 <= coin <= a.pending[i].coin
    ensures Tracks(Cut(a, i, coin, p), p) && Lighter(a, Cut(a, i, coin, p), coin)
  {
    hide Share, Tracks, Cut, CutPending;
    ParamsValid(a, p);
    CutTracks(a, i, coin, p);
    CutFields(a, i, coin, p);
    CutLowersCoinDay(a, i, coin, p);
  }

  lemma CutTailUnfold(a: Account, coin: int, p: Params)
    requires p.Valid() && a.pending != []
    ensures var last := |a.pending| - 1;
      CutTail(a, coin, p) ==
        if a.pending[last].coin <= coin then CutTail(CutWhole(a, last, p), coin - a.pending[last].coin, p)
        else (Cut(a, last, coin, p), 0)
  {
    hide Cut, CutWhole;
  }

  lemma CutWholeIsLighter(a: Account, i: nat, p: Params)
    requires Tracks(a, p) && i < |a.pending|
    ensures Tracks(CutWhole(a, i, p), p) && Lighter(a, CutWhole(a, i, p), a.pending[i].coin)
    ensures 0 < a.pending[i].coin
  {
    hide Tracks, Cut, Lighter;
    ParamsValid(a, p);
    EntryInQueue(a, i, p);
    CutIsLighter(a, i, a.pending[i].coin, p);
  }

  /** A cut by `coin`, of which `rest` was not there to be taken. */
  predicate TailCut(a: Account, coin: int, b: Account, rest: int, p: Params) {
    Tracks(b, p) && Lighter(a, b, coin - rest) && 0 <= rest && (rest > 0 ==> b.pending == [])
  }

  lemma TailCutMore(a: Account, c: Account, cut: int, coin: int, b: Account, rest: int, p: Params)
    requires Lighter(a, c, cut) && TailCut(c, coin - cut, b, rest, p)
    ensures TailCut(a, coin, b, rest, p)
  {
    hide Tracks, Lighter;
    LighterTwice(a, c, b, cut, coin - cut - rest);
  }

  lemma CutInTail(a: Account, coin: int, p: Params)
    requires Tracks(a, p) && a.pending != [] && 0 <= coin < a.pending[|a.pending| - 1].coin
    ensures TailCut(a, coin, Cut(a, |a.pending| - 1, coin, p), 0, p)
  {
    hide Tracks, Cut, Lighter;
    ParamsValid(a, p);
    CutIsLighter(a, |a.pending| - 1, coin, p);
  }

  /** Tail first: the aggregates stay exact, and all of `coin` is taken unless the
      queue runs empty. */
  lemma {:induction false} CutTailKeeps(a: Account, coin: int, p: Params)
    requires Tracks(a, p) && 0 <= coin
    ensures var (b, rest) := CutTail(a, coin, p); TailCut(a, coin, b, rest, p)
    decreases |a.pending|
  {
    hide Tracks, Cut, CutWhole, CutTail, Lighter, TailCut;
    ParamsValid(a, p);
    if a.pending == [] {
      CutEmpty(a, coin, p);
    } else {
      var last := |a.pending| - 1;
      CutTailUnfold(a, coin, p);
      if a.pending[last].coin <= coin {
        var c, cut := CutWhole(a, last, p), a.pending[last].coin;
        CutWholeIsLighter(a, last, p);
        CutTailKeeps(c, coin - cut, p);
        var (b, rest) := CutTail(c, coin - cut, p);
        TailCutMore(a, c, cut, coin, b, rest, p);
      } else {
        CutInTail(a, coin, p);
      }
    }
  }

  lemma CutEmpty(a: Account, coin: int, p: Params)
    requires Tracks(a, p) && a.pending == [] && 0 <= coin
    ensures CutTail(a, coin, p) == (a, coin) && CutHead(a, coin, p) == a && TailCut(a, coin, a, coin, p)
    ensures Lighter(a, a, Min(coin, a.totalCoin))
  {
    hide Tracks;
    ParamsValid(a, p);
    EmptyQueue(a, p);
  }

  lemma CutHeadUnfold(a: Account, coin: int, p: Params)
    requires p.Valid() && a.pending != []
    ensures CutHead(a, coin, p) ==
      if a.pending[0].coin <= coin then CutHead(CutWhole(a, 0, p), coin - a.pending[0].coin, p)
      else Cut(a, 0, coin, p)
  {
    hide Cut, CutWhole;
  }

  /** Head first: the aggregates stay exact, and as much of `coin` is taken as the
      queue holds. Less than that is lost in matured coin-day, because no entry is
      fully matured. */
  lemma {:induction false} CutHeadKeeps(a: Account, coin: int, p: Params)
    requires Tracks(a, p) && 0 <= coin
    ensures Tracks(CutHead(a, coin, p), p) && Lighter(a, CutHead(a, coin, p), Min(coin, a.totalCoin))
    decreases |a.pending|
  {
    hide Cut, CutWhole, Tracks, CutHead, Lighter;
    ParamsValid(a, p);
    if a.pending == [] {
      CutEmpty(a, coin, p);
    } else {
      CutHeadUnfold(a, coin, p);
      HeadWithinTotal(a, p);
      if a.pending[0].coin <= coin {
        var c, cut := CutWhole(a, 0, p), a.pending[0].coin;
        CutWholeIsLighter(a, 0, p);
        CutWholeFields(a, 0, p);
        CutHeadKeeps(c, coin - cut, p);
        LighterTwice(a, c, CutHead(c, coin - cut, p), cut, Min(coin - cut, c.totalCoin));
      } else {
        CutIsLighter(a, 0, coin, p);
      }
    }
  }

  lemma ShareBelowCoin(elapsed: int, coin: int, p: Params)
    requires p.Valid() && 0 <= elapsed < p.recover && 0 <= coin
    ensures 0.0 <= Share(elapsed, coin, p)
    ensures if coin == 0 then Share(elapsed, coin, p) == 0.0
            else Share(elapsed, coin, p) < coin as real
  {
    assert 0.0 <= elapsed as real / p.recover as real < 1.0;
  }

  /** `r` is `q` after coins were cut off its newest entries: a prefix, of which
      the last entry may have lost some of its coins. */
  predicate NewestCut(q: seq<Pending>, r: seq<Pending>) {
    && |r| <= |q|
    && (r != [] ==>
          var k := |r| - 1;
          r[..k] == q[..k] && r[k] == q[k].(coin := r[k].coin) && 0 < r[k].coin <= q[k].coin)
  }

  /** `r` is `q` after coins were cut off its oldest entries: a suffix, of which the
      first entry may have lost some of its coins. */
  predicate OldestCut(q: seq<Pending>, r: seq<Pending>) {
    && |r| <= |q|
    && (r != [] ==>
          var k := |q| - |r|;
          r[1..] == q[k + 1..] && r[0] == q[k].(coin := r[0].coin) && 0 < r[0].coin <= q[k].coin)
  }

  lemma CutInEntry(a: Account, i: nat, coin: int, p: Params)
    requires Tracks(a, p) && i < |a.pending| && 0 <= coin < a.pending[i].coin
    ensures var r := Cut(a, i, coin, p).pending;
      r == a.pending[i := a.pending[i].(coin := a.pending[i].coin - coin)]
  {
    hide Tracks, Share;
    ParamsValid(a, p);
  }

  lemma NewestCutWithin(q: seq<Pending>, r: seq<Pending>)
    requires q != [] && NewestCut(q[..|q| - 1], r)
    ensures NewestCut(q, r)
  {
  }

  lemma OldestCutWithin(q: seq<Pending>, r: seq<Pending>)
    requires q != [] && OldestCut(q[1..], r)
    ensures OldestCut(q, r)
  {
    if r != [] {
      var k := |q| - |r|;
      assert q[1..][k - 1] == q[k] && q[1..][k..] == q[k + 1..];
    }
  }

  lemma EntryCut(q: seq<Pending>, i: nat, coin: int)
    requires i < |q| && 0 <= coin < q[i].coin
    ensures var r := q[i := q[i].(coin := q[i].coin - coin)];
      (i == |q| - 1 ==> NewestCut(q, r)) && (i == 0 ==> OldestCut(q, r))
  {
  }

  lemma NothingCut()
    ensures NewestCut([], []) && OldestCut([], [])
  {
  }

  lemma {:induction false} CutTailCutsNewest(a: Account, coin: int, p: Params)
    requires Tracks(a, p) && 0 <= coin
    ensures NewestCut(a.pending, CutTail(a, coin, p).0.pending)
    decreases |a.pending|
  {
    hide Tracks, CutTail, CutWhole, Cut, NewestCut;
    ParamsValid(a, p);
    NothingCut();
    if a.pending == [] {
      NothingToCut(a, coin, p);
    } else {
      var last := |a.pending| - 1;
      CutTailUnfold(a, coin, p);
      if a.pending[last].coin <= coin {
        CutWholeIsLighter(a, last, p);
        CutWholeFields(a, last, p);
        CutTailCutsNewest(CutWhole(a, last, p), coin - a.pending[last].coin, p);
        NewestCutWithin(a.pending, CutTail(a, coin, p).0.pending);
      } else {
        CutInEntry(a, last, coin, p);
        EntryCut(a.pending, last, coin);
      }
    }
  }

  lemma {:induction false} CutHeadCutsOldest(a: Account, coin: int, p: Params)
    requires Tracks(a, p) && 0 <= coin
    ensures OldestCut(a.pending, CutHead(a, coin, p).pending)
    decreases |a.pending|
  {
    hide Tracks, CutHead, CutWhole, Cut, OldestCut;
    ParamsValid(a, p);
    NothingCut();
    if a.pending == [] {
      NothingToCut(a, coin, p);
    } else {
      CutHeadUnfold(a, coin, p);
      if a.pending[0].coin <= coin {
        CutWholeIsLighter(a, 0, p);
        CutWholeFields(a, 0, p);
        CutHeadCutsOldest(CutWhole(a, 0, p), coin - a.pending[0].coin, p);
        OldestCutWithin(a.pending, CutHead(a, coin, p).pending);
      } else {
        CutInEntry(a, 0, coin, p);
        EntryCut(a.pending, 0, coin);
      }
    }
  }

  lemma NothingToCut(a: Account, coin: int, p: Params)
    requires p.Valid() && a.pending == []
    ensures CutHead(a, coin, p) == a && CutTail(a, coin, p) == (a, coin)
  {
  }

  lemma AppendWellQueued(q: seq<Pending>, t: int, coin: int, p: Params)
    requires p.Valid() && WellQueued(q, t, p) && 0 < coin
    requires q == [] || q[|q| - 1].start < t
    ensures WellQueued(q + [Pending(t, t + p.recover, coin)], t, p)
  {
  }

  lemma OnePending(t: int, end: int, coin: int)
    ensures PendingCoins([Pending(t, end, coin)]) == coin && Matured([Pending(t, end, coin)], t) == 0
  {
  }

  lemma AppendTracks(a: Account, coin: int, p: Params)
    requires Tracks(a, p) && 0 < coin
    requires a.pending == [] || a.pending[|a.pending| - 1].start < a.updatedAt
    ensures Tracks(a.(pending := a.pending + [Pending(a.updatedAt, a.updatedAt + p.recover, coin)],
                      totalCoin := a.totalCoin + coin), p)
  {
    hide CoinDays, WellQueued, Matured, PendingCoins;
    AppendWellQueued(a.pending, a.updatedAt, coin, p);
    PendingCoinsConcat(a.pending, [Pending(a.updatedAt, a.updatedAt + p.recover, coin)], a.updatedAt);
    OnePending(a.updatedAt, a.updatedAt + p.recover, coin);
  }

  lemma DepositKeeps(a: Account, coin: nat, now: int, p: Params)
    requires Inv(a, p) && a.updatedAt <= Slot(now)
    ensures Inv(AddSaving(a, coin, now, p), p)
    ensures AddSaving(a, coin, now, p).updatedAt <= Slot(now)
  {
    hide Share, CoinDays, Matured, PendingCoins, Refresh;
    var b := Refresh(a.(saving := a.saving + coin), now, p);
    RefreshKeeps(a.(saving := a.saving + coin), now, p);
    if coin != 0 && !SameBucket(b, now) {
      AppendTracks(b, coin, p);
    }
  }

  lemma WithdrawKeeps(a: Account, coin: nat, now: int, p: Params)
    requires Inv(a, p) && a.updatedAt <= Slot(now)
    ensures var r := MinusSaving(a, coin, now, p);
      r.Ok? ==> Inv(r.value, p) && r.value.updatedAt <= Slot(now) && r.value.saving == a.saving - coin
  {
    hide Share, CoinDays, Matured, Refresh;
    var start := a.(saving := a.saving - coin);
    RefreshKeeps(start, now, p);
    CutTailKeeps(Refresh(start, now, p), coin, p);
  }

  lemma SpendKeeps(a: Account, coin: nat, now: int, p: Params)
    requires Inv(a, p) && a.updatedAt <= Slot(now)
    ensures var r := MinusSavingWithFullCoinDay(a, coin, now, p);
      r.Ok? ==>
        && Inv(r.value, p) && r.value.saving == a.saving - coin
        && r.value.updatedAt == if coin == 0 then a.updatedAt else Slot(now)
  {
    hide Share, CoinDays, Matured, Refresh;
    var start := a.(saving := a.saving - coin);
    RefreshKeeps(start, now, p);
    var b := Refresh(start, now, p);
    if b.coinDay < coin {
      CutHeadKeeps(b.(coinDay := 0), coin - b.coinDay, p);
    }
    PendingCoinsNonNegative(b.pending, b.updatedAt, p);
  }

  // ------------------------------------------- what an operation does to a queue

  /** From `b`, refreshed, to `w`: the matured coin-day pays first, and only what is
      left is taken from the queue, oldest entries first. */
  predicate Spent(b: Account, w: Account, coin: int) {
    && w.saving == b.saving - coin && w.updatedAt == b.updatedAt
    && if coin <= b.coinDay then w.coinDay == b.coinDay - coin && w.pending == b.pending
       else
         && w.coinDay == 0 && OldestCut(b.pending, w.pending)
         && PendingCoins(w.pending) == PendingCoins(b.pending) - Min(coin - b.coinDay, PendingCoins(b.pending))
  }

  /** From `b`, refreshed, to `w`: the queue pays first, newest entries first; if it
      runs empty all remaining saving becomes coin-day. */
  predicate Withdrawn(b: Account, w: Account, coin: int) {
    && w.saving == b.saving - coin && w.updatedAt == b.updatedAt
    && NewestCut(b.pending, w.pending)
    && PendingCoins(w.pending) == PendingCoins(b.pending) - Min(coin, PendingCoins(b.pending))
    && w.coinDay == if coin <= PendingCoins(b.pending) then b.coinDay else w.saving
  }

  /** From `b`, refreshed, to `w`: the coins become the newest entry, maturing from
      the bucket of this block on, unless the bucket has an entry already. */
  predicate Deposited(b: Account, w: Account, coin: int, p: Params) {
    && w.saving == b.saving + coin && w.updatedAt == b.updatedAt && w.coinDay == b.coinDay
    && w.pending == if b.pending != [] && b.pending[|b.pending| - 1].start == b.updatedAt then b.pending
                    else b.pending + [Pending(b.updatedAt, b.updatedAt + p.recover, coin)]
  }

  lemma RefreshWithLess(a: Account, saving: int, now: int, p: Params)
    requires Tracks(a, p) && a.updatedAt <= Slot(now)
    ensures var b := Refresh(a.(saving := a.saving + saving), now, p);
      && b == Refresh(a, now, p).(saving := a.saving + saving)
      && Tracks(b, p) && b.updatedAt == Slot(now) && Refresh(a, now, p).saving == a.saving
  {
    hide Tracks, Refresh, Slot;
    ParamsValid(a, p);
    RefreshShift(a, saving, 0, now, p);
    RefreshKeeps(a, now, p);
    TracksIgnoresCoinDay(a, a.(saving := a.saving + saving), p);
    RefreshKeeps(a.(saving := a.saving + saving), now, p);
  }

  lemma LighterPending(a: Account, b: Account, taken: int, p: Params)
    requires Tracks(a, p) && Tracks(b, p) && Lighter(a, b, taken)
    ensures PendingCoins(b.pending) == PendingCoins(a.pending) - taken
    ensures a.totalCoin == PendingCoins(a.pending) && 0 <= b.totalCoin
  {
    hide Tracks;
    TotalCoinIsPending(a, p);
    TotalCoinIsPending(b, p);
  }

  lemma SpendTakesOldest(a: Account, coin: nat, now: int, p: Params)
    requires Inv(a, p) && a.updatedAt <= Slot(now) && 0 < coin
    requires MinusSavingWithFullCoinDay(a, coin, now, p).Ok?
    ensures Spent(Refresh(a, now, p), MinusSavingWithFullCoinDay(a, coin, now, p).value, coin)
  {
    hide Tracks, Refresh, CutHead, Lighter, OldestCut, PendingCoins, Slot;
    ParamsValid(a, p);
    var less: int := 0 - coin;
    RefreshWithLess(a, less, now, p);
    var b := Refresh(a.(saving := a.saving + less), now, p);
    if b.coinDay < coin {
      var c := b.(coinDay := 0);
      TracksIgnoresCoinDay(b, c, p);
      CutHeadKeeps(c, coin - b.coinDay, p);
      CutHeadCutsOldest(c, coin - b.coinDay, p);
      LighterPending(c, CutHead(c, coin - b.coinDay, p), Min(coin - b.coinDay, c.totalCoin), p);
      LighterFields(c, CutHead(c, coin - b.coinDay, p), Min(coin - b.coinDay, c.totalCoin));
    }
  }

  lemma LighterFields(a: Account, b: Account, taken: int)
    requires Lighter(a, b, taken)
    ensures b.saving == a.saving && b.coinDay == a.coinDay && b.updatedAt == a.updatedAt && 0 <= taken
  {
  }

  lemma TailTaken(b: Account, coin: nat, p: Params)
    requires Tracks(b, p)
    ensures var (w, rest) := CutTail(b, coin, p);
      && PendingCoins(w.pending) == PendingCoins(b.pending) - Min(coin, PendingCoins(b.pending))
      && (rest > 0 <==> PendingCoins(b.pending) < coin) && 0 <= rest
      && w.saving == b.saving && w.coinDay == b.coinDay && w.updatedAt == b.updatedAt
  {
    hide Tracks, CutTail, Lighter, PendingCoins;
    ParamsValid(b, p);
    CutTailKeeps(b, coin, p);
    var (w, rest) := CutTail(b, coin, p);
    LighterPending(b, w, coin - rest, p);
    LighterFields(b, w, coin - rest);
    TotalCoinIsPending(w, p);
    NothingPending();
  }

  lemma NothingPending()
    ensures PendingCoins([]) == 0
  {
  }

  lemma WithdrawTakesNewest(a: Account, coin: nat, now: int, p: Params)
    requires Inv(a, p) && a.updatedAt <= Slot(now) && 0 < coin && MinusSaving(a, coin, now, p).Ok?
    ensures Withdrawn(Refresh(a, now, p), MinusSaving(a, coin, now, p).value, coin)
  {
    hide Tracks, Refresh, CutTail, NewestCut, PendingCoins, Slot;
    ParamsValid(a, p);
    var less: int := 0 - coin;
    RefreshWithLess(a, less, now, p);
    var b := Refresh(a.(saving := a.saving + less), now, p);
    TailTaken(b, coin, p);
    CutTailCutsNewest(b, coin, p);
  }

  lemma DepositBecomesNewest(a: Account, coin: nat, now: int, p: Params)
    requires Inv(a, p) && a.updatedAt <= Slot(now) && 0 < coin
    ensures Deposited(Refresh(a, now, p), AddSaving(a, coin, now, p), coin, p)
  {
    hide Tracks, Refresh, Slot;
    ParamsValid(a, p);
    RefreshWithLess(a, coin, now, p);
  }

  // -------------------------------------------------------------- whole runs

  datatype Op =
    | Deposit(coin: nat)
    | DepositFull(coin: nat)
    | Withdraw(coin: nat)
    | Spend(coin: nat)
    | Query

  datatype Timed = Timed(op: Op, at: int)

  /** A failed withdrawal leaves the account as it was. */
  function Step(a: Account, t: Timed, p: Params): Account
    requires p.Valid()
  {
    match t.op
    case Deposit(coin) => AddSaving(a, coin, t.at, p)
    case DepositFull(coin) => AddSavingWithFullCoinDay(a, coin)
    case Withdraw(coin) =>
      (match MinusSaving(a, coin, t.at, p) case Ok(b) => b case NotEnoughSaving => a)
    case Spend(coin) =>
      (match MinusSavingWithFullCoinDay(a, coin, t.at, p) case Ok(b) => b case NotEnoughSaving => a)
    case Query => Refresh(a, t.at, p)
  }

  const EMPTY := Account(0, 0, 0, 0.0, 0, [])

  function Run(history: seq<Timed>, p: Params): Account
    requires p.Valid()
  {
    if history == [] then EMPTY
    else Step(Run(history[..|history| - 1], p), history[|history| - 1], p)
  }

  /** Block times never decrease. */
  predicate Chronological(history: seq<Timed>) {
    && (forall i :: 0 <= i < |history| ==> 0 <= history[i].at)
    && (forall i, j :: 0 <= i < j < |history| ==> history[i].at <= history[j].at)
  }

  lemma SlotMonotone(s: int, t: int)
    requires s <= t
    ensures Slot(s) <= Slot(t)
  {
    assert s / RECORD_INTERVAL <= t / RECORD_INTERVAL;
  }

  lemma StepKeeps(a: Account, t: Timed, p: Params)
    requires Inv(a, p) && a.updatedAt <= Slot(t.at)
    ensures Inv(Step(a, t, p), p) && Step(a, t, p).updatedAt <= Slot(t.at)
  {
    hide Tracks, AddSaving, MinusSaving, MinusSavingWithFullCoinDay, Refresh, Slot;
    match t.op
    case Deposit(coin) => DepositKeeps(a, coin, t.at, p);
    case DepositFull(coin) => TracksIgnoresCoinDay(a, AddSavingWithFullCoinDay(a, coin), p);
    case Withdraw(coin) => WithdrawKeeps(a, coin, t.at, p);
    case Spend(coin) => SpendKeeps(a, coin, t.at, p);
    case Query => RefreshKeeps(a, t.at, p);
  }

  /** Every reachable account satisfies the invariant. */
  lemma {:induction false} RunKeepsInv(history: seq<Timed>, p: Params)
    requires p.Valid() && Chronological(history)
    ensures Inv(Run(history, p), p)
    ensures Run(history, p).updatedAt <= if history == [] then 0 else Slot(history[|history| - 1].at)
  {
    hide Inv, Step, Slot;
    EmptyInv(p);
    if history != [] {
      var n := |history| - 1;
      RunKeepsInv(history[..n], p);
      SlotMonotone(if n == 0 then 0 else history[n - 1].at, history[n].at);
      StepKeeps(Run(history[..n], p), history[n], p);
    }
  }

  lemma EmptyInv(p: Params)
    requires p.Valid()
    ensures Inv(EMPTY, p) && EMPTY.updatedAt == Slot(0)
  {
    NothingMatured(p);
  }

  lemma MaturedWithin(a: Account, p: Params)
    requires Tracks(a, p)
    ensures 0.0 <= a.totalCoinDay <= a.totalCoin as real
  {
    var m := Matured(a.pending, a.updatedAt);
    MaturedBounds(a.pending, a.updatedAt, p);
    QuotientWithin(m, a.totalCoin, p);
  }

  lemma QuotientWithin(w: int, coins: int, p: Params)
    requires p.Valid() && 0 <= w <= coins * p.recover
    ensures 0.0 <= CoinDays(w, p) <= coins as real
  {
    var r := p.recover as real;
    assert (coins * p.recover) as real / r == coins as real;
    assert coins as real - w as real / r == ((coins * p.recover) as real - w as real) / r;
  }

  /** In every reachable state and at any later time, the coin-day of an account
      is at least zero and at most its saving. */
  lemma CoinDayNeverExceedsSaving(history: seq<Timed>, now: int, p: Params)
    requires p.Valid() && Chronological(history + [Timed(Query, now)])
    ensures 0 <= CoinDayValue(Refresh(Run(history, p), now, p)) <= Run(history, p).saving
  {
    var full := history + [Timed(Query, now)];
    assert full[..|history|] == history;
    assert forall i :: 0 <= i < |history| ==> history[i] == full[i];
    RunKeepsInv(history, p);
    var before := if history == [] then 0 else full[|history| - 1].at;
    assert 0 <= before <= now by {
      assert full[|history|].at == now;
    }
    SlotMonotone(before, now);
    RefreshKeeps(Run(history, p), now, p);
    var a := Refresh(Run(history, p), now, p);
    MaturedWithin(a, p);
    RatToCoinBetween(0, a.totalCoinDay, a.totalCoin);
  }

  // --------------------------------------------------------- donated coin-day

  /** handleDonateMsg: coin-day before minus coin-day after the payment. */
  function SpendCoinDay(a: Account, coin: int, now: int, p: Params): Result<(Account, int)>
    requires p.Valid()
  {
    var before := Refresh(a, now, p);
    match MinusSavingWithFullCoinDay(before, coin, now, p)
    case NotEnoughSaving => NotEnoughSaving
    case Ok(paid) =>
      var after := Refresh(paid, now, p);
      Ok((after, CoinDayValue(before) - CoinDayValue(after)))
  }

  /** Refreshing twice at one time changes nothing. */
  lemma RefreshIdempotent(a: Account, now: int, p: Params)
    requires Tracks(a, p) && a.updatedAt == Slot(now)
    ensures Refresh(a, now, p) == a
  {
    NothingMatured(p);
    assert Share(0, a.totalCoin, p) == 0.0;
    assert Expire(a, Slot(now), p) == a;
  }

  /** A donation of `coin` consumes between zero and `coin` coin-day, whatever the
      roundings before and after. */
  lemma DonatedCoinDayWithinCoin(a: Account, coin: nat, now: int, p: Params)
    requires Inv(a, p) && a.updatedAt <= Slot(now)
    ensures var r := SpendCoinDay(a, coin, now, p);
      r.Ok? ==> 0 <= r.value.1 <= coin && Inv(r.value.0, p) && r.value.0.saving == a.saving - coin
  {
    hide Tracks, Refresh, CutHead, RatToCoin;
    ParamsValid(a, p);
    RefreshKeeps(a, now, p);
    var before := Refresh(a, now, p);
    SpendKeeps(before, coin, now, p);
    RefreshIdempotent(before, now, p);
    var r := MinusSavingWithFullCoinDay(before, coin, now, p);
    if r.Ok? {
      RefreshIdempotent(r.value, now, p);
      SpentWithinCoin(before, coin, now, p);
    }
  }

  lemma SpentWithinCoin(a: Account, coin: nat, now: int, p: Params)
    requires Inv(a, p) && a.updatedAt == Slot(now)
    requires MinusSavingWithFullCoinDay(a, coin, now, p).Ok?
    ensures 0 <= CoinDayValue(a) - CoinDayValue(MinusSavingWithFullCoinDay(a, coin, now, p).value) <= coin
  {
    hide Tracks, Refresh, CutHead, RatToCoin;
    ParamsValid(a, p);
    var start := a.(saving := a.saving - coin);
    TracksIgnoresCoinDay(a, start, p);
    RefreshIdempotent(start, now, p);
    if coin > a.coinDay {
      var b := start.(coinDay := 0);
      TracksIgnoresCoinDay(a, b, p);
      CutHeadKeeps(b, coin - a.coinDay, p);
      RatToCoinGap(CutHead(b, coin - a.coinDay, p).totalCoinDay, b.totalCoinDay, coin - a.coinDay);
    }
  }

  // --------------------------------------------- withdrawals that add coin-day

  /** The queue either covers the withdrawal or runs empty, in which case all
      remaining saving counts as coin-day. */
  lemma TailValue(s: Account, coin: nat, p: Params)
    requires Tracks(s, p)
    ensures var (cut, rest) := CutTail(s, coin, p);
      && 0 <= rest && (rest > 0 <==> s.totalCoin < coin)
      && (rest > 0 ==> CoinDayValue(cut.(coinDay := cut.saving)) == cut.saving)
      && (rest == 0 ==> CoinDayValue(s) - coin <= CoinDayValue(cut) <= CoinDayValue(s))
      && Tracks(cut, p) && cut.saving == s.saving && cut.updatedAt == s.updatedAt
  {
    hide Tracks, CutTail, RatToCoin;
    ParamsValid(s, p);
    CutTailKeeps(s, coin, p);
    var (cut, rest) := CutTail(s, coin, p);
    TotalCoinIsPending(cut, p);
    RatToCoinGap(cut.totalCoinDay, s.totalCoinDay, coin - rest);
    if rest > 0 {
      EmptyQueue(cut, p);
      RatToCoinOfInteger(0);
    }
  }

  /** The coin-day after a withdrawal: all saving once the queue ran empty, and
      otherwise no more than before, and less by at most the coins taken. */
  lemma WithdrawnValue(a: Account, coin: nat, now: int, p: Params)
    requires Inv(a, p) && a.updatedAt <= Slot(now) && 0 < coin
    requires MinusSaving(a, coin, now, p).Ok?
    ensures var b, w := Refresh(a, now, p), MinusSaving(a, coin, now, p).value;
      && (b.totalCoin < coin ==> CoinDayValue(w) == a.saving - coin)
      && (coin <= b.totalCoin ==> CoinDayValue(b) - coin <= CoinDayValue(w) <= CoinDayValue(b))
      && Tracks(w, p) && w.updatedAt == Slot(now)
  {
    hide Tracks, Refresh, CutTail, RatToCoin, Slot;
    ParamsValid(a, p);
    var taken: int := 0 - coin;
    RefreshShift(a, taken, 0, now, p);
    var start := a.(saving := a.saving - coin);
    TracksIgnoresCoinDay(a, start, p);
    RefreshKeeps(start, now, p);
    var s := Refresh(start, now, p);
    TailValue(s, coin, p);
    var (cut, rest) := CutTail(s, coin, p);
    TracksIgnoresCoinDay(cut, cut.(coinDay := cut.saving), p);
  }

  /** MinusSavingCoin sets CoinDay to Saving once the queue runs empty. A
      withdrawal therefore raises the coin-day exactly when it is larger than the
      queue and saving outside of coin-day and queue more than makes up for it. */
  lemma WithdrawRaisesIff(a: Account, coin: nat, now: int, p: Params)
    requires Inv(a, p) && a.updatedAt <= Slot(now) && 0 < coin
    requires MinusSaving(a, coin, now, p).Ok?
    ensures var b, w := Refresh(a, now, p), MinusSaving(a, coin, now, p).value;
      && Refresh(w, now, p) == w
      && (CoinDayValue(b) < CoinDayValue(w)
          <==> b.totalCoin < coin && coin + RatToCoin(b.totalCoinDay) < Untracked(b) + b.totalCoin)
  {
    hide Tracks, Refresh, MinusSaving, RatToCoin, Slot;
    ParamsValid(a, p);
    WithdrawnValue(a, coin, now, p);
    RefreshKeeps(a, now, p);
    RefreshIdempotent(MinusSaving(a, coin, now, p).value, now, p);
  }

  /** As long as no saving is outside, no withdrawal raises the coin-day. */
  lemma TrackedWithdrawNeverRaises(a: Account, coin: nat, now: int, p: Params)
    requires Inv(a, p) && a.updatedAt <= Slot(now) && 0 < coin && Untracked(a) == 0
    requires MinusSaving(a, coin, now, p).Ok?
    ensures CoinDayValue(MinusSaving(a, coin, now, p).value) <= CoinDayValue(Refresh(a, now, p))
  {
    hide Tracks, Refresh, MinusSaving, RatToCoin;
    ParamsValid(a, p);
    WithdrawRaisesIff(a, coin, now, p);
    RefreshKeeps(a, now, p);
    var b := Refresh(a, now, p);
    MaturedWithin(b, p);
    RatToCoinBetween(0, b.totalCoinDay, b.totalCoin);
  }

  /** 50 coins tracked and 50 lost: taking out 60 turns the other 40 into coin-day. */
  lemma WithdrawalRaisesCoinDay(p: Params)
    requires p.Valid() && p.minBalance <= 40
    ensures var a := Run([Timed(Deposit(50), 1), Timed(Deposit(50), 2)], p);
      var r := MinusSaving(a, 60, 3, p);
      CoinDayValue(Refresh(a, 3, p)) == 0 && r.Ok? && CoinDayValue(r.value) == 40
  {
    hide Run, MinusSaving, RatToCoin, Refresh;
    TwoDepositsInBucket(50, p);
    var a := Run([Timed(Deposit(50), 1), Timed(Deposit(50), 2)], p);
    LoneEntryTracks(a, 50, p);
    assert Slot(3) == 0;
    RefreshIdempotent(a, 3, p);
    RatToCoinOfInteger(0);
    EnoughSaving(a, 60, 3, p);
    WithdrawnValue(a, 60, 3, p);
  }

  lemma LoneEntryTracks(a: Account, coin: nat, p: Params)
    requires p.Valid() && 0 < coin && a.updatedAt == 0 && a.totalCoinDay == 0.0
    requires a.totalCoin == coin && a.pending == [Pending(0, p.recover, coin)]
    ensures Tracks(a, p)
  {
    NothingMatured(p);
    OnePending(0, p.recover, coin);
  }

  lemma EnoughSaving(a: Account, coin: nat, now: int, p: Params)
    requires p.Valid() && p.minBalance <= a.saving - coin
    ensures MinusSaving(a, coin, now, p).Ok?
  {
    hide Refresh, CutTail;
  }

  // ------------------------------------------------- deposits the queue loses

  /** Saving that is neither matured nor pending. */
  function Untracked(a: Account): int {
    a.saving - a.coinDay - a.totalCoin
  }

  /** Saving and coin-day more by fixed amounts. */
  function Shifted(a: Account, saving: int, coinDay: int): Account {
    a.(saving := a.saving + saving, coinDay := a.coinDay + coinDay)
  }

  lemma PopShift(a: Account, saving: int, coinDay: int, p: Params)
    requires p.Valid() && a.pending != []
    ensures Pop(Shifted(a, saving, coinDay), p) == Shifted(Pop(a, p), saving, coinDay)
  {
    hide Share, CutPending;
  }

  lemma {:induction false} ExpireShift(a: Account, saving: int, coinDay: int, slot: int, p: Params)
    requires p.Valid()
    ensures Expire(Shifted(a, saving, coinDay), slot, p) == Shifted(Expire(a, slot, p), saving, coinDay)
    decreases |a.pending|
  {
    hide Pop;
    if a.pending != [] && a.pending[0].end <= slot {
      PopShift(a, saving, coinDay, p);
      ExpireShift(Pop(a, p), saving, coinDay, slot, p);
    }
  }

  /** A refresh does not look at what has matured already. */
  lemma RefreshShift(a: Account, saving: int, coinDay: int, now: int, p: Params)
    requires p.Valid()
    ensures Refresh(Shifted(a, saving, coinDay), now, p) == Shifted(Refresh(a, now, p), saving, coinDay)
  {
    hide Expire, Share, Slot;
    ExpireShift(a, saving, coinDay, Slot(now), p);
  }

  /** A deposit enters the queue exactly when the newest pending entry belongs to
      another bucket; otherwise its coins raise the saving alone. */
  lemma DepositTrackedIff(a: Account, coin: nat, now: int, p: Params)
    requires Inv(a, p) && a.updatedAt <= Slot(now) && 0 < coin
    ensures Untracked(AddSaving(a, coin, now, p)) == Untracked(a)
       <==> !SameBucket(Refresh(a, now, p), now)
    ensures SameBucket(Refresh(a, now, p), now)
        ==> Untracked(AddSaving(a, coin, now, p)) == Untracked(a) + coin
  {
    hide Tracks, Refresh, Slot;
    ParamsValid(a, p);
    RefreshKeeps(a, now, p);
    RefreshShift(a, coin, 0, now, p);
  }

  /** A deposit with full coin-day counts at once: at any time the coin-day is
      higher by just its coins. */
  lemma FullDepositCountsAtOnce(a: Account, coin: int, now: int, p: Params)
    requires p.Valid()
    ensures var b := AddSavingWithFullCoinDay(a, coin);
      && CoinDayValue(Refresh(b, now, p)) == CoinDayValue(Refresh(a, now, p)) + coin
      && Untracked(b) == Untracked(a)
  {
    hide Refresh, RatToCoin;
    RefreshShift(a, coin, coin, now, p);
  }

  /** Two deposits in the bucket of the first block. */
  lemma TwoDepositsInBucket(coin: nat, p: Params)
    requires p.Valid() && 0 < coin
    ensures Run([Timed(Deposit(coin), 1), Timed(Deposit(coin), 2)], p)
         == Account(2 * coin, 0, 0, 0.0, coin, [Pending(0, p.recover, coin)])
  {
    var once := [Timed(Deposit(coin), 1)];
    var twice := once + [Timed(Deposit(coin), 2)];
    assert twice == [Timed(Deposit(coin), 1), Timed(Deposit(coin), 2)];
    assert twice[..|twice| - 1] == once && once[..|once| - 1] == [];
    NothingMatured(p);
    var a := AddSaving(EMPTY, coin, 1, p);
    assert a == Account(coin, 0, 0, 0.0, coin, [Pending(0, p.recover, coin)]);
    assert Run(once, p) == Step(EMPTY, once[0], p) == a;
    assert Expire(a.(saving := 2 * coin), 0, p) == a.(saving := 2 * coin);
    assert Share(0, coin, p) == 0.0;
  }

  /** Two deposits of one coin in one bucket: the second one is lost. */
  lemma SecondDepositInBucketIsLost(p: Params)
    requires p.Valid()
    ensures var a := Run([Timed(Deposit(1), 1), Timed(Deposit(1), 2)], p);
      a.saving == 2 && a.coinDay + a.totalCoin == 1
  {
    hide Run;
    TwoDepositsInBucket(1, p);
  }

  // ------------------------------------------------------------ the manager

  /** One user's records, updated in place as the account manager does. Block
      times never decrease, so no call is earlier than the last refresh. */
  class AccountRecord {
    const params: Params
    var saving: int
    var coinDay: int
    var updatedAt: int
    var totalCoinDay: real
    var totalCoin: int
    var pending: seq<Pending>

    ghost predicate Valid()
      reads this
    {
      Inv(State(), params)
    }

    ghost function State(): Account
      reads this
    {
      Account(saving, coinDay, updatedAt, totalCoinDay, totalCoin, pending)
    }

    constructor (params: Params)
      requires params.Valid()
      ensures Valid() && this.params == params && State() == EMPTY
    {
      this.params := params;
      saving, coinDay, updatedAt, totalCoinDay, totalCoin, pending := 0, 0, 0, 0.0, 0, [];
      new;
      EmptyInv(params);
    }

    method UpdateTXFromPendingCoinDayQueue(now: int)
      requires Tracks(State(), params) && updatedAt <= Slot(now)
      modifies this
      ensures State() == Refresh(old(State()), now, params)
      ensures Tracks(State(), params) && updatedAt == Slot(now) && saving == old(saving)
    {
      hide Share, Tracks, Pop;
      ParamsValid(State(), params);
      RefreshKeeps(State(), now, params);
      var slot := Slot(now);
      while |pending| > 0
        invariant Expire(State(), slot, params) == Expire(old(State()), slot, params)
        decreases |pending|
      {
        var head := pending[0];
        if head.end > slot {
          break;
        }
        PopExactly(State(), params);
        totalCoinDay := totalCoinDay - Share(updatedAt - head.start, head.coin, params);
        coinDay := coinDay + head.coin;
        totalCoin := totalCoin - head.coin;
        pending := pending[1..];
      }
      if |pending| == 0 {
        totalCoin, totalCoinDay := 0, 0.0;
      } else {
        totalCoinDay := totalCoinDay + Share(slot - updatedAt, totalCoin, params);
      }
      updatedAt := slot;
    }

    method AddSavingCoin(coin: nat, now: int)
      requires Valid() && updatedAt <= Slot(now)
      modifies this
      ensures State() == AddSaving(old(State()), coin, now, params)
      ensures Valid() && updatedAt <= Slot(now) && saving == old(saving) + coin
      ensures 0 < coin ==> Deposited(Refresh(old(State()), now, params), State(), coin, params)
    {
      hide Tracks, Refresh, Slot, Deposited;
      ParamsValid(State(), params);
      DepositKeeps(State(), coin, now, params);
      if coin == 0 {
        return;
      }
      DepositBecomesNewest(State(), coin, now, params);
      TracksIgnoresCoinDay(State(), State().(saving := saving + coin), params);
      saving := saving + coin;
      UpdateTXFromPendingCoinDayQueue(now);
      var start := Slot(now);
      if |pending| > 0 && pending[|pending| - 1].start == start {
        var dropped := pending[|pending| - 1].coin + coin;
      } else {
        pending := pending + [Pending(start, start + params.recover, coin)];
        totalCoin := totalCoin + coin;
      }
    }

    /** Matured at once: whenever it is read, the coin-day is higher by `coin`. */
    method AddSavingCoinWithFullCoinDay(coin: nat)
      requires Valid()
      modifies this
      ensures Valid() && updatedAt == old(updatedAt) && pending == old(pending) && saving == old(saving) + coin
      ensures forall now :: CoinDayValue(Refresh(State(), now, params))
                         == CoinDayValue(Refresh(old(State()), now, params)) + coin
    {
      hide Tracks, Refresh;
      ghost var before := State();
      ParamsValid(before, params);
      saving := saving + coin;
      coinDay := coinDay + coin;
      TracksIgnoresCoinDay(before, State(), params);
      forall now
        ensures CoinDayValue(Refresh(State(), now, params)) == CoinDayValue(Refresh(before, now, params)) + coin
      {
        FullDepositCountsAtOnce(before, coin, now, params);
      }
    }

    method MinusSavingCoin(amount: nat, now: int) returns (ok: bool)
      requires Valid() && updatedAt <= Slot(now)
      modifies this
      ensures ok == (params.minBalance <= old(saving) - amount)
      ensures var r := MinusSaving(old(State()), amount, now, params);
        ok == r.Ok? && State() == if ok then r.value else old(State())
      ensures Valid() && updatedAt <= Slot(now) && saving == old(saving) - if ok then amount else 0
      ensures ok && 0 < amount ==> Withdrawn(Refresh(old(State()), now, params), State(), amount)
    {
      hide Tracks, Refresh, CutTail, Slot, Withdrawn;
      ParamsValid(State(), params);
      WithdrawKeeps(State(), amount, now, params);
      if 0 < amount && MinusSaving(State(), amount, now, params).Ok? {
        WithdrawTakesNewest(State(), amount, now, params);
      }
      if saving - amount < params.minBalance {
        return false;
      }
      if amount == 0 {
        return true;
      }
      TracksIgnoresCoinDay(State(), State().(saving := saving - amount), params);
      saving := saving - amount;
      UpdateTXFromPendingCoinDayQueue(now);
      var rest := TakeFromTail(amount);
      if rest > 0 {
        coinDay := saving;
      }
      return true;
    }

    /** The loop of MinusSavingCoin. */
    method TakeFromTail(amount: nat) returns (coin: int)
      requires params.Valid()
      modifies this
      ensures (State(), coin) == CutTail(old(State()), amount, params)
    {
      hide Share, CutTail, CutWhole;
      coin := amount;
      while |pending| > 0
        invariant CutTail(State(), coin, params) == CutTail(old(State()), amount, params)
        decreases |pending|
      {
        var last := |pending| - 1;
        var start := pending[last].start;
        ghost var before := State();
        CutTailUnfold(before, coin, params);
        if coin >= pending[last].coin {
          CutWholeExactly(before, last, params);
          coin := coin - pending[last].coin;
          totalCoinDay := totalCoinDay - Share(updatedAt - start, pending[last].coin, params);
          totalCoin := totalCoin - pending[last].coin;
          pending := pending[..last];
        } else {
          totalCoinDay := totalCoinDay - Share(updatedAt - start, coin, params);
          totalCoin := totalCoin - coin;
          pending := pending[last := pending[last].(coin := pending[last].coin - coin)];
          return 0;
        }
      }
      NothingToCut(State(), coin, params);
    }

    method MinusSavingCoinWithFullCoinDay(amount: nat, now: int) returns (ok: bool)
      requires Valid() && updatedAt <= Slot(now)
      modifies this
      ensures ok == (amount == 0 || params.minBalance <= old(saving) - amount)
      ensures var r := MinusSavingWithFullCoinDay(old(State()), amount, now, params);
        ok == r.Ok? && State() == if ok then r.value else old(State())
      ensures Valid() && updatedAt <= Slot(now) && saving == old(saving) - if ok then amount else 0
      ensures ok && 0 < amount ==> Spent(Refresh(old(State()), now, params), State(), amount)
    {
      hide Tracks, Refresh, CutHead, Slot, Spent;
      ParamsValid(State(), params);
      SpendKeeps(State(), amount, now, params);
      if 0 < amount && MinusSavingWithFullCoinDay(State(), amount, now, params).Ok? {
        SpendTakesOldest(State(), amount, now, params);
      }
      if amount == 0 {
        return true;
      }
      if saving - amount < params.minBalance {
        return false;
      }
      TracksIgnoresCoinDay(State(), State().(saving := saving - amount), params);
      saving := saving - amount;
      UpdateTXFromPendingCoinDayQueue(now);
      if coinDay >= amount {
        coinDay := coinDay - amount;
        return true;
      }
      var coin := amount - coinDay;
      coinDay := 0;
      TakeFromHead(coin);
      return true;
    }

    /** The loop of MinusSavingCoinWithFullCoinDay. */
    method TakeFromHead(amount: int)
      requires params.Valid()
      modifies this
      ensures State() == CutHead(old(State()), amount, params)
    {
      hide Share, CutHead, CutWhole;
      var coin := amount;
      while |pending| > 0
        invariant CutHead(State(), coin, params) == CutHead(old(State()), amount, params)
        decreases |pending|
      {
        var head := pending[0];
        ghost var before := State();
        CutHeadUnfold(before, coin, params);
        if coin >= head.coin {
          CutWholeExactly(before, 0, params);
          coin := coin - head.coin;
          totalCoinDay := totalCoinDay - Share(updatedAt - head.start, head.coin, params);
          totalCoin := totalCoin - head.coin;
          pending := pending[1..];
        } else {
          totalCoinDay := totalCoinDay - Share(updatedAt - head.start, coin, params);
          totalCoin := totalCoin - coin;
          pending := pending[0 := head.(coin := head.coin - coin)];
          return;
        }
      }
      NothingToCut(State(), coin, params);
    }

    method GetCoinDay(now: int) returns (value: int)
      requires Valid() && updatedAt <= Slot(now)
      modifies this
      ensures State() == Refresh(old(State()), now, params) && value == CoinDayValue(State())
      ensures Valid() && updatedAt == Slot(now) && saving == old(saving)
      ensures 0 <= value <= saving
    {
      hide Tracks, Refresh, RatToCoin, Slot;
      RefreshKeeps(State(), now, params);
      UpdateTXFromPendingCoinDayQueue(now);
      MaturedWithin(State(), params);
      RatToCoinBetween(0, totalCoinDay, totalCoin);
      value := coinDay + RatToCoin(totalCoinDay);
    }

    /** The coin-day part of handleDonateMsg; a failed payment is rolled back by
        the caller, here `ok == false` leaves only the refresh. */
    method Donate(coin: nat, now: int) returns (ok: bool, consumed: int)
      requires Valid() && updatedAt <= Slot(now)
      modifies this
      ensures ok == (coin == 0 || params.minBalance <= old(saving) - coin)
      ensures var r := SpendCoinDay(old(State()), coin, now, params);
        && ok == r.Ok?
        && (ok ==> State() == r.value.0 && consumed == r.value.1)
        && (!ok ==> State() == Refresh(old(State()), now, params))
      ensures Valid() && updatedAt == Slot(now) && 0 <= consumed <= coin
    {
      hide Tracks, Refresh, RatToCoin, MinusSavingWithFullCoinDay, CoinDayValue, Slot;
      ParamsValid(State(), params);
      DonatedCoinDayWithinCoin(State(), coin, now, params);
      var before := GetCoinDay(now);
      ok := MinusSavingCoinWithFullCoinDay(coin, now);
      consumed := 0;
      if ok {
        var after := GetCoinDay(now);
        consumed := before - after;
      }
    }
  }

  /** One removal as the loops above write it. */
  lemma CutWholeExactly(a: Account, i: nat, p: Params)
    requires p.Valid() && i < |a.pending|
    ensures var e := a.pending[i];
      CutWhole(a, i, p) == a.(totalCoinDay := a.totalCoinDay - Share(a.updatedAt - e.start, e.coin, p),
                              totalCoin := a.totalCoin - e.coin, pending := a.pending[..i] + a.pending[i + 1..])
    ensures i == 0 ==> a.pending[..i] + a.pending[i + 1..] == a.pending[1..]
    ensures i == |a.pending| - 1 ==> a.pending[..i] + a.pending[i + 1..] == a.pending[..i]
  {
    hide Share;
  }

  lemma PopExactly(a: Account, p: Params)
    requires p.Valid() && a.pending != []
    ensures var e := a.pending[0];
      Pop(a, p) == a.(coinDay := a.coinDay + e.coin, totalCoin := a.totalCoin - e.coin, pending := a.pending[1..],
                      totalCoinDay := a.totalCoinDay - Share(a.updatedAt - e.start, e.coin, p))
  {
    hide Share, CutWhole;
    CutWholeExactly(a, 0, p);
  }
}

/** Splitting an amount into instalments: x/account/event.go (coin returns) and
    app/app.go (validator inflation). */
module CoinReturn {
  import opened Coins
  import opened Sums

  type Name = string

  datatype ReturnCoinEvent = ReturnCoinEvent(username: Name, amount: int, returnType: int)

  /** Rounded to seven decimals first, then to a coin. */
  function Piece(rest: int, left: int): int
    requires 0 < left
  {
    RatToCoin(Round(rest as real / left as real))
  }

  /** `rest` can be cut into `left` pieces that are each `q` or `q + 1`. */
  predicate Even(q: int, rest: int, left: int) {
    q * left <= rest <= (q + 1) * left
  }

  predicate Exact(q: int, rest: int, left: int) {
    rest == q * left
  }

  lemma FloorIsEven(amount: int, n: int)
    requires 0 < n
    ensures Even(amount / n, amount, n)
    ensures amount % n == 0 ==> Exact(amount / n, amount, n)
  {
  }

  /** Neither rounding step leaves [q, q + 1], so cutting off one piece keeps the
      remainder evenly divisible; the last piece is the whole remainder. */
  lemma PieceKeepsEven(q: int, rest: int, left: int)
    requires 0 < left && Even(q, rest, left)
    ensures Piece(rest, left) == q || Piece(rest, left) == q + 1
    ensures Even(q, rest - Piece(rest, left), left - 1)
    ensures Exact(q, rest, left) ==> Piece(rest, left) == q && Exact(q, rest - Piece(rest, left), left - 1)
    ensures left == 1 ==> Piece(rest, left) == rest
  {
    var x := rest as real / left as real;
    assert x * left as real == rest as real;
    DivideBounds(q, rest, left);
    RoundBetween(q, x, q + 1);
    RatToCoinBetween(q, Round(x), q + 1);
    if rest == q * left || rest == (q + 1) * left {
      RatToCoinOfInteger(if rest == q * left then q else q + 1);
    }
  }

  lemma DivideBounds(q: int, rest: int, left: int)
    requires 0 < left && Even(q, rest, left)
    ensures q as real <= rest as real / left as real <= (q + 1) as real
    ensures rest == q * left <==> rest as real / left as real == q as real
    ensures rest == (q + 1) * left <==> rest as real / left as real == (q + 1) as real
  {
    var n := left as real;
    var x := rest as real / n;
    assert x * n == rest as real;
    SignOfProduct(x - q as real, n);
    SignOfProduct((q + 1) as real - x, n);
  }

  lemma SignOfProduct(a: real, n: real)
    requires 0.0 < n
    ensures 0.0 <= a * n <==> 0.0 <= a
    ensures a * n == 0.0 <==> a == 0.0
  {
  }

  /** One step of either loop below. */
  method CutPiece(rest: int, left: int, ghost q: int) returns (piece: int, rest': int)
    requires 0 < left && Even(q, rest, left)
    ensures piece == Piece(rest, left) && rest' == rest - piece
    ensures q <= piece <= q + 1 && Even(q, rest', left - 1)
    ensures Exact(q, rest, left) ==> piece == q && Exact(q, rest', left - 1)
    ensures left == 1 ==> rest' == 0
  {
    PieceKeepsEven(q, rest, left);
    piece := RatToCoin(Round(rest as real / left as real));
    rest' := rest - piece;
  }

  function Amounts(events: seq<ReturnCoinEvent>): seq<int> {
    seq(|events|, i requires 0 <= i < |events| => events[i].amount)
  }

  /** For `times` at least one the pieces add up to the coin exactly, and each is
      the floor or the ceiling of `coin / times`. */
  method CreateCoinReturnEvents(username: Name, times: int, coin: int, returnType: int)
    returns (events: seq<ReturnCoinEvent>)
    ensures |events| == if times <= 0 then 0 else times
    ensures 0 < times ==> SeqSum(Amounts(events)) == coin
    ensures forall i :: 0 <= i < |events| ==>
      && events[i].username == username && events[i].returnType == returnType
      && coin / times <= events[i].amount
      && events[i].amount <= if coin % times == 0 then coin / times else coin / times + 1
  {
    events := [];
    var rest := coin;
    ghost var q := if 0 < times then coin / times else 0;
    ghost var even := 0 < times && coin % times == 0;
    if 0 < times {
      FloorIsEven(coin, times);
    }
    var i := 0;
    while i < times
      invariant 0 <= i <= if times <= 0 then 0 else times
      invariant |events| == i
      invariant 0 < times ==> Even(q, rest, times - i) && (i == times ==> rest == 0)
      invariant even ==> Exact(q, rest, times - i)
      invariant SeqSum(Amounts(events)) + rest == coin
      invariant forall j :: 0 <= j < i ==>
        && events[j].username == username && events[j].returnType == returnType
        && q <= events[j].amount <= if even then q else q + 1
    {
      var piece;
      piece, rest := CutPiece(rest, times - i, q);
      ghost var before := events;
      events := events + [ReturnCoinEvent(username, piece, returnType)];
      assert Amounts(events) == Amounts(before) + [piece];
      i := i + 1;
    }
  }

  /** Hourly validator inflation over the on-call list, paid into `saving`.
      Every listed account receives the floor or the ceiling of an even share; a
      failed credit (no such account) is ignored by the caller and its piece is
      `lost`. Apart from that nothing of the pool is lost or created. */
  method DistributeInflationToValidator(oncall: seq<Name>, pool: int, saving: map<Name, int>)
    returns (paid: map<Name, int>, left: int, lost: int)
    requires forall i, j :: 0 <= i < j < |oncall| ==> oncall[i] != oncall[j]
    ensures paid.Keys == saving.Keys
    ensures left == if oncall == [] then pool else 0
    ensures Total(paid) + left + lost == Total(saving) + pool
    ensures (forall v :: v in oncall ==> v in saving) ==> lost == 0
    ensures forall v :: v in saving && v !in oncall ==> paid[v] == saving[v]
    ensures forall v :: v in saving && v in oncall ==>
      pool / |oncall| <= paid[v] - saving[v] <= if pool % |oncall| == 0 then pool / |oncall| else pool / |oncall| + 1
  {
    hide Even, Exact, Total;
    paid, left, lost := saving, pool, 0;
    ghost var q := if oncall == [] then 0 else pool / |oncall|;
    ghost var even := oncall != [] && pool % |oncall| == 0;
    if oncall != [] {
      FloorIsEven(pool, |oncall|);
    }
    ghost var done: set<Name> := {};
    for i := 0 to |oncall|
      invariant paid.Keys == saving.Keys
      invariant oncall != [] ==> Even(q, left, |oncall| - i)
      invariant even ==> Exact(q, left, |oncall| - i)
      invariant i == |oncall| ==> left == if oncall == [] then pool else 0
      invariant Total(paid) + left + lost == Total(saving) + pool
      invariant (forall v :: v in oncall ==> v in saving) ==> lost == 0
      invariant forall v :: v in done ==> v in oncall
      invariant forall j :: 0 <= j < |oncall| ==> (oncall[j] in done <==> j < i)
      invariant forall v :: v in saving ==>
        if v in done then q <= paid[v] - saving[v] <= (if even then q else q + 1) else paid[v] == saving[v]
    {
      var v := oncall[i];
      var piece;
      piece, left := CutPiece(left, |oncall| - i, q);
      if v in paid {
        TotalUpdate(paid, v, paid[v] + piece);
        paid := paid[v := paid[v] + piece];
      } else {
        lost := lost + piece;
      }
      done := done + {v};
    }
  }
}

/** The price of keys in the reputation game
    (x/reputation/internal/reputation.go, numKeysCanBuy and buyKey). The first
    key of a post costs KEY_PRICE_C, every further one costs one more. */
module KeySale {
  import opened Sums

  const KEY_PRICE_C := 1000
  const MAX_NUM_KEYS_EACH_TIME := 10000000000
  const ONE_LINO_COIN := 100000

  /** The price of the next `k` keys, when `sold` are already sold. */
  ghost function Cost(sold: int, k: nat): int {
    if k == 0 then 0 else Cost(sold, k - 1) + KEY_PRICE_C + sold + k - 1
  }

  /** Buying keys one at a time, at most `cap` of them. */
  ghost function OneByOne(sold: nat, stake: int, cap: nat): nat
    decreases cap
  {
    if cap == 0 || stake < KEY_PRICE_C + sold then 0
    else 1 + OneByOne(sold + 1, stake - KEY_PRICE_C - sold, cap - 1)
  }

  /** What one purchase yields. */
  ghost function KeysFor(sold: nat, stake: int): nat {
    OneByOne(sold, stake, MAX_NUM_KEYS_EACH_TIME + 1)
  }

  lemma {:induction false} CostClosedForm(sold: int, k: nat)
    ensures 2 * Cost(sold, k) == k * (2 * (KEY_PRICE_C + sold) + k - 1)
  {
    if k > 0 {
      CostClosedForm(sold, k - 1);
      var c := 2 * (KEY_PRICE_C + sold);
      assert k * (c + k - 1) == (k - 1) * (c + k - 2) + c + 2 * (k - 1);
    }
  }

  lemma {:induction false} CostConcat(sold: int, j: nat, k: nat)
    ensures Cost(sold, j + k) == Cost(sold, j) + Cost(sold + j, k)
  {
    if k > 0 {
      CostConcat(sold, j, k - 1);
    }
  }

  lemma {:induction false} CostIncreases(sold: nat, j: nat, k: nat)
    requires j < k
    ensures Cost(sold, j) < Cost(sold, k)
  {
    if j < k - 1 {
      CostIncreases(sold, j, k - 1);
    }
  }

  /** `k` keys are affordable and no more are, unless the cap is reached. */
  ghost predicate Largest(sold: nat, stake: int, cap: nat, k: nat) {
    && k <= cap
    && (k == 0 || Cost(sold, k) <= stake)
    && (k == cap || stake < Cost(sold, k + 1))
  }

  lemma {:induction false} OneByOneIsLargest(sold: nat, stake: int, cap: nat)
    ensures Largest(sold, stake, cap, OneByOne(sold, stake, cap))
    decreases cap
  {
    if cap == 0 || stake < KEY_PRICE_C + sold {
      assert Cost(sold, 1) == Cost(sold, 0) + KEY_PRICE_C + sold;
    } else {
      var rest := stake - KEY_PRICE_C - sold;
      OneByOneIsLargest(sold + 1, rest, cap - 1);
      var k := OneByOne(sold + 1, rest, cap - 1);
      assert Cost(sold, 1) == Cost(sold, 0) + KEY_PRICE_C + sold;
      CostConcat(sold, 1, k);
      CostConcat(sold, 1, k + 1);
    }
  }

  lemma LargestIsUnique(sold: nat, stake: int, cap: nat, j: nat, k: nat)
    requires Largest(sold, stake, cap, j) && Largest(sold, stake, cap, k)
    ensures j == k
  {
    if j < k {
      if j + 1 < k {
        CostIncreases(sold, j + 1, k);
      }
    } else if k < j {
      if k + 1 < j {
        CostIncreases(sold, k + 1, j);
      }
    }
  }

  /** The binary search returns what buying key by key would yield. */
  method NumKeysCanBuy(sold: nat, stake: int) returns (k: nat)
    ensures k == KeysFor(sold, stake)
    ensures Largest(sold, stake, MAX_NUM_KEYS_EACH_TIME + 1, k)
  {
    ghost var cap := MAX_NUM_KEYS_EACH_TIME + 1;
    var price := KEY_PRICE_C + sold;
    OneByOneIsLargest(sold, stake, cap);
    assert Cost(sold, 1) == Cost(sold, 0) + price;
    if stake < price {
      return 0;
    }
    var begin, end := 0, MAX_NUM_KEYS_EACH_TIME + 1;
    var common := [ONE_LINO_COIN, 100 * ONE_LINO_COIN, 10000 * ONE_LINO_COIN];
    for i := 0 to |common|
      invariant begin == if i == 0 then 0 else common[i - 1]
      invariant end == MAX_NUM_KEYS_EACH_TIME + 1
      invariant Cost(sold, begin + 1) <= stake
    {
      CostClosedForm(sold, common[i] + 1);
      if (common[i] + 1) * (2 * price + common[i]) > 2 * stake {
        end := common[i];
        break;
      }
      begin := common[i];
    }
    while begin + 1 < end
      invariant 0 <= begin < end <= cap
      invariant Cost(sold, begin + 1) <= stake
      invariant end == cap || stake < Cost(sold, end + 1)
    {
      var mid := (begin + end) / 2;
      CostClosedForm(sold, mid + 1);
      if (mid + 1) * (2 * price + mid) <= 2 * stake {
        begin := mid;
      } else {
        end := mid;
      }
    }
    k := begin + 1;
    LargestIsUnique(sold, stake, cap, k, KeysFor(sold, stake));
  }

  /** Consecutive purchases with the given stakes. */
  ghost function KeysForAll(sold: nat, stakes: seq<nat>): nat {
    if stakes == [] then 0
    else
      var before := KeysForAll(sold, stakes[..|stakes| - 1]);
      before + KeysFor(sold + before, stakes[|stakes| - 1])
  }

  lemma {:induction false} PurchasesArePaid(sold: nat, stakes: seq<nat>)
    ensures Cost(sold, KeysForAll(sold, stakes)) <= SeqSum(stakes)
  {
    if stakes != [] {
      var n := |stakes| - 1;
      PurchasesArePaid(sold, stakes[..n]);
      var before := KeysForAll(sold, stakes[..n]);
      OneByOneIsLargest(sold + before, stakes[n], MAX_NUM_KEYS_EACH_TIME + 1);
      CostConcat(sold, before, KeysFor(sold + before, stakes[n]));
    }
  }

  /** Splitting a stake never pays: as long as one purchase may hold that many
      keys, it yields at least as many. */
  lemma SplittingNeverPays(sold: nat, stakes: seq<nat>)
    requires KeysForAll(sold, stakes) <= MAX_NUM_KEYS_EACH_TIME + 1
    ensures KeysForAll(sold, stakes) <= KeysFor(sold, SeqSum(stakes))
  {
    PurchasesArePaid(sold, stakes);
    var k := KeysFor(sold, SeqSum(stakes));
    OneByOneIsLargest(sold, SeqSum(stakes), MAX_NUM_KEYS_EACH_TIME + 1);
    if k + 1 < KeysForAll(sold, stakes) {
      CostIncreases(sold, k + 1, KeysForAll(sold, stakes));
    }
  }
}

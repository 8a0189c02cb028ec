/** The array-based market script: two arrays of reals (buyers' willingness to pay,
    sellers' minimum prices) that are shuffled in place every step, paired positionally,
    traded where the buyer's value reaches the seller's, and moved 5% of the way toward the
    step's mean clearing price. A history of one market price per step is kept. */
module ArrayMarket {
  import opened Stats

  /** Fraction of the gap to the mean price that every value closes after a trading step. */
  const ADJUST_RATE: real := 0.05
  /** History entry used when the very first step has no trade. */
  const DEFAULT_PRICE: real := 100.0

  // ---------------------------------------------------------------------------
  // Shuffling: an in-place pass of swaps, position n-1 down to 1, where position i
  // is swapped with a drawn index js[i] in [0, i]. The draws are inputs.
  // ---------------------------------------------------------------------------

  predicate ValidSwaps(n: nat, js: seq<nat>)
  {
    |js| == n && forall i :: 0 <= i < n ==> js[i] <= i
  }

  /** Number of swaps a shuffle of n elements performs. */
  function SwapCount(n: nat): nat
  {
    if n == 0 then 0 else n - 1
  }

  /** Exchange of two positions. */
  function Swap<T>(s: seq<T>, i: nat, j: nat): (r: seq<T>)
    requires i < |s| && j < |s|
    ensures |r| == |s| && r[i] == s[j] && r[j] == s[i]
  {
    seq(|s|, k requires 0 <= k < |s| => if k == i then s[j] else if k == j then s[i] else s[k])
  }

  /** The sequence after the first k swaps of the shuffle (positions n-1 down to n-k): a
      permutation of the input. */
  function ShufflePrefix<T>(s: seq<T>, js: seq<nat>, k: nat): (r: seq<T>)
    requires ValidSwaps(|s|, js) && k <= SwapCount(|s|)
    ensures |r| == |s|
    ensures multiset(r) == multiset(s)
  {
    if k == 0 then s
    else
      var p, i := ShufflePrefix(s, js, k - 1), |s| - k;
      SwapPermutes(p, i, js[i]);
      Swap(p, i, js[i])
  }

  /** The whole shuffle: a permutation of the input. */
  function Shuffled<T>(s: seq<T>, js: seq<nat>): (r: seq<T>)
    requires ValidSwaps(|s|, js)
    ensures |r| == |s|
    ensures multiset(r) == multiset(s)
  {
    ShufflePrefix(s, js, SwapCount(|s|))
  }

  /** One exchange changes only the two positions and keeps the multiset of values. */
  lemma SwapPermutes<T>(s: seq<T>, i: nat, j: nat)
    requires i < |s| && j < |s|
    ensures forall k :: 0 <= k < |s| && k != i && k != j ==> Swap(s, i, j)[k] == s[k]
    ensures multiset(Swap(s, i, j)) == multiset(s)
  {
    assert Swap(s, i, j) == s[i := s[j]][j := s[i]];
  }

  /** One in-place exchange of two array positions. */
  method Exchange(a: array<real>, i: nat, j: nat)
    requires i < a.Length && j < a.Length
    modifies a
    ensures a[..] == Swap(old(a[..]), i, j)
  {
    a[i], a[j] := a[j], a[i];
  }

  /** In-place shuffle of an array with the given swap draws. */
  method Shuffle(a: array<real>, js: seq<nat>)
    requires ValidSwaps(a.Length, js)
    modifies a
    ensures a[..] == Shuffled(old(a[..]), js)
    ensures multiset(a[..]) == multiset(old(a[..]))
  {
    ghost var s0 := a[..];
    var k := 0;
    while k < SwapCount(a.Length)
      invariant 0 <= k <= SwapCount(a.Length)
      invariant a[..] == ShufflePrefix(s0, js, k)
    {
      var i := a.Length - 1 - k;
      Exchange(a, i, js[i]);
      assert a[..] == ShufflePrefix(s0, js, k + 1);
      k := k + 1;
    }
  }

  // ---------------------------------------------------------------------------
  // Matching: zip the two shuffled arrays and trade wherever b >= s, at (b + s) / 2.
  // ---------------------------------------------------------------------------

  /** Clearing prices of the first k zipped pairs, in pair order. */
  function TradesUpTo(bs: seq<real>, ss: seq<real>, k: nat): (r: seq<real>)
    requires k <= |bs| && k <= |ss|
    ensures |r| <= k
  {
    if k == 0 then []
    else
      TradesUpTo(bs, ss, k - 1)
      + (if bs[k - 1] >= ss[k - 1] then [(bs[k - 1] + ss[k - 1]) / 2.0] else [])
  }

  /** Clearing prices of all zipped pairs: zip stops at the shorter array. */
  function Trades(bs: seq<real>, ss: seq<real>): (r: seq<real>)
    ensures |r| <= |bs| && |r| <= |ss|
  {
    TradesUpTo(bs, ss, Min(|bs|, |ss|))
  }

  /** Positions, in increasing order, of the pairs among the first k that trade (b >= s). */
  function TradingPairs(bs: seq<real>, ss: seq<real>, k: nat): (r: seq<nat>)
    requires k <= |bs| && k <= |ss|
    ensures |r| <= k
    ensures forall t :: 0 <= t < |r| ==> r[t] < k
  {
    if k == 0 then []
    else
      TradingPairs(bs, ss, k - 1) + (if bs[k - 1] >= ss[k - 1] then [k - 1] else [])
  }

  /** The listed positions are in increasing order and are exactly the pairs with b >= s. */
  lemma {:induction false} TradingPairsSpec(bs: seq<real>, ss: seq<real>, k: nat)
    requires k <= |bs| && k <= |ss|
    ensures Increasing(TradingPairs(bs, ss, k))
    ensures forall i: nat :: i in TradingPairs(bs, ss, k) <==> i < k && ss[i] <= bs[i]
  {
    if k > 0 {
      TradingPairsSpec(bs, ss, k - 1);
    }
  }

  /** The t-th trade of the first k pairs is the midpoint of the t-th trading pair, which
      lies between that pair's two values. */
  lemma {:induction false} TradesAtPairs(bs: seq<real>, ss: seq<real>, k: nat)
    requires k <= |bs| && k <= |ss|
    ensures |TradesUpTo(bs, ss, k)| == |TradingPairs(bs, ss, k)|
    ensures forall t :: 0 <= t < |TradesUpTo(bs, ss, k)| ==>
      var i := TradingPairs(bs, ss, k)[t];
      TradesUpTo(bs, ss, k)[t] == (bs[i] + ss[i]) / 2.0 && ss[i] <= TradesUpTo(bs, ss, k)[t] <= bs[i]
  {
    if k > 0 {
      TradesAtPairs(bs, ss, k - 1);
      var prev, pos := TradesUpTo(bs, ss, k - 1), TradingPairs(bs, ss, k - 1);
      var cur, curPos := TradesUpTo(bs, ss, k), TradingPairs(bs, ss, k);
      assert forall t :: 0 <= t < |prev| ==> cur[t] == prev[t] && curPos[t] == pos[t];
    }
  }

  /** The set of positions among the first k pairs that trade (b >= s). */
  function TradingSet(bs: seq<real>, ss: seq<real>, k: nat): set<nat>
    requires k <= |bs| && k <= |ss|
  {
    set i: nat | i < k && ss[i] <= bs[i]
  }

  /** Going from k - 1 to k pairs adds position k - 1 to the trading set exactly when that
      pair trades; the position is new. */
  lemma TradingSetStep(bs: seq<real>, ss: seq<real>, k: nat)
    requires 0 < k <= |bs| && k <= |ss|
    ensures k - 1 !in TradingSet(bs, ss, k - 1)
    ensures TradingSet(bs, ss, k)
      == TradingSet(bs, ss, k - 1) + (if ss[k - 1] <= bs[k - 1] then {k - 1} else {})
  {
  }

  /** The number of trading pairs among the first k is the size of the set of such positions. */
  lemma {:induction false} TradingCount(bs: seq<real>, ss: seq<real>, k: nat)
    requires k <= |bs| && k <= |ss|
    ensures |TradingPairs(bs, ss, k)| == |TradingSet(bs, ss, k)|
  {
    if k > 0 {
      TradingCount(bs, ss, k - 1);
      TradingSetStep(bs, ss, k);
    }
  }

  /** No trade among the first k pairs exactly when every one of them has b < s. */
  lemma {:induction false} NoTrades(bs: seq<real>, ss: seq<real>, k: nat)
    requires k <= |bs| && k <= |ss|
    ensures TradesUpTo(bs, ss, k) == [] <==> forall i :: 0 <= i < k ==> bs[i] < ss[i]
  {
    if k > 0 {
      NoTrades(bs, ss, k - 1);
    }
  }

  /** When the values of the first k pairs lie in [lo, hi], so do their clearing prices. */
  lemma {:induction false} TradesWithin(bs: seq<real>, ss: seq<real>, k: nat, lo: real, hi: real)
    requires k <= |bs| && k <= |ss|
    requires forall i :: 0 <= i < k ==> lo <= bs[i] <= hi && lo <= ss[i] <= hi
    ensures forall t :: 0 <= t < |TradesUpTo(bs, ss, k)| ==> lo <= TradesUpTo(bs, ss, k)[t] <= hi
  {
    if k > 0 {
      TradesWithin(bs, ss, k - 1, lo, hi);
      var prev, cur := TradesUpTo(bs, ss, k - 1), TradesUpTo(bs, ss, k);
      assert forall t :: 0 <= t < |prev| ==> cur[t] == prev[t];
    }
  }

  /** The trade list of the first k pairs is exactly one price per trading pair, in pair
      order: its t-th entry is the midpoint of the t-th pair with b >= s, which lies in
      [s, b]. So it has as many entries as there are trading pairs, every trading pair's
      midpoint occurs in it, and it is empty exactly when no pair has b >= s. */
  lemma TradesUpToSpec(bs: seq<real>, ss: seq<real>, k: nat)
    requires k <= |bs| && k <= |ss|
    ensures Increasing(TradingPairs(bs, ss, k))
    ensures forall i: nat :: i in TradingPairs(bs, ss, k) <==> i < k && ss[i] <= bs[i]
    ensures |TradesUpTo(bs, ss, k)| == |TradingPairs(bs, ss, k)|
    ensures |TradesUpTo(bs, ss, k)| == |TradingSet(bs, ss, k)|
    ensures forall t :: 0 <= t < |TradesUpTo(bs, ss, k)| ==>
      var i := TradingPairs(bs, ss, k)[t];
      TradesUpTo(bs, ss, k)[t] == (bs[i] + ss[i]) / 2.0 && ss[i] <= TradesUpTo(bs, ss, k)[t] <= bs[i]
    ensures forall i :: 0 <= i < k && ss[i] <= bs[i] ==>
      exists t :: 0 <= t < |TradesUpTo(bs, ss, k)| && TradingPairs(bs, ss, k)[t] == i
        && TradesUpTo(bs, ss, k)[t] == (bs[i] + ss[i]) / 2.0
    ensures TradesUpTo(bs, ss, k) == [] <==> forall i :: 0 <= i < k ==> bs[i] < ss[i]
  {
    TradingPairsSpec(bs, ss, k);
    TradesAtPairs(bs, ss, k);
    TradingCount(bs, ss, k);
    NoTrades(bs, ss, k);
  }

  /** The same characterization for the whole zip, which stops at the shorter array. */
  lemma TradesSpec(bs: seq<real>, ss: seq<real>)
    ensures Increasing(TradingPairs(bs, ss, Min(|bs|, |ss|)))
    ensures forall i: nat :: i in TradingPairs(bs, ss, Min(|bs|, |ss|)) <==> i < |bs| && i < |ss| && ss[i] <= bs[i]
    ensures |Trades(bs, ss)| == |TradingPairs(bs, ss, Min(|bs|, |ss|))|
    ensures |Trades(bs, ss)| == |TradingSet(bs, ss, Min(|bs|, |ss|))|
    ensures forall t :: 0 <= t < |Trades(bs, ss)| ==>
      var i := TradingPairs(bs, ss, Min(|bs|, |ss|))[t];
      Trades(bs, ss)[t] == (bs[i] + ss[i]) / 2.0 && ss[i] <= Trades(bs, ss)[t] <= bs[i]
    ensures forall i :: 0 <= i < |bs| && i < |ss| && ss[i] <= bs[i] ==>
      exists t :: 0 <= t < |Trades(bs, ss)| && TradingPairs(bs, ss, Min(|bs|, |ss|))[t] == i
        && Trades(bs, ss)[t] == (bs[i] + ss[i]) / 2.0
    ensures Trades(bs, ss) == [] <==> forall i :: 0 <= i < |bs| && i < |ss| ==> bs[i] < ss[i]
  {
    TradesUpToSpec(bs, ss, Min(|bs|, |ss|));
  }

  /** The inner zip loop: collects the clearing prices of the pairs that trade. */
  method ZipTrades(buyers: array<real>, sellers: array<real>) returns (trades: seq<real>)
    ensures trades == Trades(buyers[..], sellers[..])
  {
    trades := [];
    var n := Min(buyers.Length, sellers.Length);
    var k := 0;
    while k < n
      invariant 0 <= k <= n
      invariant trades == TradesUpTo(buyers[..], sellers[..], k)
    {
      var b, s := buyers[k], sellers[k];
      if b >= s {
        var price := (b + s) / 2.0;
        trades := trades + [price];
      }
      k := k + 1;
    }
  }

  // ---------------------------------------------------------------------------
  // Mean reversion toward the step's average price.
  // ---------------------------------------------------------------------------

  /** Distance between two reals. */
  function Dist(x: real, y: real): real
  {
    if x < y then y - x else x - y
  }

  /** A seller's minimum price after it closes 5% of its gap to the average price. */
  function SellerAdjusted(v: real, avg: real): real
  {
    v + ADJUST_RATE * (avg - v)
  }

  /** A buyer's willingness to pay after it gives up 5% of its excess over the average
      price (or gains 5% of its shortfall). */
  function BuyerAdjusted(v: real, avg: real): real
  {
    v - ADJUST_RATE * (v - avg)
  }

  /** Both updates move a value to a point between it and the average, 0.95 times as far
      from the average as before. */
  lemma AdjustedBetween(v: real, avg: real)
    ensures Dist(SellerAdjusted(v, avg), avg) == 0.95 * Dist(v, avg)
    ensures Dist(BuyerAdjusted(v, avg), avg) == 0.95 * Dist(v, avg)
    ensures v <= avg ==> v <= SellerAdjusted(v, avg) <= avg && v <= BuyerAdjusted(v, avg) <= avg
    ensures avg <= v ==> avg <= SellerAdjusted(v, avg) <= v && avg <= BuyerAdjusted(v, avg) <= v
  {
  }

  /** All sellers adjusted toward the average. */
  function SellersAdjusted(s: seq<real>, avg: real): (r: seq<real>)
    ensures |r| == |s|
  {
    seq(|s|, i requires 0 <= i < |s| => SellerAdjusted(s[i], avg))
  }

  /** All buyers adjusted toward the average. */
  function BuyersAdjusted(s: seq<real>, avg: real): (r: seq<real>)
    ensures |r| == |s|
  {
    seq(|s|, i requires 0 <= i < |s| => BuyerAdjusted(s[i], avg))
  }

  /** Adjusting a whole population contracts every value toward the average by the factor
      0.95 and leaves it between its old value and the average. */
  lemma AdjustedAll(s: seq<real>, avg: real)
    ensures forall i :: 0 <= i < |s| ==> Dist(SellersAdjusted(s, avg)[i], avg) == 0.95 * Dist(s[i], avg)
    ensures forall i :: 0 <= i < |s| ==> Dist(BuyersAdjusted(s, avg)[i], avg) == 0.95 * Dist(s[i], avg)
    ensures forall i :: 0 <= i < |s| ==>
      (s[i] <= SellersAdjusted(s, avg)[i] <= avg || avg <= SellersAdjusted(s, avg)[i] <= s[i])
    ensures forall i :: 0 <= i < |s| ==>
      (s[i] <= BuyersAdjusted(s, avg)[i] <= avg || avg <= BuyersAdjusted(s, avg)[i] <= s[i])
  {
    forall i | 0 <= i < |s| {
      AdjustedBetween(s[i], avg);
    }
  }

  method AdjustSellers(a: array<real>, avg: real)
    modifies a
    ensures a[..] == SellersAdjusted(old(a[..]), avg)
  {
    for i := 0 to a.Length
      invariant forall j :: 0 <= j < i ==> a[j] == SellerAdjusted(old(a[j]), avg)
      invariant forall j :: i <= j < a.Length ==> a[j] == old(a[j])
    {
      a[i] := a[i] + ADJUST_RATE * (avg - a[i]);
    }
  }

  method AdjustBuyers(a: array<real>, avg: real)
    modifies a
    ensures a[..] == BuyersAdjusted(old(a[..]), avg)
  {
    for i := 0 to a.Length
      invariant forall j :: 0 <= j < i ==> a[j] == BuyerAdjusted(old(a[j]), avg)
      invariant forall j :: i <= j < a.Length ==> a[j] == old(a[j])
    {
      a[i] := a[i] - ADJUST_RATE * (a[i] - avg);
    }
  }

  // ---------------------------------------------------------------------------
  // One step and the whole run.
  // ---------------------------------------------------------------------------

  /** Global state of the script: the two arrays' contents and the price history. */
  datatype State = State(buyers: seq<real>, sellers: seq<real>, marketPrices: seq<real>)

  /** Swap draws for the buyers' and the sellers' shuffle of one step. */
  datatype StepDraws = StepDraws(buyerSwaps: seq<nat>, sellerSwaps: seq<nat>)

  predicate DrawsFit(st: State, d: StepDraws)
  {
    ValidSwaps(|st.buyers|, d.buyerSwaps) && ValidSwaps(|st.sellers|, d.sellerSwaps)
  }

  /** The history entry recorded for a step without trades. */
  function Fallback(marketPrices: seq<real>): (r: real)
    ensures marketPrices != [] ==> r == marketPrices[|marketPrices| - 1]
    ensures r in marketPrices || r == DEFAULT_PRICE
  {
    if |marketPrices| > 0 then marketPrices[|marketPrices| - 1] else DEFAULT_PRICE
  }

  /** One iteration of the script's loop. */
  function Step(st: State, d: StepDraws): (r: State)
    requires DrawsFit(st, d)
    ensures |r.buyers| == |st.buyers| && |r.sellers| == |st.sellers|
    ensures |r.marketPrices| == |st.marketPrices| + 1
    ensures r.marketPrices[..|st.marketPrices|] == st.marketPrices
  {
    var bs := Shuffled(st.buyers, d.buyerSwaps);
    var ss := Shuffled(st.sellers, d.sellerSwaps);
    var trades := Trades(bs, ss);
    if |trades| > 0 then
      var avg := Mean(trades);
      State(BuyersAdjusted(bs, avg), SellersAdjusted(ss, avg), st.marketPrices + [avg])
    else
      State(bs, ss, st.marketPrices + [Fallback(st.marketPrices)])
  }

  /** A step with trades records their mean, which lies between the cheapest and the dearest
      trade, and every value ends between its shuffled value and that mean, 5% closer. */
  lemma StepWithTrades(st: State, d: StepDraws)
    requires DrawsFit(st, d)
    requires Trades(Shuffled(st.buyers, d.buyerSwaps), Shuffled(st.sellers, d.sellerSwaps)) != []
    ensures var trades := Trades(Shuffled(st.buyers, d.buyerSwaps), Shuffled(st.sellers, d.sellerSwaps));
      var r := Step(st, d);
      var avg := r.marketPrices[|st.marketPrices|];
      avg == Mean(trades) && SeqMin(trades) <= avg <= SeqMax(trades)
      && (forall i :: 0 <= i < |r.buyers| ==>
            Dist(r.buyers[i], avg) == 0.95 * Dist(Shuffled(st.buyers, d.buyerSwaps)[i], avg))
      && (forall i :: 0 <= i < |r.sellers| ==>
            Dist(r.sellers[i], avg) == 0.95 * Dist(Shuffled(st.sellers, d.sellerSwaps)[i], avg))
  {
    var bs := Shuffled(st.buyers, d.buyerSwaps);
    var ss := Shuffled(st.sellers, d.sellerSwaps);
    var trades := Trades(bs, ss);
    var avg := Mean(trades);
    assert Step(st, d) == State(BuyersAdjusted(bs, avg), SellersAdjusted(ss, avg), st.marketPrices + [avg]);
    MeanWithinExtremes(trades);
    AdjustedAll(bs, avg);
    AdjustedAll(ss, avg);
  }

  /** A step without trades records the previous entry, or 100 on the first step, and only
      permutes the two arrays. */
  lemma StepWithoutTrades(st: State, d: StepDraws)
    requires DrawsFit(st, d)
    requires forall i :: 0 <= i < |st.buyers| && i < |st.sellers| ==>
      Shuffled(st.buyers, d.buyerSwaps)[i] < Shuffled(st.sellers, d.sellerSwaps)[i]
    ensures var r := Step(st, d);
      r.marketPrices == st.marketPrices + [Fallback(st.marketPrices)]
      && multiset(r.buyers) == multiset(st.buyers)
      && multiset(r.sellers) == multiset(st.sellers)
  {
    var bs := Shuffled(st.buyers, d.buyerSwaps);
    var ss := Shuffled(st.sellers, d.sellerSwaps);
    NoTrades(bs, ss, Min(|bs|, |ss|));
    assert Step(st, d) == State(bs, ss, st.marketPrices + [Fallback(st.marketPrices)]);
  }

  /** The loop body on the two arrays: shuffle, zip and trade, then record and adjust. */
  method MarketStep(buyers: array<real>, sellers: array<real>, marketPrices: seq<real>, d: StepDraws)
    returns (newPrices: seq<real>)
    requires buyers != sellers
    requires DrawsFit(State(buyers[..], sellers[..], marketPrices), d)
    modifies buyers, sellers
    ensures State(buyers[..], sellers[..], newPrices)
      == Step(State(old(buyers[..]), old(sellers[..]), marketPrices), d)
  {
    Shuffle(buyers, d.buyerSwaps);
    Shuffle(sellers, d.sellerSwaps);
    var trades := ZipTrades(buyers, sellers);
    if |trades| > 0 {
      var avgPrice := Mean(trades);
      newPrices := marketPrices + [avgPrice];
      AdjustSellers(sellers, avgPrice);
      AdjustBuyers(buyers, avgPrice);
    } else {
      newPrices := marketPrices + [Fallback(marketPrices)];
    }
  }

  predicate RunDrawsFit(nb: nat, ns: nat, draws: seq<StepDraws>)
  {
    forall t :: 0 <= t < |draws| ==>
      ValidSwaps(nb, draws[t].buyerSwaps) && ValidSwaps(ns, draws[t].sellerSwaps)
  }

  /** The state after running one step per element of draws. */
  function Run(st: State, draws: seq<StepDraws>): (r: State)
    requires RunDrawsFit(|st.buyers|, |st.sellers|, draws)
    ensures |r.buyers| == |st.buyers| && |r.sellers| == |st.sellers|
    decreases |draws|
  {
    if draws == [] then st
    else Step(Run(st, draws[..|draws| - 1]), draws[|draws| - 1])
  }

  /** Every step appends exactly one entry and never alters earlier ones. */
  lemma {:induction false} RunHistory(st: State, draws: seq<StepDraws>)
    requires RunDrawsFit(|st.buyers|, |st.sellers|, draws)
    ensures |Run(st, draws).marketPrices| == |st.marketPrices| + |draws|
    ensures Run(st, draws).marketPrices[..|st.marketPrices|] == st.marketPrices
  {
    if draws != [] {
      var init := draws[..|draws| - 1];
      RunHistory(st, init);
      var mid := Run(st, init);
      assert Run(st, draws) == Step(mid, draws[|draws| - 1]);
      assert mid.marketPrices[..|st.marketPrices|] == st.marketPrices;
      assert Run(st, draws).marketPrices[..|mid.marketPrices|] == mid.marketPrices;
    }
  }

  predicate AllIn(s: seq<real>)
  {
    forall i :: 0 <= i < |s| ==> LOW <= s[i] <= HIGH
  }

  predicate InRange(st: State)
  {
    AllIn(st.buyers) && AllIn(st.sellers) && AllIn(st.marketPrices)
  }

  lemma ShuffledAllIn(s: seq<real>, js: seq<nat>)
    requires ValidSwaps(|s|, js) && AllIn(s)
    ensures AllIn(Shuffled(s, js))
  {
    var r := Shuffled(s, js);
    forall i | 0 <= i < |r| ensures LOW <= r[i] <= HIGH {
      assert r[i] in multiset(r);
      assert r[i] in s;
    }
  }

  /** Adjusting toward an average in [80, 120] keeps values in [80, 120]. */
  lemma AdjustedAllIn(s: seq<real>, avg: real)
    requires AllIn(s) && LOW <= avg <= HIGH
    ensures AllIn(SellersAdjusted(s, avg)) && AllIn(BuyersAdjusted(s, avg))
  {
    forall i | 0 <= i < |s|
      ensures LOW <= SellersAdjusted(s, avg)[i] <= HIGH && LOW <= BuyersAdjusted(s, avg)[i] <= HIGH
    {
      AdjustedBetween(s[i], avg);
    }
  }

  /** The mean clearing price of values in [80, 120] lies in [80, 120]. */
  lemma TradesMeanIn(bs: seq<real>, ss: seq<real>)
    requires AllIn(bs) && AllIn(ss) && Trades(bs, ss) != []
    ensures LOW <= Mean(Trades(bs, ss)) <= HIGH
  {
    TradesWithin(bs, ss, Min(|bs|, |ss|), LOW, HIGH);
    MeanBounds(Trades(bs, ss), LOW, HIGH);
  }

  /** With all values in [80, 120], every clearing price, every mean, every fallback and every
      adjusted value stays in [80, 120]: one step keeps the whole state in that range. */
  lemma StepInRange(st: State, d: StepDraws)
    requires DrawsFit(st, d) && InRange(st)
    ensures InRange(Step(st, d))
  {
    var bs := Shuffled(st.buyers, d.buyerSwaps);
    var ss := Shuffled(st.sellers, d.sellerSwaps);
    ShuffledAllIn(st.buyers, d.buyerSwaps);
    ShuffledAllIn(st.sellers, d.sellerSwaps);
    var trades := Trades(bs, ss);
    var entry := if |trades| > 0 then Mean(trades) else Fallback(st.marketPrices);
    if |trades| > 0 {
      TradesMeanIn(bs, ss);
      AdjustedAllIn(bs, entry);
      AdjustedAllIn(ss, entry);
      assert Step(st, d) == State(BuyersAdjusted(bs, entry), SellersAdjusted(ss, entry), st.marketPrices + [entry]);
    } else {
      if st.marketPrices != [] {
        assert entry == st.marketPrices[|st.marketPrices| - 1];
      }
      assert Step(st, d) == State(bs, ss, st.marketPrices + [entry]);
    }
    assert LOW <= entry <= HIGH;
  }

  lemma {:induction false} RunInRange(st: State, draws: seq<StepDraws>)
    requires RunDrawsFit(|st.buyers|, |st.sellers|, draws) && InRange(st)
    ensures InRange(Run(st, draws))
  {
    if draws != [] {
      RunInRange(st, draws[..|draws| - 1]);
      StepInRange(Run(st, draws[..|draws| - 1]), draws[|draws| - 1]);
    }
  }

  /** The whole script: initial uniform draws in [80, 120], then numSteps loop iterations. */
  method Simulate(numSteps: nat, initialBuyers: seq<real>, initialSellers: seq<real>, draws: seq<StepDraws>)
    returns (buyers: array<real>, sellers: array<real>, marketPrices: seq<real>)
    requires AllIn(initialBuyers) && AllIn(initialSellers)
    requires |draws| == numSteps && RunDrawsFit(|initialBuyers|, |initialSellers|, draws)
    ensures fresh(buyers) && fresh(sellers) && buyers != sellers
    ensures State(buyers[..], sellers[..], marketPrices)
      == Run(State(initialBuyers, initialSellers, []), draws)
    ensures |marketPrices| == numSteps && AllIn(marketPrices)
  {
    buyers := new real[|initialBuyers|](i requires 0 <= i < |initialBuyers| => initialBuyers[i]);
    sellers := new real[|initialSellers|](i requires 0 <= i < |initialSellers| => initialSellers[i]);
    ghost var st0 := State(initialBuyers, initialSellers, []);
    assert buyers[..] == initialBuyers && sellers[..] == initialSellers;
    marketPrices := [];
    var step := 0;
    while step < numSteps
      invariant 0 <= step <= numSteps
      invariant State(buyers[..], sellers[..], marketPrices) == Run(st0, draws[..step])
      modifies buyers, sellers
    {
      assert draws[..step + 1][..step] == draws[..step];
      marketPrices := MarketStep(buyers, sellers, marketPrices, draws[step]);
      step := step + 1;
    }
    assert draws[..numSteps] == draws;
    RunHistory(st0, draws);
    RunInRange(st0, draws);
  }
}

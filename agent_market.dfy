/** The agent-based market: buyers that bid near their willingness to pay, single-unit
    sellers whose asking price adapts multiplicatively, and a market whose round pairs the
    shuffled buyers and sellers one to one and clears every pair whose bid reaches the ask.

    The value-level part (BuyerState, SellerState, Round) is the specification; the classes
    Buyer, Seller and MarketModel update their fields in place and are proved against it. */
module AgentMarket {
  import opened Stats

  datatype Option<T> = None | Some(value: T)

  const PRICE_UP: real := 1.02
  const PRICE_DOWN: real := 0.98
  const BID_JITTER: real := 5.0
  const DEFAULT_AVG_PRICE: real := 100.0

  predicate InitialDraw(x: real)
  {
    LOW <= x <= HIGH
  }

  predicate BidInRange(wtp: real, bid: real)
  {
    wtp - BID_JITTER <= bid <= wtp + BID_JITTER
  }

  // ---------------------------------------------------------------------------
  // Agent states as values, and the two agents' own update rules.
  // ---------------------------------------------------------------------------

  datatype BuyerState = BuyerState(budget: real, wtp: real, lastBid: Option<real>)

  datatype SellerState = SellerState(inventory: int, price: real, sales: int)

  /** A buyer's step: a new bid drawn within 5 of its willingness to pay; nothing else changes. */
  function BuyerStep(b: BuyerState, draw: real): (r: BuyerState)
    requires BidInRange(b.wtp, draw)
    ensures r.lastBid.Some? && BidInRange(b.wtp, r.lastBid.value)
    ensures r.budget == b.budget && r.wtp == b.wtp
  {
    b.(lastBid := Some(draw))
  }

  /** A seller's step: 2% up after a round with a sale, 2% down otherwise; sales reset. */
  function SellerStep(s: SellerState): (r: SellerState)
    ensures r.sales == 0 && r.inventory == s.inventory
    ensures s.price > 0.0 ==> r.price > 0.0
  {
    s.(price := s.price * (if s.sales > 0 then PRICE_UP else PRICE_DOWN), sales := 0)
  }

  /** The seller law: the new price is the old one times 1.02 or 0.98 according to whether the
      seller sold, so a positive price stays positive and rises exactly when a sale was made. */
  lemma SellerStepLaw(s: SellerState)
    requires s.price > 0.0
    ensures SellerStep(s).price == s.price * (if s.sales > 0 then 1.02 else 0.98)
    ensures SellerStep(s).price > 0.0
    ensures SellerStep(s).price > s.price <==> s.sales > 0
    ensures SellerStep(s).sales == 0 && SellerStep(s).inventory == s.inventory
  {
  }

  // ---------------------------------------------------------------------------
  // Clearing one pair.
  // ---------------------------------------------------------------------------

  /** The outcome of meeting buyer b and seller s: the clearing price, or None when the pair
      is skipped (no budget or no inventory) or the bid is below the ask. */
  function Outcome(b: BuyerState, s: SellerState): (r: Option<real>)
    requires b.lastBid.Some?
    ensures r.Some? <==> b.budget > 0.0 && s.inventory > 0 && b.lastBid.value >= s.price
    ensures r.Some? ==> s.price <= r.value <= b.lastBid.value
    ensures r.Some? ==> r.value - s.price == b.lastBid.value - r.value
  {
    if b.budget <= 0.0 || s.inventory <= 0 then None
    else
      var bid, ask := b.lastBid.value, s.price;
      if bid >= ask then Some((bid + ask) / 2.0) else None
  }

  /** A buyer after its pair's outcome: only the budget can change, and only on a trade. */
  function BuyerAfter(b: BuyerState, o: Option<real>): (r: BuyerState)
    ensures r.wtp == b.wtp && r.lastBid == b.lastBid
    ensures o.None? ==> r == b
    ensures o.Some? && o.value >= 0.0 ==> r.budget <= b.budget
  {
    if o.Some? then b.(budget := b.budget - o.value) else b
  }

  /** A seller after its pair's outcome: inventory moves into sales on a trade; the price stays. */
  function SellerAfter(s: SellerState, o: Option<real>): (r: SellerState)
    ensures r.price == s.price
    ensures r.inventory + r.sales == s.inventory + s.sales
    ensures o.None? ==> r == s
    ensures o.Some? ==> r.inventory == s.inventory - 1
  {
    if o.Some? then s.(inventory := s.inventory - 1, sales := s.sales + 1) else s
  }

  // ---------------------------------------------------------------------------
  // Matching: the zip of the two shuffled lists, processed pair by pair.
  // ---------------------------------------------------------------------------

  /** p lists the indices 0 .. n-1 in some order: the shuffled order of a population. */
  predicate IsPermutation(p: seq<nat>, n: nat)
  {
    |p| == n
    && (forall i :: 0 <= i < n ==> p[i] < n)
    && (forall i, j :: 0 <= i < j < n ==> p[i] != p[j])
  }

  predicate AllBid(bs: seq<BuyerState>)
  {
    forall i :: 0 <= i < |bs| ==> bs[i].lastBid.Some?
  }

  /** The population of a market and the trade prices recorded so far in a round. */
  datatype Market = Market(buyers: seq<BuyerState>, sellers: seq<SellerState>, trades: seq<real>)

  predicate MatchPre(bs: seq<BuyerState>, ss: seq<SellerState>, bp: seq<nat>, sp: seq<nat>, k: nat)
  {
    AllBid(bs) && IsPermutation(bp, |bs|) && IsPermutation(sp, |ss|) && k <= |bs| && k <= |ss|
  }

  /** The pair of buyer i and seller j meets: the outcome updates both and the trade list. */
  function MeetPair(m: Market, i: nat, j: nat): (r: Market)
    requires i < |m.buyers| && j < |m.sellers| && m.buyers[i].lastBid.Some?
    ensures |r.buyers| == |m.buyers| && |r.sellers| == |m.sellers|
    ensures |m.trades| <= |r.trades| <= |m.trades| + 1
  {
    var o := Outcome(m.buyers[i], m.sellers[j]);
    Market(m.buyers[i := BuyerAfter(m.buyers[i], o)],
           m.sellers[j := SellerAfter(m.sellers[j], o)],
           if o.Some? then m.trades + [o.value] else m.trades)
  }

  /** The market after the first k zipped pairs (buyer bp[t] with seller sp[t]) have met. */
  function MatchPairs(bs: seq<BuyerState>, ss: seq<SellerState>, bp: seq<nat>, sp: seq<nat>, k: nat): (r: Market)
    requires MatchPre(bs, ss, bp, sp, k)
    ensures |r.buyers| == |bs| && |r.sellers| == |ss|
    ensures forall i :: 0 <= i < |bs| ==> r.buyers[i].lastBid == bs[i].lastBid && r.buyers[i].wtp == bs[i].wtp
  {
    if k == 0 then Market(bs, ss, [])
    else MeetPair(MatchPairs(bs, ss, bp, sp, k - 1), bp[k - 1], sp[k - 1])
  }

  /** A buyer or seller that is not among the first k pairs is untouched. */
  lemma {:induction false} MatchUntouched(bs: seq<BuyerState>, ss: seq<SellerState>, bp: seq<nat>, sp: seq<nat>,
                                          k: nat, i: nat, j: nat)
    requires MatchPre(bs, ss, bp, sp, k)
    ensures i < |bs| && i !in bp[..k] ==> MatchPairs(bs, ss, bp, sp, k).buyers[i] == bs[i]
    ensures j < |ss| && j !in sp[..k] ==> MatchPairs(bs, ss, bp, sp, k).sellers[j] == ss[j]
  {
    if k > 0 {
      assert bp[..k] == bp[..k - 1] + [bp[k - 1]];
      assert sp[..k] == sp[..k - 1] + [sp[k - 1]];
      MatchUntouched(bs, ss, bp, sp, k - 1, i, j);
    }
  }

  /** Pairs are independent: the t-th pair's outcome is decided on the agents' states at the
      start of matching, since no agent appears in two pairs. */
  lemma {:induction false} MatchPairEffect(bs: seq<BuyerState>, ss: seq<SellerState>, bp: seq<nat>, sp: seq<nat>,
                                           k: nat, t: nat)
    requires MatchPre(bs, ss, bp, sp, k) && t < k
    ensures var m := MatchPairs(bs, ss, bp, sp, k);
      var o := Outcome(bs[bp[t]], ss[sp[t]]);
      m.buyers[bp[t]] == BuyerAfter(bs[bp[t]], o) && m.sellers[sp[t]] == SellerAfter(ss[sp[t]], o)
  {
    if t == k - 1 {
      MatchUntouched(bs, ss, bp, sp, k - 1, bp[t], sp[t]);
    } else {
      MatchPairEffect(bs, ss, bp, sp, k - 1, t);
    }
  }

  /** The outcomes of the first k pairs, each decided on the starting states. */
  function PairOutcomes(bs: seq<BuyerState>, ss: seq<SellerState>, bp: seq<nat>, sp: seq<nat>, k: nat): (r: seq<Option<real>>)
    requires MatchPre(bs, ss, bp, sp, k)
    ensures |r| == k
  {
    seq(k, t requires 0 <= t < k => Outcome(bs[bp[t]], ss[sp[t]]))
  }

  /** The clearing prices among a list of outcomes, in order. */
  function Cleared(os: seq<Option<real>>): (r: seq<real>)
    ensures |r| <= |os|
  {
    if os == [] then []
    else Cleared(os[..|os| - 1]) + (if os[|os| - 1].Some? then [os[|os| - 1].value] else [])
  }

  /** There are at most as many clearing prices as outcomes, each one is some pair's outcome,
      every clearing outcome's price is among them, and there are none exactly when no pair
      cleared. */
  lemma {:induction false} ClearedSpec(os: seq<Option<real>>)
    ensures |Cleared(os)| <= |os|
    ensures forall x :: x in Cleared(os) ==> Some(x) in os
    ensures forall t :: 0 <= t < |os| && os[t].Some? ==> os[t].value in Cleared(os)
    ensures Cleared(os) == [] <==> forall t :: 0 <= t < |os| ==> os[t].None?
  {
    if os != [] {
      var init := os[..|os| - 1];
      ClearedSpec(init);
      assert os == init + [os[|os| - 1]];
      assert forall t :: 0 <= t < |init| ==> os[t] == init[t];
    }
  }

  /** The trade list after k pairs is exactly the list of the clearing prices of the pairs
      that cleared, in pair order. */
  lemma {:induction false} MatchTrades(bs: seq<BuyerState>, ss: seq<SellerState>, bp: seq<nat>, sp: seq<nat>, k: nat)
    requires MatchPre(bs, ss, bp, sp, k)
    ensures MatchPairs(bs, ss, bp, sp, k).trades == Cleared(PairOutcomes(bs, ss, bp, sp, k))
  {
    if k > 0 {
      MatchTrades(bs, ss, bp, sp, k - 1);
      MatchStep(bs, ss, bp, sp, k);
      var os, prev := PairOutcomes(bs, ss, bp, sp, k), PairOutcomes(bs, ss, bp, sp, k - 1);
      assert os[..k - 1] == prev;
    }
  }

  /** The k-th pair meets agents still in their starting state, so it appends its own
      clearing price, if any, to the trades of the first k - 1 pairs. */
  lemma MatchStep(bs: seq<BuyerState>, ss: seq<SellerState>, bp: seq<nat>, sp: seq<nat>, k: nat)
    requires MatchPre(bs, ss, bp, sp, k) && k > 0
    ensures var o := Outcome(bs[bp[k - 1]], ss[sp[k - 1]]);
      MatchPairs(bs, ss, bp, sp, k).trades
        == MatchPairs(bs, ss, bp, sp, k - 1).trades + (if o.Some? then [o.value] else [])
  {
    var i, j := bp[k - 1], sp[k - 1];
    assert i !in bp[..k - 1] && j !in sp[..k - 1];
    MatchUntouched(bs, ss, bp, sp, k - 1, i, j);
  }

  /** Matching only depletes: budgets never rise, inventory never rises and stays
      non-negative, inventory plus sales is conserved, and prices, bids and valuations
      are untouched. */
  lemma MatchDepletes(bs: seq<BuyerState>, ss: seq<SellerState>, bp: seq<nat>, sp: seq<nat>, k: nat)
    requires MatchPre(bs, ss, bp, sp, k)
    requires forall j :: 0 <= j < |ss| ==> ss[j].price > 0.0
    ensures var m := MatchPairs(bs, ss, bp, sp, k);
      (forall i :: 0 <= i < |bs| ==>
         m.buyers[i].budget <= bs[i].budget && m.buyers[i].wtp == bs[i].wtp
         && m.buyers[i].lastBid == bs[i].lastBid)
      && (forall j :: 0 <= j < |ss| ==>
         m.sellers[j].price == ss[j].price
         && m.sellers[j].inventory <= ss[j].inventory
         && (ss[j].inventory >= 0 ==> m.sellers[j].inventory >= 0)
         && m.sellers[j].inventory + m.sellers[j].sales == ss[j].inventory + ss[j].sales
         && m.sellers[j].sales - ss[j].sales <= 1)
  {
    var m := MatchPairs(bs, ss, bp, sp, k);
    forall i | 0 <= i < |bs|
      ensures m.buyers[i].budget <= bs[i].budget && m.buyers[i].wtp == bs[i].wtp
    {
      MatchUntouched(bs, ss, bp, sp, k, i, 0);
      if i in bp[..k] {
        var t :| 0 <= t < k && bp[t] == i;
        MatchPairEffect(bs, ss, bp, sp, k, t);
      }
    }
    forall j | 0 <= j < |ss|
      ensures m.sellers[j].price == ss[j].price
      ensures m.sellers[j].inventory <= ss[j].inventory
      ensures ss[j].inventory >= 0 ==> m.sellers[j].inventory >= 0
      ensures m.sellers[j].inventory + m.sellers[j].sales == ss[j].inventory + ss[j].sales
      ensures m.sellers[j].sales - ss[j].sales <= 1
    {
      MatchUntouched(bs, ss, bp, sp, k, 0, j);
      if j in sp[..k] {
        var t :| 0 <= t < k && sp[t] == j;
        MatchPairEffect(bs, ss, bp, sp, k, t);
      }
    }
  }

  // ---------------------------------------------------------------------------
  // A whole round.
  // ---------------------------------------------------------------------------

  function StepBuyers(bs: seq<BuyerState>, draws: seq<real>): (r: seq<BuyerState>)
    requires |draws| == |bs| && forall i :: 0 <= i < |bs| ==> BidInRange(bs[i].wtp, draws[i])
    ensures |r| == |bs| && AllBid(r)
  {
    seq(|bs|, i requires 0 <= i < |bs| => BuyerStep(bs[i], draws[i]))
  }

  function StepSellers(ss: seq<SellerState>): (r: seq<SellerState>)
    ensures |r| == |ss|
  {
    seq(|ss|, j requires 0 <= j < |ss| => SellerStep(ss[j]))
  }

  /** Inputs of a round: one bid draw per buyer and the two shuffled orders. */
  predicate RoundPre(bs: seq<BuyerState>, ss: seq<SellerState>, draws: seq<real>, bp: seq<nat>, sp: seq<nat>)
  {
    |draws| == |bs| && (forall i :: 0 <= i < |bs| ==> BidInRange(bs[i].wtp, draws[i]))
    && IsPermutation(bp, |bs|) && IsPermutation(sp, |ss|)
  }

  /** The market after the round's matching (buyers and sellers already stepped). */
  function RoundMatch(bs: seq<BuyerState>, ss: seq<SellerState>, draws: seq<real>, bp: seq<nat>, sp: seq<nat>): (r: Market)
    requires RoundPre(bs, ss, draws, bp, sp)
    ensures |r.buyers| == |bs| && |r.sellers| == |ss|
  {
    MatchPairs(StepBuyers(bs, draws), StepSellers(ss), bp, sp, Min(|bs|, |ss|))
  }

  datatype RoundResult = RoundResult(buyers: seq<BuyerState>, sellers: seq<SellerState>, avgPrice: real)

  /** One round: all buyers step, all sellers step, the zipped pairs meet, and the average
      price becomes the mean of the round's trades if there were any. */
  function Round(bs: seq<BuyerState>, ss: seq<SellerState>, avg: real, draws: seq<real>, bp: seq<nat>, sp: seq<nat>): (r: RoundResult)
    requires RoundPre(bs, ss, draws, bp, sp)
    ensures |r.buyers| == |bs| && |r.sellers| == |ss|
  {
    var m := RoundMatch(bs, ss, draws, bp, sp);
    RoundResult(m.buyers, m.sellers, if |m.trades| > 0 then Mean(m.trades) else avg)
  }

  predicate SellersSound(ss: seq<SellerState>)
  {
    forall j :: 0 <= j < |ss| ==> ss[j].price > 0.0 && ss[j].inventory >= 0 && ss[j].sales >= 0
  }

  /** At most min(buyers, sellers) trades per round; each is the midpoint of its pair's bid and
      ask, within [ask, bid] and positive; the average price is the mean of the trades, between
      the cheapest and the dearest, when there is one, and is unchanged otherwise. */
  lemma RoundTrades(bs: seq<BuyerState>, ss: seq<SellerState>, avg: real, draws: seq<real>, bp: seq<nat>, sp: seq<nat>)
    requires RoundPre(bs, ss, draws, bp, sp) && SellersSound(ss)
    ensures var trades := RoundMatch(bs, ss, draws, bp, sp).trades;
      var bs1, ss1 := StepBuyers(bs, draws), StepSellers(ss);
      |trades| <= Min(|bs|, |ss|)
      && (forall x :: x in trades ==>
            exists t :: 0 <= t < Min(|bs|, |ss|) && Outcome(bs1[bp[t]], ss1[sp[t]]) == Some(x)
              && ss1[sp[t]].price <= x <= bs1[bp[t]].lastBid.value && x > 0.0)
      && (trades != [] ==>
            (Round(bs, ss, avg, draws, bp, sp).avgPrice == Mean(trades)
             && SeqMin(trades) <= Round(bs, ss, avg, draws, bp, sp).avgPrice <= SeqMax(trades)))
      && (trades == [] ==> Round(bs, ss, avg, draws, bp, sp).avgPrice == avg)
  {
    RoundTradeOrigins(bs, ss, draws, bp, sp);
    RoundAverage(bs, ss, avg, draws, bp, sp);
  }

  /** Each trade of a round is a pair's clearing price, within [ask, bid] and positive. */
  lemma RoundTradeOrigins(bs: seq<BuyerState>, ss: seq<SellerState>, draws: seq<real>, bp: seq<nat>, sp: seq<nat>)
    requires RoundPre(bs, ss, draws, bp, sp) && SellersSound(ss)
    ensures var trades := RoundMatch(bs, ss, draws, bp, sp).trades;
      var bs1, ss1 := StepBuyers(bs, draws), StepSellers(ss);
      |trades| <= Min(|bs|, |ss|)
      && (forall x :: x in trades ==>
            exists t :: 0 <= t < Min(|bs|, |ss|) && Outcome(bs1[bp[t]], ss1[sp[t]]) == Some(x)
              && ss1[sp[t]].price <= x <= bs1[bp[t]].lastBid.value && x > 0.0)
  {
    var bs1, ss1 := StepBuyers(bs, draws), StepSellers(ss);
    var n := Min(|bs|, |ss|);
    var os := PairOutcomes(bs1, ss1, bp, sp, n);
    MatchTrades(bs1, ss1, bp, sp, n);
    ClearedSpec(os);
    var trades := RoundMatch(bs, ss, draws, bp, sp).trades;
    assert trades == Cleared(os);
    forall x | x in trades
      ensures exists t :: (0 <= t < n && Outcome(bs1[bp[t]], ss1[sp[t]]) == Some(x)
                             && ss1[sp[t]].price <= x <= bs1[bp[t]].lastBid.value && x > 0.0)
    {
      assert Some(x) in os;
      var t :| 0 <= t < |os| && os[t] == Some(x);
      PairTradeBounds(bs, ss, draws, bp, sp, t);
    }
  }

  /** A zipped pair of a round that clears does so at a positive price within [ask, bid]. */
  lemma PairTradeBounds(bs: seq<BuyerState>, ss: seq<SellerState>, draws: seq<real>, bp: seq<nat>, sp: seq<nat>, t: nat)
    requires RoundPre(bs, ss, draws, bp, sp) && SellersSound(ss) && t < Min(|bs|, |ss|)
    ensures var b, s := StepBuyers(bs, draws)[bp[t]], StepSellers(ss)[sp[t]];
      var o := Outcome(b, s);
      o.Some? ==> s.price <= o.value <= b.lastBid.value && o.value > 0.0
  {
    SellerStepLaw(ss[sp[t]]);
  }

  /** The round's average price is the mean of its trades, between the cheapest and the
      dearest, when there is one, and the previous average otherwise. */
  lemma RoundAverage(bs: seq<BuyerState>, ss: seq<SellerState>, avg: real, draws: seq<real>, bp: seq<nat>, sp: seq<nat>)
    requires RoundPre(bs, ss, draws, bp, sp)
    ensures var trades := RoundMatch(bs, ss, draws, bp, sp).trades;
      (trades != [] ==>
         (Round(bs, ss, avg, draws, bp, sp).avgPrice == Mean(trades)
          && SeqMin(trades) <= Round(bs, ss, avg, draws, bp, sp).avgPrice <= SeqMax(trades)))
      && (trades == [] ==> Round(bs, ss, avg, draws, bp, sp).avgPrice == avg)
  {
    var trades := RoundMatch(bs, ss, draws, bp, sp).trades;
    if trades != [] {
      MeanWithinExtremes(trades);
    }
  }

  /** A round keeps every seller's price positive and inventory non-negative; the new price
      follows the seller law on the old price; a seller's sales in the round equal the units its
      inventory fell by, at most one; and no buyer's budget rises. */
  lemma RoundSellers(bs: seq<BuyerState>, ss: seq<SellerState>, avg: real, draws: seq<real>, bp: seq<nat>, sp: seq<nat>)
    requires RoundPre(bs, ss, draws, bp, sp) && SellersSound(ss)
    ensures var r := Round(bs, ss, avg, draws, bp, sp);
      |r.buyers| == |bs| && |r.sellers| == |ss| && SellersSound(r.sellers)
      && (forall j :: 0 <= j < |ss| ==>
            r.sellers[j].price == ss[j].price * (if ss[j].sales > 0 then 1.02 else 0.98)
            && r.sellers[j].sales == ss[j].inventory - r.sellers[j].inventory
            && 0 <= r.sellers[j].sales <= 1)
      && (forall i :: 0 <= i < |bs| ==> r.buyers[i].budget <= bs[i].budget && r.buyers[i].wtp == bs[i].wtp)
  {
    var bs1, ss1 := StepBuyers(bs, draws), StepSellers(ss);
    forall j | 0 <= j < |ss| ensures ss1[j].price > 0.0 {
      SellerStepLaw(ss[j]);
    }
    MatchDepletes(bs1, ss1, bp, sp, Min(|bs|, |ss|));
  }

  /** Each zipped pair of a round: if it is skipped or the bid is below the ask both agents
      leave the round as they entered matching; if it trades at p, the buyer's budget falls by
      exactly p and the seller loses one unit and gains one sale. An agent in no pair (the
      longer population's surplus) is unchanged by matching. */
  lemma RoundPairEffect(bs: seq<BuyerState>, ss: seq<SellerState>, avg: real, draws: seq<real>,
                        bp: seq<nat>, sp: seq<nat>, t: nat)
    requires RoundPre(bs, ss, draws, bp, sp) && t < Min(|bs|, |ss|)
    ensures var bs1, ss1 := StepBuyers(bs, draws), StepSellers(ss);
      var r := Round(bs, ss, avg, draws, bp, sp);
      var b, s := bs1[bp[t]], ss1[sp[t]];
      (b.budget <= 0.0 || s.inventory <= 0 || b.lastBid.value < s.price ==>
         r.buyers[bp[t]] == b && r.sellers[sp[t]] == s)
      && (b.budget > 0.0 && s.inventory > 0 && b.lastBid.value >= s.price ==>
         var p := (b.lastBid.value + s.price) / 2.0;
         r.buyers[bp[t]] == b.(budget := b.budget - p)
         && r.sellers[sp[t]] == s.(inventory := s.inventory - 1, sales := s.sales + 1))
  {
    var bs1, ss1 := StepBuyers(bs, draws), StepSellers(ss);
    MatchPairEffect(bs1, ss1, bp, sp, Min(|bs|, |ss|), t);
  }

  /** Agents beyond the shorter population's length take part in no trade. */
  lemma RoundUnpaired(bs: seq<BuyerState>, ss: seq<SellerState>, avg: real, draws: seq<real>,
                      bp: seq<nat>, sp: seq<nat>, i: nat, j: nat)
    requires RoundPre(bs, ss, draws, bp, sp)
    ensures var r := Round(bs, ss, avg, draws, bp, sp);
      (i < |bs| && i !in bp[..Min(|bs|, |ss|)] ==> r.buyers[i] == StepBuyers(bs, draws)[i])
      && (j < |ss| && j !in sp[..Min(|bs|, |ss|)] ==> r.sellers[j] == StepSellers(ss)[j])
  {
    MatchUntouched(StepBuyers(bs, draws), StepSellers(ss), bp, sp, Min(|bs|, |ss|), i, j);
  }

  /** Once no seller has a unit left, a round clears nothing, keeps the average price and
      leaves every seller still without a unit, so every later round clears nothing too. */
  lemma SoldOutRound(bs: seq<BuyerState>, ss: seq<SellerState>, avg: real, draws: seq<real>, bp: seq<nat>, sp: seq<nat>)
    requires RoundPre(bs, ss, draws, bp, sp)
    requires forall j :: 0 <= j < |ss| ==> ss[j].inventory <= 0
    ensures RoundMatch(bs, ss, draws, bp, sp).trades == []
    ensures Round(bs, ss, avg, draws, bp, sp).avgPrice == avg
    ensures forall j :: 0 <= j < |ss| ==> Round(bs, ss, avg, draws, bp, sp).sellers[j].inventory <= 0
  {
    var bs1, ss1 := StepBuyers(bs, draws), StepSellers(ss);
    var n := Min(|bs|, |ss|);
    var os := PairOutcomes(bs1, ss1, bp, sp, n);
    assert forall t :: 0 <= t < n ==> os[t] == Outcome(bs1[bp[t]], ss1[sp[t]]);
    assert forall t :: 0 <= t < n ==> ss1[sp[t]].inventory <= 0;
    MatchTrades(bs1, ss1, bp, sp, n);
    ClearedSpec(os);
    var m := MatchPairs(bs1, ss1, bp, sp, n);
    forall j | 0 <= j < |ss| ensures m.sellers[j].inventory <= 0 {
      MatchUntouched(bs1, ss1, bp, sp, n, 0, j);
      if j in sp[..n] {
        var t :| 0 <= t < n && sp[t] == j;
        MatchPairEffect(bs1, ss1, bp, sp, n, t);
      }
    }
  }

  /** A budget can go negative: a buyer with budget 80 bidding 125 meets a seller whose price
      steps from 100 to 98; they clear at 111.5, which leaves the buyer at -31.5. */
  lemma NegativeBudget()
    ensures var r := Round([BuyerState(80.0, 120.0, None)], [SellerState(1, 100.0, 0)], 100.0, [125.0], [0], [0]);
      r.buyers[0].budget == -31.5 && r.avgPrice == 111.5
  {
    var bs, ss := [BuyerState(80.0, 120.0, None)], [SellerState(1, 100.0, 0)];
    var bs1, ss1 := StepBuyers(bs, [125.0]), StepSellers(ss);
    assert bs1 == [BuyerState(80.0, 120.0, Some(125.0))];
    assert ss1 == [SellerState(1, 98.0, 0)];
    var m0 := Market(bs1, ss1, []);
    assert MatchPairs(bs1, ss1, [0], [0], 0) == m0;
    var m1 := Market([BuyerState(-31.5, 120.0, Some(125.0))], [SellerState(0, 98.0, 1)], [111.5]);
    assert MeetPair(m0, 0, 0) == m1;
    assert MatchPairs(bs1, ss1, [0], [0], 1) == m1;
    assert Mean([111.5]) == 111.5 by {
      assert [111.5][..0] == [];
    }
  }

  /** Two buyers (budget 100, willingness to pay 100, bids drawn at exactly 100) and two fresh
      sellers priced 90. The sellers step before matching, so the first round clears both pairs
      at (100 + 88.2) / 2 = 94.1; in the second round no seller has a unit left, so nothing
      trades, the average stays 94.1 and the sellers' prices rise to 88.2 * 1.02. */
  lemma TwoByTwoScenario()
    ensures var bs := [BuyerState(100.0, 100.0, None), BuyerState(100.0, 100.0, None)];
      var ss := [SellerState(1, 90.0, 0), SellerState(1, 90.0, 0)];
      var ord := [0, 1];
      var r1 := Round(bs, ss, DEFAULT_AVG_PRICE, [100.0, 100.0], ord, ord);
      r1.avgPrice == 94.1
      && r1.buyers == [BuyerState(5.9, 100.0, Some(100.0)), BuyerState(5.9, 100.0, Some(100.0))]
      && r1.sellers == [SellerState(0, 88.2, 1), SellerState(0, 88.2, 1)]
      && var r2 := Round(r1.buyers, r1.sellers, r1.avgPrice, [100.0, 100.0], ord, ord);
      r2.avgPrice == 94.1 && r2.buyers == r1.buyers
      && r2.sellers == [SellerState(0, 89.964, 0), SellerState(0, 89.964, 0)]
  {
    var ord := [0, 1];
    var b1 := [BuyerState(5.9, 100.0, Some(100.0)), BuyerState(5.9, 100.0, Some(100.0))];
    var s1 := [SellerState(0, 88.2, 1), SellerState(0, 88.2, 1)];
    TwoByTwoFirstRound();
    TwoByTwoSecondRound();
    assert Round(b1, s1, 94.1, [100.0, 100.0], ord, ord).avgPrice == 94.1;
  }

  /** The first round of the scenario above: both pairs clear at 94.1. */
  lemma TwoByTwoFirstRound()
    ensures var bs := [BuyerState(100.0, 100.0, None), BuyerState(100.0, 100.0, None)];
      var ss := [SellerState(1, 90.0, 0), SellerState(1, 90.0, 0)];
      var r1 := Round(bs, ss, DEFAULT_AVG_PRICE, [100.0, 100.0], [0, 1], [0, 1]);
      r1.avgPrice == 94.1
      && r1.buyers == [BuyerState(5.9, 100.0, Some(100.0)), BuyerState(5.9, 100.0, Some(100.0))]
      && r1.sellers == [SellerState(0, 88.2, 1), SellerState(0, 88.2, 1)]
  {
    var bs := [BuyerState(100.0, 100.0, None), BuyerState(100.0, 100.0, None)];
    var ss := [SellerState(1, 90.0, 0), SellerState(1, 90.0, 0)];
    var ord := [0, 1];
    var bs1 := StepBuyers(bs, [100.0, 100.0]);
    var ss1 := StepSellers(ss);
    assert bs1 == [BuyerState(100.0, 100.0, Some(100.0)), BuyerState(100.0, 100.0, Some(100.0))];
    assert ss1 == [SellerState(1, 88.2, 0), SellerState(1, 88.2, 0)];
    TwoByTwoFirstMatch();
    assert Mean([94.1, 94.1]) == 94.1 by {
      assert Sum([94.1, 94.1]) == Sum([94.1]) + 94.1;
      assert [94.1, 94.1][..1] == [94.1];
    }
  }

  /** The matching of the scenario's first round: both pairs clear at 94.1. */
  lemma TwoByTwoFirstMatch()
    ensures var bs1 := [BuyerState(100.0, 100.0, Some(100.0)), BuyerState(100.0, 100.0, Some(100.0))];
      var ss1 := [SellerState(1, 88.2, 0), SellerState(1, 88.2, 0)];
      MatchPre(bs1, ss1, [0, 1], [0, 1], 2)
      && MatchPairs(bs1, ss1, [0, 1], [0, 1], 2)
         == Market([BuyerState(5.9, 100.0, Some(100.0)), BuyerState(5.9, 100.0, Some(100.0))],
                   [SellerState(0, 88.2, 1), SellerState(0, 88.2, 1)], [94.1, 94.1])
  {
    var bs1 := [BuyerState(100.0, 100.0, Some(100.0)), BuyerState(100.0, 100.0, Some(100.0))];
    var ss1 := [SellerState(1, 88.2, 0), SellerState(1, 88.2, 0)];
    var ord := [0, 1];
    var m0 := Market(bs1, ss1, []);
    assert MatchPairs(bs1, ss1, ord, ord, 0) == m0;
    var m1 := Market([BuyerState(5.9, 100.0, Some(100.0)), bs1[1]],
                     [SellerState(0, 88.2, 1), ss1[1]], [94.1]);
    assert MeetPair(m0, 0, 0) == m1;
    var m2 := Market([BuyerState(5.9, 100.0, Some(100.0)), BuyerState(5.9, 100.0, Some(100.0))],
                     [SellerState(0, 88.2, 1), SellerState(0, 88.2, 1)], [94.1, 94.1]);
    assert MeetPair(m1, 1, 1) == m2;
  }

  /** The second round of the scenario above: no seller has a unit left, so nothing clears. */
  lemma TwoByTwoSecondRound()
    ensures var b1 := [BuyerState(5.9, 100.0, Some(100.0)), BuyerState(5.9, 100.0, Some(100.0))];
      var s1 := [SellerState(0, 88.2, 1), SellerState(0, 88.2, 1)];
      var r2 := Round(b1, s1, 94.1, [100.0, 100.0], [0, 1], [0, 1]);
      r2.avgPrice == 94.1 && r2.buyers == b1
      && r2.sellers == [SellerState(0, 89.964, 0), SellerState(0, 89.964, 0)]
  {
    var b1 := [BuyerState(5.9, 100.0, Some(100.0)), BuyerState(5.9, 100.0, Some(100.0))];
    var s1 := [SellerState(0, 88.2, 1), SellerState(0, 88.2, 1)];
    var ord := [0, 1];
    var bs2 := StepBuyers(b1, [100.0, 100.0]);
    var ss2 := StepSellers(s1);
    assert bs2 == b1;
    assert ss2 == [SellerState(0, 89.964, 0), SellerState(0, 89.964, 0)];
    var m0 := Market(bs2, ss2, []);
    assert MatchPairs(bs2, ss2, ord, ord, 0) == m0;
    assert MeetPair(m0, 0, 0) == m0;
    assert MeetPair(m0, 1, 1) == m0;
    assert MatchPairs(bs2, ss2, ord, ord, 2) == m0;
  }

  // ---------------------------------------------------------------------------
  // The agents and the market as objects updated in place.
  // ---------------------------------------------------------------------------

  class Buyer {
    var budget: real
    var wtp: real
    var lastBid: Option<real>

    function View(): BuyerState
      reads this
    {
      BuyerState(budget, wtp, lastBid)
    }

    /** A new buyer with drawn budget and willingness to pay, and no bid yet. */
    constructor (budgetDraw: real, wtpDraw: real)
      requires InitialDraw(budgetDraw) && InitialDraw(wtpDraw)
      ensures View() == BuyerState(budgetDraw, wtpDraw, None)
    {
      budget := budgetDraw;
      wtp := wtpDraw;
      lastBid := None;
    }

    method Step(draw: real)
      requires BidInRange(wtp, draw)
      modifies this`lastBid
      ensures View() == BuyerStep(old(View()), draw)
    {
      lastBid := Some(draw);
    }
  }

  class Seller {
    var inventory: int
    var price: real
    var sales: int
    /** Units sold over the whole run. */
    ghost var unitsSold: int

    ghost predicate Valid()
      reads this
    {
      price > 0.0 && inventory >= 0 && inventory + unitsSold == 1 && 0 <= sales <= unitsSold
    }

    function View(): SellerState
      reads this
    {
      SellerState(inventory, price, sales)
    }

    /** A new seller with one unit, a drawn price and no sales. */
    constructor (priceDraw: real)
      requires InitialDraw(priceDraw)
      ensures Valid() && unitsSold == 0
      ensures View() == SellerState(1, priceDraw, 0)
    {
      inventory := 1;
      price := priceDraw;
      sales := 0;
      unitsSold := 0;
    }

    method Step()
      requires Valid()
      modifies this`price, this`sales
      ensures Valid() && View() == SellerStep(old(View()))
    {
      if sales > 0 {
        price := price * PRICE_UP;
      } else {
        price := price * PRICE_DOWN;
      }
      sales := 0;
    }
  }

  ghost function BuyerViews(bs: seq<Buyer>): (r: seq<BuyerState>)
    reads bs
  {
    seq(|bs|, i reads bs requires 0 <= i < |bs| => bs[i].View())
  }

  ghost function SellerViews(ss: seq<Seller>): (r: seq<SellerState>)
    reads ss
  {
    seq(|ss|, j reads ss requires 0 <= j < |ss| => ss[j].View())
  }

  /** No object occurs twice in the sequence. */
  ghost predicate Distinct<T>(xs: seq<T>)
  {
    forall i, j :: 0 <= i < j < |xs| ==> xs[i] != xs[j]
  }

  class MarketModel {
    var buyers: seq<Buyer>
    var sellers: seq<Seller>
    var avgPrice: real
    /** One average price per completed round. */
    var history: seq<real>

    ghost predicate Valid()
      reads this, buyers, sellers
    {
      Distinct(buyers) && Distinct(sellers) && forall j :: 0 <= j < |sellers| ==> sellers[j].Valid()
    }

    /** A market of fresh agents built from the initial draws; average price 100. */
    constructor (numBuyers: nat, numSellers: nat, budgets: seq<real>, wtps: seq<real>, prices: seq<real>)
      requires |budgets| == numBuyers && |wtps| == numBuyers && |prices| == numSellers
      requires forall i :: 0 <= i < numBuyers ==> InitialDraw(budgets[i]) && InitialDraw(wtps[i])
      requires forall j :: 0 <= j < numSellers ==> InitialDraw(prices[j])
      ensures Valid() && |buyers| == numBuyers && |sellers| == numSellers
      ensures forall i :: 0 <= i < numBuyers ==> fresh(buyers[i])
      ensures BuyerViews(buyers) == seq(numBuyers, i requires 0 <= i < numBuyers => BuyerState(budgets[i], wtps[i], None))
      ensures forall j :: 0 <= j < numSellers ==> fresh(sellers[j]) && sellers[j].unitsSold == 0
      ensures SellerViews(sellers) == seq(numSellers, j requires 0 <= j < numSellers => SellerState(1, prices[j], 0))
      ensures avgPrice == DEFAULT_AVG_PRICE && history == []
    {
      var bs: seq<Buyer> := [];
      for i := 0 to numBuyers
        invariant |bs| == i && Distinct(bs)
        invariant forall k :: 0 <= k < i ==> fresh(bs[k]) && bs[k].View() == BuyerState(budgets[k], wtps[k], None)
      {
        var b := new Buyer(budgets[i], wtps[i]);
        bs := bs + [b];
      }
      var ss: seq<Seller> := [];
      for j := 0 to numSellers
        invariant |ss| == j && Distinct(ss)
        invariant forall k :: 0 <= k < j ==>
          (fresh(ss[k]) && ss[k].Valid() && ss[k].unitsSold == 0 && ss[k].View() == SellerState(1, prices[k], 0))
        invariant forall k :: 0 <= k < numBuyers ==> bs[k].View() == BuyerState(budgets[k], wtps[k], None)
      {
        var s := new Seller(prices[j]);
        ss := ss + [s];
      }
      buyers := bs;
      sellers := ss;
      avgPrice := DEFAULT_AVG_PRICE;
      history := [];
    }

    /** Every buyer steps with its own draw. */
    method BuyersBid(draws: seq<real>)
      requires Valid()
      requires |draws| == |buyers| && forall i :: 0 <= i < |buyers| ==> BidInRange(buyers[i].wtp, draws[i])
      modifies buyers
      ensures Valid()
      ensures |old(BuyerViews(buyers))| == |draws|
      ensures BuyerViews(buyers) == StepBuyers(old(BuyerViews(buyers)), draws)
    {
      ghost var b0 := BuyerViews(buyers);
      for i := 0 to |buyers|
        invariant forall k :: 0 <= k < i ==> buyers[k].View() == BuyerStep(b0[k], draws[k])
        invariant forall k :: i <= k < |buyers| ==> buyers[k].View() == b0[k]
      {
        buyers[i].Step(draws[i]);
      }
    }

    /** Every seller steps. */
    method SellersAdapt()
      requires Valid()
      modifies sellers
      ensures Valid()
      ensures SellerViews(sellers) == StepSellers(old(SellerViews(sellers)))
    {
      ghost var s0 := SellerViews(sellers);
      for j := 0 to |sellers|
        invariant forall k :: 0 <= k < j ==> sellers[k].View() == SellerStep(s0[k]) && sellers[k].Valid()
        invariant forall k :: j <= k < |sellers| ==> sellers[k].View() == s0[k] && sellers[k].Valid()
      {
        sellers[j].Step();
      }
    }

    /** Buyer i meets seller j: a skipped pair, a refused pair, or a trade at the midpoint.
        Only these two agents change. */
    method Meet(i: nat, j: nat) returns (o: Option<real>)
      requires Valid() && i < |buyers| && j < |sellers| && buyers[i].lastBid.Some?
      modifies buyers[i], sellers[j]
      ensures Valid()
      ensures o == Outcome(old(buyers[i].View()), old(sellers[j].View()))
      ensures BuyerViews(buyers) == old(BuyerViews(buyers))[i := BuyerAfter(old(buyers[i].View()), o)]
      ensures SellerViews(sellers) == old(SellerViews(sellers))[j := SellerAfter(old(sellers[j].View()), o)]
    {
      var b, s := buyers[i], sellers[j];
      o := None;
      if b.budget > 0.0 && s.inventory > 0 {
        var bid := b.lastBid.value;
        var ask := s.price;
        if bid >= ask {
          var tradePrice := (bid + ask) / 2.0;
          b.budget := b.budget - tradePrice;
          s.inventory := s.inventory - 1;
          s.sales := s.sales + 1;
          s.unitsSold := s.unitsSold + 1;
          o := Some(tradePrice);
        }
      }
    }

    /** Pair k of the zip meets in place: the agents and the trade list move from the
        market after k pairs to the market after k + 1 pairs. */
    method MeetNext(ghost b1: seq<BuyerState>, ghost s1: seq<SellerState>, buyerOrder: seq<nat>, sellerOrder: seq<nat>,
                    k: nat, trades: seq<real>) returns (newTrades: seq<real>)
      requires Valid() && MatchPre(b1, s1, buyerOrder, sellerOrder, k + 1)
      requires Market(BuyerViews(buyers), SellerViews(sellers), trades) == MatchPairs(b1, s1, buyerOrder, sellerOrder, k)
      modifies buyers, sellers
      ensures Valid()
      ensures Market(BuyerViews(buyers), SellerViews(sellers), newTrades)
        == MatchPairs(b1, s1, buyerOrder, sellerOrder, k + 1)
    {
      ghost var m := MatchPairs(b1, s1, buyerOrder, sellerOrder, k);
      var i, j := buyerOrder[k], sellerOrder[k];
      assert BuyerViews(buyers)[i] == buyers[i].View() && SellerViews(sellers)[j] == sellers[j].View();
      assert m.buyers[i].lastBid == b1[i].lastBid;
      var o := Meet(i, j);
      assert o == Outcome(m.buyers[i], m.sellers[j]);
      newTrades := if o.Some? then trades + [o.value] else trades;
      assert MatchPairs(b1, s1, buyerOrder, sellerOrder, k + 1) == MeetPair(m, i, j);
    }

    /** The zip of the shuffled buyers and sellers: pair k is buyer buyerOrder[k] with seller
        sellerOrder[k]; returns the clearing prices in pair order. */
    method MatchAndTrade(buyerOrder: seq<nat>, sellerOrder: seq<nat>) returns (trades: seq<real>)
      requires Valid() && AllBid(BuyerViews(buyers))
      requires IsPermutation(buyerOrder, |buyers|) && IsPermutation(sellerOrder, |sellers|)
      modifies buyers, sellers
      ensures Valid()
      ensures Market(BuyerViews(buyers), SellerViews(sellers), trades)
        == MatchPairs(old(BuyerViews(buyers)), old(SellerViews(sellers)), buyerOrder, sellerOrder, Min(|buyers|, |sellers|))
    {
      ghost var b1, s1 := BuyerViews(buyers), SellerViews(sellers);
      var n := Min(|buyers|, |sellers|);
      trades := [];
      for k := 0 to n
        invariant Valid()
        invariant Market(BuyerViews(buyers), SellerViews(sellers), trades) == MatchPairs(b1, s1, buyerOrder, sellerOrder, k)
      {
        trades := MeetNext(b1, s1, buyerOrder, sellerOrder, k, trades);
      }
    }

    /** The agent part of one round, in place: every buyer bids, every seller adapts, and
        the zipped pairs meet. The agents end as RoundMatch says, and the round's trade
        prices come back in pair order. */
    method Trade(draws: seq<real>, buyerOrder: seq<nat>, sellerOrder: seq<nat>) returns (trades: seq<real>)
      requires Valid()
      requires |draws| == |buyers| && forall i :: 0 <= i < |buyers| ==> BidInRange(buyers[i].wtp, draws[i])
      requires IsPermutation(buyerOrder, |buyers|) && IsPermutation(sellerOrder, |sellers|)
      modifies buyers, sellers
      ensures Valid()
      ensures RoundPre(old(BuyerViews(buyers)), old(SellerViews(sellers)), draws, buyerOrder, sellerOrder)
      ensures Market(BuyerViews(buyers), SellerViews(sellers), trades)
        == RoundMatch(old(BuyerViews(buyers)), old(SellerViews(sellers)), draws, buyerOrder, sellerOrder)
    {
      ghost var b0, s0 := BuyerViews(buyers), SellerViews(sellers);
      BuyersBid(draws);
      SellersAdapt();
      assert BuyerViews(buyers) == StepBuyers(b0, draws);
      assert SellerViews(sellers) == StepSellers(s0);
      trades := MatchAndTrade(buyerOrder, sellerOrder);
    }

    /** One round of the market, on the given bid draws and shuffled orders. The new agent
        states and average price are those of Round; the average price is appended to the
        history; every seller has still sold at most one unit over the run. */
    method Step(draws: seq<real>, buyerOrder: seq<nat>, sellerOrder: seq<nat>)
      requires Valid()
      requires |draws| == |buyers| && forall i :: 0 <= i < |buyers| ==> BidInRange(buyers[i].wtp, draws[i])
      requires IsPermutation(buyerOrder, |buyers|) && IsPermutation(sellerOrder, |sellers|)
      modifies this, buyers, sellers
      ensures Valid() && buyers == old(buyers) && sellers == old(sellers)
      ensures RoundPre(old(BuyerViews(buyers)), old(SellerViews(sellers)), draws, buyerOrder, sellerOrder)
      ensures RoundResult(BuyerViews(buyers), SellerViews(sellers), avgPrice)
        == Round(old(BuyerViews(buyers)), old(SellerViews(sellers)), old(avgPrice), draws, buyerOrder, sellerOrder)
      ensures history == old(history) + [avgPrice]
      ensures forall j :: 0 <= j < |sellers| ==> 0 <= sellers[j].unitsSold <= 1
    {
      ghost var b0, s0 := BuyerViews(buyers), SellerViews(sellers);
      ghost var r := Round(b0, s0, avgPrice, draws, buyerOrder, sellerOrder);
      var trades := Trade(draws, buyerOrder, sellerOrder);
      var avg := if |trades| > 0 then Mean(trades) else avgPrice;
      assert avg == r.avgPrice;
      avgPrice, history := avg, history + [avg];
    }
  }
}

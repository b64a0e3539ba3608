/** The simulated exchange of paper mode: resting orders, long lots, a cash ledger, and the
    engine that settles orders against the latest bar before every call.

    Volumes count lots of the pair, prices are real numbers of quote currency per lot, and
    percentages are plain factors. Times are reals; the clock is an argument. */
module PaperBroker {
  import opened Wrappers
  import opened Sums

  type Pair = nat
  type Symbol = nat

  datatype Side = Buy | Sell
  datatype Kind = Limit | Stop | Market
  datatype Status = Open | Closed | Canceled

  datatype Order = Order(pair: Pair, symbol: Symbol, side: Side, kind: Kind, price: real, vol: nat, status: Status,
                         exec: nat, fill: real, cost: real, fee: real, opentm: real)
  {
    predicate Ok() {
      && 0 < vol
      && (status.Closed? ==> 0 < exec <= vol)
      && (!status.Closed? ==> exec == 0)
      && cost == exec as real * fill
    }
  }

  /** A long lot; it leaves the book when nothing of it is open. */
  datatype Lot = Lot(pair: Pair, symbol: Symbol, vol: nat, closed: nat, price: real, opentm: real)
  {
    function Left(): int {
      vol - closed
    }
  }

  datatype Entry = Entry(amount: real, fee: real, balance: real)

  datatype Bar = Bar(ts: real, high: real, low: real, last: real)

  const FEE_MAKER: real := 0.0002
  const FEE_TAKER: real := 0.0005
  const SLIPPAGE: real := 0.0005
  const ROLLOVER: real := 0.00015
  const ROLLOVER_SECS: real := 14400.0

  // ── accounts ────────────────────────────────────────────────────────────────

  function OpenIn(l: Lot, p: Pair): int {
    if l.pair == p then l.Left() else 0
  }

  function OpenVol(lots: seq<Lot>, p: Pair): int {
    Sum(seq(|lots|, i requires 0 <= i < |lots| => OpenIn(lots[i], p)))
  }

  function CostLeft(l: Lot): real {
    l.Left() as real * l.price
  }

  /** What the open volume cost. */
  function OpenCost(lots: seq<Lot>): real {
    Total(seq(|lots|, i requires 0 <= i < |lots| => CostLeft(lots[i])))
  }

  function NetVol(o: Order, p: Pair): int {
    if o.pair != p then 0 else if o.side.Buy? then o.exec else 0 - o.exec
  }

  /** Executed buys minus executed sells of a pair. */
  function Traded(orders: seq<Order>, p: Pair): int {
    Sum(seq(|orders|, i requires 0 <= i < |orders| => NetVol(orders[i], p)))
  }

  function NetCash(o: Order): real {
    if o.side.Sell? then o.cost else 0.0 - o.cost
  }

  /** Sell proceeds minus buy costs over all executed orders. */
  function Proceeds(orders: seq<Order>): real {
    Total(seq(|orders|, i requires 0 <= i < |orders| => NetCash(orders[i])))
  }

  function Amounts(ledger: seq<Entry>): real {
    Total(seq(|ledger|, i requires 0 <= i < |ledger| => ledger[i].amount))
  }

  function Fees(ledger: seq<Entry>): real {
    Total(seq(|ledger|, i requires 0 <= i < |ledger| => ledger[i].fee))
  }

  // ── when an order fills, and at what price ──────────────────────────────────

  datatype Fill = Fill(price: real, taker: bool)

  function Least(a: real, b: real): real {
    if b < a then b else a
  }

  /** The outcome of settling one resting order against the latest bar. The bar's extremes
      count only if the bar opened at or after the order was placed. */
  function FillOf(o: Order, bar: Bar): Option<Fill> {
    var usable := o.opentm <= bar.ts;
    match o.kind
    case Market =>
      Some(Fill(bar.last * (if o.side.Sell? then 1.0 - SLIPPAGE else 1.0 + SLIPPAGE), true))
    case Stop =>
      if bar.last <= o.price || (usable && bar.low <= o.price)
      then Some(Fill(Least(o.price, bar.last) * (1.0 - SLIPPAGE), true))
      else None
    case Limit =>
      if (if o.side.Buy? then bar.last <= o.price || (usable && bar.low <= o.price)
          else o.price <= bar.last || (usable && o.price <= bar.high))
      then Some(Fill(o.price, false))
      else None
  }

  /** A bar that aggregates the price path of its symbol from its open up to `now`. */
  ghost predicate Aggregates(bar: Bar, path: real -> real, now: real) {
    && bar.ts <= now && bar.last == path(now)
    && (exists s: real :: Spans(s, bar.ts, now) && path(s) == bar.low)
    && (exists s: real :: Spans(s, bar.ts, now) && path(s) == bar.high)
  }

  predicate Spans(s: real, from: real, to: real) {
    from <= s <= to
  }

  /** No look-ahead: whatever the bar shows, the fill is no better for the book than some
      price the market stood at between the placing of the order and now. A stop is a sell. */
  lemma NoLookAhead(o: Order, bar: Bar, path: real -> real, now: real)
    requires Aggregates(bar, path, now) && o.opentm <= now && FillOf(o, bar).Some?
    requires o.kind.Stop? ==> o.side.Sell?
    requires 0.0 <= bar.last && 0.0 <= o.price
    ensures o.side.Buy? ==> exists s: real :: Spans(s, o.opentm, now) && path(s) <= FillOf(o, bar).value.price
    ensures o.side.Sell? ==> exists s: real :: Spans(s, o.opentm, now) && FillOf(o, bar).value.price <= path(s)
  {
  }

  /** A stop that buys would break it: the formula is the sell's, and it undercuts every price. */
  lemma BuyStopLooksAhead()
    ensures var (o, bar) := (Order(0, 0, Buy, Stop, 100.0, 1, Open, 0, 0.0, 0.0, 0.0, 0.0), Bar(0.0, 100.0, 100.0, 100.0));
            Aggregates(bar, s => 100.0, 1.0) && FillOf(o, bar).Some? && FillOf(o, bar).value.price < 100.0
  {
  }

  // ── closing lots, oldest first ──────────────────────────────────────────────

  predicate NoneSpent(lots: seq<Lot>) {
    forall i :: 0 <= i < |lots| ==> lots[i].closed < lots[i].vol
  }

  predicate OpenOf(l: Lot, p: Pair) {
    l.pair == p && l.closed < l.vol
  }

  /** `after` took volume from lots of pair `p` only, and from none while an older one of the
      pair had any left. */
  ghost predicate TakenOldestFirst(before: seq<Lot>, after: seq<Lot>, p: Pair) {
    && |after| == |before|
    && (forall i :: 0 <= i < |before| ==>
                      && after[i] == before[i].(closed := after[i].closed)
                      && before[i].closed <= after[i].closed <= Max(before[i].vol, before[i].closed)
                      && (before[i].pair != p ==> after[i] == before[i]))
    && (forall i, j :: 0 <= i < |before| && 0 <= j < |before| && before[i].pair == p
                       && before[i].opentm < before[j].opentm && before[j].closed < after[j].closed ==>
                         after[i].vol <= after[i].closed)
  }

  /** Fully retired lots leave the book. */
  function Purged(lots: seq<Lot>): (r: seq<Lot>)
    ensures NoneSpent(r)
  {
    if |lots| == 0 then []
    else
      var l := lots[|lots| - 1];
      Purged(lots[..|lots| - 1]) + if l.closed < l.vol then [l] else []
  }

  function OpenVols(lots: seq<Lot>, p: Pair): seq<int> {
    seq(|lots|, i requires 0 <= i < |lots| => OpenIn(lots[i], p))
  }

  function CostsLeft(lots: seq<Lot>): seq<real> {
    seq(|lots|, i requires 0 <= i < |lots| => CostLeft(lots[i]))
  }

  predicate NoneOver(lots: seq<Lot>) {
    forall i :: 0 <= i < |lots| ==> lots[i].closed <= lots[i].vol
  }

  lemma OpenVolPush(lots: seq<Lot>, l: Lot, p: Pair)
    ensures OpenVol(lots + [l], p) == OpenVol(lots, p) + OpenIn(l, p)
  {
    assert OpenVols(lots + [l], p) == OpenVols(lots, p) + [OpenIn(l, p)];
    SumPush(OpenVols(lots, p), OpenIn(l, p));
  }

  lemma OpenCostPush(lots: seq<Lot>, l: Lot)
    ensures OpenCost(lots + [l]) == OpenCost(lots) + CostLeft(l)
  {
    assert CostsLeft(lots + [l]) == CostsLeft(lots) + [CostLeft(l)];
    TotalPush(CostsLeft(lots), CostLeft(l));
  }

  lemma {:induction false} PurgedKeeps(lots: seq<Lot>, p: Pair)
    requires NoneOver(lots)
    ensures OpenVol(Purged(lots), p) == OpenVol(lots, p)
    ensures OpenCost(Purged(lots)) == OpenCost(lots)
  {
    hide OpenVol, OpenCost;
    if |lots| > 0 {
      var (init, l) := (lots[..|lots| - 1], lots[|lots| - 1]);
      PurgedKeeps(init, p);
      assert lots == init + [l];
      OpenVolPush(init, l, p);
      OpenCostPush(init, l);
      if l.closed < l.vol {
        OpenVolPush(Purged(init), l, p);
        OpenCostPush(Purged(init), l);
      } else {
        assert Purged(init) + [] == Purged(init);
        assert CostLeft(l) == 0.0;
      }
    }
  }

  lemma TakeFrom(lots: seq<Lot>, i: nat, take: nat, p: Pair)
    requires i < |lots| && take <= lots[i].Left()
    ensures var after := lots[i := lots[i].(closed := lots[i].closed + take)];
            && OpenVol(after, p) == OpenVol(lots, p) - (if lots[i].pair == p then take else 0)
            && OpenCost(after) == OpenCost(lots) - take as real * lots[i].price
  {
    var after := lots[i := lots[i].(closed := lots[i].closed + take)];
    SumPoint(OpenVols(lots, p), OpenVols(after, p), i);
    TotalPoint(CostsLeft(lots), CostsLeft(after), i);
    assert CostLeft(after[i]) == CostLeft(lots[i]) - take as real * lots[i].price;
  }

  lemma OpenVolZero(lots: seq<Lot>, p: Pair)
    requires NoneOver(lots)
    ensures 0 <= OpenVol(lots, p)
    ensures OpenVol(lots, p) == 0 <==> forall i :: 0 <= i < |lots| ==> !OpenOf(lots[i], p)
  {
    SumNonNegative(OpenVols(lots, p));
    if forall i :: 0 <= i < |lots| ==> !OpenOf(lots[i], p) {
      SumZeros(OpenVols(lots, p));
    } else {
      var i :| 0 <= i < |lots| && OpenOf(lots[i], p);
      assert 0 < OpenVols(lots, p)[i];
    }
  }

  method OldestOpen(lots: seq<Lot>, p: Pair) returns (at: Option<nat>)
    ensures at.None? <==> forall i :: 0 <= i < |lots| ==> !OpenOf(lots[i], p)
    ensures at.Some? ==> at.value < |lots| && OpenOf(lots[at.value], p)
    ensures at.Some? ==> forall i :: 0 <= i < |lots| && OpenOf(lots[i], p) ==> lots[at.value].opentm <= lots[i].opentm
  {
    at := None;
    for k := 0 to |lots|
      invariant at.None? <==> forall i :: 0 <= i < k ==> !OpenOf(lots[i], p)
      invariant at.Some? ==> at.value < k && OpenOf(lots[at.value], p)
      invariant at.Some? ==> forall i :: 0 <= i < k && OpenOf(lots[i], p) ==> lots[at.value].opentm <= lots[i].opentm
    {
      if OpenOf(lots[k], p) && (at.None? || lots[k].opentm < lots[at.value].opentm) {
        at := Some(k);
      }
    }
  }

  // ── the exchange ────────────────────────────────────────────────────────────

  /** What an order may have become: it executes at most once, and a finished one stays. */
  predicate Later(was: Order, now: Order) {
    && now == was.(status := now.status, exec := now.exec, fill := now.fill, cost := now.cost, fee := now.fee)
    && (!was.status.Open? ==> now == was)
  }

  ghost predicate Advanced(was: seq<Order>, now: seq<Order>) {
    |was| <= |now| && forall i :: 0 <= i < |was| ==> Later(was[i], now[i])
  }

  lemma AdvancedTwice(a: seq<Order>, b: seq<Order>, c: seq<Order>)
    requires Advanced(a, b) && Advanced(b, c)
    ensures Advanced(a, c)
  {
  }

  /** An order after its execution against `available` open volume of its pair: a buy in full,
      a sell as far as volume is held, and a sell against nothing is dropped. */
  function Executed(o: Order, f: Fill, available: nat): Order {
    var v := if o.side.Sell? then Min(o.vol, available) else o.vol;
    if v <= 0 then o.(status := Canceled)
    else
      var gross := v as real * f.price;
      o.(status := Closed, exec := v, fill := f.price, cost := gross,
         fee := gross * (if f.taker then FEE_TAKER else FEE_MAKER))
  }

  // ── the matching rule ───────────────────────────────────────────────────────

  /** A market order always executes; a limit order once the market stood at its price or better for
      it; a stop once the market stood at its trigger or under it. */
  predicate Reached(o: Order, bar: Bar) {
    var lowest := if bar.ts < o.opentm then bar.last else Least(bar.low, bar.last);
    var highest := if bar.ts < o.opentm then bar.last else 0.0 - Least(0.0 - bar.high, 0.0 - bar.last);
    o.kind.Market? || (if o.kind.Limit? && o.side.Sell? then highest >= o.price else lowest <= o.price)
  }

  /** At its own price if it rested as a limit, else a twentieth of a percent worse than the market,
      which for a stop stands no higher than the trigger. */
  function FillPrice(o: Order, bar: Bar): real {
    match (o.kind, o.side)
    case (Limit, _) => o.price
    case (Stop, _) => 0.9995 * Least(bar.last, o.price)
    case (Market, Buy) => 1.0005 * bar.last
    case (Market, Sell) => 0.9995 * bar.last
  }

  /** An open order after its turn against the latest bar, with `held` lots of its pair to sell: two
      hundredths of a percent in fees for a maker, a twentieth for a taker. */
  function Matched(o: Order, bar: Bar, held: nat): Order {
    if !Reached(o, bar) then o
    else if o.vol == 0 || (o.side.Sell? && held == 0) then o.(status := Canceled)
    else
      var sold := if o.side.Sell? && held < o.vol then held else o.vol;
      var paid := sold as real * FillPrice(o, bar);
      o.(status := Closed, exec := sold, fill := FillPrice(o, bar), cost := paid,
         fee := paid * if o.kind.Limit? then 0.0002 else 0.0005)
  }

  /** The engine does exactly this. */
  lemma FillIsMatched(o: Order, bar: Bar, held: nat)
    ensures FillOf(o, bar).None? <==> !Reached(o, bar)
    ensures FillOf(o, bar).None? ==> Matched(o, bar, held) == o
    ensures FillOf(o, bar).Some? ==> Matched(o, bar, held) == Executed(o, FillOf(o, bar).value, held)
  {
    if FillOf(o, bar).Some? {
      assert FillOf(o, bar).value.price == FillPrice(o, bar);
    }
  }

  /** The books agree. Cash is what was deposited plus the ledger; the ledger is what was sold
      for less what was bought for plus the cost of what is still held; and on every pair the
      lots hold exactly what was bought and not sold. */
  ghost predicate Balanced(orders: seq<Order>, lots: seq<Lot>, ledger: seq<Entry>, cash: real, deposits: real) {
    && NoneSpent(lots)
    && (forall i :: 0 <= i < |orders| ==> orders[i].Ok())
    && cash == deposits + Amounts(ledger) - Fees(ledger)
    && Amounts(ledger) == Proceeds(orders) + OpenCost(lots)
    && (forall p: Pair :: Traded(orders, p) == OpenVol(lots, p))
    && (|ledger| > 0 ==> ledger[|ledger| - 1].balance == cash)
  }

  class Exchange {
    var orders: seq<Order>
    var lots: seq<Lot>
    var ledger: seq<Entry>
    var cash: real
    var rolloverNext: real
    const deposits: real

    ghost predicate Valid()
      reads this
    {
      Balanced(orders, lots, ledger, cash, deposits)
    }

    constructor (deposits: real)
      ensures Valid() && orders == [] && lots == [] && ledger == [] && cash == deposits
      ensures this.deposits == deposits
    {
      this.deposits := deposits;
      orders, lots, ledger, cash, rolloverNext := [], [], [], deposits, 0.0;
    }

    /** Move cash and record it. */
    method Credit(amount: real, fee: real)
      modifies this`cash, this`ledger
      ensures cash == old(cash) + amount - fee
      ensures ledger == old(ledger) + [Entry(amount, fee, cash)]
    {
      cash := cash + amount - fee;
      ledger := ledger + [Entry(amount, fee, cash)];
    }

    /** The loop over the lots, oldest first. */
    method TakeLongs(p: Pair, volume: nat, price: real) returns (realized: real)
      requires NoneOver(lots)
      modifies this`lots
      ensures NoneOver(lots) && TakenOldestFirst(old(lots), lots, p)
      ensures Taken(old(lots), lots, p, Min(volume, OpenVol(old(lots), p)), price, realized)
    {
      hide OpenVol, OpenCost, TakenOldestFirst;
      ghost var was := lots;
      var remaining := volume;
      realized := 0.0;
      NothingTaken(was, p, price);
      var at: Option<nat> := OldestOpen(lots, p);
      OpenVolZero(lots, p);
      while remaining > 0 && at.Some?
        invariant 0 <= remaining <= volume && NoneOver(lots) && TakenOldestFirst(was, lots, p)
        invariant at.None? ==> OpenVol(lots, p) == 0
        invariant at.Some? ==> at.value < |lots| && OpenOf(lots[at.value], p)
        invariant at.Some? ==> forall i :: 0 <= i < |lots| && OpenOf(lots[i], p) ==> lots[at.value].opentm <= lots[i].opentm
        invariant Taken(was, lots, p, volume - remaining, price, realized)
        invariant 0 <= OpenVol(lots, p)
        decreases remaining
      {
        var i := at.value;
        var take := Min(remaining, lots[i].vol - lots[i].closed);
        TakenStep(was, lots, i, take, p);
        TakenMore(was, lots, i, take, p, volume - remaining, price, realized);
        realized := realized + take as real * (price - lots[i].price);
        remaining := remaining - take;
        lots := lots[i := lots[i].(closed := lots[i].closed + take)];
        at := OldestOpen(lots, p);
        OpenVolZero(lots, p);
      }
      assert OpenVol(lots, p) == OpenVol(was, p) - (volume - remaining);
      assert volume - remaining == Min(volume, OpenVol(was, p));
    }

    /** Retire `volume` of a pair's long exposure, oldest lot first; what is not there cannot
        be retired. Returns the gross profit realized. */
    method CloseLongs(p: Pair, volume: nat, price: real) returns (realized: real, ghost mid: seq<Lot>)
      requires NoneSpent(lots)
      modifies this`lots
      ensures NoneSpent(lots) && lots == Purged(mid) && TakenOldestFirst(old(lots), mid, p)
      ensures Taken(old(lots), lots, p, Min(volume, OpenVol(old(lots), p)), price, realized)
    {
      hide OpenVol, OpenCost, TakenOldestFirst;
      realized := TakeLongs(p, volume, price);
      mid := lots;
      lots := Purged(lots);
      forall q: Pair ensures OpenVol(lots, q) == OpenVol(mid, q) && OpenCost(lots) == OpenCost(mid) {
        PurgedKeeps(mid, q);
      }
    }

    /** Execute an open order and settle what it does to the position. */
    method Execute(i: nat, f: Fill, now: real)
      requires Valid() && i < |orders| && orders[i].status.Open?
      modifies this`orders, this`lots, this`ledger, this`cash
      ensures Valid() && Advanced(old(orders), orders)
      ensures orders == old(orders)[i := Executed(old(orders)[i], f, Max(0, OpenVol(old(lots), old(orders)[i].pair)))]
    {
      hide OpenVol, OpenCost, Amounts, Fees, Proceeds, Traded, Purged;
      var o := orders[i];
      HeldIsOpen(lots, o.pair);
      var done := Executed(o, f, OpenVol(lots, o.pair));
      ghost var (orders0, lots0, ledger0, cash0) := (orders, lots, ledger, cash);
      orders := orders[i := done];
      if done.status.Canceled? {
        CancelBalances(orders0, lots, ledger, cash, deposits, i);
      } else if o.side.Buy? {
        lots := lots + [Lot(o.pair, o.symbol, o.vol, 0, f.price, now)];
        Credit(0.0, done.fee);
        assert done == Executed(o, f, 0) && ledger == ledger0 + [Entry(0.0, done.fee, cash)];
        BuyBalances(orders0, lots0, ledger0, cash0, deposits, i, f, now, cash);
      } else {
        ghost var mid;
        var realized;
        realized, mid := CloseLongs(o.pair, done.exec, f.price);
        Credit(realized, done.fee);
        SellBalances(orders0, lots0, ledger0, cash0, deposits, i, f, lots, realized, cash);
      }
    }

    /** Settle the open orders among `ids`, one after the other, against the latest bars. */
    method SettleAll(ids: seq<nat>, bars: map<Symbol, Bar>, now: real)
      requires Valid() && (forall k :: 0 <= k < |ids| ==> ids[k] < |orders| && orders[ids[k]].status.Open?)
      requires forall j, k :: 0 <= j < k < |ids| ==> ids[j] != ids[k]
      modifies this`orders, this`lots, this`ledger, this`cash
      ensures Valid() && Advanced(old(orders), orders) && |orders| == |old(orders)|
      ensures orders == SettleFrom(old(orders), ids, bars)
      ensures forall i :: 0 <= i < |orders| ==>
                            if i in ids then SettledAs(old(orders)[i], orders[i], bars) else orders[i] == old(orders)[i]
    {
      hide Balanced, FillOf, Executed, OpenVol, Traded, Matched, SettledAs, SettleFrom;
      ghost var was := orders;
      SettleFromNone(was, bars);
      assert ids[..0] == [];
      for k := 0 to |ids|
        invariant Valid() && Advanced(was, orders) && |orders| == |was|
        invariant orders == SettleFrom(was, ids[..k], bars)
        invariant forall i :: 0 <= i < |orders| ==>
                                if i in ids[..k] then SettledAs(was[i], orders[i], bars) else orders[i] == was[i]
      {
        var i := ids[k];
        ghost var mid := orders;
        assert ids[..k + 1] == ids[..k] + [i] && i !in ids[..k];
        var o := orders[i];
        SettleFromPush(was, ids[..k], i, bars);
        if o.symbol in bars {
          OrderIsOk(orders, lots, ledger, cash, deposits, i);
          LotsAreTraded(orders, lots, ledger, cash, deposits, o.pair);
          FillIsMatched(o, bars[o.symbol], Max(0, OpenVol(lots, o.pair)));
          MatchedIsSettled(o, bars, Max(0, OpenVol(lots, o.pair)));
        } else {
          NoBarNoChange(o, bars);
        }
        if o.symbol in bars && FillOf(o, bars[o.symbol]).Some? {
          Execute(i, FillOf(o, bars[o.symbol]).value, now);
          AdvancedTwice(was, mid, orders);
        }
      }
      assert ids[..|ids|] == ids;
    }

    method FindOpen(stops: bool) returns (ids: seq<nat>)
      ensures ids == OpenIds(orders, stops)
    {
      ids := [];
      for n := 0 to |orders|
        invariant ids == OpenIds(orders[..n], stops)
      {
        assert orders[..n + 1][..n] == orders[..n];
        if orders[n].status.Open? && orders[n].kind.Stop? == stops {
          ids := ids + [n];
        }
      }
      assert orders[..|orders|] == orders;
    }

    /** Advance to the current market: every open order is settled, all stops before anything
        else, and the rollover is charged when due. */
    method Settle(bars: map<Symbol, Bar>, now: real) returns (ghost mid: seq<Order>)
      requires Valid()
      modifies this`orders, this`lots, this`ledger, this`cash, this`rolloverNext
      ensures Valid() && Advanced(old(orders), orders)
      ensures |orders| == |mid| == |old(orders)|
      ensures mid == SettleFrom(old(orders), OpenIds(old(orders), true), bars)
      ensures orders == SettleFrom(mid, OpenIds(old(orders), false), bars) == SettledBy(old(orders), bars)
      ensures SettledPhase(old(orders), mid, bars, true) && SettledPhase(mid, orders, bars, false)
      ensures rolloverNext == if now < old(rolloverNext) && 0.0 < old(rolloverNext) then old(rolloverNext) else now + 14400.0
      ensures 0.0 < old(rolloverNext) <= now && 0.0 < OpenCost(lots) * 0.00015 ==>
                0 < |ledger| && ledger[|ledger| - 1] == Entry(0.0, OpenCost(lots) * 0.00015, cash)
    {
      hide Balanced, FillOf, Executed, SettleFrom, OpenCost;
      var stops := FindOpen(true);
      var others := FindOpen(false);
      ghost var was := orders;
      OpenIdsListed(was, true);
      OpenIdsListed(was, false);
      SettleAll(stops, bars, now);
      mid := orders;
      SettleAll(others, bars, now);
      AdvancedTwice(was, mid, orders);
      AccrueRollover(now);
    }

    method Financing() returns (total: real)
      ensures total == OpenCost(lots) * ROLLOVER
    {
      total := 0.0;
      for k := 0 to |lots|
        invariant total == OpenCost(lots[..k]) * ROLLOVER
      {
        assert lots[..k + 1] == lots[..k] + [lots[k]];
        OpenCostPush(lots[..k], lots[k]);
        total := total + (lots[k].vol - lots[k].closed) as real * lots[k].price * ROLLOVER;
      }
      assert lots[..|lots|] == lots;
    }

    /** Financing on the cost of everything open, every four hours. */
    method AccrueRollover(now: real)
      requires Valid()
      modifies this`ledger, this`cash, this`rolloverNext
      ensures Valid()
      ensures var due := 0.0 < old(rolloverNext) <= now && 0.0 < OpenCost(lots) * 0.00015;
              && cash == old(cash) - (if due then OpenCost(lots) * 0.00015 else 0.0)
              && ledger == old(ledger) + if due then [Entry(0.0, OpenCost(lots) * 0.00015, cash)] else []
      ensures rolloverNext == if 0.0 < old(rolloverNext) && now < old(rolloverNext) then old(rolloverNext)
                              else now + 14400.0
    {
      if rolloverNext <= 0.0 {
        rolloverNext := now + ROLLOVER_SECS;
        return;
      }
      if now < rolloverNext {
        return;
      }
      rolloverNext := now + ROLLOVER_SECS;
      var total := Financing();
      if 0.0 < total {
        ghost var ledger0 := ledger;
        Credit(0.0, total);
        LedgerPush(ledger0, Entry(0.0, total, cash));
      }
    }

    /** AddOrder: the market advances first, then the order is checked and rests. Prices are in
        ticks and volumes in lots here, so the precision rules ask for whole numbers. */
    method AddOrder(t: Ticket, symbolOf: map<Pair, Symbol>, bars: map<Symbol, Bar>, now: real)
      returns (r: Reply, ghost settled: seq<Order>)
      requires Valid()
      modifies this`orders, this`lots, this`ledger, this`cash, this`rolloverNext
      ensures Valid() && Advanced(old(orders), orders) && Advanced(old(orders), settled) && |settled| == |old(orders)|
      ensures settled == SettledBy(old(orders), bars) && orders == AfterCall(old(orders), Place(t), symbolOf, bars, now)
      ensures r.Added? || r.Checked? <==> Acceptable(t, symbolOf, bars)
      ensures r.Added? ==> !t.validate && r.id == |settled|
      ensures r.Checked? ==> t.validate
      ensures r.Added? ==>
                orders == settled + [Order(t.pair, symbolOf[t.pair], t.side, t.kind, if t.kind.Market? then 0.0 else t.price,
                                           t.volume.Floor, Open, 0, 0.0, 0.0, 0.0, now)]
      ensures !r.Added? ==> orders == settled
      ensures r.Refused? ==> r.why == FirstFault(t, symbolOf)
    {
      hide Balanced, SettledPhase, FillOf, SettledBy, SettleFrom, OpenIds;
      ghost var mid := Settle(bars, now);
      settled := orders;
      if t.pair !in symbolOf {
        return Refused(UnknownPair), settled;
      }
      var symbol := symbolOf[t.pair];
      if t.volume <= 0.0 {
        return Refused(InvalidVolume), settled;
      }
      var price := if t.kind.Market? then 0.0 else t.price;
      if price != 0.0 && !t.kind.Market? && price.Floor as real != price {
        return Refused(InvalidPrice), settled;
      }
      if t.volume.Floor as real != t.volume {
        return Refused(InvalidVolume), settled;
      }
      if t.postOnly && symbol in bars && t.kind.Limit?
         && (if t.side.Buy? then bars[symbol].last < price else price < bars[symbol].last) {
        return Refused(PostOnly), settled;
      }
      if t.validate {
        return Checked, settled;
      }
      ghost var was := orders;
      var o := Order(t.pair, symbol, t.side, t.kind, price, t.volume.Floor, Open, 0, 0.0, 0.0, 0.0, now);
      orders := orders + [o];
      RestBalances(was, o, lots, ledger, cash, deposits);
      assert Advanced(settled, orders);
      AdvancedTwice(old(orders), settled, orders);
      r := Added(|orders| - 1);
    }

    /** CancelOrder after the market advanced. The count is zero for an order that is not open,
        and then nothing changes. */
    method Cancel(i: nat, bars: map<Symbol, Bar>, now: real) returns (count: nat, ghost settled: seq<Order>)
      requires Valid()
      modifies this`orders, this`lots, this`ledger, this`cash, this`rolloverNext
      ensures Valid() && Advanced(old(orders), orders) && Advanced(old(orders), settled) && |settled| == |old(orders)|
      ensures settled == SettledBy(old(orders), bars) && orders == AfterCall(old(orders), Remove(i), map[], bars, now)
      ensures count == if i < |settled| && settled[i].status.Open? then 1 else 0
      ensures orders == if count == 1 then settled[i := settled[i].(status := Canceled)] else settled
    {
      hide Balanced, SettledPhase, FillOf, SettledBy, SettleFrom, OpenIds;
      ghost var mid := Settle(bars, now);
      settled := orders;
      count := 0;
      if i < |orders| && orders[i].status.Open? {
        CancelBalances(orders, lots, ledger, cash, deposits, i);
        orders := orders[i := orders[i].(status := Canceled)];
        assert Advanced(settled, orders);
        AdvancedTwice(old(orders), settled, orders);
        count := 1;
      }
    }

    /** Equity as TradeBalance reports it: cash plus unrealized profit, a lot without a mark
        counting at its own cost. */
    method TradeBalance(bars: map<Symbol, Bar>) returns (equity: real)
      requires Valid()
      ensures equity == deposits + Proceeds(orders) + Worth(lots, bars) - Fees(ledger)
    {
      hide Fees, Proceeds, Amounts, Traded, OpenVol;
      var basis, value := 0.0, 0.0;
      for k := 0 to |lots|
        invariant basis == OpenCost(lots[..k]) && value == Worth(lots[..k], bars)
      {
        assert lots[..k + 1] == lots[..k] + [lots[k]];
        OpenCostPush(lots[..k], lots[k]);
        WorthPush(lots[..k], lots[k], bars);
        var open := lots[k].vol - lots[k].closed;
        if 0 < open {
          basis := basis + open as real * lots[k].price;
          var mark := if lots[k].symbol in bars then bars[lots[k].symbol].last else lots[k].price;
          value := value + open as real * mark;
        }
      }
      assert lots[..|lots|] == lots;
      equity := cash + (value - basis);
    }
  }

  // ── what is asked and answered ──────────────────────────────────────────────

  datatype Ticket = Ticket(pair: Pair, side: Side, kind: Kind, price: real, volume: real, postOnly: bool, validate: bool)
  datatype Reason = UnknownPair | InvalidVolume | InvalidPrice | PostOnly
  datatype Reply = Added(id: nat) | Checked | Refused(why: Reason)

  /** Accepted exactly if the pair is known, the volume is a positive whole number of lots, the
      price is on the tick grid (a market order has none), and a post-only limit order does
      not strictly cross the last price; resting at the touch is allowed. */
  predicate Acceptable(t: Ticket, symbolOf: map<Pair, Symbol>, bars: map<Symbol, Bar>) {
    && t.pair in symbolOf && 0.0 < t.volume && t.volume.Floor as real == t.volume
    && (!t.kind.Market? ==> t.price.Floor as real == t.price)
    && (t.postOnly && t.kind.Limit? && symbolOf[t.pair] in bars ==>
          if t.side.Buy? then t.price <= bars[symbolOf[t.pair]].last else bars[symbolOf[t.pair]].last <= t.price)
  }

  /** What a refused order is told: the first fault in the exchange's order of checks. */
  function FirstFault(t: Ticket, symbolOf: map<Pair, Symbol>): Reason {
    if t.pair !in symbolOf then UnknownPair
    else if t.volume <= 0.0 then InvalidVolume
    else if !t.kind.Market? && t.price.Floor as real != t.price then InvalidPrice
    else if t.volume.Floor as real != t.volume then InvalidVolume
    else PostOnly
  }

  /** Settling an open order: it stays as it is if its symbol has no bar or the bar does not
      reach it, and otherwise is finished, at the price of the fill. */
  predicate SettledAs(o: Order, now: Order, bars: map<Symbol, Bar>) {
    if o.symbol !in bars || !Reached(o, bars[o.symbol]) then now == o
    else !now.status.Open? && now == Matched(o, bars[o.symbol], now.exec) && (o.side.Buy? ==> now.exec == o.vol)
  }

  /** One half of a settlement: the open stops, or all other open orders; the rest untouched. */
  ghost predicate SettledPhase(was: seq<Order>, now: seq<Order>, bars: map<Symbol, Bar>, stops: bool) {
    && |now| == |was|
    && forall i :: 0 <= i < |was| ==>
                     if was[i].status.Open? && was[i].kind.Stop? == stops then SettledAs(was[i], now[i], bars)
                     else now[i] == was[i]
  }

  /** The open stops, or all other open orders, in the order of the table. */
  function OpenIds(orders: seq<Order>, stops: bool): seq<nat> {
    if |orders| == 0 then []
    else
      var n := |orders| - 1;
      OpenIds(orders[..n], stops) + if orders[n].status.Open? && orders[n].kind.Stop? == stops then [n] else []
  }

  lemma {:induction false} OpenIdsListed(orders: seq<Order>, stops: bool)
    ensures forall i: nat :: i in OpenIds(orders, stops) <==>
                               i < |orders| && orders[i].status.Open? && orders[i].kind.Stop? == stops
    ensures forall k :: 0 <= k < |OpenIds(orders, stops)| ==>
                          var i := OpenIds(orders, stops)[k];
                          i < |orders| && orders[i].status.Open? && orders[i].kind.Stop? == stops
    ensures forall j, k :: 0 <= j < k < |OpenIds(orders, stops)| ==> OpenIds(orders, stops)[j] < OpenIds(orders, stops)[k]
  {
    if |orders| > 0 {
      OpenIdsListed(orders[..|orders| - 1], stops);
    }
  }

  /** Orders settled one after the other, each sell against what the executions so far leave of
      its pair. */
  function SettleFrom(orders: seq<Order>, ids: seq<nat>, bars: map<Symbol, Bar>): seq<Order> {
    if |ids| == 0 then orders
    else
      var (before, i) := (SettleFrom(orders, ids[..|ids| - 1], bars), ids[|ids| - 1]);
      if i < |before| && before[i].symbol in bars
      then before[i := Matched(before[i], bars[before[i].symbol], Max(0, Traded(before, before[i].pair)))]
      else before
  }

  lemma SettleFromNone(orders: seq<Order>, bars: map<Symbol, Bar>)
    ensures SettleFrom(orders, [], bars) == orders
  {
  }

  lemma SettleFromPush(orders: seq<Order>, ids: seq<nat>, i: nat, bars: map<Symbol, Bar>)
    ensures var before := SettleFrom(orders, ids, bars);
            SettleFrom(orders, ids + [i], bars)
            == if i < |before| && before[i].symbol in bars
               then before[i := Matched(before[i], bars[before[i].symbol], Max(0, Traded(before, before[i].pair)))]
               else before
  {
    assert (ids + [i])[..|ids|] == ids;
  }

  /** The orders after the market advanced to the latest bars: all stops first, then the others. */
  function SettledBy(orders: seq<Order>, bars: map<Symbol, Bar>): seq<Order> {
    SettleFrom(SettleFrom(orders, OpenIds(orders, true), bars), OpenIds(orders, false), bars)
  }

  datatype Call = Place(t: Ticket) | Remove(i: nat) | Wait

  /** The orders after one call: settled, and then with the new one or without the canceled one. */
  function AfterCall(orders: seq<Order>, c: Call, symbolOf: map<Pair, Symbol>, bars: map<Symbol, Bar>, now: real): seq<Order> {
    var settled := SettledBy(orders, bars);
    match c
    case Place(t) =>
      if Acceptable(t, symbolOf, bars) && !t.validate
      then settled + [Order(t.pair, symbolOf[t.pair], t.side, t.kind, if t.kind.Market? then 0.0 else t.price,
                            t.volume.Floor, Open, 0, 0.0, 0.0, 0.0, now)]
      else settled
    case Remove(i) =>
      if i < |settled| && settled[i].status.Open? then settled[i := settled[i].(status := Canceled)] else settled
    case Wait => settled
  }

  /** The orders after the first `n` calls from a fresh account. */
  function OrdersAfter(calls: seq<Call>, symbolOf: map<Pair, Symbol>, tape: seq<map<Symbol, Bar>>, clock: seq<real>,
                       n: nat): seq<Order>
    requires n <= |calls| && n <= |tape| == |clock|
  {
    if n == 0 then []
    else AfterCall(OrdersAfter(calls, symbolOf, tape, clock, n - 1), calls[n - 1], symbolOf, tape[n - 1], clock[n - 1])
  }

  lemma MatchedIsSettled(o: Order, bars: map<Symbol, Bar>, held: nat)
    requires o.status.Open? && o.Ok() && o.symbol in bars
    ensures SettledAs(o, Matched(o, bars[o.symbol], held), bars)
  {
    hide Reached, FillPrice;
  }

  lemma NoBarNoChange(o: Order, bars: map<Symbol, Bar>)
    requires o.symbol !in bars
    ensures SettledAs(o, o, bars)
  {
  }

  lemma OrderIsOk(orders: seq<Order>, lots: seq<Lot>, ledger: seq<Entry>, cash: real, deposits: real, i: nat)
    requires Balanced(orders, lots, ledger, cash, deposits) && i < |orders|
    ensures orders[i].Ok()
  {
  }

  lemma RestBalances(orders: seq<Order>, o: Order, lots: seq<Lot>, ledger: seq<Entry>, cash: real, deposits: real)
    requires Balanced(orders, lots, ledger, cash, deposits)
    requires o.status.Open? && 0 < o.vol && o.exec == 0 && o.cost == 0.0
    ensures Balanced(orders + [o], lots, ledger, cash, deposits)
  {
    hide OpenVol, OpenCost, Amounts, Fees;
    var more := orders + [o];
    var c := seq(|orders|, k requires 0 <= k < |orders| => NetCash(orders[k]));
    assert seq(|more|, k requires 0 <= k < |more| => NetCash(more[k])) == c + [0.0];
    TotalPush(c, 0.0);
    forall p: Pair ensures Traded(more, p) == Traded(orders, p) {
      var v := seq(|orders|, k requires 0 <= k < |orders| => NetVol(orders[k], p));
      assert seq(|more|, k requires 0 <= k < |more| => NetVol(more[k], p)) == v + [0];
      SumPush(v, 0);
    }
  }

  // ── equity ──────────────────────────────────────────────────────────────────

  function Mark(l: Lot, bars: map<Symbol, Bar>): real {
    if l.symbol in bars then bars[l.symbol].last else l.price
  }

  function WorthOf(l: Lot, bars: map<Symbol, Bar>): real {
    l.Left() as real * Mark(l, bars)
  }

  /** What the open volume is worth at the marks. */
  function Worth(lots: seq<Lot>, bars: map<Symbol, Bar>): real {
    Total(seq(|lots|, i requires 0 <= i < |lots| => WorthOf(lots[i], bars)))
  }

  lemma WorthPush(lots: seq<Lot>, l: Lot, bars: map<Symbol, Bar>)
    ensures Worth(lots + [l], bars) == Worth(lots, bars) + WorthOf(l, bars)
  {
    var w := seq(|lots|, i requires 0 <= i < |lots| => WorthOf(lots[i], bars));
    var more := lots + [l];
    assert seq(|more|, i requires 0 <= i < |more| => WorthOf(more[i], bars)) == w + [WorthOf(l, bars)];
    TotalPush(w, WorthOf(l, bars));
  }

  /** Never short: whatever rests for sale, executed sells never exceed executed buys. */
  lemma NeverSoldShort(orders: seq<Order>, lots: seq<Lot>, ledger: seq<Entry>, cash: real, deposits: real, p: Pair)
    requires Balanced(orders, lots, ledger, cash, deposits)
    ensures 0 <= Traded(orders, p)
  {
    OpenVolZero(lots, p);
  }

  /** Any run of calls from a fresh account leaves exactly the orders these calls and the tape make
      and keeps the books balanced, and at its end equity is deposits plus sell proceeds less buy
      costs plus the marked open volume less all fees. */
  method Run(deposits: real, calls: seq<Call>, symbolOf: map<Pair, Symbol>, tape: seq<map<Symbol, Bar>>, clock: seq<real>)
    returns (x: Exchange, equity: real)
    requires |tape| == |clock| == |calls| + 1
    ensures x.Valid() && x.deposits == deposits
    ensures x.orders == OrdersAfter(calls, symbolOf, tape, clock, |calls|)
    ensures equity == deposits + Proceeds(x.orders) + Worth(x.lots, tape[|calls|]) - Fees(x.ledger)
    ensures forall p: Pair :: 0 <= Traded(x.orders, p) == OpenVol(x.lots, p)
  {
    hide Balanced, OpenVol, Traded, Proceeds, Worth, Fees, Acceptable, AfterCall, SettledBy, SettledPhase, SettleFrom, OpenIds;
    x := new Exchange(deposits);
    for k := 0 to |calls|
      invariant x.Valid() && x.deposits == deposits && fresh(x)
      invariant x.orders == OrdersAfter(calls, symbolOf, tape, clock, k)
    {
      ghost var was := x.orders;
      match calls[k] {
        case Place(t) =>
          ghost var s;
          var r;
          r, s := x.AddOrder(t, symbolOf, tape[k], clock[k]);
        case Remove(i) =>
          ghost var s;
          var n;
          n, s := x.Cancel(i, tape[k], clock[k]);
          AnySymbols(was, i, symbolOf, tape[k], clock[k]);
        case Wait =>
          ghost var m := x.Settle(tape[k], clock[k]);
          JustSettled(was, symbolOf, tape[k], clock[k]);
      }
    }
    equity := x.TradeBalance(tape[|calls|]);
    forall p: Pair ensures 0 <= Traded(x.orders, p) == OpenVol(x.lots, p) {
      NeverSoldShort(x.orders, x.lots, x.ledger, x.cash, x.deposits, p);
      LotsAreTraded(x.orders, x.lots, x.ledger, x.cash, x.deposits, p);
    }
  }

  lemma AnySymbols(orders: seq<Order>, i: nat, symbolOf: map<Pair, Symbol>, bars: map<Symbol, Bar>, now: real)
    ensures AfterCall(orders, Remove(i), map[], bars, now) == AfterCall(orders, Remove(i), symbolOf, bars, now)
  {
    hide SettledBy;
  }

  lemma JustSettled(orders: seq<Order>, symbolOf: map<Pair, Symbol>, bars: map<Symbol, Bar>, now: real)
    ensures AfterCall(orders, Wait, symbolOf, bars, now) == SettledBy(orders, bars)
  {
    hide SettledBy;
  }

  lemma LotsAreTraded(orders: seq<Order>, lots: seq<Lot>, ledger: seq<Entry>, cash: real, deposits: real, p: Pair)
    requires Balanced(orders, lots, ledger, cash, deposits)
    ensures Traded(orders, p) == OpenVol(lots, p)
  {
  }

  /** Exactly `took` left pair `p`, nothing left the others, and `realized` is its proceeds at
      `price` less what it had cost. */
  ghost predicate Taken(was: seq<Lot>, now: seq<Lot>, p: Pair, took: int, price: real, realized: real) {
    && (forall q: Pair :: OpenVol(now, q) == OpenVol(was, q) - if q == p then took else 0)
    && realized == took as real * price - (OpenCost(was) - OpenCost(now))
  }

  lemma NothingTaken(lots: seq<Lot>, p: Pair, price: real)
    ensures TakenOldestFirst(lots, lots, p) && Taken(lots, lots, p, 0, price, 0.0)
  {
  }

  lemma TakenMore(was: seq<Lot>, now: seq<Lot>, i: nat, take: nat, p: Pair, took: int, price: real, realized: real)
    requires Taken(was, now, p, took, price, realized)
    requires i < |now| && now[i].pair == p && take <= now[i].Left()
    ensures Taken(was, now[i := now[i].(closed := now[i].closed + take)], p, took + take, price,
                  realized + take as real * (price - now[i].price))
  {
    hide OpenVol, OpenCost;
    var after := now[i := now[i].(closed := now[i].closed + take)];
    forall q: Pair
      ensures OpenVol(after, q) == OpenVol(now, q) - (if q == p then take else 0)
      ensures OpenCost(after) == OpenCost(now) - take as real * now[i].price
    {
      TakeFrom(now, i, take, q);
    }
    TakeFrom(now, i, take, p);
    TakeArithmetic(took + take, take, price, now[i].price);
  }

  lemma TakeArithmetic(took: int, take: int, price: real, entry: real)
    ensures take as real * (price - entry) == take as real * price - take as real * entry
    ensures took as real * price == (took - take) as real * price + take as real * price
  {
  }

  lemma TakenStep(was: seq<Lot>, now: seq<Lot>, i: nat, take: nat, p: Pair)
    requires TakenOldestFirst(was, now, p) && NoneOver(was) && NoneOver(now)
    requires i < |now| && OpenOf(now[i], p) && take <= now[i].Left()
    requires forall j :: 0 <= j < |now| && OpenOf(now[j], p) ==> now[i].opentm <= now[j].opentm
    ensures TakenOldestFirst(was, now[i := now[i].(closed := now[i].closed + take)], p)
  {
  }

  lemma HeldIsOpen(lots: seq<Lot>, p: Pair)
    requires NoneSpent(lots)
    ensures 0 <= OpenVol(lots, p)
  {
    OpenVolZero(lots, p);
  }

  lemma LedgerPush(ledger: seq<Entry>, e: Entry)
    ensures Amounts(ledger + [e]) == Amounts(ledger) + e.amount
    ensures Fees(ledger + [e]) == Fees(ledger) + e.fee
  {
    var amounts := seq(|ledger|, i requires 0 <= i < |ledger| => ledger[i].amount);
    var fees := seq(|ledger|, i requires 0 <= i < |ledger| => ledger[i].fee);
    var more := ledger + [e];
    assert seq(|more|, i requires 0 <= i < |more| => more[i].amount) == amounts + [e.amount];
    assert seq(|more|, i requires 0 <= i < |more| => more[i].fee) == fees + [e.fee];
    TotalPush(amounts, e.amount);
    TotalPush(fees, e.fee);
  }

  lemma OrderMoves(orders: seq<Order>, i: nat, o: Order, p: Pair)
    requires i < |orders| && o.pair == orders[i].pair
    ensures Traded(orders[i := o], p) == Traded(orders, p) + NetVol(o, p) - NetVol(orders[i], p)
    ensures Proceeds(orders[i := o]) == Proceeds(orders) + NetCash(o) - NetCash(orders[i])
  {
    var after := orders[i := o];
    var v, v': seq<int> := seq(|orders|, k requires 0 <= k < |orders| => NetVol(orders[k], p)),
                           seq(|after|, k requires 0 <= k < |after| => NetVol(after[k], p));
    var c, c': seq<real> := seq(|orders|, k requires 0 <= k < |orders| => NetCash(orders[k])),
                            seq(|after|, k requires 0 <= k < |after| => NetCash(after[k]));
    SumPoint(v, v', i);
    TotalPoint(c, c', i);
  }

  lemma CancelBalances(orders: seq<Order>, lots: seq<Lot>, ledger: seq<Entry>, cash: real, deposits: real, i: nat)
    requires Balanced(orders, lots, ledger, cash, deposits) && i < |orders| && orders[i].status.Open?
    ensures Balanced(orders[i := orders[i].(status := Canceled)], lots, ledger, cash, deposits)
  {
    hide OpenVol, OpenCost, Amounts, Fees, Proceeds, Traded;
    forall p: Pair
      ensures Traded(orders[i := orders[i].(status := Canceled)], p) == Traded(orders, p)
    {
      OrderMoves(orders, i, orders[i].(status := Canceled), p);
    }
    OrderMoves(orders, i, orders[i].(status := Canceled), 0);
  }

  lemma BuyBalances(orders: seq<Order>, lots: seq<Lot>, ledger: seq<Entry>, cash: real, deposits: real, i: nat, f: Fill,
                    now: real, cash': real)
    requires Balanced(orders, lots, ledger, cash, deposits)
    requires i < |orders| && orders[i].status.Open? && orders[i].side.Buy?
    requires cash' == cash - Executed(orders[i], f, 0).fee
    ensures var o := orders[i]; var done := Executed(o, f, 0);
            Balanced(orders[i := done], lots + [Lot(o.pair, o.symbol, o.vol, 0, f.price, now)],
                     ledger + [Entry(0.0, done.fee, cash')], cash', deposits)
  {
    hide OpenVol, OpenCost, Amounts, Fees, Proceeds, Traded;
    var o := orders[i];
    var done := Executed(o, f, 0);
    var lot := Lot(o.pair, o.symbol, o.vol, 0, f.price, now);
    LedgerPush(ledger, Entry(0.0, done.fee, cash'));
    OpenCostPush(lots, lot);
    OrderMoves(orders, i, done, 0);
    forall p: Pair ensures Traded(orders[i := done], p) == OpenVol(lots + [lot], p) {
      OrderMoves(orders, i, done, p);
      OpenVolPush(lots, lot, p);
      assert Traded(orders, p) == OpenVol(lots, p);
    }
  }

  lemma SellBalances(orders: seq<Order>, lots: seq<Lot>, ledger: seq<Entry>, cash: real, deposits: real, i: nat, f: Fill,
                     lots': seq<Lot>, realized: real, cash': real)
    requires Balanced(orders, lots, ledger, cash, deposits) && NoneSpent(lots')
    requires i < |orders| && orders[i].status.Open? && orders[i].side.Sell? && 0 < OpenVol(lots, orders[i].pair)
    requires var done := Executed(orders[i], f, OpenVol(lots, orders[i].pair));
             Taken(lots, lots', orders[i].pair, done.exec, f.price, realized)
             && cash' == cash + realized - done.fee
    ensures var done := Executed(orders[i], f, OpenVol(lots, orders[i].pair));
            Balanced(orders[i := done], lots', ledger + [Entry(realized, done.fee, cash')], cash', deposits)
  {
    hide OpenVol, OpenCost, Amounts, Fees, Proceeds, Traded;
    var o := orders[i];
    var done := Executed(o, f, OpenVol(lots, o.pair));
    LedgerPush(ledger, Entry(realized, done.fee, cash'));
    OrderMoves(orders, i, done, 0);
    forall p: Pair ensures Traded(orders[i := done], p) == OpenVol(lots', p) {
      OrderMoves(orders, i, done, p);
      assert Traded(orders, p) == OpenVol(lots, p);
      assert OpenVol(lots', p) == OpenVol(lots, p) - if p == o.pair then done.exec else 0;
    }
  }
}

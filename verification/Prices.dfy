/** Prices in ticks of the pair: the two rounding rules of the order paths. */
module Prices {
  import opened Wrappers

  /** Nearest tick, a tie going to the even one. Used for entries, stops and rungs. */
  function TickRound(x: real): int {
    var f := x.Floor;
    var d := x - f as real;
    if d < 0.5 || (d == 0.5 && f % 2 == 0) then f else f + 1
  }

  lemma TickRoundNearest(x: real)
    ensures -0.5 <= TickRound(x) as real - x <= 0.5
    ensures TickRound(x) as real - x == 0.5 || x - TickRound(x) as real == 0.5 ==> TickRound(x) % 2 == 0
  {
  }

  /** The price of a post-only sell: one tick over the bid but no higher than the ask,
      floored to the grid; on a degenerate book the ask itself, floored; otherwise none. */
  function MakerSell(bid: real, ask: real): Option<int> {
    var over := TickRound(bid + 1.0) as real;
    var px := (if ask < over then ask else over).Floor;
    if (px as real) > bid then Some(px)
    else if (ask.Floor as real) > bid then Some(ask.Floor)
    else None
  }

  predicate InSpread(n: int, bid: real, ask: real) {
    bid < n as real <= ask
  }

  /** The sell never crosses, is priced exactly when a tick exists above the bid and at or below the
      ask, and is then at the tick next to the bid, or at the last one under the ask. */
  lemma MakerSellNeverCrosses(bid: real, ask: real)
    ensures MakerSell(bid, ask).Some? ==> InSpread(MakerSell(bid, ask).value, bid, ask)
    ensures MakerSell(bid, ask).Some? <==> exists n: int :: InSpread(n, bid, ask)
    ensures MakerSell(bid, ask).Some? ==>
              var n := MakerSell(bid, ask).value;
              n <= TickRound(bid + 1.0) && (n == TickRound(bid + 1.0) || ask < (n + 1) as real)
  {
    TickRoundNearest(bid + 1.0);
    if n: int :| InSpread(n, bid, ask) {
      assert n <= ask.Floor;
    }
    if MakerSell(bid, ask).Some? {
      var n := MakerSell(bid, ask).value;
      assert InSpread(n, bid, ask);
    }
  }
}

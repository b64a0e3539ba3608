/** Order sizes: the smallest placeable order, conviction and the operator's multiplier on top
    of it, and the cheap test that predicts a refusal before any work is done.

    Volumes are in lots (a size is a whole number of them), prices in dollars per lot; the
    exchange's minimum volume may be any real number. */
module Sizing {
  import opened Wrappers

  const SLACK: real := 0.000000001

  function Ceil(x: real): int {
    0 - (0.0 - x).Floor
  }

  function Larger(a: real, b: real): real {
    if a < b then b else a
  }

  datatype Pair = Pair(ordermin: real, costmin: real)
  {
    predicate Ok() {
      0.0 <= ordermin && 0.0 <= costmin
    }
  }

  datatype Card = Card(score: int, required: int)

  /** The smallest order that meets both of the exchange's minima, on the lot grid. */
  function MinVolume(p: Pair, price: real): int {
    Ceil(Larger(p.ordermin, if 0.0 < price then p.costmin / price else 0.0))
  }

  /** Points above the requirement, at most two. */
  function Delta(c: Card): int {
    Min(Max(0, c.score - c.required), 2)
  }

  function Conviction(c: Card): int {
    1 + Delta(c)
  }

  function Tranche(c: Card, p: Pair, price: real): (r: (int, int)) {
    if price <= 0.0 then (0, 0)
    else
      var base := Larger(p.ordermin, Ceil(p.costmin / price) as real);
      (Ceil(base * Conviction(c) as real), Conviction(c))
  }

  /** Times the multiplier, rounded down but never under the unscaled volume. */
  function Scaled(volume: int, smult: real): int {
    if 1.0 < smult && 0 < volume then Max(volume, (volume as real * smult).Floor) else volume
  }

  /** The volume of an order: the minimum, or the tranche of a card, scaled. */
  function Size(p: Pair, price: real, card: Option<Card>, smult: real): Option<int> {
    if price <= 0.0 then None
    else
      var tranche := if card.Some? then Tranche(card.value, p, price).0 else 0;
      var volume := if 0 < tranche then tranche else MinVolume(p, price);
      if Scaled(volume, smult) <= 0 then None else Some(Scaled(volume, smult))
  }

  /** The budget check on the real sizing. */
  predicate Refused(tokens: real, volume: int, price: real) {
    tokens + 0.000000001 < volume as real * price
  }

  /** The pre-gate: the bucket cannot fund even the smallest order at this price. */
  predicate WouldRefuse(tokens: real, p: Pair, price: real, smult: real) {
    0.0 < price && 0 < MinVolume(p, price) && tokens + SLACK < MinVolume(p, price) as real * price * smult
  }

  // ── the minimum and the tranche ─────────────────────────────────────────────

  lemma CeilIsLeast(x: real, n: int)
    ensures x <= Ceil(x) as real < x + 1.0
    ensures x <= n as real <==> Ceil(x) <= n
  {
  }

  lemma QuotientCovers(cost: real, price: real, n: int)
    requires 0.0 < price
    ensures cost / price <= n as real <==> cost <= n as real * price
  {
    assert cost / price * price == cost;
    if cost / price <= n as real {
      assert cost / price * price <= n as real * price;
    } else {
      assert n as real * price < cost / price * price;
    }
  }

  /** The minimum is exactly the least whole number of lots that meets both minima. */
  lemma MinVolumeIsLeast(p: Pair, price: real, n: int)
    requires 0.0 < price
    ensures n >= MinVolume(p, price) <==> p.ordermin <= n as real && p.costmin <= n as real * price
  {
    CeilIsLeast(Larger(p.ordermin, p.costmin / price), n);
    QuotientCovers(p.costmin, price, n);
  }

  /** Both assertions of the tranche hold for every input, and without conviction the tranche is
      exactly the minimum. */
  lemma TrancheMeetsMinima(c: Card, p: Pair, price: real)
    requires p.Ok() && 0.0 < price
    ensures var qty := Tranche(c, p, price).0;
            && p.ordermin <= qty as real && p.costmin <= qty as real * price
            && MinVolume(p, price) <= qty
            && MinVolume(p, price) * Conviction(c) - Conviction(c) < qty
    ensures c.score <= c.required ==> Tranche(c, p, price) == (MinVolume(p, price), 1)
  {
    hide Ceil, Conviction, MinVolume;
    var base := Larger(p.ordermin, Ceil(p.costmin / price) as real);
    var k := Conviction(c);
    ConvictionRange(c);
    BaseRoundsToMin(p, price);
    CeilIsLeast(base, Ceil(base));
    CeilIsLeast(base * k as real, Ceil(base * k as real));
    AtLeast(base, k as real);
    CeilIsLeast(base, Ceil(base * k as real));
    MinVolumeIsLeast(p, price, Ceil(base * k as real));
    ScaledCeil(base, k);
  }

  /** The tranche is exactly the least whole number of lots that meets both minima as many times as
      the score earns: once at the requirement, twice a point above it, three times beyond. The
      notional minimum is taken in whole lots first. */
  lemma TrancheIsLeast(c: Card, p: Pair, price: real, n: int)
    requires p.Ok() && 0.0 < price
    ensures var k := if c.score <= c.required then 1 else if c.score == c.required + 1 then 2 else 3;
            && Tranche(c, p, price).1 == k
            && (Tranche(c, p, price).0 <= n
                <==> p.ordermin * k as real <= n as real
                     && exists m: int :: p.costmin <= m as real * price && m * k <= n)
  {
    hide Ceil;
    var k := Conviction(c);
    ConvictionIs(c);
    hide Conviction;
    var m := Ceil(p.costmin / price);
    var base := Larger(p.ordermin, m as real);
    CeilIsLeast(base * k as real, n);
    LargerTimes(p.ordermin, m as real, k as real, n as real);
    assert m as real * k as real <= n as real <==> m * k <= n by {
      assert (m * k) as real == m as real * k as real;
    }
    LotsForCost(p.costmin, price, k, n);
  }

  lemma LotsForCost(cost: real, price: real, k: int, n: int)
    requires 0.0 < price && 0 < k
    ensures Ceil(cost / price) * k <= n <==> exists m: int :: cost <= m as real * price && m * k <= n
  {
    hide Ceil;
    var least := Ceil(cost / price);
    CeilIsLeast(cost / price, least);
    QuotientCovers(cost, price, least);
    forall m: int | cost <= m as real * price && m * k <= n ensures least * k <= n {
      QuotientCovers(cost, price, m);
      CeilIsLeast(cost / price, m);
      TimesKeepsOrder(least, m, k);
    }
  }

  lemma ConvictionIs(c: Card)
    ensures Conviction(c) == if c.score <= c.required then 1 else if c.score == c.required + 1 then 2 else 3
  {
  }

  lemma LargerTimes(a: real, b: real, k: real, n: real)
    requires 0.0 < k
    ensures Larger(a, b) * k <= n <==> a * k <= n && b * k <= n
  {
  }

  lemma ScaledCeil(base: real, k: int)
    requires 1 <= k
    ensures Ceil(base) * k - k < Ceil(base * k as real)
  {
    var n := Ceil(base);
    CeilIsLeast(base, n);
    Scale(n as real - 1.0, base, k as real);
    assert (n as real - 1.0) * k as real == (n * k - k) as real;
    CeilIsLeast(base * k as real, Ceil(base * k as real));
  }

  lemma ConvictionRange(c: Card)
    ensures 1 <= Conviction(c) <= 3 && (c.score <= c.required ==> Conviction(c) == 1)
  {
  }

  lemma AtLeast(x: real, s: real)
    requires 0.0 <= x && 1.0 <= s
    ensures x <= x * s
  {
  }

  lemma Scale(a: real, b: real, k: real)
    requires a < b && 0.0 < k
    ensures a * k < b * k
  {
  }

  lemma BaseRoundsToMin(p: Pair, price: real)
    requires p.Ok() && 0.0 < price
    ensures Ceil(Larger(p.ordermin, Ceil(p.costmin / price) as real)) == MinVolume(p, price)
  {
    var base := Larger(p.ordermin, Ceil(p.costmin / price) as real);
    CeilIsLeast(base, MinVolume(p, price));
    MinVolumeIsLeast(p, price, MinVolume(p, price));
    MinVolumeIsLeast(p, price, Ceil(base));
    CeilIsLeast(base, Ceil(base));
    CeilIsLeast(p.costmin / price, MinVolume(p, price));
    CeilIsLeast(p.costmin / price, Ceil(base));
    QuotientCovers(p.costmin, price, MinVolume(p, price));
    QuotientCovers(p.costmin, price, Ceil(base));
  }

  // ── the pre-gate ────────────────────────────────────────────────────────────

  lemma ScaledWhole(v: int, m: int)
    requires 0 < v && 1 <= m
    ensures Scaled(v, m as real) == v * m && v <= v * m
  {
    assert v as real * m as real == (v * m) as real;
  }

  /** Scaling gives the most whole lots that the multiplier allows; one below one leaves the volume. */
  lemma ScaledIsMost(volume: int, smult: real, n: int)
    requires 0 < volume
    ensures n <= Scaled(volume, smult) <==> n <= volume || n as real <= volume as real * smult
  {
    if 1.0 < smult {
      assert volume as real < volume as real * smult;
    } else {
      assert volume as real * smult <= volume as real;
    }
  }

  /** A card sizes by its tranche, no card by the minimum, and the multiplier scales either. */
  lemma SizeIsScaled(p: Pair, price: real, card: Option<Card>, smult: real, n: int)
    requires p.Ok() && 0.0 < price && 0 < MinVolume(p, price)
    ensures var volume := if card.Some? then Tranche(card.value, p, price).0 else MinVolume(p, price);
            && Size(p, price, card, smult).Some?
            && (n <= Size(p, price, card, smult).value <==> n <= volume || n as real <= volume as real * smult)
  {
    hide MinVolume, Tranche, Scaled, Conviction;
    if card.Some? {
      TrancheMeetsMinima(card.value, p, price);
    }
    var volume := if card.Some? then Tranche(card.value, p, price).0 else MinVolume(p, price);
    ScaledIsMost(volume, smult, n);
    ScaledIsMost(volume, smult, volume);
  }

  lemma TimesKeepsOrder(a: int, b: int, m: int)
    requires a <= b && 0 <= m
    ensures a * m <= b * m
  {
  }

  /** For a whole multiplier every real size is at least the multiple of the minimum that the
      pre-gate prices, and exactly that without a card. */
  lemma SizeCoversMinimum(p: Pair, price: real, card: Option<Card>, m: int)
    requires p.Ok() && 0.0 < price && 1 <= m && 0 < MinVolume(p, price)
    ensures var size := Size(p, price, card, m as real);
            && size.Some? && MinVolume(p, price) * m <= size.value
            && (card.None? ==> size.value == MinVolume(p, price) * m)
  {
    hide MinVolume, Tranche, Conviction, Scaled;
    var v := MinVolume(p, price);
    ScaledWhole(v, m);
    if card.Some? {
      TrancheMeetsMinima(card.value, p, price);
      var t := Tranche(card.value, p, price).0;
      ScaledWhole(t, m);
      TimesKeepsOrder(v, t, m);
    }
  }

  lemma Costlier(a: int, b: int, price: real)
    requires a <= b && 0.0 < price
    ensures a as real * price <= b as real * price
  {
  }

  lemma PriceTimes(v: int, price: real, smult: real)
    ensures v as real * price * smult == v as real * smult * price
  {
  }

  /** The pre-gate never skips an order that would have been funded, and with no card it skips
      exactly the ones the real check refuses. */
  lemma PreGateIsSound(tokens: real, p: Pair, price: real, card: Option<Card>, m: int)
    requires p.Ok() && 0.0 < price && 1 <= m
    ensures var size := Size(p, price, card, m as real);
            && (WouldRefuse(tokens, p, price, m as real) ==> size.Some? && Refused(tokens, size.value, price))
            && (card.None? && size.Some? ==> (WouldRefuse(tokens, p, price, m as real) <==> Refused(tokens, size.value, price)))
  {
    hide MinVolume, Size, Scaled;
    var v := MinVolume(p, price);
    if 0 < v {
      SizeCoversMinimum(p, price, card, m);
      Costlier(v * m, Size(p, price, card, m as real).value, price);
      PriceTimes(v, price, m as real);
      assert v as real * m as real == (v * m) as real;
    } else {
      NothingToSize(p, price, m);
    }
  }

  lemma NothingToSize(p: Pair, price: real, m: int)
    requires 0.0 < price && MinVolume(p, price) <= 0
    ensures Size(p, price, None, m as real).None?
  {
    hide MinVolume;
  }

  /** A multiplier that is not whole breaks it exactly when it does not scale the minimum to
      whole lots: then some bucket level would fund the order and yet is refused by the gate. */
  lemma PreGateNeedsWholeLots(p: Pair, price: real, smult: real)
    requires p.Ok() && 0.0 < price && 1.0 <= smult && 0 < MinVolume(p, price)
    ensures Size(p, price, None, smult).Some?
    ensures (forall tokens: real :: WouldRefuse(tokens, p, price, smult) ==>
                                      Refused(tokens, Size(p, price, None, smult).value, price))
            <==> (MinVolume(p, price) as real * smult).Floor as real == MinVolume(p, price) as real * smult
  {
    hide MinVolume;
    var v := MinVolume(p, price);
    var exact := v as real * smult;
    AtLeast(v as real, smult);
    var size := Size(p, price, None, smult).value;
    assert size == exact.Floor;
    PriceTimes(v, price, smult);
    if exact.Floor as real != exact {
      Scale(size as real, exact, price);
      var cost := size as real * price;
      assert cost < v as real * price * smult;
      assert cost - SLACK + SLACK == cost;
      assert WouldRefuse(cost - SLACK, p, price, smult) && !Refused(cost - SLACK, size, price);
    } else {
      assert size as real * price == v as real * price * smult;
    }
  }
}

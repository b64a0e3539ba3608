/** Volatility-scaled distances: one measured ATR (in percent) resolves a pair's
    take-profit, stop-loss and rung spacing, with the gates that veto a bad geometry. */
module Vol {
  import opened Wrappers

  function Clamp(v: real, lo: real, hi: real): real {
    var inner := if hi < v then hi else v;
    if inner < lo then lo else inner
  }

  const TP_FLOOR := 1.0
  const TP_CAP := 15.0
  const SL_FLOOR := 1.5
  const SL_CAP := 22.0
  const RUNG_FLOOR := 0.5
  const RUNG_CAP := 7.0
  const LIQ_SAFETY_FRAC := 0.70
  const LEGACY_RR := 0.40

  datatype Distances = Distances(tp: real, sl: real, rung: real, ships: bool)

  /** Adverse move, in percent, that liquidates a lone position at `leverage`. */
  function LiqDistance(leverage: real): Option<real> {
    if 0.0 < leverage then Some(60.0 / leverage) else None
  }

  function Resolve(atr: real, leverage: real): Distances {
    var tp := Clamp(atr, TP_FLOOR, TP_CAP);
    var raw := Clamp(1.5 * atr, SL_FLOOR, SL_CAP);
    var rung := Clamp(0.5 * atr, RUNG_FLOOR, RUNG_CAP);
    var liq := LiqDistance(leverage);
    var sl := if liq.Some? && liq.value * LIQ_SAFETY_FRAC < raw
              then (if SL_FLOOR < liq.value * LIQ_SAFETY_FRAC then liq.value * LIQ_SAFETY_FRAC else SL_FLOOR)
              else raw;
    Distances(tp, sl, rung, 0.0 < sl && LEGACY_RR <= tp / sl)
  }

  lemma QuotientAbove(a: real, b: real, c: real)
    requires 0.0 < b
    ensures c < a / b <==> c * b < a
  {
    assert a / b * b == a;
    if c < a / b {
      assert c * b < a / b * b;
    } else {
      assert a / b * b <= c * b;
    }
  }

  /** The liquidation gate does its job exactly below 40x: there the stop fires before the
      exchange liquidates; from 40x on the 1.5% floor of the stop is at or beyond it. */
  lemma StopFiresBeforeLiquidation(atr: real, leverage: real)
    requires 0.0 < leverage
    ensures Resolve(atr, leverage).sl < LiqDistance(leverage).value <==> leverage < 40.0
  {
    QuotientAbove(60.0, leverage, 1.5);
  }

  /** The reward-to-risk veto never fires: the ruling's own multipliers keep every pair at
      two thirds or better, whatever is measured and whatever the leverage. */
  lemma VetoNeverFires(atr: real, leverage: real)
    ensures Resolve(atr, leverage).ships
    ensures 2.0 * Resolve(atr, leverage).sl <= 3.0 * Resolve(atr, leverage).tp
  {
    var d := Resolve(atr, leverage);
    assert 0.0 < d.sl && 2.0 * d.sl <= 3.0 * d.tp;
    QuotientAbove(d.tp, d.sl, LEGACY_RR);
  }

  /** The three distances are the greatest within the ruling: the target is at most the measured
      range, the rung half and the stop one and a half times of it, each between its floor and its cap,
      and the stop no further than seven tenths of the way to liquidation, its floor apart. */
  lemma DistancesAreGreatest(atr: real, leverage: real, s: real)
    ensures s <= Resolve(atr, leverage).tp <==> s <= 1.0 || (s <= atr && s <= 15.0)
    ensures s <= Resolve(atr, leverage).rung <==> s <= 0.5 || (s * 2.0 <= atr && s <= 7.0)
    ensures s <= Resolve(atr, leverage).sl
            <==> s <= 1.5 || (s * 2.0 <= atr * 3.0 && s <= 22.0 && (0.0 < leverage ==> s * leverage <= 42.0))
  {
    if 0.0 < leverage {
      var ceiling := 60.0 / leverage * LIQ_SAFETY_FRAC;
      assert 60.0 / leverage * leverage == 60.0;
      assert ceiling * leverage == 42.0;
      TimesOrder(s, ceiling, leverage);
    }
  }

  lemma TimesOrder(a: real, b: real, k: real)
    requires 0.0 < k
    ensures a <= b <==> a * k <= b * k
  {
  }

  lemma RungStepRange(atr: real, leverage: real)
    ensures RUNG_FLOOR <= Resolve(atr, leverage).rung <= RUNG_CAP
    ensures Resolve(atr, leverage).rung <= Resolve(atr, leverage).tp
  {
  }
}

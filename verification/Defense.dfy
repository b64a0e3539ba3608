/** The liquidation defence: how far the book is from the exchange's liquidation line, how bad
    the market has been, and the edge-triggered escalation over the distance. */
module Defense {
  import opened Wrappers

  const CALL_ML := 0.80
  const LIQ_ML := 0.40
  const RECRITICAL_DECAY_PCT := 2.0

  // ── the distance ────────────────────────────────────────────────────────────

  /** Percent the basket may fall before the margin level reaches `line`: equity `e`, used
      margin `m`, position value `v`. */
  function Buffer(e: real, m: real, v: real, line: real): real
    requires 0.0 < v
  {
    (e - line * m) / v * 100.0
  }

  /** The liquidation buffer the book would have after a fall `d`; margin does not shrink. */
  function StressBuffer(e: real, m: real, v: real, d: real): real
    requires 0.0 < v && d < 1.0
  {
    (e - v * d - LIQ_ML * m) / (v * (1.0 - d)) * 100.0
  }

  /** The effective leverage under which a fall `d` does not liquidate; None when it is
      unbounded. */
  function MaxSurvivableLeverage(m: real, v: real, d: real): Option<real>
    requires 0.0 < v
  {
    var denom := d + LIQ_ML * m / v;
    if denom <= 0.0 then None else Some(1.0 / denom)
  }

  lemma SignOfQuotient(a: real, b: real)
    requires 0.0 < b
    ensures 0.0 < a / b * 100.0 <==> 0.0 < a
  {
    assert a / b * b == a;
    if 0.0 < a / b {
      assert 0.0 < a / b * b;
    } else {
      assert a / b * b <= 0.0;
    }
  }

  lemma QuotientBelow(a: real, b: real, c: real)
    requires 0.0 < b
    ensures c < a / b <==> c * b < a
  {
    assert a / b * b == a;
    if c < a / b {
      assert c * b < a / b * b;
    } else {
      assert a / b * b <= c * b;
    }
  }

  lemma InverseBelow(x: real, e: real, v: real)
    requires 0.0 < x && 0.0 < e && 0.0 < v
    ensures v / e < 1.0 / x <==> v * x < e
  {
    assert v / e * e == v && 1.0 / x * x == 1.0;
    QuotientBelow(1.0, x, v / e);
    assert v / e * x * e == v * x;
    if v / e * x < 1.0 {
      assert v / e * x * e < 1.0 * e;
    } else {
      assert 1.0 * e <= v / e * x * e;
    }
  }

  lemma BufferSurvives(e: real, m: real, v: real, d: real, line: real)
    requires 0.0 < v
    ensures line * m < e - v * d <==> d * 100.0 < Buffer(e, m, v, line)
  {
    QuotientBelow(e - line * m, v, d);
  }

  lemma StressSurvives(e: real, m: real, v: real, d: real)
    requires 0.0 < v && d < 1.0
    ensures LIQ_ML * m < e - v * d <==> 0.0 < StressBuffer(e, m, v, d)
  {
    Scaled(v, 1.0 - d);
    SignOfQuotient(e - v * d - LIQ_ML * m, v * (1.0 - d));
  }

  lemma Scaled(a: real, b: real)
    requires 0.0 < a
    ensures 0.0 < b <==> 0.0 < a * b
  {
  }

  lemma LeverageSurvives(e: real, m: real, v: real, d: real)
    requires 0.0 < e && 0.0 < v
    ensures var top := MaxSurvivableLeverage(m, v, d);
            LIQ_ML * m < e - v * d <==> top.None? || v / e < top.value
  {
    var x := d + LIQ_ML * m / v;
    var line := LIQ_ML * m;
    assert line / v * v == line;
    assert v * x == v * d + line;
    Scaled(v, x);
    if 0.0 < x {
      InverseBelow(x, e, v);
    }
  }

  /** The three views agree: a fall leaves the book above the liquidation line exactly if it is
      smaller than the buffer, if and only if the stressed buffer is positive, if and only if
      the effective leverage is under the survivable one. The call line likewise. */
  lemma SurvivesIff(e: real, m: real, v: real, d: real)
    requires 0.0 < e && 0.0 <= m && 0.0 < v && 0.0 <= d < 1.0
    ensures d * 100.0 < Buffer(e, m, v, LIQ_ML) <==> 0.0 < StressBuffer(e, m, v, d)
    ensures var top := MaxSurvivableLeverage(m, v, d);
            d * 100.0 < Buffer(e, m, v, LIQ_ML) <==> top.None? || v / e < top.value
    ensures 0.40 * m < e - v * d <==> d * 100.0 < Buffer(e, m, v, LIQ_ML)
    ensures 0.80 * m < e - v * d <==> d * 100.0 < Buffer(e, m, v, CALL_ML)
  {
    hide Buffer, StressBuffer, MaxSurvivableLeverage;
    BufferSurvives(e, m, v, d, LIQ_ML);
    BufferSurvives(e, m, v, d, CALL_ML);
    StressSurvives(e, m, v, d);
    LeverageSurvives(e, m, v, d);
  }

  // ── drawdown ────────────────────────────────────────────────────────────────

  predicate Positive(xs: seq<real>) {
    forall i :: 0 <= i < |xs| ==> 0.0 < xs[i]
  }

  /** The fall from bar `i` to bar `j`, as a fraction of where it began. */
  function Fall(xs: seq<real>, i: nat, j: nat): real
    requires i < |xs| && j < |xs| && xs[i] != 0.0
  {
    (xs[i] - xs[j]) / xs[i]
  }

  /** `w` is the worst of all falls from a bar to a later one, zero if there is none. */
  ghost predicate WorstFall(xs: seq<real>, w: real)
    requires Positive(xs)
  {
    && 0.0 <= w
    && (forall i, j :: 0 <= i <= j < |xs| ==> Fall(xs, i, j) <= w)
    && (w == 0.0 || exists i, j :: 0 <= i < j < |xs| && Fall(xs, i, j) == w)
  }

  /** The fall over `h` bars that begins at bar `i`. */
  function Move(xs: seq<real>, i: nat, h: nat): real
    requires i + h < |xs| && xs[i] != 0.0
  {
    Fall(xs, i, i + h)
  }

  /** `w` is the worst fall over exactly `h` bars, zero if none is adverse. */
  ghost predicate WorstOver(xs: seq<real>, h: nat, w: real)
    requires Positive(xs)
  {
    && 0.0 <= w
    && (forall i: nat :: i + h < |xs| ==> Move(xs, i, h) <= w)
    && (w == 0.0 || exists i: nat :: i + h < |xs| && Move(xs, i, h) == w)
  }

  lemma CrossDivide(p: real, a: real, q: real, b: real)
    requires 0.0 < a && 0.0 < b && p * b <= q * a
    ensures p / a <= q / b
  {
    var (u, w) := (p / a, q / b);
    assert u * a == p && w * b == q;
    assert u * (a * b) == p * b && w * (a * b) == q * a;
    Cancel(u, w, a * b);
  }

  lemma Cancel(u: real, w: real, k: real)
    requires u * k <= w * k && 0.0 < k
    ensures u <= w
  {
  }

  lemma HigherPeakFallsFurther(a: real, b: real, x: real)
    requires 0.0 < a <= b && 0.0 < x
    ensures (a - x) / a <= (b - x) / b
  {
    assert x * a <= x * b;
    CrossDivide(a - x, a, b - x, b);
  }

  /** One pass with a running peak. */
  method BasketDrawdown(index: seq<real>) returns (worst: real)
    ensures Positive(index) ==> WorstFall(index, worst)
  {
    worst := 0.0;
    var peak: Option<real> := None;
    ghost var top: nat := 0;
    for j := 0 to |index|
      invariant Positive(index) && 0 < j ==> top < j && peak == Some(index[top]) && forall i :: 0 <= i < j ==> index[i] <= index[top]
      invariant (peak.None? <==> j == 0) && top <= j
      invariant Positive(index) ==> WorstFall(index[..j], worst)
    {
      var v := index[j];
      ghost var was := worst;
      if peak.None? || peak.value < v {
        peak := Some(v);
        top := j;
      }
      if 0.0 < peak.value {
        var fall := (peak.value - v) / peak.value;
        worst := if worst < fall then fall else worst;
      }
      if Positive(index) {
        assert index[..j + 1] == index[..j] + [v];
        assert peak.value == (index[..j] + [v])[top] && 0.0 < peak.value;
        WorstFallPush(index[..j], v, was, worst, top);
      }
    }
    assert index[..|index|] == index;
  }

  lemma WorstFallPush(xs: seq<real>, v: real, was: real, worst: real, top: nat)
    requires Positive(xs) && 0.0 < v && WorstFall(xs, was) && top <= |xs|
    requires forall i :: 0 <= i <= |xs| ==> (xs + [v])[i] <= (xs + [v])[top]
    requires worst == if was < Fall(xs + [v], top, |xs|) then Fall(xs + [v], top, |xs|) else was
    ensures WorstFall(xs + [v], worst)
  {
    var ys := xs + [v];
    forall i, j | 0 <= i <= j < |ys| ensures Fall(ys, i, j) <= worst {
      if j < |xs| {
        assert Fall(ys, i, j) == Fall(xs, i, j);
      } else {
        HigherPeakFallsFurther(ys[i], ys[top], v);
      }
    }
    if worst == was && was != 0.0 {
      var i, j :| 0 <= i < j < |xs| && Fall(xs, i, j) == was;
      assert Fall(ys, i, j) == worst;
    } else if worst != was {
      assert top < |xs|;
      assert Fall(ys, top, |xs|) == worst;
    }
  }

  /** A loop over all spans of `horizon` bars. */
  method WorstMove(index: seq<real>, horizon: int) returns (worst: real)
    ensures horizon < 1 ==> worst == 0.0
    ensures 1 <= horizon && Positive(index) ==> WorstOver(index, horizon, worst)
  {
    worst := 0.0;
    if horizon < 1 || |index| <= horizon {
      return;
    }
    for i := 0 to |index| - horizon
      invariant 0.0 <= worst
      invariant Positive(index) ==> forall k: nat :: k < i ==> Move(index, k, horizon) <= worst
      invariant Positive(index) ==> worst == 0.0 || exists k: nat :: k < i && Move(index, k, horizon) == worst
    {
      var a, b := index[i], index[i + horizon];
      if 0.0 < a {
        var fall := (a - b) / a;
        assert Positive(index) ==> Move(index, i, horizon) == fall;
        worst := if worst < fall then fall else worst;
      }
    }
  }

  /** The one-pass drawdown is the worst move over all horizons. */
  lemma DrawdownIsWorstHorizon(xs: seq<real>, drawdown: real, moves: seq<real>)
    requires Positive(xs) && WorstFall(xs, drawdown)
    requires |moves| == |xs| && forall h :: 1 <= h < |xs| ==> WorstOver(xs, h, moves[h])
    ensures forall h :: 1 <= h < |xs| ==> moves[h] <= drawdown
    ensures drawdown == 0.0 || exists h :: 1 <= h < |xs| && moves[h] == drawdown
  {
    forall h | 1 <= h < |xs| ensures moves[h] <= drawdown {
      assert WorstOver(xs, h, moves[h]);
      if moves[h] != 0.0 {
        var i: nat :| i + h < |xs| && Move(xs, i, h) == moves[h];
      }
    }
    if drawdown != 0.0 {
      var i, j :| 0 <= i < j < |xs| && Fall(xs, i, j) == drawdown;
      assert WorstOver(xs, j - i, moves[j - i]);
      assert Move(xs, i, j - i) == drawdown;
    }
  }

  // ── escalation ──────────────────────────────────────────────────────────────

  datatype Tier = NOMINAL | CAUTION | CRITICAL | UNKNOWN

  /** One reading of the buffer: missing, a flat book (no number to track), or a percentage. */
  datatype Reading = Missing | Flat | Percent(b: real)

  /** The operator's two lines. */
  datatype Lines = Lines(nominal: real, critical: real)

  function TierFor(r: Reading, l: Lines): Tier {
    match r
    case Missing => UNKNOWN
    case Flat => NOMINAL
    case Percent(b) => if l.nominal <= b then NOMINAL else if l.critical <= b then CAUTION else CRITICAL
  }

  /** The lines divide the readings: at the upper one and above all is nominal, under both it is
      critical, and caution lies between them, if anything does. */
  lemma LinesDivide(b: real, l: Lines)
    ensures TierFor(Percent(b), l) == NOMINAL <==> l.nominal <= b
    ensures TierFor(Percent(b), l) == CRITICAL <==> b < l.nominal && b < l.critical
    ensures (exists x: real :: TierFor(Percent(x), l) == CAUTION) <==> l.critical < l.nominal
    ensures TierFor(Flat, l) == NOMINAL && TierFor(Missing, l) == UNKNOWN
  {
    if l.critical < l.nominal {
      assert TierFor(Percent(l.critical), l) == CAUTION;
    }
  }

  /** The persisted state: nothing before the first run. */
  datatype State = State(tier: Option<Tier>, alertBuffer: Option<real>)

  datatype Event = Transition(source: Option<Tier>, target: Tier, buffer: Option<real>) | Recritical(at: real)

  function Tracked(r: Reading): Option<real> {
    if r.Percent? then Some(r.b) else None
  }

  /** The edge-triggered decision: a change of tier, or within CRITICAL a further decay of two
      points since the last page. A missing reading says nothing and keeps the tier. */
  function Step(prev: State, r: Reading, l: Lines): (State, seq<Event>) {
    var tier := TierFor(r, l);
    if tier.UNKNOWN? then (prev.(tier := Some(if prev.tier.Some? then prev.tier.value else UNKNOWN)), [])
    else if Some(tier) != prev.tier then (State(Some(tier), Tracked(r)), [Transition(prev.tier, tier, Tracked(r))])
    else if tier.CRITICAL? && r.Percent? && prev.alertBuffer.Some? && RECRITICAL_DECAY_PCT <= prev.alertBuffer.value - r.b
    then (State(Some(tier), Some(r.b)), [Recritical(r.b)])
    else (State(Some(tier), prev.alertBuffer), [])
  }

  function Run(s: State, rs: seq<Reading>, l: Lines): (State, seq<Event>) {
    if |rs| == 0 then (s, [])
    else
      var (mid, events) := Run(s, rs[..|rs| - 1], l);
      var (after, more) := Step(mid, rs[|rs| - 1], l);
      (after, events + more)
  }

  function Known(rs: seq<Reading>): seq<Reading> {
    if |rs| == 0 then []
    else Known(rs[..|rs| - 1]) + if rs[|rs| - 1].Missing? then [] else [rs[|rs| - 1]]
  }

  predicate Settled(s: State) {
    s.tier.Some? && s.tier != Some(UNKNOWN)
  }

  lemma {:induction false} RunSettled(s: State, rs: seq<Reading>, l: Lines)
    requires Settled(s)
    ensures Settled(Run(s, rs, l).0)
  {
    if |rs| > 0 {
      RunSettled(s, rs[..|rs| - 1], l);
    }
  }

  /** After the first known reading, missing readings are invisible: without them the run ends
      in the same state and reports the same events. */
  lemma {:induction false} MissingIsInvisible(s: State, rs: seq<Reading>, l: Lines)
    requires Settled(s)
    ensures Run(s, Known(rs), l) == Run(s, rs, l)
  {
    if |rs| > 0 {
      var init, r := rs[..|rs| - 1], rs[|rs| - 1];
      MissingIsInvisible(s, init, l);
      RunSettled(s, init, l);
      if r.Missing? {
        var (mid, events) := Run(s, init, l);
        assert Step(mid, r, l) == (mid, []) && events + [] == events;
        assert Known(rs) == Known(init);
      } else {
        assert Known(rs)[..|Known(rs)| - 1] == Known(init);
      }
    }
  }

  lemma RunOne(s: State, r: Reading, l: Lines)
    ensures Run(s, [r], l) == Step(s, r, l)
  {
    assert [r][..0] == [];
    assert [] + Step(s, r, l).1 == Step(s, r, l).1;
  }

  /** Before it they are not: the first transition then starts from UNKNOWN. */
  lemma LeadingMissingShows(l: Lines)
    ensures Run(State(None, None), [Missing, Flat], l).1 == [Transition(Some(UNKNOWN), NOMINAL, None)]
    ensures Run(State(None, None), [Flat], l).1 == [Transition(None, NOMINAL, None)]
  {
    assert [Missing, Flat][..1] == [Missing];
    RunOne(State(None, None), Missing, l);
    RunOne(State(None, None), Flat, l);
  }

  /** The tier after the events, read off their last transition. */
  function LastTarget(first: Option<Tier>, events: seq<Event>): Option<Tier> {
    if |events| == 0 then first
    else
      var e := events[|events| - 1];
      if e.Transition? then Some(e.target) else LastTarget(first, events[..|events| - 1])
  }

  ghost predicate Chained(first: Option<Tier>, events: seq<Event>) {
    forall i :: 0 <= i < |events| ==>
                  if events[i].Transition?
                  then events[i].source == LastTarget(first, events[..i]) && Some(events[i].target) != events[i].source
                  else LastTarget(first, events[..i]) == Some(CRITICAL)
  }

  lemma ChainedPush(first: Option<Tier>, events: seq<Event>, e: Event)
    requires Chained(first, events)
    requires if e.Transition? then e.source == LastTarget(first, events) && Some(e.target) != e.source
             else LastTarget(first, events) == Some(CRITICAL)
    ensures Chained(first, events + [e])
    ensures LastTarget(first, events + [e]) == if e.Transition? then Some(e.target) else LastTarget(first, events)
  {
    var more := events + [e];
    assert more[..|events|] == events;
    forall i | 0 <= i < |events| ensures more[..i] == events[..i] {
    }
  }

  /** Over any run, every transition starts where the one before it ended and goes somewhere
      else, pages happen in CRITICAL only, and the events tell the tier at the end. */
  lemma {:induction false} EventsChain(s: State, rs: seq<Reading>, l: Lines)
    requires Settled(s)
    ensures Chained(s.tier, Run(s, rs, l).1)
    ensures LastTarget(s.tier, Run(s, rs, l).1) == Run(s, rs, l).0.tier
  {
    if |rs| > 0 {
      var init, r := rs[..|rs| - 1], rs[|rs| - 1];
      EventsChain(s, init, l);
      RunSettled(s, init, l);
      var (mid, events) := Run(s, init, l);
      var (after, more) := Step(mid, r, l);
      if |more| == 0 {
        assert events + more == events;
      } else {
        assert more == [more[0]];
        ChainedPush(s.tier, events, more[0]);
      }
    }
  }

  // ── paging within one critical stretch ──────────────────────────────────────

  predicate AllCritical(rs: seq<Reading>, l: Lines) {
    forall i :: 0 <= i < |rs| ==> rs[i].Missing? || TierFor(rs[i], l).CRITICAL?
  }

  function Pages(events: seq<Event>): nat {
    if |events| == 0 then 0 else Pages(events[..|events| - 1]) + if events[|events| - 1].Recritical? then 1 else 0
  }

  lemma {:induction false} RunFrom(s: State, r: Reading, rs: seq<Reading>, l: Lines)
    ensures var (mid, events) := Step(s, r, l);
            && Run(s, [r] + rs, l).0 == Run(mid, rs, l).0
            && Run(s, [r] + rs, l).1 == events + Run(mid, rs, l).1
  {
    if |rs| == 0 {
      assert [r] + rs == [r];
      RunOne(s, r, l);
    } else {
      var init := rs[..|rs| - 1];
      RunFrom(s, r, init, l);
      assert ([r] + rs)[..|rs|] == [r] + init;
    }
  }

  /** Falling under both lines is reported once, with the buffer it happened at, and that buffer is
      what the pages that follow are counted from. */
  lemma CriticalIsReported(s: State, b0: real, rs: seq<Reading>, l: Lines)
    requires s.tier != Some(CRITICAL) && b0 < l.nominal && b0 < l.critical
    ensures Run(s, [Percent(b0)] + rs, l)
            == (Run(State(Some(CRITICAL), Some(b0)), rs, l).0,
                [Transition(s.tier, CRITICAL, Some(b0))] + Run(State(Some(CRITICAL), Some(b0)), rs, l).1)
  {
    RunFrom(s, Percent(b0), rs, l);
  }

  /** From the moment CRITICAL is entered at a buffer of `b0`: after k pages the last paged
      buffer is at least 2k points lower, and no reading in the stretch is two points under the
      last page without having been paged itself. */
  lemma {:induction false} PagesMeanDecay(b0: real, rs: seq<Reading>, l: Lines)
    requires AllCritical(rs, l)
    ensures var (s, events) := Run(State(Some(CRITICAL), Some(b0)), rs, l);
            && s.tier == Some(CRITICAL) && s.alertBuffer.Some?
            && s.alertBuffer.value <= b0 - 2.0 * Pages(events) as real
            && (Pages(events) > 0 ==> exists i :: 0 <= i < |rs| && rs[i] == Percent(s.alertBuffer.value))
            && forall i :: 0 <= i < |rs| && rs[i].Percent? ==> s.alertBuffer.value - rs[i].b < 2.0
  {
    var start := State(Some(CRITICAL), Some(b0));
    if |rs| > 0 {
      var init, r := rs[..|rs| - 1], rs[|rs| - 1];
      PagesMeanDecay(b0, init, l);
      var (mid, events) := Run(start, init, l);
      var (after, more) := Step(mid, r, l);
      if |more| == 0 {
        assert events + more == events;
      } else {
        assert (events + more)[..|events|] == events;
        assert rs[|rs| - 1] == Percent(after.alertBuffer.value);
      }
      forall i | 0 <= i < |rs| && rs[i].Percent? ensures after.alertBuffer.value - rs[i].b < 2.0 {
        assert i < |init| ==> rs[i] == init[i];
      }
    }
  }
}

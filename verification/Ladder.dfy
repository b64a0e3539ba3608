/** The entry ladder: where the next rung of a pair is bid, when it is refused, and how
    densely rungs can ever be packed. */
module Ladder {
  import opened Wrappers
  import opened Prices

  const LADDER_STOP_BUFFER := 0.0
  const POST_ONLY_SLIP_PCT := 0.001

  predicate AtLadderFloor(target: real, stop: real) {
    stop != 0.0 && target <= stop * (1.0 + LADDER_STOP_BUFFER)
  }

  function Abs(x: real): real {
    if x < 0.0 then 0.0 - x else x
  }

  predicate OwnsLevelNear(held: seq<real>, price: real, pct: real) {
    0.0 < price && exists k :: 0 <= k < |held| && held[k] != 0.0 && Abs(held[k] - price) <= pct * price
  }

  /** The bid of the next rung below a fill: one step down, clamped under a market that has
      already fallen, refused at the chain's floor and next to a level already owned. */
  function NextRung(held: seq<real>, filled: real, step: real, stop: real, live: Option<real>): Option<real> {
    var target := TickRound(filled * (1.0 - step)) as real;
    if filled <= 0.0 || AtLadderFloor(target, stop) then None
    else
      var lid := if live.Some? && 0.0 < live.value then TickRound(live.value * (1.0 - POST_ONLY_SLIP_PCT)) as real
                 else target;
      var bid := if lid < target then lid else target;
      if AtLadderFloor(bid, stop) || OwnsLevelNear(held, bid, step * 0.5) then None else Some(bid)
  }

  /** One step under a fill, on the tick grid, but no higher than a tenth of a percent under the live
      price. */
  function StepDown(filled: real, step: real, live: Option<real>): real {
    var under := TickRound(filled * (1.0 - step));
    (if live.Some? && 0.0 < live.value then Min(under, TickRound(live.value * 0.999)) else under) as real
  }

  /** No level held is within half a step of this one. */
  predicate Clear(held: seq<real>, level: real, step: real) {
    forall k :: 0 <= k < |held| && held[k] != 0.0 && 0.0 < level ==>
                  held[k] < level - step * 0.5 * level || level + step * 0.5 * level < held[k]
  }

  /** Exactly when a rung is bid, and where: at the step down, if that is above the chain's stop and
      clear of everything held. */
  lemma NextRungExact(held: seq<real>, filled: real, step: real, stop: real, live: Option<real>)
    ensures var level := StepDown(filled, step, live);
            NextRung(held, filled, step, stop, live)
            == if 0.0 < filled && (stop == 0.0 || stop < level) && Clear(held, level, step) then Some(level) else None
  {
    hide TickRound;
    var level := StepDown(filled, step, live);
    assert Clear(held, level, step) <==> !OwnsLevelNear(held, level, step * 0.5);
  }

  /** The early floor test saves the ticker call and changes no outcome: what it refuses,
      the test after the clamp would refuse too. */
  lemma FloorPreGateIsSound(held: seq<real>, filled: real, step: real, stop: real, live: Option<real>)
    requires 0.0 < filled
    ensures var target := TickRound(filled * (1.0 - step)) as real;
            var lid := if live.Some? && 0.0 < live.value then TickRound(live.value * (1.0 - POST_ONLY_SLIP_PCT)) as real
                       else target;
            var bid := if lid < target then lid else target;
            NextRung(held, filled, step, stop, live)
            == if AtLadderFloor(bid, stop) || OwnsLevelNear(held, bid, step * 0.5) then None else Some(bid)
  {
  }

  // ── a chain over its whole life ─────────────────────────────────────────────

  datatype Stage = Bidding | Held | Gone

  /** A bid or lot of one pair, in order of placement. `rung` tells a ladder rung from an
      entry placed by a signal, which no level check guards. */
  datatype Level = Level(entry: real, step: real, stop: real, stage: Stage, rung: bool)

  datatype Move =
    | Rung(filled: real, step: real, stop: real, live: Option<real>)
    | Entry(entry: real, step: real, stop: real)
    | Fills(i: nat)
    | Ends(i: nat)

  function HeldEntries(chain: seq<Level>): seq<real> {
    if |chain| == 0 then []
    else HeldEntries(chain[..|chain| - 1])
         + if chain[|chain| - 1].stage.Held? then [chain[|chain| - 1].entry] else []
  }

  predicate AnyBidding(chain: seq<Level>) {
    exists i :: 0 <= i < |chain| && chain[i].stage.Bidding?
  }

  /** One step in the life of a chain: a rung is placed only while no bid of the pair rests;
      a level only moves forward, from bid to lot to gone. */
  function Advance(chain: seq<Level>, m: Move): seq<Level> {
    match m
    case Rung(filled, step, stop, live) =>
      (if AnyBidding(chain) then chain
       else match NextRung(HeldEntries(chain), filled, step, stop, live)
         case None => chain
         case Some(bid) => chain + [Level(bid, step, stop, Bidding, true)])
    case Entry(entry, step, stop) => chain + [Level(entry, step, stop, Bidding, false)]
    case Fills(i) =>
      if i < |chain| && chain[i].stage.Bidding? then chain[i := chain[i].(stage := Held)] else chain
    case Ends(i) =>
      if i < |chain| then chain[i := chain[i].(stage := Gone)] else chain
  }

  function Live(moves: seq<Move>): seq<Level> {
    if |moves| == 0 then [] else Advance(Live(moves[..|moves| - 1]), moves[|moves| - 1])
  }

  /** A rung keeps more than half its own step between itself and every lot held before it. */
  predicate Apart(older: Level, rung: Level) {
    rung.step * 0.5 * rung.entry < Abs(older.entry - rung.entry)
  }

  ghost predicate Packed(chain: seq<Level>) {
    forall i, j :: 0 <= i < j < |chain| && chain[j].rung && 0.0 < chain[j].stop && chain[i].entry != 0.0
                   && !chain[j].stage.Gone? && !chain[i].stage.Gone? ==>
                     chain[i].stage.Held? && Apart(chain[i], chain[j])
  }

  ghost predicate AboveStops(chain: seq<Level>) {
    forall j :: 0 <= j < |chain| && chain[j].rung && 0.0 < chain[j].stop ==> chain[j].stop < chain[j].entry
  }

  lemma {:induction false} HeldEntriesComplete(chain: seq<Level>, i: nat)
    requires i < |chain| && chain[i].stage.Held?
    ensures exists k :: 0 <= k < |HeldEntries(chain)| && HeldEntries(chain)[k] == chain[i].entry
  {
    var n := |chain| - 1;
    if i == n {
      assert HeldEntries(chain)[|HeldEntries(chain)| - 1] == chain[i].entry;
    } else {
      HeldEntriesComplete(chain[..n], i);
      var k :| 0 <= k < |HeldEntries(chain[..n])| && HeldEntries(chain[..n])[k] == chain[i].entry;
      assert HeldEntries(chain)[k] == chain[i].entry;
    }
  }

  lemma NextRungSpaced(held: seq<real>, filled: real, step: real, stop: real, live: Option<real>, k: nat)
    requires NextRung(held, filled, step, stop, live).Some? && 0.0 < stop
    requires k < |held| && held[k] != 0.0
    ensures var bid := NextRung(held, filled, step, stop, live).value;
            stop < bid && step * 0.5 * bid < Abs(held[k] - bid)
  {
    hide TickRound;
    assert !OwnsLevelNear(held, NextRung(held, filled, step, stop, live).value, step * 0.5);
  }

  lemma NewRungApart(chain: seq<Level>, m: Move, i: nat)
    requires m.Rung? && 0.0 < m.stop && i < |chain| && Advance(chain, m) != chain
    requires chain[i].entry != 0.0 && !chain[i].stage.Gone?
    ensures var rung := Advance(chain, m)[|chain|];
            chain[i].stage.Held? && m.stop < rung.entry && Apart(chain[i], rung)
  {
    hide NextRung, HeldEntries;
    HeldEntriesComplete(chain, i);
    var held := HeldEntries(chain);
    var k :| 0 <= k < |held| && held[k] == chain[i].entry;
    NextRungSpaced(held, m.filled, m.step, m.stop, m.live, k);
  }

  lemma AdvanceKeepsPacked(chain: seq<Level>, m: Move)
    requires Packed(chain) && AboveStops(chain)
    ensures Packed(Advance(chain, m)) && AboveStops(Advance(chain, m))
  {
    if m.Rung? && Advance(chain, m) != chain && 0.0 < m.stop {
      forall i | 0 <= i < |chain| && chain[i].entry != 0.0 && !chain[i].stage.Gone?
        ensures chain[i].stage.Held? && Apart(chain[i], Advance(chain, m)[|chain|])
      {
        NewRungApart(chain, m, i);
      }
    }
  }

  /** Over the whole life of a chain, whatever fills, ends, and however entries by signals
      interleave: any two open lots of which the later is a ladder rung are more than half
      that rung's step apart, and every rung sits strictly above the stop it inherited. */
  lemma {:induction false} RungsNeverCrowd(moves: seq<Move>)
    ensures Packed(Live(moves)) && AboveStops(Live(moves))
  {
    if |moves| > 0 {
      RungsNeverCrowd(moves[..|moves| - 1]);
      AdvanceKeepsPacked(Live(moves[..|moves| - 1]), moves[|moves| - 1]);
    }
  }

  // ── how many rungs fit ──────────────────────────────────────────────────────

  /** lo * r^n */
  function Climb(lo: real, r: real, n: nat): real {
    if n == 0 then lo else r * Climb(lo, r, n - 1)
  }

  predicate FarApart(x: real, y: real, r: real) {
    r * x < y || r * y < x
  }

  lemma FarAbove(x: real, y: real, r: real)
    requires (FarApart(x, y, r) || FarApart(y, x, r)) && 0.0 < x <= y && 1.0 <= r
    ensures r * x < y
  {
  }

  /** Prices above `lo` that are pairwise more than a factor `r` apart. */
  ghost predicate Spread(xs: seq<real>, lo: real, r: real) {
    && (forall i :: 0 <= i < |xs| ==> lo < xs[i])
    && (forall i, j :: 0 <= i < j < |xs| ==> FarApart(xs[i], xs[j], r))
  }

  lemma {:induction false} LargestOf(xs: seq<real>) returns (m: nat)
    requires 0 < |xs|
    ensures m < |xs| && forall i :: 0 <= i < |xs| ==> xs[i] <= xs[m]
  {
    if |xs| == 1 {
      m := 0;
    } else {
      var k := LargestOf(xs[..|xs| - 1]);
      m := if xs[k] < xs[|xs| - 1] then |xs| - 1 else k;
    }
  }

  lemma Stretch(r: real, c: real, x: real, top: real)
    requires 0.0 < r && c <= x && r * x < top
    ensures r * c < top
  {
  }

  lemma SpreadWithout(xs: seq<real>, lo: real, r: real, m: nat)
    requires m < |xs| && Spread(xs, lo, r)
    ensures Spread(xs[..m] + xs[m + 1..], lo, r)
  {
  }

  lemma {:induction false} SpreadReachesHigh(xs: seq<real>, lo: real, r: real, top: real)
    requires 0 < |xs| && 1.0 <= r && 0.0 < lo && Spread(xs, lo, r)
    requires forall i :: 0 <= i < |xs| ==> xs[i] <= top
    ensures Climb(lo, r, |xs| - 1) < top
  {
    hide FarApart;
    var m := LargestOf(xs);
    if |xs| == 1 {
      assert lo < xs[m] <= top;
    } else {
      SpreadWithout(xs, lo, r, m);
      var rest := xs[..m] + xs[m + 1..];
      var below := LargestOf(rest);
      var at := if below < m then below else below + 1;
      assert rest[below] == xs[at];
      SpreadReachesHigh(rest, lo, r, xs[at]);
      FarAbove(xs[at], xs[m], r);
      Stretch(r, Climb(lo, r, |xs| - 2), xs[at], xs[m]);
    }
  }

  /** Rungs of a chain that are all open, share a stop, and took steps of at least 0.5%. */
  ghost predicate OpenRungs(chain: seq<Level>, ids: seq<nat>, stop: real, top: real) {
    && (forall a, b :: 0 <= a < b < |ids| ==> ids[a] < ids[b])
    && (forall a :: 0 <= a < |ids| ==>
                      && ids[a] < |chain| && chain[ids[a]].rung && chain[ids[a]].stage.Held?
                      && chain[ids[a]].stop == stop && 0.005 <= chain[ids[a]].step && chain[ids[a]].entry <= top)
  }

  lemma HalfStepIsFactor(older: Level, rung: Level)
    requires Apart(older, rung) && 0.005 <= rung.step && 0.0 < rung.entry
    ensures FarApart(older.entry, rung.entry, 1.0025)
  {
  }

  /** At most k rungs can be open at once between a stop and a top price, where
      stop * 1.0025^(k-1) < top. */
  lemma OpenRungsBounded(moves: seq<Move>, ids: seq<nat>, stop: real, top: real)
    requires 0 < |ids| && 0.0 < stop && OpenRungs(Live(moves), ids, stop, top)
    ensures Climb(stop, 1.0025, |ids| - 1) < top
  {
    hide Live, Apart, Climb, FarApart, Advance;
    var chain := Live(moves);
    RungsNeverCrowd(moves);
    var xs := seq(|ids|, a requires 0 <= a < |ids| => chain[ids[a]].entry);
    forall a, b | 0 <= a < b < |ids|
      ensures FarApart(xs[a], xs[b], 1.0025)
    {
      var (older, rung) := (chain[ids[a]], chain[ids[b]]);
      assert Apart(older, rung);
      HalfStepIsFactor(older, rung);
    }
    SpreadReachesHigh(xs, stop, 1.0025, top);
  }
}

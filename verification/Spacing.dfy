/** The spacing of a pair's lots over whole runs: what every pass leaves of the rows it found, and
    how far the rungs it adds stay from the lots that are held. */
module Spacing {
  import opened Wrappers
  import opened Exchange
  import opened Ledger
  import opened Broker
  import opened Prices
  import opened Protect
  import Fills
  import Flatten
  import Harvest
  import Ladder
  import Reconcile

  // ── what no pass ever does to a row ─────────────────────────────────────────

  /** A row keeps its pair and its entry level, and its status moves forward only: from a bid to a
      lot, and from either to its end. */
  predicate Grown(was: Row, now: Row) {
    && now.sym == was.sym && now.entry == was.entry
    && (now.status.RowPending? ==> was.status.RowPending? && now.stop == was.stop)
    && (now.status.RowOpen? ==> was.status.RowOpen? || was.status.RowPending?)
  }

  ghost predicate Evolved(was: seq<Row>, now: seq<Row>) {
    |was| <= |now| && forall i :: 0 <= i < |was| ==> Grown(was[i], now[i])
  }

  lemma EvolvedTransitive(a: seq<Row>, b: seq<Row>, c: seq<Row>)
    requires Evolved(a, b) && Evolved(b, c)
    ensures Evolved(a, c)
  {
    forall i | 0 <= i < |a| ensures Grown(a[i], c[i]) {
      assert Grown(a[i], b[i]) && Grown(b[i], c[i]);
    }
  }

  lemma RearmedEvolves(before: seq<Row>, after: seq<Row>, read: Option<Positions>, open: Option<map<Txid, Order>>, book: Book)
    requires Rearmed(before, after, read, open, book)
    ensures |after| == |before| && Evolved(before, after)
  {
    hide NoneShared, ArmedBy, StoppedVol, Claimed;
  }

  lemma SettledGrows(was: Row, now: Row, before: Book, book: Book, pastWindow: bool)
    requires Fills.EntrySettled(was, now, before, book, pastWindow) && was.status.RowPending?
    ensures Grown(was, now)
  {
  }

  lemma PassEvolves(rows: seq<Row>, now: seq<Row>, scene: seq<Fills.Scene>, before: Book, book: Book)
    requires Fills.PassSoFar(rows, now, |rows|, scene, before, book)
    ensures Evolved(rows, now)
  {
    hide Fills.EntrySettled, Grown;
    forall i | 0 <= i < |rows| ensures Grown(rows[i], now[i]) {
      if rows[i].status.RowPending? {
        SettledGrows(rows[i], now[i], before, book, scene[i].pastWindow);
      } else {
        assert Grown(rows[i], rows[i]) by { SameIsGrown(rows[i]); }
      }
    }
  }

  lemma SameIsGrown(row: Row)
    ensures Grown(row, row)
  {
  }

  lemma ManagedEvolves(rows: seq<Row>, now: seq<Row>, info: map<Txid, Order>)
    requires |now| == |rows| && forall i: nat :: i < |now| ==> Harvest.RowManaged(rows, i, now[i], info)
    ensures Evolved(rows, now)
  {
    forall i | 0 <= i < |rows| ensures Grown(rows[i], now[i]) {
      assert Harvest.RowManaged(rows, i, now[i], info);
    }
  }

  lemma StartedEvolves(before: seq<Row>, after: seq<Row>, cands: seq<nat>, n: nat, read: Option<Positions>,
                       quotes: map<Pair, Harvest.Quote>, book: Book)
    requires Harvest.Started(before, after, cands, n, read, quotes, book)
    ensures |after| == |before| && Evolved(before, after)
  {
    hide Harvest.BackedBy, Harvest.HarvestOrder, TickRound;
  }

  lemma SweepEvolves(closed: bool, before: seq<Call>, after: seq<Call>, was: Book, rows: seq<Row>, now: seq<Row>,
                     s: Reconcile.Sweep, book: Book)
    requires Reconcile.Swept(closed, before, after, was, rows, now, s, book)
    ensures |now| == |rows| && Evolved(rows, now)
  {
    hide Reconcile.ReadsFirst, Reconcile.ReadsOk, Reconcile.ReadLater, Reconcile.ReadAgain, Reconcile.Attended,
      Reconcile.VerdictOn, Reconcile.Sifted, Reconcile.RowGuarded, Reconcile.SafelyPlaced, Reconcile.Committed, Grown, Grew;
    forall i | 0 <= i < |rows| ensures Grown(rows[i], now[i]) {
      assert Reconcile.RowGuarded(s.mid[i], now[i], s.backed[i], s.r, book);
      SweptRowGrows(rows, i, s.mid[i], now[i], s.r, s.backed[i], s.between, book);
    }
  }

  lemma SweptRowGrows(rows: seq<Row>, i: nat, mid: Row, now: Row, r: Reconcile.Reads, kept: bool, between: Book, book: Book)
    requires i < |rows| && Reconcile.Sifted(rows, i, mid, r, Reconcile.VerdictOn(rows, i, r), between)
    requires Reconcile.RowGuarded(mid, now, kept, r, book) && (kept <==> Reconcile.VerdictOn(rows, i, r).Keep?)
    ensures Grown(rows[i], now)
  {
    hide Reconcile.Left, Harvest.SoloClose, Reconcile.Holds, TickRound, Reconcile.StopShown;
  }

  lemma ClearedEvolves(rows: seq<Row>, bids: map<Txid, Order>, settled: seq<Row>, blocked: set<Pair>, book: Book)
    requires Flatten.SweptFirst(rows, bids, settled, blocked, book)
    ensures |settled| == |rows| && Evolved(rows, settled)
  {
    hide Seen, Flatten.Off;
    forall i | 0 <= i < |rows| ensures Grown(rows[i], settled[i]) {
      assert Flatten.StopSettled(Flatten.BidSettled(rows[i], bids), settled[i], book);
    }
  }

  lemma FlatEvolves(start: seq<Row>, now: seq<Row>, read: Positions, info: map<Txid, Order>, placed: map<Pair, Txid>,
                    quotes: map<Pair, Harvest.Quote>, blocked: set<Pair>, bound: nat, book: Book)
    requires Flatten.Flattening(start, now, {}, read, info, placed, quotes, blocked, bound, book)
    ensures |now| == |start| && Evolved(start, now)
  {
    hide Flatten.RestedWell, Flatten.Off, Long;
    forall i | 0 <= i < |start| ensures Grown(start[i], now[i]) {
      assert Flatten.RowFlat(start[i], now[i], {}, read, info, placed, blocked, book);
    }
  }

  // ── where rows come from, and how far apart they are ────────────────────────

  /** What placed a row: a signal, which no level check guards; a seed of an idle pair; or a fill, as
      its next rung, with the step and the chain's stop of that time. */
  datatype Origin = BySignal | BySeed | ByRung(step: real, floor: real)

  predicate Live(row: Row) {
    row.status.RowPending? || row.status.RowOpen?
  }

  /** How a live row stands to an older live row of its pair. */
  predicate PairApart(older: Row, row: Row, o: Origin) {
    older.sym == row.sym && Live(older) && Live(row) ==>
      match o
      case BySignal => true
      case BySeed => false
      case ByRung(step, floor) =>
        older.status.RowOpen?
        && (0.0 < floor && older.entry != 0.0 ==> step * 0.5 * row.entry < Ladder.Abs(older.entry - row.entry))
  }

  predicate AboveFloor(row: Row, o: Origin) {
    o.ByRung? && 0.0 < o.floor ==> o.floor < row.entry
  }

  /** Every rung is above its chain's stop and more than half its step from every lot of the pair that
      is older than it, and every seed is the oldest of its pair. */
  ghost predicate Spaced(rows: seq<Row>, laid: seq<Origin>) {
    && |laid| == |rows|
    && (forall i, j :: 0 <= i < j < |rows| ==> PairApart(rows[i], rows[j], laid[j]))
    && (forall j :: 0 <= j < |rows| ==> AboveFloor(rows[j], laid[j]))
  }

  lemma ApartLasts(older: Row, row: Row, o: Origin, older': Row, row': Row)
    requires PairApart(older, row, o) && Grown(older, older') && Grown(row, row')
    ensures PairApart(older', row', o)
  {
    hide Ladder.Abs;
  }

  lemma SpacedLasts(rows: seq<Row>, laid: seq<Origin>, now: seq<Row>)
    requires Spaced(rows, laid) && Evolved(rows, now) && |now| == |rows|
    ensures Spaced(now, laid)
  {
    hide PairApart, Grown;
    forall i, j | 0 <= i < j < |now| ensures PairApart(now[i], now[j], laid[j]) {
      ApartLasts(rows[i], rows[j], laid[j], now[i], now[j]);
    }
    forall j | 0 <= j < |now| ensures AboveFloor(now[j], laid[j]) {
      assert AboveFloor(rows[j], laid[j]);
      EntryStays(rows[j], now[j]);
    }
  }

  lemma EntryStays(was: Row, now: Row)
    requires Grown(was, now)
    ensures now.entry == was.entry
  {
  }

  /** Rows grew and others joined: enough that each newcomer stands well to all before it. */
  lemma SpacedMore(rows: seq<Row>, laid: seq<Origin>, now: seq<Row>, laid': seq<Origin>)
    requires Spaced(rows, laid) && Evolved(rows, now) && |laid'| == |now| && laid'[..|rows|] == laid
    requires forall i, j :: 0 <= i < j < |now| && |rows| <= j ==> PairApart(now[i], now[j], laid'[j])
    requires forall j :: |rows| <= j < |now| ==> AboveFloor(now[j], laid'[j])
    ensures Spaced(now, laid')
  {
    hide PairApart, Grown, AboveFloor;
    SpacedLasts(rows, laid, now[..|rows|]);
    forall i, j | 0 <= i < j < |rows| ensures PairApart(now[i], now[j], laid'[j]) {
      assert now[i] == now[..|rows|][i] && now[j] == now[..|rows|][j] && laid'[j] == laid[j];
    }
    forall j | 0 <= j < |rows| ensures AboveFloor(now[j], laid'[j]) {
      assert now[j] == now[..|rows|][j] && laid'[j] == laid[j];
    }
  }

  /** A rung with room keeps its distance from every row before it that is a lot. */
  lemma RoomyIsApart(rows: seq<Row>, row: Row, step: real, floor: real, i: nat)
    requires i < |rows| && (rows[i].sym == row.sym ==> !rows[i].status.RowPending?)
    requires 0.0 < floor ==> Fills.Roomy(rows, row.sym, row.entry, step, floor)
    ensures PairApart(rows[i], row, ByRung(step, floor)) && AboveFloor(row, ByRung(step, floor))
  {
    hide Ladder.Abs;
  }

  // ── the rungs of the promotion pass ─────────────────────────────────────────

  /** The step is one that the scenes of the pass name. */
  ghost predicate SceneStep(scene: seq<Fills.Scene>, step: real) {
    exists i :: 0 <= i < |scene| && scene[i].step == step
  }

  ghost predicate LaidRung(o: Origin, row: Row) {
    o.ByRung? && row.stop == TickRound(o.floor) as real
  }

  /** The origin fits row `j`: a rung with a step of the pass, and with its distance from all before. */
  ghost predicate WellLaid(now: seq<Row>, j: nat, o: Origin, scene: seq<Fills.Scene>)
    requires j < |now|
  {
    && LaidRung(o, now[j]) && SceneStep(scene, o.step) && AboveFloor(now[j], o)
    && forall i :: 0 <= i < j ==> PairApart(now[i], now[j], o)
  }

  lemma OnePromoted(rows: seq<Row>, now: seq<Row>, scene: seq<Fills.Scene>, j: nat) returns (o: Origin)
    requires |scene| == |rows| <= j < |now| && Fills.Laddered(rows, now, |rows|, scene)
    ensures WellLaid(now, j, o, scene)
  {
    hide Fills.LevelsOwned, Ladder.NextRung, Fills.Roomy, PairApart, AboveFloor, TickRound;
    assert Fills.HasRungUnder(rows, now, |rows|, scene, j);
    var i: nat :| Fills.RungUnder(rows, now, |rows|, scene, i, j);
    o := ByRung(scene[i].step, now[i].stop);
    assert SceneStep(scene, o.step);
    if 0.0 < now[i].stop {
      Fills.RungIsRoomy(now, i, now[j], scene[i]);
    }
    forall k | 0 <= k < |now| && k != j ensures now[k].sym == now[j].sym ==> !now[k].status.RowPending? {
    }
    RoomyIsApart(now, now[j], scene[i].step, now[i].stop, i);
    forall k | 0 <= k < j ensures PairApart(now[k], now[j], o) {
      RoomyIsApart(now, now[j], scene[i].step, now[i].stop, k);
    }
  }

  lemma {:induction false} PromotedOrigins(rows: seq<Row>, now: seq<Row>, scene: seq<Fills.Scene>, n: nat)
    returns (more: seq<Origin>)
    requires |scene| == |rows| && |rows| + n <= |now| && Fills.Laddered(rows, now, |rows|, scene)
    ensures |more| == n
    ensures forall k :: 0 <= k < n ==> WellLaid(now, |rows| + k, more[k], scene)
  {
    hide Fills.Laddered, WellLaid;
    if n == 0 {
      more := [];
    } else {
      var fewer := PromotedOrigins(rows, now, scene, n - 1);
      var o := OnePromoted(rows, now, scene, |rows| + n - 1);
      more := fewer + [o];
      assert forall k :: 0 <= k < n - 1 ==> more[k] == fewer[k];
    }
  }

  /** The promotion pass keeps the spacing, its own rungs included. */
  lemma PromotionKeepsSpacing(rows: seq<Row>, laid: seq<Origin>, now: seq<Row>, scene: seq<Fills.Scene>, before: Book, book: Book)
    returns (laid': seq<Origin>)
    requires Spaced(rows, laid) && Fills.PassSoFar(rows, now, |rows|, scene, before, book)
    requires Fills.Laddered(rows, now, |rows|, scene)
    ensures Spaced(now, laid') && laid'[..|rows|] == laid && Evolved(rows, now)
    ensures forall j :: |rows| <= j < |now| ==> LaidRung(laid'[j], now[j]) && SceneStep(scene, laid'[j].step)
  {
    hide PairApart, AboveFloor, Evolved, Fills.Laddered, SceneStep, TickRound;
    PassEvolves(rows, now, scene, before, book);
    var more := PromotedOrigins(rows, now, scene, |now| - |rows|);
    laid' := laid + more;
    forall j | |rows| <= j < |now|
      ensures LaidRung(laid'[j], now[j]) && SceneStep(scene, laid'[j].step) && AboveFloor(now[j], laid'[j])
      ensures forall i :: 0 <= i < j ==> PairApart(now[i], now[j], laid'[j])
    {
      var k := j - |rows|;
      assert laid'[j] == more[k] && WellLaid(now, |rows| + k, more[k], scene);
    }
    SpacedMore(rows, laid, now, laid');
  }

  // ── how many rungs a pair can hold ──────────────────────────────────────────

  /** Open lots of one pair, oldest first, all placed as rungs over the same stop with steps of at
      least half a percent. */
  ghost predicate OpenRungs(rows: seq<Row>, laid: seq<Origin>, ids: seq<nat>, sym: Pair, stop: real, top: real)
    requires |laid| == |rows|
  {
    && (forall a, b :: 0 <= a < b < |ids| ==> ids[a] < ids[b])
    && (forall a :: 0 <= a < |ids| ==>
                      && ids[a] < |rows| && rows[ids[a]].status.RowOpen? && rows[ids[a]].sym == sym
                      && rows[ids[a]].entry <= top
                      && laid[ids[a]].ByRung? && laid[ids[a]].floor == stop && 0.005 <= laid[ids[a]].step)
  }

  lemma ApartIsFactor(older: Row, row: Row, o: Origin)
    requires PairApart(older, row, o) && older.sym == row.sym && older.status.RowOpen? && row.status.RowOpen?
    requires o.ByRung? && 0.0 < o.floor < older.entry && 0.005 <= o.step && o.floor < row.entry
    ensures Ladder.FarApart(older.entry, row.entry, 1.0025)
  {
    Ladder.HalfStepIsFactor(Ladder.Level(older.entry, o.step, o.floor, Ladder.Held, true),
                            Ladder.Level(row.entry, o.step, o.floor, Ladder.Held, true));
  }

  /** However a book came to be spaced as it is: k open rungs of a pair over one stop and up to a top
      price force stop * 1.0025^(k-1) < top. */
  lemma OpenRungsBounded(rows: seq<Row>, laid: seq<Origin>, ids: seq<nat>, sym: Pair, stop: real, top: real)
    requires Spaced(rows, laid) && 0 < |ids| && 0.0 < stop && OpenRungs(rows, laid, ids, sym, stop, top)
    ensures Ladder.Climb(stop, 1.0025, |ids| - 1) < top
  {
    hide PairApart, Ladder.FarApart, Ladder.Climb;
    var xs := seq(|ids|, a requires 0 <= a < |ids| => rows[ids[a]].entry);
    forall a | 0 <= a < |ids| ensures stop < xs[a] {
      assert AboveFloor(rows[ids[a]], laid[ids[a]]);
    }
    forall a, b | 0 <= a < b < |ids| ensures Ladder.FarApart(xs[a], xs[b], 1.0025) {
      assert PairApart(rows[ids[a]], rows[ids[b]], laid[ids[b]]);
      ApartIsFactor(rows[ids[a]], rows[ids[b]], laid[ids[b]]);
    }
    Ladder.SpreadReachesHigh(xs, stop, 1.0025, top);
  }
}

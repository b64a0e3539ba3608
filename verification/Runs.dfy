/** The poll cycle and whole runs of the bot against an exchange that moves on its own. */
module Runs {
  import opened Wrappers
  import opened Sums
  import opened Exchange
  import opened Ledger
  import opened Broker
  import opened Protect
  import opened Volume
  import Fills
  import Harvest
  import Reconcile
  import Flatten
  import Ladder
  import opened Prices
  import opened Spacing

  // ── growing the book ────────────────────────────────────────────────────────

  /** Only bids were added, each for a pair that had none resting; no pair got two. */
  ghost predicate OnlyBids(before: seq<Row>, after: seq<Row>) {
    && |before| <= |after| && after[..|before|] == before
    && (forall i :: |before| <= i < |after| ==>
                      (after[i].status.RowPending? || after[i].status.RowRejected?)
                      && !Fills.HasPendingEntry(before, after[i].sym))
    && (forall i, j :: |before| <= i < j < |after| && after[i].status.RowPending? ==> after[i].sym != after[j].sym)
  }

  lemma OnlyBidsPush(before: seq<Row>, now: seq<Row>, row: Row)
    requires OnlyBids(before, now) && (row.status.RowPending? || row.status.RowRejected?)
    requires !Fills.HasPendingEntry(now, row.sym)
    ensures OnlyBids(before, now + [row])
  {
  }

  method FreshUserref(rows: seq<Row>) returns (userref: nat)
    ensures Fills.FreshRef(rows, userref)
  {
    ghost var unused := Fills.SomeRefIsFresh(rows);
    assert Fills.FreshRef(rows, unused);
    userref :| Fills.FreshRef(rows, userref);
  }

  /** Row `a` is the open row of the pair with the lowest entry, the oldest among equals. */
  ghost predicate Lowest(rows: seq<Row>, a: nat, sym: Pair) {
    && a < |rows| && rows[a].status.RowOpen? && rows[a].sym == sym
    && forall i :: 0 <= i < |rows| && rows[i].status.RowOpen? && rows[i].sym == sym ==>
                     rows[a].entry < rows[i].entry || (rows[a].entry == rows[i].entry && a <= i)
  }

  method LowestOpen(rows: seq<Row>, sym: Pair) returns (low: Option<nat>)
    ensures low.None? <==> forall i :: 0 <= i < |rows| ==> !(rows[i].status.RowOpen? && rows[i].sym == sym)
    ensures low.Some? ==> Lowest(rows, low.value, sym)
  {
    low := None;
    for k := 0 to |rows|
      invariant low.None? <==> forall i :: 0 <= i < k ==> !(rows[i].status.RowOpen? && rows[i].sym == sym)
      invariant low.Some? ==> low.value < k && rows[low.value].status.RowOpen? && rows[low.value].sym == sym
      invariant low.Some? ==> forall i :: 0 <= i < k && rows[i].status.RowOpen? && rows[i].sym == sym ==>
                                            rows[low.value].entry < rows[i].entry
                                            || (rows[low.value].entry == rows[i].entry && low.value <= i)
    {
      if rows[k].status.RowOpen? && rows[k].sym == sym && (low.None? || rows[k].entry < rows[low.value].entry) {
        low := Some(k);
      }
    }
  }

  /** The next rung under the lowest open fill of a pair, as the chain stood. */
  function RungUnder(rows: seq<Row>, a: nat, s: Fills.Scene): Option<real>
    requires a < |rows|
  {
    Fills.RungLevel(rows, rows[a].sym, rows[a].entry, s.step, rows[a].stop, s.live)
  }

  ghost predicate IsRungUnder(before: seq<Row>, row: Row, s: Fills.Scene) {
    exists a: nat :: Lowest(before, a, row.sym) && RungUnder(before, a, s) == Some(row.entry)
                && row.stop == TickRound(before[a].stop) as real && row.vol == s.vol
  }

  lemma {:induction false} PendingOwnsNothing(rows: seq<Row>, more: seq<Row>, sym: Pair)
    requires |rows| <= |more| && more[..|rows|] == rows
    requires forall i :: |rows| <= i < |more| ==> !more[i].status.RowOpen?
    ensures Fills.LevelsOwned(more, sym) == Fills.LevelsOwned(rows, sym)
  {
    if |more| == |rows| {
      assert more == rows;
    } else {
      var init := more[..|more| - 1];
      assert init[..|rows|] == rows;
      PendingOwnsNothing(rows, init, sym);
    }
  }

  /** Bids that joined do not move the next rung of any fill. */
  lemma SameRung(before: seq<Row>, now: seq<Row>, sym: Pair, filled: real, step: real, stop: real, live: Option<real>)
    requires OnlyBids(before, now)
    ensures Fills.RungLevel(now, sym, filled, step, stop, live) == Fills.RungLevel(before, sym, filled, step, stop, live)
  {
    hide Fills.RungLevel, Ladder.NextRung, Fills.LevelsOwned;
    PendingOwnsNothing(before, now, sym);
    Fills.NextRungExact(before, sym, filled, step, stop, live);
    Fills.NextRungExact(now, sym, filled, step, stop, live);
  }

  /** Re-place the next rung of every chain whose resting bid died: one step under the lowest
      open fill of the pair. When every call is answered no chain that can have one is left
      without a bid. */
  method EnsureLadderRungs(tb: Table, kx: Kraken, order: seq<Pair>, scene: map<Pair, Fills.Scene>)
    requires Sound(tb, kx)
    modifies tb, kx`book, kx`safe, kx`trace
    ensures Sound(tb, kx) && Grew(old(kx.book), kx.book) && old(kx.trace) <= kx.trace && OnlyBids(old(tb.rows), tb.rows)
    ensures forall i :: |old(tb.rows)| <= i < |tb.rows| ==>
                          tb.rows[i].sym in scene && IsRungUnder(old(tb.rows), tb.rows[i], scene[tb.rows[i].sym])
    ensures kx.calm ==> forall k, a :: 0 <= k < |order| && Lowest(old(tb.rows), a, order[k]) ==>
                                         Served(old(tb.rows), a, scene, tb.rows)
  {
    hide Inv, Grew, OnlyBids, Fills.RungLevel, Fills.Roomy, Lowest, IsRungUnder;
    GrewReflexive(kx.book);
    NoBids(tb.rows);
    var rows := tb.rows;
    for k := 0 to |order|
      invariant Sound(tb, kx) && Grew(old(kx.book), kx.book) && OnlyBids(rows, tb.rows) && |rows| <= |tb.rows|
      invariant old(kx.trace) <= kx.trace
      invariant forall i :: |rows| <= i < |tb.rows| ==>
                              tb.rows[i].sym in scene && IsRungUnder(rows, tb.rows[i], scene[tb.rows[i].sym])
      invariant kx.calm ==> forall m, a :: 0 <= m < k && Lowest(rows, a, order[m]) ==> Served(rows, a, scene, tb.rows)
    {
      var sym := order[k];
      var low := LowestOpen(rows, sym);
      ghost var now := tb.rows;
      if low.Some? && sym in scene && 0 < scene[sym].vol {
        ghost var mid := kx.book;
        LowestIs(rows, low.value, sym);
        var row, s := rows[low.value], scene[sym];
        SameRung(rows, now, sym, row.entry, s.step, row.stop, s.live);
        var userref := FreshUserref(tb.rows);
        Fills.PlaceLadderRung(tb, kx, sym, row.stop, row.entry, s.step, s.live, s.vol, userref, s.tpPct, s.allowed);
        GrewTransitive(old(kx.book), mid, kx.book);
        if tb.rows != now {
          OnlyBidsPush(rows, now, tb.rows[|now|]);
          RungPlaced(rows, low.value, tb.rows[|now|], s);
          NowPending(tb.rows, |now|);
        }
      }
      if kx.calm {
        forall a | Lowest(rows, a, sym) ensures Served(rows, a, scene, tb.rows) {
          LowestIs(rows, a, sym);
          if low.Some? {
            OneLowest(rows, a, low.value, sym);
          }
        }
        forall m, a | 0 <= m < k && Lowest(rows, a, order[m]) ensures Served(rows, a, scene, tb.rows) {
          ServedLasts(rows, a, scene, now, tb.rows);
        }
      }
    }
  }

  /** If the lowest fill of a pair allows a rung, the pair has a bid resting. */
  predicate Served(before: seq<Row>, a: nat, scene: map<Pair, Fills.Scene>, now: seq<Row>) {
    a < |before| && before[a].sym in scene && 0 < scene[before[a].sym].vol && scene[before[a].sym].allowed
    && RungUnder(before, a, scene[before[a].sym]).Some? ==>
      Fills.HasPendingEntry(now, before[a].sym)
  }

  lemma ServedLasts(before: seq<Row>, a: nat, scene: map<Pair, Fills.Scene>, mid: seq<Row>, now: seq<Row>)
    requires Served(before, a, scene, mid)
    requires now == mid || (|now| == |mid| + 1 && now == mid + [now[|mid|]])
    ensures Served(before, a, scene, now)
  {
    if a < |before| {
      forall i | 0 <= i < |mid| && mid[i].sym == before[a].sym && mid[i].status.RowPending?
        ensures Fills.HasPendingEntry(now, before[a].sym)
      {
        assert now[i] == mid[i];
      }
    }
  }

  lemma LowestIs(rows: seq<Row>, a: nat, sym: Pair)
    requires Lowest(rows, a, sym)
    ensures a < |rows| && rows[a].status.RowOpen? && rows[a].sym == sym
  {
  }

  lemma OneLowest(rows: seq<Row>, a: nat, b: nat, sym: Pair)
    requires Lowest(rows, a, sym) && Lowest(rows, b, sym)
    ensures a == b
  {
  }

  lemma RungPlaced(before: seq<Row>, a: nat, row: Row, s: Fills.Scene)
    requires Lowest(before, a, row.sym) && RungUnder(before, a, s) == Some(row.entry)
    requires row.stop == TickRound(before[a].stop) as real && row.vol == s.vol
    ensures IsRungUnder(before, row, s)
  {
  }

  lemma NowPending(rows: seq<Row>, i: nat)
    requires i < |rows| && rows[i].status.RowPending?
    ensures Fills.HasPendingEntry(rows, rows[i].sym)
  {
  }

  lemma NoBids(rows: seq<Row>)
    ensures OnlyBids(rows, rows)
  {
  }

  predicate AnyOpen(rows: seq<Row>, sym: Pair) {
    exists j :: 0 <= j < |rows| && rows[j].status.RowOpen? && rows[j].sym == sym
  }

  ghost predicate IsSeed(before: seq<Row>, row: Row, scene: map<Pair, Fills.Scene>, live: map<Pair, real>,
                         stop: map<Pair, real>)
  {
    && !AnyOpen(before, row.sym)
    && row.sym in live && row.sym in stop && row.entry == TickRound(live[row.sym] * 0.999) as real
    && row.stop == TickRound(stop[row.sym]) as real
    && row.sym in scene && row.vol == scene[row.sym].vol
  }

  /** A starter bid just under the live price for every listed pair that has neither an open
      row nor a resting bid; when every call is answered, each of them ends up with one. */
  method SeedChains(tb: Table, kx: Kraken, order: seq<Pair>, scene: map<Pair, Fills.Scene>, live: map<Pair, real>,
                    stop: map<Pair, real>)
    requires Sound(tb, kx)
    modifies tb, kx`book, kx`safe, kx`trace
    ensures Sound(tb, kx) && Grew(old(kx.book), kx.book) && old(kx.trace) <= kx.trace && OnlyBids(old(tb.rows), tb.rows)
    ensures forall i :: |old(tb.rows)| <= i < |tb.rows| ==>
                          IsSeed(old(tb.rows), tb.rows[i], scene, live, stop)
    ensures kx.calm ==> forall k :: 0 <= k < |order| && Seedable(old(tb.rows), order[k], scene, live, stop) ==>
                                      Fills.HasPendingEntry(tb.rows, order[k])
  {
    hide Inv, Grew, OnlyBids, TickRound;
    GrewReflexive(kx.book);
    NoBids(tb.rows);
    var rows := tb.rows;
    for k := 0 to |order|
      invariant Sound(tb, kx) && Grew(old(kx.book), kx.book) && OnlyBids(rows, tb.rows) && |rows| <= |tb.rows|
      invariant old(kx.trace) <= kx.trace
      invariant forall i :: |rows| <= i < |tb.rows| ==>
                              IsSeed(rows, tb.rows[i], scene, live, stop)
      invariant kx.calm ==> forall m :: 0 <= m < k && Seedable(rows, order[m], scene, live, stop) ==>
                                          Fills.HasPendingEntry(tb.rows, order[m])
    {
      var sym := order[k];
      var low := LowestOpen(rows, sym);
      var pending := Fills.FindPending(tb.rows, sym);
      ghost var now := tb.rows;
      if low.None? && sym in scene && sym in live && sym in stop && 0.0 < live[sym] && 0 < scene[sym].vol && scene[sym].allowed
         && !pending {
        ghost var mid := kx.book;
        var userref := FreshUserref(tb.rows);
        var row := Fills.BidRow(sym, scene[sym].vol, userref, TickRound(live[sym] * (1.0 - Ladder.POST_ONLY_SLIP_PCT)) as real, TickRound(stop[sym]) as real,
                                scene[sym].tpPct);
        var rests := Fills.PlaceBid(tb, kx, row, false);
        GrewTransitive(old(kx.book), mid, kx.book);
        OnlyBidsPush(rows, now, tb.rows[|now|]);
        forall m | 0 <= m < k && Fills.HasPendingEntry(now, order[m]) ensures Fills.HasPendingEntry(tb.rows, order[m]) {
          PendingLasts(now, tb.rows, order[m]);
        }
        if rests {
          NowPending(tb.rows, |now|);
        }
      }
    }
  }

  predicate Seedable(rows: seq<Row>, sym: Pair, scene: map<Pair, Fills.Scene>, live: map<Pair, real>, stop: map<Pair, real>) {
    !AnyOpen(rows, sym) && sym in scene && sym in live && sym in stop && 0.0 < live[sym] && 0 < scene[sym].vol && scene[sym].allowed
  }

  lemma PendingLasts(mid: seq<Row>, now: seq<Row>, sym: Pair)
    requires Fills.HasPendingEntry(mid, sym) && |now| == |mid| + 1 && now == mid + [now[|mid|]]
    ensures Fills.HasPendingEntry(now, sym)
  {
    var i :| 0 <= i < |mid| && mid[i].sym == sym && mid[i].status.RowPending?;
    assert now[i] == mid[i];
  }

  // ── the poll cycle ──────────────────────────────────────────────────────────

  /** Everything a cycle takes from outside the ledger and the account. */
  datatype Inputs = Inputs(scene: seq<Fills.Scene>, quotes: map<Pair, Harvest.Quote>, last: map<Pair, real>,
                           ladder: seq<Pair>, seeds: seq<Pair>, chain: map<Pair, Fills.Scene>,
                           live: map<Pair, real>, stop: map<Pair, real>, sweep: bool)

  /** The ledger, the exchange and the calls so far, at one moment. */
  datatype Moment = Moment(rows: seq<Row>, book: Book, told: seq<Call>)

  ghost predicate Later(a: Moment, b: Moment) {
    Grew(a.book, b.book) && a.told <= b.told
  }

  /** A re-arm pass between two moments, on what it was told. */
  ghost predicate WasRearmed(closed: bool, calm: bool, a: Moment, b: Moment) {
    exists read, open :: RearmedOn(closed, calm, a, b, read, open)
  }

  ghost predicate RearmedOn(closed: bool, calm: bool, a: Moment, b: Moment, read: Option<Positions>,
                            open: Option<map<Txid, Order>>)
  {
    && Rearmed(a.rows, b.rows, read, open, b.book)
    && (if AnyNaked(a.rows)
        then OrdersRead(a.told, b.told, a.book, b.book, open) && PositionRead(closed, a.told, b.told, a.book, b.book, read)
             && OrdersThenPosition(a.told, b.told, open, read)
        else b == a)
    && (calm ==> NakedUnbacked(b.rows, read) && (AnyNaked(a.rows) ==> read.Some? && open.Some?))
  }

  /** A promotion pass between two moments, on what it was told. */
  ghost predicate WasPromoted(closed: bool, calm: bool, a: Moment, b: Moment, scene: seq<Fills.Scene>) {
    exists known :: PromotedOn(closed, calm, a, b, scene, known)
  }

  ghost predicate PromotedOn(closed: bool, calm: bool, a: Moment, b: Moment, scene: seq<Fills.Scene>,
                             known: map<Txid, Order>)
  {
    && Fills.BidsAsked(a.told, b.told, a.rows, known)
    && |scene| == |a.rows| <= |b.rows|
    && Fills.PassSoFar(a.rows, b.rows, |a.rows|, scene, a.book, b.book)
    && Fills.Laddered(a.rows, b.rows, |a.rows|, scene)
    && Fills.DefiniteLeft(a.rows, b.rows, |a.rows|, known)
    && (calm ==> Fills.AnsweredAll(a.rows, known, a.book)
                 && Fills.CalmPass(a.rows, b.rows, |a.rows|, scene, a.book, Fills.EntriesApart(a.rows, a.book))
                 && Fills.NoneMissed(a.rows, b.rows, |a.rows|, scene))
    && (closed ==> Fills.EntriesApart(a.rows, a.book))
  }

  /** The harvests at work were settled or pulled, on what was told. */
  ghost predicate WasManaged(calm: bool, a: Moment, b: Moment, quotes: map<Pair, Harvest.Quote>) {
    exists info, pulled :: ManagedOn(calm, a, b, quotes, info, pulled)
  }

  ghost predicate ManagedOn(calm: bool, a: Moment, b: Moment, quotes: map<Pair, Harvest.Quote>, info: map<Txid, Order>,
                            pulled: set<nat>)
  {
    && Harvest.ClosesAsked(a.told, b.told, a.rows, info) && Seen(info, b.book)
    && |b.rows| == |a.rows| && (forall i: nat :: i < |b.rows| ==> Harvest.RowManaged(a.rows, i, b.rows[i], info))
    && (forall i :: i in pulled <==> 0 <= i < |a.rows| && Harvest.Pulled(a.rows, i, info, quotes))
    && (calm ==> Harvest.OnlyPulled(a.rows, pulled, a.book, b.book) && Harvest.SolosAnswered(a.rows, info, a.book))
  }

  /** New harvests were started, on what was told. */
  ghost predicate WereStarted(closed: bool, calm: bool, a: Moment, b: Moment, c: Inputs) {
    exists cands, read :: StartedOn(closed, calm, a, b, c, cands, read)
  }

  ghost predicate StartedOn(closed: bool, calm: bool, a: Moment, b: Moment, c: Inputs, cands: seq<nat>,
                            read: Option<Positions>)
  {
    && Harvest.Chosen(a.rows, c.last, 4, cands)
    && (if cands == [] then b == a
        else PositionRead(closed, a.told, b.told, a.book, b.book, read) && Harvest.PositionFirst(a.told, b.told, read))
    && Harvest.Started(a.rows, b.rows, cands, |cands|, read, c.quotes, b.book)
    && (calm && cands != [] ==> read.Some?)
    && (closed ==> Harvest.StopsDiffer(a.rows, cands))
    && (calm && Harvest.StopsDiffer(a.rows, cands) ==>
          Harvest.StartedAll(a.rows, b.rows, cands, |cands|, read, c.quotes, a.book))
  }

  ghost predicate WereLaddered(calm: bool, a: Moment, b: Moment, c: Inputs) {
    && OnlyBids(a.rows, b.rows)
    && (forall i :: |a.rows| <= i < |b.rows| ==>
                      b.rows[i].sym in c.chain && IsRungUnder(a.rows, b.rows[i], c.chain[b.rows[i].sym]))
    && (calm ==> forall k, i :: 0 <= k < |c.ladder| && Lowest(a.rows, i, c.ladder[k]) ==> Served(a.rows, i, c.chain, b.rows))
  }

  ghost predicate WereSeeded(calm: bool, a: Moment, b: Moment, c: Inputs) {
    && OnlyBids(a.rows, b.rows)
    && (forall i :: |a.rows| <= i < |b.rows| ==> IsSeed(a.rows, b.rows[i], c.chain, c.live, c.stop))
    && (calm ==> forall k :: 0 <= k < |c.seeds| && Seedable(a.rows, c.seeds[k], c.chain, c.live, c.stop) ==>
                               Fills.HasPendingEntry(b.rows, c.seeds[k]))
  }

  /** The reconcile sweep between two moments, on what it was told. */
  ghost predicate WasSwept(closed: bool, calm: bool, a: Moment, b: Moment) {
    exists s :: SweptOn(closed, calm, a, b, s)
  }

  ghost predicate SweptOn(closed: bool, calm: bool, a: Moment, b: Moment, s: Option<Reconcile.Sweep>) {
    if s.None? then b.rows == a.rows && Reconcile.ReadNothing(a.told, b.told, b.book) && !(closed && calm)
    else
      && Reconcile.Swept(closed, a.told, b.told, a.book, a.rows, b.rows, s.value, b.book)
      && (closed && Reconcile.Answered(a.rows, s.value.r, s.value.atRead) ==>
            forall i :: 0 <= i < |a.rows| ==> !Reconcile.VerdictOn(a.rows, i, s.value.r).Unbacked?)
      && (closed && calm && Reconcile.NoHalfSold(a.rows, a.book) ==> Reconcile.FullyGuarded(b.rows, b.book))
  }

  /** What the steps of a cycle did, moment by moment: re-arm, settle the bids, re-arm again,
      settle the harvests, start new ones, re-place dead rungs, seed idle pairs, and if it is
      time the sweep. */
  ghost predicate Cycled(closed: bool, calm: bool, m: seq<Moment>, c: Inputs) {
    && |m| == 9
    && WasRearmed(closed, calm, m[0], m[1])
    && WasPromoted(closed, calm, m[1], m[2], c.scene)
    && WasRearmed(closed, calm, m[2], m[3])
    && WasManaged(calm, m[3], m[4], c.quotes)
    && WereStarted(closed, calm, m[4], m[5], c)
    && WereLaddered(calm, m[5], m[6], c)
    && WereSeeded(calm, m[6], m[7], c)
    && (if c.sweep then WasSwept(closed, calm, m[7], m[8]) else m[8] == m[7])
  }

  method Rearm(tb: Table, kx: Kraken) returns (ghost b: Moment)
    requires Sound(tb, kx)
    modifies tb, kx`book, kx`safe, kx`trace
    ensures Sound(tb, kx) && b == Moment(tb.rows, kx.book, kx.trace) && |tb.rows| == |old(tb.rows)|
    ensures var a := Moment(old(tb.rows), old(kx.book), old(kx.trace));
            Later(a, b) && WasRearmed(kx.closed, kx.calm, a, b)
  {
    hide Inv, Grew, Rearmed, AnyNaked, NakedUnbacked, OrdersRead, PositionRead, OrdersThenPosition;
    ghost var rows := tb.rows;
    ghost var a := Moment(tb.rows, kx.book, kx.trace);
    ghost var read, open := ReprotectNakedOpen(tb, kx);
    b := Moment(tb.rows, kx.book, kx.trace);
    assert RearmedOn(kx.closed, kx.calm, a, b, read, open);
    RearmedSize(rows, tb.rows, read, open, kx.book);
  }

  lemma RearmedSize(before: seq<Row>, after: seq<Row>, read: Option<Positions>, open: Option<map<Txid, Order>>, book: Book)
    requires Rearmed(before, after, read, open, book)
    ensures |after| == |before|
  {
  }

  method Promote(tb: Table, kx: Kraken, scene: seq<Fills.Scene>) returns (ghost b: Moment)
    requires Sound(tb, kx) && |scene| == |tb.rows|
    modifies tb, kx`book, kx`safe, kx`trace
    ensures Sound(tb, kx) && b == Moment(tb.rows, kx.book, kx.trace)
    ensures var a := Moment(old(tb.rows), old(kx.book), old(kx.trace));
            Later(a, b) && WasPromoted(kx.closed, kx.calm, a, b, scene)
  {
    hide Inv, Grew, Fills.BidsAsked, Fills.PassSoFar, Fills.Laddered, Fills.DefiniteLeft, Fills.AnsweredAll, Fills.CalmPass, Fills.NoneMissed,
      Fills.EntriesApart;
    ghost var a := Moment(tb.rows, kx.book, kx.trace);
    ghost var known := Fills.PromoteAll(tb, kx, scene);
    b := Moment(tb.rows, kx.book, kx.trace);
    assert PromotedOn(kx.closed, kx.calm, a, b, scene, known);
  }

  method Manage(tb: Table, kx: Kraken, quotes: map<Pair, Harvest.Quote>) returns (ghost b: Moment)
    requires Sound(tb, kx)
    modifies tb, kx`book, kx`safe, kx`trace
    ensures Sound(tb, kx) && b == Moment(tb.rows, kx.book, kx.trace)
    ensures var a := Moment(old(tb.rows), old(kx.book), old(kx.trace));
            Later(a, b) && WasManaged(kx.calm, a, b, quotes)
  {
    hide Inv, Grew, Harvest.ClosesAsked, Seen, Harvest.RowManaged, Harvest.Pulled, Harvest.OnlyPulled;
    ghost var a := Moment(tb.rows, kx.book, kx.trace);
    ghost var info, pulled := Harvest.HarvestManageActive(tb, kx, quotes);
    b := Moment(tb.rows, kx.book, kx.trace);
    assert ManagedOn(kx.calm, a, b, quotes, info, pulled);
  }

  method Start(tb: Table, kx: Kraken, c: Inputs) returns (ghost b: Moment)
    requires Sound(tb, kx)
    modifies tb, kx`book, kx`safe, kx`trace
    ensures Sound(tb, kx) && b == Moment(tb.rows, kx.book, kx.trace)
    ensures var a := Moment(old(tb.rows), old(kx.book), old(kx.trace));
            Later(a, b) && WereStarted(kx.closed, kx.calm, a, b, c)
  {
    hide Inv, Grew, Harvest.Chosen, Harvest.Started, Harvest.StartedAll, Harvest.StopsDiffer, Harvest.PositionFirst,
      PositionRead;
    ghost var a := Moment(tb.rows, kx.book, kx.trace);
    ghost var cands, read := Harvest.HarvestStartNew(tb, kx, c.last, c.quotes);
    b := Moment(tb.rows, kx.book, kx.trace);
    assert StartedOn(kx.closed, kx.calm, a, b, c, cands, read);
  }

  method Sweep(tb: Table, kx: Kraken) returns (ghost b: Moment)
    requires Sound(tb, kx)
    modifies tb, kx`book, kx`safe, kx`trace
    ensures Sound(tb, kx) && b == Moment(tb.rows, kx.book, kx.trace)
    ensures var a := Moment(old(tb.rows), old(kx.book), old(kx.trace));
            Later(a, b) && WasSwept(kx.closed, kx.calm, a, b)
  {
    hide Inv, Grew, Reconcile.Swept, Reconcile.Answered, Reconcile.VerdictOn, Reconcile.NoHalfSold, Reconcile.FullyGuarded,
      Reconcile.ReadNothing;
    ghost var a := Moment(tb.rows, kx.book, kx.trace);
    ghost var s := Reconcile.VerifyOpenStops(tb, kx);
    b := Moment(tb.rows, kx.book, kx.trace);
    assert SweptOn(kx.closed, kx.calm, a, b, s);
  }

  /** The growing half: re-place dead rungs, then seed idle pairs. */
  method Grow(tb: Table, kx: Kraken, c: Inputs) returns (ghost mid: Moment, ghost b: Moment)
    requires Sound(tb, kx)
    modifies tb, kx`book, kx`safe, kx`trace
    ensures Sound(tb, kx) && b == Moment(tb.rows, kx.book, kx.trace)
    ensures var a := Moment(old(tb.rows), old(kx.book), old(kx.trace));
            Later(a, b) && WereLaddered(kx.calm, a, mid, c) && WereSeeded(kx.calm, mid, b, c)
  {
    hide Inv, Grew, OnlyBids, IsRungUnder, Lowest, Served, IsSeed, Seedable, Fills.HasPendingEntry;
    ghost var was := kx.book;
    EnsureLadderRungs(tb, kx, c.ladder, c.chain);
    mid := Moment(tb.rows, kx.book, kx.trace);
    SeedChains(tb, kx, c.seeds, c.chain, c.live, c.stop);
    b := Moment(tb.rows, kx.book, kx.trace);
    GrewTransitive(was, mid.book, b.book);
  }

  lemma LaterTransitive(a: Moment, b: Moment, c: Moment)
    requires Later(a, b) && Later(b, c)
    ensures Later(a, c)
  {
    hide Grew;
    GrewTransitive(a.book, b.book, c.book);
  }

  /** One cycle, take-profit of the whole book and reverse gear off. */
  method PollFills(tb: Table, kx: Kraken, c: Inputs) returns (ghost m: seq<Moment>)
    requires Sound(tb, kx) && |c.scene| == |tb.rows|
    modifies tb, kx`book, kx`safe, kx`trace
    ensures Sound(tb, kx) && Cycled(kx.closed, kx.calm, m, c)
    ensures m[0] == Moment(old(tb.rows), old(kx.book), old(kx.trace)) && m[8] == Moment(tb.rows, kx.book, kx.trace)
    ensures Later(m[0], m[8])
  {
    hide Sound, Later, WasRearmed, WasPromoted, WasManaged, WereStarted, WereLaddered, WereSeeded, WasSwept;
    ghost var m0 := Moment(tb.rows, kx.book, kx.trace);
    ghost var m1 := Rearm(tb, kx);
    ghost var m2 := Promote(tb, kx, c.scene);
    LaterTransitive(m0, m1, m2);
    ghost var m3 := Rearm(tb, kx);
    LaterTransitive(m0, m2, m3);
    ghost var m4 := Manage(tb, kx, c.quotes);
    LaterTransitive(m0, m3, m4);
    ghost var m5 := Start(tb, kx, c);
    LaterTransitive(m0, m4, m5);
    ghost var m6, m7 := Grow(tb, kx, c);
    LaterTransitive(m0, m5, m7);
    ghost var m8 := m7;
    if c.sweep {
      m8 := Sweep(tb, kx);
      LaterTransitive(m0, m7, m8);
    }
    m := [m0, m1, m2, m3, m4, m5, m6, m7, m8];
  }

  // ── whole runs ──────────────────────────────────────────────────────────────

  /** One move of a run: the market, the weather, or any of the bot's entry points. The pass of
      a take-profit belongs to the runs of an arbitrary account; a closed one goes on with
      `CloseBook`. */
  datatype Action =
    | MarketMoves
    | Weather(calm: bool)
    | Signal(bid: Row)
    | Poll(inputs: Inputs)
    | Sweep
    | Reprotect
    | TakeProfit(market: map<Pair, Harvest.Quote>)

  /** The weather after the first `n` actions. */
  function CalmAfter(first: bool, actions: seq<Action>, n: nat): bool
    requires n <= |actions|
  {
    if n == 0 then first else if actions[n - 1].Weather? then actions[n - 1].calm else CalmAfter(first, actions, n - 1)
  }

  function BidOf(bid: Row): Row {
    Fills.BidRow(bid.sym, bid.vol, bid.userref, bid.entry, bid.stop, bid.tpPct)
  }

  /** The market moved, and nothing else. */
  ghost predicate MarketMoved(closed: bool, calm: bool, a: Moment, b: Moment) {
    && b.rows == a.rows && b.told == a.told
    && (closed ==> exists es :: b.book == Play(a.book, es)) && (calm ==> b.book == a.book)
  }

  /** One bid was sent and recorded as its answer demands. */
  ghost predicate BidSent(calm: bool, a: Moment, b: Moment, row: Row) {
    && |b.told| == |a.told| + 1 && b.told[|a.told|].SentOrder?
    && b.told[|a.told|].order == NewOrder(row.sym, Buy, Limit, row.entry, row.vol, row.userref)
    && var placed := b.told[|a.told|].placed;
       && (placed.Some? ==> |a.book| <= placed.value < |b.book| && b.book[placed.value] == b.told[|a.told|].order)
       && (b.rows == a.rows + [row.(txid := placed)]
           || (placed.None? && b.rows == a.rows + [row.(status := RowRejected)]))
       && (calm ==> placed.Some?)
  }

  /** A pass of the flatten between two moments: unread, or worked to its end. */
  ghost predicate WasFlattened(closed: bool, calm: bool, a: Moment, b: Moment, quotes: map<Pair, Harvest.Quote>) {
    || Flatten.HalfDone(calm, a.told, b.told, a.book, a.rows, b.rows, b.book)
    || exists log :: FlattenedOn(closed, calm, a, b, quotes, log)
  }

  ghost predicate FlattenedOn(closed: bool, calm: bool, a: Moment, b: Moment, quotes: map<Pair, Harvest.Quote>,
                              log: Flatten.Log)
  {
    var d := log.desk;
    && Flatten.Witnessed(closed, calm, a.told, b.told, a.book, a.rows, log, b.book)
    && Flatten.Flattening(log.settled, b.rows, {}, d.read, d.info, log.placed, quotes, d.blocked, |d.atRead|, b.book)
  }

  /** What an action makes of one moment. */
  ghost predicate Performed(closed: bool, calm: bool, act: Action, a: Moment, b: Moment) {
    match act
    case MarketMoves => MarketMoved(closed, calm, a, b)
    case Weather(_) => b == a
    case Signal(bid) => if 0 < bid.vol && Fills.FreshRef(a.rows, bid.userref) then BidSent(calm, a, b, bid.(status := RowPending, txid := None, stopTxid := None, closeTxid := None, stopProt := None))
                       else b == a
    case Poll(c) => if |c.scene| == |a.rows| then exists m :: Polled(closed, calm, a, b, c, m) else b == a
    case Sweep => WasSwept(closed, calm, a, b)
    case Reprotect => WasRearmed(closed, calm, a, b)
    case TakeProfit(market) => if closed then b == a else WasFlattened(closed, calm, a, b, market)
  }

  ghost predicate Polled(closed: bool, calm: bool, a: Moment, b: Moment, c: Inputs, m: seq<Moment>) {
    Cycled(closed, calm, m, c) && m[0] == a && m[8] == b
  }

  method SetWeather(tb: Table, kx: Kraken, calm: bool)
    requires Sound(tb, kx)
    modifies kx`calm
    ensures Sound(tb, kx) && kx.calm == calm
  {
    kx.calm := calm;
  }

  method SendSignal(tb: Table, kx: Kraken, row: Row)
    requires Sound(tb, kx) && 0 < row.vol && Fills.FreshRef(tb.rows, row.userref) && row == BidOf(row)
    modifies tb, kx`book, kx`safe, kx`trace
    ensures Sound(tb, kx)
    ensures var (a, b) := (Moment(old(tb.rows), old(kx.book), old(kx.trace)), Moment(tb.rows, kx.book, kx.trace));
            Later(a, b) && BidSent(kx.calm, a, b, row)
  {
    hide Inv, Grew;
    var rests := Fills.PlaceBid(tb, kx, row, false);
  }

  method TakeProfitPass(tb: Table, kx: Kraken, market: map<Pair, Harvest.Quote>)
    requires Sound(tb, kx) && !kx.closed
    modifies tb`rows, kx`book, kx`safe, kx`trace
    ensures Sound(tb, kx)
    ensures var (a, b) := (Moment(old(tb.rows), old(kx.book), old(kx.trace)), Moment(tb.rows, kx.book, kx.trace));
            Later(a, b) && WasFlattened(kx.closed, kx.calm, a, b, market)
  {
    hide Inv, Grew, Flatten.HalfDone, Flatten.Witnessed, Flatten.Flattening, Flatten.SoldBetween, Flatten.AllDone, Flatten.Wanted;
    ghost var a := Moment(tb.rows, kx.book, kx.trace);
    var ran, complete;
    ghost var log, raced;
    ran, complete, log, raced := Flatten.FlattenAll(tb, kx, market, false);
    ghost var b := Moment(tb.rows, kx.book, kx.trace);
    assert ran ==> FlattenedOn(kx.closed, kx.calm, a, b, market, log.value);
  }

  method Drifts(tb: Table, kx: Kraken)
    requires Sound(tb, kx)
    modifies kx`book, kx`safe
    ensures Sound(tb, kx)
    ensures var (a, b) := (Moment(tb.rows, old(kx.book), kx.trace), Moment(tb.rows, kx.book, kx.trace));
            Later(a, b) && MarketMoved(kx.closed, kx.calm, a, b)
  {
    hide Inv, Grew;
    ghost var was := kx.book;
    if kx.closed {
      InvCovered(tb.rows, tb.tags, was);
    }
    ghost var es := kx.Drift();
    if kx.closed {
      InvPlay(tb.rows, tb.tags, was, es);
    }
  }

  /** One action of a run, and the moment it leads to. */
  method Perform(tb: Table, kx: Kraken, act: Action) returns (ghost b: Moment)
    requires Sound(tb, kx)
    modifies tb, kx
    ensures Sound(tb, kx) && b == Moment(tb.rows, kx.book, kx.trace)
    ensures kx.calm == if act.Weather? then act.calm else old(kx.calm)
    ensures var a := Moment(old(tb.rows), old(kx.book), old(kx.trace));
            Later(a, b) && Performed(kx.closed, old(kx.calm), act, a, b)
  {
    hide Sound, Later, WasRearmed, WasSwept, WasFlattened, MarketMoved, BidSent, Cycled, Fills.FreshRef;
    ghost var a := Moment(tb.rows, kx.book, kx.trace);
    LaterReflexive(a);
    match act {
      case MarketMoves =>
        Drifts(tb, kx);
      case Weather(calm) =>
        SetWeather(tb, kx, calm);
      case Signal(bid) =>
        if 0 < bid.vol && Fills.FreshRef(tb.rows, bid.userref) {
          SendSignal(tb, kx, BidOf(bid));
        }
      case Poll(c) =>
        if |c.scene| == |tb.rows| {
          ghost var m := PollFills(tb, kx, c);
          assert Polled(kx.closed, kx.calm, a, Moment(tb.rows, kx.book, kx.trace), c, m);
        }
      case Sweep =>
        b := Sweep(tb, kx);
      case Reprotect =>
        b := Rearm(tb, kx);
      case TakeProfit(market) =>
        if !kx.closed {
          TakeProfitPass(tb, kx, market);
        }
    }
    b := Moment(tb.rows, kx.book, kx.trace);
  }

  lemma LaterReflexive(a: Moment)
    ensures Later(a, a)
  {
    GrewReflexive(a.book);
  }

  // ── the spacing of the lots over a run ──────────────────────────────────────

  /** The step is one that the inputs of the cycle name for the pair or the pass. */
  ghost predicate StepOf(c: Inputs, sym: Pair, step: real) {
    SceneStep(c.scene, step) || (sym in c.chain && c.chain[sym].step == step)
  }

  /** What a row added by a cycle is: the seed of an idle pair, or a rung. */
  ghost predicate PollStem(c: Inputs, o: Origin, row: Row) {
    o.BySeed? || (o.ByRung? && StepOf(c, row.sym, o.step) && (row.status.RowPending? ==> LaidRung(o, row)))
  }

  /** The origins of the rows an action added. */
  ghost predicate Stems(act: Action, o: Origin, row: Row) {
    match act
    case Signal(_) => o.BySignal?
    case Poll(c) => PollStem(c, o, row)
    case _ => false
  }

  /** The rows evolved, and the spacing and the origins were carried on to them. */
  ghost predicate Carried(a: seq<Row>, laid: seq<Origin>, b: seq<Row>, laid': seq<Origin>, c: Inputs) {
    && Evolved(a, b) && |laid| == |a| && Spaced(b, laid') && laid'[..|a|] == laid
    && forall j :: |a| <= j < |b| ==> PollStem(c, laid'[j], b[j])
  }

  lemma StemLasts(c: Inputs, o: Origin, was: Row, now: Row)
    requires PollStem(c, o, was) && Grown(was, now)
    ensures PollStem(c, o, now)
  {
    hide StepOf;
  }

  lemma CarriedOn(a: seq<Row>, laid: seq<Origin>, b: seq<Row>, laid': seq<Origin>, d: seq<Row>, laid'': seq<Origin>, c: Inputs)
    requires Carried(a, laid, b, laid', c) && Carried(b, laid', d, laid'', c)
    ensures Carried(a, laid, d, laid'', c)
  {
    hide PollStem, Grown;
    EvolvedTransitive(a, b, d);
    assert laid''[..|a|] == laid''[..|b|][..|a|];
    forall j | |a| <= j < |d| ensures PollStem(c, laid''[j], d[j]) {
      if j < |b| {
        assert laid''[j] == laid''[..|b|][j];
        StemLasts(c, laid'[j], b[j], d[j]);
      }
    }
  }

  /** A step that adds no row carries everything on. */
  lemma CarriedAlong(a: seq<Row>, laid: seq<Origin>, b: seq<Row>, c: Inputs)
    requires Spaced(a, laid) && Evolved(a, b) && |b| == |a|
    ensures Carried(a, laid, b, laid, c)
  {
    SpacedLasts(a, laid, b);
    assert laid[..|a|] == laid;
  }

  lemma PromotedCarries(closed: bool, calm: bool, a: Moment, b: Moment, c: Inputs, laid: seq<Origin>)
    returns (laid': seq<Origin>)
    requires WasPromoted(closed, calm, a, b, c.scene) && Spaced(a.rows, laid)
    ensures Carried(a.rows, laid, b.rows, laid', c)
  {
    hide Fills.BidsAsked, Fills.PassSoFar, Fills.Laddered, Fills.DefiniteLeft, Fills.AnsweredAll, Fills.CalmPass, Fills.NoneMissed,
      Fills.EntriesApart, Spaced, Evolved, SceneStep, LaidRung;
    laid' := PromotionKeepsSpacing(a.rows, laid, b.rows, c.scene, a.book, b.book);
    SpacedSize(a.rows, laid);
    SpacedSize(b.rows, laid');
    forall j | |a.rows| <= j < |b.rows| ensures PollStem(c, laid'[j], b.rows[j]) {
      RungIsLaid(laid'[j], b.rows[j]);
      assert StepOf(c, b.rows[j].sym, laid'[j].step);
    }
  }

  lemma SpacedSize(rows: seq<Row>, laid: seq<Origin>)
    requires Spaced(rows, laid)
    ensures |laid| == |rows|
  {
  }

  lemma RungIsLaid(o: Origin, row: Row)
    requires LaidRung(o, row)
    ensures o.ByRung?
  {
  }

  /** The origin of a rung that the ladder pass re-placed. */
  ghost function RungOrigin(before: seq<Row>, row: Row, s: Fills.Scene): (o: Origin)
    requires IsRungUnder(before, row, s)
    ensures LaidRung(o, row) && o.step == s.step
    ensures 0.0 < o.floor ==> Fills.Roomy(before, row.sym, row.entry, s.step, o.floor)
  {
    var a: nat :| Lowest(before, a, row.sym) && RungUnder(before, a, s) == Some(row.entry)
                  && row.stop == TickRound(before[a].stop) as real && row.vol == s.vol;
    RungHasRoom(before, a, row, s);
    ByRung(s.step, before[a].stop)
  }

  lemma RungHasRoom(before: seq<Row>, a: nat, row: Row, s: Fills.Scene)
    requires Lowest(before, a, row.sym) && RungUnder(before, a, s) == Some(row.entry)
    ensures 0.0 < before[a].stop ==> Fills.Roomy(before, row.sym, row.entry, s.step, before[a].stop)
  {
    hide Fills.LevelsOwned, Ladder.NextRung, Fills.Roomy, Fills.RungLevel;
    if 0.0 < before[a].stop {
      Fills.NextRungExact(before, row.sym, before[a].entry, s.step, before[a].stop, s.live);
      Fills.NextRungIsRoomy(before, row.sym, before[a].entry, s.step, before[a].stop, s.live);
    }
  }

  lemma OnlyBidsEvolve(before: seq<Row>, after: seq<Row>)
    requires OnlyBids(before, after)
    ensures Evolved(before, after)
  {
    forall i | 0 <= i < |before| ensures after[i] == before[i] {
      assert after[i] == after[..|before|][i];
    }
  }

  /** A bid that joined stands well to all before it if it does to those that were there. */
  lemma NewcomerApart(before: seq<Row>, after: seq<Row>, i: nat, j: nat, o: Origin)
    requires OnlyBids(before, after) && i < j < |after| && |before| <= j
    requires i < |before| ==> PairApart(before[i], after[j], o)
    ensures PairApart(after[i], after[j], o)
  {
    hide Ladder.Abs;
    if i < |before| {
      assert after[i] == after[..|before|][i];
    }
  }

  lemma LadderedCarries(calm: bool, a: Moment, b: Moment, c: Inputs, laid: seq<Origin>) returns (laid': seq<Origin>)
    requires WereLaddered(calm, a, b, c) && Spaced(a.rows, laid)
    ensures Carried(a.rows, laid, b.rows, laid', c)
  {
    hide IsRungUnder, Spaced, Evolved, Served, Lowest, LaidRung, Fills.Roomy, PairApart, AboveFloor, SceneStep, OnlyBids;
    var n := |a.rows|;
    OnlyBidsGrow(a.rows, b.rows);
    SpacedSize(a.rows, laid);
    laid' := laid + seq(|b.rows| - n, k requires 0 <= k < |b.rows| - n =>
      RungOrigin(a.rows, b.rows[n + k], c.chain[b.rows[n + k].sym]));
    assert laid'[..n] == laid;
    forall j | n <= j < |b.rows|
      ensures PollStem(c, laid'[j], b.rows[j]) && AboveFloor(b.rows[j], laid'[j])
      ensures forall i :: 0 <= i < j ==> PairApart(b.rows[i], b.rows[j], laid'[j])
    {
      var (row, s) := (b.rows[j], c.chain[b.rows[j].sym]);
      var o := RungOrigin(a.rows, row, s);
      assert laid'[j] == o;
      RungIsLaid(o, row);
      LadderedRow(a.rows, b.rows, j, s, o);
    }
    OnlyBidsEvolve(a.rows, b.rows);
    SpacedMore(a.rows, laid, b.rows, laid');
  }

  lemma OnlyBidsGrow(before: seq<Row>, after: seq<Row>)
    requires OnlyBids(before, after)
    ensures |before| <= |after|
  {
  }

  lemma LadderedRow(before: seq<Row>, after: seq<Row>, j: nat, s: Fills.Scene, o: Origin)
    requires OnlyBids(before, after) && |before| <= j < |after| && IsRungUnder(before, after[j], s)
    requires o == RungOrigin(before, after[j], s) && o.ByRung?
    ensures AboveFloor(after[j], o) && forall i :: 0 <= i < j ==> PairApart(after[i], after[j], o)
  {
    hide IsRungUnder, LaidRung, Fills.Roomy, PairApart, AboveFloor;
    var row := after[j];
    forall i | 0 <= i < |before| && before[i].sym == row.sym ensures !before[i].status.RowPending? {
      assert !Fills.HasPendingEntry(before, row.sym);
    }
    forall i | 0 <= i < j ensures PairApart(after[i], row, o) {
      if i < |before| {
        RoomyIsApart(before, row, o.step, o.floor, i);
      }
      NewcomerApart(before, after, i, j, o);
    }
    if |before| > 0 {
      RoomyIsApart(before, row, o.step, o.floor, 0);
    } else {
      RoomIsAbove(before, row, o);
    }
  }

  lemma RoomIsAbove(rows: seq<Row>, row: Row, o: Origin)
    requires o.ByRung? && (0.0 < o.floor ==> Fills.Roomy(rows, row.sym, row.entry, o.step, o.floor))
    ensures AboveFloor(row, o)
  {
  }

  lemma SeededCarries(calm: bool, a: Moment, b: Moment, c: Inputs, laid: seq<Origin>) returns (laid': seq<Origin>)
    requires WereSeeded(calm, a, b, c) && Spaced(a.rows, laid)
    ensures Carried(a.rows, laid, b.rows, laid', c)
  {
    hide IsSeed, Spaced, Evolved, PairApart, Seedable, OnlyBids;
    var n := |a.rows|;
    OnlyBidsGrow(a.rows, b.rows);
    SpacedSize(a.rows, laid);
    laid' := laid + seq(|b.rows| - n, k => BySeed);
    assert laid'[..n] == laid;
    forall i, j | 0 <= i < j < |b.rows| && n <= j ensures PairApart(b.rows[i], b.rows[j], laid'[j]) {
      if i < n {
        SeedIsFirst(a.rows, b.rows, i, j, c);
      }
      NewcomerApart(a.rows, b.rows, i, j, BySeed);
    }
    OnlyBidsEvolve(a.rows, b.rows);
    SpacedMore(a.rows, laid, b.rows, laid');
  }

  lemma SeedIsFirst(before: seq<Row>, after: seq<Row>, i: nat, j: nat, c: Inputs)
    requires OnlyBids(before, after) && i < |before| <= j < |after| && IsSeed(before, after[j], c.chain, c.live, c.stop)
    ensures PairApart(before[i], after[j], BySeed)
  {
    hide TickRound;
    if before[i].sym == after[j].sym {
      assert !Fills.HasPendingEntry(before, after[j].sym) && !AnyOpen(before, after[j].sym);
    }
  }

  lemma RearmCarries(closed: bool, calm: bool, a: Moment, b: Moment, c: Inputs, laid: seq<Origin>)
    requires WasRearmed(closed, calm, a, b) && Spaced(a.rows, laid)
    ensures Carried(a.rows, laid, b.rows, laid, c)
  {
    hide Rearmed, AnyNaked, NakedUnbacked, OrdersRead, PositionRead, OrdersThenPosition, Spaced, Evolved, Carried;
    var read, open :| RearmedOn(closed, calm, a, b, read, open);
    RearmedEvolves(a.rows, b.rows, read, open, b.book);
    CarriedAlong(a.rows, laid, b.rows, c);
  }

  lemma HarvestCarries(closed: bool, calm: bool, a: Moment, mid: Moment, b: Moment, c: Inputs, laid: seq<Origin>)
    requires WasManaged(calm, a, mid, c.quotes) && WereStarted(closed, calm, mid, b, c) && Spaced(a.rows, laid)
    ensures Carried(a.rows, laid, b.rows, laid, c)
  {
    hide Harvest.ClosesAsked, Seen, Harvest.Managed, Harvest.Pulled, Harvest.OnlyPulled, Harvest.SolosAnswered, Harvest.Chosen,
      Harvest.Started, Harvest.StartedAll, Harvest.StopsDiffer, Harvest.PositionFirst, PositionRead, Spaced, Evolved, Carried;
    var info, pulled :| ManagedOn(calm, a, mid, c.quotes, info, pulled);
    ManagedEvolves(a.rows, mid.rows, info);
    var cands, read :| StartedOn(closed, calm, mid, b, c, cands, read);
    StartedEvolves(mid.rows, b.rows, cands, |cands|, read, c.quotes, b.book);
    EvolvedTransitive(a.rows, mid.rows, b.rows);
    CarriedAlong(a.rows, laid, b.rows, c);
  }

  lemma SweepEvolvesRows(closed: bool, calm: bool, a: Moment, b: Moment)
    requires WasSwept(closed, calm, a, b)
    ensures |b.rows| == |a.rows| && Evolved(a.rows, b.rows)
  {
    hide Reconcile.Swept, Reconcile.ReadNothing, Reconcile.Answered, Reconcile.NoHalfSold, Reconcile.FullyGuarded;
    var s :| SweptOn(closed, calm, a, b, s);
    if s.Some? {
      SweepEvolves(closed, a.told, b.told, a.book, a.rows, b.rows, s.value, b.book);
    }
  }

  lemma SweepCarries(closed: bool, calm: bool, a: Moment, b: Moment, c: Inputs, laid: seq<Origin>)
    requires (if c.sweep then WasSwept(closed, calm, a, b) else b == a) && Spaced(a.rows, laid)
    ensures Carried(a.rows, laid, b.rows, laid, c)
  {
    hide Spaced, Carried, WasSwept;
    if c.sweep {
      SweepEvolvesRows(closed, calm, a, b);
    }
    CarriedAlong(a.rows, laid, b.rows, c);
  }

  lemma CarriedSpaced(a: seq<Row>, laid: seq<Origin>, b: seq<Row>, laid': seq<Origin>, c: Inputs)
    requires Carried(a, laid, b, laid', c)
    ensures Spaced(b, laid')
  {
  }

  /** A whole cycle carries the spacing on. */
  lemma CycleCarries(closed: bool, calm: bool, m: seq<Moment>, c: Inputs, laid: seq<Origin>) returns (laid': seq<Origin>)
    requires Cycled(closed, calm, m, c) && Spaced(m[0].rows, laid)
    ensures Carried(m[0].rows, laid, m[8].rows, laid', c)
  {
    hide WasRearmed, WasPromoted, WasManaged, WereStarted, WereLaddered, WereSeeded, WasSwept, Spaced, Carried;
    var r := m[0].rows;
    RearmCarries(closed, calm, m[0], m[1], c, laid);
    CarriedSpaced(r, laid, m[1].rows, laid, c);
    var l2 := PromotedCarries(closed, calm, m[1], m[2], c, laid);
    CarriedOn(r, laid, m[1].rows, laid, m[2].rows, l2, c);
    CarriedSpaced(r, laid, m[2].rows, l2, c);
    RearmCarries(closed, calm, m[2], m[3], c, l2);
    CarriedOn(r, laid, m[2].rows, l2, m[3].rows, l2, c);
    CarriedSpaced(r, laid, m[3].rows, l2, c);
    HarvestCarries(closed, calm, m[3], m[4], m[5], c, l2);
    CarriedOn(r, laid, m[3].rows, l2, m[5].rows, l2, c);
    CarriedSpaced(r, laid, m[5].rows, l2, c);
    var l6 := LadderedCarries(calm, m[5], m[6], c, l2);
    CarriedOn(r, laid, m[5].rows, l2, m[6].rows, l6, c);
    CarriedSpaced(r, laid, m[6].rows, l6, c);
    var l7 := SeededCarries(calm, m[6], m[7], c, l6);
    CarriedOn(r, laid, m[6].rows, l6, m[7].rows, l7, c);
    CarriedSpaced(r, laid, m[7].rows, l7, c);
    SweepCarries(closed, calm, m[7], m[8], c, l7);
    CarriedOn(r, laid, m[7].rows, l7, m[8].rows, l7, c);
    laid' := l7;
  }

  /** Every action keeps the spacing and forgets no origin. */
  ghost predicate KeepsSpacing(act: Action, a: Moment, laid: seq<Origin>, b: Moment, laid': seq<Origin>) {
    && Spaced(b.rows, laid') && |laid| == |a.rows| <= |b.rows| && laid'[..|a.rows|] == laid
    && forall j :: |a.rows| <= j < |b.rows| ==> Stems(act, laid'[j], b.rows[j])
  }

  lemma SignalKeepsSpacing(calm: bool, a: Moment, b: Moment, bid: Row, laid: seq<Origin>) returns (laid': seq<Origin>)
    requires BidSent(calm, a, b, BidOf(bid)) && Spaced(a.rows, laid)
    ensures KeepsSpacing(Signal(bid), a, laid, b, laid')
  {
    SpacedSize(a.rows, laid);
    laid' := laid + [BySignal];
    assert laid'[..|a.rows|] == laid;
    forall i | 0 <= i < |a.rows| ensures b.rows[i] == a.rows[i] {
    }
    SpacedMore(a.rows, laid, b.rows, laid');
  }

  lemma FlattenEvolvesRows(closed: bool, calm: bool, a: Moment, b: Moment, quotes: map<Pair, Harvest.Quote>)
    requires WasFlattened(closed, calm, a, b, quotes)
    ensures |b.rows| == |a.rows| && Evolved(a.rows, b.rows)
  {
    hide Flatten.SweptFirst, Flatten.SweepTold, Flatten.NoOrders, Flatten.ReadTold, Flatten.SellsTold, Flatten.SettledAll,
      Flatten.Flattening, Flatten.Unread, Evolved;
    if Flatten.HalfDone(calm, a.told, b.told, a.book, a.rows, b.rows, b.book) {
      UnreadEvolves(calm, a, b);
    } else {
      var log :| FlattenedOn(closed, calm, a, b, quotes, log);
      ClearedEvolves(a.rows, log.bids, log.settled, log.desk.blocked, log.swept);
      FlatEvolves(log.settled, b.rows, log.desk.read, log.desk.info, log.placed, quotes, log.desk.blocked,
                  |log.desk.atRead|, b.book);
      EvolvedTransitive(a.rows, log.settled, b.rows);
    }
  }

  lemma UnreadEvolves(calm: bool, a: Moment, b: Moment)
    requires Flatten.HalfDone(calm, a.told, b.told, a.book, a.rows, b.rows, b.book)
    ensures |b.rows| == |a.rows| && Evolved(a.rows, b.rows)
  {
    hide Flatten.SweptFirst, Flatten.SweepTold, Flatten.SettledAll;
    if b.rows != a.rows {
      var told := b.told[..|b.told| - 1];
      assert Flatten.WasSwept(calm, a.told, told, a.book, a.rows, b.rows, b.book);
      var bids, blocked :| Flatten.SweptOn(calm, a.told, told, a.book, a.rows, bids, b.rows, blocked, b.book);
      ClearedEvolves(a.rows, bids, b.rows, blocked, b.book);
    }
  }

  lemma EvolvedKeepsSpacing(act: Action, a: Moment, laid: seq<Origin>, b: Moment)
    requires Spaced(a.rows, laid) && Evolved(a.rows, b.rows) && |b.rows| == |a.rows|
    ensures KeepsSpacing(act, a, laid, b, laid)
  {
    SpacedLasts(a.rows, laid, b.rows);
    assert laid[..|a.rows|] == laid;
  }

  lemma PerformedKeepsSpacing(closed: bool, calm: bool, act: Action, a: Moment, b: Moment, laid: seq<Origin>)
    returns (laid': seq<Origin>)
    requires Performed(closed, calm, act, a, b) && Spaced(a.rows, laid)
    ensures KeepsSpacing(act, a, laid, b, laid')
  {
    hide WasRearmed, WasSwept, WasFlattened, BidSent, Cycled, Spaced, KeepsSpacing, Fills.FreshRef;
    laid' := laid;
    if act.Signal? && 0 < act.bid.vol && Fills.FreshRef(a.rows, act.bid.userref) {
      laid' := SignalKeepsSpacing(calm, a, b, act.bid, laid);
    } else if act.Poll? && |act.inputs.scene| == |a.rows| {
      laid' := PollKeepsSpacing(closed, calm, a, b, act.inputs, laid);
    } else {
      QuietEvolves(closed, calm, act, a, b);
      EvolvedKeepsSpacing(act, a, laid, b);
    }
  }

  lemma PollKeepsSpacing(closed: bool, calm: bool, a: Moment, b: Moment, c: Inputs, laid: seq<Origin>)
    returns (laid': seq<Origin>)
    requires (exists m :: Polled(closed, calm, a, b, c, m)) && Spaced(a.rows, laid)
    ensures KeepsSpacing(Poll(c), a, laid, b, laid')
  {
    hide Cycled, Spaced, PollStem;
    var m :| Polled(closed, calm, a, b, c, m);
    laid' := CycleCarries(closed, calm, m, c, laid);
  }

  /** The actions that add no row. */
  lemma QuietEvolves(closed: bool, calm: bool, act: Action, a: Moment, b: Moment)
    requires Performed(closed, calm, act, a, b)
    requires act.Signal? ==> !(0 < act.bid.vol && Fills.FreshRef(a.rows, act.bid.userref))
    requires act.Poll? ==> |act.inputs.scene| != |a.rows|
    ensures |b.rows| == |a.rows| && Evolved(a.rows, b.rows)
  {
    hide WasSwept, WasFlattened, BidSent, Cycled, Fills.FreshRef, Rearmed, AnyNaked, NakedUnbacked, OrdersRead, PositionRead,
      OrdersThenPosition;
    match act {
      case Sweep => SweepEvolvesRows(closed, calm, a, b);
      case Reprotect =>
        var read, open :| RearmedOn(closed, calm, a, b, read, open);
        RearmedEvolves(a.rows, b.rows, read, open, b.book);
      case TakeProfit(market) =>
        if !closed {
          FlattenEvolvesRows(closed, calm, a, b, market);
        }
      case _ =>
        assert b.rows == a.rows;
    }
  }

  /** What every reachable state promises. On any account, no row has two ways out. On a
      closed one: resting sells never exceed the long position, now or at any earlier moment,
      between any two calls; what the open and pending rows stand for is within the position;
      every open row holds what its bid bought less what its own finished sells have sold; and
      every lot ever bought is accounted for. */
  ghost predicate Promise(rows: seq<Row>, tags: Tags, kx: Kraken)
    reads kx
  {
    && OneExitEach(rows)
    && (kx.closed ==>
          && kx.safe && Covered(kx.book) && Shape(rows, tags, kx.book)
          && (forall p: Pair :: Sum(InFlights(rows, tags, kx.book, p)) <= Net(kx.book, p))
          && (forall p: Pair :: BoughtIsAccounted(rows, tags, kx.book, p))
          && (forall i: nat :: i < |rows| ==> HoldsTheRest(i, rows, tags, kx.book)))
  }

  ghost predicate BoughtIsAccounted(rows: seq<Row>, tags: Tags, book: Book, p: Pair)
    requires Shape(rows, tags, book)
  {
    Bought(book, p)
    == Sum(seq(|rows|, i requires 0 <= i < |rows| => Accounted(i, rows, tags, book, p)))
  }

  /** What the moments of a run promise: no row has two ways out, and on a closed account resting
      sells are within the long position. */
  ghost predicate Kept(closed: bool, m: Moment) {
    OneExitEach(m.rows) && (closed ==> Covered(m.book))
  }

  lemma SoundIsKept(tb: Table, kx: Kraken)
    requires Sound(tb, kx)
    ensures Kept(kx.closed, Moment(tb.rows, kx.book, kx.trace))
  {
    hide Inv, Covered;
    if kx.closed {
      InvCovered(tb.rows, tb.tags, kx.book);
    }
  }

  /** The book of every moment is spaced on the origins of its rows. */
  ghost predicate SpacedAll(m: seq<Moment>, laid: seq<Origin>) {
    forall k :: 0 <= k < |m| ==> |m[k].rows| <= |laid| && Spaced(m[k].rows, laid[..|m[k].rows|])
  }

  ghost predicate StemsAll(actions: seq<Action>, m: seq<Moment>, laid: seq<Origin>) {
    && |m| <= |actions| + 1
    && forall k, j :: 0 <= k < |m| - 1 && |m[k].rows| <= j < |m[k + 1].rows| && j < |laid| ==>
                        Stems(actions[k], laid[j], m[k + 1].rows[j])
  }

  lemma SpacedStep(actions: seq<Action>, m: seq<Moment>, laid: seq<Origin>, b: Moment, laid': seq<Origin>)
    requires 0 < |m| <= |actions| && SpacedAll(m, laid) && StemsAll(actions, m, laid)
    requires |laid| == |m[|m| - 1].rows| && KeepsSpacing(actions[|m| - 1], m[|m| - 1], laid, b, laid')
    ensures SpacedAll(m + [b], laid') && StemsAll(actions, m + [b], laid') && |laid'| == |b.rows| && laid <= laid'
  {
    hide Spaced, Stems;
    SpacedSize(b.rows, laid');
    var more := m + [b];
    assert laid'[..|b.rows|] == laid';
    forall k | 0 <= k < |m| ensures |more[k].rows| <= |laid'| && Spaced(more[k].rows, laid'[..|more[k].rows|]) {
      assert more[k] == m[k] && laid'[..|m[k].rows|] == laid'[..|laid|][..|m[k].rows|];
    }
    forall k, j | 0 <= k < |m| && |more[k].rows| <= j < |more[k + 1].rows| && j < |laid'|
      ensures Stems(actions[k], laid'[j], more[k + 1].rows[j])
    {
      if k < |m| - 1 {
        assert more[k] == m[k] && more[k + 1] == m[k + 1] && |m[k + 1].rows| <= |laid|;
        assert laid'[j] == laid'[..|laid|][j];
      }
    }
  }

  lemma StartIsSpaced(actions: seq<Action>, a: Moment, laid: seq<Origin>)
    requires Spaced(a.rows, laid)
    ensures SpacedAll([a], laid) && StemsAll(actions, [a], laid) && |laid| == |a.rows|
  {
    assert laid[..|a.rows|] == laid;
  }

  /** From any state the actions keep, through any sequence of actions, with any market moves,
      failed reads, failed cancels and lost acknowledgements inside them: every action did to the
      moment before it what it promises, every moment is kept, and at every moment the lots and
      bids that the cycles placed are spaced by the steps they were placed with. */
  method RunOn(tb: Table, kx: Kraken, actions: seq<Action>, ghost had: seq<Origin>)
    returns (ghost m: seq<Moment>, ghost laid: seq<Origin>)
    requires Sound(tb, kx) && Spaced(tb.rows, had)
    modifies tb, kx
    ensures Sound(tb, kx) && Promise(tb.rows, tb.tags, kx)
    ensures |m| == |actions| + 1
    ensures m[0] == Moment(old(tb.rows), old(kx.book), old(kx.trace)) && m[|actions|] == Moment(tb.rows, kx.book, kx.trace)
    ensures forall k :: 0 <= k < |actions| ==> Performed(kx.closed, CalmAfter(old(kx.calm), actions, k), actions[k], m[k], m[k + 1])
    ensures forall k :: 0 <= k < |actions| ==> Later(m[k], m[k + 1])
    ensures forall k :: 0 <= k <= |actions| ==> Kept(kx.closed, m[k])
    ensures |laid| == |tb.rows| && had <= laid && SpacedAll(m, laid) && StemsAll(actions, m, laid)
  {
    hide Inv, Performed, Later, Kept, Sound, Spaced, SpacedAll, StemsAll, KeepsSpacing, Promise;
    ghost var (closed, calm) := (kx.closed, kx.calm);
    m, laid := [Moment(tb.rows, kx.book, kx.trace)], had;
    StartIsSpaced(actions, m[0], had);
    SoundIsKept(tb, kx);
    for k := 0 to |actions|
      invariant Sound(tb, kx) && kx.closed == closed && kx.calm == CalmAfter(calm, actions, k)
      invariant |m| == k + 1 && m[0] == Moment(old(tb.rows), old(kx.book), old(kx.trace))
      invariant m[k] == Moment(tb.rows, kx.book, kx.trace)
      invariant forall j :: 0 <= j < k ==> Performed(closed, CalmAfter(calm, actions, j), actions[j], m[j], m[j + 1])
      invariant forall j :: 0 <= j < k ==> Later(m[j], m[j + 1])
      invariant forall j :: 0 <= j <= k ==> Kept(closed, m[j])
      invariant |laid| == |tb.rows| && had <= laid && SpacedAll(m, laid) && StemsAll(actions, m, laid)
    {
      ghost var b := Perform(tb, kx, actions[k]);
      SoundIsKept(tb, kx);
      LastSpaced(m, laid);
      ghost var laid' := PerformedKeepsSpacing(closed, CalmAfter(calm, actions, k), actions[k], m[k], b, laid);
      SpacedStep(actions, m, laid, b, laid');
      m, laid := m + [b], laid';
    }
    SoundIsPromised(tb, kx);
  }

  /** The runs from the empty account. */
  method Run(closed: bool, actions: seq<Action>)
    returns (tb: Table, kx: Kraken, ghost m: seq<Moment>, ghost laid: seq<Origin>)
    ensures kx.closed == closed && Promise(tb.rows, tb.tags, kx)
    ensures |m| == |actions| + 1 && m[0] == Moment([], [], []) && m[|actions|] == Moment(tb.rows, kx.book, kx.trace)
    ensures forall k :: 0 <= k < |actions| ==> Performed(closed, CalmAfter(false, actions, k), actions[k], m[k], m[k + 1])
    ensures forall k :: 0 <= k < |actions| ==> Later(m[k], m[k + 1])
    ensures forall k :: 0 <= k <= |actions| ==> Kept(closed, m[k])
    ensures |laid| == |tb.rows| && SpacedAll(m, laid) && StemsAll(actions, m, laid)
  {
    hide Inv, Performed, Later, Kept, Sound, SpacedAll, StemsAll, Promise;
    kx := new Kraken(closed);
    tb := new Table();
    EmptyIsSound(tb, kx);
    m, laid := RunOn(tb, kx, actions, []);
  }

  lemma LastSpaced(m: seq<Moment>, laid: seq<Origin>)
    requires 0 < |m| && SpacedAll(m, laid) && |laid| == |m[|m| - 1].rows|
    ensures Spaced(m[|m| - 1].rows, laid)
  {
    hide Spaced;
    assert laid[..|laid|] == laid;
  }

  lemma EmptyIsSound(tb: Table, kx: Kraken)
    requires tb.rows == [] && tb.tags == Tags([], [], []) && kx.book == [] && kx.safe
    ensures Sound(tb, kx)
  {
    InvEmpty();
  }

  lemma SoundIsPromised(tb: Table, kx: Kraken)
    requires Sound(tb, kx)
    ensures Promise(tb.rows, tb.tags, kx)
  {
    hide Inv;
    if kx.closed {
      InvShape(tb.rows, tb.tags, kx.book);
      forall i: nat | i < |tb.rows| ensures HoldsTheRest(i, tb.rows, tb.tags, kx.book) {
        OpenRowHoldsTheRest(tb.rows, tb.tags, kx.book, i);
      }
      InvCovered(tb.rows, tb.tags, kx.book);
      forall p: Pair
        ensures Sum(InFlights(tb.rows, tb.tags, kx.book, p)) <= Net(kx.book, p)
        ensures BoughtIsAccounted(tb.rows, tb.tags, kx.book, p)
      {
        InFlightWithinPosition(tb.rows, tb.tags, kx.book, p);
        NoEntryVolumeLost(tb.rows, tb.tags, kx.book, p);
      }
    }
  }

  lemma InvShape(rows: seq<Row>, tags: Tags, book: Book)
    requires Inv(rows, tags, book)
    ensures Shape(rows, tags, book)
  {
  }

  /** A pass of a flatten between two moments: worked to its end, as its record says, or unread. */
  ghost predicate PassMade(calm: bool, a: Moment, b: Moment, quotes: map<Pair, Harvest.Quote>, log: Option<Flatten.Log>) {
    if log.Some? then FlattenedOn(true, calm, a, b, quotes, log.value)
    else Flatten.HalfDone(calm, a.told, b.told, a.book, a.rows, b.rows, b.book)
  }

  lemma PassSettles(calm: bool, a: Moment, b: Moment, quotes: map<Pair, Harvest.Quote>, log: Option<Flatten.Log>,
                    start: seq<Row>, tags: Tags)
    requires PassMade(calm, a, b, quotes, log) && Flatten.Settling(start, tags, a.rows, a.book) && Grew(a.book, b.book)
    ensures Flatten.Settling(start, tags, b.rows, b.book)
  {
    hide Grew, Flatten.Settling, Flatten.Flattening, Flatten.SweptFirst, Flatten.SweepTold, Flatten.NoOrders,
      Flatten.SellsTold, Flatten.SettledAll, Flatten.ListsCloses, Seen;
    if log.Some? {
      var (l, d) := (log.value, log.value.desk);
      GrewTransitive(l.swept, d.atRead, b.told[|l.told| + 1].at);
      GrewTransitive(l.swept, b.told[|l.told| + 1].at, b.book);
      Flatten.SweepSettles(start, tags, a.rows, a.book, l.bids, l.settled, d.blocked, l.swept);
      Flatten.WorkSettles(start, tags, l.settled, l.swept, b.rows, d.read, d.info, l.placed, quotes, d.blocked,
                          |d.atRead|, b.book);
    } else if b.rows == a.rows {
      Flatten.SettlingLasts(start, tags, a.rows, a.book, b.book);
    } else {
      var told := b.told[..|b.told| - 1];
      assert Flatten.WasSwept(calm, a.told, told, a.book, a.rows, b.rows, b.book);
      var bids, blocked :| Flatten.SweptOn(calm, a.told, told, a.book, a.rows, bids, b.rows, blocked, b.book);
      Flatten.SweepSettles(start, tags, a.rows, a.book, bids, b.rows, blocked, b.book);
    }
  }

  lemma PassEvolvesRows(calm: bool, a: Moment, b: Moment, quotes: map<Pair, Harvest.Quote>, log: Option<Flatten.Log>)
    requires PassMade(calm, a, b, quotes, log)
    ensures |b.rows| == |a.rows| && Evolved(a.rows, b.rows)
  {
    hide Flatten.HalfDone, FlattenedOn, Evolved;
    assert WasFlattened(true, calm, a, b, quotes);
    FlattenEvolvesRows(true, calm, a, b, quotes);
  }

  /** The sells of one more pass are for pairs of the rows the first started from. */
  lemma SellsOfStart(start: seq<Row>, tags: Tags, was: Book, a: Moment, b: Moment)
    requires Flatten.Settling(start, tags, a.rows, a.book) && Grew(a.book, b.book)
    requires Flatten.NewSells(was, a.book, start) && Flatten.NewSells(a.book, b.book, a.rows)
    ensures Flatten.NewSells(was, b.book, start)
  {
    hide Grew;
    forall t | |a.book| <= t < |b.book| ensures Flatten.HasPair(start, b.book[t].pair) {
      var i :| 0 <= i < |a.rows| && a.rows[i].sym == b.book[t].pair;
      assert Flatten.SameRow(start[i], a.rows[i]);
    }
    Flatten.NewSellsMore(was, a.book, b.book, start);
  }

  /** What a chain of passes keeps of the state it started from. */
  ghost predicate Closing(start: Moment, tags: Tags, now: Moment) {
    && Later(start, now) && |now.rows| == |start.rows| && Evolved(start.rows, now.rows)
    && Flatten.Settling(start.rows, tags, now.rows, now.book) && Flatten.NewSells(start.book, now.book, start.rows)
  }

  lemma ClosingStart(a: Moment, tags: Tags)
    requires Inv(a.rows, tags, a.book)
    ensures Closing(a, tags, a)
  {
    hide Inv, Grew;
    GrewReflexive(a.book);
    Flatten.SettlingStart(a.rows, tags, a.book);
    Flatten.NoneNew(a.book, a.book, a.rows);
  }

  lemma ClosingOn(calm: bool, start: Moment, tags: Tags, a: Moment, b: Moment, quotes: map<Pair, Harvest.Quote>,
                  log: Option<Flatten.Log>)
    requires Closing(start, tags, a) && PassMade(calm, a, b, quotes, log)
    requires Later(a, b) && Flatten.NewSells(a.book, b.book, a.rows)
    ensures Closing(start, tags, b)
  {
    hide PassMade, Evolved, Flatten.Settling, Flatten.NewSells, Grew;
    PassEvolvesRows(calm, a, b, quotes, log);
    EvolvedTransitive(start.rows, a.rows, b.rows);
    PassSettles(calm, a, b, quotes, log, start.rows, tags);
    SellsOfStart(start.rows, tags, start.book, a, b);
    GrewTransitive(start.book, a.book, b.book);
  }

  /** Some pass of a chain sold on a reading that a close had outrun. */
  ghost predicate SomeOutrun(logs: seq<Option<Flatten.Log>>) {
    exists k :: 0 <= k < |logs| && logs[k].Some? && Flatten.Outrun(logs[k].value)
  }

  lemma SomeOutrunMore(logs: seq<Option<Flatten.Log>>, log: Option<Flatten.Log>)
    ensures SomeOutrun(logs + [log]) <==> SomeOutrun(logs) || (log.Some? && Flatten.Outrun(log.value))
  {
    hide Flatten.Outrun;
    var more := logs + [log];
    assert more[|logs|] == log && forall k :: 0 <= k < |logs| ==> more[k] == logs[k];
  }

  /** Take-profit of the whole book on a closed account: passes until one reports completion,
      or as many as are tried. The account is covered throughout exactly when no pass sold on a
      reading that its own close had outrun. Completion means nothing is left; and with nothing left
      on a covered account the ordinary steps can go on as if there had been no flatten. */
  method CloseBook(tb: Table, kx: Kraken, market: seq<map<Pair, Harvest.Quote>>)
    returns (done: bool, ghost m: seq<Moment>, ghost logs: seq<Option<Flatten.Log>>)
    requires Sound(tb, kx) && kx.closed
    modifies tb, kx`book, kx`safe, kx`trace
    ensures |m| == |logs| + 1 <= |market| + 1 && (done || |logs| == |market|)
    ensures m[0] == Moment(old(tb.rows), old(kx.book), old(kx.trace)) && m[|logs|] == Moment(tb.rows, kx.book, kx.trace)
    ensures forall k :: 0 <= k < |logs| ==> Later(m[k], m[k + 1]) && PassMade(kx.calm, m[k], m[k + 1], market[k], logs[k])
    ensures kx.safe <==> !SomeOutrun(logs)
    ensures kx.safe ==> Covered(kx.book)
    ensures done ==> Flatten.AllDone(tb.rows)
    ensures OneExitEach(tb.rows) && |tb.rows| == |old(tb.rows)| && Evolved(old(tb.rows), tb.rows)
    ensures Flatten.AllDone(tb.rows) && kx.safe ==> Sound(tb, kx)
  {
    hide Inv, Grew, Flatten.Held, Flatten.AllDone, Covered, OneExitEach, PassMade, SomeOutrun, Closing, Later,
      Flatten.Flattening, Flatten.HalfDone, Flatten.Witnessed, Flatten.Wanted, Flatten.NewSells, Flatten.Outrun;
    ghost var start, tags, raced := Moment(tb.rows, kx.book, kx.trace), tb.tags, false;
    done, m, logs := false, [start], [];
    Flatten.FlatFromInv(tb.rows, tags, kx.book);
    StartFlat(tb.rows, kx.book);
    ClosingStart(start, tags);
    assert !SomeOutrun([]) by { NoneOutrun(); }
    var k := 0;
    while k < |market| && !done
      invariant k <= |market| && |logs| == k && |m| == k + 1 && tb.tags == tags
      invariant m[0] == start && m[k] == Moment(tb.rows, kx.book, kx.trace) && Closing(start, tags, m[k])
      invariant forall j :: 0 <= j < k ==> Later(m[j], m[j + 1]) && PassMade(kx.calm, m[j], m[j + 1], market[j], logs[j])
      invariant Flatten.FlatOk(tb, kx, !raced) && (raced <==> !kx.safe) && (raced <==> SomeOutrun(logs))
      invariant done ==> Flatten.AllDone(tb.rows)
    {
      var ran;
      ghost var log, late;
      ran, done, log, late := Flatten.FlattenAll(tb, kx, market[k], !raced);
      ghost var b := Moment(tb.rows, kx.book, kx.trace);
      PassIsMade(kx.calm, m[k], b, market[k], log);
      ClosingOn(kx.calm, start, tags, m[k], b, market[k], log);
      SomeOutrunMore(logs, log);
      m, logs, raced := m + [b], logs + [log], raced || late;
      k := k + 1;
    }
    ClosingMeans(start, tags, m[k]);
    Flatten.HeldRecords(tb.rows, kx.book, !raced);
    if !raced {
      Flatten.HeldMeans(tb.rows, kx.book);
      if Flatten.AllDone(tb.rows) {
        tb.tags := Flatten.InvRestored(start.rows, tags, start.book, tb.rows, kx.book);
      }
    }
  }

  lemma NoneOutrun()
    ensures !SomeOutrun([])
  {
  }

  lemma PassIsMade(calm: bool, a: Moment, b: Moment, quotes: map<Pair, Harvest.Quote>, log: Option<Flatten.Log>)
    requires log.None? ==> Flatten.HalfDone(calm, a.told, b.told, a.book, a.rows, b.rows, b.book)
    requires log.Some? ==> FlattenedOn(true, calm, a, b, quotes, log.value)
    requires Grew(a.book, b.book) && a.told <= b.told
    ensures PassMade(calm, a, b, quotes, log) && Later(a, b)
  {
    hide Flatten.HalfDone, FlattenedOn, Grew;
  }

  lemma ClosingMeans(start: Moment, tags: Tags, now: Moment)
    requires Closing(start, tags, now)
    ensures Grew(start.book, now.book) && Evolved(start.rows, now.rows) && |now.rows| == |start.rows|
    ensures Flatten.Settling(start.rows, tags, now.rows, now.book) && Flatten.NewSells(start.book, now.book, start.rows)
  {
    hide Grew, Evolved, Flatten.Settling, Flatten.NewSells;
  }

  lemma StartFlat(rows: seq<Row>, book: Book)
    requires OneExitEach(rows) && Recorded(rows, book) && Covered(book) && Flatten.Tracked(rows, book)
    requires Flatten.Bidding(rows, book)
    ensures Flatten.Held(rows, book, true)
  {
  }
}

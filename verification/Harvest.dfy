/** The per-rung harvest: banking single rungs with a post-only sell, never beside a stop. */
module Harvest {
  import opened Wrappers
  import opened Sums
  import opened Exchange
  import opened Ledger
  import opened Broker
  import opened Prices
  import opened Protect

  const FLOOR_MULT := 1.02
  const MAX_PER_PASS := 4

  datatype Quote = Quote(bid: real, ask: real)

  // ── settling and chasing the harvests already working ───────────────────────

  /** A close held by exactly one open row is a harvest; a shared one belongs to a flatten. */
  predicate SoloClose(rows: seq<Row>, i: nat)
    requires i < |rows|
  {
    && rows[i].status.RowOpen? && rows[i].closeTxid.Some?
    && forall j :: 0 <= j < |rows| && j != i && rows[j].status.RowOpen? ==> rows[j].closeTxid != rows[i].closeTxid
  }

  method IsSolo(rows: seq<Row>, i: nat) returns (solo: bool)
    requires i < |rows|
    ensures solo <==> SoloClose(rows, i)
  {
    solo := rows[i].status.RowOpen? && rows[i].closeTxid.Some?;
    for j := 0 to |rows|
      invariant solo <==> && rows[i].status.RowOpen? && rows[i].closeTxid.Some?
                          && forall k :: 0 <= k < j && k != i && rows[k].status.RowOpen? ==> rows[k].closeTxid != rows[i].closeTxid
    {
      if j != i && rows[j].status.RowOpen? && rows[j].closeTxid == rows[i].closeTxid {
        solo := false;
      }
    }
  }

  /** A row after its close order finished with `exec` sold: banked, shrunk to the exact
      remainder, or simply released. */
  function CloseSettled(row: Row, exec: nat): Row {
    if row.vol <= exec && 0 < exec then row.(status := RowClosed, closeTxid := None)
    else if 0 < exec then row.(vol := row.vol - exec, closeTxid := None)
    else row.(closeTxid := None)
  }

  /** What the pass makes of a row, given the statuses it read: only a definite terminal
      status changes anything. */
  function Managed(rows: seq<Row>, i: nat, info: map<Txid, Order>): Row
    requires i < |rows|
  {
    if SoloClose(rows, i) && rows[i].closeTxid.value in info && info[rows[i].closeTxid.value].Terminal()
    then CloseSettled(rows[i], info[rows[i].closeTxid.value].exec)
    else rows[i]
  }

  /** What a finished close with `exec` sold leaves of its row: nothing sold, released as it was; a
      part sold, still open with exactly the rest; all of it sold, and only then, closed. */
  predicate CloseEnded(was: Row, now: Row, exec: nat) {
    && now == was.(status := now.status, vol := now.vol, closeTxid := None)
    && (now.status.RowClosed? && was.status.RowOpen? ==> 0 < exec && was.vol <= exec && now.vol == was.vol)
    && (exec == 0 ==> now.status == was.status && now.vol == was.vol)
    && (0 < exec < was.vol ==> now.status == was.status && now.vol + exec == was.vol)
    && (0 < exec && was.vol <= exec ==> now.status.RowClosed? && now.vol == was.vol)
  }

  /** A row after the pass: changed only by the definite end of a close that is its alone. */
  predicate RowManaged(rows: seq<Row>, i: nat, now: Row, info: map<Txid, Order>)
    requires i < |rows|
  {
    if SoloClose(rows, i) && rows[i].closeTxid.value in info && info[rows[i].closeTxid.value].Terminal()
    then CloseEnded(rows[i], now, info[rows[i].closeTxid.value].exec)
    else now == rows[i]
  }

  lemma ManagedMeans(rows: seq<Row>, i: nat, now: Row, info: map<Txid, Order>)
    requires i < |rows|
    ensures RowManaged(rows, i, now, info) <==> now == Managed(rows, i, info)
  {
  }

  /** A resting harvest is given up under its floor and re-pegged when the market fell away. */
  predicate ShouldPull(row: Row, o: Order, quotes: map<Pair, Quote>) {
    && o.status.Resting? && row.sym in quotes
    && (quotes[row.sym].bid < row.entry * 1.02
        || (o.price != 0.0 && quotes[row.sym].ask + 0.5 < o.price))
  }

  lemma InvCloseSettled(rows: seq<Row>, tags: Tags, book: Book, i: nat, t: Txid)
    requires Inv(rows, tags, book) && i < |rows| && rows[i].status.RowOpen? && rows[i].closeTxid == Some(t)
    requires t < |book| && book[t].Terminal()
    ensures Inv(rows[i := CloseSettled(rows[i], book[t].exec)], tags, book)
  {
    assert RowOk(i, rows[i], tags.entryOf[i], tags.booked[i], tags, book);
    assert Conserves(i, rows[i], tags.booked[i], tags.own, book);
    SalesRelease(i, t, tags.own, book);
    InvSetRow(rows, tags, book, i, CloseSettled(rows[i], book[t].exec), tags.booked[i]);
    assert tags.booked[i := tags.booked[i]] == tags.booked;
  }

  method SoloCloses(rows: seq<Row>) returns (ids: seq<Txid>)
    ensures ListsSolos(rows, ids)
  {
    ids := [];
    for i := 0 to |rows|
      invariant forall t :: t in ids <==> exists j :: 0 <= j < i && SoloClose(rows, j) && rows[j].closeTxid == Some(t)
    {
      var solo := IsSolo(rows, i);
      if solo {
        ids := ids + [rows[i].closeTxid.value];
      }
    }
  }

  ghost predicate ManagedUpTo(rows: seq<Row>, now: seq<Row>, n: nat, info: map<Txid, Order>) {
    && |now| == |rows|
    && forall i :: 0 <= i < |rows| ==> now[i] == if i < n then Managed(rows, i, info) else rows[i]
  }

  /** One row of the pass: settled by a finished close, or its resting sell given up. */
  method ManageOne(tb: Table, kx: Kraken, i: nat, rows: seq<Row>, seen: map<Txid, Order>, quotes: map<Pair, Quote>)
    returns (pull: bool)
    requires Sound(tb, kx) && i < |rows| == |tb.rows| && tb.rows[i] == rows[i] && Seen(seen, kx.book)
    modifies tb, kx`book, kx`safe, kx`trace
    ensures Sound(tb, kx) && Grew(old(kx.book), kx.book) && old(kx.trace) <= kx.trace
    ensures tb.rows == old(tb.rows)[i := Managed(rows, i, seen)]
    ensures pull <==> Pulled(rows, i, seen, quotes)
    ensures !pull ==> kx.book == old(kx.book)
    ensures pull && kx.calm ==> var t := rows[i].closeTxid.value;
                                t < |old(kx.book)| && kx.book == if old(kx.book)[t].status.Resting?
                                                                 then Step(old(kx.book), Kill(t, false)) else old(kx.book)
  {
    hide Inv, Grew, Became, Seen;
    GrewReflexive(kx.book);
    pull := false;
    var solo := IsSolo(rows, i);
    if solo && rows[i].closeTxid.value in seen {
      var row, t := rows[i], rows[i].closeTxid.value;
      var o := seen[t];
      if o.Terminal() {
        SeenTerminal(seen, kx.book, t);
        if kx.closed {
          InvCloseSettled(tb.rows, tb.tags, kx.book, i, t);
        }
        tb.rows := tb.rows[i := CloseSettled(rows[i], o.exec)];
      } else if row.sym in quotes && (quotes[row.sym].bid < row.entry * FLOOR_MULT
                                      || (o.price != 0.0 && o.price > quotes[row.sym].ask + 0.5)) {
        SeenExists(seen, kx.book);
        var ok := CancelOrder(tb, kx, t);
        pull := true;
      }
    }
  }

  /** The row's sell was seen resting where it should not be left. */
  predicate Pulled(rows: seq<Row>, i: nat, seen: map<Txid, Order>, quotes: map<Pair, Quote>)
    requires i < |rows|
  {
    && SoloClose(rows, i) && rows[i].closeTxid.value in seen
    && ShouldPull(rows[i], seen[rows[i].closeTxid.value], quotes)
  }

  /** Exactly the sells of the rows in `pulled` were taken back. */
  ghost predicate OnlyPulled(rows: seq<Row>, pulled: set<nat>, was: Book, now: Book) {
    && |now| == |was|
    && (forall i :: i in pulled ==> i < |rows| && rows[i].closeTxid.Some?)
    && forall t :: 0 <= t < |was| ==>
                     now[t] == if HolderPulled(rows, pulled, t) && was[t].status.Resting?
                               then was[t].(status := Canceled) else was[t]
  }

  predicate HolderPulled(rows: seq<Row>, pulled: set<nat>, t: Txid) {
    exists i :: i in pulled && i < |rows| && rows[i].closeTxid == Some(t)
  }

  lemma OnePulled(rows: seq<Row>, pulled: set<nat>, was: Book, mid: Book, i: nat, now: Book)
    requires OnlyPulled(rows, pulled, was, mid) && i < |rows| && rows[i].closeTxid.Some?
    requires var t := rows[i].closeTxid.value;
             t < |mid| && now == if mid[t].status.Resting? then Step(mid, Kill(t, false)) else mid
    ensures OnlyPulled(rows, pulled + {i}, was, now)
  {
    var t := rows[i].closeTxid.value;
    forall u | 0 <= u < |was|
      ensures HolderPulled(rows, pulled + {i}, u) <==> HolderPulled(rows, pulled, u) || u == t
    {
      if HolderPulled(rows, pulled, u) {
        var j :| j in pulled && j < |rows| && rows[j].closeTxid == Some(u);
        assert j in pulled + {i};
      }
      assert i in pulled + {i};
    }
  }

  /** The first call of a stretch asked for the statuses of exactly the solo closes, and this was
      the answer. */
  ghost predicate ClosesAsked(before: seq<Call>, after: seq<Call>, rows: seq<Row>, info: map<Txid, Order>) {
    && |before| < |after|
    && var asked := after[|before|]; asked.AskedStatuses? && asked.seen == info && ListsSolos(rows, asked.ids)
  }

  ghost predicate ListsSolos(rows: seq<Row>, ids: seq<Txid>) {
    forall t :: t in ids <==> exists i :: 0 <= i < |rows| && SoloClose(rows, i) && rows[i].closeTxid == Some(t)
  }

  /** The answer has every solo close as it was. */
  ghost predicate SolosAnswered(rows: seq<Row>, info: map<Txid, Order>, book: Book) {
    forall i :: 0 <= i < |rows| && SoloClose(rows, i) && rows[i].closeTxid.value < |book| ==>
                  var t := rows[i].closeTxid.value; t in info && info[t] == book[t]
  }

  /** Settle, chase or abort every resting harvest sell. Rows change by definite terminal
      statuses alone; exactly the sells that should be pulled get a cancel, which itself
      changes no row: the next pass reads what became of it. */
  method HarvestManageActive(tb: Table, kx: Kraken, quotes: map<Pair, Quote>)
    returns (ghost info: map<Txid, Order>, ghost pulled: set<nat>)
    requires Sound(tb, kx)
    modifies tb, kx`book, kx`safe, kx`trace
    ensures Sound(tb, kx) && Grew(old(kx.book), kx.book) && old(kx.trace) <= kx.trace
    ensures |tb.rows| == |old(tb.rows)|
    ensures forall i: nat :: i < |tb.rows| ==> RowManaged(old(tb.rows), i, tb.rows[i], info)
    ensures Seen(info, kx.book) && ClosesAsked(old(kx.trace), kx.trace, old(tb.rows), info)
    ensures forall i :: i in pulled <==> 0 <= i < |tb.rows| && Pulled(old(tb.rows), i, info, quotes)
    ensures kx.calm ==> OnlyPulled(old(tb.rows), pulled, old(kx.book), kx.book)
    ensures kx.calm ==> SolosAnswered(old(tb.rows), info, old(kx.book))
  {
    hide Inv, Grew, Became, Managed, Pulled, OnlyPulled, Seen, RowManaged;
    var rows := tb.rows;
    var ids := SoloCloses(rows);
    var seen := QueryOrders(tb, kx, ids);
    info, pulled := seen, {};
    ghost var told := kx.trace;
    NonePulled(rows, kx.book);
    for i := 0 to |rows|
      invariant Sound(tb, kx) && Grew(old(kx.book), kx.book) && told <= kx.trace && Seen(seen, kx.book)
      invariant ManagedUpTo(rows, tb.rows, i, seen)
      invariant forall j :: j in pulled <==> 0 <= j < i && Pulled(rows, j, seen, quotes)
      invariant kx.calm ==> OnlyPulled(rows, pulled, old(kx.book), kx.book)
    {
      ghost var mid, held := kx.book, pulled;
      var pull := ManageOne(tb, kx, i, rows, seen, quotes);
      GrewTransitive(old(kx.book), mid, kx.book);
      SeenLasts(seen, mid, kx.book);
      if pull {
        pulled := pulled + {i};
        PulledHasClose(rows, i, seen, quotes);
        if kx.calm {
          OnePulled(rows, held, old(kx.book), mid, i, kx.book);
        }
      }
    }
    forall i: nat | i < |rows| ensures RowManaged(rows, i, tb.rows[i], seen) {
      ManagedMeans(rows, i, tb.rows[i], seen);
    }
  }

  lemma PulledHasClose(rows: seq<Row>, i: nat, seen: map<Txid, Order>, quotes: map<Pair, Quote>)
    requires i < |rows| && Pulled(rows, i, seen, quotes)
    ensures rows[i].closeTxid.Some?
  {
  }

  lemma NonePulled(rows: seq<Row>, book: Book)
    ensures OnlyPulled(rows, {}, book, book)
  {
  }

  // ── the ratchet ─────────────────────────────────────────────────────────────

  /** The protective level of a rung that has proved its target: its entry, provided that is
      under the bid and above the level it already has. */
  function Ratcheted(row: Row, bid: real): Row {
    var px := TickRound(row.entry) as real;
    if row.entry <= 0.0 || bid <= 0.0 || bid <= px || px <= row.StopLevel() then row
    else row.(stopProt := Some(px))
  }

  /** The ratchet acts exactly if the entry's tick is under the bid and over the level the stop is
      re-armed at. Then a stop for the row is one at that tick. It never lowers a stop, never puts a
      new one at or above the bid, leaves the chain's invalidation level alone, and does nothing
      the second time. */
  lemma RatchetMonotone(row: Row, bid: real, later: real)
    ensures Ratcheted(row, bid) != row
            <==> 0.0 < row.entry && 0.0 < bid && TickRound(row.entry) as real < bid
                 && (if row.stopProt.Some? then row.stopProt.value else row.stop) < TickRound(row.entry) as real
    ensures Ratcheted(row, bid) != row ==> forall o :: StopFor(o, Ratcheted(row, bid)) ==> o.price == TickRound(row.entry) as real
    ensures row.StopLevel() <= Ratcheted(row, bid).StopLevel()
    ensures Ratcheted(row, bid) != row ==> Ratcheted(row, bid).StopLevel() < bid
    ensures Ratcheted(row, bid) == row.(stopProt := Ratcheted(row, bid).stopProt)
    ensures Ratcheted(row, bid) != row ==> Ratcheted(Ratcheted(row, bid), later) == Ratcheted(row, bid)
    ensures Ratcheted(row, bid).StopLevel() == row.StopLevel()
            || Ratcheted(row, bid).StopLevel() == TickRound(row.entry) as real
  {
  }

  // ── choosing new harvests ───────────────────────────────────────────────────

  predicate PairBusy(rows: seq<Row>, p: Pair) {
    exists j :: 0 <= j < |rows| && rows[j].status.RowOpen? && rows[j].closeTxid.Some? && rows[j].sym == p
  }

  predicate Eligible(rows: seq<Row>, i: nat, last: map<Pair, real>)
    requires i < |rows|
  {
    var row := rows[i];
    && row.status.RowOpen? && row.closeTxid.None? && 0.0 < row.entry && 0 < row.vol
    && !PairBusy(rows, row.sym)
    && row.sym in last && last[row.sym] != 0.0 && row.entry * (1.0 + row.tpPct / 100.0) <= last[row.sym]
  }

  function Ratio(rows: seq<Row>, i: nat, last: map<Pair, real>): real
    requires i < |rows|
  {
    if rows[i].sym in last && rows[i].entry != 0.0 then last[rows[i].sym] / rows[i].entry else 0.0
  }

  /** Row `i` is its pair's rung furthest above its entry; among equals the oldest. */
  ghost predicate BestOfPair(rows: seq<Row>, i: nat, last: map<Pair, real>, n: nat)
    requires n <= |rows|
  {
    && i < n && Eligible(rows, i, last)
    && forall j :: 0 <= j < n && rows[j].sym == rows[i].sym && Eligible(rows, j, last) ==>
                     Ratio(rows, j, last) < Ratio(rows, i, last)
                     || (Ratio(rows, j, last) == Ratio(rows, i, last) && i <= j)
  }

  method Candidate(rows: seq<Row>, i: nat, last: map<Pair, real>, active: set<Pair>) returns (ratio: Option<real>)
    requires i < |rows| && forall p :: p in active <==> PairBusy(rows, p)
    ensures ratio == if Eligible(rows, i, last) then Some(Ratio(rows, i, last)) else None
  {
    var row := rows[i];
    ratio := None;
    if row.status.RowOpen? && row.closeTxid.None? && 0.0 < row.entry && 0 < row.vol && row.sym !in active
       && row.sym in last && last[row.sym] != 0.0 && last[row.sym] >= row.entry * (1.0 + row.tpPct / 100.0) {
      ratio := Some(last[row.sym] / row.entry);
    }
  }

  lemma BestStays(rows: seq<Row>, i: nat, last: map<Pair, real>, n: nat)
    requires n < |rows| && BestOfPair(rows, i, last, n)
    requires rows[n].sym == rows[i].sym && Eligible(rows, n, last) ==> Ratio(rows, n, last) <= Ratio(rows, i, last)
    ensures BestOfPair(rows, i, last, n + 1)
  {
    hide Eligible, Ratio;
  }

  lemma NewBest(rows: seq<Row>, n: nat, last: map<Pair, real>, best: map<Pair, nat>)
    requires n < |rows| && Eligible(rows, n, last)
    requires forall i :: 0 <= i < n && Eligible(rows, i, last) ==> rows[i].sym in best
    requires forall p :: p in best ==> best[p] < n && rows[best[p]].sym == p && BestOfPair(rows, best[p], last, n)
    requires rows[n].sym in best ==> Ratio(rows, best[rows[n].sym], last) < Ratio(rows, n, last)
    ensures BestOfPair(rows, n, last, n + 1)
  {
    hide Eligible, Ratio;
  }

  method BestRungs(rows: seq<Row>, last: map<Pair, real>) returns (best: map<Pair, nat>)
    ensures forall p :: p in best ==> best[p] < |rows| && rows[best[p]].sym == p && BestOfPair(rows, best[p], last, |rows|)
    ensures forall i :: 0 <= i < |rows| && Eligible(rows, i, last) ==> rows[i].sym in best
  {
    var active := set j | 0 <= j < |rows| && rows[j].status.RowOpen? && rows[j].closeTxid.Some? :: rows[j].sym;
    assert forall p :: p in active <==> PairBusy(rows, p);
    hide Eligible, Ratio, PairBusy, BestOfPair;
    best := map[];
    var high: map<Pair, real> := map[];
    for n := 0 to |rows|
      invariant high.Keys == best.Keys
      invariant forall p :: p in best ==> best[p] < n && high[p] == Ratio(rows, best[p], last)
      invariant forall p :: p in best ==> best[p] < n && rows[best[p]].sym == p && BestOfPair(rows, best[p], last, n)
      invariant forall i :: 0 <= i < n && Eligible(rows, i, last) ==> rows[i].sym in best
    {
      var p := rows[n].sym;
      var ratio := Candidate(rows, n, last, active);
      forall q | q in best && !(q == p && ratio.Some? && high[p] < ratio.value)
        ensures BestOfPair(rows, best[q], last, n + 1)
      {
        BestStays(rows, best[q], last, n);
      }
      if ratio.Some? && (p !in best || high[p] < ratio.value) {
        NewBest(rows, n, last, best);
        best, high := best[p := n], high[p := ratio.value];
      }
    }
  }

  /** The chosen rungs: best first, each the best of its pair, and none passed over for a
      worse one; at most `cap` of them. */
  ghost predicate Chosen(rows: seq<Row>, last: map<Pair, real>, cap: nat, cands: seq<nat>) {
    && |cands| <= cap
    && (forall a :: 0 <= a < |cands| ==> cands[a] < |rows| && BestOfPair(rows, cands[a], last, |rows|))
    && (forall a, b :: 0 <= a < b < |cands| ==>
                         rows[cands[a]].sym != rows[cands[b]].sym
                         && Ratio(rows, cands[b], last) <= Ratio(rows, cands[a], last))
    && (forall i :: 0 <= i < |rows| && BestOfPair(rows, i, last, |rows|) && i !in cands ==>
                      |cands| == cap && forall a :: 0 <= a < |cands| ==> Ratio(rows, i, last) <= Ratio(rows, cands[a], last))
  }

  method Ranked(rows: seq<Row>, last: map<Pair, real>, best: map<Pair, nat>, cap: nat) returns (cands: seq<nat>)
    requires forall p :: p in best ==> best[p] < |rows| && rows[best[p]].sym == p && BestOfPair(rows, best[p], last, |rows|)
    requires forall i :: 0 <= i < |rows| && Eligible(rows, i, last) ==> rows[i].sym in best
    ensures Chosen(rows, last, cap, cands)
  {
    hide Eligible, Ratio, BestOfPair;
    cands := [];
    var left := best.Keys;
    while left != {} && |cands| < cap
      invariant left <= best.Keys && |cands| <= cap
      invariant forall a :: 0 <= a < |cands| ==>
                              cands[a] < |rows| && rows[cands[a]].sym in best.Keys - left
                              && best[rows[cands[a]].sym] == cands[a]
      invariant forall a, b :: 0 <= a < b < |cands| ==>
                                 rows[cands[a]].sym != rows[cands[b]].sym
                                 && Ratio(rows, cands[b], last) <= Ratio(rows, cands[a], last)
      invariant forall p, a :: p in left && 0 <= a < |cands| ==> Ratio(rows, best[p], last) <= Ratio(rows, cands[a], last)
      invariant forall p :: p in best.Keys - left ==> best[p] in cands
      decreases left
    {
      var top := TopOf(rows, last, best, left);
      cands := cands + [best[top]];
      left := left - {top};
    }
    forall i | 0 <= i < |rows| && BestOfPair(rows, i, last, |rows|) && i !in cands
      ensures rows[i].sym in left && best[rows[i].sym] == i
    {
      BestIsUnique(rows, last, i, best);
    }
  }

  lemma BestIsUnique(rows: seq<Row>, last: map<Pair, real>, i: nat, best: map<Pair, nat>)
    requires forall p :: p in best ==> best[p] < |rows| && rows[best[p]].sym == p && BestOfPair(rows, best[p], last, |rows|)
    requires forall j :: 0 <= j < |rows| && Eligible(rows, j, last) ==> rows[j].sym in best
    requires i < |rows| && BestOfPair(rows, i, last, |rows|)
    ensures rows[i].sym in best && best[rows[i].sym] == i
  {
  }

  method TopOf(rows: seq<Row>, last: map<Pair, real>, best: map<Pair, nat>, left: set<Pair>) returns (top: Pair)
    requires left != {} && left <= best.Keys && forall p :: p in best ==> best[p] < |rows|
    ensures top in left
    ensures forall p :: p in left ==> Ratio(rows, best[p], last) <= Ratio(rows, best[top], last)
  {
    hide Ratio;
    top :| top in left;
    var rest := left - {top};
    while rest != {}
      invariant rest <= left && top in left
      invariant forall p :: p in left - rest ==> Ratio(rows, best[p], last) <= Ratio(rows, best[top], last)
      decreases rest
    {
      var p :| p in rest;
      rest := rest - {p};
      if Ratio(rows, best[top], last) < Ratio(rows, best[p], last) {
        top := p;
      }
    }
  }

  // ── starting a harvest ──────────────────────────────────────────────────────

  lemma InvRatchet(rows: seq<Row>, tags: Tags, book: Book, i: nat, bid: real)
    requires Inv(rows, tags, book) && i < |rows|
    ensures Inv(rows[i := Ratcheted(rows[i], bid)], tags, book)
  {
    assert RowOk(i, rows[i], tags.entryOf[i], tags.booked[i], tags, book);
    assert Conserves(i, rows[i], tags.booked[i], tags.own, book);
    InvSetRow(rows, tags, book, i, Ratcheted(rows[i], bid), tags.booked[i]);
    assert tags.booked[i := tags.booked[i]] == tags.booked;
  }

  method Ratchet(tb: Table, kx: Kraken, i: nat, bid: real)
    requires Sound(tb, kx) && i < |tb.rows|
    modifies tb
    ensures Sound(tb, kx) && tb.rows == old(tb.rows)[i := Ratcheted(old(tb.rows)[i], bid)]
  {
    hide Inv, TickRound;
    if kx.closed {
      InvRatchet(tb.rows, tb.tags, kx.book, i, bid);
    }
    var row := tb.rows[i];
    assert row.OneExit() && tb.rows[i := row] == tb.rows;
    var px := TickRound(row.entry) as real;
    if 0.0 < row.entry && 0.0 < bid && px < bid && px > (if row.stopProt.Some? then row.stopProt.value else row.stop) {
      tb.rows := tb.rows[i := row.(stopProt := Some(px))];
    }
  }

  /** A post-only sell of a row's whole volume, recorded as its close. */
  method RestClose(tb: Table, kx: Kraken, i: nat, price: real) returns (placed: Option<Txid>)
    requires Sound(tb, kx) && i < |tb.rows| && tb.rows[i].Naked()
    modifies tb, kx`book, kx`safe, kx`trace
    ensures Sound(tb, kx) && Grew(old(kx.book), kx.book) && old(kx.trace) <= kx.trace
    ensures tb.rows == old(tb.rows)[i := old(tb.rows)[i].(closeTxid := placed)]
    ensures placed.Some? ==>
              && |old(kx.book)| <= placed.value == |kx.book| - 1
              && kx.book[placed.value] == NewOrder(old(tb.rows)[i].sym, Sell, Limit, price, old(tb.rows)[i].vol, 0)
    ensures kx.calm ==> (placed.Some? <==> 0 < old(tb.rows)[i].vol) && OnlyTouched(old(kx.book), kx.book, None)
  {
    hide Free, Covered, BookOk;
    var row := tb.rows[i];
    ghost var rows, tags, was := tb.rows, tb.tags, kx.book;
    ghost var es;
    if kx.closed {
      InvCovered(rows, tags, was);
    }
    placed, es := kx.AddSell(row.sym, Limit, price, row.vol);
    if kx.closed {
      InvPlay(rows, tags, was, es);
    }
    if placed.Some? {
      tb.rows := tb.rows[i := row.(closeTxid := placed)];
      if kx.closed {
        InvRestExit(rows, tags, Play(was, es), i, row.(closeTxid := placed), Limit, price);
        tb.tags := tags.(own := tags.own + [i]);
      }
    }
  }

  /** The close of a started harvest: the row's whole volume, at the maker price of the quote. */
  predicate HarvestOrder(o: Order, row: Row, q: Quote) {
    && o.side.Sell? && o.kind.Limit? && o.pair == row.sym && o.vol == row.vol
    && MakerSell(q.bid, q.ask).Some? && o.price == MakerSell(q.bid, q.ask).value as real
  }

  /** What starting a harvest may do to a row: nothing; or, the bid being above the floor and
      any stop canceled first, the ratchet, and then the sell if it landed. */
  ghost predicate HarvestStep(was: Row, now: Row, q: Option<Quote>, book: Book) {
    now == was
    || (&& q.Some? && was.entry * 1.02 < q.value.bid
        && (was.stopTxid.Some? ==> was.stopTxid.value < |book| && book[was.stopTxid.value].status.Canceled?)
        && var bare := Ratcheted(was.(stopTxid := None), q.value.bid);
           && now == bare.(closeTxid := now.closeTxid)
           && (now.closeTxid.Some? ==> now.closeTxid.value < |book| && HarvestOrder(book[now.closeTxid.value], was, q.value))
           && (now.closeTxid.None? ==> was.closeTxid.None?))
  }

  predicate Backed(row: Row, positions: Positions, stopped: map<Pair, nat>) {
    var committed := At(stopped, row.sym) - if row.stopTxid.Some? then row.vol else 0;
    row.vol <= Long(positions, row.sym) - committed
  }

  /** Nothing but the position stands in the way of a harvest of the row: the bid is above the
      floor, there is room for a maker sell, and its stop, if it has one, can be canceled. */
  ghost predicate Ready(row: Row, q: Option<Quote>, book: Book) {
    && q.Some? && row.entry * 1.02 < q.value.bid && MakerSell(q.value.bid, q.value.ask).Some?
    && 0 < row.vol
    && (row.stopTxid.Some? ==> row.stopTxid.value < |book| && book[row.stopTxid.value].status.Resting?)
  }

  method StartOne(tb: Table, kx: Kraken, i: nat, q: Option<Quote>, positions: Positions, stopped: map<Pair, nat>)
    returns (stopped': map<Pair, nat>)
    requires Sound(tb, kx) && i < |tb.rows| && tb.rows[i].status.RowOpen? && tb.rows[i].closeTxid.None?
    requires tb.rows[i].stopTxid.Some? ==> tb.rows[i].vol <= At(stopped, tb.rows[i].sym)
    modifies tb, kx`book, kx`safe, kx`trace
    ensures Sound(tb, kx) && Grew(old(kx.book), kx.book) && old(kx.trace) <= kx.trace
    ensures |tb.rows| == |old(tb.rows)| && tb.rows == old(tb.rows)[i := tb.rows[i]]
    ensures HarvestStep(old(tb.rows)[i], tb.rows[i], q, kx.book)
    ensures tb.rows[i] != old(tb.rows)[i] ==> Backed(old(tb.rows)[i], positions, stopped)
    ensures var row := old(tb.rows)[i];
            stopped' == if row.stopTxid.Some? && tb.rows[i].stopTxid.None?
                        then stopped[row.sym := At(stopped, row.sym) - row.vol] else stopped
    ensures kx.calm ==> OnlyTouched(old(kx.book), kx.book, old(tb.rows)[i].stopTxid)
    ensures kx.calm && Ready(old(tb.rows)[i], q, old(kx.book)) && Backed(old(tb.rows)[i], positions, stopped)
            ==> tb.rows[i].closeTxid.Some?
  {
    hide Inv, Grew, MakerSell, TickRound, Long;
    GrewReflexive(kx.book);
    stopped' := stopped;
    ghost var before := kx.book;
    var row := tb.rows[i];
    if q.None? || q.value.bid <= row.entry * FLOOR_MULT {
      return;
    }
    if !Backed(row, positions, stopped) {
      return;
    }
    if row.stopTxid.Some? {
      var ok := CancelOrder(tb, kx, row.stopTxid.value);
      if !ok {
        return;
      }
      DropStop(tb, kx, i);
      stopped' := stopped[row.sym := At(stopped, row.sym) - row.vol];
    }
    Ratchet(tb, kx, i, q.value.bid);
    var px := MakerSell(q.value.bid, q.value.ask);
    if px.None? {
      return;
    }
    ghost var mid := kx.book;
    var placed := RestClose(tb, kx, i, px.value as real);
    GrewTransitive(before, mid, kx.book);
    if row.stopTxid.Some? {
      CanceledLasts(mid, kx.book, row.stopTxid.value);
    }
  }

  lemma CanceledLasts(was: Book, now: Book, t: Txid)
    requires Grew(was, now) && t < |was| && was[t].status.Canceled?
    ensures t < |now| && now[t].status.Canceled?
  {
  }

  lemma HarvestStepLasts(was: Row, now: Row, q: Option<Quote>, mid: Book, book: Book)
    requires HarvestStep(was, now, q, mid) && Grew(mid, book)
    ensures HarvestStep(was, now, q, book)
  {
  }

  function QuoteOf(quotes: map<Pair, Quote>, p: Pair): Option<Quote> {
    if p in quotes then Some(quotes[p]) else None
  }

  /** The long volume that was read backs the row beside its siblings' stops. */
  ghost predicate BackedBy(rows: seq<Row>, i: nat, read: Option<Positions>)
    requires i < |rows|
  {
    && read.Some?
    && rows[i].vol <= Long(read.value, rows[i].sym)
                      - (StoppedVol(rows, rows[i].sym) - if rows[i].stopTxid.Some? then rows[i].vol else 0)
  }

  /** The start pass after its first `n` rungs: only these change, each by a harvest step, and
      only if the long volume that was read backs it beside its siblings' stops. */
  ghost predicate Started(before: seq<Row>, after: seq<Row>, cands: seq<nat>, n: nat, read: Option<Positions>,
                          quotes: map<Pair, Quote>, book: Book)
  {
    && |after| == |before|
    && forall i :: 0 <= i < |before| ==>
                     if i in cands[..Min(n, |cands|)]
                     then HarvestStep(before[i], after[i], QuoteOf(quotes, before[i].sym), book)
                          && (after[i] != before[i] ==> BackedBy(before, i, read))
                     else after[i] == before[i]
  }

  /** Every one of the first `n` rungs that is ready and backed has its sell. */
  ghost predicate StartedAll(before: seq<Row>, after: seq<Row>, cands: seq<nat>, n: nat, read: Option<Positions>,
                             quotes: map<Pair, Quote>, book: Book)
    requires |after| == |before|
  {
    forall a :: 0 <= a < |cands| && a < n && cands[a] < |before|
                && Ready(before[cands[a]], QuoteOf(quotes, before[cands[a]].sym), book) && BackedBy(before, cands[a], read) ==>
                  after[cands[a]].closeTxid.Some?
  }

  /** The stops of the rungs still to come are as they were. */
  ghost predicate StopsAsWere(rows: seq<Row>, cands: seq<nat>, n: nat, before: Book, book: Book) {
    forall a :: n <= a < |cands| && cands[a] < |rows| && rows[cands[a]].stopTxid.Some?
                && rows[cands[a]].stopTxid.value < |before| ==>
                  rows[cands[a]].stopTxid.value < |book|
                  && book[rows[cands[a]].stopTxid.value] == before[rows[cands[a]].stopTxid.value]
  }

  lemma StoppedCovers(rows: seq<Row>, i: nat)
    requires i < |rows| && rows[i].status.RowOpen? && rows[i].stopTxid.Some?
    ensures rows[i].vol <= StoppedVol(rows, rows[i].sym)
  {
    var vols := StoppedVols(rows, rows[i].sym);
    SumNonNegative(vols);
    assert vols[i] == rows[i].vol;
  }

  lemma StartedStep(before: seq<Row>, now: seq<Row>, cands: seq<nat>, n: nat, read: Option<Positions>,
                    quotes: map<Pair, Quote>, mid: Book, now': seq<Row>, book: Book)
    requires n < |cands| && Started(before, now, cands, n, read, quotes, mid) && Grew(mid, book)
    requires cands[n] < |before| && cands[n] !in cands[..n]
    requires |now'| == |now| && now' == now[cands[n] := now'[cands[n]]]
    requires HarvestStep(before[cands[n]], now'[cands[n]], QuoteOf(quotes, before[cands[n]].sym), book)
    requires now'[cands[n]] != before[cands[n]] ==> BackedBy(before, cands[n], read)
    ensures Started(before, now', cands, n + 1, read, quotes, book)
  {
    hide HarvestStep, BackedBy;
    assert cands[..n + 1] == cands[..n] + [cands[n]];
    forall i | 0 <= i < |before| && i in cands[..n]
      ensures HarvestStep(before[i], now'[i], QuoteOf(quotes, before[i].sym), book)
    {
      HarvestStepLasts(before[i], now[i], QuoteOf(quotes, before[i].sym), mid, book);
    }
  }

  lemma StartedAllStep(before: seq<Row>, now: seq<Row>, cands: seq<nat>, n: nat, read: Option<Positions>,
                       quotes: map<Pair, Quote>, book: Book, mid: Book, now': seq<Row>)
    requires n < |cands| && |now| == |before| && StartedAll(before, now, cands, n, read, quotes, book)
    requires cands[n] < |before| && cands[n] !in cands[..n] && StopsAsWere(before, cands, n, book, mid)
    requires |now'| == |now| && now' == now[cands[n] := now'[cands[n]]]
    requires Ready(before[cands[n]], QuoteOf(quotes, before[cands[n]].sym), mid) && BackedBy(before, cands[n], read) ==>
               now'[cands[n]].closeTxid.Some?
    ensures StartedAll(before, now', cands, n + 1, read, quotes, book)
  {
    hide BackedBy, MakerSell;
    assert forall a :: 0 <= a < n ==> cands[a] in cands[..n];
  }

  /** No two rungs share a stop; on a closed account no two rows do. */
  ghost predicate StopsDiffer(rows: seq<Row>, cands: seq<nat>) {
    forall a, b :: 0 <= a < b < |cands| && cands[a] < |rows| && cands[b] < |rows| && rows[cands[a]].stopTxid.Some? ==>
                     rows[cands[a]].stopTxid != rows[cands[b]].stopTxid
  }

  lemma ClosedStopsDiffer(rows: seq<Row>, tags: Tags, book: Book, cands: seq<nat>)
    requires Inv(rows, tags, book) && Rungs(rows, cands)
    ensures StopsDiffer(rows, cands)
  {
    hide Inv;
    forall a, b | 0 <= a < b < |cands| && rows[cands[a]].stopTxid.Some?
      ensures rows[cands[a]].stopTxid != rows[cands[b]].stopTxid
    {
      assert rows[cands[a]].sym != rows[cands[b]].sym;
      ExitsDistinct(rows, tags, book, cands[a], cands[b]);
    }
  }

  lemma StopsAsWereStep(rows: seq<Row>, cands: seq<nat>, n: nat, before: Book, mid: Book, book: Book)
    requires n < |cands| && StopsAsWere(rows, cands, n, before, mid) && StopsDiffer(rows, cands)
    requires cands[n] < |rows| && OnlyTouched(mid, book, rows[cands[n]].stopTxid)
    ensures StopsAsWere(rows, cands, n + 1, before, book)
  {
  }

  /** The start pass after its first `n` rungs, with all it keeps. */
  ghost predicate Starting(rows: seq<Row>, now: seq<Row>, cands: seq<nat>, n: nat, read: Option<Positions>,
                           quotes: map<Pair, Quote>, before: Book, book: Book, calm: bool)
  {
    && Started(rows, now, cands, n, read, quotes, book)
    && (calm ==> StartedAll(rows, now, cands, n, read, quotes, before) && StopsAsWere(rows, cands, n, before, book))
  }

  lemma StartingFirst(rows: seq<Row>, cands: seq<nat>, read: Option<Positions>, quotes: map<Pair, Quote>, book: Book, calm: bool)
    ensures Starting(rows, rows, cands, 0, read, quotes, book, book, calm)
  {
  }

  lemma StartingSizes(rows: seq<Row>, now: seq<Row>, cands: seq<nat>, n: nat, read: Option<Positions>,
                      quotes: map<Pair, Quote>, before: Book, book: Book, calm: bool)
    requires Starting(rows, now, cands, n, read, quotes, before, book, calm) && n <= |cands|
    requires forall a, b :: 0 <= a < b < |cands| ==> cands[a] != cands[b]
    ensures |now| == |rows| && forall a :: n <= a < |cands| && cands[a] < |rows| ==> now[cands[a]] == rows[cands[a]]
  {
    hide HarvestStep, BackedBy, StartedAll, StopsAsWere;
  }

  /** The rungs of the pass are idle rows of different pairs. */
  ghost predicate Rungs(rows: seq<Row>, cands: seq<nat>) {
    && (forall a :: 0 <= a < |cands| ==> cands[a] < |rows| && rows[cands[a]].status.RowOpen? && rows[cands[a]].closeTxid.None?)
    && (forall a, b :: 0 <= a < b < |cands| ==> rows[cands[a]].sym != rows[cands[b]].sym)
  }

  lemma ChosenAreRungs(rows: seq<Row>, last: map<Pair, real>, cap: nat, cands: seq<nat>)
    requires Chosen(rows, last, cap, cands)
    ensures Rungs(rows, cands)
  {
    hide Ratio;
    forall a | 0 <= a < |cands| ensures cands[a] < |rows| && rows[cands[a]].status.RowOpen? && rows[cands[a]].closeTxid.None? {
      EligibleIsIdle(rows, cands[a], last);
    }
  }

  /** The next rung in its turn. */
  method StartNext(tb: Table, kx: Kraken, rows: seq<Row>, cands: seq<nat>, n: nat, positions: Positions,
                   stopped: map<Pair, nat>, quotes: map<Pair, Quote>, ghost before: Book, ghost calm: bool)
    returns (stopped': map<Pair, nat>)
    requires Sound(tb, kx) && n < |cands| && Rungs(rows, cands) && (calm ==> kx.calm && StopsDiffer(rows, cands))
    requires Starting(rows, tb.rows, cands, n, Some(positions), quotes, before, kx.book, calm)
    requires At(stopped, rows[cands[n]].sym) == StoppedVol(rows, rows[cands[n]].sym)
    modifies tb, kx`book, kx`safe, kx`trace
    ensures Sound(tb, kx) && Grew(old(kx.book), kx.book) && old(kx.trace) <= kx.trace
    ensures Starting(rows, tb.rows, cands, n + 1, Some(positions), quotes, before, kx.book, calm)
    ensures forall p :: p != rows[cands[n]].sym ==> At(stopped', p) == At(stopped, p)
  {
    hide Inv, Grew, HarvestStep, StoppedVol, Ready, OnlyTouched, StopsAsWere, Started, StartedAll, Long, StopsDiffer;
    var i := cands[n];
    ghost var now, mid := tb.rows, kx.book;
    StartingSizes(rows, now, cands, n, Some(positions), quotes, before, mid, calm);
    assert i !in cands[..n];
    if rows[i].stopTxid.Some? {
      StoppedCovers(rows, i);
    }
    stopped' := StartOne(tb, kx, i, QuoteOf(quotes, rows[i].sym), positions, stopped);
    assert Backed(rows[i], positions, stopped) <==> BackedBy(rows, i, Some(positions));
    StartedStep(rows, now, cands, n, Some(positions), quotes, mid, tb.rows, kx.book);
    if calm {
      StartedAllStep(rows, now, cands, n, Some(positions), quotes, before, mid, tb.rows);
      StopsAsWereStep(rows, cands, n, before, mid, kx.book);
    }
  }

  /** The first call of a stretch asked for the position. */
  ghost predicate PositionFirst(before: seq<Call>, after: seq<Call>, long: Option<Positions>) {
    |before| < |after| && after[|before|].AskedPositions? && after[|before|].long == long
  }

  lemma PositionFirstFrom(before: seq<Call>, long: Option<Positions>, at: Book, after: seq<Call>)
    requires before + [AskedPositions(long, at)] <= after
    ensures PositionFirst(before, after, long)
  {
    assert after[|before|] == (before + [AskedPositions(long, at)])[|before|];
  }

  /** Open new harvests: the best rung of each idle pair whose last price clears its target,
      best first, at most four a pass. Without a candidate nothing is asked; otherwise the
      position is read first, and only rungs it backs are started. When every call is answered,
      and no two chosen rungs share a stop, every one that is ready and backed gets its sell. */
  method HarvestStartNew(tb: Table, kx: Kraken, last: map<Pair, real>, quotes: map<Pair, Quote>)
    returns (ghost cands: seq<nat>, ghost read: Option<Positions>)
    requires Sound(tb, kx)
    modifies tb, kx`book, kx`safe, kx`trace
    ensures Sound(tb, kx) && Grew(old(kx.book), kx.book) && old(kx.trace) <= kx.trace
    ensures Chosen(old(tb.rows), last, 4, cands)
    ensures cands == [] ==> tb.rows == old(tb.rows) && kx.book == old(kx.book) && kx.trace == old(kx.trace)
    ensures cands != [] ==> PositionRead(kx.closed, old(kx.trace), kx.trace, old(kx.book), kx.book, read)
                            && PositionFirst(old(kx.trace), kx.trace, read)
    ensures Started(old(tb.rows), tb.rows, cands, |cands|, read, quotes, kx.book)
    ensures kx.calm && cands != [] ==> read.Some?
    ensures kx.calm && StopsDiffer(old(tb.rows), cands) ==>
              StartedAll(old(tb.rows), tb.rows, cands, |cands|, read, quotes, old(kx.book))
    ensures kx.closed ==> StopsDiffer(old(tb.rows), cands)
  {
    hide Inv, Grew, Chosen, Starting, StoppedVol, PositionRead, PositionFirst, Eligible, BestOfPair, StopsDiffer;
    ghost var b0, t0 := kx.book, kx.trace;
    GrewReflexive(b0);
    var rows := tb.rows;
    var best := BestRungs(rows, last);
    var chosen := Ranked(rows, last, best, MAX_PER_PASS);
    cands, read := chosen, None;
    ChosenAreRungs(rows, last, MAX_PER_PASS, chosen);
    if kx.closed {
      ClosedStopsDiffer(rows, tb.tags, b0, chosen);
    }
    ghost var calm := kx.calm && StopsDiffer(rows, chosen);
    if chosen == [] {
      StartingFirst(rows, chosen, None, quotes, b0, calm);
      StartingMeans(rows, rows, chosen, None, quotes, b0, b0, calm);
      return;
    }
    var positions := OpenPositions(tb, kx);
    ghost var b1, t1 := kx.book, kx.trace;
    GrewReflexive(b1);
    read := positions;
    if positions.None? {
      NothingStarted(rows, chosen, quotes, b1);
      PositionFirstFrom(t0, None, b1, kx.trace);
      return;
    }
    var stopped: map<Pair, nat> := StoppedByPair(rows);
    StartingFirst(rows, chosen, positions, quotes, b1, calm);
    for n := 0 to |chosen|
      invariant Sound(tb, kx) && Grew(b1, kx.book) && t1 <= kx.trace
      invariant Starting(rows, tb.rows, chosen, n, positions, quotes, b1, kx.book, calm)
      invariant forall a :: n <= a < |chosen| ==> At(stopped, rows[chosen[a]].sym) == StoppedVol(rows, rows[chosen[a]].sym)
    {
      ghost var mid := kx.book;
      stopped := StartNext(tb, kx, rows, chosen, n, positions.value, stopped, quotes, b1, calm);
      GrewTransitive(b1, mid, kx.book);
    }
    StartingMeans(rows, tb.rows, chosen, positions, quotes, b1, kx.book, calm);
    GrewTransitive(b0, b1, kx.book);
    PositionFirstFrom(t0, positions, b1, kx.trace);
    PositionReadWithin(kx.closed, t0, t0, t1, kx.trace, b0, b0, b1, kx.book, positions);
  }

  lemma StartingMeans(rows: seq<Row>, now: seq<Row>, cands: seq<nat>, read: Option<Positions>,
                      quotes: map<Pair, Quote>, before: Book, book: Book, calm: bool)
    requires Starting(rows, now, cands, |cands|, read, quotes, before, book, calm)
    ensures |now| == |rows| && Started(rows, now, cands, |cands|, read, quotes, book)
    ensures calm ==> StartedAll(rows, now, cands, |cands|, read, quotes, before)
  {
  }

  lemma EligibleIsIdle(rows: seq<Row>, i: nat, last: map<Pair, real>)
    requires i < |rows| && BestOfPair(rows, i, last, |rows|)
    ensures rows[i].status.RowOpen? && rows[i].closeTxid.None?
  {
  }

  lemma NothingStarted(rows: seq<Row>, cands: seq<nat>, quotes: map<Pair, Quote>, book: Book)
    ensures Started(rows, rows, cands, |cands|, None, quotes, book)
  {
  }
}

/** Protective stops: resting one, adopting one the ledger lost, and re-arming rows left
    without any. */
module Protect {
  import opened Wrappers
  import opened Sums
  import opened Exchange
  import opened Ledger
  import opened Broker
  import opened Prices

  /** An open row that no order protects any more: it has no close, and its stop, if one is
      recorded, ended without executing. */
  predicate Exposed(row: Row, book: Book) {
    && row.status.RowOpen? && row.closeTxid.None?
    && (row.stopTxid.Some? ==> row.stopTxid.value < |book| && book[row.stopTxid.value].Terminal()
                               && !book[row.stopTxid.value].status.Closed?)
  }

  lemma ExposedLasts(row: Row, was: Book, now: Book)
    requires Exposed(row, was) && Grew(was, now)
    ensures Exposed(row, now)
  {
  }

  lemma ExposedIsBare(rows: seq<Row>, tags: Tags, book: Book, i: nat)
    requires Inv(rows, tags, book) && i < |rows| && Exposed(rows[i], book)
    ensures Bare(rows[i], tags.entryOf[i], book) == rows[i].vol
  {
  }

  lemma InvDropStop(rows: seq<Row>, tags: Tags, book: Book, i: nat)
    requires Inv(rows, tags, book) && i < |rows| && rows[i].status.RowOpen? && rows[i].stopTxid.Some?
    requires var t := rows[i].stopTxid.value;
             t < |book| && book[t].Terminal() && !book[t].status.Closed?
    ensures Inv(rows[i := rows[i].(stopTxid := None)], tags, book)
  {
    assert RowOk(i, rows[i], tags.entryOf[i], tags.booked[i], tags, book);
    assert Conserves(i, rows[i], tags.booked[i], tags.own, book);
    SalesRelease(i, rows[i].stopTxid.value, tags.own, book);
    InvSetRow(rows, tags, book, i, rows[i].(stopTxid := None), tags.booked[i]);
    assert tags.booked[i := tags.booked[i]] == tags.booked;
  }

  /** Forget a stop that ended without executing. */
  method DropStop(tb: Table, kx: Kraken, i: nat)
    requires Sound(tb, kx) && i < |tb.rows| && Exposed(tb.rows[i], kx.book)
    modifies tb
    ensures Sound(tb, kx)
    ensures tb.rows == old(tb.rows)[i := old(tb.rows)[i].(stopTxid := None)]
  {
    hide Inv;
    var row := tb.rows[i];
    if kx.closed && row.stopTxid.Some? {
      InvDropStop(tb.rows, tb.tags, kx.book, i);
    }
    assert row.stopTxid.None? ==> tb.rows[i := row.(stopTxid := None)] == tb.rows;
    tb.rows := tb.rows[i := row.(stopTxid := None)];
  }

  /** Rest a row's protective stop and record its txid; on failure the row stays as it is. */
  method RestStop(tb: Table, kx: Kraken, i: nat, level: real) returns (placed: Option<Txid>)
    requires Sound(tb, kx) && i < |tb.rows| && Exposed(tb.rows[i], kx.book)
    modifies tb, kx`book, kx`safe, kx`trace
    ensures Sound(tb, kx) && Grew(old(kx.book), kx.book) && old(kx.trace) <= kx.trace
    ensures tb.rows == if placed.Some? then old(tb.rows)[i := old(tb.rows)[i].(stopTxid := placed)]
                       else old(tb.rows)
    ensures placed.Some? ==>
              && |old(kx.book)| <= placed.value == |kx.book| - 1
              && kx.book[placed.value]
                 == NewOrder(old(tb.rows)[i].sym, Sell, StopLoss, TickRound(level) as real, old(tb.rows)[i].vol, 0)
    ensures kx.calm ==> (placed.Some? <==> 0 < old(tb.rows)[i].vol)
    ensures kx.calm ==> kx.book == if placed.None? then old(kx.book) else old(kx.book) + [kx.book[|kx.book| - 1]]
    ensures kx.trace == old(kx.trace)
                        + [SentOrder(NewOrder(old(tb.rows)[i].sym, Sell, StopLoss, TickRound(level) as real,
                                              old(tb.rows)[i].vol, 0), placed, kx.book)]
  {
    hide Free, Covered, BookOk;
    var row := tb.rows[i];
    ghost var rows, tags, was := tb.rows, tb.tags, kx.book;
    ghost var es;
    if kx.closed {
      InvCovered(rows, tags, was);
    }
    placed, es := kx.AddSell(row.sym, StopLoss, TickRound(level) as real, row.vol);
    if kx.closed {
      InvPlay(rows, tags, was, es);
      PlayGrew(was, es);
      ExposedLasts(row, was, Play(was, es));
      ExposedIsBare(rows, tags, was, i);
      ExposedIsBare(rows, tags, Play(was, es), i);
    }
    if placed.Some? {
      tb.rows := tb.rows[i := row.(stopTxid := placed)];
      if kx.closed {
        InvRestExit(rows, tags, Play(was, es), i, row.(stopTxid := placed), StopLoss, TickRound(level) as real);
        tb.tags := tags.(own := tags.own + [i]);
      }
    }
  }

  // ── adopting a resting stop ─────────────────────────────────────────────────

  function Gap(a: nat, b: nat): nat {
    if a < b then b - a else a - b
  }

  /** Closest volume first, then the smaller txid. */
  predicate Nearer(t: Txid, u: Txid, oo: map<Txid, Order>, want: nat)
    requires t in oo && u in oo
  {
    Gap(oo[t].vol, want) < Gap(oo[u].vol, want) || (Gap(oo[t].vol, want) == Gap(oo[u].vol, want) && t <= u)
  }

  predicate Adoptable(t: Txid, oo: map<Txid, Order>, claimed: set<Txid>, pair: Pair) {
    && t in oo && t !in claimed
    && oo[t].side.Sell? && oo[t].kind.StopLoss? && oo[t].pair == pair
  }

  ghost predicate NoneAdoptable(open: Option<map<Txid, Order>>, claimed: set<Txid>) {
    open.Some? ==> forall t, p :: t in open.value ==> !Adoptable(t, open.value, claimed, p)
  }

  lemma NoneAdoptableGrows(open: Option<map<Txid, Order>>, claimed: set<Txid>, claimed': set<Txid>)
    requires NoneAdoptable(open, claimed) && claimed <= claimed'
    ensures NoneAdoptable(open, claimed')
  {
    if open.Some? {
      forall t, p | t in open.value ensures !Adoptable(t, open.value, claimed', p) {
        assert !Adoptable(t, open.value, claimed, p);
      }
    }
  }

  method FindAdoptableStop(open: Option<map<Txid, Order>>, claimed: set<Txid>, pair: Pair, want: nat)
    returns (r: Option<Txid>)
    ensures r.None? ==> open.None? || forall t :: t in open.value ==> !Adoptable(t, open.value, claimed, pair)
    ensures r.Some? ==> open.Some? && Adoptable(r.value, open.value, claimed, pair)
    ensures r.Some? ==>
              forall u :: u in open.value && Adoptable(u, open.value, claimed, pair)
                          ==> Nearer(r.value, u, open.value, want)
  {
    r := None;
    if open.None? {
      return;
    }
    var oo := open.value;
    var rest := oo.Keys;
    var best := 0;
    while rest != {}
      invariant rest <= oo.Keys
      invariant r.Some? ==> Adoptable(r.value, oo, claimed, pair) && best == Gap(oo[r.value].vol, want)
      invariant r.None? ==> forall u :: u in oo && u !in rest ==> !Adoptable(u, oo, claimed, pair)
      invariant r.Some? ==> forall u :: u in oo && u !in rest && Adoptable(u, oo, claimed, pair)
                                        ==> Nearer(r.value, u, oo, want)
      decreases rest
    {
      var t :| t in rest;
      rest := rest - {t};
      var o := oo[t];
      if t !in claimed && o.side.Sell? && o.kind.StopLoss? && o.pair == pair {
        var gap := if want < o.vol then o.vol - want else want - o.vol;
        if r.None? || gap < best || (gap == best && t < r.value) {
          r, best := Some(t), gap;
        }
      }
    }
  }

  // ── re-arming naked rows ────────────────────────────────────────────────────

  function StoppedIn(row: Row, p: Pair): nat {
    if row.status.RowOpen? && row.stopTxid.Some? && row.sym == p then row.vol else 0
  }

  function StoppedVols(rows: seq<Row>, p: Pair): seq<int> {
    seq(|rows|, i requires 0 <= i < |rows| => StoppedIn(rows[i], p))
  }

  /** Volume the ledger commits to resting stops of a pair. */
  function StoppedVol(rows: seq<Row>, p: Pair): int {
    Sum(StoppedVols(rows, p))
  }

  function At(m: map<Pair, nat>, p: Pair): nat {
    if p in m then m[p] else 0
  }

  method StoppedByPair(rows: seq<Row>) returns (m: map<Pair, nat>)
    ensures forall p: Pair :: At(m, p) == StoppedVol(rows, p)
  {
    m := map[];
    for k := 0 to |rows|
      invariant forall p: Pair :: At(m, p) == Sum(StoppedVols(rows[..k], p))
    {
      var row := rows[k];
      ghost var was := m;
      if row.status.RowOpen? && row.stopTxid.Some? {
        m := m[row.sym := At(m, row.sym) + row.vol];
      }
      forall p: Pair ensures At(m, p) == Sum(StoppedVols(rows[..k + 1], p)) {
        assert StoppedVols(rows[..k + 1], p) == StoppedVols(rows[..k], p) + [StoppedIn(row, p)];
        SumPush(StoppedVols(rows[..k], p), StoppedIn(row, p));
        assert At(was, p) == Sum(StoppedVols(rows[..k], p));
      }
    }
    assert rows[..|rows|] == rows;
  }

  lemma ClaimedIs(rows: seq<Row>)
    ensures Claimed(rows) == set i | 0 <= i < |rows| && rows[i].stopTxid.Some? :: rows[i].stopTxid.value
  {
  }

  lemma StopAdds(rows: seq<Row>, i: nat, t: Txid, p: Pair)
    requires i < |rows| && rows[i].Naked()
    ensures StoppedVol(rows[i := rows[i].(stopTxid := Some(t))], p)
            == StoppedVol(rows, p) + if rows[i].sym == p then rows[i].vol else 0
  {
    SumPoint(StoppedVols(rows, p), StoppedVols(rows[i := rows[i].(stopTxid := Some(t))], p), i);
  }

  function Claimed(rows: seq<Row>): set<Txid> {
    set i | 0 <= i < |rows| && rows[i].stopTxid.Some? :: rows[i].stopTxid.value
  }

  function OpenClaims(rows: seq<Row>): set<Txid> {
    set i | 0 <= i < |rows| && rows[i].status.RowOpen? && rows[i].stopTxid.Some? :: rows[i].stopTxid.value
  }

  /** In a closed system every resting stop is some open row's: there is nothing to adopt. */
  lemma NothingToAdopt(rows: seq<Row>, tags: Tags, book: Book, oo: map<Txid, Order>)
    requires Inv(rows, tags, book)
    requires forall t :: t in oo ==> t < |book| && oo[t] == book[t] && book[t].status.Resting?
    ensures NoneAdoptable(Some(oo), OpenClaims(rows))
    ensures OpenClaims(rows) <= Claimed(rows)
  {
    forall t | t in oo && oo[t].side.Sell? && oo[t].kind.StopLoss?
      ensures exists i :: 0 <= i < |rows| && rows[i].status.RowOpen? && rows[i].stopTxid == Some(t)
    {
      assert OrderOwned(t, rows, tags, book);
      var i := tags.own[t];
      assert RowOk(i, rows[i], tags.entryOf[i], tags.booked[i], tags, book);
      assert rows[i].status.RowOpen? && rows[i].stopTxid == Some(t);
    }
  }

  /** `now` is `was`, except that a row without any exit may have got a stop recorded. */
  predicate Armed(was: Row, now: Row) {
    was.Naked() && now.stopTxid.Some? && now == was.(stopTxid := now.stopTxid)
  }

  ghost predicate OnlyArmed(before: seq<Row>, after: seq<Row>) {
    && |after| == |before|
    && forall i :: 0 <= i < |before| ==> after[i] == before[i] || Armed(before[i], after[i])
  }

  /** The sell stop a row calls for: its pair and volume, at its protective level. */
  predicate StopFor(o: Order, row: Row) {
    StopAt(o, row, row.StopLevel())
  }

  predicate StopAt(o: Order, row: Row, level: real) {
    && o.side.Sell? && o.kind.StopLoss? && o.pair == row.sym && o.vol == row.vol
    && o.price == TickRound(level) as real
  }

  /** Where a newly recorded stop came from: found resting on the row's pair with no ledger row
      claiming it, or else placed for the row. */
  ghost predicate ArmedBy(row: Row, t: Txid, book: Book, open: Option<map<Txid, Order>>, claimed: set<Txid>) {
    && t < |book|
    && (if open.Some? && t in open.value then Adoptable(t, open.value, claimed, row.sym) else StopFor(book[t], row))
  }

  /** No stop that was shown on the pair is unclaimed. */
  ghost predicate NoneFor(open: Option<map<Txid, Order>>, claimed: set<Txid>, p: Pair) {
    open.Some? ==> forall t :: t in open.value ==> !Adoptable(t, open.value, claimed, p)
  }

  lemma NoneForGrows(open: Option<map<Txid, Order>>, claimed: set<Txid>, claimed': set<Txid>, p: Pair)
    requires NoneFor(open, claimed, p) && claimed <= claimed'
    ensures NoneFor(open, claimed', p)
  {
    if open.Some? {
      forall t | t in open.value ensures !Adoptable(t, open.value, claimed', p) {
        assert !Adoptable(t, open.value, claimed, p);
      }
    }
  }

  predicate AnyNaked(rows: seq<Row>) {
    exists i :: 0 <= i < |rows| && rows[i].Naked()
  }

  /** What recording a stop means for the claims: an adopted one is claimed from now on; a placed
      one is new, and comes only when nothing on the pair was left to adopt. */
  ghost predicate ClaimsMove(was: Row, now: Row, open: Option<map<Txid, Order>>, claimed: set<Txid>, claimed': set<Txid>,
                            bound: nat)
  {
    if now == was then claimed' == claimed
    else
      && now.stopTxid.Some?
      && (if open.Some? && now.stopTxid.value in open.value
          then claimed' == claimed + {now.stopTxid.value} && now.stopTxid.value !in claimed
          else claimed' == claimed && bound <= now.stopTxid.value && NoneFor(open, claimed, was.sym))
  }

  /** One naked row: left alone unless the long volume that was read covers it on top of
      what sibling stops already commit; then a lost stop is adopted, else one is rested. */
  method RearmOne(tb: Table, kx: Kraken, i: nat, open: Option<map<Txid, Order>>, claimed: set<Txid>,
                  positions: Positions, stopped: map<Pair, nat>)
    returns (claimed': set<Txid>, stopped': map<Pair, nat>)
    requires Sound(tb, kx) && i < |tb.rows| && tb.rows[i].Naked()
    requires open.Some? ==> forall t :: t in open.value ==> t < |kx.book|
    requires kx.closed ==> NoneAdoptable(open, claimed)
    modifies tb, kx`book, kx`safe, kx`trace
    ensures Sound(tb, kx) && Grew(old(kx.book), kx.book) && old(kx.trace) <= kx.trace
    ensures |tb.rows| == |old(tb.rows)|
    ensures ClaimsMove(old(tb.rows)[i], tb.rows[i], open, claimed, claimed', |old(kx.book)|)
    ensures var row := old(tb.rows)[i];
            if Long(positions, row.sym) - At(stopped, row.sym) < row.vol then
              tb.rows == old(tb.rows) && stopped' == stopped
            else
              && stopped' == stopped[row.sym := At(stopped, row.sym) + row.vol]
              && |tb.rows| == |old(tb.rows)| && tb.rows == old(tb.rows)[i := tb.rows[i]]
              && (tb.rows[i] == row || (Armed(row, tb.rows[i])
                                        && ArmedBy(row, tb.rows[i].stopTxid.value, kx.book, open, claimed)))
              && (kx.calm && 0 < row.vol ==> tb.rows[i] != row)
  {
    var row := tb.rows[i];
    claimed', stopped' := claimed, stopped;
    if Long(positions, row.sym) - At(stopped, row.sym) < row.vol {
      return;
    }
    var adopt := FindAdoptableStop(open, claimed, row.sym, row.vol);
    if adopt.Some? {
      tb.rows := tb.rows[i := row.(stopTxid := adopt)];
      claimed' := claimed + {adopt.value};
      assert ArmedBy(row, adopt.value, kx.book, open, claimed);
    } else {
      ghost var bound := |kx.book|;
      var level := if row.stopProt.Some? then row.stopProt.value else row.stop;
      var placed := RestStop(tb, kx, i, level);
      assert placed.Some? && open.Some? ==> placed.value !in open.value;
      assert placed.Some? ==> ArmedBy(row, placed.value, kx.book, open, claimed);
    }
    stopped' := stopped[row.sym := At(stopped, row.sym) + row.vol];
  }

  /** The running tally of a pair is at least, and when every stop landed exactly, what
      the ledger commits to stops there. */
  ghost predicate Tallied(stopped: map<Pair, nat>, rows: seq<Row>, calm: bool, p: Pair) {
    StoppedVol(rows, p) <= At(stopped, p) && (calm ==> StoppedVol(rows, p) == At(stopped, p))
  }

  lemma RearmVolumes(now: seq<Row>, i: nat, row': Row, stopped: map<Pair, nat>, calm: bool, p: Pair)
    requires i < |now| && (row' == now[i] || Armed(now[i], row'))
    requires calm && 0 < now[i].vol ==> row' != now[i]
    requires Tallied(stopped, now, calm, p)
    ensures Tallied(stopped[now[i].sym := At(stopped, now[i].sym) + now[i].vol], now[i := row'], calm, p)
  {
    if row' != now[i] {
      StopAdds(now, i, row'.stopTxid.value, p);
    } else {
      assert now[i := row'] == now;
    }
  }

  ghost predicate Untouched(rows: seq<Row>, now: seq<Row>, n: nat) {
    |now| == |rows| && forall i :: n <= i < |rows| ==> now[i] == rows[i]
  }

  /** The re-arm pass after the first `n` rows. */
  ghost predicate RearmSoFar(rows: seq<Row>, now: seq<Row>, n: nat, positions: Positions, stopped: map<Pair, nat>,
                             claimed: set<Txid>, book: Book, open: Option<map<Txid, Order>>, calm: bool)
  {
    && OnlyArmed(rows, now)
    && Untouched(rows, now, n)
    && (forall i :: 0 <= i < |rows| && now[i] != rows[i] ==>
                      && ArmedBy(rows[i], now[i].stopTxid.value, book, open, Claimed(rows))
                      && At(stopped, rows[i].sym) <= Long(positions, rows[i].sym))
    && (forall p: Pair :: Tallied(stopped, now, calm, p))
    && (calm ==> forall i :: 0 <= i < |rows| && i < n && now[i].Naked() && 0 < now[i].vol ==>
                               Long(positions, now[i].sym) < At(stopped, now[i].sym) + now[i].vol)
    && Claimed(rows) <= claimed <= Claimed(now)
    && NoneShared(rows, now, claimed, open)
  }

  /** No two rows got the same stop; and every stop that got recorded is claimed if it had been
      shown, or else came when all that had been shown on its pair were claimed. */
  ghost predicate NoneShared(rows: seq<Row>, now: seq<Row>, claimed: set<Txid>, open: Option<map<Txid, Order>>)
    requires |now| == |rows|
  {
    && (forall i, j :: 0 <= i < j < |rows| && now[i] != rows[i] && now[j] != rows[j] ==> now[i].stopTxid != now[j].stopTxid)
    && (forall i :: 0 <= i < |rows| && now[i] != rows[i] ==>
                      && now[i].stopTxid.Some?
                      && (if open.Some? && now[i].stopTxid.value in open.value then now[i].stopTxid.value in claimed
                          else NoneFor(open, claimed, rows[i].sym)))
  }

  lemma NoneSharedStep(rows: seq<Row>, now: seq<Row>, i: nat, claimed: set<Txid>, open: Option<map<Txid, Order>>,
                       row: Row, claimed': set<Txid>, bound: nat)
    requires i < |rows| == |now| && now[i] == rows[i] && NoneShared(rows, now, claimed, open)
    requires forall j :: 0 <= j < |rows| && now[j] != rows[j] ==> now[j].stopTxid.value < bound
    requires ClaimsMove(rows[i], row, open, claimed, claimed', bound)
    ensures NoneShared(rows, now[i := row], claimed', open)
  {
    hide NoneFor;
    forall j | 0 <= j < |rows| && NoneFor(open, claimed, rows[j].sym) ensures NoneFor(open, claimed', rows[j].sym) {
      NoneForGrows(open, claimed, claimed', rows[j].sym);
    }
  }

  lemma ClaimedStep(rows: seq<Row>, now: seq<Row>, i: nat, row: Row, open: Option<map<Txid, Order>>, claimed: set<Txid>,
                    claimed': set<Txid>, bound: nat)
    requires i < |now| && now[i].Naked() && claimed <= Claimed(now)
    requires ClaimsMove(now[i], row, open, claimed, claimed', bound)
    ensures claimed' <= Claimed(now[i := row])
    ensures claimed <= claimed'
  {
    hide NoneFor;
    var after := now[i := row];
    forall t | t in Claimed(now) ensures t in Claimed(after) {
      var j :| 0 <= j < |now| && now[j].stopTxid.Some? && now[j].stopTxid.value == t;
      assert after[j] == now[j];
    }
    if row != now[i] {
      assert after[i].stopTxid.Some?;
    }
  }

  lemma ArmedByLasts(row: Row, t: Txid, book: Book, book': Book, open: Option<map<Txid, Order>>, claimed: set<Txid>,
                     claimed': set<Txid>)
    requires ArmedBy(row, t, book, open, claimed) && Grew(book, book') && claimed' <= claimed
    ensures ArmedBy(row, t, book', open, claimed')
  {
  }

  lemma RearmSkip(rows: seq<Row>, now: seq<Row>, i: nat, positions: Positions, stopped: map<Pair, nat>,
                  claimed: set<Txid>, book: Book, open: Option<map<Txid, Order>>, book': Book, calm: bool)
    requires i < |rows| && RearmSoFar(rows, now, i, positions, stopped, claimed, book, open, calm) && Grew(book, book')
    requires rows[i].Naked() ==> Long(positions, rows[i].sym) < At(stopped, rows[i].sym) + rows[i].vol
    ensures RearmSoFar(rows, now, i + 1, positions, stopped, claimed, book', open, calm)
  {
    hide NoneShared, Claimed;
    forall j | 0 <= j < |rows| && now[j] != rows[j]
      ensures ArmedBy(rows[j], now[j].stopTxid.value, book', open, Claimed(rows))
    {
      ArmedByLasts(rows[j], now[j].stopTxid.value, book, book', open, Claimed(rows), Claimed(rows));
    }
  }

  lemma RearmStep(rows: seq<Row>, now: seq<Row>, i: nat, positions: Positions, stopped: map<Pair, nat>,
                  claimed: set<Txid>, book: Book, open: Option<map<Txid, Order>>, now': seq<Row>,
                  stopped': map<Pair, nat>, claimed': set<Txid>, book': Book, calm: bool)
    requires i < |rows| && RearmSoFar(rows, now, i, positions, stopped, claimed, book, open, calm)
    requires rows[i].Naked() && Grew(book, book')
    requires rows[i].vol <= Long(positions, rows[i].sym) - At(stopped, rows[i].sym)
    requires |now'| == |now| && now' == now[i := now'[i]]
    requires stopped' == stopped[rows[i].sym := At(stopped, rows[i].sym) + rows[i].vol]
    requires now'[i] == rows[i]
             || (Armed(rows[i], now'[i]) && ArmedBy(rows[i], now'[i].stopTxid.value, book', open, claimed))
    requires ClaimsMove(rows[i], now'[i], open, claimed, claimed', |book|)
    requires calm && 0 < rows[i].vol ==> now'[i] != rows[i]
    ensures RearmSoFar(rows, now', i + 1, positions, stopped', claimed', book', open, calm)
  {
    hide NoneShared, Claimed, ClaimsMove, StoppedVol;
    forall p: Pair ensures Tallied(stopped', now', calm, p) {
      RearmVolumes(now, i, now'[i], stopped, calm, p);
    }
    NoneSharedStep(rows, now, i, claimed, open, now'[i], claimed', |book|);
    ClaimedStep(rows, now, i, now'[i], open, claimed, claimed', |book|);
    forall j | 0 <= j < |rows| && now'[j] != rows[j]
      ensures ArmedBy(rows[j], now'[j].stopTxid.value, book', open, Claimed(rows))
    {
      if j == i {
        ArmedByLasts(rows[i], now'[i].stopTxid.value, book', book', open, claimed, Claimed(rows));
      } else {
        ArmedByLasts(rows[j], now[j].stopTxid.value, book, book', open, Claimed(rows), Claimed(rows));
      }
    }
  }

  /** The outcome of a re-arm pass: only naked rows changed, each got a stop of its own, found
      unclaimed on its pair or placed for it; it was placed only if every stop shown on the
      pair is some row's; and wherever one was armed all volume the ledger commits to stops is
      within the long volume that was read. */
  ghost predicate Rearmed(before: seq<Row>, after: seq<Row>, read: Option<Positions>,
                          open: Option<map<Txid, Order>>, book: Book)
  {
    && OnlyArmed(before, after)
    && NoneShared(before, after, Claimed(after), open)
    && forall i :: 0 <= i < |before| && after[i] != before[i] ==>
                     && ArmedBy(before[i], after[i].stopTxid.value, book, open, Claimed(before))
                     && read.Some?
                     && StoppedVol(after, after[i].sym) <= Long(read.value, after[i].sym)
  }

  /** Rows left naked are those the long volume that was read does not back. */
  ghost predicate NakedUnbacked(rows: seq<Row>, read: Option<Positions>) {
    forall i :: 0 <= i < |rows| && rows[i].Naked() && 0 < rows[i].vol ==>
                  read.Some? && Long(read.value, rows[i].sym) < StoppedVol(rows, rows[i].sym) + rows[i].vol
  }

  lemma RearmDone(rows: seq<Row>, now: seq<Row>, positions: Positions, stopped: map<Pair, nat>, claimed: set<Txid>,
                  book: Book, open: Option<map<Txid, Order>>, calm: bool)
    requires RearmSoFar(rows, now, |rows|, positions, stopped, claimed, book, open, calm)
    ensures Rearmed(rows, now, Some(positions), open, book)
    ensures calm ==> NakedUnbacked(now, Some(positions))
  {
    hide StoppedVol, Claimed, ArmedBy, NoneFor;
    forall i | 0 <= i < |rows| ensures Tallied(stopped, now, calm, rows[i].sym) {
    }
    forall i | 0 <= i < |rows| && NoneFor(open, claimed, rows[i].sym) ensures NoneFor(open, Claimed(now), rows[i].sym) {
      NoneForGrows(open, claimed, Claimed(now), rows[i].sym);
    }
  }

  lemma RearmNothing(rows: seq<Row>, read: Option<Positions>, open: Option<map<Txid, Order>>, book: Book)
    ensures Rearmed(rows, rows, read, open, book)
    ensures !AnyNaked(rows) ==> NakedUnbacked(rows, read)
  {
  }

  lemma RearmStart(rows: seq<Row>, positions: Positions, stopped: map<Pair, nat>, book: Book,
                   open: Option<map<Txid, Order>>, calm: bool)
    requires forall p: Pair :: At(stopped, p) == StoppedVol(rows, p)
    ensures RearmSoFar(rows, rows, 0, positions, stopped, Claimed(rows), book, open, calm)
  {
  }

  lemma ClaimsOnlyGrow(was: Row, now: Row, open: Option<map<Txid, Order>>, claimed: set<Txid>, claimed': set<Txid>,
                       bound: nat)
    requires ClaimsMove(was, now, open, claimed, claimed', bound)
    ensures claimed <= claimed'
  {
  }

  method RearmAll(tb: Table, kx: Kraken, open: Option<map<Txid, Order>>, claims: set<Txid>, positions: Positions,
                  committed: map<Pair, nat>)
    requires Sound(tb, kx) && claims == Claimed(tb.rows)
    requires open.Some? ==> forall t :: t in open.value ==> t < |kx.book|
    requires kx.closed ==> NoneAdoptable(open, claims)
    requires forall p: Pair :: At(committed, p) == StoppedVol(tb.rows, p)
    modifies tb, kx`book, kx`safe, kx`trace
    ensures Sound(tb, kx) && Grew(old(kx.book), kx.book) && old(kx.trace) <= kx.trace
    ensures Rearmed(old(tb.rows), tb.rows, Some(positions), open, kx.book)
    ensures kx.calm ==> NakedUnbacked(tb.rows, Some(positions))
  {
    hide Inv, Grew, Rearmed, NakedUnbacked, ArmedBy, RearmSoFar, StoppedVol, Claimed, NoneFor;
    GrewReflexive(kx.book);
    var rows, claimed, stopped := tb.rows, claims, committed;
    RearmStart(rows, positions, stopped, kx.book, open, kx.calm);
    for i := 0 to |rows|
      invariant Sound(tb, kx) && Grew(old(kx.book), kx.book) && old(kx.trace) <= kx.trace && |old(kx.book)| <= |kx.book|
      invariant RearmSoFar(rows, tb.rows, i, positions, stopped, claimed, kx.book, open, kx.calm)
      invariant Untouched(rows, tb.rows, i)
      invariant claimed >= claims
    {
      ghost var now, was, held, grown := tb.rows, stopped, claimed, kx.book;
      if rows[i].status.RowOpen? && rows[i].stopTxid.None? && rows[i].closeTxid.None? {
        if kx.closed {
          NoneAdoptableGrows(open, claims, claimed);
        }
        claimed, stopped := RearmOne(tb, kx, i, open, claimed, positions, stopped);
        GrewTransitive(old(kx.book), grown, kx.book);
        if rows[i].vol <= Long(positions, rows[i].sym) - At(was, rows[i].sym) {
          RearmStep(rows, now, i, positions, was, held, grown, open, tb.rows, stopped, claimed, kx.book, kx.calm);
          ClaimsOnlyGrow(rows[i], tb.rows[i], open, held, claimed, |grown|);
        } else {
          RearmSkip(rows, now, i, positions, was, held, grown, open, kx.book, kx.calm);
        }
      } else {
        GrewReflexive(grown);
        RearmSkip(rows, now, i, positions, was, held, grown, open, kx.book, kx.calm);
      }
    }
    RearmDone(rows, tb.rows, positions, stopped, claimed, kx.book, open, kx.calm);
  }

  /** The first two calls of a stretch read the resting orders and then the position. */
  ghost predicate OrdersThenPosition(before: seq<Call>, after: seq<Call>, open: Option<map<Txid, Order>>,
                                     long: Option<Positions>)
  {
    && before <= after && |before| + 2 <= |after|
    && after[|before|].AskedOrders? && after[|before|].open == open
    && after[|before| + 1].AskedPositions? && after[|before| + 1].long == long
  }

  lemma OrdersThenPositionFrom(before: seq<Call>, after: seq<Call>, open: Option<map<Txid, Order>>, b1: Book,
                               long: Option<Positions>, b2: Book)
    requires before + [AskedOrders(open, b1)] + [AskedPositions(long, b2)] <= after
    ensures OrdersThenPosition(before, after, open, long)
  {
    var mid := before + [AskedOrders(open, b1)] + [AskedPositions(long, b2)];
    assert after[|before|] == mid[|before|] && after[|before| + 1] == mid[|before| + 1];
  }

  /** The rows a re-arm pass would look at, if there are any. */
  method HasNaked(rows: seq<Row>) returns (found: bool)
    ensures found <==> AnyNaked(rows)
  {
    found := false;
    for i := 0 to |rows|
      invariant found <==> exists j :: 0 <= j < i && rows[j].Naked()
    {
      if rows[i].status.RowOpen? && rows[i].stopTxid.None? && rows[i].closeTxid.None? {
        found := true;
      }
    }
  }

  /** Re-arm every open row that has neither stop nor close, whatever the exchange answers. With
      no such row nothing is asked; otherwise the resting orders and then the position are read,
      and what is done follows those answers. If every call is answered, every backed row ends
      up armed. */
  method ReprotectNakedOpen(tb: Table, kx: Kraken)
    returns (ghost read: Option<Positions>, ghost open: Option<map<Txid, Order>>)
    requires Sound(tb, kx)
    modifies tb, kx`book, kx`safe, kx`trace
    ensures Sound(tb, kx) && Grew(old(kx.book), kx.book) && old(kx.trace) <= kx.trace
    ensures !AnyNaked(old(tb.rows)) ==> tb.rows == old(tb.rows) && kx.book == old(kx.book) && kx.trace == old(kx.trace)
    ensures AnyNaked(old(tb.rows)) ==>
              && OrdersRead(old(kx.trace), kx.trace, old(kx.book), kx.book, open)
              && PositionRead(kx.closed, old(kx.trace), kx.trace, old(kx.book), kx.book, read)
    ensures AnyNaked(old(tb.rows)) ==> OrdersThenPosition(old(kx.trace), kx.trace, open, read)
    ensures Rearmed(old(tb.rows), tb.rows, read, open, kx.book)
    ensures kx.calm ==> NakedUnbacked(tb.rows, read)
    ensures kx.calm && AnyNaked(old(tb.rows)) ==> read.Some? && open.Some?
  {
    hide Inv, Grew, Rearmed, NakedUnbacked, StoppedVol, Claimed, OrdersRead, PositionRead, AnyNaked, OrdersThenPosition;
    read, open := None, None;
    var any := HasNaked(tb.rows);
    if !any {
      GrewReflexive(kx.book);
      RearmNothing(tb.rows, None, None, kx.book);
      return;
    }
    ghost var b0, t0 := kx.book, kx.trace;
    GrewReflexive(b0);
    var resting := OpenOrders(tb, kx);
    open := resting;
    var rows := tb.rows;
    var claimed := set i | 0 <= i < |rows| && rows[i].stopTxid.Some? :: rows[i].stopTxid.value;
    assert claimed == Claimed(rows) by { ClaimedIs(rows); }
    if kx.closed && resting.Some? {
      NothingToAdopt(tb.rows, tb.tags, kx.book, resting.value);
      NoneAdoptableGrows(resting, OpenClaims(tb.rows), claimed);
    }
    ghost var b1, t1 := kx.book, kx.trace;
    var positions := OpenPositions(tb, kx);
    ghost var b2, t2 := kx.book, kx.trace;
    read := positions;
    GrewTransitive(b0, b1, b2);
    GrewReflexive(b2);
    if positions.None? {
      RearmNothing(tb.rows, None, open, kx.book);
    } else {
      var stopped: map<Pair, nat> := StoppedByPair(tb.rows);
      RearmAll(tb, kx, resting, claimed, positions.value, stopped);
      GrewTransitive(b0, b2, kx.book);
    }
    GrewTransitive(b1, b2, kx.book);
    OrdersThenPositionFrom(t0, kx.trace, open, b1, read, b2);
    OrdersReadWithin(t0, t0, t1, kx.trace, b0, b0, b1, kx.book, open);
    PositionReadWithin(kx.closed, t0, t1, t2, kx.trace, b0, b1, b2, kx.book, read);
  }
}

/** The `orders` table of one execution mode, and what must always hold between it and
    the exchange. A row's id is its index; rows are never deleted. */
module Ledger {
  import opened Wrappers
  import opened Sums
  import opened Exchange

  datatype RowStatus = RowPending | RowOpen | RowClosed | RowCanceled | RowRejected

  datatype Row = Row(sym: Pair, vol: nat, status: RowStatus, userref: nat,
                     txid: Option<Txid>, stopTxid: Option<Txid>, closeTxid: Option<Txid>,
                     entry: real, stop: real, stopProt: Option<real>, tpPct: real)
  {
    /** COALESCE(stop_prot, stop): the level the row's protective stop is re-armed at. */
    function StopLevel(): real {
      if stopProt.Some? then stopProt.value else stop
    }

    /** The order that owns the row's way out: its stop, or else its close. */
    function Exit(): Option<Txid> {
      if stopTxid.Some? then stopTxid else closeTxid
    }

    predicate Naked() {
      status.RowOpen? && stopTxid.None? && closeTxid.None?
    }

    predicate OneExit() {
      && (status.RowOpen? ==> stopTxid.None? || closeTxid.None?)
      && (status.RowPending? ==> stopTxid.None? && closeTxid.None?)
    }
  }

  predicate OneExitEach(rows: seq<Row>) {
    forall i :: 0 <= i < |rows| ==> rows[i].OneExit()
  }

  /** Recorded exits name orders that exist. */
  predicate Recorded(rows: seq<Row>, book: Book) {
    forall i :: 0 <= i < |rows| && rows[i].status.RowOpen? ==>
                  && (rows[i].stopTxid.Some? ==> rows[i].stopTxid.value < |book|)
                  && (rows[i].closeTxid.Some? ==> rows[i].closeTxid.value < |book|)
  }

  /** What really happened, which the program can only partly see: the entry order of each
      row (also when its acknowledgement was lost), the volume booked when the row left
      `pending`, and the row that placed each order. */
  datatype Tags = Tags(entryOf: seq<Option<Txid>>, booked: seq<nat>, own: seq<nat>)

  // ── unprotected exposure ────────────────────────────────────────────────────

  /** Long volume a row stands for that no resting sell of its own covers. */
  function Bare(row: Row, entry: Option<Txid>, book: Book): int {
    match row.status
    case RowPending => if entry.Some? && entry.value < |book| then book[entry.value].exec else 0
    case RowOpen =>
      (match row.Exit()
       case None => row.vol
       case Some(t) => if t >= |book| || book[t].status.Resting? then 0 else row.vol - book[t].exec)
    case _ => 0
  }

  function BareIn(row: Row, entry: Option<Txid>, book: Book, p: Pair): int {
    if row.sym == p then Bare(row, entry, book) else 0
  }

  ghost function Bares(rows: seq<Row>, tags: Tags, book: Book, p: Pair): seq<int>
    requires |tags.entryOf| == |rows|
  {
    seq(|rows|, i requires 0 <= i < |rows| => BareIn(rows[i], tags.entryOf[i], book, p))
  }

  // ── the invariant ───────────────────────────────────────────────────────────

  /** Order `t` is a sell of kind `kind` for exactly row `i`'s pair and volume. */
  ghost predicate IsExit(i: nat, row: Row, t: Txid, kind: Kind, tags: Tags, book: Book)
    requires |tags.own| == |book|
  {
    && t < |book|
    && tags.own[t] == i
    && book[t].side.Sell? && book[t].kind == kind
    && book[t].pair == row.sym && book[t].vol == row.vol
  }

  ghost predicate IsEntry(i: nat, row: Row, t: Txid, tags: Tags, book: Book)
    requires |tags.own| == |book|
  {
    && t < |book|
    && tags.own[t] == i
    && book[t].side.Buy? && book[t].kind.Limit?
    && book[t].pair == row.sym && book[t].userref == row.userref
  }

  ghost predicate RowOk(i: nat, row: Row, entry: Option<Txid>, booked: nat, tags: Tags, book: Book)
    requires |tags.own| == |book|
  {
    && row.OneExit()
    && (entry.Some? ==> IsEntry(i, row, entry.value, tags, book))
    && (row.txid.Some? ==> entry == row.txid)
    && (row.status.RowOpen? ==>
          && 0 < row.vol
          && (row.stopTxid.Some? ==> IsExit(i, row, row.stopTxid.value, StopLoss, tags, book))
          && (row.closeTxid.Some? ==> IsExit(i, row, row.closeTxid.value, Limit, tags, book)))
    && (!row.status.RowPending? ==>
          booked == (if entry.Some? then book[entry.value].exec else 0)
          && (entry.Some? ==> book[entry.value].Terminal()))
    && (row.status.RowCanceled? || row.status.RowRejected? ==> booked == 0)
  }

  /** A resting sell is the exit of the open row that placed it; every buy is some row's
      entry. */
  ghost predicate OrderOwned(t: Txid, rows: seq<Row>, tags: Tags, book: Book)
    requires t < |book| && |tags.own| == |book| && |tags.entryOf| == |rows|
  {
    && tags.own[t] < |rows| && rows[tags.own[t]].sym == book[t].pair
    && (book[t].side.Sell? && book[t].status.Resting? ==>
          rows[tags.own[t]].status.RowOpen? && rows[tags.own[t]].Exit() == Some(t))
    && (book[t].side.Buy? ==> tags.entryOf[tags.own[t]] == Some(t))
  }

  ghost predicate Shape(rows: seq<Row>, tags: Tags, book: Book) {
    |tags.entryOf| == |tags.booked| == |rows| && |tags.own| == |book|
  }

  ghost predicate Within(rows: seq<Row>, tags: Tags, book: Book)
    requires Shape(rows, tags, book)
  {
    forall p: Pair :: Sum(Bares(rows, tags, book, p)) <= Free(book, p)
  }

  // ── what the rows' own sells have sold ──────────────────────────────────────

  /** What order `t` sold for row `i`, once it is no longer the row's exit. */
  function SoldBy(i: nat, exit: Option<Txid>, owner: nat, t: Txid, o: Order): nat {
    if owner == i && o.side.Sell? && exit != Some(t) then o.exec else 0
  }

  function Sales(i: nat, exit: Option<Txid>, own: seq<nat>, book: Book): seq<int>
    requires |own| == |book|
  {
    seq(|book|, t requires 0 <= t < |book| => SoldBy(i, exit, own[t], t, book[t]))
  }

  function SoldOff(i: nat, exit: Option<Txid>, own: seq<nat>, book: Book): int
    requires |own| == |book|
  {
    Sum(Sales(i, exit, own, book))
  }

  /** The volume a row books is what its entry bought: while open, it holds exactly that less what
      its own finished sells have sold; a pending row has sold nothing. */
  ghost predicate Conserves(i: nat, row: Row, booked: nat, own: seq<nat>, book: Book)
    requires |own| == |book|
  {
    && (row.status.RowOpen? ==> row.vol + SoldOff(i, row.Exit(), own, book) == booked)
    && (row.status.RowPending? ==> SoldOff(i, row.Exit(), own, book) == 0)
  }

  ghost predicate Conserved(rows: seq<Row>, tags: Tags, book: Book)
    requires Shape(rows, tags, book)
  {
    forall i :: 0 <= i < |rows| ==> Conserves(i, rows[i], tags.booked[i], tags.own, book)
  }

  /** Sales do not change when no order of the row does, its exit apart. */
  lemma SalesStay(i: nat, exit: Option<Txid>, own: seq<nat>, was: Book, now: Book)
    requires |own| == |was| == |now|
    requires forall t :: 0 <= t < |was| ==> SoldBy(i, exit, own[t], t, now[t]) == SoldBy(i, exit, own[t], t, was[t])
    ensures SoldOff(i, exit, own, now) == SoldOff(i, exit, own, was)
  {
    assert Sales(i, exit, own, now) == Sales(i, exit, own, was);
  }

  /** A new order has sold nothing. */
  lemma SalesPush(i: nat, exit: Option<Txid>, own: seq<nat>, book: Book, owner: nat, o: Order)
    requires |own| == |book| && o.exec == 0
    ensures SoldOff(i, exit, own + [owner], book + [o]) == SoldOff(i, exit, own, book)
  {
    assert Sales(i, exit, own + [owner], book + [o]) == Sales(i, exit, own, book) + [0];
    SumPush(Sales(i, exit, own, book), 0);
  }

  /** A row lets go of its exit: from now on what that has sold is among the sales. */
  lemma SalesRelease(i: nat, t: Txid, own: seq<nat>, book: Book)
    requires |own| == |book| && t < |book| && own[t] == i && book[t].side.Sell?
    ensures SoldOff(i, None, own, book) == SoldOff(i, Some(t), own, book) + book[t].exec
  {
    SumPoint(Sales(i, Some(t), own, book), Sales(i, None, own, book), t);
  }

  /** A row that owns no sell has no sales. */
  lemma NoSales(i: nat, exit: Option<Txid>, own: seq<nat>, book: Book)
    requires |own| == |book| && forall t :: 0 <= t < |book| ==> SoldBy(i, exit, own[t], t, book[t]) == 0
    ensures SoldOff(i, exit, own, book) == 0
  {
    SumZeros(Sales(i, exit, own, book));
  }

  /** What every step of the bot and of the market keeps, in a closed system. The last
      lines are the volume bound, that on every pair resting sells plus the volume no sell covers
      stay within the net position, and the rows' own account of what they bought and sold. */
  ghost predicate Inv(rows: seq<Row>, tags: Tags, book: Book) {
    && Shape(rows, tags, book)
    && BookOk(book)
    && (forall i :: 0 <= i < |rows| ==> RowOk(i, rows[i], tags.entryOf[i], tags.booked[i], tags, book))
    && (forall t :: 0 <= t < |book| ==> OrderOwned(t, rows, tags, book))
    && (forall i, j :: 0 <= i < j < |rows| ==> rows[i].userref != rows[j].userref)
    && Within(rows, tags, book)
    && Conserved(rows, tags, book)
  }

  lemma BareNonNegative(i: nat, rows: seq<Row>, tags: Tags, book: Book)
    requires Inv(rows, tags, book) && i < |rows|
    ensures 0 <= Bare(rows[i], tags.entryOf[i], book)
  {
  }

  /** Hence no state of the invariant is short: resting sells never exceed the long position. */
  lemma InvCovered(rows: seq<Row>, tags: Tags, book: Book)
    requires Inv(rows, tags, book)
    ensures Covered(book)
    ensures forall i :: 0 <= i < |rows| ==>
                          Bare(rows[i], tags.entryOf[i], book) <= Free(book, rows[i].sym)
  {
    forall p: Pair
      ensures 0 <= Free(book, p)
      ensures forall i :: 0 <= i < |rows| && rows[i].sym == p ==>
                            Bare(rows[i], tags.entryOf[i], book) <= Free(book, p)
    {
      var bares := Bares(rows, tags, book, p);
      forall i | 0 <= i < |rows| ensures 0 <= bares[i] {
        BareNonNegative(i, rows, tags, book);
      }
      SumNonNegative(bares);
      assert Sum(bares) <= Free(book, p);
      assert forall i :: 0 <= i < |rows| && rows[i].sym == p ==>
                           bares[i] == Bare(rows[i], tags.entryOf[i], book);
    }
    CoveredIffFree(book);
  }

  // ── what keeps it ───────────────────────────────────────────────────────────

  lemma EventSparesOthers(rows: seq<Row>, tags: Tags, book: Book, e: Event, j: nat)
    requires Inv(rows, tags, book) && e.t < |book| && j < |rows| && j != tags.own[e.t]
    ensures Bare(rows[j], tags.entryOf[j], Step(book, e)) == Bare(rows[j], tags.entryOf[j], book)
  {
  }

  lemma EventMovesOwner(rows: seq<Row>, tags: Tags, book: Book, e: Event)
    requires Inv(rows, tags, book) && e.t < |book|
    ensures var (i, o, o') := (tags.own[e.t], book[e.t], Apply(book[e.t], e));
            && i < |rows| && rows[i].sym == o.pair
            && Bare(rows[i], tags.entryOf[i], Step(book, e)) - Bare(rows[i], tags.entryOf[i], book)
               <= Slack(o', o.pair) - Slack(o, o.pair)
  {
    var i := tags.own[e.t];
    assert OrderOwned(e.t, rows, tags, book);
    assert RowOk(i, rows[i], tags.entryOf[i], tags.booked[i], tags, book);
  }

  /** A single market event changes one order, hence the exposure of its owner only, and
      that by no more than the free volume it brings. */
  lemma EventKeepsWithin(rows: seq<Row>, tags: Tags, book: Book, e: Event, p: Pair)
    requires Inv(rows, tags, book) && e.t < |book|
    ensures Sum(Bares(rows, tags, Step(book, e), p)) <= Free(Step(book, e), p)
  {
    var after := Step(book, e);
    var i := tags.own[e.t];
    EventMovesOwner(rows, tags, book, e);
    var was, now := Bares(rows, tags, book, p), Bares(rows, tags, after, p);
    forall j | 0 <= j < |rows| && j != i ensures was[j] == now[j] {
      EventSparesOthers(rows, tags, book, e, j);
    }
    SumPoint(was, now, i);
    SumPoint(Slacks(book, p), Slacks(after, p), e.t);
    assert Sum(was) <= Free(book, p);
  }

  /** Only a resting sell can sell, and that is the exit of its row. */
  lemma EventKeepsSales(rows: seq<Row>, tags: Tags, book: Book, e: Event, i: nat)
    requires Inv(rows, tags, book) && e.t < |book| && i < |rows|
    ensures Conserves(i, rows[i], tags.booked[i], tags.own, Step(book, e))
  {
    hide Within, RowOk, SoldOff;
    assert Conserves(i, rows[i], tags.booked[i], tags.own, book);
    if rows[i].status.RowOpen? || rows[i].status.RowPending? {
      assert OrderOwned(e.t, rows, tags, book);
      SalesStay(i, rows[i].Exit(), tags.own, book, Step(book, e));
    }
  }

  lemma InvStep(rows: seq<Row>, tags: Tags, book: Book, e: Event)
    requires Inv(rows, tags, book)
    ensures Inv(rows, tags, Step(book, e))
  {
    if e.t < |book| {
      var after := Step(book, e);
      forall i | 0 <= i < |rows|
        ensures RowOk(i, rows[i], tags.entryOf[i], tags.booked[i], tags, after)
      {
        assert RowOk(i, rows[i], tags.entryOf[i], tags.booked[i], tags, book);
      }
      forall t | 0 <= t < |after| ensures OrderOwned(t, rows, tags, after) {
        assert OrderOwned(t, rows, tags, book);
      }
      forall p: Pair ensures Sum(Bares(rows, tags, after, p)) <= Free(after, p) {
        EventKeepsWithin(rows, tags, book, e, p);
      }
      forall i | 0 <= i < |rows| ensures Conserves(i, rows[i], tags.booked[i], tags.own, after) {
        EventKeepsSales(rows, tags, book, e, i);
      }
    }
  }

  lemma {:induction false} InvPlay(rows: seq<Row>, tags: Tags, book: Book, es: seq<Event>)
    requires Inv(rows, tags, book)
    ensures Inv(rows, tags, Play(book, es))
  {
    if |es| > 0 {
      var n := |es| - 1;
      InvPlay(rows, tags, book, es[..n]);
      InvStep(rows, tags, Play(book, es[..n]), es[n]);
    }
  }

  /** One row is rewritten: allowed if the row is still in order, stands for no more
      uncovered volume than before, and does not let go of a resting sell. */
  lemma InvSetRow(rows: seq<Row>, tags: Tags, book: Book, i: nat, row: Row, booked: nat)
    requires Inv(rows, tags, book) && i < |rows|
    requires row.sym == rows[i].sym && row.userref == rows[i].userref
    requires RowOk(i, row, tags.entryOf[i], booked, tags, book) && Conserves(i, row, booked, tags.own, book)
    requires Bare(row, tags.entryOf[i], book) <= Bare(rows[i], tags.entryOf[i], book)
    requires rows[i].status.RowOpen? && rows[i].Exit().Some? && book[rows[i].Exit().value].status.Resting?
             ==> row.status.RowOpen? && row.Exit() == rows[i].Exit()
    ensures Inv(rows[i := row], tags.(booked := tags.booked[i := booked]), book)
  {
    var rows', tags' := rows[i := row], tags.(booked := tags.booked[i := booked]);
    forall j | 0 <= j < |rows'|
      ensures RowOk(j, rows'[j], tags'.entryOf[j], tags'.booked[j], tags', book)
    {
      assert RowOk(j, rows[j], tags.entryOf[j], tags.booked[j], tags, book);
    }
    forall t | 0 <= t < |book| ensures OrderOwned(t, rows', tags', book) {
      assert OrderOwned(t, rows, tags, book);
    }
    forall p: Pair ensures Sum(Bares(rows', tags', book, p)) <= Free(book, p) {
      SumPoint(Bares(rows, tags, book, p), Bares(rows', tags', book, p), i);
      assert Sum(Bares(rows, tags, book, p)) <= Free(book, p);
    }
  }

  /** Appending an order leaves the exposure of every row it does not belong to. */
  lemma PushSparesRow(j: nat, row: Row, tags: Tags, booked: nat, book: Book, o: Order)
    requires |tags.own| == |book| && j < |tags.entryOf|
    requires RowOk(j, row, tags.entryOf[j], booked, tags, book)
    ensures Bare(row, tags.entryOf[j], book + [o]) == Bare(row, tags.entryOf[j], book)
  {
  }

  lemma RestExitWithin(rows: seq<Row>, tags: Tags, book: Book, i: nat, row: Row, o: Order, p: Pair)
    requires Inv(rows, tags, book) && i < |rows|
    requires row.sym == rows[i].sym == o.pair && o.side.Sell? && o.status.Resting?
    requires Bare(rows[i], tags.entryOf[i], book) == o.vol
    requires row.status.RowOpen? && row.Exit() == Some(|book|)
    ensures Sum(Bares(rows[i := row], tags, book + [o], p)) <= Free(book + [o], p)
  {
    var was, now := Bares(rows, tags, book, p), Bares(rows[i := row], tags, book + [o], p);
    forall j | 0 <= j < |rows| && j != i ensures was[j] == now[j] {
      PushSparesRow(j, rows[j], tags, tags.booked[j], book, o);
    }
    SumPoint(was, now, i);
    PushFree(book, o, p);
    assert Sum(was) <= Free(book, p);
  }

  /** A sell for a row whose whole volume is uncovered lands and is recorded on it. */
  lemma InvRestExit(rows: seq<Row>, tags: Tags, book: Book, i: nat, row: Row, kind: Kind, price: real)
    requires Inv(rows, tags, book) && i < |rows|
    requires rows[i].status.RowOpen? && Bare(rows[i], tags.entryOf[i], book) == rows[i].vol
    requires rows[i].Exit().Some? ==> book[rows[i].Exit().value].Terminal()
    requires kind.StopLoss? ==> rows[i].closeTxid.None? && row == rows[i].(stopTxid := Some(|book|))
    requires kind.Limit? ==> rows[i].stopTxid.None? && row == rows[i].(closeTxid := Some(|book|))
    ensures Inv(rows[i := row], tags.(own := tags.own + [i]),
                book + [NewOrder(rows[i].sym, Sell, kind, price, rows[i].vol, 0)])
  {
    var o := NewOrder(rows[i].sym, Sell, kind, price, rows[i].vol, 0);
    var rows', tags', book' := rows[i := row], tags.(own := tags.own + [i]), book + [o];
    forall j | 0 <= j < |rows'|
      ensures RowOk(j, rows'[j], tags'.entryOf[j], tags'.booked[j], tags', book')
    {
      assert RowOk(j, rows[j], tags.entryOf[j], tags.booked[j], tags, book);
    }
    forall t | 0 <= t < |book'| ensures OrderOwned(t, rows', tags', book') {
      if t < |book| {
        assert OrderOwned(t, rows, tags, book);
      }
    }
    forall p: Pair ensures Sum(Bares(rows', tags', book', p)) <= Free(book', p) {
      RestExitWithin(rows, tags, book, i, row, o, p);
    }
    assert Conserved(rows', tags', book') by { RestExitConserves(rows, tags, book, i, row, o); }
  }

  lemma RestExitConserves(rows: seq<Row>, tags: Tags, book: Book, i: nat, row: Row, o: Order)
    requires Shape(rows, tags, book) && Conserved(rows, tags, book) && i < |rows| && o.exec == 0
    requires rows[i].status.RowOpen? && row.status.RowOpen? && row.vol == rows[i].vol && row.Exit() == Some(|book|)
    requires rows[i].Exit().Some? ==> rows[i].Exit().value < |book| && book[rows[i].Exit().value].exec == 0
    ensures Conserved(rows[i := row], tags.(own := tags.own + [i]), book + [o])
  {
    hide SoldOff;
    var (rows', own', book') := (rows[i := row], tags.own + [i], book + [o]);
    forall j | 0 <= j < |rows'| ensures Conserves(j, rows'[j], tags.booked[j], own', book') {
      assert Conserves(j, rows[j], tags.booked[j], tags.own, book);
      SalesPush(j, rows[j].Exit(), tags.own, book, i, o);
      if j == i {
        ExitReplaced(rows, tags, book', i, row.Exit(), own');
      }
    }
  }

  /** A row whose exit has sold nothing may take another that has sold nothing yet. */
  lemma ExitReplaced(rows: seq<Row>, tags: Tags, book: Book, i: nat, exit: Option<Txid>, own: seq<nat>)
    requires i < |rows| && |own| == |book|
    requires forall e :: e == exit || e == rows[i].Exit() ==> e.Some? ==> e.value < |book| && book[e.value].exec == 0
    ensures SoldOff(i, exit, own, book) == SoldOff(i, rows[i].Exit(), own, book)
  {
    assert Sales(i, exit, own, book) == Sales(i, rows[i].Exit(), own, book);
  }

  lemma AddEntryWithin(rows: seq<Row>, tags: Tags, book: Book, row: Row, o: Order, landed: bool, p: Pair)
    requires Inv(rows, tags, book) && row.status.RowPending?
    requires o.side.Buy? && o.exec == 0
    ensures var entryOf := tags.entryOf + [if landed then Some(|book|) else None];
            var book' := if landed then book + [o] else book;
            Sum(Bares(rows + [row], tags.(entryOf := entryOf), book', p)) <= Free(book', p)
  {
    var entryOf := tags.entryOf + [if landed then Some(|book|) else None];
    var book' := if landed then book + [o] else book;
    var was := Bares(rows, tags, book, p);
    forall j | 0 <= j < |rows| ensures BareIn(rows[j], entryOf[j], book', p) == was[j] {
      PushSparesRow(j, rows[j], tags, tags.booked[j], book, o);
    }
    assert Bares(rows + [row], tags.(entryOf := entryOf), book', p) == was + [0];
    SumPush(was, 0);
    PushFree(book, o, p);
    assert Sum(was) <= Free(book, p);
  }

  lemma NewRowSells(rows: seq<Row>, tags: Tags, book: Book, row: Row)
    requires Inv(rows, tags, book)
    ensures SoldOff(|rows|, row.Exit(), tags.own, book) == 0
  {
    forall t | 0 <= t < |book| ensures SoldBy(|rows|, row.Exit(), tags.own[t], t, book[t]) == 0 {
      assert OrderOwned(t, rows, tags, book);
    }
    NoSales(|rows|, row.Exit(), tags.own, book);
  }

  /** A new pending row joins, its entry order on the book or not. */
  lemma InvAddEntry(rows: seq<Row>, tags: Tags, book: Book, row: Row, price: real, landed: bool)
    requires Inv(rows, tags, book)
    requires row.status.RowPending? && row.stopTxid.None? && row.closeTxid.None? && 0 < row.vol
    requires row.txid.Some? ==> landed && row.txid.value == |book|
    requires forall j :: 0 <= j < |rows| ==> rows[j].userref != row.userref
    ensures var o := NewOrder(row.sym, Buy, Limit, price, row.vol, row.userref);
            Inv(rows + [row],
                Tags(tags.entryOf + [if landed then Some(|book|) else None], tags.booked + [0],
                     if landed then tags.own + [|rows|] else tags.own),
                if landed then book + [o] else book)
  {
    var o := NewOrder(row.sym, Buy, Limit, price, row.vol, row.userref);
    var rows', book' := rows + [row], if landed then book + [o] else book;
    var tags' := Tags(tags.entryOf + [if landed then Some(|book|) else None], tags.booked + [0],
                      if landed then tags.own + [|rows|] else tags.own);
    forall j | 0 <= j < |rows'|
      ensures RowOk(j, rows'[j], tags'.entryOf[j], tags'.booked[j], tags', book')
    {
      if j < |rows| {
        assert RowOk(j, rows[j], tags.entryOf[j], tags.booked[j], tags, book);
      }
    }
    forall t | 0 <= t < |book'| ensures OrderOwned(t, rows', tags', book') {
      if t < |book| {
        assert OrderOwned(t, rows, tags, book);
      }
    }
    forall p: Pair ensures Sum(Bares(rows', tags', book', p)) <= Free(book', p) {
      AddEntryWithin(rows, tags, book, row, o, landed, p);
    }
    forall j | 0 <= j < |rows'| ensures Conserves(j, rows'[j], tags'.booked[j], tags'.own, book') {
      if j == |rows| {
        NewRowSells(rows, tags, book, row);
      } else {
        assert Conserves(j, rows[j], tags.booked[j], tags.own, book);
      }
      SalesPush(j, rows'[j].Exit(), tags.own, book, |rows|, o);
    }
  }

  lemma InvEmpty()
    ensures Inv([], Tags([], [], []), [])
  {
  }

  /** Two open rows never share an exit. */
  lemma ExitsDistinct(rows: seq<Row>, tags: Tags, book: Book, i: nat, j: nat)
    requires Inv(rows, tags, book) && i < |rows| && j < |rows| && i != j
    requires rows[i].status.RowOpen? && rows[j].status.RowOpen? && rows[i].Exit().Some?
    ensures rows[i].Exit() != rows[j].Exit()
  {
  }

  class Table {
    var rows: seq<Row>
    ghost var tags: Tags

    constructor ()
      ensures rows == [] && tags == Tags([], [], [])
    {
      rows, tags := [], Tags([], [], []);
    }
  }
}

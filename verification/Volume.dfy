/** Volume accounts that follow from the ledger invariant: every executed entry is booked,
    and what the rows stand for is within the position. */
module Volume {
  import opened Wrappers
  import opened Sums
  import opened Exchange
  import opened Ledger

  // ── entries: nothing that executed is lost ──────────────────────────────────

  function BoughtBy(o: Order, p: Pair): nat {
    if o.pair == p && o.side.Buy? then o.exec else 0
  }

  /** Everything ever bought on a pair. */
  function Bought(book: Book, p: Pair): int {
    Sum(seq(|book|, t requires 0 <= t < |book| => BoughtBy(book[t], p)))
  }

  /** What one row accounts for: while open, the volume it holds and what its own finished sells
      have sold of it; canceled or rejected, nothing; otherwise what its bid has bought. */
  ghost function Accounted(i: nat, rows: seq<Row>, tags: Tags, book: Book, p: Pair): int
    requires Shape(rows, tags, book) && i < |rows|
  {
    if rows[i].sym != p || rows[i].status.RowCanceled? || rows[i].status.RowRejected? then 0
    else if rows[i].status.RowOpen? then rows[i].vol + SoldOff(i, rows[i].Exit(), tags.own, book)
    else if tags.entryOf[i].Some? && tags.entryOf[i].value < |book| then book[tags.entryOf[i].value].exec
    else 0
  }

  /** No executed entry volume is lost: on every pair the volume bought is what the open rows hold,
      what their own sells have sold of it, and what the bids of the pending and closed rows bought;
      rows that ended canceled or rejected have bought none of it. */
  lemma NoEntryVolumeLost(rows: seq<Row>, tags: Tags, book: Book, p: Pair)
    requires Inv(rows, tags, book)
    ensures Bought(book, p) == Sum(seq(|rows|, i requires 0 <= i < |rows| => Accounted(i, rows, tags, book, p)))
  {
    var orders: seq<int> := seq(|book|, t requires 0 <= t < |book| => BoughtBy(book[t], p));
    var accounts: seq<int> := seq(|rows|, i requires 0 <= i < |rows| => Accounted(i, rows, tags, book, p));
    hide Accounted, BoughtBy, RowOk, OrderOwned, Within, Conserved;
    var rowOf := seq(|book|, t requires 0 <= t < |book| => if book[t].side.Buy? then Some(tags.own[t]) else None);
    forall i | 0 <= i < |rows|
      ensures tags.entryOf[i].Some? ==> EntryOf(tags.entryOf[i].value, i, tags, book)
      ensures accounts[i] == if tags.entryOf[i].Some? then orders[tags.entryOf[i].value] else 0
    {
      AccountedIsBought(rows, tags, book, p, i);
    }
    forall t | 0 <= t < |book| && book[t].side.Buy?
      ensures tags.own[t] < |rows| && tags.entryOf[tags.own[t]] == Some(t)
    {
      assert OrderOwned(t, rows, tags, book);
    }
    SumInject(orders, accounts, rowOf);
    SumInject(accounts, orders, tags.entryOf);
  }

  ghost predicate EntryOf(t: Txid, i: nat, tags: Tags, book: Book)
    requires |tags.own| == |book|
  {
    t < |book| && tags.own[t] == i && book[t].side.Buy?
  }

  /** Row by row: what is accounted for is what the row's bid bought. */
  lemma AccountedIsBought(rows: seq<Row>, tags: Tags, book: Book, p: Pair, i: nat)
    requires Inv(rows, tags, book) && i < |rows|
    ensures tags.entryOf[i].Some? ==> EntryOf(tags.entryOf[i].value, i, tags, book)
    ensures Accounted(i, rows, tags, book, p)
            == if tags.entryOf[i].Some? then BoughtBy(book[tags.entryOf[i].value], p) else 0
  {
    hide SoldOff, Within, OrderOwned;
    assert RowOk(i, rows[i], tags.entryOf[i], tags.booked[i], tags, book);
    assert Conserves(i, rows[i], tags.booked[i], tags.own, book);
  }

  /** The row's own account: what its bid bought, it holds or its own finished sells have sold. */
  ghost predicate HoldsTheRest(i: nat, rows: seq<Row>, tags: Tags, book: Book)
    requires Shape(rows, tags, book) && i < |rows|
  {
    rows[i].status.RowOpen? ==>
      && tags.entryOf[i].Some? && tags.entryOf[i].value < |book|
      && rows[i].vol == book[tags.entryOf[i].value].exec - SoldOff(i, rows[i].Exit(), tags.own, book)
  }

  lemma OpenRowHoldsTheRest(rows: seq<Row>, tags: Tags, book: Book, i: nat)
    requires Inv(rows, tags, book) && i < |rows|
    ensures HoldsTheRest(i, rows, tags, book)
  {
    assert RowOk(i, rows[i], tags.entryOf[i], tags.booked[i], tags, book);
    assert Conserves(i, rows[i], tags.booked[i], tags.own, book);
    SumNonNegative(Sales(i, rows[i].Exit(), tags.own, book));
  }

  // ── what the open rows stand for ────────────────────────────────────────────

  /** Long volume a row stands for: executed so far while pending; the unexecuted part of its
      own exit once open. */
  function InFlight(row: Row, entry: Option<Txid>, book: Book): int {
    match row.status
    case RowPending => if entry.Some? && entry.value < |book| then book[entry.value].exec else 0
    case RowOpen =>
      if row.Exit().Some? && row.Exit().value < |book| then row.vol - book[row.Exit().value].exec else row.vol
    case _ => 0
  }

  ghost function InFlights(rows: seq<Row>, tags: Tags, book: Book, p: Pair): seq<int>
    requires |tags.entryOf| == |rows|
  {
    seq(|rows|, i requires 0 <= i < |rows| =>
      if rows[i].sym == p then InFlight(rows[i], tags.entryOf[i], book) else 0)
  }

  /** Volume of a row that its own resting exit covers. */
  function Shielded(row: Row, book: Book, p: Pair): int {
    if row.sym == p && row.status.RowOpen? && row.Exit().Some? && row.Exit().value < |book|
       && book[row.Exit().value].status.Resting?
    then row.vol - book[row.Exit().value].exec
    else 0
  }

  /** On every pair, the unexecuted part of all open rows plus the executed part of all
      pending ones is within the net long position. */
  lemma InFlightWithinPosition(rows: seq<Row>, tags: Tags, book: Book, p: Pair)
    requires Inv(rows, tags, book)
    ensures Sum(InFlights(rows, tags, book, p)) <= Net(book, p)
    ensures forall i :: 0 <= i < |rows| ==> 0 <= InFlight(rows[i], tags.entryOf[i], book)
  {
    var shielded := seq(|rows|, i requires 0 <= i < |rows| => Shielded(rows[i], book, p));
    var resting: seq<int> := seq(|book|, t requires 0 <= t < |book| => RestingSell(book[t], p));
    var at := seq(|rows|, i requires 0 <= i < |rows| => if shielded[i] == 0 then None else rows[i].Exit());
    var bares, flights := Bares(rows, tags, book, p), InFlights(rows, tags, book, p);
    forall i | 0 <= i < |rows|
      ensures flights[i] == bares[i] + shielded[i]
      ensures 0 <= InFlight(rows[i], tags.entryOf[i], book)
      ensures match at[i]
              case None => shielded[i] <= 0
              case Some(t) => t < |book| && tags.own[t] == i && shielded[i] <= resting[t]
    {
      assert RowOk(i, rows[i], tags.entryOf[i], tags.booked[i], tags, book);
    }
    SumInject(shielded, resting, at);
    SumPlus(bares, shielded, flights);
    FreeIsNetLessResting(book, p);
    assert Sum(bares) <= Free(book, p);
  }
}

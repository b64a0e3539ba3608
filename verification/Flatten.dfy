/** Closing the whole book: sweep the bids and the stops, then work one post-only sell per
    pair, sized from the position the exchange reports, until every pair is flat.

    A flatten's close is shared by all rows of its pair, so the ledger invariant of single
    exits does not describe it. What a pass keeps instead: every resting sell is still the
    stop or the close of an open row of its pair. */
module Flatten {
  import opened Wrappers
  import opened Sums
  import opened Exchange
  import opened Ledger
  import opened Broker
  import opened Prices
  import Fills
  import Harvest

  ghost predicate TrackedBy(i: nat, t: Txid, rows: seq<Row>, p: Pair) {
    && i < |rows| && rows[i].status.RowOpen? && rows[i].sym == p
    && (rows[i].stopTxid == Some(t) || rows[i].closeTxid == Some(t))
  }

  ghost predicate TrackedAny(t: Txid, rows: seq<Row>, p: Pair) {
    exists i :: TrackedBy(i, t, rows, p)
  }

  /** Every resting sell is the stop or the close of an open row of its pair, and a close an
      open row refers to is an order of the row's pair. */
  ghost predicate Tracked(rows: seq<Row>, book: Book) {
    && (forall t :: 0 <= t < |book| && book[t].side.Sell? && book[t].status.Resting? ==>
                      TrackedAny(t, rows, book[t].pair))
    && (forall i :: 0 <= i < |rows| && rows[i].status.RowOpen? && rows[i].closeTxid.Some? ==>
                      rows[i].closeTxid.value < |book| && book[rows[i].closeTxid.value].pair == rows[i].sym)
  }

  ghost predicate BidOf(i: nat, t: Txid, rows: seq<Row>, p: Pair) {
    i < |rows| && rows[i].status.RowPending? && rows[i].sym == p && (rows[i].txid.None? || rows[i].txid == Some(t))
  }

  /** Every resting bid is that of a pending row of its pair, one that knows it or knows none. */
  ghost predicate Bidding(rows: seq<Row>, book: Book) {
    forall t :: 0 <= t < |book| && book[t].side.Buy? && book[t].status.Resting? ==> exists i :: BidOf(i, t, rows, book[t].pair)
  }

  /** Nothing about pending rows has changed. */
  ghost predicate SamePending(was: seq<Row>, now: seq<Row>) {
    |now| == |was| && forall i :: 0 <= i < |was| && was[i].status.RowPending? ==>
                                    now[i].status.RowPending? && now[i].sym == was[i].sym && now[i].txid == was[i].txid
  }

  lemma BiddingLasts(was: seq<Row>, now: seq<Row>, before: Book, book: Book)
    requires Bidding(was, before) && SamePending(was, now) && Grew(before, book)
    requires forall t :: |before| <= t < |book| ==> book[t].side.Sell?
    ensures Bidding(now, book)
  {
    forall t | 0 <= t < |book| && book[t].side.Buy? && book[t].status.Resting?
      ensures exists i :: BidOf(i, t, now, book[t].pair)
    {
      assert Became(before[t], book[t]);
      var i :| BidOf(i, t, was, before[t].pair);
      assert BidOf(i, t, now, book[t].pair);
    }
  }

  ghost predicate NoBids(book: Book, p: Pair) {
    forall t :: 0 <= t < |book| && book[t].side.Buy? && book[t].pair == p ==> book[t].Terminal()
  }

  /** A pair without a pending row has no bid resting. */
  lemma NoBidRests(rows: seq<Row>, book: Book, p: Pair)
    requires Bidding(rows, book) && forall i :: 0 <= i < |rows| && rows[i].status.RowPending? ==> rows[i].sym != p
    ensures NoBids(book, p)
  {
    forall t | 0 <= t < |book| && book[t].side.Buy? && book[t].status.Resting? ensures book[t].pair != p {
      var i :| BidOf(i, t, rows, book[t].pair);
    }
  }

  /** A flatten can start from any state the ordinary steps keep. */
  lemma FlatFromInv(rows: seq<Row>, tags: Tags, book: Book)
    requires Inv(rows, tags, book)
    ensures OneExitEach(rows) && Recorded(rows, book) && Covered(book) && Tracked(rows, book) && Bidding(rows, book)
  {
    InvCovered(rows, tags, book);
    forall t | 0 <= t < |book| && book[t].side.Buy? && book[t].status.Resting?
      ensures exists i :: BidOf(i, t, rows, book[t].pair)
    {
      assert OrderOwned(t, rows, tags, book);
      var i := tags.own[t];
      assert RowOk(i, rows[i], tags.entryOf[i], tags.booked[i], tags, book);
      assert BidOf(i, t, rows, book[t].pair);
    }
    forall i | 0 <= i < |rows|
      ensures rows[i].OneExit()
      ensures rows[i].status.RowOpen? && rows[i].stopTxid.Some? ==> rows[i].stopTxid.value < |book|
      ensures rows[i].status.RowOpen? && rows[i].closeTxid.Some? ==> rows[i].closeTxid.value < |book|
    {
      assert RowOk(i, rows[i], tags.entryOf[i], tags.booked[i], tags, book);
    }
    forall t | 0 <= t < |book| && book[t].side.Sell? && book[t].status.Resting?
      ensures TrackedAny(t, rows, book[t].pair)
    {
      assert OrderOwned(t, rows, tags, book);
      assert TrackedBy(tags.own[t], t, rows, book[t].pair);
    }
  }

  lemma RecordedLasts(rows: seq<Row>, was: Book, now: Book)
    requires Recorded(rows, was) && |was| <= |now|
    ensures Recorded(rows, now)
  {
  }

  /** Market events bring no new resting sell. */
  lemma TrackedLasts(rows: seq<Row>, was: Book, now: Book)
    requires Tracked(rows, was) && Grew(was, now) && |now| == |was|
    ensures Tracked(rows, now)
  {
  }

  /** The ledger side of what holds between the calls of a pass; the last part as long as the
      account is closed and nothing went wrong (`live`). */
  ghost predicate Held(rows: seq<Row>, book: Book, live: bool) {
    OneExitEach(rows) && Recorded(rows, book) && (live ==> Covered(book) && Tracked(rows, book) && Bidding(rows, book))
  }

  ghost predicate FlatOk(tb: Table, kx: Kraken, live: bool)
    reads tb, kx
  {
    Held(tb.rows, kx.book, live) && (live ==> kx.closed && kx.safe)
  }

  lemma GrewSize(was: Book, now: Book)
    requires Grew(was, now)
    ensures |was| <= |now|
  {
  }

  lemma HeldLasts(rows: seq<Row>, was: Book, now: Book, es: seq<Event>, live: bool)
    requires Held(rows, was, live) && Grew(was, now) && (live ==> now == Play(was, es))
    ensures Held(rows, now, live)
  {
    hide Covered, Bidding, Grew;
    RecordedLasts(rows, was, now) by { GrewSize(was, now); }
    if live {
      PlayKeepsCovered(was, es);
      TrackedLasts(rows, was, now);
      BiddingLasts(rows, rows, was, now);
    }
  }

  // ── the statements of a pass, each one UPDATE ───────────────────────────────

  function ClearStop(rows: seq<Row>, t: Txid): (after: seq<Row>)
    ensures |after| == |rows|
  {
    seq(|rows|, i requires 0 <= i < |rows| =>
      if rows[i].stopTxid == Some(t) then rows[i].(stopTxid := None) else rows[i])
  }

  function ClearClose(rows: seq<Row>, t: Txid): (after: seq<Row>)
    ensures |after| == |rows|
  {
    seq(|rows|, i requires 0 <= i < |rows| =>
      if rows[i].closeTxid == Some(t) then rows[i].(closeTxid := None) else rows[i])
  }

  function RetirePair(rows: seq<Row>, p: Pair): (after: seq<Row>)
    ensures |after| == |rows|
  {
    seq(|rows|, i requires 0 <= i < |rows| =>
      if rows[i].status.RowOpen? && rows[i].sym == p then rows[i].(status := RowClosed, closeTxid := None) else rows[i])
  }

  function AssignClose(rows: seq<Row>, p: Pair, t: Txid): (after: seq<Row>)
    ensures |after| == |rows|
  {
    seq(|rows|, i requires 0 <= i < |rows| =>
      if rows[i].status.RowOpen? && rows[i].sym == p then rows[i].(closeTxid := Some(t)) else rows[i])
  }

  lemma ClearsHold(rows: seq<Row>, book: Book, live: bool, t: Txid)
    requires Held(rows, book, live) && (t < |book| ==> book[t].Terminal())
    ensures Held(ClearStop(rows, t), book, live)
    ensures Held(ClearClose(rows, t), book, live)
  {
    hide Bidding;
    if live {
      GrewReflexive(book);
      BiddingLasts(rows, ClearStop(rows, t), book, book);
      BiddingLasts(rows, ClearClose(rows, t), book, book);
      forall u | 0 <= u < |book| && book[u].side.Sell? && book[u].status.Resting?
        ensures TrackedAny(u, ClearStop(rows, t), book[u].pair)
        ensures TrackedAny(u, ClearClose(rows, t), book[u].pair)
      {
        var i :| TrackedBy(i, u, rows, book[u].pair);
        assert TrackedBy(i, u, ClearStop(rows, t), book[u].pair);
        assert TrackedBy(i, u, ClearClose(rows, t), book[u].pair);
      }
    }
  }

  ghost predicate NoSellRests(book: Book, p: Pair) {
    forall t :: 0 <= t < |book| && book[t].side.Sell? && book[t].pair == p ==> book[t].Terminal()
  }

  lemma RetireHolds(rows: seq<Row>, book: Book, live: bool, p: Pair)
    requires Held(rows, book, live) && (live ==> NoSellRests(book, p))
    ensures Held(RetirePair(rows, p), book, live)
  {
    hide Bidding;
    if live {
      GrewReflexive(book);
      BiddingLasts(rows, RetirePair(rows, p), book, book);
      forall u | 0 <= u < |book| && book[u].side.Sell? && book[u].status.Resting?
        ensures TrackedAny(u, RetirePair(rows, p), book[u].pair)
      {
        var i :| TrackedBy(i, u, rows, book[u].pair);
        assert TrackedBy(i, u, RetirePair(rows, p), book[u].pair);
      }
    }
  }

  /** The order is off the book. */
  predicate Off(t: Txid, book: Book) {
    t < |book| && book[t].Terminal()
  }

  lemma OffLasts(t: Txid, was: Book, now: Book)
    requires Off(t, was) && Grew(was, now)
    ensures Off(t, now)
  {
  }

  // ── the broker calls of a pass ──────────────────────────────────────────────

  method Cancel(tb: Table, kx: Kraken, t: Txid, ghost live: bool) returns (ok: bool)
    requires FlatOk(tb, kx, live)
    modifies kx`book, kx`safe, kx`trace
    ensures kx.safe ==> old(kx.safe)
    ensures FlatOk(tb, kx, live) && Grew(old(kx.book), kx.book) && (kx.closed ==> |kx.book| == |old(kx.book)|)
    ensures old(kx.trace) <= kx.trace
    ensures kx.trace == old(kx.trace) + [SentCancel(t, ok, kx.book)]
    ensures ok ==> t < |kx.book| && kx.book[t].status.Canceled?
    ensures kx.calm && t < |old(kx.book)| ==> Off(t, kx.book)
    ensures kx.calm ==> |kx.book| == |old(kx.book)| && (ok <==> t < |old(kx.book)| && old(kx.book)[t].status.Resting?)
    ensures kx.calm ==> OnlyTouched(old(kx.book), kx.book, Some(t))
  {
    hide Covered, Tracked, Grew;
    ghost var was := kx.book;
    ghost var es;
    ok, es := kx.CancelOrder(t);
    HeldLasts(tb.rows, was, kx.book, es, live);
  }

  method ReadOpenOrders(tb: Table, kx: Kraken, ghost live: bool) returns (r: Option<map<Txid, Order>>)
    requires FlatOk(tb, kx, live)
    modifies kx`book, kx`safe, kx`trace
    ensures kx.safe ==> old(kx.safe)
    ensures kx.trace == old(kx.trace) + [AskedOrders(r, kx.book)]
    ensures kx.calm ==> r.Some? && kx.book == old(kx.book)
    ensures FlatOk(tb, kx, live) && Grew(old(kx.book), kx.book) && (kx.closed ==> |kx.book| == |old(kx.book)|)
    ensures old(kx.trace) <= kx.trace
    ensures r.Some? ==> forall t: Txid :: t in r.value <==> t < |kx.book| && kx.book[t].status.Resting?
  {
    hide Covered, Tracked, Grew;
    ghost var was := kx.book;
    ghost var es;
    r, es := kx.OpenOrders();
    HeldLasts(tb.rows, was, kx.book, es, live);
  }

  method ReadPositions(tb: Table, kx: Kraken, ghost live: bool) returns (r: Option<Positions>)
    requires FlatOk(tb, kx, live)
    modifies kx`book, kx`safe, kx`trace
    ensures kx.safe ==> old(kx.safe)
    ensures kx.trace == old(kx.trace) + [AskedPositions(r, kx.book)]
    ensures kx.calm ==> r.Some? && kx.book == old(kx.book)
    ensures FlatOk(tb, kx, live) && Grew(old(kx.book), kx.book) && (kx.closed ==> |kx.book| == |old(kx.book)|)
    ensures old(kx.trace) <= kx.trace
    ensures kx.closed && r.Some? ==> r.value == PositionsOf(kx.book)
  {
    hide Covered, Tracked, Grew, PositionsOf;
    ghost var was := kx.book;
    ghost var es;
    r, es := kx.OpenPositions();
    HeldLasts(tb.rows, was, kx.book, es, live);
  }

  method ReadStatuses(tb: Table, kx: Kraken, ids: seq<Txid>, ghost live: bool) returns (m: map<Txid, Order>)
    requires FlatOk(tb, kx, live)
    modifies kx`book, kx`safe, kx`trace
    ensures kx.safe ==> old(kx.safe)
    ensures FlatOk(tb, kx, live) && Grew(old(kx.book), kx.book) && (kx.closed ==> |kx.book| == |old(kx.book)|)
    ensures old(kx.trace) <= kx.trace
    ensures kx.trace == old(kx.trace) + [AskedStatuses(ids, m, kx.book)]
    ensures Seen(m, kx.book) && forall t :: t in m ==> t in ids
    ensures forall t :: t in m && t < |old(kx.book)| ==> Became(old(kx.book)[t], m[t])
    ensures kx.calm ==> kx.book == old(kx.book) && forall t :: t in ids && t < |kx.book| ==> t in m && m[t] == kx.book[t]
  {
    hide Covered, Tracked, Grew, Became;
    ghost var was := kx.book;
    ghost var es;
    m, es := kx.QueryOrders(ids);
    HeldLasts(tb.rows, was, kx.book, es, live);
  }

  // ── sweeping our own orders ─────────────────────────────────────────────────

  /** The order a row has on the book by the batch's lights: a bid, or a stop. */
  function Ours(row: Row): Option<Txid> {
    if row.status.RowPending? then row.txid else if row.status.RowOpen? then row.stopTxid else None
  }

  /** Nothing was sent but cancels of orders of ours, for the first `n` rows one each. */
  ghost predicate OursSent(rows: seq<Row>, n: nat, before: seq<Call>, after: seq<Call>) {
    && before <= after
    && (forall k :: |before| <= k < |after| ==> after[k].SentCancel? && IsOurs(rows, n, after[k].t))
    && (forall i :: 0 <= i < |rows| && i < n && Ours(rows[i]).Some? ==> CancelSent(before, after, Ours(rows[i]).value))
  }

  predicate IsOurs(rows: seq<Row>, n: nat, t: Txid) {
    exists i :: 0 <= i < |rows| && i < n && Ours(rows[i]) == Some(t)
  }

  ghost predicate CancelSent(before: seq<Call>, after: seq<Call>, t: Txid) {
    exists k :: |before| <= k < |after| && after[k].SentCancel? && after[k].t == t
  }

  lemma OursSentStep(rows: seq<Row>, n: nat, before: seq<Call>, mid: seq<Call>, after: seq<Call>)
    requires n < |rows| && OursSent(rows, n, before, mid)
    requires if Ours(rows[n]).None? then after == mid
             else |after| == |mid| + 1 && mid <= after && after[|mid|].SentCancel? && after[|mid|].t == Ours(rows[n]).value
    ensures OursSent(rows, n + 1, before, after)
  {
    forall k | |before| <= k < |after| ensures after[k].SentCancel? && IsOurs(rows, n + 1, after[k].t) {
      if k < |mid| {
        assert after[k] == mid[k];
      } else {
        assert Ours(rows[n]) == Some(after[k].t);
      }
    }
    forall i | 0 <= i <= n && Ours(rows[i]).Some? ensures CancelSent(before, after, Ours(rows[i]).value) {
      if i < n {
        var k :| |before| <= k < |mid| && mid[k].SentCancel? && mid[k].t == Ours(rows[i]).value;
        assert after[k] == mid[k];
      }
    }
  }

  /** Every order of ours is off the book. */
  ghost predicate OursOff(rows: seq<Row>, n: nat, was: Book, book: Book) {
    forall i :: 0 <= i < |rows| && i < n && Ours(rows[i]).Some? && Ours(rows[i]).value < |was| ==> Off(Ours(rows[i]).value, book)
  }

  /** No order but ours has changed. */
  ghost predicate OthersKept(rows: seq<Row>, n: nat, was: Book, book: Book) {
    |book| == |was| && forall t :: 0 <= t < |was| && !IsOurs(rows, n, t) ==> book[t] == was[t]
  }

  lemma OursOffStep(rows: seq<Row>, n: nat, was: Book, mid: Book, book: Book)
    requires n < |rows| && OursOff(rows, n, was, mid) && OthersKept(rows, n, was, mid) && Grew(mid, book)
    requires if Ours(rows[n]).None? then book == mid
             else |book| == |mid| && OnlyTouched(mid, book, Ours(rows[n]))
                  && (Ours(rows[n]).value < |mid| ==> Off(Ours(rows[n]).value, book))
    ensures OursOff(rows, n + 1, was, book) && OthersKept(rows, n + 1, was, book)
  {
    hide Off;
    forall i | 0 <= i < n && Ours(rows[i]).Some? && Ours(rows[i]).value < |was| ensures Off(Ours(rows[i]).value, book) {
      OffLasts(Ours(rows[i]).value, mid, book);
    }
    forall t | 0 <= t < |was| && !IsOurs(rows, n + 1, t) ensures book[t] == was[t] {
      assert !IsOurs(rows, n, t);
      assert Ours(rows[n]) != Some(t);
    }
  }

  /** The batch cancel: a cancel for every bid and stop of ours and for no other order; its
      outcome is never trusted. When every call is answered none of them is left, and no other
      order has changed. */
  method CancelOurs(tb: Table, kx: Kraken, ghost live: bool)
    requires FlatOk(tb, kx, live)
    modifies kx`book, kx`safe, kx`trace
    ensures kx.safe ==> old(kx.safe)
    ensures FlatOk(tb, kx, live) && Grew(old(kx.book), kx.book) && (kx.closed ==> |kx.book| == |old(kx.book)|)
    ensures OursSent(tb.rows, |tb.rows|, old(kx.trace), kx.trace)
    ensures kx.calm ==> OursOff(tb.rows, |tb.rows|, old(kx.book), kx.book)
                        && OthersKept(tb.rows, |tb.rows|, old(kx.book), kx.book)
  {
    hide Grew, Held, Off, OursSent, OursOff, OthersKept, OnlyTouched;
    ghost var was, told := kx.book, kx.trace;
    GrewReflexive(was);
    NoneSent(tb.rows, told, was);
    for i := 0 to |tb.rows|
      invariant (kx.safe ==> old(kx.safe)) && FlatOk(tb, kx, live) && Grew(was, kx.book) && (kx.closed ==> |kx.book| == |was|)
      invariant OursSent(tb.rows, i, told, kx.trace)
      invariant kx.calm ==> OursOff(tb.rows, i, was, kx.book) && OthersKept(tb.rows, i, was, kx.book)
    {
      var row := tb.rows[i];
      var ours := match row.status case RowPending => row.txid case RowOpen => row.stopTxid case _ => None;
      ghost var mid, heard := kx.book, kx.trace;
      GrewReflexive(mid);
      if ours.Some? {
        var ok := Cancel(tb, kx, ours.value, live);
        GrewTransitive(was, mid, kx.book);
      }
      OursSentStep(tb.rows, i, told, heard, kx.trace);
      if kx.calm {
        OursOffStep(tb.rows, i, was, mid, kx.book);
      }
    }
  }

  lemma NoneSent(rows: seq<Row>, told: seq<Call>, book: Book)
    ensures OursSent(rows, 0, told, told) && OursOff(rows, 0, book, book) && OthersKept(rows, 0, book, book)
  {
  }

  /** A bid is resolved by its finished order alone, with exactly the volume that executed. */
  function BidSettled(row: Row, info: map<Txid, Order>): Row {
    if row.status.RowPending? && row.txid.Some? && row.txid.value in info && info[row.txid.value].Terminal()
    then (if info[row.txid.value].exec == 0 then row.(status := RowCanceled)
          else row.(status := RowOpen, vol := info[row.txid.value].exec))
    else row
  }

  function PendingPairs(rows: seq<Row>): set<Pair> {
    set i | 0 <= i < |rows| && rows[i].status.RowPending? :: rows[i].sym
  }

  lemma PendingPairsPush(rows: seq<Row>, row: Row)
    ensures PendingPairs(rows + [row]) == PendingPairs(rows) + if row.status.RowPending? then {row.sym} else {}
  {
    var more := rows + [row];
    forall i | 0 <= i < |rows| && rows[i].status.RowPending? ensures rows[i].sym in PendingPairs(more) {
      assert more[i] == rows[i];
    }
    if row.status.RowPending? {
      assert more[|rows|] == row;
    }
  }

  lemma PromoteHolds(rows: seq<Row>, book: Book, live: bool, i: nat, exec: nat)
    requires Held(rows, book, live) && i < |rows| && rows[i].status.RowPending?
    requires rows[i].txid.Some? && Off(rows[i].txid.value, book)
    ensures Held(rows[i := Fills.Promoted(rows[i], exec)], book, live)
  {
    var rows' := rows[i := Fills.Promoted(rows[i], exec)];
    assert rows[i].OneExit();
    if live {
      forall u | 0 <= u < |book| && book[u].side.Buy? && book[u].status.Resting?
        ensures exists j :: BidOf(j, u, rows', book[u].pair)
      {
        var j :| BidOf(j, u, rows, book[u].pair);
        assert BidOf(j, u, rows', book[u].pair);
      }
      forall u | 0 <= u < |book| && book[u].side.Sell? && book[u].status.Resting?
        ensures TrackedAny(u, rows', book[u].pair)
      {
        var j :| TrackedBy(j, u, rows, book[u].pair);
        assert TrackedBy(j, u, rows', book[u].pair);
      }
    }
  }

  /** Every bid whose order is finished is settled; the pairs of the others are blocked. */
  ghost predicate BidsSettled(rows: seq<Row>, now: seq<Row>, n: nat, info: map<Txid, Order>, blocked: set<Pair>) {
    && |now| == |rows|
    && (forall j :: 0 <= j < |rows| ==> now[j] == if j < n then BidSettled(rows[j], info) else rows[j])
    && n <= |now| && blocked == PendingPairs(now[..n])
  }

  lemma BidsSettledStep(rows: seq<Row>, now: seq<Row>, n: nat, info: map<Txid, Order>, blocked: set<Pair>)
    requires n < |rows| && BidsSettled(rows, now, n, info, blocked)
    ensures var row := BidSettled(rows[n], info);
            BidsSettled(rows, now[n := row], n + 1, info, blocked + if row.status.RowPending? then {row.sym} else {})
  {
    var row := BidSettled(rows[n], info);
    var now' := now[n := row];
    assert now'[..n + 1] == now[..n] + [row];
    PendingPairsPush(now[..n], row);
  }

  /** The bids: one batched status read of the orders of the pending rows, and each is settled
      by it or blocks its pair. */
  method SettleBids(tb: Table, kx: Kraken, ghost live: bool) returns (blocked: set<Pair>, ghost info: map<Txid, Order>)
    requires FlatOk(tb, kx, live)
    modifies tb`rows, kx`book, kx`safe, kx`trace
    ensures kx.safe ==> old(kx.safe)
    ensures FlatOk(tb, kx, live) && Grew(old(kx.book), kx.book) && (kx.closed ==> |kx.book| == |old(kx.book)|)
    ensures |kx.trace| == |old(kx.trace)| + 1 && old(kx.trace) <= kx.trace
    ensures Fills.BidsAsked(old(kx.trace), kx.trace, old(tb.rows), info)
    ensures Seen(info, kx.book)
    ensures BidsSettled(old(tb.rows), tb.rows, |old(tb.rows)|, info, blocked)
    ensures kx.calm ==> kx.book == old(kx.book) && Fills.AnsweredAll(old(tb.rows), info, old(kx.book))
  {
    hide Grew, Held, Seen, BidsSettled, Fills.ListsBids, Fills.AnsweredAll;
    var rows := tb.rows;
    var ids := Fills.ListPending(rows);
    var terminal := ReadStatuses(tb, kx, ids, live);
    info := terminal;
    blocked := {};
    if kx.calm {
      Fills.AllAnswered(rows, ids, terminal, kx.book);
    }
    BidsSettledStart(rows, terminal);
    ghost var read, heard := kx.book, kx.trace;
    for i := 0 to |rows|
      invariant (kx.safe ==> old(kx.safe)) && FlatOk(tb, kx, live) && kx.book == read && kx.trace == heard
      invariant BidsSettled(rows, tb.rows, i, terminal, blocked)
    {
      var row := rows[i];
      BidsSettledStep(rows, tb.rows, i, terminal, blocked);
      BidsAhead(rows, tb.rows, i, terminal, blocked);
      assert blocked + {} == blocked;
      if row.status.RowPending? {
        if row.txid.Some? && row.txid.value in terminal && terminal[row.txid.value].Terminal() {
          SeenTerminal(terminal, kx.book, row.txid.value);
          PromoteHolds(tb.rows, kx.book, live, i, terminal[row.txid.value].exec);
          tb.rows := tb.rows[i := Fills.Promoted(row, terminal[row.txid.value].exec)];
        } else {
          blocked := blocked + {row.sym};
        }
      }
    }
  }

  lemma BidsSettledStart(rows: seq<Row>, info: map<Txid, Order>)
    ensures BidsSettled(rows, rows, 0, info, {})
  {
  }

  lemma BidsAhead(rows: seq<Row>, now: seq<Row>, n: nat, info: map<Txid, Order>, blocked: set<Pair>)
    requires n < |rows| && BidsSettled(rows, now, n, info, blocked)
    ensures |now| == |rows| && now[n] == rows[n] && now[n := rows[n]] == now
  {
  }

  lemma BidsSettledMeans(rows: seq<Row>, now: seq<Row>, info: map<Txid, Order>, blocked: set<Pair>)
    requires BidsSettled(rows, now, |rows|, info, blocked)
    ensures |now| == |rows| && (forall i :: 0 <= i < |now| ==> now[i] == BidSettled(rows[i], info))
    ensures blocked == PendingPairs(now)
  {
    assert now[..|rows|] == now;
  }

  /** Stops left by the sweep: rows keep theirs or lose one that is off the book; only a
      blocked pair still has any. */
  ghost predicate StopsCleared(was: seq<Row>, now: seq<Row>, blocked: set<Pair>, todo: set<(Pair, Txid)>, book: Book) {
    && |now| == |was|
    && (forall i :: 0 <= i < |was| ==> now[i] == was[i] || now[i] == was[i].(stopTxid := None))
    && (forall i :: 0 <= i < |was| && was[i].status.RowOpen? && was[i].stopTxid.Some? ==>
                      if now[i].stopTxid.None? then Off(was[i].stopTxid.value, book)
                      else was[i].sym in blocked || (was[i].sym, was[i].stopTxid.value) in todo)
  }

  lemma StopsClearedStep(was: seq<Row>, now: seq<Row>, blocked: set<Pair>, todo: set<(Pair, Txid)>, mid: Book,
                         st: (Pair, Txid), book: Book)
    requires StopsCleared(was, now, blocked, todo, mid) && Grew(mid, book)
    ensures StopsCleared(was, now, blocked + {st.0}, todo - {st}, book)
    ensures Off(st.1, book) ==> StopsCleared(was, ClearStop(now, st.1), blocked, todo - {st}, book)
  {
  }

  /** The cancel of a stop of the pair was sent and failed. */
  ghost predicate StopFailed(rows: seq<Row>, before: seq<Call>, after: seq<Call>, p: Pair) {
    exists k, i ::
      && |before| <= k < |after| && after[k].SentCancel? && !after[k].ok
      && 0 <= i < |rows| && rows[i].status.RowOpen? && rows[i].sym == p && rows[i].stopTxid == Some(after[k].t)
  }

  lemma StopFailedLasts(rows: seq<Row>, a: seq<Call>, before: seq<Call>, after: seq<Call>, b: seq<Call>, p: Pair)
    requires StopFailed(rows, before, after, p) && a <= before && after <= b
    ensures StopFailed(rows, a, b, p)
  {
    var k, i :| |before| <= k < |after| && after[k].SentCancel? && !after[k].ok
                && 0 <= i < |rows| && rows[i].status.RowOpen? && rows[i].sym == p && rows[i].stopTxid == Some(after[k].t);
    assert b[k] == after[k];
  }

  /** What a stretch of stop cancels did to the blocked pairs: only a failed cancel adds one. */
  ghost predicate StopsTold(rows: seq<Row>, before: seq<Call>, after: seq<Call>, blocked: set<Pair>, blocked': set<Pair>) {
    && before <= after && blocked <= blocked'
    && (forall k :: |before| <= k < |after| ==> after[k].SentCancel?)
    && (forall p :: p in blocked' && p !in blocked ==> StopFailed(rows, before, after, p))
  }

  lemma StopsToldStep(rows: seq<Row>, before: seq<Call>, mid: seq<Call>, after: seq<Call>, blocked: set<Pair>,
                      was: set<Pair>, now: set<Pair>, st: (Pair, Txid), i: nat)
    requires StopsTold(rows, before, mid, blocked, was)
    requires i < |rows| && rows[i].status.RowOpen? && (rows[i].sym, rows[i].stopTxid) == (st.0, Some(st.1))
    requires after == mid || (|after| == |mid| + 1 && mid <= after && after[|mid|].SentCancel? && after[|mid|].t == st.1)
    requires now == was || (now == was + {st.0} && after != mid && !after[|mid|].ok)
    ensures StopsTold(rows, before, after, blocked, now)
  {
    hide StopFailed;
    forall k | |before| <= k < |mid| ensures after[k] == mid[k] {
    }
    forall p | p in now && p !in blocked ensures StopFailed(rows, before, after, p) {
      if p in was {
        StopFailedLasts(rows, before, before, mid, after, p);
      } else {
        NowFailed(rows, before, after, |mid|, i);
      }
    }
  }

  lemma NowFailed(rows: seq<Row>, before: seq<Call>, after: seq<Call>, k: nat, i: nat)
    requires |before| <= k < |after| && after[k].SentCancel? && !after[k].ok
    requires i < |rows| && rows[i].status.RowOpen? && rows[i].stopTxid == Some(after[k].t)
    ensures StopFailed(rows, before, after, rows[i].sym)
  {
  }

  function StopsOf(rows: seq<Row>): set<(Pair, Txid)> {
    set i | 0 <= i < |rows| && rows[i].status.RowOpen? && rows[i].stopTxid.Some? :: (rows[i].sym, rows[i].stopTxid.value)
  }

  /** One stop: canceled if it was shown resting, and forgotten unless that failed. */
  method CancelStop(tb: Table, kx: Kraken, st: (Pair, Txid), oo: map<Txid, Order>, blocked: set<Pair>,
                    ghost rows: seq<Row>, ghost todo: set<(Pair, Txid)>, ghost shown: Book, ghost live: bool)
    returns (blocked': set<Pair>)
    requires FlatOk(tb, kx, live) && Grew(shown, kx.book) && st.1 < |shown|
    requires forall t: Txid :: t in oo <==> t < |shown| && shown[t].status.Resting?
    requires StopsCleared(rows, tb.rows, blocked, todo, kx.book)
    modifies tb`rows, kx`book, kx`safe, kx`trace
    ensures kx.safe ==> old(kx.safe)
    ensures FlatOk(tb, kx, live) && Grew(old(kx.book), kx.book) && (kx.closed ==> |kx.book| == |old(kx.book)|)
    ensures StopsCleared(rows, tb.rows, blocked', todo - {st}, kx.book)
    ensures st.1 !in oo ==> blocked' == blocked && kx.trace == old(kx.trace) && kx.book == old(kx.book)
                            && tb.rows == ClearStop(old(tb.rows), st.1) && Off(st.1, kx.book)
    ensures kx.trace == old(kx.trace)
            || (|kx.trace| == |old(kx.trace)| + 1 && old(kx.trace) <= kx.trace && kx.trace[|old(kx.trace)|].SentCancel?
                && kx.trace[|old(kx.trace)|].t == st.1)
    ensures blocked' == blocked
            || (blocked' == blocked + {st.0} && kx.trace != old(kx.trace) && !kx.trace[|old(kx.trace)|].ok)
  {
    hide Grew, Held, Became;
    ghost var mid := kx.book;
    var ok := true;
    GrewReflexive(mid);
    if st.1 in oo {
      ok := Cancel(tb, kx, st.1, live);
    } else {
      OffLasts(st.1, shown, kx.book);
    }
    StopsClearedStep(rows, tb.rows, blocked, todo, mid, st, kx.book);
    if ok {
      ClearsHold(tb.rows, kx.book, live, st.1);
      tb.rows := ClearStop(tb.rows, st.1);
      blocked' := blocked;
    } else {
      blocked' := blocked + {st.0};
    }
  }

  /** The stops still recorded: each canceled if OpenOrders showed it, and its reference dropped
      once it is certain to be off the book; otherwise its pair is blocked, and only then. */
  method CancelStops(tb: Table, kx: Kraken, oo: map<Txid, Order>, blocked: set<Pair>, ghost shown: Book, ghost live: bool)
    returns (blocked': set<Pair>)
    requires FlatOk(tb, kx, live) && Grew(shown, kx.book) && Recorded(tb.rows, shown)
    requires forall t: Txid :: t in oo <==> t < |shown| && shown[t].status.Resting?
    modifies tb`rows, kx`book, kx`safe, kx`trace
    ensures kx.safe ==> old(kx.safe)
    ensures FlatOk(tb, kx, live) && Grew(old(kx.book), kx.book) && (kx.closed ==> |kx.book| == |old(kx.book)|)
    ensures StopsTold(old(tb.rows), old(kx.trace), kx.trace, blocked, blocked')
    ensures StopsCleared(old(tb.rows), tb.rows, blocked', {}, kx.book)
    ensures (forall st :: st in StopsOf(old(tb.rows)) ==> st.1 !in oo) ==>
              blocked' == blocked && kx.book == old(kx.book) && StopsCleared(old(tb.rows), tb.rows, {}, {}, kx.book)
  {
    hide Grew, Held, Became, StopsCleared, StopsTold;
    var rows := tb.rows;
    var todo := set i | 0 <= i < |rows| && rows[i].stopTxid.Some? && rows[i].status.RowOpen? ::
      (rows[i].sym, rows[i].stopTxid.value);
    assert todo == StopsOf(rows);
    blocked' := blocked;
    ghost var was, told := kx.book, kx.trace;
    GrewReflexive(was);
    NothingTold(rows, told, blocked, was);
    while todo != {}
      invariant (kx.safe ==> old(kx.safe)) && FlatOk(tb, kx, live) && Grew(was, kx.book) && (kx.closed ==> |kx.book| == |was|)
      invariant Grew(shown, kx.book)
      invariant todo <= StopsOf(rows)
      invariant StopsTold(rows, told, kx.trace, blocked, blocked')
      invariant StopsCleared(rows, tb.rows, blocked', todo, kx.book)
      invariant (forall st :: st in StopsOf(rows) ==> st.1 !in oo) ==>
                  blocked' == blocked && kx.book == was && StopsCleared(rows, tb.rows, {}, todo, kx.book)
      decreases todo
    {
      var st :| st in todo;
      ghost var mid, heard, had, now := kx.book, kx.trace, blocked', tb.rows;
      ghost var i :| 0 <= i < |rows| && rows[i].status.RowOpen? && rows[i].stopTxid.Some?
                     && (rows[i].sym, rows[i].stopTxid.value) == st;
      blocked' := CancelStop(tb, kx, st, oo, blocked', rows, todo, shown, live);
      GrewTransitive(was, mid, kx.book);
      GrewTransitive(shown, mid, kx.book);
      if st.1 !in oo && StopsCleared(rows, now, {}, todo, mid) {
        GrewReflexive(mid);
        StopsClearedStep(rows, now, {}, todo, mid, st, mid);
      }
      StopsToldStep(rows, told, heard, kx.trace, blocked, had, blocked', st, i);
      todo := todo - {st};
    }
  }

  lemma NothingTold(rows: seq<Row>, told: seq<Call>, blocked: set<Pair>, book: Book)
    ensures StopsTold(rows, told, told, blocked, blocked)
    ensures StopsCleared(rows, rows, blocked, StopsOf(rows), book) && StopsCleared(rows, rows, {}, StopsOf(rows), book)
  {
  }

  // ── one pair of the pass ────────────────────────────────────────────────────

  function ClosesOf(rows: seq<Row>, p: Pair): set<Txid> {
    set i | 0 <= i < |rows| && rows[i].status.RowOpen? && rows[i].sym == p && rows[i].closeTxid.Some? ::
      rows[i].closeTxid.value
  }

  /** The row kept its close, or lost one that was asked about and is off the book. */
  predicate Loosened(was: Row, now: Row, info: map<Txid, Order>, book: Book) {
    || now == was
    || (was.closeTxid.Some? && was.closeTxid.value in info && Off(was.closeTxid.value, book)
        && now == was.(closeTxid := None))
  }

  ghost predicate LoosenedAll(was: seq<Row>, now: seq<Row>, info: map<Txid, Order>, book: Book) {
    |now| == |was| && forall i :: 0 <= i < |was| ==> Loosened(was[i], now[i], info, book)
  }

  lemma LoosenedAllLasts(was: seq<Row>, now: seq<Row>, info: map<Txid, Order>, mid: Book, book: Book)
    requires LoosenedAll(was, now, info, mid) && Grew(mid, book)
    ensures LoosenedAll(was, now, info, book)
  {
  }

  /** Every sell of the pair that rested when the position was read is still referred to by
      an open row of the pair, or known to have finished. */
  ghost predicate Accounted(rows: seq<Row>, atRead: Book, info: map<Txid, Order>, p: Pair) {
    forall u :: 0 <= u < |atRead| && atRead[u].side.Sell? && atRead[u].pair == p && atRead[u].status.Resting? ==>
                  (u in info && info[u].Terminal()) || TrackedAny(u, rows, p)
  }

  lemma AccountedClear(rows: seq<Row>, atRead: Book, info: map<Txid, Order>, p: Pair, t: Txid)
    requires Accounted(rows, atRead, info, p) && t in info && info[t].Terminal()
    ensures Accounted(ClearClose(rows, t), atRead, info, p)
  {
    forall u | 0 <= u < |atRead| && atRead[u].side.Sell? && atRead[u].pair == p && atRead[u].status.Resting? && u != t
               && !(u in info && info[u].Terminal())
      ensures TrackedAny(u, ClearClose(rows, t), p)
    {
      var i :| TrackedBy(i, u, rows, p);
      assert TrackedBy(i, u, ClearClose(rows, t), p);
    }
  }

  /** Where the closes of a pair stand after their statuses were sorted: `todo` not yet. */
  ghost predicate Sorted(was: seq<Row>, now: seq<Row>, p: Pair, info: map<Txid, Order>, todo: set<Txid>, book: Book) {
    && LoosenedAll(was, now, info, book)
    && (forall t :: t in ClosesOf(now, p) && t !in todo ==> t !in info || info[t].status.Resting?)
    && ClosesOf(now, p) <= ClosesOf(was, p)
  }

  /** Spent references are cleared; a close whose status is unknown or that rests is kept. */
  method SortCloses(tb: Table, kx: Kraken, p: Pair, info: map<Txid, Order>, ghost live: bool)
    returns (resting: Option<Txid>, unknown: bool)
    requires FlatOk(tb, kx, live) && Seen(info, kx.book)
    modifies tb`rows
    ensures FlatOk(tb, kx, live)
    ensures Sorted(old(tb.rows), tb.rows, p, info, {}, kx.book)
    ensures unknown <==> exists t :: t in ClosesOf(old(tb.rows), p) && t !in info
    ensures resting.Some? ==> resting.value in info && info[resting.value].status.Resting?
                              && resting.value in ClosesOf(old(tb.rows), p)
    ensures resting.None? ==> forall t :: t in ClosesOf(old(tb.rows), p) && t in info ==> info[t].Terminal()
    ensures !unknown && resting.None? ==> ClosesOf(tb.rows, p) == {}
    ensures forall q, atRead :: Accounted(old(tb.rows), atRead, info, q) ==> Accounted(tb.rows, atRead, info, q)
  {
    hide Held, Accounted, Seen;
    var rows := tb.rows;
    var closes := ClosesOf(rows, p);
    var todo := closes;
    resting, unknown := None, false;
    while todo != {}
      invariant todo <= closes && FlatOk(tb, kx, live) && Sorted(rows, tb.rows, p, info, todo, kx.book)
      invariant unknown <==> exists t :: t in closes - todo && t !in info
      invariant resting.Some? ==> resting.value in info && info[resting.value].status.Resting? && resting.value in closes
      invariant resting.None? ==> forall t :: t in closes - todo && t in info ==> info[t].Terminal()
      invariant forall q, atRead :: Accounted(rows, atRead, info, q) ==> Accounted(tb.rows, atRead, info, q)
      decreases todo
    {
      var t :| t in todo;
      if t !in info {
        unknown := true;
      } else if info[t].status.Resting? {
        resting := Some(t);
      } else {
        SeenTerminal(info, kx.book, t);
        ClearsHold(tb.rows, kx.book, live, t);
        forall q, atRead | Accounted(tb.rows, atRead, info, q) ensures Accounted(ClearClose(tb.rows, t), atRead, info, q) {
          AccountedClear(tb.rows, atRead, info, q, t);
        }
        SortedClear(rows, tb.rows, p, info, todo, t, kx.book);
        tb.rows := ClearClose(tb.rows, t);
      }
      todo := todo - {t};
    }
    assert closes - todo == closes;
  }

  lemma SortedClear(was: seq<Row>, now: seq<Row>, p: Pair, info: map<Txid, Order>, todo: set<Txid>, t: Txid,
                    book: Book)
    requires Sorted(was, now, p, info, todo, book) && t in info && Off(t, book)
    ensures Sorted(was, ClearClose(now, t), p, info, todo - {t}, book)
  {
    var after := ClearClose(now, t);
    forall i | 0 <= i < |was| ensures Loosened(was[i], after[i], info, book) {
      assert Loosened(was[i], now[i], info, book);
    }
    forall i | 0 <= i < |after| && after[i].closeTxid.Some? ensures now[i] == after[i] && after[i].closeTxid.value != t {
    }
    assert ClosesOf(after, p) <= ClosesOf(now, p) && t !in ClosesOf(after, p);
  }

  // ── the size of the sell ────────────────────────────────────────────────────

  /** A close of the pair executed between the reading of the position and the reading of
      the statuses. */
  ghost predicate SoldBetween(info: map<Txid, Order>, atRead: Book, p: Pair) {
    exists t :: t in info && t < |atRead| && atRead[t].pair == p && atRead[t].side.Sell? && atRead[t].exec < info[t].exec
  }

  /** Since the position was read the market moved, and every order added is for another pair. */
  ghost predicate Window(atRead: Book, book: Book, p: Pair) {
    Grew(atRead, book) && forall t :: |atRead| <= t < |book| ==> book[t].pair != p
  }

  lemma {:induction false} NetGrows(was: Book, now: Book, p: Pair)
    requires |was| <= |now|
    requires forall t :: 0 <= t < |was| ==> Signed(was[t], p) <= Signed(now[t], p)
    requires forall t :: |was| <= t < |now| ==> now[t].pair != p
    ensures Net(was, p) <= Net(now, p)
  {
    var a: seq<int> := seq(|was|, t requires 0 <= t < |was| => Signed(was[t], p));
    var b: seq<int> := seq(|now|, t requires 0 <= t < |now| => Signed(now[t], p));
    if |was| == |now| {
      SumMono(a, b);
    } else {
      var n := |now| - 1;
      NetGrows(was, now[..n], p);
      assert b == seq(n, t requires 0 <= t < n => Signed(now[..n][t], p)) + [0];
      SumPush(seq(n, t requires 0 <= t < n => Signed(now[..n][t], p)), 0);
    }
  }

  /** If no close executed in between, the position has not shrunk since it was read. */
  lemma PositionHeld(rows: seq<Row>, atRead: Book, book: Book, info: map<Txid, Order>, p: Pair)
    requires BookOk(atRead) && Window(atRead, book, p) && Accounted(rows, atRead, info, p) && Seen(info, book)
    requires forall t :: t in info && t < |atRead| ==> Became(atRead[t], info[t])
    requires forall i :: 0 <= i < |rows| && rows[i].status.RowOpen? && rows[i].sym == p ==>
                           rows[i].stopTxid.None? && rows[i].closeTxid.None?
    requires !SoldBetween(info, atRead, p)
    ensures Net(atRead, p) <= Net(book, p)
  {
    forall t | 0 <= t < |atRead| ensures Signed(atRead[t], p) <= Signed(book[t], p) {
      assert Became(atRead[t], book[t]);
      if atRead[t].pair == p && atRead[t].side.Sell? && atRead[t].status.Resting? {
        assert t in info && info[t].Terminal();
        SeenTerminal(info, book, t);
        assert !(atRead[t].exec < info[t].exec);
      }
    }
    NetGrows(atRead, book, p);
  }

  lemma NothingRests(rows: seq<Row>, book: Book, p: Pair)
    requires Tracked(rows, book)
    requires forall i :: 0 <= i < |rows| && rows[i].status.RowOpen? && rows[i].sym == p ==>
                           rows[i].stopTxid.None? && rows[i].closeTxid.None?
    ensures NoSellRests(book, p)
  {
  }

  lemma FreeIsNet(book: Book, p: Pair)
    requires BookOk(book) && NoSellRests(book, p)
    ensures Free(book, p) == Net(book, p)
  {
    FreeIsNetLessResting(book, p);
    var s: seq<int> := seq(|book|, t requires 0 <= t < |book| => RestingSell(book[t], p));
    SumZeros(s);
  }

  /** A pair read flat on a covered account has no sell resting, then or later. */
  lemma FlatHasNoSells(atRead: Book, book: Book, p: Pair)
    requires Covered(atRead) && Net(atRead, p) <= 0 && Window(atRead, book, p)
    ensures NoSellRests(book, p)
  {
    var s: seq<int> := seq(|atRead|, t requires 0 <= t < |atRead| => RestingSell(atRead[t], p));
    SumNonNegative(s);
    assert RestingSells(atRead, p) <= Net(atRead, p);
    forall t | 0 <= t < |book| && book[t].side.Sell? && book[t].pair == p ensures book[t].Terminal() {
      assert t < |atRead| && Became(atRead[t], book[t]);
      assert s[t] <= 0;
      assert atRead[t].Ok();
    }
  }

  // ── what a pass sends ───────────────────────────────────────────────────────

  ghost predicate OnlyCancels(before: seq<Call>, after: seq<Call>) {
    before <= after && forall k :: |before| <= k < |after| ==> after[k].SentCancel?
  }

  /** One pair's turn sends cancels, and then at most one sell, of the volume that was read. */
  ghost predicate PairTold(before: seq<Call>, after: seq<Call>, p: Pair, vol: nat, placed: Option<Txid>) {
    && before <= after
    && (forall k :: |before| <= k < |after| ==>
                      after[k].SentCancel? || (k == |after| - 1 && IsSell(after[k], p, vol) && after[k].placed == placed))
    && (placed.Some? ==> |before| < |after| && after[|after| - 1].SentOrder?)
  }

  predicate IsSell(c: Call, p: Pair, vol: nat) {
    c.SentOrder? && c.order.side.Sell? && c.order.kind.Limit? && c.order.pair == p && c.order.vol == vol
  }

  lemma CancelsTold(before: seq<Call>, after: seq<Call>, p: Pair, vol: nat)
    requires OnlyCancels(before, after)
    ensures PairTold(before, after, p, vol, None)
  {
  }

  lemma OneSellTold(before: seq<Call>, c: Call, p: Pair, vol: nat)
    requires IsSell(c, p, vol)
    ensures PairTold(before, before + [c], p, vol, c.placed)
  {
  }

  /** What the turns of all pairs sent: cancels, and at most one sell for each pair that was not
      blocked, of exactly the volume read; those that landed are the ones counted. */
  ghost predicate SellsTold(before: seq<Call>, after: seq<Call>, todo: set<Pair>, read: Positions, blocked: set<Pair>,
                            placed: map<Pair, Txid>)
  {
    && before <= after
    && (forall k :: |before| <= k < |after| ==> after[k].SentCancel? || SoldFor(after[k], todo, read, blocked, placed))
    && (forall j, k :: |before| <= j < k < |after| && after[j].SentOrder? && after[k].SentOrder? ==>
                         after[j].order.pair != after[k].order.pair)
    && (forall p :: p in placed ==> SellTold(before, after, p, placed[p]))
  }

  ghost predicate SoldFor(c: Call, todo: set<Pair>, read: Positions, blocked: set<Pair>, placed: map<Pair, Txid>) {
    && c.SentOrder? && c.order.pair !in todo && c.order.pair !in blocked && IsSell(c, c.order.pair, Long(read, c.order.pair))
    && (c.placed.Some? ==> c.order.pair in placed && placed[c.order.pair] == c.placed.value)
  }

  ghost predicate SellTold(before: seq<Call>, after: seq<Call>, p: Pair, t: Txid) {
    exists k :: |before| <= k < |after| && after[k].SentOrder? && after[k].order.pair == p && after[k].placed == Some(t)
  }

  lemma SellsToldStart(told: seq<Call>, todo: set<Pair>, read: Positions, blocked: set<Pair>)
    ensures SellsTold(told, told, todo, read, blocked, map[])
  {
  }

  lemma SellsToldStep(before: seq<Call>, mid: seq<Call>, after: seq<Call>, todo: set<Pair>, p: Pair, read: Positions,
                      blocked: set<Pair>, placed: map<Pair, Txid>, t: Option<Txid>)
    requires SellsTold(before, mid, todo, read, blocked, placed) && p in todo && p !in blocked && p !in placed
    requires PairTold(mid, after, p, Long(read, p), t)
    ensures SellsTold(before, after, todo - {p}, read, blocked, if t.Some? then placed[p := t.value] else placed)
  {
    hide Long;
    var placed' := if t.Some? then placed[p := t.value] else placed;
    forall k | |before| <= k < |after|
      ensures after[k].SentCancel? || SoldFor(after[k], todo - {p}, read, blocked, placed')
    {
      if k < |mid| {
        assert after[k] == mid[k];
      }
    }
    forall q | q in placed' ensures SellTold(before, after, q, placed'[q]) {
      if t.Some? && q == p {
        assert after[|after| - 1].order.pair == p;
      } else {
        var k :| |before| <= k < |mid| && mid[k].SentOrder? && mid[k].order.pair == q && mid[k].placed == Some(placed[q]);
        assert after[k] == mid[k];
      }
    }
    forall j, k | |before| <= j < k < |after| && after[j].SentOrder? && after[k].SentOrder?
      ensures after[j].order.pair != after[k].order.pair
    {
      if k < |mid| {
        assert after[j] == mid[j] && after[k] == mid[k];
      } else if j < |mid| {
        assert after[j] == mid[j] && SoldFor(mid[j], todo, read, blocked, placed);
      }
    }
  }

  // ── acting on a pair ────────────────────────────────────────────────────────

  /** A cancel was sent for each of these closes that was shown resting, and for nothing else. */
  ghost predicate Tidied(before: seq<Call>, after: seq<Call>, ids: set<Txid>, info: map<Txid, Order>) {
    && before <= after
    && (forall k :: |before| <= k < |after| ==>
                      after[k].SentCancel? && after[k].t in ids && after[k].t in info && info[after[k].t].status.Resting?)
    && forall t :: t in ids && t in info && info[t].status.Resting? ==> CancelSent(before, after, t)
  }

  lemma TidiedMore(before: seq<Call>, mid: seq<Call>, ids: set<Txid>, info: map<Txid, Order>, t: Txid, after: seq<Call>)
    requires Tidied(before, mid, ids, info)
    requires if t in info && info[t].status.Resting?
             then |after| == |mid| + 1 && mid <= after && after[|mid|].SentCancel? && after[|mid|].t == t else after == mid
    ensures Tidied(before, after, ids + {t}, info)
  {
    forall u | u in ids && u in info && info[u].status.Resting? ensures CancelSent(before, after, u) {
      assert CancelSent(before, mid, u);
      var k :| |before| <= k < |mid| && mid[k].SentCancel? && mid[k].t == u;
      assert after[k] == mid[k];
    }
    forall k | |before| <= k < |mid| ensures after[k] == mid[k] {
    }
    if t in info && info[t].status.Resting? {
      assert after[|mid|].SentCancel? && after[|mid|].t == t;
    }
  }

  lemma NothingTidied(told: seq<Call>, info: map<Txid, Order>)
    ensures Tidied(told, told, {}, info)
  {
  }

  /** The pair was read flat: tidy its closes away and retire its rows. */
  method RetireFlat(tb: Table, kx: Kraken, p: Pair, info: map<Txid, Order>, ghost atRead: Book, ghost live: bool)
    requires FlatOk(tb, kx, live)
    requires live ==> Covered(atRead) && Net(atRead, p) <= 0 && Window(atRead, kx.book, p)
    modifies tb`rows, kx`book, kx`safe, kx`trace
    ensures kx.safe ==> old(kx.safe)
    ensures FlatOk(tb, kx, live) && Grew(old(kx.book), kx.book) && (kx.closed ==> |kx.book| == |old(kx.book)|)
    ensures old(kx.trace) <= kx.trace
    ensures tb.rows == RetirePair(old(tb.rows), p)
    ensures OnlyCancels(old(kx.trace), kx.trace) && Tidied(old(kx.trace), kx.trace, ClosesOf(old(tb.rows), p), info)
  {
    hide Held, Grew, Covered, Net, Tidied;
    ghost var was, told := kx.book, kx.trace;
    GrewReflexive(was);
    NothingTidied(told, info);
    var closes := ClosesOf(tb.rows, p);
    var todo := closes;
    assert closes - todo == {};
    while todo != {}
      invariant todo <= closes && Tidied(told, kx.trace, closes - todo, info)
      invariant (kx.safe ==> old(kx.safe)) && FlatOk(tb, kx, live) && Grew(was, kx.book) && (kx.closed ==> |kx.book| == |was|)
      invariant tb.rows == old(tb.rows) && OnlyCancels(told, kx.trace)
      decreases todo
    {
      var t :| t in todo;
      assert closes - (todo - {t}) == closes - todo + {t};
      todo := todo - {t};
      ghost var heard := kx.trace;
      if t in info && info[t].status.Resting? {
        ghost var mid := kx.book;
        var ok := Cancel(tb, kx, t, live);
        GrewTransitive(was, mid, kx.book);
      }
      TidiedMore(told, heard, closes - todo - {t}, info, t, kx.trace);
      assert closes - todo - {t} + {t} == closes - todo;
    }
    assert closes - todo == closes;
    if live {
      WindowLasts(atRead, was, kx.book, p);
      FlatHasNoSells(atRead, kx.book, p);
    }
    RetireHolds(tb.rows, kx.book, live, p);
    tb.rows := RetirePair(tb.rows, p);
  }

  lemma WindowLasts(atRead: Book, was: Book, now: Book, p: Pair)
    requires Window(atRead, was, p) && Grew(was, now) && |now| == |was|
    ensures Window(atRead, now, p)
  {
  }

  /** The close a pass rests for a pair: a post-only sell of the volume that was read. */
  predicate PairClose(o: Order, p: Pair, vol: nat, q: Harvest.Quote) {
    && o.pair == p && o.side.Sell? && o.kind.Limit? && o.vol == vol
    && MakerSell(q.bid, q.ask).Some? && o.price == MakerSell(q.bid, q.ask).value as real
  }

  /** The quote leaves room for a maker sell. */
  predicate Priced(q: Option<Harvest.Quote>) {
    q.Some? && MakerSell(q.value.bid, q.value.ask).Some?
  }

  lemma OneSellMore(was: seq<Row>, now: seq<Row>, book: Book, o: Order)
    requires Bidding(was, book) && SamePending(was, now) && o.side.Sell?
    ensures Bidding(now, book + [o])
  {
    assert Grew(book, book + [o]);
    BiddingLasts(was, now, book, book + [o]);
  }

  lemma AssignHolds(rows: seq<Row>, was: Book, es: seq<Event>, o: Order, live: bool)
    requires Held(rows, was, live) && o.side.Sell?
    requires forall i :: 0 <= i < |rows| && rows[i].status.RowOpen? && rows[i].sym == o.pair ==>
                           rows[i].stopTxid.None? && rows[i].closeTxid.None?
    requires exists i :: 0 <= i < |rows| && rows[i].status.RowOpen? && rows[i].sym == o.pair
    requires live ==> Covered(Play(was, es) + [o])
    ensures live ==> Held(AssignClose(rows, o.pair, |was|), Play(was, es) + [o], true)
  {
    hide Covered, Bidding;
    var (after, book) := (AssignClose(rows, o.pair, |was|), Play(was, es) + [o]);
    if live {
      PlayGrew(was, es);
      TrackedLasts(rows, was, Play(was, es));
      BiddingLasts(rows, rows, was, Play(was, es));
      OneSellMore(rows, after, Play(was, es), o);
      forall u | 0 <= u < |book| && book[u].side.Sell? && book[u].status.Resting?
        ensures TrackedAny(u, after, book[u].pair)
      {
        if u == |was| {
          var i :| 0 <= i < |rows| && rows[i].status.RowOpen? && rows[i].sym == o.pair;
          assert TrackedBy(i, u, after, book[u].pair);
        } else {
          var i :| TrackedBy(i, u, rows, book[u].pair);
          assert TrackedBy(i, u, after, book[u].pair);
        }
      }
    }
  }

  lemma AssignKeepsRows(rows: seq<Row>, book: Book, p: Pair, t: Txid, now: Book)
    requires OneExitEach(rows) && Recorded(rows, book) && |book| <= |now| && t < |now|
    requires forall i :: 0 <= i < |rows| && rows[i].status.RowOpen? && rows[i].sym == p ==> rows[i].stopTxid.None?
    ensures OneExitEach(AssignClose(rows, p, t)) && Recorded(AssignClose(rows, p, t), now)
  {
  }

  /** No sell of the pair is left: rest one for the whole volume that was read and share it
      among the pair's rows. Only a close that executed between the two readings can make the
      volume stale; otherwise the account stays covered. */
  method PlaceClose(tb: Table, kx: Kraken, p: Pair, vol: nat, info: map<Txid, Order>, q: Option<Harvest.Quote>,
                    ghost atRead: Book, ghost live: bool)
    returns (ghost placed: Option<Txid>, ghost raced: bool)
    requires FlatOk(tb, kx, live) && Seen(info, kx.book)
    requires forall i :: 0 <= i < |tb.rows| && tb.rows[i].status.RowOpen? && tb.rows[i].sym == p ==>
                           tb.rows[i].stopTxid.None? && tb.rows[i].closeTxid.None?
    requires exists i :: 0 <= i < |tb.rows| && tb.rows[i].status.RowOpen? && tb.rows[i].sym == p
    requires live ==> BookOk(atRead) && vol == Max(0, Net(atRead, p)) && Window(atRead, kx.book, p) && NoBids(atRead, p)
                      && Accounted(tb.rows, atRead, info, p)
                      && (forall t :: t in info && t < |atRead| ==> Became(atRead[t], info[t]))
    modifies tb`rows, kx`book, kx`safe, kx`trace
    ensures kx.safe ==> old(kx.safe)
    ensures Grew(old(kx.book), kx.book) && old(kx.trace) <= kx.trace && FlatOk(tb, kx, live && !raced)
    ensures raced <==> live && placed.Some? && SoldBetween(info, atRead, p)
    ensures raced ==> !kx.safe
    ensures tb.rows == if placed.Some? then AssignClose(old(tb.rows), p, placed.value) else old(tb.rows)
    ensures placed.Some? ==> 0 < vol && |old(kx.book)| <= placed.value == |kx.book| - 1
                             && q.Some? && PairClose(kx.book[placed.value], p, vol, q.value)
    ensures kx.closed ==> |kx.book| == |old(kx.book)| + if placed.Some? then 1 else 0
    ensures kx.calm && 0 < vol && Priced(q) ==> placed.Some?
    ensures PairTold(old(kx.trace), kx.trace, p, vol, placed)
    ensures forall k :: |old(kx.trace)| <= k < |kx.trace| ==> !kx.trace[k].SentCancel?
  {
    hide Covered, Grew, BookOk, PairTold, Free, Net, Tracked, Accounted, Seen, Became, MakerSell, Play, NoBids, SoldBetween;
    placed, raced := None, false;
    GrewReflexive(kx.book);
    CancelsTold(kx.trace, kx.trace, p, vol);
    if q.None? {
      return;
    }
    var px := MakerSell(q.value.bid, q.value.ask);
    if px.None? {
      return;
    }
    ghost var was, rows := kx.book, tb.rows;
    if live && !SoldBetween(info, atRead, p) {
      VolumeIsFree(rows, atRead, was, info, p, vol);
    }
    ghost var o := NewOrder(p, Sell, Limit, px.value as real, vol, 0);
    var t;
    ghost var es;
    t, es := kx.AddSell(p, Limit, px.value as real, vol);
    OneSellTold(old(kx.trace), SentOrder(o, t, kx.book), p, vol);
    if t.None? {
      HeldLasts(rows, was, kx.book, es, live);
      return;
    }
    placed, raced := t, live && SoldBetween(info, atRead, p);
    if raced {
      OutrunUncovers(rows, atRead, was, es, info, p, o);
    }
    AssignKeepsRows(rows, was, p, t.value, kx.book);
    if live && !raced {
      AssignHolds(rows, was, es, o, true);
      assert |Play(was, es)| == |was|;
    }
    tb.rows := AssignClose(tb.rows, p, t.value);
  }

  lemma VolumeIsFree(rows: seq<Row>, atRead: Book, book: Book, info: map<Txid, Order>, p: Pair, vol: nat)
    requires BookOk(atRead) && Covered(book) && Tracked(rows, book)
    requires Window(atRead, book, p) && Accounted(rows, atRead, info, p) && Seen(info, book)
    requires forall t :: t in info && t < |atRead| ==> Became(atRead[t], info[t])
    requires forall i :: 0 <= i < |rows| && rows[i].status.RowOpen? && rows[i].sym == p ==>
                           rows[i].stopTxid.None? && rows[i].closeTxid.None?
    requires !SoldBetween(info, atRead, p) && vol <= Max(0, Net(atRead, p))
    ensures vol <= Free(book, p)
  {
    hide Net, Free, Grew, Accounted, Seen, Became, SoldBetween;
    NothingRests(rows, book, p);
    FreeIsNet(book, p);
    PositionHeld(rows, atRead, book, info, p);
    CoveredIffFree(book);
    assert 0 <= Free(book, p);
  }

  lemma StillThere(was: Book, now: Book, p: Pair)
    requires Grew(was, now) && |now| == |was|
    requires forall t :: 0 <= t < |was| && was[t].pair == p ==> was[t].Terminal()
    ensures Free(now, p) == Free(was, p)
  {
    forall t | 0 <= t < |was| ensures Slack(now[t], p) == Slack(was[t], p) {
      assert Became(was[t], now[t]);
    }
    assert Slacks(now, p) == Slacks(was, p);
  }

  lemma NothingLeft(atRead: Book, book: Book, p: Pair)
    requires NoBids(atRead, p) && Window(atRead, book, p) && NoSellRests(book, p)
    ensures forall t :: 0 <= t < |book| && book[t].pair == p ==> book[t].Terminal()
  {
    forall t | 0 <= t < |book| && book[t].pair == p ensures book[t].Terminal() {
      assert t < |atRead| && Became(atRead[t], book[t]);
    }
  }

  /** A sell of the volume that was read, when a close has outrun the reading, uncovers the account. */
  lemma OutrunUncovers(rows: seq<Row>, atRead: Book, was: Book, es: seq<Event>, info: map<Txid, Order>, p: Pair, o: Order)
    requires NoBids(atRead, p)
    requires BookOk(atRead) && Covered(was) && Tracked(rows, was)
    requires Window(atRead, was, p) && Accounted(rows, atRead, info, p) && Seen(info, was)
    requires forall t :: t in info && t < |atRead| ==> Became(atRead[t], info[t])
    requires forall i :: 0 <= i < |rows| && rows[i].status.RowOpen? && rows[i].sym == p ==>
                           rows[i].stopTxid.None? && rows[i].closeTxid.None?
    requires SoldBetween(info, atRead, p) && o.pair == p && o.side.Sell? && o.status.Resting?
    requires 0 < o.vol == Max(0, Net(atRead, p))
    ensures !Covered(Play(was, es) + [o])
  {
    hide Net, Free, Grew, Accounted, Seen, Became, SoldBetween, Tracked, BookOk, NoBids, Window, Play;
    RaceWithoutBids(rows, atRead, was, info, p);
    NothingRests(rows, was, p);
    NothingLeft(atRead, was, p);
    PlayGrew(was, es);
    StillThere(was, Play(was, es), p);
    PushFree(Play(was, es), o, p);
    assert Free(Play(was, es) + [o], p) < 0;
    NegativeIsUncovered(Play(was, es) + [o], p);
  }

  lemma NegativeIsUncovered(book: Book, p: Pair)
    requires Free(book, p) < 0
    ensures !Covered(book)
  {
    if Covered(book) {
      CoveredHasRoom(book, p);
    }
  }

  lemma CoveredHasRoom(book: Book, p: Pair)
    requires Covered(book)
    ensures 0 <= Free(book, p)
  {
    hide Free;
    CoveredIffFree(book);
  }

  /** The market fell away from the close: it stands more than half a tick over the ask. */
  predicate OffPeg(o: Order, q: Option<Harvest.Quote>) {
    q.Some? && o.price != 0.0 && q.value.ask < o.price - 0.5
  }

  /** The only cancels sent are for closes of the pair that were shown resting off their peg; and
      one is sent if all closes were answered, some rest, and all that do are off it. */
  ghost predicate Chased(before: seq<Call>, after: seq<Call>, rows: seq<Row>, p: Pair, info: map<Txid, Order>,
                         q: Option<Harvest.Quote>)
  {
    && (forall k :: |before| <= k < |after| && after[k].SentCancel? ==>
                      var t := after[k].t; t in ClosesOf(rows, p) && t in info && info[t].status.Resting? && OffPeg(info[t], q))
    && ((forall t :: t in ClosesOf(rows, p) ==> t in info && (info[t].status.Resting? ==> OffPeg(info[t], q)))
        && (exists t :: t in ClosesOf(rows, p) && info[t].status.Resting?)
        ==> |before| < |after| && after[|before|].SentCancel?)
  }

  lemma SellChasesNothing(before: seq<Call>, after: seq<Call>, rows: seq<Row>, p: Pair, info: map<Txid, Order>,
                          q: Option<Harvest.Quote>)
    requires |before| <= |after| && forall k :: |before| <= k < |after| ==> !after[k].SentCancel?
    requires (exists t :: t in ClosesOf(rows, p) && t !in info)
             || (forall t :: t in ClosesOf(rows, p) && t in info ==> info[t].Terminal())
             || (exists t :: t in ClosesOf(rows, p) && t in info && info[t].status.Resting? && !OffPeg(info[t], q))
    ensures Chased(before, after, rows, p, info, q)
  {
    hide OffPeg, ClosesOf;
  }

  method Chase(tb: Table, kx: Kraken, t: Txid, info: map<Txid, Order>, q: Option<Harvest.Quote>, ghost live: bool)
    requires FlatOk(tb, kx, live) && t in info && info[t].status.Resting?
    modifies tb`rows, kx`book, kx`safe, kx`trace
    ensures kx.safe ==> old(kx.safe)
    ensures FlatOk(tb, kx, live) && Grew(old(kx.book), kx.book) && (kx.closed ==> |kx.book| == |old(kx.book)|)
    ensures old(kx.trace) <= kx.trace
    ensures tb.rows == old(tb.rows)
            || (Off(t, kx.book) && tb.rows == ClearClose(old(tb.rows), t) && OffPeg(info[t], q))
    ensures if !OffPeg(info[t], q) then kx.trace == old(kx.trace)
            else |kx.trace| == |old(kx.trace)| + 1
                 && kx.trace[|old(kx.trace)|].SentCancel? && kx.trace[|old(kx.trace)|].t == t
    ensures kx.calm && OffPeg(info[t], q) && t < |old(kx.book)| && old(kx.book)[t].status.Resting? ==>
              tb.rows == ClearClose(old(tb.rows), t)
    ensures OnlyCancels(old(kx.trace), kx.trace)
  {
    hide Held, Grew;
    GrewReflexive(kx.book);
    if q.None? || info[t].price == 0.0 || info[t].price <= q.value.ask + 0.5 {
      return;
    }
    var ok := Cancel(tb, kx, t, live);
    if ok {
      ClearsHold(tb.rows, kx.book, live, t);
      tb.rows := ClearClose(tb.rows, t);
    }
  }

  lemma LoosenedClear(was: seq<Row>, now: seq<Row>, info: map<Txid, Order>, t: Txid, book: Book)
    requires LoosenedAll(was, now, info, book) && t in info && Off(t, book)
    ensures LoosenedAll(was, ClearClose(now, t), info, book)
  {
  }

  /** What one pair's turn did. Rows are retired only if the volume read was zero; otherwise at
      most one sell was rested, of exactly that volume, after every close of the pair was off
      the book, and all rows of the pair share it. */
  ghost predicate PairWorked(was: seq<Row>, now: seq<Row>, p: Pair, vol: nat, info: map<Txid, Order>,
                             q: Option<Harvest.Quote>, placed: Option<Txid>, book: Book)
  {
    if vol == 0 then placed.None? && now == RetirePair(was, p)
    else if placed.None? then LoosenedAll(was, now, info, book)
    else
      && |now| == |was|
      && (forall i :: 0 <= i < |was| && was[i].status.RowOpen? && was[i].sym == p ==>
                        && now[i] == was[i].(closeTxid := placed)
                        && (was[i].closeTxid.Some? ==> Off(was[i].closeTxid.value, book)))
      && (forall i :: 0 <= i < |was| && !(was[i].status.RowOpen? && was[i].sym == p) ==> Loosened(was[i], now[i], info, book))
      && placed.value < |book| && q.Some? && PairClose(book[placed.value], p, vol, q.value)
  }

  lemma CloseIsListed(rows: seq<Row>, p: Pair, i: nat)
    requires i < |rows| && rows[i].status.RowOpen? && rows[i].sym == p
    ensures rows[i].closeTxid.Some? ==> rows[i].closeTxid.value in ClosesOf(rows, p)
  {
  }

  lemma PairPlaced(was: seq<Row>, mid: seq<Row>, p: Pair, vol: nat, info: map<Txid, Order>, q: Option<Harvest.Quote>,
                   placed: Option<Txid>, before: Book, book: Book)
    requires 0 < vol && LoosenedAll(was, mid, info, before) && Grew(before, book) && ClosesOf(mid, p) == {}
    requires placed.Some? && placed.value < |book| && q.Some? && PairClose(book[placed.value], p, vol, q.value)
    ensures PairWorked(was, AssignClose(mid, p, placed.value), p, vol, info, q, placed, book)
  {
    hide PairClose;
    LoosenedAllLasts(was, mid, info, before, book);
    forall i | 0 <= i < |was| && was[i].status.RowOpen? && was[i].sym == p
      ensures mid[i].closeTxid.None? && Loosened(was[i], mid[i], info, book)
    {
      CloseIsListed(mid, p, i);
    }
  }

  /** Work on pair `p` leaves the accounts of the others alone: their rows are unchanged but
      for a reference to an order `t` of pair `p`. */
  lemma AccountedKept(rows: seq<Row>, after: seq<Row>, atRead: Book, info: map<Txid, Order>, p: Pair, t: Txid)
    requires |after| == |rows| && (t < |atRead| ==> atRead[t].pair == p)
    requires forall i :: 0 <= i < |rows| && rows[i].sym != p ==>
                           after[i] == rows[i] || (rows[i].closeTxid == Some(t) && after[i] == rows[i].(closeTxid := None))
    ensures forall s :: s != p && Accounted(rows, atRead, info, s) ==> Accounted(after, atRead, info, s)
  {
    forall s, u | s != p && 0 <= u < |atRead| && atRead[u].pair == s && TrackedAny(u, rows, s)
      ensures TrackedAny(u, after, s)
    {
      var i :| TrackedBy(i, u, rows, s);
      assert TrackedBy(i, u, after, s);
    }
  }

  lemma CloseOfPair(rows: seq<Row>, book: Book, atRead: Book, p: Pair, t: Txid)
    requires Held(rows, book, true) && Window(atRead, book, p) && t in ClosesOf(rows, p)
    ensures t < |atRead| ==> atRead[t].pair == p
  {
  }

  /** Every close of the pair is known to have finished. */
  ghost predicate AllSpent(rows: seq<Row>, p: Pair, info: map<Txid, Order>) {
    forall t :: t in ClosesOf(rows, p) ==> t in info && info[t].Terminal()
  }

  method WorkPair(tb: Table, kx: Kraken, p: Pair, vol: nat, info: map<Txid, Order>, q: Option<Harvest.Quote>,
                  ghost atRead: Book, ghost live: bool)
    returns (ghost placed: Option<Txid>, ghost raced: bool)
    requires FlatOk(tb, kx, live) && Seen(info, kx.book)
    requires forall i :: 0 <= i < |tb.rows| && tb.rows[i].status.RowOpen? && tb.rows[i].sym == p ==>
                           tb.rows[i].stopTxid.None?
    requires exists i :: 0 <= i < |tb.rows| && tb.rows[i].status.RowOpen? && tb.rows[i].sym == p
    requires live ==> Covered(atRead) && vol == Max(0, Net(atRead, p)) && Window(atRead, kx.book, p) && NoBids(atRead, p)
                      && Accounted(tb.rows, atRead, info, p)
                      && (forall t :: t in info && t < |atRead| ==> Became(atRead[t], info[t]))
    modifies tb`rows, kx`book, kx`safe, kx`trace
    ensures kx.safe ==> old(kx.safe)
    ensures Grew(old(kx.book), kx.book) && old(kx.trace) <= kx.trace && FlatOk(tb, kx, live && !raced)
    ensures raced <==> live && placed.Some? && SoldBetween(info, atRead, p)
    ensures raced ==> !kx.safe
    ensures PairWorked(old(tb.rows), tb.rows, p, vol, info, q, placed, kx.book)
    ensures placed.Some? ==> |old(kx.book)| <= placed.value == |kx.book| - 1 && kx.book[placed.value].pair == p
                             && kx.book[placed.value].side.Sell?
    ensures kx.closed ==> |kx.book| == |old(kx.book)| + if placed.Some? then 1 else 0
    ensures live ==> forall s :: s != p && Accounted(old(tb.rows), atRead, info, s) ==> Accounted(tb.rows, atRead, info, s)
    ensures kx.calm && 0 < vol && Priced(q) && AllSpent(old(tb.rows), p, info) ==> placed.Some?
    ensures PairTold(old(kx.trace), kx.trace, p, vol, placed)
    ensures if vol == 0 then Tidied(old(kx.trace), kx.trace, ClosesOf(old(tb.rows), p), info)
            else Chased(old(kx.trace), kx.trace, old(tb.rows), p, info, q)
  {
    hide PairTold, OnlyCancels, Chased, Tidied, OffPeg, ClosesOf, NoBids, Covered, Grew, Free, Net, Tracked, Accounted, Seen, Became, PairClose, Held, Window, SoldBetween, Off;
    placed, raced := None, false;
    ghost var rows, was := tb.rows, kx.book;
    GrewReflexive(was);
    if vol == 0 {
      RetireFlat(tb, kx, p, info, atRead, live);
      CancelsTold(old(kx.trace), kx.trace, p, vol);
      AccountedKept(rows, tb.rows, atRead, info, p, |atRead|);
      return;
    }
    var resting, unknown := SortCloses(tb, kx, p, info, live);
    if unknown {
      assert OnlyCancels(kx.trace, kx.trace) by { NoCancels(kx.trace); }
      CancelsTold(kx.trace, kx.trace, p, vol);
      SellChasesNothing(kx.trace, kx.trace, rows, p, info, q);
      return;
    }
    if resting.Some? {
      ghost var mid := tb.rows;
      if live {
        CloseOfPair(rows, was, atRead, p, resting.value);
        AccountedKept(mid, ClearClose(mid, resting.value), atRead, info, p, resting.value);
      }
      Chase(tb, kx, resting.value, info, q, live);
      ChaseTold(old(kx.trace), kx.trace, rows, p, info, q, resting.value);
      CancelsTold(old(kx.trace), kx.trace, p, vol);
      LoosenedAllLasts(rows, mid, info, was, kx.book);
      if tb.rows != mid {
        LoosenedClear(rows, mid, info, resting.value, kx.book);
      }
      return;
    }
    ghost var mid := tb.rows;
    SortedRows(rows, mid, p, info, was);
    if live {
      CoveredMeans(atRead);
    }
    placed, raced := PlaceClose(tb, kx, p, vol, info, q, atRead, live);
    SellChasesNothing(old(kx.trace), kx.trace, rows, p, info, q);
    if placed.Some? {
      PairPlaced(rows, mid, p, vol, info, q, placed, was, kx.book);
      PairCloseMeans(kx.book[placed.value], p, vol, q.value);
      AccountedKept(mid, tb.rows, atRead, info, p, |atRead|);
    } else {
      LoosenedAllLasts(rows, mid, info, was, kx.book);
    }
  }

  lemma ChaseTold(before: seq<Call>, after: seq<Call>, rows: seq<Row>, p: Pair, info: map<Txid, Order>,
                  q: Option<Harvest.Quote>, t: Txid)
    requires t in ClosesOf(rows, p) && t in info && info[t].status.Resting?
    requires if !OffPeg(info[t], q) then after == before
             else |after| == |before| + 1 && after[|before|].SentCancel? && after[|before|].t == t
    ensures Chased(before, after, rows, p, info, q)
  {
    hide OffPeg, ClosesOf;
  }

  lemma NoCancels(told: seq<Call>)
    ensures OnlyCancels(told, told)
  {
  }

  lemma CoveredMeans(book: Book)
    requires Covered(book)
    ensures BookOk(book)
  {
  }

  lemma PairCloseMeans(o: Order, p: Pair, vol: nat, q: Harvest.Quote)
    requires PairClose(o, p, vol, q)
    ensures o.pair == p && o.side.Sell?
  {
  }

  lemma SortedRows(was: seq<Row>, now: seq<Row>, p: Pair, info: map<Txid, Order>, book: Book)
    requires Sorted(was, now, p, info, {}, book) && ClosesOf(now, p) == {}
    requires forall i :: 0 <= i < |was| && was[i].status.RowOpen? && was[i].sym == p ==> was[i].stopTxid.None?
    requires exists i :: 0 <= i < |was| && was[i].status.RowOpen? && was[i].sym == p
    ensures forall i :: 0 <= i < |now| && now[i].status.RowOpen? && now[i].sym == p ==>
                          now[i].stopTxid.None? && now[i].closeTxid.None?
    ensures exists i :: 0 <= i < |now| && now[i].status.RowOpen? && now[i].sym == p
  {
    hide Off;
    forall i | 0 <= i < |now| ensures Loosened(was[i], now[i], info, book) {
    }
    forall i | 0 <= i < |now| && now[i].status.RowOpen? && now[i].sym == p ensures now[i].closeTxid.None? {
      CloseIsListed(now, p, i);
    }
    var i :| 0 <= i < |was| && was[i].status.RowOpen? && was[i].sym == p;
    assert now[i].status.RowOpen? && now[i].sym == p;
  }

  lemma {:induction false} NetShrinks(was: Book, now: Book, p: Pair, k: Txid)
    requires k < |was| <= |now| && Signed(now[k], p) < Signed(was[k], p)
    requires forall t :: 0 <= t < |was| ==> Signed(now[t], p) <= Signed(was[t], p)
    requires forall t :: |was| <= t < |now| ==> now[t].pair != p
    ensures Net(now, p) < Net(was, p)
  {
    var n := |now| - 1;
    if |was| == |now| {
      var a: seq<int> := seq(|was|, t requires 0 <= t < |was| => Signed(was[t], p));
      var b: seq<int> := seq(|now|, t requires 0 <= t < |now| => Signed(now[t], p));
      SumPoint(a, a[k := b[k]], k);
      SumMono(b, a[k := b[k]]);
    } else {
      NetShrinks(was, now[..n], p, k);
      var b := seq(n, t requires 0 <= t < n => Signed(now[..n][t], p));
      assert seq(|now|, t requires 0 <= t < |now| => Signed(now[t], p)) == b + [0];
      SumPush(b, 0);
    }
  }

  /** Exactly when a sell sized from the first reading is still covered when it is placed: if and
      only if no close of the pair executed between the reading of the position and the reading
      of the statuses. `start` are the rows when the position was read; a pair with a pending
      row is blocked, so no bid of this one can fill in between. */
  lemma RaceIsExact(start: seq<Row>, rows: seq<Row>, atRead: Book, book: Book, info: map<Txid, Order>, p: Pair)
    requires Bidding(start, atRead) && p !in PendingPairs(start)
    requires BookOk(atRead) && Covered(book) && Tracked(rows, book)
    requires Window(atRead, book, p) && Accounted(rows, atRead, info, p) && Seen(info, book)
    requires forall t :: t in info && t < |atRead| ==> Became(atRead[t], info[t])
    requires forall i :: 0 <= i < |rows| && rows[i].status.RowOpen? && rows[i].sym == p ==>
                           rows[i].stopTxid.None? && rows[i].closeTxid.None?
    ensures Net(atRead, p) <= Free(book, p) <==> !SoldBetween(info, atRead, p)
  {
    hide Covered, Tracked, Accounted, Free, Net, Bidding;
    assert forall i :: 0 <= i < |start| && start[i].status.RowPending? ==> start[i].sym in PendingPairs(start);
    NoBidRests(start, atRead, p);
    RaceWithoutBids(rows, atRead, book, info, p);
  }

  lemma RaceWithoutBids(rows: seq<Row>, atRead: Book, book: Book, info: map<Txid, Order>, p: Pair)
    requires NoBids(atRead, p)
    requires BookOk(atRead) && Covered(book) && Tracked(rows, book)
    requires Window(atRead, book, p) && Accounted(rows, atRead, info, p) && Seen(info, book)
    requires forall t :: t in info && t < |atRead| ==> Became(atRead[t], info[t])
    requires forall i :: 0 <= i < |rows| && rows[i].status.RowOpen? && rows[i].sym == p ==>
                           rows[i].stopTxid.None? && rows[i].closeTxid.None?
    ensures Net(atRead, p) <= Free(book, p) <==> !SoldBetween(info, atRead, p)
  {
    hide Covered, Tracked, Accounted, Free, Net;
    NothingRests(rows, book, p);
    CoveredMeans(book);
    FreeIsNet(book, p);
    if !SoldBetween(info, atRead, p) {
      PositionHeld(rows, atRead, book, info, p);
    } else {
      var k :| k in info && k < |atRead| && atRead[k].pair == p && atRead[k].side.Sell? && atRead[k].exec < info[k].exec;
      forall t | 0 <= t < |atRead| ensures Signed(book[t], p) <= Signed(atRead[t], p) {
        assert Became(atRead[t], book[t]);
      }
      assert Became(atRead[k], info[k]) && Became(info[k], book[k]);
      NetShrinks(atRead, book, p, k);
    }
  }

  // ── the pass ────────────────────────────────────────────────────────────────

  /** One row after the pairs not in `todo` had their turn. */
  ghost predicate RowFlat(start: Row, now: Row, todo: set<Pair>, read: Positions, info: map<Txid, Order>,
                          placed: map<Pair, Txid>, blocked: set<Pair>, book: Book)
  {
    if !start.status.RowOpen? || start.sym in blocked || start.sym in todo then Loosened(start, now, info, book)
    else if Long(read, start.sym) == 0 then now == start.(status := RowClosed, closeTxid := None)
    else if start.sym in placed then
      now == start.(closeTxid := Some(placed[start.sym]))
      && (start.closeTxid.Some? ==> Off(start.closeTxid.value, book))
    else Loosened(start, now, info, book)
  }

  /** A sell rested by this pass: after the readings, for an unblocked pair with volume, and of
      exactly the volume that was read. */
  ghost predicate RestedWell(p: Pair, t: Txid, todo: set<Pair>, read: Positions, quotes: map<Pair, Harvest.Quote>,
                             blocked: set<Pair>, bound: nat, book: Book)
  {
    && p !in todo && p !in blocked && 0 < Long(read, p)
    && bound <= t < |book| && p in quotes && PairClose(book[t], p, Long(read, p), quotes[p])
  }

  ghost predicate Flattening(start: seq<Row>, now: seq<Row>, todo: set<Pair>, read: Positions, info: map<Txid, Order>,
                             placed: map<Pair, Txid>, quotes: map<Pair, Harvest.Quote>, blocked: set<Pair>, bound: nat,
                             book: Book)
  {
    && |now| == |start|
    && (forall i :: 0 <= i < |start| ==> RowFlat(start[i], now[i], todo, read, info, placed, blocked, book))
    && (forall p :: p in placed ==> RestedWell(p, placed[p], todo, read, quotes, blocked, bound, book))
  }

  lemma RowFlatStep(start: Row, now: Row, now': Row, p: Pair, todo: set<Pair>, read: Positions, info: map<Txid, Order>,
                    placed: map<Pair, Txid>, t: Option<Txid>, blocked: set<Pair>, bound: nat, was: Book, book: Book)
    requires RowFlat(start, now, todo, read, info, placed, blocked, was) && Grew(was, book)
    requires p in todo && p !in blocked && p !in placed
    requires forall u :: u in info ==> u < bound
    requires forall s :: s in placed ==> bound <= placed[s]
    requires if start.status.RowOpen? && start.sym == p then
               if Long(read, p) == 0 then now' == now.(status := RowClosed, closeTxid := None)
               else if t.Some? then now' == now.(closeTxid := t) && (now.closeTxid.Some? ==> Off(now.closeTxid.value, book))
               else Loosened(now, now', info, book)
             else Loosened(now, now', info, book)
    requires Long(read, p) == 0 ==> t.None?
    ensures RowFlat(start, now', todo - {p}, read, info, if t.Some? then placed[p := t.value] else placed, blocked, book)
  {
  }

  lemma RowMeetsWork(start: Row, i: nat, was: seq<Row>, now: seq<Row>, p: Pair, vol: nat, info: map<Txid, Order>,
                     q: Option<Harvest.Quote>, t: Option<Txid>, todo: set<Pair>, read: Positions,
                     placed: map<Pair, Txid>, blocked: set<Pair>, before: Book, book: Book)
    requires i < |was| && PairWorked(was, now, p, vol, info, q, t, book) && p in todo && p !in blocked
    requires RowFlat(start, was[i], todo, read, info, placed, blocked, before) && vol == Long(read, p)
    ensures |now| == |was|
    ensures if start.status.RowOpen? && start.sym == p then
              if Long(read, p) == 0 then now[i] == was[i].(status := RowClosed, closeTxid := None)
              else if t.Some? then
                now[i] == was[i].(closeTxid := t) && (was[i].closeTxid.Some? ==> Off(was[i].closeTxid.value, book))
              else Loosened(was[i], now[i], info, book)
            else Loosened(was[i], now[i], info, book)
    ensures Long(read, p) == 0 ==> t.None?
  {
  }

  lemma RestedWellLasts(p: Pair, t: Txid, todo: set<Pair>, todo': set<Pair>, read: Positions,
                        quotes: map<Pair, Harvest.Quote>, blocked: set<Pair>, bound: nat, was: Book, book: Book)
    requires RestedWell(p, t, todo, read, quotes, blocked, bound, was) && Grew(was, book) && todo' <= todo
    ensures RestedWell(p, t, todo', read, quotes, blocked, bound, book)
  {
  }

  lemma FlatteningStep(start: seq<Row>, was: seq<Row>, now: seq<Row>, p: Pair, todo: set<Pair>, read: Positions,
                       info: map<Txid, Order>, placed: map<Pair, Txid>, t: Option<Txid>,
                       quotes: map<Pair, Harvest.Quote>, blocked: set<Pair>, bound: nat, before: Book, book: Book)
    requires Flattening(start, was, todo, read, info, placed, quotes, blocked, bound, before) && Grew(before, book)
    requires p in todo && p !in blocked && (forall u :: u in info ==> u < bound)
    requires PairWorked(was, now, p, Long(read, p), info, Harvest.QuoteOf(quotes, p), t, book)
    requires t.Some? ==> bound <= t.value
    ensures Flattening(start, now, todo - {p}, read, info, if t.Some? then placed[p := t.value] else placed, quotes,
                       blocked, bound, book)
  {
    hide RowFlat, Loosened, PairClose;
    var placed' := if t.Some? then placed[p := t.value] else placed;
    forall s | s in placed' ensures RestedWell(s, placed'[s], todo - {p}, read, quotes, blocked, bound, book) {
      if s in placed && s != p {
        RestedWellLasts(s, placed[s], todo, todo - {p}, read, quotes, blocked, bound, before, book);
      }
    }
    assert p !in placed;
    forall i | 0 <= i < |start|
      ensures RowFlat(start[i], now[i], todo - {p}, read, info, placed', blocked, book)
    {
      RowMeetsWork(start[i], i, was, now, p, Long(read, p), info, Harvest.QuoteOf(quotes, p), t, todo, read, placed,
                   blocked, before, book);
      RowFlatStep(start[i], was[i], now[i], p, todo, read, info, placed, t, blocked, bound, before, book);
    }
  }

  /** What the second half of a pass works from: the position and when it was read, the
      statuses of the closes read after it, the quotes, and the pairs it must not touch. */
  datatype Desk = Desk(read: Positions, atRead: Book, info: map<Txid, Order>, quotes: map<Pair, Harvest.Quote>,
                       blocked: set<Pair>)

  /** Facts about the readings that hold from then on; the second part on a closed account. */
  ghost predicate DeskOk(d: Desk, book: Book, live: bool) {
    && Grew(d.atRead, book) && Seen(d.info, book) && (forall t :: t in d.info ==> t < |d.atRead|)
    && (live ==> && Covered(d.atRead) && d.read == PositionsOf(d.atRead)
                 && forall t :: t in d.info && t < |d.atRead| ==> Became(d.atRead[t], d.info[t]))
  }

  lemma DeskLasts(d: Desk, was: Book, now: Book, live: bool)
    requires DeskOk(d, was, live) && Grew(was, now)
    ensures DeskOk(d, now, live)
  {
    hide Covered, PositionsOf, Grew, Seen;
    GrewTransitive(d.atRead, was, now);
    SeenLasts(d.info, was, now);
  }

  ghost predicate PairReady(rows: seq<Row>, d: Desk, p: Pair, book: Book) {
    Window(d.atRead, book, p) && Accounted(rows, d.atRead, d.info, p) && NoBids(d.atRead, p)
  }

  lemma OthersReady(was: seq<Row>, now: seq<Row>, d: Desk, p: Pair, t: Option<Txid>, before: Book, book: Book, s: Pair)
    requires PairReady(was, d, s, before) && s != p && Grew(before, book)
    requires Accounted(was, d.atRead, d.info, s) ==> Accounted(now, d.atRead, d.info, s)
    requires |book| == |before| + if t.Some? then 1 else 0
    requires t.Some? ==> t.value == |before| && book[t.value].pair == p
    ensures PairReady(now, d, s, book)
  {
  }

  function OpenPairs(rows: seq<Row>): set<Pair> {
    set i | 0 <= i < |rows| && rows[i].status.RowOpen? :: rows[i].sym
  }

  method ListOpen(rows: seq<Row>) returns (pairs: set<Pair>)
    ensures pairs == OpenPairs(rows)
  {
    pairs := set i | 0 <= i < |rows| && rows[i].status.RowOpen? :: rows[i].sym;
  }

  lemma StillOpen(start: seq<Row>, now: seq<Row>, todo: set<Pair>, d: Desk, placed: map<Pair, Txid>, bound: nat,
                  book: Book, p: Pair)
    requires Flattening(start, now, todo, d.read, d.info, placed, d.quotes, d.blocked, bound, book)
    requires p in todo && p in OpenPairs(start)
    requires forall i :: 0 <= i < |start| && start[i].status.RowOpen? && start[i].sym !in d.blocked ==> start[i].stopTxid.None?
    requires p !in d.blocked
    ensures exists i :: 0 <= i < |now| && now[i].status.RowOpen? && now[i].sym == p
    ensures forall i :: 0 <= i < |now| && now[i].status.RowOpen? && now[i].sym == p ==> now[i].stopTxid.None?
  {
  }

  /** Nothing stands in the way of a sell for the pair. */
  ghost predicate Wanted(start: seq<Row>, d: Desk, p: Pair) {
    && p in OpenPairs(start) && p !in d.blocked && 0 < Long(d.read, p)
    && Priced(Harvest.QuoteOf(d.quotes, p)) && AllSpent(start, p, d.info)
  }

  lemma WantedListed(start: seq<Row>, d: Desk)
    ensures forall p :: Wanted(start, d, p) ==> p in OpenPairs(start) - d.blocked
  {
  }

  lemma WantedNow(start: seq<Row>, now: seq<Row>, todo: set<Pair>, d: Desk, placed: map<Pair, Txid>, bound: nat,
                  book: Book, p: Pair)
    requires Flattening(start, now, todo, d.read, d.info, placed, d.quotes, d.blocked, bound, book) && p in todo
    ensures Wanted(start, d, p) ==>
              0 < Long(d.read, p) && Priced(Harvest.QuoteOf(d.quotes, p)) && AllSpent(now, p, d.info)
  {
    hide Off, Priced;
    forall t | t in ClosesOf(now, p) ensures t in ClosesOf(start, p) {
      var i :| 0 <= i < |now| && now[i].status.RowOpen? && now[i].sym == p && now[i].closeTxid == Some(t);
      assert RowFlat(start[i], now[i], todo, d.read, d.info, placed, d.blocked, book);
    }
  }

  lemma FlatteningStart(rows: seq<Row>, todo: set<Pair>, d: Desk, bound: nat, book: Book)
    requires todo == OpenPairs(rows) - d.blocked
    ensures Flattening(rows, rows, todo, d.read, d.info, map[], d.quotes, d.blocked, bound, book)
  {
  }

  lemma DeskMeans(d: Desk, book: Book, live: bool, p: Pair)
    requires DeskOk(d, book, live)
    ensures Seen(d.info, book) && forall u :: u in d.info ==> u < |book|
    ensures live ==> && Covered(d.atRead) && Long(d.read, p) == Max(0, Net(d.atRead, p))
                     && forall t :: t in d.info && t < |d.atRead| ==> Became(d.atRead[t], d.info[t])
  {
    PositionsAreNet(d.atRead, p);
  }

  lemma PairReadyMeans(rows: seq<Row>, d: Desk, p: Pair, book: Book)
    requires PairReady(rows, d, p, book)
    ensures Window(d.atRead, book, p) && Accounted(rows, d.atRead, d.info, p) && NoBids(d.atRead, p)
  {
  }

  predicate HasPair(rows: seq<Row>, p: Pair) {
    exists i :: 0 <= i < |rows| && rows[i].sym == p
  }

  /** All orders that joined are sells, each for a pair with a row. */
  ghost predicate NewSells(was: Book, now: Book, rows: seq<Row>) {
    |was| <= |now| && forall t :: |was| <= t < |now| ==> now[t].side.Sell? && HasPair(rows, now[t].pair)
  }

  lemma NewSellsMore(a: Book, b: Book, c: Book, rows: seq<Row>)
    requires NewSells(a, b, rows) && NewSells(b, c, rows) && Grew(b, c)
    ensures NewSells(a, c, rows)
  {
    forall t | |a| <= t < |c| ensures c[t].side.Sell? && HasPair(rows, c[t].pair) {
      if t < |b| {
        assert Became(b[t], c[t]);
      }
    }
  }

  lemma NoneNew(was: Book, now: Book, rows: seq<Row>)
    requires |now| == |was|
    ensures NewSells(was, now, rows)
  {
  }

  /** The turn of a pair with a row added one sell for it, or nothing. */
  lemma TurnAdds(was: Book, now: Book, rows: seq<Row>, start: seq<Row>, p: Pair, t: Option<Txid>)
    requires p in OpenPairs(start) && |now| == |was| + (if t.Some? then 1 else 0)
    requires t.Some? ==> t.value == |was| && now[t.value].pair == p && now[t.value].side.Sell?
    ensures NewSells(was, now, start)
  {
    assert HasPair(start, p);
  }

  /** The next pair in turn. */
  method WorkNext(tb: Table, kx: Kraken, p: Pair, read: Positions, info: map<Txid, Order>,
                  quotes: map<Pair, Harvest.Quote>, ghost d: Desk, ghost start: seq<Row>, ghost todo: set<Pair>,
                  ghost held: map<Pair, Txid>, ghost bound: nat, ghost told: seq<Call>, ghost live: bool, ghost stood: bool)
    returns (ghost placed: map<Pair, Txid>, ghost late: bool)
    requires d == Desk(read, d.atRead, info, quotes, d.blocked) && (stood ==> live)
    requires FlatOk(tb, kx, stood) && DeskOk(d, kx.book, live) && p in todo && todo <= OpenPairs(start) - d.blocked
    requires Flattening(start, tb.rows, todo, d.read, d.info, held, d.quotes, d.blocked, bound, kx.book)
    requires bound <= |kx.book| && (forall u :: u in info ==> u < bound) && (forall s :: s in held ==> s !in todo)
    requires forall i :: 0 <= i < |start| && start[i].status.RowOpen? && start[i].sym !in d.blocked ==> start[i].stopTxid.None?
    requires stood ==> forall s :: s in todo ==> PairReady(tb.rows, d, s, kx.book)
    requires SellsTold(told, kx.trace, todo, d.read, d.blocked, held)
    modifies tb`rows, kx`book, kx`safe, kx`trace
    ensures kx.safe ==> old(kx.safe)
    ensures Grew(old(kx.book), kx.book) && old(kx.trace) <= kx.trace && |old(kx.book)| <= |kx.book|
    ensures FlatOk(tb, kx, stood && !late) && DeskOk(d, kx.book, live)
    ensures Flattening(start, tb.rows, todo - {p}, d.read, d.info, placed, d.quotes, d.blocked, bound, kx.book)
    ensures late <==> stood && p in placed && SoldBetween(d.info, d.atRead, p)
    ensures late ==> !kx.safe
    ensures stood && !late ==> forall s :: s in todo && s != p ==> PairReady(tb.rows, d, s, kx.book)
    ensures placed == held || (p in placed && placed == held[p := placed[p]])
    ensures SellsTold(told, kx.trace, todo - {p}, d.read, d.blocked, placed)
    ensures kx.closed ==> |kx.book| == |old(kx.book)| + |placed| - |held| && NewSells(old(kx.book), kx.book, start)
    ensures kx.calm && Wanted(start, d, p) ==> p in placed
  {
    hide Grew, Held, PairReady, Flattening, SoldBetween, PairWorked, DeskOk, Long, Loosened, AllSpent, Priced, Wanted,
      PairTold, SellsTold, NewSells;
    ghost var now, before, heard := tb.rows, kx.book, kx.trace;
    StillOpen(start, now, todo, d, held, bound, before, p);
    WantedNow(start, now, todo, d, held, bound, before, p);
    DeskMeans(d, before, live, p);
    if stood {
      PairReadyMeans(now, d, p, before);
    }
    GrewReflexive(before);
    ghost var t;
    t, late := WorkPair(tb, kx, p, Long(read, p), info, Harvest.QuoteOf(quotes, p), d.atRead, stood);
    GrewTransitive(before, before, kx.book);
    DeskLasts(d, before, kx.book, live);
    SellsToldStep(told, heard, kx.trace, todo, p, d.read, d.blocked, held, t);
    FlatteningStep(start, now, tb.rows, p, todo, d.read, d.info, held, t, d.quotes, d.blocked, bound, before, kx.book);
    if stood {
      forall s | s in todo && s != p ensures PairReady(tb.rows, d, s, kx.book) {
        OthersReady(now, tb.rows, d, p, t, before, kx.book, s);
      }
    }
    if kx.closed {
      TurnAdds(before, kx.book, tb.rows, start, p, t);
    }
    placed := if t.Some? then held[p := t.value] else held;
  }

  /** The pairs one after the other, in any order. */
  method WorkAll(tb: Table, kx: Kraken, read: Positions, info: map<Txid, Order>, quotes: map<Pair, Harvest.Quote>,
                 blocked: set<Pair>, ghost d: Desk, ghost live: bool)
    returns (complete: bool, ghost placed: map<Pair, Txid>, ghost raced: bool)
    requires d == Desk(read, d.atRead, info, quotes, blocked)
    requires FlatOk(tb, kx, live) && DeskOk(d, kx.book, live)
    requires forall i :: 0 <= i < |tb.rows| && tb.rows[i].status.RowOpen? && tb.rows[i].sym !in d.blocked ==>
                           tb.rows[i].stopTxid.None?
    requires live ==> forall p :: p !in d.blocked ==> PairReady(tb.rows, d, p, kx.book)
    modifies tb`rows, kx`book, kx`safe, kx`trace
    ensures kx.safe ==> old(kx.safe)
    ensures Grew(old(kx.book), kx.book) && old(kx.trace) <= kx.trace && FlatOk(tb, kx, live && !raced)
    ensures raced <==> live && exists p :: p in placed && SoldBetween(d.info, d.atRead, p)
    ensures live && raced ==> !kx.safe
    ensures Flattening(old(tb.rows), tb.rows, {}, d.read, d.info, placed, d.quotes, d.blocked, |old(kx.book)|, kx.book)
    ensures SellsTold(old(kx.trace), kx.trace, {}, d.read, d.blocked, placed)
    ensures complete <==> d.blocked == {} && forall p :: p in OpenPairs(old(tb.rows)) ==> Long(d.read, p) == 0
    ensures kx.closed ==> |kx.book| == |old(kx.book)| + |placed| && NewSells(old(kx.book), kx.book, old(tb.rows))
    ensures kx.calm ==> forall p :: Wanted(old(tb.rows), d, p) ==> p in placed
  {
    hide Grew, Held, PairReady, Flattening, SoldBetween, DeskOk, Long, Wanted, SellsTold, NewSells, OpenPairs;
    var rows := tb.rows;
    ghost var was, told := kx.book, kx.trace;
    var open := ListOpen(rows);
    var todo := open - blocked;
    complete, placed, raced := blocked == {}, map[], false;
    GrewReflexive(was);
    FlatteningStart(rows, todo, d, |was|, was);
    SellsToldStart(told, todo, d.read, d.blocked);
    DeskMeans(d, was, live, 0);
    WantedListed(rows, d);
    NoneNew(was, was, rows);
    while todo != {}
      invariant todo <= OpenPairs(rows) - d.blocked
      invariant (kx.safe ==> old(kx.safe)) && (live && raced ==> !kx.safe)
      invariant Grew(was, kx.book) && |was| <= |kx.book| && FlatOk(tb, kx, live && !raced) && DeskOk(d, kx.book, live)
      invariant told <= kx.trace && SellsTold(told, kx.trace, todo, d.read, d.blocked, placed)
      invariant raced <==> live && exists p :: p in placed && SoldBetween(d.info, d.atRead, p)
      invariant Flattening(rows, tb.rows, todo, d.read, d.info, placed, d.quotes, d.blocked, |was|, kx.book)
      invariant live && !raced ==> forall p :: p in todo ==> PairReady(tb.rows, d, p, kx.book)
      invariant complete <==> d.blocked == {} && forall p :: p in OpenPairs(rows) - d.blocked - todo ==> Long(d.read, p) == 0
      invariant kx.closed ==> |kx.book| == |was| + |placed| && NewSells(was, kx.book, rows)
      invariant forall s :: s in placed ==> s !in todo
      invariant kx.calm ==> forall p :: Wanted(rows, d, p) && p !in todo ==> p in placed
      decreases todo
    {
      var p :| p in todo;
      ghost var before := kx.book;
      ghost var more, late := WorkNext(tb, kx, p, read, info, quotes, d, rows, todo, placed, |was|, told, live,
                                      live && !raced);
      GrewTransitive(was, before, kx.book);
      if kx.closed {
        NewSellsMore(was, before, kx.book, rows);
      }
      placed, raced := more, raced || late;
      complete := complete && Long(read, p) == 0;
      todo := todo - {p};
    }
    assert OpenPairs(rows) - d.blocked - {} == OpenPairs(rows) - d.blocked;
  }

  /** A record of one pass that ran to its end: the statuses of the bids; the rows, the book and
      the calls so far once bids and stops were settled; what the rest worked from, and the
      sells it rested. */
  datatype Log = Log(bids: map<Txid, Order>, settled: seq<Row>, swept: Book, told: seq<Call>, desk: Desk,
                     placed: map<Pair, Txid>)

  /** How the rows stood before the pairs were worked: bids resolved by finished orders only,
      stops dropped only once off the book; a pair that still has either is blocked. */
  ghost predicate SweptFirst(was: seq<Row>, bids: map<Txid, Order>, settled: seq<Row>, blocked: set<Pair>, book: Book) {
    && |settled| == |was|
    && Seen(bids, book)
    && (forall i :: 0 <= i < |was| ==>
                      StopSettled(BidSettled(was[i], bids), settled[i], book)
                      && (settled[i].status.RowPending? || (settled[i].status.RowOpen? && settled[i].stopTxid.Some?)
                          ==> settled[i].sym in blocked))
  }

  predicate StopSettled(row: Row, now: Row, book: Book) {
    || now == row
    || (now == row.(stopTxid := None)
        && (row.status.RowOpen? && row.stopTxid.Some? ==> Off(row.stopTxid.value, book)))
  }

  lemma SweptFirstFrom(was: seq<Row>, bids: map<Txid, Order>, mid: seq<Row>, settled: seq<Row>, blocked: set<Pair>,
                       before: Book, book: Book)
    requires |mid| == |was| && forall i :: 0 <= i < |was| ==> mid[i] == BidSettled(was[i], bids)
    requires PendingPairs(mid) <= blocked && Seen(bids, before) && Grew(before, book)
    requires StopsCleared(mid, settled, blocked, {}, book)
    ensures SweptFirst(was, bids, settled, blocked, book)
  {
    hide BidSettled, Off;
    SeenLasts(bids, before, book);
    forall i | 0 <= i < |mid| && mid[i].status.RowPending? ensures mid[i].sym in blocked {
      assert mid[i].sym in PendingPairs(mid);
    }
  }

  lemma SweptFirstLasts(was: seq<Row>, bids: map<Txid, Order>, settled: seq<Row>, blocked: set<Pair>, mid: Book, book: Book)
    requires SweptFirst(was, bids, settled, blocked, mid) && Grew(mid, book)
    ensures SweptFirst(was, bids, settled, blocked, book)
  {
    hide BidSettled;
    SeenLasts(bids, mid, book);
    forall i | 0 <= i < |was| ensures StopSettled(BidSettled(was[i], bids), settled[i], book) {
      var row := BidSettled(was[i], bids);
      if settled[i] != row && row.stopTxid.Some? && Off(row.stopTxid.value, mid) {
        OffLasts(row.stopTxid.value, mid, book);
      }
    }
  }

  lemma SettledRecorded(was: seq<Row>, bids: map<Txid, Order>, mid: seq<Row>, book: Book)
    requires |mid| == |was| && forall i :: 0 <= i < |was| ==> mid[i] == BidSettled(was[i], bids)
    requires OneExitEach(was) && Recorded(was, book)
    ensures Recorded(mid, book)
  {
  }

  method AllCloses(rows: seq<Row>) returns (ids: seq<Txid>)
    ensures ListsCloses(rows, ids)
  {
    ids := [];
    for i := 0 to |rows|
      invariant forall t :: t in ids <==> exists j :: 0 <= j < i && rows[j].status.RowOpen? && rows[j].closeTxid == Some(t)
    {
      if rows[i].status.RowOpen? && rows[i].closeTxid.Some? {
        ids := ids + [rows[i].closeTxid.value];
      }
    }
  }

  lemma DeskFrom(d: Desk, book: Book, live: bool)
    requires Grew(d.atRead, book) && Seen(d.info, book) && (forall t :: t in d.info ==> t < |d.atRead|)
    requires live ==> && Covered(d.atRead) && d.read == PositionsOf(d.atRead)
                      && forall t :: t in d.info && t < |d.atRead| ==> Became(d.atRead[t], d.info[t])
    ensures DeskOk(d, book, live)
  {
  }

  lemma StopsGone(was: seq<Row>, bids: map<Txid, Order>, settled: seq<Row>, blocked: set<Pair>, book: Book)
    requires SweptFirst(was, bids, settled, blocked, book)
    ensures forall i :: 0 <= i < |settled| && settled[i].status.RowOpen? && settled[i].sym !in blocked ==>
                          settled[i].stopTxid.None?
    ensures PendingPairs(settled) <= blocked
  {
  }

  lemma FlatteningFrom(start: seq<Row>, now: seq<Row>, d: Desk, placed: map<Pair, Txid>, bound: nat, lower: nat, book: Book)
    requires Flattening(start, now, {}, d.read, d.info, placed, d.quotes, d.blocked, bound, book) && lower <= bound
    ensures Flattening(start, now, {}, d.read, d.info, placed, d.quotes, d.blocked, lower, book)
  {
  }

  lemma StartReady(rows: seq<Row>, d: Desk, book: Book)
    requires Tracked(rows, d.atRead) && Bidding(rows, d.atRead) && Grew(d.atRead, book) && |book| == |d.atRead|
    requires PendingPairs(rows) <= d.blocked
    ensures forall p :: p !in d.blocked ==> PairReady(rows, d, p, book)
  {
    hide Bidding;
    forall p | p !in d.blocked ensures PairReady(rows, d, p, book) {
      assert forall i :: 0 <= i < |rows| && rows[i].status.RowPending? ==> rows[i].sym in PendingPairs(rows);
      NoBidRests(rows, d.atRead, p);
    }
  }

  lemma HeldMeans(rows: seq<Row>, book: Book)
    requires Held(rows, book, true)
    ensures Covered(book) && Tracked(rows, book) && Bidding(rows, book)
  {
  }

  lemma HeldRecords(rows: seq<Row>, book: Book, live: bool)
    requires Held(rows, book, live)
    ensures OneExitEach(rows) && Recorded(rows, book)
  {
  }

  lemma IdsBounded(rows: seq<Row>, ids: seq<Txid>, book: Book)
    requires Recorded(rows, book) && ListsCloses(rows, ids)
    ensures forall t :: t in ids ==> t < |book|
  {
  }

  /** (True, True): nothing of the book is left. */
  ghost predicate AllDone(rows: seq<Row>) {
    forall i :: 0 <= i < |rows| ==> !rows[i].status.RowOpen? && !rows[i].status.RowPending?
  }

  lemma CompleteMeansDone(was: seq<Row>, bids: map<Txid, Order>, start: seq<Row>, now: seq<Row>, d: Desk,
                          placed: map<Pair, Txid>, bound: nat, before: Book, book: Book)
    requires SweptFirst(was, bids, start, d.blocked, before)
    requires Flattening(start, now, {}, d.read, d.info, placed, d.quotes, d.blocked, bound, book)
    requires d.blocked == {} && forall p :: p in OpenPairs(start) ==> Long(d.read, p) == 0
    ensures AllDone(now)
  {
    hide Off, BidSettled;
    forall i | 0 <= i < |now| ensures !now[i].status.RowOpen? && !now[i].status.RowPending? {
      assert RowFlat(start[i], now[i], {}, d.read, d.info, placed, d.blocked, book);
      assert start[i].status.RowOpen? ==> start[i].sym in OpenPairs(start);
    }
  }

  /** A cancel was sent for every order of ours and for no other before anything else; the
      statuses of the bids were asked for in one of the calls, with this answer; and a pair is
      blocked only for a bid that is still pending or a stop whose cancel failed. */
  ghost predicate SweepTold(before: seq<Call>, after: seq<Call>, rows: seq<Row>, bids: map<Txid, Order>, settled: seq<Row>,
                            blocked: set<Pair>)
  {
    && before <= after
    && (exists k :: |before| <= k <= |after| && OursSent(rows, |rows|, before, after[..k]))
    && (exists k :: |before| <= k < |after| && Fills.BidsAsked(after[..k], after, rows, bids))
    && (forall p :: p in blocked ==> p in PendingPairs(settled) || StopFailed(rows, before, after, p))
  }

  lemma SweepToldFrom(before: seq<Call>, sent: seq<Call>, mid: seq<Call>, heard: seq<Call>, after: seq<Call>, rows: seq<Row>,
                      bids: map<Txid, Order>, half: seq<Row>, settled: seq<Row>, pending: set<Pair>, blocked: set<Pair>)
    requires before <= sent <= mid <= heard && OursSent(rows, |rows|, before, sent) && Fills.BidsAsked(mid, heard, rows, bids)
    requires OneExitEach(rows) && BidsSettled(rows, half, |rows|, bids, pending)
    requires StopsTold(half, heard, after, pending, blocked) && |settled| == |half|
    requires forall i :: 0 <= i < |half| ==> settled[i] == half[i] || settled[i] == half[i].(stopTxid := None)
    ensures SweepTold(before, after, rows, bids, settled, blocked)
  {
    hide BidSettled, StopFailed, OursSent;
    BidsSettledMeans(rows, half, bids, pending);
    assert after[..|mid|] == mid && after[|mid|] == heard[|mid|];
    assert Fills.BidsAsked(after[..|mid|], after, rows, bids);
    assert after[..|sent|] == sent;
    PendingKept(half, settled);
    forall p | p in blocked ensures p in PendingPairs(settled) || StopFailed(rows, before, after, p) {
      if p !in pending {
        StopFailedBefore(rows, half, bids, heard, after, p);
        StopFailedLasts(rows, before, heard, after, after, p);
      }
    }
  }

  lemma PendingKept(was: seq<Row>, now: seq<Row>)
    requires |now| == |was| && forall i :: 0 <= i < |was| ==> now[i] == was[i] || now[i] == was[i].(stopTxid := None)
    ensures PendingPairs(now) == PendingPairs(was)
  {
    forall i | 0 <= i < |was| ensures now[i].status == was[i].status && now[i].sym == was[i].sym {
    }
  }

  lemma StopFailedBefore(rows: seq<Row>, half: seq<Row>, bids: map<Txid, Order>, before: seq<Call>, after: seq<Call>, p: Pair)
    requires OneExitEach(rows) && |half| == |rows| && (forall i :: 0 <= i < |rows| ==> half[i] == BidSettled(rows[i], bids))
    requires StopFailed(half, before, after, p)
    ensures StopFailed(rows, before, after, p)
  {
    var k, i :| |before| <= k < |after| && after[k].SentCancel? && !after[k].ok
                && 0 <= i < |half| && half[i].status.RowOpen? && half[i].sym == p && half[i].stopTxid == Some(after[k].t);
    BidKeepsStops(rows[i], bids);
    assert rows[i].status.RowOpen? && rows[i].sym == p && rows[i].stopTxid == Some(after[k].t);
  }

  lemma BidKeepsStops(row: Row, bids: map<Txid, Order>)
    requires row.OneExit()
    ensures BidSettled(row, bids).status.RowOpen? && BidSettled(row, bids).stopTxid.Some? ==> BidSettled(row, bids) == row
  {
  }

  /** Every bid that is known is settled, and no row has a stop left. */
  ghost predicate SettledAll(was: seq<Row>, now: seq<Row>, book: Book) {
    && |now| == |was|
    && forall i :: 0 <= i < |was| ==>
                     && (now[i].status.RowPending? ==> was[i].txid.None? || |book| <= was[i].txid.value)
                     && (now[i].status.RowOpen? ==> now[i].stopTxid.None?)
  }

  lemma CalmSweep(rows: seq<Row>, bids: map<Txid, Order>, half: seq<Row>, was: Book, book: Book)
    requires OneExitEach(rows) && Recorded(rows, was) && OursOff(rows, |rows|, was, book) && |book| == |was|
    requires Fills.AnsweredAll(rows, bids, book)
    requires |half| == |rows| && (forall i :: 0 <= i < |rows| ==> half[i] == BidSettled(rows[i], bids))
    ensures forall st :: st in StopsOf(half) ==> Off(st.1, book)
    ensures forall i :: 0 <= i < |half| && half[i].status.RowPending? ==> rows[i].txid.None? || |was| <= rows[i].txid.value
  {
    forall i | 0 <= i < |half| && half[i].status.RowOpen? && half[i].stopTxid.Some? ensures Off(half[i].stopTxid.value, book) {
      BidKeepsStops(rows[i], bids);
      assert Ours(rows[i]) == half[i].stopTxid;
    }
    forall i | 0 <= i < |half| && half[i].status.RowPending? ensures rows[i].txid.None? || |was| <= rows[i].txid.value {
      StillPending(rows[i], bids, was, book);
    }
  }

  lemma StillPending(row: Row, bids: map<Txid, Order>, was: Book, book: Book)
    requires BidSettled(row, bids).status.RowPending? && |book| == |was|
    requires Ours(row).Some? && Ours(row).value < |was| ==> Off(Ours(row).value, book)
    requires row.status.RowPending? && row.txid.Some? && row.txid.value < |book| ==>
               row.txid.value in bids && bids[row.txid.value] == book[row.txid.value]
    ensures row.txid.None? || |was| <= row.txid.value
  {
  }

  lemma CalmSettled(rows: seq<Row>, half: seq<Row>, now: seq<Row>, was: Book, book: Book)
    requires |half| == |rows| && StopsCleared(half, now, {}, {}, book)
    requires forall i :: 0 <= i < |half| && half[i].status.RowPending? ==> rows[i].txid.None? || |was| <= rows[i].txid.value
    ensures SettledAll(rows, now, was)
    ensures PendingPairs(now) == PendingPairs(half)
  {
    PendingKept(half, now);
  }

  /** No order was sent, and the last call was a read that brought nothing usable. */
  ghost predicate Unread(before: seq<Call>, after: seq<Call>) {
    && before < after
    && (forall k :: |before| <= k < |after| ==> !after[k].SentOrder?)
    && match after[|after| - 1]
       case AskedOrders(open, _) => open.None?
       case AskedPositions(long, _) => long.None? || WrongShape(long.value)
       case _ => false
  }

  ghost predicate NoOrders(before: seq<Call>, after: seq<Call>) {
    before <= after && forall k :: |before| <= k < |after| ==> !after[k].SentOrder?
  }

  lemma NowUnread(before: seq<Call>, mid: seq<Call>, c: Call)
    requires NoOrders(before, mid)
    requires (c.AskedOrders? && c.open.None?) || (c.AskedPositions? && (c.long.None? || WrongShape(c.long.value)))
    ensures Unread(before, mid + [c])
  {
    forall k | |before| <= k < |mid| ensures !(mid + [c])[k].SentOrder? {
      assert (mid + [c])[k] == mid[k];
    }
  }

  lemma SweepSentNone(before: seq<Call>, b1: seq<Call>, b2: seq<Call>, b3: seq<Call>, after: seq<Call>, rows: seq<Row>,
                      half: seq<Row>, open: Option<map<Txid, Order>>, at: Book, bids: map<Txid, Order>,
                      pending: set<Pair>, blocked: set<Pair>)
    requires OursSent(rows, |rows|, before, b1) && b2 == b1 + [AskedOrders(open, at)]
    requires |b3| == |b2| + 1 && b2 <= b3 && Fills.BidsAsked(b2, b3, rows, bids)
    requires StopsTold(half, b3, after, pending, blocked)
    ensures NoOrders(before, after)
  {
    hide StopFailed, CancelSent, IsOurs;
    forall k | |before| <= k < |after| ensures !after[k].SentOrder? {
      assert k < |b3| ==> after[k] == b3[k];
      assert k < |b1| ==> after[k] == b1[k];
    }
  }

  lemma CancelsSentNone(before: seq<Call>, after: seq<Call>, rows: seq<Row>)
    requires OursSent(rows, |rows|, before, after)
    ensures NoOrders(before, after)
  {
    hide CancelSent, IsOurs;
  }

  /** The first half of a pass: sweep our orders, then settle bids and stops by definite answers.
      Without OpenOrders nothing is recorded. When every call is answered nothing of ours that
      is known is left, and a pair is blocked only for a bid that is not. */
  method SweepFirst(tb: Table, kx: Kraken, ghost live: bool) returns (blocked: Option<set<Pair>>, ghost bids: map<Txid, Order>)
    requires FlatOk(tb, kx, live)
    modifies tb`rows, kx`book, kx`safe, kx`trace
    ensures kx.safe ==> old(kx.safe)
    ensures Grew(old(kx.book), kx.book) && FlatOk(tb, kx, live) && (kx.closed ==> |kx.book| == |old(kx.book)|)
    ensures blocked.None? ==> tb.rows == old(tb.rows) && Unread(old(kx.trace), kx.trace)
                              && kx.trace != [] && kx.trace[|kx.trace| - 1].AskedOrders?
    ensures blocked.Some? ==> SweptFirst(old(tb.rows), bids, tb.rows, blocked.value, kx.book)
                              && SweepTold(old(kx.trace), kx.trace, old(tb.rows), bids, tb.rows, blocked.value)
                              && NoOrders(old(kx.trace), kx.trace)
    ensures kx.calm ==> blocked.Some? && blocked.value == PendingPairs(tb.rows) && SettledAll(old(tb.rows), tb.rows, old(kx.book))
  {
    hide Grew, Held, SweptFirst, StopsCleared, Recorded, BidSettled, OneExitEach, Seen, OursSent, OursOff, OthersKept,
      BidsSettled, StopsTold, SweepTold, NoOrders, Unread, SettledAll, Fills.AnsweredAll, Fills.BidsAsked;
    ghost var was, rows, t0 := kx.book, tb.rows, kx.trace;
    blocked, bids := None, map[];
    HeldRecords(rows, was, live);
    CancelOurs(tb, kx, live);
    ghost var b1, t1 := kx.book, kx.trace;
    CancelsSentNone(t0, t1, rows);
    var oo := ReadOpenOrders(tb, kx, live);
    GrewTransitive(was, b1, kx.book);
    if oo.None? {
      NowUnread(t0, t1, AskedOrders(None, kx.book));
      return;
    }
    ghost var shown, t2 := kx.book, kx.trace;
    HeldRecords(tb.rows, shown, live);
    var pending;
    pending, bids := SettleBids(tb, kx, live);
    GrewTransitive(was, shown, kx.book);
    ghost var half, b2, t3 := tb.rows, kx.book, kx.trace;
    BidsSettledMeans(rows, half, bids, pending);
    assert pending == PendingPairs(half);
    SettledRecorded(rows, bids, half, shown);
    if kx.calm {
      CalmSize(rows, was, b1);
      CalmSweep(rows, bids, half, was, b1);
    }
    var left := CancelStops(tb, kx, oo.value, pending, shown, live);
    GrewTransitive(was, b2, kx.book);
    OnlyStopsChanged(half, tb.rows, left, kx.book);
    ToldMore(half, t3, kx.trace, pending, left);
    CancelsGrow(rows, t0, t1);
    SweptFirstFrom(rows, bids, half, tb.rows, left, b2, kx.book);
    SweepToldFrom(t0, t1, t2, t3, kx.trace, rows, bids, half, tb.rows, pending, left);
    SweepSentNone(t0, t1, t2, t3, kx.trace, rows, half, oo, shown, bids, pending, left);
    if kx.calm {
      CalmSettled(rows, half, tb.rows, was, kx.book);
    }
    blocked := Some(left);
  }

  lemma ToldMore(rows: seq<Row>, before: seq<Call>, after: seq<Call>, blocked: set<Pair>, blocked': set<Pair>)
    requires StopsTold(rows, before, after, blocked, blocked')
    ensures before <= after && blocked <= blocked'
  {
  }

  lemma CancelsGrow(rows: seq<Row>, before: seq<Call>, after: seq<Call>)
    requires OursSent(rows, |rows|, before, after)
    ensures before <= after
  {
  }

  lemma CalmSize(rows: seq<Row>, was: Book, book: Book)
    requires OthersKept(rows, |rows|, was, book)
    ensures |book| == |was|
  {
  }

  lemma OnlyStopsChanged(was: seq<Row>, now: seq<Row>, blocked: set<Pair>, book: Book)
    requires StopsCleared(was, now, blocked, {}, book)
    ensures |now| == |was| && forall i :: 0 <= i < |was| ==> now[i] == was[i] || now[i] == was[i].(stopTxid := None)
  {
  }

  /** The readings a pass works from, in the order of its calls: the position once the sweep was
      over, and then the statuses of exactly the closes of the open rows. */
  ghost predicate ReadTold(closed: bool, calm: bool, told: seq<Call>, after: seq<Call>, rows: seq<Row>, swept: Book,
                           d: Desk, book: Book)
  {
    && told <= after && |told| + 2 <= |after|
    && after[|told|] == AskedPositions(Some(d.read), d.atRead)
    && var asked := after[|told| + 1];
       && asked.AskedStatuses? && asked.seen == d.info && ListsCloses(rows, asked.ids)
       && Grew(swept, d.atRead) && Grew(d.atRead, asked.at) && Grew(asked.at, book) && Seen(d.info, asked.at)
       && (forall t :: t in d.info && t < |d.atRead| ==> Became(d.atRead[t], d.info[t]))
       && (closed ==> d.read == PositionsOf(d.atRead))
       && (calm ==> forall t :: t in asked.ids && t < |asked.at| ==> t in d.info && d.info[t] == asked.at[t])
  }

  ghost predicate ListsCloses(rows: seq<Row>, ids: seq<Txid>) {
    forall t :: t in ids <==> exists i :: 0 <= i < |rows| && rows[i].status.RowOpen? && rows[i].closeTxid == Some(t)
  }

  /** A completed pass and the calls it made: swept first, then read, then worked. */
  ghost predicate Witnessed(closed: bool, calm: bool, before: seq<Call>, after: seq<Call>, was: Book, rows: seq<Row>,
                            log: Log, book: Book)
  {
    var d := log.desk;
    && SweepTold(before, log.told, rows, log.bids, log.settled, d.blocked) && NoOrders(before, log.told)
    && SweptFirst(rows, log.bids, log.settled, d.blocked, log.swept) && Grew(was, log.swept)
    && ReadTold(closed, calm, log.told, after, log.settled, log.swept, d, book)
    && SellsTold(after[..|log.told| + 2], after, {}, d.read, d.blocked, log.placed)
    && (calm ==> d.blocked == PendingPairs(log.settled) && SettledAll(rows, log.settled, was))
  }

  /** What a pass that could not read the exchange leaves. If OpenOrders failed, the rows are as they
      were. If the position did, the sweep is done and nothing else: bids are settled by orders
      read as finished, and a stop is forgotten only once it is off the book. */
  ghost predicate HalfDone(calm: bool, before: seq<Call>, after: seq<Call>, was: Book, rows: seq<Row>, now: seq<Row>,
                           book: Book)
  {
    && Unread(before, after)
    && if after[|after| - 1].AskedOrders? then now == rows
       else WasSwept(calm, before, after[..|after| - 1], was, rows, now, book)
  }

  ghost predicate WasSwept(calm: bool, before: seq<Call>, after: seq<Call>, was: Book, rows: seq<Row>, now: seq<Row>,
                           book: Book)
  {
    exists bids, blocked :: SweptOn(calm, before, after, was, rows, bids, now, blocked, book)
  }

  ghost predicate SweptOn(calm: bool, before: seq<Call>, after: seq<Call>, was: Book, rows: seq<Row>,
                          bids: map<Txid, Order>, now: seq<Row>, blocked: set<Pair>, book: Book)
  {
    && SweptFirst(rows, bids, now, blocked, book) && SweepTold(before, after, rows, bids, now, blocked)
    && (calm ==> blocked == PendingPairs(now) && SettledAll(rows, now, was))
  }

  lemma HalfDoneFrom(calm: bool, before: seq<Call>, told: seq<Call>, long: Option<Positions>, was: Book, rows: seq<Row>,
                     bids: map<Txid, Order>, now: seq<Row>, blocked: set<Pair>, mid: Book, book: Book)
    requires NoOrders(before, told) && (long.None? || WrongShape(long.value))
    requires SweptOn(calm, before, told, was, rows, bids, now, blocked, mid) && Grew(mid, book)
    ensures HalfDone(calm, before, told + [AskedPositions(long, book)], was, rows, now, book)
  {
    hide NoOrders, SweptFirst, SweepTold, SettledAll, Unread, WrongShape, Grew;
    NowUnread(before, told, AskedPositions(long, book));
    SweptFirstLasts(rows, bids, now, blocked, mid, book);
    assert (told + [AskedPositions(long, book)])[..|told|] == told;
    assert SweptOn(calm, before, told, was, rows, bids, now, blocked, book);
  }

  /** The pass rested a sell on a position that a close of the pair had outrun: it executed between
      the reading of the position and the reading of the statuses. */
  ghost predicate Outrun(log: Log) {
    exists p :: p in log.placed && SoldBetween(log.desk.info, log.desk.atRead, p)
  }

  lemma ReadToldFrom(closed: bool, calm: bool, told: seq<Call>, mid: seq<Call>, after: seq<Call>, rows: seq<Row>,
                     swept: Book, d: Desk, ids: seq<Txid>, at: Book, book: Book)
    requires mid == told + [AskedPositions(Some(d.read), d.atRead)] + [AskedStatuses(ids, d.info, at)] && mid <= after
    requires ListsCloses(rows, ids) && Grew(swept, d.atRead) && Grew(d.atRead, at) && Grew(at, book) && Seen(d.info, at)
    requires forall t :: t in d.info && t < |d.atRead| ==> Became(d.atRead[t], d.info[t])
    requires closed ==> d.read == PositionsOf(d.atRead)
    requires calm ==> forall t :: t in ids && t < |at| ==> t in d.info && d.info[t] == at[t]
    ensures ReadTold(closed, calm, told, after, rows, swept, d, book)
    ensures after[..|told| + 2] == mid
  {
    assert after[|told|] == mid[|told|] && after[|told| + 1] == mid[|told| + 1];
  }

  /** The second half of a pass: read the position, then the closes, and work the pairs. Without a
      usable position nothing more is done. */
  method ReadAndWork(tb: Table, kx: Kraken, quotes: map<Pair, Harvest.Quote>, blocked: set<Pair>, ghost live: bool)
    returns (ran: bool, complete: bool, ghost d: Desk, ghost placed: map<Pair, Txid>, ghost raced: bool)
    requires FlatOk(tb, kx, live)
    requires PendingPairs(tb.rows) <= blocked
    requires forall i :: 0 <= i < |tb.rows| && tb.rows[i].status.RowOpen? && tb.rows[i].sym !in blocked ==>
                           tb.rows[i].stopTxid.None?
    modifies tb`rows, kx`book, kx`safe, kx`trace
    ensures kx.safe ==> old(kx.safe)
    ensures Grew(old(kx.book), kx.book) && FlatOk(tb, kx, live && !raced) && old(kx.trace) <= kx.trace
    ensures d.quotes == quotes && d.blocked == blocked
    ensures !ran ==> !complete && !raced && tb.rows == old(tb.rows) && placed == map[]
                     && exists long :: kx.trace == old(kx.trace) + [AskedPositions(long, kx.book)]
                                       && (long.None? || WrongShape(long.value))
    ensures ran ==> ReadTold(kx.closed, kx.calm, old(kx.trace), kx.trace, old(tb.rows), old(kx.book), d, kx.book)
    ensures ran && live ==> Bidding(old(tb.rows), d.atRead)
    ensures ran ==> |old(kx.trace)| + 2 <= |kx.trace|
                    && SellsTold(kx.trace[..|old(kx.trace)| + 2], kx.trace, {}, d.read, d.blocked, placed)
    ensures ran ==> Flattening(old(tb.rows), tb.rows, {}, d.read, d.info, placed, quotes, blocked, |d.atRead|, kx.book)
    ensures ran ==> (complete <==> blocked == {} && forall p :: p in OpenPairs(old(tb.rows)) ==> Long(d.read, p) == 0)
    ensures raced <==> live && exists p :: p in placed && SoldBetween(d.info, d.atRead, p)
    ensures live ==> (raced <==> !kx.safe)
    ensures kx.calm && live ==> ran
    ensures kx.calm && ran ==> forall p :: Wanted(old(tb.rows), d, p) ==> p in placed
    ensures kx.closed ==> |kx.book| == |old(kx.book)| + |placed| && NewSells(old(kx.book), kx.book, old(tb.rows))
  {
    hide Grew, Held, PairReady, Flattening, SoldBetween, DeskOk, Long, Recorded, OneExitEach, PositionsOf, Wanted, WrongShape,
      SellsTold, ReadTold, ListsCloses, Seen, Became, OpenPairs, Bidding, NewSells;
    ghost var was, settled, told := kx.book, tb.rows, kx.trace;
    ran, complete, placed, raced := false, false, map[], false;
    d := Desk(map[], was, map[], quotes, blocked);
    var positions := ReadPositions(tb, kx, live);
    ghost var atRead := kx.book;
    if live {
      HeldMeans(tb.rows, atRead);
      CoveredShape(atRead);
    }
    var shapeless := Shapeless(positions);
    if positions.None? || shapeless {
      if kx.closed {
        NoneNew(was, atRead, settled);
      }
      return;
    }
    GrewReflexive(atRead);
    var ids := AllCloses(tb.rows);
    HeldRecords(tb.rows, atRead, live);
    IdsBounded(tb.rows, ids, atRead);
    var info := ReadStatuses(tb, kx, ids, live);
    ghost var asked, heard := kx.book, kx.trace;
    d := Desk(positions.value, atRead, info, quotes, blocked);
    assert DeskOk(d, asked, live) by { DeskFrom(d, asked, live); }
    if live {
      StartReady(tb.rows, d, asked);
    }
    GrewTransitive(was, atRead, asked);
    complete, placed, raced := WorkAll(tb, kx, positions.value, info, quotes, blocked, d, live);
    if kx.closed {
      NoneNew(was, asked, settled);
      NewSellsMore(was, asked, kx.book, settled);
    }
    GrewTransitive(was, asked, kx.book);
    FlatteningFrom(settled, tb.rows, d, placed, |asked|, |atRead|, kx.book);
    ReadToldFrom(kx.closed, kx.calm, told, heard, kx.trace, settled, was, d, ids, asked, kx.book);
    ran := true;
  }

  /** One pass of the flatten. Whatever the exchange answers: a pass that cannot read it
      retires nothing and sends no order, and keeps what the sweep settled by definite answers; otherwise
      the sweep comes first, then the position is read, then the closes, and each unblocked pair
      gets at most one sell, of exactly the volume read, and rows are retired only for a pair read
      flat. A pair is blocked only for a bid still pending or a failed cancel. It reports completion
      exactly when no pair is blocked and all are flat, and then no open or pending row is left.
      When every call is answered no pair that can be sold is passed over. On a closed account the
      position read is the one at that time, and the pass never leaves the book uncovered unless
      a close executed between the reading of the position and the reading of the statuses. */
  method FlattenAll(tb: Table, kx: Kraken, quotes: map<Pair, Harvest.Quote>, ghost live: bool)
    returns (ran: bool, complete: bool, ghost log: Option<Log>, ghost raced: bool)
    requires FlatOk(tb, kx, live)
    modifies tb`rows, kx`book, kx`safe, kx`trace
    ensures kx.safe ==> old(kx.safe)
    ensures Grew(old(kx.book), kx.book) && FlatOk(tb, kx, live && !raced) && old(kx.trace) <= kx.trace
    ensures ran <==> log.Some?
    ensures !ran ==> !complete && !raced
                     && HalfDone(kx.calm, old(kx.trace), kx.trace, old(kx.book), old(tb.rows), tb.rows, kx.book)
    ensures ran ==> Witnessed(kx.closed, kx.calm, old(kx.trace), kx.trace, old(kx.book), old(tb.rows), log.value, kx.book)
    ensures ran ==> var d := log.value.desk;
                    && d.quotes == quotes
                    && Flattening(log.value.settled, tb.rows, {}, d.read, d.info, log.value.placed, quotes, d.blocked,
                                  |d.atRead|, kx.book)
                    && (complete <==> d.blocked == {} && forall p :: p in OpenPairs(log.value.settled) ==> Long(d.read, p) == 0)
    ensures ran && live ==> Bidding(log.value.settled, log.value.desk.atRead)
    ensures raced <==> live && ran && Outrun(log.value)
    ensures live ==> (raced <==> !kx.safe)
    ensures complete ==> AllDone(tb.rows)
    ensures kx.calm && live ==> ran
    ensures kx.calm && ran ==> forall p :: Wanted(log.value.settled, log.value.desk, p) ==> p in log.value.placed
    ensures kx.closed ==> |kx.book| == |old(kx.book)| + if ran then |log.value.placed| else 0
    ensures kx.closed ==> NewSells(old(kx.book), kx.book, old(tb.rows))
  {
    hide Grew, Held, Flattening, SoldBetween, Long, SweptFirst, AllDone, Wanted, WrongShape, SweepTold, SellsTold, NoOrders,
      Unread, SettledAll, ReadTold, OpenPairs, Bidding, NewSells;
    ran, complete, log, raced := false, false, None, false;
    ghost var was, rows, t0 := kx.book, tb.rows, kx.trace;
    GrewReflexive(was);
    ghost var bids;
    var swept;
    swept, bids := SweepFirst(tb, kx, live);
    ghost var settled, b1, told := tb.rows, kx.book, kx.trace;
    if swept.None? {
      UnreadGrows(t0, told);
      if kx.closed {
        NoneNew(was, kx.book, rows);
      }
      return;
    }
    var blocked := swept.value;
    SweepGrows(t0, told, rows, bids, settled, blocked);
    StopsGone(rows, bids, settled, blocked, b1);
    ghost var d, placed;
    ran, complete, d, placed, raced := ReadAndWork(tb, kx, quotes, blocked, live);
    GrewTransitive(was, b1, kx.book);
    if kx.closed {
      NoneNew(was, b1, rows);
      SamePairs(rows, bids, settled, blocked, b1, b1, kx.book);
      NewSellsMore(was, b1, kx.book, rows);
    }
    if !ran {
      ghost var long :| kx.trace == told + [AskedPositions(long, kx.book)] && (long.None? || WrongShape(long.value));
      HalfDoneFrom(kx.calm, t0, told, long, was, rows, bids, settled, blocked, b1, kx.book);
      return;
    }
    if complete {
      CompleteMeansDone(rows, bids, settled, tb.rows, d, placed, |d.atRead|, b1, kx.book);
    }
    log := Some(Log(bids, settled, b1, told, d, placed));
  }

  lemma SamePairs(rows: seq<Row>, bids: map<Txid, Order>, settled: seq<Row>, blocked: set<Pair>, at: Book, was: Book,
                  now: Book)
    requires SweptFirst(rows, bids, settled, blocked, at) && NewSells(was, now, settled)
    ensures NewSells(was, now, rows)
  {
    hide Seen, Off;
    forall t | |was| <= t < |now| ensures HasPair(rows, now[t].pair) {
      var i :| 0 <= i < |settled| && settled[i].sym == now[t].pair;
      assert StopSettled(BidSettled(rows[i], bids), settled[i], at);
      assert rows[i].sym == now[t].pair;
    }
  }

  // ── what a completed flatten leaves ─────────────────────────────────────────

  /** Between the rows a flatten started from and those of now: the same pairs, references and
      entries, and whoever was given up had bought nothing. */
  ghost predicate Settling(start: seq<Row>, tags: Tags, rows: seq<Row>, book: Book) {
    && |tags.entryOf| == |start| == |rows|
    && (forall i :: 0 <= i < |rows| ==> SameRow(start[i], rows[i]))
    && (forall i :: 0 <= i < |rows| ==> (start[i].txid.Some? ==> tags.entryOf[i] == start[i].txid))
    && (forall i :: 0 <= i < |rows| ==> GaveUp(rows[i], tags.entryOf[i], book))
  }

  predicate SameRow(was: Row, now: Row) {
    now.sym == was.sym && now.userref == was.userref && now.txid == was.txid
  }

  predicate GaveUp(row: Row, entry: Option<Txid>, book: Book) {
    (row.status.RowCanceled? || row.status.RowRejected?) && entry.Some? ==>
      entry.value < |book| && book[entry.value].Terminal() && book[entry.value].exec == 0
  }

  lemma SettlingStart(rows: seq<Row>, tags: Tags, book: Book)
    requires Inv(rows, tags, book)
    ensures Settling(rows, tags, rows, book)
  {
    forall i | 0 <= i < |rows|
      ensures rows[i].txid.Some? ==> tags.entryOf[i] == rows[i].txid
      ensures GaveUp(rows[i], tags.entryOf[i], book)
    {
      assert RowOk(i, rows[i], tags.entryOf[i], tags.booked[i], tags, book);
    }
  }

  lemma GaveUpLasts(row: Row, entry: Option<Txid>, was: Book, now: Book)
    requires GaveUp(row, entry, was) && Grew(was, now)
    ensures GaveUp(row, entry, now)
  {
  }

  lemma BidGivenUp(row: Row, now: Row, bids: map<Txid, Order>, entry: Option<Txid>, was: Book, book: Book)
    requires GaveUp(row, entry, was) && Grew(was, book) && Seen(bids, book) && (row.txid.Some? ==> entry == row.txid)
    requires StopSettled(BidSettled(row, bids), now, book)
    ensures SameRow(row, now) && GaveUp(now, entry, book)
  {
    GaveUpLasts(row, entry, was, book);
    if row.status.RowPending? && row.txid.Some? && row.txid.value in bids && bids[row.txid.value].Terminal() {
      SeenTerminal(bids, book, row.txid.value);
    }
  }

  lemma SweepSettles(start: seq<Row>, tags: Tags, rows: seq<Row>, was: Book, bids: map<Txid, Order>, now: seq<Row>,
                     blocked: set<Pair>, book: Book)
    requires Settling(start, tags, rows, was) && SweptFirst(rows, bids, now, blocked, book) && Grew(was, book)
    ensures Settling(start, tags, now, book)
  {
    hide GaveUp, StopSettled, BidSettled, Grew, Seen;
    forall i | 0 <= i < |rows| ensures SameRow(start[i], now[i]) && GaveUp(now[i], tags.entryOf[i], book) {
      BidGivenUp(rows[i], now[i], bids, tags.entryOf[i], was, book);
    }
  }

  lemma RowFlatGivesUp(row: Row, now: Row, read: Positions, info: map<Txid, Order>, placed: map<Pair, Txid>,
                       blocked: set<Pair>, entry: Option<Txid>, was: Book, book: Book)
    requires RowFlat(row, now, {}, read, info, placed, blocked, book) && GaveUp(row, entry, was) && Grew(was, book)
    ensures SameRow(row, now) && GaveUp(now, entry, book)
  {
    GaveUpLasts(row, entry, was, book);
  }

  lemma WorkSettles(start: seq<Row>, tags: Tags, rows: seq<Row>, was: Book, now: seq<Row>, read: Positions,
                    info: map<Txid, Order>, placed: map<Pair, Txid>, quotes: map<Pair, Harvest.Quote>, blocked: set<Pair>,
                    bound: nat, book: Book)
    requires Settling(start, tags, rows, was) && Grew(was, book)
    requires Flattening(rows, now, {}, read, info, placed, quotes, blocked, bound, book)
    ensures Settling(start, tags, now, book)
  {
    hide GaveUp, RowFlat, RestedWell, Grew;
    forall i | 0 <= i < |rows| ensures SameRow(start[i], now[i]) && GaveUp(now[i], tags.entryOf[i], book) {
      RowFlatGivesUp(rows[i], now[i], read, info, placed, blocked, tags.entryOf[i], was, book);
    }
  }

  lemma SettlingLasts(start: seq<Row>, tags: Tags, rows: seq<Row>, was: Book, book: Book)
    requires Settling(start, tags, rows, was) && Grew(was, book)
    ensures Settling(start, tags, rows, book)
  {
    hide GaveUp, Grew;
    forall i | 0 <= i < |rows| ensures GaveUp(rows[i], tags.entryOf[i], book) {
      GaveUpLasts(rows[i], tags.entryOf[i], was, book);
    }
  }

  ghost function PairRow(rows: seq<Row>, p: Pair): (i: nat)
    requires HasPair(rows, p)
    ensures i < |rows| && rows[i].sym == p
  {
    var i: nat :| i < |rows| && rows[i].sym == p;
    i
  }

  /** Nothing of the book is left and the account is covered: then the ledger invariant holds again,
      every sell of the flatten being charged to some row of its pair. */
  lemma InvRestored(start: seq<Row>, tags: Tags, was: Book, rows: seq<Row>, book: Book) returns (after: Tags)
    requires Inv(start, tags, was) && Grew(was, book) && Settling(start, tags, rows, book) && NewSells(was, book, start)
    requires AllDone(rows) && Held(rows, book, true)
    ensures Inv(rows, after, book)
  {
    hide Covered, Within, OrderOwned, RowOk, Settling, Bidding, Tracked, AllDone, GaveUp;
    assert |rows| == |start| == |tags.entryOf| by { SettlingMeans(start, tags, rows, book); }
    ghost var n := |was|;
    ghost var booked: seq<nat> := seq(|rows|, i requires 0 <= i < |rows| => Booked(tags.entryOf[i], book));
    ghost var charged := Charged(start, book[n..]);
    ghost var own := tags.own + charged;
    after := Tags(tags.entryOf, booked, own);
    assert after.own[..n] == tags.own;
    forall u | n <= u < |book| ensures own[u] < |start| && start[own[u]].sym == book[u].pair {
      ghost var k := u - n;
      assert own[u] == charged[k] && book[n..][k] == book[u];
    }
    AllBidsEnded(rows, book);
    CoveredMeans(book);
    forall i | 0 <= i < |rows| ensures RowOk(i, rows[i], after.entryOf[i], after.booked[i], after, book) {
      RowRestored(start, tags, was, rows, book, after, i);
    }
    forall t | 0 <= t < |book| ensures OrderOwned(t, rows, after, book) {
      OrderRestored(start, tags, was, rows, book, after, t);
    }
    forall i, j | 0 <= i < j < |rows| ensures rows[i].userref != rows[j].userref {
      SettlingMeans(start, tags, rows, book);
      assert SameRow(start[i], rows[i]) && SameRow(start[j], rows[j]);
    }
    DoneIsWithin(rows, after, book);
    assert Conserved(rows, after, book) by { DoneConserves(rows, after, book); }
  }

  /** For each order, some row of its pair. */
  ghost function Charged(rows: seq<Row>, joined: Book): (own: seq<nat>)
    requires forall k :: 0 <= k < |joined| ==> HasPair(rows, joined[k].pair)
    ensures |own| == |joined|
    ensures forall k :: 0 <= k < |joined| ==> own[k] < |rows| && rows[own[k]].sym == joined[k].pair
  {
    if joined == [] then [] else Charged(rows, joined[..|joined| - 1]) + [PairRow(rows, joined[|joined| - 1].pair)]
  }

  lemma SettlingMeans(start: seq<Row>, tags: Tags, rows: seq<Row>, book: Book)
    requires Settling(start, tags, rows, book)
    ensures |rows| == |start| == |tags.entryOf|
    ensures forall i :: 0 <= i < |rows| ==> SameRow(start[i], rows[i])
  {
  }

  /** The executed volume of a row's bid; a row without one has bought nothing. */
  function Booked(entry: Option<Txid>, book: Book): nat {
    if entry.Some? && entry.value < |book| then book[entry.value].exec else 0
  }

  /** With no live row left, no order of a book in order rests. */
  lemma AllBidsEnded(rows: seq<Row>, book: Book)
    requires AllDone(rows) && Held(rows, book, true)
    ensures forall t :: 0 <= t < |book| ==> book[t].Terminal()
  {
    forall t | 0 <= t < |book| ensures book[t].Terminal() {
      NoBidRests(rows, book, book[t].pair);
      NothingRests(rows, book, book[t].pair);
    }
  }

  lemma RowRestored(start: seq<Row>, tags: Tags, was: Book, rows: seq<Row>, book: Book, after: Tags, i: nat)
    requires Inv(start, tags, was) && Grew(was, book) && Settling(start, tags, rows, book) && i < |rows|
    requires AllDone(rows) && OneExitEach(rows) && (forall t :: 0 <= t < |book| ==> book[t].Terminal())
    requires after.entryOf == tags.entryOf && |after.own| == |book| && after.own[..|was|] == tags.own
    requires |after.booked| == |rows| && after.booked[i] == Booked(tags.entryOf[i], book)
    ensures RowOk(i, rows[i], after.entryOf[i], after.booked[i], after, book)
  {
    hide Within, OrderOwned;
    assert RowOk(i, start[i], tags.entryOf[i], tags.booked[i], tags, was);
    assert SameRow(start[i], rows[i]) && GaveUp(rows[i], tags.entryOf[i], book);
    assert rows[i].OneExit();
    if tags.entryOf[i].Some? {
      var e := tags.entryOf[i].value;
      assert IsEntry(i, start[i], e, tags, was) && Became(was[e], book[e]) && after.own[e] == after.own[..|was|][e];
    }
  }

  lemma OrderRestored(start: seq<Row>, tags: Tags, was: Book, rows: seq<Row>, book: Book, after: Tags, t: Txid)
    requires Inv(start, tags, was) && Grew(was, book) && Settling(start, tags, rows, book) && t < |book|
    requires NewSells(was, book, start) && (forall u :: 0 <= u < |book| ==> book[u].Terminal())
    requires after.entryOf == tags.entryOf && |after.own| == |book| && after.own[..|was|] == tags.own
    requires forall u :: |was| <= u < |book| ==> after.own[u] < |start| && start[after.own[u]].sym == book[u].pair
    ensures OrderOwned(t, rows, after, book)
  {
    hide Within, RowOk;
    assert book[t].Terminal();
    if t < |was| {
      assert OrderOwned(t, start, tags, was) && Became(was[t], book[t]) && after.own[t] == after.own[..|was|][t];
    }
    assert SameRow(start[after.own[t]], rows[after.own[t]]);
  }

  lemma DoneConserves(rows: seq<Row>, tags: Tags, book: Book)
    requires AllDone(rows) && Shape(rows, tags, book)
    ensures Conserved(rows, tags, book)
  {
  }

  lemma DoneIsWithin(rows: seq<Row>, tags: Tags, book: Book)
    requires AllDone(rows) && Covered(book) && Shape(rows, tags, book)
    ensures Within(rows, tags, book)
  {
    CoveredIffFree(book);
    forall p: Pair ensures Sum(Bares(rows, tags, book, p)) <= Free(book, p) {
      SumZeros(Bares(rows, tags, book, p));
    }
  }

  lemma UnreadGrows(before: seq<Call>, after: seq<Call>)
    requires Unread(before, after)
    ensures before <= after
  {
  }

  lemma SweepGrows(before: seq<Call>, after: seq<Call>, rows: seq<Row>, bids: map<Txid, Order>, settled: seq<Row>,
                   blocked: set<Pair>)
    requires SweepTold(before, after, rows, bids, settled, blocked)
    ensures before <= after
  {
  }
}

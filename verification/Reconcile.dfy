/** The two-pass sweep that brings open rows and their stops back in line with the
    position the exchange reports: removals against a volume budget first, then additions
    against a fresh reading. */
module Reconcile {
  import opened Wrappers
  import opened Sums
  import opened Exchange
  import opened Ledger
  import opened Broker
  import opened Prices
  import opened Protect
  import opened Volume
  import Harvest

  /** Everything the sweep reads before it acts: positions, statuses of the rows' stops and
      of the solo closes, and the orders then resting. */
  datatype Reads = Reads(long: Positions, stops: map<Txid, Order>, closes: map<Txid, Order>,
                         open: Option<map<Txid, Order>>)

  ghost predicate ReadsOk(r: Reads, book: Book) {
    Seen(r.stops, book) && Seen(r.closes, book) && (r.open.Some? ==> Seen(r.open.value, book))
  }

  lemma ReadsLast(r: Reads, was: Book, now: Book)
    requires ReadsOk(r, was) && Grew(was, now)
    ensures ReadsOk(r, now)
  {
    SeenLasts(r.stops, was, now);
    SeenLasts(r.closes, was, now);
    if r.open.Some? {
      SeenLasts(r.open.value, was, now);
    }
  }

  // ── pass 1: the verdict on each row ─────────────────────────────────────────

  datatype Verdict = Untracked | Retire | Keep(spend: nat) | Unbacked

  /** Row `i` against what is left of its pair's budget. A row whose own exit executed is
      retired and spends nothing; a harvest at work spends its unsold part. */
  function Judge(rows: seq<Row>, i: nat, r: Reads, budget: int): Verdict
    requires i < |rows|
  {
    var row := Harvest.Managed(rows, i, r.closes);
    if !rows[i].status.RowOpen? then Untracked
    else if row.status.RowClosed? then Retire
    else if row.closeTxid.Some? && Harvest.SoloClose(rows, i) then
      (var t := row.closeTxid.value;
       Keep(if t !in r.closes then row.vol else if row.vol <= r.closes[t].exec then 0 else row.vol - r.closes[t].exec))
    else if row.stopTxid.Some? && row.stopTxid.value in r.stops && r.stops[row.stopTxid.value].status.Closed? then Retire
    else if budget < row.vol then Unbacked
    else Keep(row.vol)
  }

  /** The row's own close is at work, or may be: it was seen resting or could not be read. */
  predicate AtWork(rows: seq<Row>, i: nat, r: Reads)
    requires i < |rows|
  {
    Harvest.SoloClose(rows, i) && (rows[i].closeTxid.value in r.closes ==> r.closes[rows[i].closeTxid.value].status.Resting?)
  }

  /** What the row still stands for: its volume less what its own close was seen to have sold. */
  function Remaining(rows: seq<Row>, i: nat, r: Reads): nat
    requires i < |rows|
  {
    if Harvest.SoloClose(rows, i) && rows[i].closeTxid.value in r.closes
    then Max(0, rows[i].vol - r.closes[rows[i].closeTxid.value].exec)
    else rows[i].vol
  }

  /** The row's own exit was seen finished with everything sold: its close, or, if no close is at
      work, its stop. */
  predicate Gone(rows: seq<Row>, i: nat, r: Reads)
    requires i < |rows|
  {
    var row := rows[i];
    || (Harvest.SoloClose(rows, i) && row.closeTxid.value in r.closes && r.closes[row.closeTxid.value].Terminal()
        && 0 < r.closes[row.closeTxid.value].exec && row.vol <= r.closes[row.closeTxid.value].exec)
    || (!AtWork(rows, i, r) && row.stopTxid.Some? && row.stopTxid.value in r.stops
        && r.stops[row.stopTxid.value].status.Closed?)
  }

  /** The verdict in terms of what was read. A row at work stays, and so does any other that is not
      gone and that the budget covers; whoever stays takes what remains of it from the budget. */
  predicate Judged(rows: seq<Row>, i: nat, r: Reads, budget: int, v: Verdict)
    requires i < |rows|
  {
    && (v.Untracked? <==> !rows[i].status.RowOpen?)
    && (v.Retire? <==> rows[i].status.RowOpen? && Gone(rows, i, r))
    && (v.Keep? <==> rows[i].status.RowOpen? && !Gone(rows, i, r)
                     && (AtWork(rows, i, r) || Remaining(rows, i, r) <= budget))
    && (v.Keep? ==> v.spend == Remaining(rows, i, r))
  }

  lemma JudgeMeans(rows: seq<Row>, i: nat, r: Reads, budget: int)
    requires i < |rows|
    ensures Judged(rows, i, r, budget, Judge(rows, i, r, budget))
  {
  }

  function Spent(v: Verdict): nat {
    if v.Keep? then v.spend else 0
  }

  /** Budget of pair `p` left when the first `n` rows, oldest first, have been judged. */
  function Left(rows: seq<Row>, r: Reads, n: nat, p: Pair): int
    requires n <= |rows|
  {
    if n == 0 then Long(r.long, p)
    else Left(rows, r, n - 1, p)
         - if rows[n - 1].sym == p then Spent(Judge(rows, n - 1, r, Left(rows, r, n - 1, p))) else 0
  }

  function VerdictOn(rows: seq<Row>, i: nat, r: Reads): Verdict
    requires i < |rows|
  {
    Judge(rows, i, r, Left(rows, r, i, rows[i].sym))
  }

  /** What a row needs of the position if it is to stay: what remains of it, unless it is gone. */
  function Need(rows: seq<Row>, i: nat, r: Reads, p: Pair): nat
    requires i < |rows|
  {
    if rows[i].sym == p && rows[i].status.RowOpen? && !Gone(rows, i, r) then Remaining(rows, i, r) else 0
  }

  function Needs(rows: seq<Row>, r: Reads, n: nat, p: Pair): seq<int>
    requires n <= |rows|
  {
    seq(n, i requires 0 <= i < n => Need(rows, i, r, p))
  }

  lemma JudgeSpends(rows: seq<Row>, i: nat, r: Reads, budget: int)
    requires i < |rows|
    ensures Spent(Judge(rows, i, r, budget)) <= Need(rows, i, r, rows[i].sym)
    ensures Judge(rows, i, r, budget).Unbacked? ==> budget < Need(rows, i, r, rows[i].sym)
    ensures !Judge(rows, i, r, budget).Unbacked? ==> Judge(rows, i, r, budget) == Judge(rows, i, r, rows[i].vol)
  {
  }

  /** The budget left never falls below the reading less what the rows so far need. */
  lemma {:induction false} LeftIsEnough(rows: seq<Row>, r: Reads, n: nat, p: Pair)
    requires n <= |rows|
    ensures Long(r.long, p) - Sum(Needs(rows, r, n, p)) <= Left(rows, r, n, p)
  {
    hide Judge, Need;
    if n > 0 {
      LeftIsEnough(rows, r, n - 1, p);
      assert Needs(rows, r, n, p) == Needs(rows, r, n - 1, p) + [Need(rows, n - 1, r, p)];
      SumPush(Needs(rows, r, n - 1, p), Need(rows, n - 1, r, p));
      NeedCovers(rows, n - 1, r, p);
    }
  }

  lemma NeedCovers(rows: seq<Row>, i: nat, r: Reads, p: Pair)
    requires i < |rows|
    ensures (if rows[i].sym == p then Spent(Judge(rows, i, r, Left(rows, r, i, p))) else 0) <= Need(rows, i, r, p)
  {
  }

  lemma {:induction false} NeedsPrefix(rows: seq<Row>, r: Reads, n: nat, m: nat, p: Pair)
    requires n <= m <= |rows|
    ensures Sum(Needs(rows, r, n, p)) <= Sum(Needs(rows, r, m, p))
  {
    if n < m {
      NeedsPrefix(rows, r, n, m - 1, p);
      assert Needs(rows, r, m, p) == Needs(rows, r, m - 1, p) + [Need(rows, m - 1, r, p)];
      SumPush(Needs(rows, r, m - 1, p), Need(rows, m - 1, r, p));
    }
  }

  /** Exactness of the budget. If the long volume that was read covers what the pair's open
      rows still have unexecuted, no row is judged unbacked, whatever the order of the rows:
      an executed row never eats the backing of a sibling. */
  lemma NoneUnbacked(rows: seq<Row>, r: Reads, i: nat)
    requires i < |rows|
    requires Sum(Needs(rows, r, |rows|, rows[i].sym)) <= Long(r.long, rows[i].sym)
    ensures !VerdictOn(rows, i, r).Unbacked?
  {
    hide Judge, Need;
    var p := rows[i].sym;
    LeftIsEnough(rows, r, i, p);
    assert Needs(rows, r, i + 1, p) == Needs(rows, r, i, p) + [Need(rows, i, r, p)];
    SumPush(Needs(rows, r, i, p), Need(rows, i, r, p));
    NeedsPrefix(rows, r, i + 1, |rows|, p);
    JudgeSpends(rows, i, r, Left(rows, r, i, p));
  }

  /** The row stays only if the budget covers it: it is open, not a harvest at work, and neither
      its close nor its stop is known to have executed. */
  predicate FacesBudget(rows: seq<Row>, i: nat, r: Reads)
    requires i < |rows|
  {
    rows[i].status.RowOpen? && !AtWork(rows, i, r) && !Gone(rows, i, r)
  }

  /** The budget rule is exact, whatever harvests are at work: every row of a pair is spared if
      and only if, for each row that faces the budget, the reading covers what this row and
      the older rows of the pair need. */
  lemma AllSparedIff(rows: seq<Row>, r: Reads, p: Pair)
    ensures (forall i :: 0 <= i < |rows| && rows[i].sym == p ==> !VerdictOn(rows, i, r).Unbacked?)
            <==> forall i :: 0 <= i < |rows| && rows[i].sym == p && FacesBudget(rows, i, r) ==>
                               Sum(Needs(rows, r, i + 1, p)) <= Long(r.long, p)
  {
    hide Judge, Need, FacesBudget, Needs;
    forall i | 0 <= i < |rows| && rows[i].sym == p
      ensures Sum(Needs(rows, r, i + 1, p)) == Sum(Needs(rows, r, i, p)) + Need(rows, i, r, p)
      ensures VerdictOn(rows, i, r).Unbacked? <==> FacesBudget(rows, i, r) && Left(rows, r, i, p) < Need(rows, i, r, p)
      ensures Long(r.long, p) - Sum(Needs(rows, r, i, p)) <= Left(rows, r, i, p)
    {
      NeedsAdd(rows, r, i, p);
      UnbackedIff(rows, i, r, Left(rows, r, i, p));
      LeftIsEnough(rows, r, i, p);
    }
    if forall i :: 0 <= i < |rows| && rows[i].sym == p ==> !VerdictOn(rows, i, r).Unbacked? {
      forall i | 0 <= i < |rows| && rows[i].sym == p && FacesBudget(rows, i, r)
        ensures Sum(Needs(rows, r, i + 1, p)) <= Long(r.long, p)
      {
        SparedSpendNeeds(rows, r, i, p);
      }
    }
  }

  lemma NeedsAdd(rows: seq<Row>, r: Reads, i: nat, p: Pair)
    requires i < |rows|
    ensures Sum(Needs(rows, r, i + 1, p)) == Sum(Needs(rows, r, i, p)) + Need(rows, i, r, p)
  {
    assert Needs(rows, r, i + 1, p) == Needs(rows, r, i, p) + [Need(rows, i, r, p)];
    SumPush(Needs(rows, r, i, p), Need(rows, i, r, p));
  }

  lemma UnbackedIff(rows: seq<Row>, i: nat, r: Reads, budget: int)
    requires i < |rows|
    ensures Judge(rows, i, r, budget).Unbacked? <==> FacesBudget(rows, i, r) && budget < Need(rows, i, r, rows[i].sym)
  {
  }

  /** Rows that are all spared spend exactly what they need. */
  lemma {:induction false} SparedSpendNeeds(rows: seq<Row>, r: Reads, n: nat, p: Pair)
    requires n <= |rows|
    requires forall i :: 0 <= i < n && rows[i].sym == p ==> !VerdictOn(rows, i, r).Unbacked?
    ensures Left(rows, r, n, p) == Long(r.long, p) - Sum(Needs(rows, r, n, p))
  {
    hide Judge, Need, Needs;
    if n > 0 {
      SparedSpendNeeds(rows, r, n - 1, p);
      NeedsAdd(rows, r, n - 1, p);
      NeedElsewhere(rows, n - 1, r, p);
      if rows[n - 1].sym == p {
        SparedSpends(rows, n - 1, r, Left(rows, r, n - 1, p));
      }
    } else {
      NoNeeds(rows, r, p);
    }
  }

  lemma NoNeeds(rows: seq<Row>, r: Reads, p: Pair)
    ensures Sum(Needs(rows, r, 0, p)) == 0
  {
  }

  lemma SparedSpends(rows: seq<Row>, i: nat, r: Reads, budget: int)
    requires i < |rows| && !Judge(rows, i, r, budget).Unbacked?
    ensures Spent(Judge(rows, i, r, budget)) == Need(rows, i, r, rows[i].sym)
  {
  }

  /** Every exit that had executed anything when the position was read has its status in
      the answers. */
  ghost predicate Answered(rows: seq<Row>, r: Reads, book: Book) {
    forall i :: 0 <= i < |rows| && rows[i].status.RowOpen? && rows[i].Exit().Some?
                && rows[i].Exit().value < |book| && 0 < book[rows[i].Exit().value].exec ==>
                  if rows[i].stopTxid.Some? then rows[i].stopTxid.value in r.stops
                  else rows[i].closeTxid.value in r.closes
  }

  /** The statuses were read after the position was. */
  ghost predicate ReadLater(r: Reads, book: Book) {
    && (forall t :: t in r.stops && t < |book| ==> Became(book[t], r.stops[t]))
    && (forall t :: t in r.closes && t < |book| ==> Became(book[t], r.closes[t]))
  }

  lemma NeedWithinFlight(rows: seq<Row>, tags: Tags, book: Book, r: Reads, i: nat)
    requires Inv(rows, tags, book) && i < |rows|
    requires Answered(rows, r, book) && ReadLater(r, book)
    ensures Need(rows, i, r, rows[i].sym) <= InFlight(rows[i], tags.entryOf[i], book)
  {
  }

  /** In a closed system a sweep whose statuses were answered never drops a row that is
      still alive, however the market moved between its reads: the position read first
      covers everything the later readings leave unexecuted. */
  lemma ClosedSweepSparesAll(rows: seq<Row>, tags: Tags, book: Book, r: Reads, i: nat)
    requires Inv(rows, tags, book) && r.long == PositionsOf(book) && i < |rows|
    requires Answered(rows, r, book) && ReadLater(r, book)
    ensures !VerdictOn(rows, i, r).Unbacked?
  {
    hide Answered, ReadLater, Need, VerdictOn, PositionsOf, RowOk, OrderOwned, Within;
    var p := rows[i].sym;
    var flights := InFlights(rows, tags, book, p);
    InFlightWithinPosition(rows, tags, book, p);
    forall j | 0 <= j < |rows| ensures Need(rows, j, r, p) <= flights[j] {
      NeedWithinFlight(rows, tags, book, r, j);
      NeedElsewhere(rows, j, r, p);
    }
    SumMono(Needs(rows, r, |rows|, p), flights);
    PositionsAreNet(book, p);
    NoneUnbacked(rows, r, i);
  }

  lemma NeedElsewhere(rows: seq<Row>, i: nat, r: Reads, p: Pair)
    requires i < |rows|
    ensures rows[i].sym != p ==> Need(rows, i, r, p) == 0
  {
  }

  // ── the budget, in terms of what was read ───────────────────────────────────

  /** What the kept ones of the first `n` rows take of pair `p`. */
  function Takes(rows: seq<Row>, kept: seq<bool>, r: Reads, n: nat, p: Pair): seq<int>
    requires n <= |rows| && n <= |kept|
  {
    seq(n, i requires 0 <= i < n => if kept[i] && rows[i].sym == p then Remaining(rows, i, r) else 0)
  }

  /** The budget a row meets is the reading less what remains of the older rows that were kept. */
  lemma {:induction false} LeftIsReadingLessKept(rows: seq<Row>, kept: seq<bool>, r: Reads, n: nat, p: Pair)
    requires n <= |rows| && n <= |kept|
    requires forall i: nat :: i < n ==> (kept[i] <==> VerdictOn(rows, i, r).Keep?)
    ensures Left(rows, r, n, p) == Long(r.long, p) - Sum(Takes(rows, kept, r, n, p))
  {
    hide Judge, Remaining, AtWork, Gone;
    if n > 0 {
      LeftIsReadingLessKept(rows, kept, r, n - 1, p);
      ghost var x := if kept[n - 1] && rows[n - 1].sym == p then Remaining(rows, n - 1, r) else 0;
      assert Takes(rows, kept, r, n, p) == Takes(rows, kept, r, n - 1, p) + [x];
      SumPush(Takes(rows, kept, r, n - 1, p), x);
      JudgeMeans(rows, n - 1, r, Left(rows, r, n - 1, rows[n - 1].sym));
    }
  }

  // ── pass 1: removals ────────────────────────────────────────────────────────

  predicate StopShown(row: Row, r: Reads) {
    row.stopTxid.Some? && row.stopTxid.value in r.stops && r.stops[row.stopTxid.value].status.Resting?
  }

  /** What pass 1 may have made of a row. Only an unbacked row is open to doubt: it is closed
      once its stop is certain not to rest any more, else it stays open as it was. */
  ghost predicate Sifted(rows: seq<Row>, i: nat, now: Row, r: Reads, v: Verdict, book: Book)
    requires i < |rows|
  {
    var row := Harvest.Managed(rows, i, r.closes);
    match v
    case Untracked => now == rows[i]
    case Retire => now == row.(status := RowClosed)
    case Keep(_) => now == row
    case Unbacked =>
      || (now == row && row.stopTxid.Some? && (row.stopTxid.value in r.stops ==> StopShown(row, r)))
      || (now == row.(status := RowClosed)
          && (row.stopTxid.Some? ==> row.stopTxid.value < |book| && book[row.stopTxid.value].Terminal()))
  }

  /** Row `i` after pass 1, in terms of what was read. Only an open row changes. One whose exit has
      sold everything is closed. Of the others exactly those stay whose close is at work or for
      which the reading, less what remains of the older rows that stay, is enough; a row that does
      not is closed once its stop is certain not to rest any more. */
  ghost predicate RowSifted(rows: seq<Row>, i: nat, now: Row, kept: seq<bool>, r: Reads, book: Book)
    requires i < |rows| && |kept| == |rows|
  {
    if !rows[i].status.RowOpen? then now == rows[i] && !kept[i]
    else if Gone(rows, i, r) then now == rows[i].(status := RowClosed, vol := now.vol, closeTxid := now.closeTxid) && !kept[i]
    else
      && Harvest.RowManaged(rows, i, now.(status := RowOpen), r.closes)
      && (kept[i] <==> AtWork(rows, i, r)
                       || Remaining(rows, i, r) <= Long(r.long, rows[i].sym) - Sum(Takes(rows, kept, r, i, rows[i].sym)))
      && (kept[i] ==> now.status.RowOpen?)
      && (!kept[i] && now.status.RowOpen? ==>
            rows[i].stopTxid.Some? && (rows[i].stopTxid.value in r.stops ==> StopShown(rows[i], r)))
      && (!kept[i] && !now.status.RowOpen? ==>
            now.status.RowClosed?
            && (rows[i].stopTxid.Some? ==> rows[i].stopTxid.value < |book| && book[rows[i].stopTxid.value].Terminal()))
  }

  lemma SiftedMeans(rows: seq<Row>, i: nat, now: Row, kept: seq<bool>, r: Reads, book: Book)
    requires i < |rows| && |kept| == |rows| && Sifted(rows, i, now, r, VerdictOn(rows, i, r), book)
    requires forall j: nat :: j < |kept| ==> (kept[j] <==> VerdictOn(rows, j, r).Keep?)
    ensures RowSifted(rows, i, now, kept, r, book)
  {
    hide Left, Sum;
    LeftIsReadingLessKept(rows, kept, r, i, rows[i].sym);
    JudgeMeans(rows, i, r, Left(rows, r, i, rows[i].sym));
    Harvest.ManagedMeans(rows, i, Harvest.Managed(rows, i, r.closes), r.closes);
  }

  lemma SiftedLasts(rows: seq<Row>, i: nat, now: Row, r: Reads, v: Verdict, mid: Book, book: Book)
    requires i < |rows| && Sifted(rows, i, now, r, v, mid) && Grew(mid, book)
    ensures Sifted(rows, i, now, r, v, book)
  {
  }

  lemma InvRetire(rows: seq<Row>, tags: Tags, book: Book, i: nat)
    requires Inv(rows, tags, book) && i < |rows| && rows[i].status.RowOpen?
    requires rows[i].Exit().Some? ==> rows[i].Exit().value < |book| && book[rows[i].Exit().value].Terminal()
    ensures Inv(rows[i := rows[i].(status := RowClosed)], tags, book)
  {
    assert RowOk(i, rows[i], tags.entryOf[i], tags.booked[i], tags, book);
    BareNonNegative(i, rows, tags, book);
    InvSetRow(rows, tags, book, i, rows[i].(status := RowClosed), tags.booked[i]);
    assert tags.booked[i := tags.booked[i]] == tags.booked;
  }

  method Close(tb: Table, kx: Kraken, i: nat)
    requires Sound(tb, kx) && i < |tb.rows| && tb.rows[i].status.RowOpen?
    requires var e := tb.rows[i].Exit();
             kx.closed && e.Some? ==> e.value < |kx.book| && kx.book[e.value].Terminal()
    modifies tb
    ensures Sound(tb, kx)
    ensures tb.rows == old(tb.rows)[i := old(tb.rows)[i].(status := RowClosed)]
  {
    hide Inv;
    if kx.closed {
      InvRetire(tb.rows, tb.tags, kx.book, i);
    }
    tb.rows := tb.rows[i := tb.rows[i].(status := RowClosed)];
  }

  /** Settle a harvest whose close is known to have finished. */
  method SettleClose(tb: Table, kx: Kraken, i: nat, rows: seq<Row>, r: Reads)
    requires Sound(tb, kx) && i < |rows| == |tb.rows| && tb.rows[i] == rows[i]
    requires ReadsOk(r, kx.book)
    modifies tb
    ensures Sound(tb, kx)
    ensures tb.rows == old(tb.rows)[i := Harvest.Managed(rows, i, r.closes)]
  {
    hide Inv;
    var solo := Harvest.IsSolo(rows, i);
    if solo && rows[i].closeTxid.value in r.closes && r.closes[rows[i].closeTxid.value].Terminal() {
      var t := rows[i].closeTxid.value;
      if kx.closed {
        SeenTerminal(r.closes, kx.book, t);
        Harvest.InvCloseSettled(tb.rows, tb.tags, kx.book, i, t);
      }
      tb.rows := tb.rows[i := Harvest.CloseSettled(rows[i], r.closes[t].exec)];
    }
  }

  /** No flatten is at work: every close is a harvest of one row. */
  ghost predicate NoSharedClose(rows: seq<Row>) {
    forall i :: 0 <= i < |rows| && rows[i].status.RowOpen? && rows[i].closeTxid.Some? ==> Harvest.SoloClose(rows, i)
  }

  /** A cancel of the stop that row `i` had was sent, and the row is closed exactly if that succeeded. */
  ghost predicate StopPulled(row: Row, now: Row, before: seq<Call>, after: seq<Call>) {
    row.stopTxid.Some?
    && exists k :: |before| <= k < |after| && after[k].SentCancel? && after[k].t == row.stopTxid.value
                   && (after[k].ok <==> now.status.RowClosed?)
  }

  /** What the first `n` rows of pass 1 sent: a cancel for every unbacked row whose stop was shown
      resting, and nothing else. */
  ghost predicate Pulls(rows: seq<Row>, now: seq<Row>, n: nat, r: Reads, before: seq<Call>, after: seq<Call>) {
    && before <= after && |now| == |rows|
    && (forall i: nat :: i < n && i < |rows| && VerdictOn(rows, i, r).Unbacked? && StopShown(rows[i], r) ==>
                           StopPulled(rows[i], now[i], before, after))
    && (forall k :: |before| <= k < |after| ==> after[k].SentCancel? && PulledFor(rows, n, r, after[k].t))
  }

  ghost predicate PulledFor(rows: seq<Row>, n: nat, r: Reads, t: Txid) {
    exists i: nat :: i < n && i < |rows| && VerdictOn(rows, i, r).Unbacked? && StopShown(rows[i], r) && rows[i].stopTxid == Some(t)
  }

  lemma PulledForMore(rows: seq<Row>, n: nat, r: Reads, t: Txid)
    requires PulledFor(rows, n, r, t)
    ensures PulledFor(rows, n + 1, r, t)
  {
    hide VerdictOn, StopShown;
    var i: nat :| i < n && i < |rows| && VerdictOn(rows, i, r).Unbacked? && StopShown(rows[i], r) && rows[i].stopTxid == Some(t);
    var m := n + 1;
    assert i < m;
  }

  lemma StopPulledLasts(row: Row, now: Row, before: seq<Call>, mid: seq<Call>, after: seq<Call>)
    requires StopPulled(row, now, before, mid) && mid <= after
    ensures StopPulled(row, now, before, after)
  {
    var k :| |before| <= k < |mid| && mid[k].SentCancel? && mid[k].t == row.stopTxid.value && (mid[k].ok <==> now.status.RowClosed?);
    assert after[k] == mid[k];
  }

  lemma PullsStep(rows: seq<Row>, now: seq<Row>, n: nat, r: Reads, before: seq<Call>, mid: seq<Call>, now': seq<Row>,
                  after: seq<Call>)
    requires n < |rows| && Pulls(rows, now, n, r, before, mid) && |now'| == |now| && now' == now[n := now'[n]]
    requires if VerdictOn(rows, n, r).Unbacked? && StopShown(rows[n], r)
             then |after| == |mid| + 1 && mid <= after && after[|mid|].SentCancel? && after[|mid|].t == rows[n].stopTxid.value
                  && (after[|mid|].ok <==> now'[n].status.RowClosed?)
             else after == mid
    ensures Pulls(rows, now', n + 1, r, before, after)
  {
    hide VerdictOn, StopPulled;
    var m := n + 1;
    forall i: nat | i < m && VerdictOn(rows, i, r).Unbacked? && StopShown(rows[i], r)
      ensures StopPulled(rows[i], now'[i], before, after)
    {
      if i < n {
        StopPulledLasts(rows[i], now[i], before, mid, after);
      } else {
        StopPulledNow(rows[n], now'[n], before, after, |mid|);
      }
    }
    forall k | |before| <= k < |after| ensures after[k].SentCancel? && PulledFor(rows, m, r, after[k].t) {
      if k < |mid| {
        assert after[k] == mid[k];
        PulledForMore(rows, n, r, mid[k].t);
      } else {
        assert n < m && rows[n].stopTxid == Some(after[k].t);
      }
    }
  }

  lemma StopPulledNow(row: Row, now: Row, before: seq<Call>, after: seq<Call>, k: nat)
    requires row.stopTxid.Some? && |before| <= k < |after| && after[k].SentCancel? && after[k].t == row.stopTxid.value
    requires after[k].ok <==> now.status.RowClosed?
    ensures StopPulled(row, now, before, after)
  {
  }

  lemma NothingPulled(rows: seq<Row>, r: Reads, told: seq<Call>)
    ensures Pulls(rows, rows, 0, r, told, told)
  {
  }

  method Classify(tb: Table, kx: Kraken, i: nat, rows: seq<Row>, r: Reads, budget: int) returns (v: Verdict)
    requires Sound(tb, kx) && i < |rows| == |tb.rows| && tb.rows[i] == rows[i]
    requires ReadsOk(r, kx.book) && (kx.closed ==> NoSharedClose(rows))
    modifies tb, kx`book, kx`safe, kx`trace
    ensures Sound(tb, kx) && Grew(old(kx.book), kx.book) && old(kx.trace) <= kx.trace
    ensures |tb.rows| == |rows| && tb.rows == old(tb.rows)[i := tb.rows[i]]
    ensures v == Judge(rows, i, r, budget) && Judged(rows, i, r, budget, v)
    ensures Sifted(rows, i, tb.rows[i], r, v, kx.book)
    ensures !(v.Unbacked? && StopShown(rows[i], r)) ==> kx.book == old(kx.book) && kx.trace == old(kx.trace)
    ensures v.Unbacked? && StopShown(rows[i], r) ==>
              kx.trace == old(kx.trace) + [SentCancel(rows[i].stopTxid.value, tb.rows[i].status.RowClosed?, kx.book)]
  {
    hide Inv, Grew, Became;
    GrewReflexive(kx.book);
    v := Judge(rows, i, r, budget);
    JudgeMeans(rows, i, r, budget);
    if v.Untracked? {
      return;
    }
    SettleClose(tb, kx, i, rows, r);
    var row := tb.rows[i];
    if row.status.RowClosed? || v.Keep? {
      return;
    }
    ghost var before := kx.book;
    if v.Unbacked? && row.stopTxid.Some? {
      if row.stopTxid.value in r.stops && r.stops[row.stopTxid.value].status.Resting? {
        var ok := CancelOrder(tb, kx, row.stopTxid.value);
        if !ok {
          return;
        }
      } else if row.stopTxid.value !in r.stops {
        return;
      } else {
        SeenTerminal(r.stops, kx.book, row.stopTxid.value);
      }
    } else if v.Retire? {
      SeenTerminal(r.stops, kx.book, row.stopTxid.value);
    }
    Close(tb, kx, i);
  }

  ghost predicate SiftedUpTo(rows: seq<Row>, now: seq<Row>, n: nat, r: Reads, book: Book) {
    && |now| == |rows|
    && forall i :: 0 <= i < |rows| ==>
                     if i < n then Sifted(rows, i, now[i], r, VerdictOn(rows, i, r), book) else now[i] == rows[i]
  }

  lemma SiftedStep(rows: seq<Row>, now: seq<Row>, n: nat, r: Reads, mid: Book, now': seq<Row>, book: Book)
    requires n < |rows| && SiftedUpTo(rows, now, n, r, mid) && Grew(mid, book)
    requires |now'| == |now| && now' == now[n := now'[n]] && Sifted(rows, n, now'[n], r, VerdictOn(rows, n, r), book)
    ensures SiftedUpTo(rows, now', n + 1, r, book)
  {
    hide Sifted, VerdictOn;
    forall i | 0 <= i < n ensures Sifted(rows, i, now'[i], r, VerdictOn(rows, i, r), book) {
      SiftedLasts(rows, i, now[i], r, VerdictOn(rows, i, r), mid, book);
    }
  }

  function BudgetAt(budget: map<Pair, int>, r: Reads, p: Pair): int {
    if p in budget then budget[p] else Long(r.long, p)
  }

  /** No verdict calls for the cancel of a stop that was seen resting. */
  ghost predicate NoCancel(rows: seq<Row>, n: nat, r: Reads) {
    forall i :: 0 <= i < |rows| && i < n ==> !(VerdictOn(rows, i, r).Unbacked? && StopShown(rows[i], r))
  }

  /** Pass 1, removals only: oldest first, each row judged against its pair's budget. */
  method PassOne(tb: Table, kx: Kraken, r: Reads) returns (backed: seq<bool>)
    requires Sound(tb, kx) && ReadsOk(r, kx.book) && (kx.closed ==> NoSharedClose(tb.rows))
    modifies tb, kx`book, kx`safe, kx`trace
    ensures Sound(tb, kx) && Grew(old(kx.book), kx.book) && old(kx.trace) <= kx.trace && ReadsOk(r, kx.book)
    ensures SiftedUpTo(old(tb.rows), tb.rows, |old(tb.rows)|, r, kx.book)
    ensures |tb.rows| == |backed| == |old(tb.rows)|
    ensures forall i: nat :: i < |backed| ==> RowSifted(old(tb.rows), i, tb.rows[i], backed, r, kx.book)
    ensures forall i :: 0 <= i < |backed| ==> (backed[i] <==> VerdictOn(old(tb.rows), i, r).Keep?)
    ensures NoCancel(old(tb.rows), |old(tb.rows)|, r) ==> kx.book == old(kx.book) && kx.trace == old(kx.trace)
    ensures Pulls(old(tb.rows), tb.rows, |old(tb.rows)|, r, old(kx.trace), kx.trace)
  {
    hide Pulls, RowSifted, Inv, Grew, Sifted, Judge, Became, ReadsOk, StopShown;
    var rows := tb.rows;
    var budget: map<Pair, int> := map[];
    backed := [];
    GrewReflexive(kx.book);
    NothingPulled(rows, r, kx.trace);
    for i := 0 to |rows|
      invariant Pulls(rows, tb.rows, i, r, old(kx.trace), kx.trace)
      invariant Sound(tb, kx) && Grew(old(kx.book), kx.book) && old(kx.trace) <= kx.trace && ReadsOk(r, kx.book)
      invariant SiftedUpTo(rows, tb.rows, i, r, kx.book)
      invariant |backed| == i && forall j :: 0 <= j < i ==> (backed[j] <==> VerdictOn(rows, j, r).Keep?)
      invariant forall p: Pair :: BudgetAt(budget, r, p) == Left(rows, r, i, p)
      invariant NoCancel(rows, i, r) ==> kx.book == old(kx.book) && kx.trace == old(kx.trace)
    {
      ghost var now, mid, heard := tb.rows, kx.book, kx.trace;
      var left := BudgetAt(budget, r, rows[i].sym);
      var v := Classify(tb, kx, i, rows, r, left);
      ghost var was := budget;
      budget := budget[rows[i].sym := left - Spent(v)];
      backed := backed + [v.Keep?];
      assert v == VerdictOn(rows, i, r);
      forall p: Pair ensures BudgetAt(budget, r, p) == Left(rows, r, i + 1, p) {
        assert BudgetAt(was, r, p) == Left(rows, r, i, p);
      }
      GrewTransitive(old(kx.book), mid, kx.book);
      ReadsLast(r, mid, kx.book);
      SiftedStep(rows, now, i, r, mid, tb.rows, kx.book);
      PullsStep(rows, now, i, r, old(kx.trace), heard, tb.rows, kx.trace);
    }
    forall i: nat | i < |rows| ensures RowSifted(rows, i, tb.rows[i], backed, r, kx.book) {
      SiftedMeans(rows, i, tb.rows[i], backed, r, kx.book);
    }
  }

  // ── pass 2: additions ───────────────────────────────────────────────────────

  /** The row is known or feared to have a sell resting: a close, or a stop that was seen
      resting or could not be read. */
  predicate Holds(row: Row, r: Reads) {
    || row.closeTxid.Some?
    || (row.stopTxid.Some? && (row.stopTxid.value in r.stops ==> r.stops[row.stopTxid.value].status.Resting?))
  }

  /** The row got another stop recorded. */
  predicate Renewed(mid: Row, now: Row) {
    now.stopTxid.Some? && now.stopTxid != mid.stopTxid
  }

  function HeldVol(mid: Row, now: Row, kept: bool, r: Reads, p: Pair): nat {
    if kept && mid.sym == p && (Holds(mid, r) || Renewed(mid, now)) then mid.vol else 0
  }

  function Helds(mid: seq<Row>, now: seq<Row>, backed: seq<bool>, r: Reads, p: Pair): seq<int>
    requires |mid| == |now| == |backed|
  {
    seq(|mid|, i requires 0 <= i < |mid| => HeldVol(mid[i], now[i], backed[i], r, p))
  }

  /** Volume of pair `p` that the kept rows commit to sells. */
  function Committed(mid: seq<Row>, now: seq<Row>, backed: seq<bool>, r: Reads, p: Pair): int
    requires |mid| == |now| == |backed|
  {
    Sum(Helds(mid, now, backed, r, p))
  }

  method SeedCommitted(rows: seq<Row>, backed: seq<bool>, r: Reads) returns (m: map<Pair, nat>)
    requires |rows| == |backed|
    ensures forall p: Pair :: At(m, p) == Committed(rows, rows, backed, r, p)
  {
    m := map[];
    for k := 0 to |rows|
      invariant forall p: Pair :: At(m, p) == Committed(rows[..k], rows[..k], backed[..k], r, p)
    {
      var row := rows[k];
      ghost var was := m;
      if backed[k] && (row.closeTxid.Some?
                       || (row.stopTxid.Some? && !(row.stopTxid.value in r.stops && r.stops[row.stopTxid.value].Terminal()))) {
        m := m[row.sym := At(m, row.sym) + row.vol];
      }
      forall p: Pair ensures At(m, p) == Committed(rows[..k + 1], rows[..k + 1], backed[..k + 1], r, p) {
        var x := HeldVol(row, row, backed[k], r, p);
        assert Helds(rows[..k + 1], rows[..k + 1], backed[..k + 1], r, p)
            == Helds(rows[..k], rows[..k], backed[..k], r, p) + [x];
        SumPush(Helds(rows[..k], rows[..k], backed[..k], r, p), x);
        assert At(was, p) == Committed(rows[..k], rows[..k], backed[..k], r, p);
      }
    }
    assert rows[..|rows|] == rows && backed[..|rows|] == backed;
  }

  /** The level a row is re-placed at is snapped to the tick; a finer stored one is corrected. */
  function Snapped(row: Row): Row {
    if TickRound(row.StopLevel()) as real == row.StopLevel() then row
    else row.(stop := TickRound(row.StopLevel()) as real)
  }

  datatype Redo = Adopted | Deferred | Placed | Failed

  ghost predicate Redone(row: Row, now: Row, how: Redo, r: Reads, claimed: set<Txid>, book: Book) {
    match how
    case Adopted =>
      && now.stopTxid.Some? && now == row.(stopTxid := now.stopTxid)
      && r.open.Some? && Adoptable(now.stopTxid.value, r.open.value, claimed, row.sym)
    case Deferred => now == row.(stopTxid := None)
    case Placed =>
      && now.stopTxid.Some? && now == Snapped(row).(stopTxid := now.stopTxid)
      && now.stopTxid.value < |book| && StopFor(book[now.stopTxid.value], row)
    case Failed => now == Snapped(row)
  }

  lemma InvSnap(rows: seq<Row>, tags: Tags, book: Book, i: nat)
    requires Inv(rows, tags, book) && i < |rows|
    ensures Inv(rows[i := Snapped(rows[i])], tags, book)
  {
    assert RowOk(i, rows[i], tags.entryOf[i], tags.booked[i], tags, book);
    assert Conserves(i, rows[i], tags.booked[i], tags.own, book);
    InvSetRow(rows, tags, book, i, Snapped(rows[i]), tags.booked[i]);
    assert tags.booked[i := tags.booked[i]] == tags.booked;
  }

  predicate Unsold(o: Order) {
    o.status.Resting? && o.exec == 0
  }

  /** A row that must be re-armed after its pair's fresh backing was found sufficient. */
  method Replace(tb: Table, kx: Kraken, i: nat) returns (placed: Option<Txid>)
    requires Sound(tb, kx) && i < |tb.rows| && Exposed(tb.rows[i], kx.book)
    modifies tb, kx`book, kx`safe, kx`trace
    ensures Sound(tb, kx) && Grew(old(kx.book), kx.book) && old(kx.trace) <= kx.trace
    ensures var row := old(tb.rows)[i];
            && tb.rows == old(tb.rows)[i := if placed.Some? then Snapped(row).(stopTxid := placed) else Snapped(row)]
            && (placed.Some? ==> |old(kx.book)| <= placed.value == |kx.book| - 1
                                 && StopFor(kx.book[placed.value], row) && Unsold(kx.book[placed.value]))
    ensures kx.calm ==> (placed.Some? <==> 0 < old(tb.rows)[i].vol)
    ensures kx.calm ==> kx.book == if placed.None? then old(kx.book) else old(kx.book) + [kx.book[|kx.book| - 1]]
    ensures exists o :: StopFor(o, old(tb.rows)[i]) && kx.trace == old(kx.trace) + [SentOrder(o, placed, kx.book)]
  {
    hide Inv, Grew;
    var row := tb.rows[i];
    if kx.closed {
      InvSnap(tb.rows, tb.tags, kx.book, i);
    }
    var level := if row.stopProt.Some? then row.stopProt.value else row.stop;
    var snapped := TickRound(level) as real;
    if snapped != level {
      tb.rows := tb.rows[i := row.(stop := snapped)];
    }
    placed := RestStop(tb, kx, i, level);
    assert StopFor(NewOrder(row.sym, Sell, StopLoss, TickRound(row.StopLevel()) as real, row.vol, 0), row);
  }

  /** What restoring one row sent: an order only if one was placed or failed, and then as the last
      call, the stop the row calls for. */
  ghost predicate RestoreTold(before: seq<Call>, after: seq<Call>, row: Row, how: Redo) {
    && before <= after
    && (forall k :: |before| <= k < |after| && after[k].SentOrder? ==> k == |after| - 1 && StopFor(after[k].order, row))
    && (if how.Placed? || how.Failed?
        then |before| < |after| && after[|after| - 1].SentOrder? && (after[|after| - 1].placed.Some? <==> how.Placed?)
        else forall k :: |before| <= k < |after| ==> !after[k].SentOrder?)
  }

  lemma RestoreToldFrom(before: seq<Call>, mid: seq<Call>, o: Order, placed: Option<Txid>, book: Book, row: Row)
    requires before <= mid && (forall k :: |before| <= k < |mid| ==> !mid[k].SentOrder?) && StopFor(o, row)
    ensures RestoreTold(before, mid + [SentOrder(o, placed, book)], row, if placed.Some? then Placed else Failed)
  {
    hide StopFor;
    var after := mid + [SentOrder(o, placed, book)];
    assert forall k :: |before| <= k < |mid| ==> after[k] == mid[k];
  }

  /** One backed row that holds nothing: adopt a stop the ledger lost, or place one if the
      position, read again, still backs it; in doubt leave it for the next re-arm pass. */
  method Restore(tb: Table, kx: Kraken, i: nat, r: Reads, claimed: set<Txid>, committed: map<Pair, nat>,
                 reread: Option<Option<Positions>>)
    returns (how: Redo, reread': Option<Option<Positions>>)
    requires Sound(tb, kx) && i < |tb.rows| && Exposed(tb.rows[i], kx.book)
    requires r.open.Some? ==> forall t :: t in r.open.value ==> t < |kx.book|
    requires kx.closed ==> NoneAdoptable(r.open, claimed)
    modifies tb, kx`book, kx`safe, kx`trace
    ensures Sound(tb, kx) && Grew(old(kx.book), kx.book) && old(kx.trace) <= kx.trace
    ensures |tb.rows| == |old(tb.rows)| && tb.rows == old(tb.rows)[i := tb.rows[i]]
    ensures Redone(old(tb.rows)[i], tb.rows[i], how, r, claimed, kx.book)
    ensures reread.Some? ==> reread' == reread
    ensures how.Adopted? ==> reread' == reread && kx.book == old(kx.book)
    ensures !how.Adopted? ==> NoneFor(r.open, claimed, old(tb.rows)[i].sym) && reread'.Some?
    ensures how.Placed? ==> |old(kx.book)| <= tb.rows[i].stopTxid.value == |kx.book| - 1
                            && Unsold(kx.book[|kx.book| - 1])
    ensures var row := old(tb.rows)[i];
            !how.Adopted? ==> (how.Deferred? <==> reread'.value.None?
                                                  || Long(reread'.value.value, row.sym) - At(committed, row.sym) < row.vol)
    ensures kx.calm && 0 < old(tb.rows)[i].vol ==> !how.Failed?
    ensures kx.calm ==> kx.book == if how.Placed? then old(kx.book) + [kx.book[|kx.book| - 1]] else old(kx.book)
    ensures reread.None? && reread'.Some? ==>
              PositionRead(kx.closed, old(kx.trace), kx.trace, old(kx.book), kx.book, reread'.value)
    ensures how.Adopted? ==> kx.trace == old(kx.trace)
    ensures RestoreTold(old(kx.trace), kx.trace, old(tb.rows)[i], how)
    ensures kx.calm && !how.Adopted? && reread.None? ==> reread'.value.Some?
    ensures kx.calm && kx.closed && reread.None? && !how.Adopted? ==> reread' == Some(Some(PositionsOf(old(kx.book))))
  {
    hide Inv, Grew, PositionsOf, StopFor, PositionRead;
    var row := tb.rows[i];
    reread' := reread;
    ghost var b0, t0 := kx.book, kx.trace;
    GrewReflexive(b0);
    var adopt := FindAdoptableStop(r.open, claimed, row.sym, row.vol);
    if adopt.Some? {
      tb.rows := tb.rows[i := row.(stopTxid := adopt)];
      how := Adopted;
      return;
    }
    ghost var before := kx.book;
    if reread'.None? {
      var again := OpenPositions(tb, kx);
      reread' := Some(again);
      ExposedLasts(row, before, kx.book);
    }
    ghost var b1, t1 := kx.book, kx.trace;
    GrewReflexive(b1);
    if reread'.value.None? || Long(reread'.value.value, row.sym) - At(committed, row.sym) < row.vol {
      DropStop(tb, kx, i);
      how := Deferred;
      return;
    }
    ghost var mid := kx.book;
    var placed := Replace(tb, kx, i);
    GrewTransitive(before, mid, kx.book);
    if reread.None? {
      PositionReadWithin(kx.closed, t0, t0, t1, kx.trace, b0, b0, b1, kx.book, reread'.value);
    }
    ghost var o :| StopFor(o, row) && kx.trace == t1 + [SentOrder(o, placed, kx.book)];
    RestoreToldFrom(t0, t1, o, placed, kx.book, row);
    how := if placed.Some? then Placed else Failed;
  }

  // ── pass 2 as a whole ───────────────────────────────────────────────────────

  /** What pass 2 keeps count of: what it claims, what it counts as committed per pair, and the
      second reading of the position once it was needed. */
  datatype Tally = Tally(claimed: set<Txid>, committed: map<Pair, nat>, reread: Option<Option<Positions>>)

  /** The second reading, if there is one, was asked for in this stretch. */
  ghost predicate ReadAgain(closed: bool, before: seq<Call>, after: seq<Call>, was: Book, now: Book, c: Tally) {
    c.reread.Some? ==> PositionRead(closed, before, after, was, now, c.reread.value)
  }

  function NewClaims(mid: seq<Row>, now: seq<Row>): set<Txid>
    requires |mid| == |now|
  {
    set i | 0 <= i < |mid| && Renewed(mid[i], now[i]) :: now[i].stopTxid.value
  }

  /** Row `i` got a stop placed by this pass. */
  ghost predicate PlacedHere(mid: seq<Row>, now: seq<Row>, i: nat, was: Book)
    requires |mid| == |now| && i < |mid|
  {
    Renewed(mid[i], now[i]) && |was| <= now[i].stopTxid.value
  }

  /** What makes a placement safe: no unclaimed stop is left on the pair, and everything its
      kept rows commit is within the position as it was read again. */
  ghost predicate SafelyPlaced(r: Reads, c: Tally, p: Pair) {
    && NoneFor(r.open, c.claimed, p)
    && c.reread.Some? && c.reread.value.Some?
    && At(c.committed, p) <= Long(c.reread.value.value, p)
  }

  ghost predicate RowGuarded(mid: Row, now: Row, kept: bool, r: Reads, book: Book) {
    || now == mid
    || (kept && !Holds(mid, r)
        && (now == mid.(stopTxid := None) || now == Snapped(mid)
            || (Renewed(mid, now) && (now == mid.(stopTxid := now.stopTxid)
                                      || (now == Snapped(mid).(stopTxid := now.stopTxid) && now.stopTxid.value < |book|
                                          && StopFor(book[now.stopTxid.value], mid))))))
  }

  /** Pass 2 after the first `n` rows; `was` is the book it started from. */
  ghost predicate Guarding(mid: seq<Row>, now: seq<Row>, n: nat, backed: seq<bool>, r: Reads, c: Tally,
                           claims: set<Txid>, was: Book, book: Book)
  {
    && |mid| == |now| == |backed|
    && Untouched(mid, now, n)
    && (forall i :: 0 <= i < |mid| ==> RowGuarded(mid[i], now[i], backed[i], r, book))
    && claims <= c.claimed <= claims + NewClaims(mid, now)
    && (forall i :: 0 <= i < |mid| && Renewed(mid[i], now[i]) ==> now[i].stopTxid.value in c.claimed)
    && (forall p: Pair :: At(c.committed, p) == Committed(mid, now, backed, r, p))
    && (forall i :: 0 <= i < |mid| && PlacedHere(mid, now, i, was) ==> SafelyPlaced(r, c, mid[i].sym))
  }

  /** How one restored row moves the count. */
  function Counted(c: Tally, row: Row, now: Row, how: Redo, reread: Option<Option<Positions>>): Tally {
    if (how.Adopted? || how.Placed?) && now.stopTxid.Some?
    then Tally(c.claimed + {now.stopTxid.value}, c.committed[row.sym := At(c.committed, row.sym) + row.vol], reread)
    else c.(reread := reread)
  }

  /** The contract of one Restore, on values. */
  ghost predicate RestoredRow(row: Row, now: Row, how: Redo, r: Reads, c: Tally, reread: Option<Option<Positions>>,
                              mid: Book, book: Book)
  {
    && Redone(row, now, how, r, c.claimed, book)
    && (c.reread.Some? ==> reread == c.reread)
    && (how.Adopted? ==> reread == c.reread)
    && (!how.Adopted? ==> NoneFor(r.open, c.claimed, row.sym) && reread.Some?)
    && (how.Placed? ==> now.stopTxid.Some? && |mid| <= now.stopTxid.value == |book| - 1
                        && Unsold(book[|book| - 1]))
    && (!how.Adopted? ==> (how.Deferred? <==> reread.value.None?
                                              || Long(reread.value.value, row.sym) - At(c.committed, row.sym) < row.vol))
  }

  lemma RestoredRenews(row: Row, now: Row, how: Redo, r: Reads, c: Tally, reread: Option<Option<Positions>>,
                       mid: Book, book: Book)
    requires RestoredRow(row, now, how, r, c, reread, mid, book)
    requires Exposed(row, mid) && (row.stopTxid.Some? ==> row.stopTxid.value in c.claimed)
    ensures Renewed(row, now) <==> how.Adopted? || how.Placed?
    ensures how.Adopted? ==> now.stopTxid.Some? && r.open.Some? && now.stopTxid.value in r.open.value
  {
  }

  lemma CommittedStep(mid: seq<Row>, now: seq<Row>, n: nat, backed: seq<bool>, r: Reads, row: Row, p: Pair)
    requires n < |mid| == |now| == |backed| && now[n] == mid[n] && backed[n] && !Holds(mid[n], r)
    ensures Committed(mid, now[n := row], backed, r, p)
            == Committed(mid, now, backed, r, p) + if Renewed(mid[n], row) && mid[n].sym == p then mid[n].vol else 0
  {
    SumPoint(Helds(mid, now, backed, r, p), Helds(mid, now[n := row], backed, r, p), n);
  }

  lemma RowGuardedLasts(mid: Row, now: Row, kept: bool, r: Reads, was: Book, book: Book)
    requires RowGuarded(mid, now, kept, r, was) && Grew(was, book)
    ensures RowGuarded(mid, now, kept, r, book)
  {
  }

  lemma SafelyPlacedLasts(r: Reads, c: Tally, row: Row, now: Row, how: Redo, reread: Option<Option<Positions>>,
                          mid: Book, book: Book, p: Pair)
    requires SafelyPlaced(r, c, p) && RestoredRow(row, now, how, r, c, reread, mid, book)
    ensures SafelyPlaced(r, Counted(c, row, now, how, reread), p)
  {
  }

  lemma NewlyPlaced(r: Reads, c: Tally, row: Row, now: Row, how: Redo, reread: Option<Option<Positions>>,
                    mid: Book, book: Book)
    requires RestoredRow(row, now, how, r, c, reread, mid, book) && how.Placed?
    ensures SafelyPlaced(r, Counted(c, row, now, how, reread), row.sym)
  {
  }

  lemma GuardingStep(mid: seq<Row>, now: seq<Row>, n: nat, backed: seq<bool>, r: Reads, c: Tally, claims: set<Txid>,
                     was: Book, before: Book, how: Redo, reread: Option<Option<Positions>>, now': seq<Row>, book: Book)
    requires n < |mid| && Guarding(mid, now, n, backed, r, c, claims, was, before)
    requires Grew(was, before) && Grew(before, book)
    requires backed[n] && !Holds(mid[n], r) && Exposed(mid[n], before)
    requires mid[n].stopTxid.Some? ==> mid[n].stopTxid.value in claims
    requires r.open.Some? ==> Seen(r.open.value, was)
    requires |now'| == |now| && now' == now[n := now'[n]]
    requires RestoredRow(mid[n], now'[n], how, r, c, reread, before, book)
    ensures Guarding(mid, now', n + 1, backed, r, Counted(c, mid[n], now'[n], how, reread), claims, was, book)
  {
    hide Exposed, StopFor, RestoredRow, SafelyPlaced, Seen, Grew;
    var c' := Counted(c, mid[n], now'[n], how, reread);
    RestoredRenews(mid[n], now'[n], how, r, c, reread, before, book);
    GuardedHere(mid[n], now'[n], how, r, c, reread, before, book);
    forall i | 0 <= i < |mid| ensures RowGuarded(mid[i], now'[i], backed[i], r, book) {
      if i != n {
        RowGuardedLasts(mid[i], now[i], backed[i], r, before, book);
      }
    }
    forall p: Pair ensures At(c'.committed, p) == Committed(mid, now', backed, r, p) {
      CommittedStep(mid, now, n, backed, r, now'[n], p);
      assert At(c.committed, p) == Committed(mid, now, backed, r, p);
    }
    forall i | 0 <= i < |mid| && PlacedHere(mid, now', i, was) ensures SafelyPlaced(r, c', mid[i].sym) {
      if i == n {
        if how.Adopted? {
          AdoptedIsOld(r, was, now'[n].stopTxid.value);
        }
        NewlyPlaced(r, c, mid[n], now'[n], how, reread, before, book);
      } else {
        assert PlacedHere(mid, now, i, was);
        SafelyPlacedLasts(r, c, mid[n], now'[n], how, reread, before, book, mid[i].sym);
      }
    }
    assert now'[n] == now'[n];
    assert NewClaims(mid, now) <= NewClaims(mid, now');
    assert Renewed(mid[n], now'[n]) ==> now'[n].stopTxid.value in NewClaims(mid, now');
  }

  lemma GuardedHere(row: Row, now: Row, how: Redo, r: Reads, c: Tally, reread: Option<Option<Positions>>,
                    mid: Book, book: Book)
    requires RestoredRow(row, now, how, r, c, reread, mid, book)
    requires Exposed(row, mid) && (row.stopTxid.Some? ==> row.stopTxid.value in c.claimed) && !Holds(row, r)
    ensures RowGuarded(row, now, true, r, book)
  {
  }

  lemma AdoptedIsOld(r: Reads, was: Book, t: Txid)
    requires r.open.Some? && Seen(r.open.value, was) && t in r.open.value
    ensures t < |was|
  {
  }

  // ── completeness of pass 2 ──────────────────────────────────────────────────

  /** The row's exit rests and has sold nothing yet. */
  predicate Working(row: Row, book: Book) {
    && row.status.RowOpen? && row.Exit().Some? && row.Exit().value < |book|
    && Unsold(book[row.Exit().value])
  }

  /** The position was read again and covers the net position, and every kept row up to `n`,
      or that held something from the start, has its exit at work. */
  ghost predicate Smooth(mid: seq<Row>, now: seq<Row>, n: nat, backed: seq<bool>, r: Reads,
                         reread: Option<Option<Positions>>, book: Book)
    requires |mid| == |now| == |backed|
  {
    && (reread.Some? ==> reread.value.Some? && forall p: Pair :: Net(book, p) <= Long(reread.value.value, p))
    && (forall i :: 0 <= i < |mid| && backed[i] && (i < n || Holds(mid[i], r)) ==>
                      Working(now[i], book) && now[i].vol == mid[i].vol && now[i].sym == mid[i].sym)
  }

  lemma NetPush(book: Book, o: Order, p: Pair)
    requires o.exec == 0
    ensures Net(book + [o], p) == Net(book, p)
  {
    var s: seq<int> := seq(|book|, t requires 0 <= t < |book| => Signed(book[t], p));
    var s': seq<int> := seq(|book + [o]|, t requires 0 <= t < |book + [o]| => Signed((book + [o])[t], p));
    assert s' == s + [0];
    SumPush(s, 0);
  }

  lemma ReadCovers(book: Book)
    ensures forall p: Pair :: Net(book, p) <= Long(PositionsOf(book), p)
  {
    forall p: Pair ensures Net(book, p) <= Long(PositionsOf(book), p) {
      PositionsAreNet(book, p);
    }
  }

  /** What the kept rows commit, and the exposed row on top, fits the net position. */
  lemma CommittedFits(mid: seq<Row>, now: seq<Row>, n: nat, backed: seq<bool>, r: Reads,
                      reread: Option<Option<Positions>>, tags: Tags, book: Book)
    requires n < |mid| == |now| == |backed| && Inv(now, tags, book)
    requires Smooth(mid, now, n, backed, r, reread, book) && Untouched(mid, now, n)
    requires backed[n] && !Holds(mid[n], r) && Exposed(mid[n], book)
    ensures Committed(mid, now, backed, r, mid[n].sym) + mid[n].vol <= Net(book, mid[n].sym)
  {
    hide Holds;
    var p := mid[n].sym;
    var helds, flights := Helds(mid, now, backed, r, p), InFlights(now, tags, book, p);
    InFlightWithinPosition(now, tags, book, p);
    var all := helds[n := mid[n].vol];
    SumPoint(helds, all, n);
    forall i | 0 <= i < |mid| ensures all[i] <= flights[i] {
      assert 0 <= InFlight(now[i], tags.entryOf[i], book);
      if i == n {
        ExposedIsBare(now, tags, book, n);
        assert RowOk(n, now[n], tags.entryOf[n], tags.booked[n], tags, book);
        assert now[n].stopTxid.Some? ==> book[now[n].stopTxid.value].Ok();
      } else if i > n {
        assert now[i] == mid[i] && !Renewed(mid[i], now[i]);
      }
    }
    SumMono(all, flights);
  }

  lemma SmoothStep(mid: seq<Row>, now: seq<Row>, n: nat, backed: seq<bool>, r: Reads, c: Tally, tags: Tags,
                   before: Book, how: Redo, reread: Option<Option<Positions>>, now': seq<Row>, book: Book)
    requires n < |mid| == |now| == |backed| && Inv(now, tags, before) && 0 < mid[n].vol
    requires Smooth(mid, now, n, backed, r, c.reread, before) && Untouched(mid, now, n)
    requires forall p: Pair :: At(c.committed, p) == Committed(mid, now, backed, r, p)
    requires backed[n] && !Holds(mid[n], r) && Exposed(mid[n], before)
    requires NoneAdoptable(r.open, c.claimed)
    requires |now'| == |now| && now' == now[n := now'[n]]
    requires RestoredRow(mid[n], now'[n], how, r, c, reread, before, book)
    requires !how.Failed? && book == if how.Placed? then before + [book[|book| - 1]] else before
    requires c.reread.None? && !how.Adopted? ==> reread == Some(Some(PositionsOf(before)))
    ensures Smooth(mid, now', n + 1, backed, r, reread, book)
  {
    hide Holds, Inv, PositionsOf, Committed, Net;
    CommittedFits(mid, now, n, backed, r, c.reread, tags, before);
    ReadCovers(before);
    var p := mid[n].sym;
    assert At(c.committed, p) == Committed(mid, now, backed, r, p);
    assert !how.Adopted?;
    assert reread.value.Some? && Net(before, p) <= Long(reread.value.value, p);
    assert how.Placed?;
    var o := book[|book| - 1];
    assert StopFor(o, mid[n]);
    forall q: Pair ensures Net(book, q) <= Long(reread.value.value, q) {
      NetPush(before, o, q);
      assert Net(before, q) <= Long(reread.value.value, q);
    }
  }

  ghost predicate Restorable(row: Row, r: Reads, claims: set<Txid>, book: Book) {
    !Holds(row, r) ==> Exposed(row, book) && (row.stopTxid.Some? ==> row.stopTxid.value in claims)
  }

  lemma RestorableLasts(row: Row, r: Reads, claims: set<Txid>, was: Book, book: Book)
    requires Restorable(row, r, claims, was) && Grew(was, book)
    ensures Restorable(row, r, claims, book)
  {
  }

  lemma GuardingSkip(mid: seq<Row>, now: seq<Row>, n: nat, backed: seq<bool>, r: Reads, c: Tally, claims: set<Txid>,
                     was: Book, book: Book)
    requires n < |mid| && Guarding(mid, now, n, backed, r, c, claims, was, book)
    ensures Guarding(mid, now, n + 1, backed, r, c, claims, was, book)
  {
  }

  lemma GuardingStart(mid: seq<Row>, backed: seq<bool>, r: Reads, committed: map<Pair, nat>, claims: set<Txid>, book: Book)
    requires |mid| == |backed|
    requires forall p: Pair :: At(committed, p) == Committed(mid, mid, backed, r, p)
    ensures Guarding(mid, mid, 0, backed, r, Tally(claims, committed, None), claims, book, book)
  {
  }

  /** Restore one row and keep count. */
  method RestoreOne(tb: Table, kx: Kraken, i: nat, r: Reads, c: Tally) returns (c': Tally, ghost how: Redo)
    requires Sound(tb, kx) && i < |tb.rows| && Exposed(tb.rows[i], kx.book)
    requires tb.rows[i].stopTxid.Some? ==> tb.rows[i].stopTxid.value in c.claimed
    requires r.open.Some? ==> forall t :: t in r.open.value ==> t < |kx.book|
    requires kx.closed ==> NoneAdoptable(r.open, c.claimed)
    modifies tb, kx`book, kx`safe, kx`trace
    ensures Sound(tb, kx) && Grew(old(kx.book), kx.book) && old(kx.trace) <= kx.trace
    ensures |tb.rows| == |old(tb.rows)| && tb.rows == old(tb.rows)[i := tb.rows[i]]
    ensures RestoredRow(old(tb.rows)[i], tb.rows[i], how, r, c, c'.reread, old(kx.book), kx.book)
    ensures c' == Counted(c, old(tb.rows)[i], tb.rows[i], how, c'.reread)
    ensures kx.calm && 0 < old(tb.rows)[i].vol ==> !how.Failed?
    ensures kx.calm ==> kx.book == if how.Placed? then old(kx.book) + [kx.book[|kx.book| - 1]] else old(kx.book)
    ensures RestoreTold(old(kx.trace), kx.trace, old(tb.rows)[i], how)
    ensures c.reread.Some? ==> c'.reread == c.reread
    ensures c.reread.None? && c'.reread.Some? ==>
              PositionRead(kx.closed, old(kx.trace), kx.trace, old(kx.book), kx.book, c'.reread.value)
    ensures kx.calm && kx.closed && c.reread.None? && !how.Adopted? ==> c'.reread == Some(Some(PositionsOf(old(kx.book))))
  {
    hide Inv, Grew, PositionsOf, Adoptable, StopFor, Exposed, NoneFor, PositionRead, RestoreTold;
    var row := tb.rows[i];
    var h, reread := Restore(tb, kx, i, r, c.claimed, c.committed, c.reread);
    how := h;
    c' := if (h.Adopted? || h.Placed?) && tb.rows[i].stopTxid.Some?
    then Tally(c.claimed + {tb.rows[i].stopTxid.value}, c.committed[row.sym := At(c.committed, row.sym) + row.vol], reread)
    else c.(reread := reread);
  }

  /** Pass 2, additions only: every kept row without a sell is restored in turn. */
  method PassTwo(tb: Table, kx: Kraken, r: Reads, backed: seq<bool>, claims: set<Txid>) returns (ghost c: Tally)
    requires Sound(tb, kx) && |backed| == |tb.rows|
    requires r.open.Some? ==> Seen(r.open.value, kx.book)
    requires kx.closed ==> NoneAdoptable(r.open, claims)
    requires forall i :: 0 <= i < |backed| && backed[i] ==> Restorable(tb.rows[i], r, claims, kx.book)
    modifies tb, kx`book, kx`safe, kx`trace
    ensures Sound(tb, kx) && Grew(old(kx.book), kx.book) && old(kx.trace) <= kx.trace
    ensures Guarding(old(tb.rows), tb.rows, |backed|, backed, r, c, claims, old(kx.book), kx.book)
    ensures ReadAgain(kx.closed, old(kx.trace), kx.trace, old(kx.book), kx.book, c)
    ensures Attended(old(tb.rows), tb.rows, |backed|, backed, r, c, old(kx.trace), kx.trace)
    ensures kx.closed && kx.calm && Smooth(old(tb.rows), old(tb.rows), 0, backed, r, None, old(kx.book)) ==>
              Smooth(old(tb.rows), tb.rows, |backed|, backed, r, c.reread, kx.book)
  {
    hide Inv, Grew, Smooth, Exposed, Seen, Restorable, Committed, SafelyPlaced, RestoredRow, RowGuarded, PositionRead,
      Guarding, NoneAdoptable, ReadAgain, RestoreTold, Attended;
    var mid := tb.rows;
    var committed: map<Pair, nat> := SeedCommitted(mid, backed, r);
    var count := Tally(claims, committed, None);
    ghost var was, told := kx.book, kx.trace;
    GrewReflexive(was);
    NotReadAgain(kx.closed, told, was, claims, committed);
    GuardingStart(mid, backed, r, committed, claims, was);
    NoneAttended(mid, backed, r, count, told);
    if r.open.Some? {
      SeenExists(r.open.value, was);
    }
    for i := 0 to |mid|
      invariant Sound(tb, kx) && Grew(was, kx.book) && told <= kx.trace && |tb.rows| == |mid| == |backed|
      invariant ReadAgain(kx.closed, told, kx.trace, was, kx.book, count)
      invariant r.open.Some? ==> forall t :: t in r.open.value ==> t < |kx.book|
      invariant Guarding(mid, tb.rows, i, backed, r, count, claims, was, kx.book)
      invariant Attended(mid, tb.rows, i, backed, r, count, told, kx.trace)
      invariant forall j :: i <= j < |mid| && backed[j] ==> Restorable(mid[j], r, claims, kx.book)
      invariant kx.closed && kx.calm && Smooth(mid, mid, 0, backed, r, None, was) ==>
                  Smooth(mid, tb.rows, i, backed, r, count.reread, kx.book)
    {
      if backed[i] && !Holds(mid[i], r) {
        ghost var now, before, had, tags, heard := tb.rows, kx.book, count, tb.tags, kx.trace;
        GuardingMeans(mid, now, i, backed, r, count, claims, was, before);
        if kx.closed {
          NoneAdoptableGrows(r.open, claims, count.claimed);
        }
        assert Restorable(mid[i], r, claims, before);
        RestorableMeans(mid[i], r, claims, before);
        ghost var how;
        count, how := RestoreOne(tb, kx, i, r, count);
        GuardingStep(mid, now, i, backed, r, had, claims, was, before, how, count.reread, tb.rows, kx.book);
        GrewTransitive(was, before, kx.book);
        AttendedStep(mid, now, i, backed, r, had, how, count, tb.rows, told, heard, kx.trace, before, kx.book);
        ReadAgainStep(kx.closed, told, heard, kx.trace, was, before, kx.book, had, count);
        if kx.closed && kx.calm && Smooth(mid, mid, 0, backed, r, None, was) {
          OpenRowsHaveVolume(now, tags, before, i);
          SmoothStep(mid, now, i, backed, r, had, tags, before, how, count.reread, tb.rows, kx.book);
        }
        forall j | i < j < |mid| && backed[j] ensures Restorable(mid[j], r, claims, kx.book) {
          RestorableLasts(mid[j], r, claims, before, kx.book);
        }
      } else {
        GuardingMeans(mid, tb.rows, i, backed, r, count, claims, was, kx.book);
        GuardingSkip(mid, tb.rows, i, backed, r, count, claims, was, kx.book);
        AttendedSkip(mid, tb.rows, i, backed, r, count, told, kx.trace);
        if kx.closed && kx.calm && Smooth(mid, mid, 0, backed, r, None, was) {
          SmoothSkip(mid, tb.rows, i, backed, r, count.reread, kx.book);
        }
      }
    }
    c := count;
  }

  /** The kept row holds nothing and is to be restored. */
  predicate Due(mid: seq<Row>, backed: seq<bool>, i: nat, r: Reads)
    requires |backed| == |mid|
  {
    i < |mid| && backed[i] && !Holds(mid[i], r)
  }

  /** The second reading failed, or does not back the row beside what its pair commits. */
  predicate Short(row: Row, c: Tally) {
    && c.reread.Some?
    && (c.reread.value.None? || Long(c.reread.value.value, row.sym) - At(c.committed, row.sym) < row.vol)
  }

  /** The stop the row calls for was sent, and failed. */
  ghost predicate StopRefused(before: seq<Call>, after: seq<Call>, row: Row) {
    exists k :: |before| <= k < |after| && after[k].SentOrder? && StopFor(after[k].order, row) && after[k].placed.None?
  }

  /** What became of a row that was due: it got a stop; or was put off, its reference dropped, for
      want of a second reading that backs it; or its stop was sent and failed. */
  ghost predicate SeenTo(mid: Row, now: Row, c: Tally, before: seq<Call>, after: seq<Call>) {
    || Renewed(mid, now)
    || (now == mid.(stopTxid := None) && Short(mid, c))
    || (now == Snapped(mid) && StopRefused(before, after, mid))
  }

  ghost predicate SentForDue(mid: seq<Row>, backed: seq<bool>, n: nat, r: Reads, o: Order)
    requires |backed| == |mid|
  {
    exists i: nat :: i < n && Due(mid, backed, i, r) && StopFor(o, mid[i])
  }

  /** Pass 2 after the first `n` rows: every row that was due was seen to, whatever failed, and no
      order was sent but the stops these rows call for. */
  ghost predicate Attended(mid: seq<Row>, now: seq<Row>, n: nat, backed: seq<bool>, r: Reads, c: Tally,
                           before: seq<Call>, after: seq<Call>)
  {
    && |mid| == |now| == |backed| && before <= after
    && (forall i :: 0 <= i < n && Due(mid, backed, i, r) ==> SeenTo(mid[i], now[i], c, before, after))
    && (forall k :: |before| <= k < |after| && after[k].SentOrder? ==> SentForDue(mid, backed, n, r, after[k].order))
  }

  lemma NoneAttended(mid: seq<Row>, backed: seq<bool>, r: Reads, c: Tally, told: seq<Call>)
    requires |mid| == |backed|
    ensures Attended(mid, mid, 0, backed, r, c, told, told)
  {
  }

  lemma SentForDueMore(mid: seq<Row>, backed: seq<bool>, n: nat, r: Reads, o: Order)
    requires |backed| == |mid| && SentForDue(mid, backed, n, r, o)
    ensures SentForDue(mid, backed, n + 1, r, o)
  {
    var i: nat :| i < n && Due(mid, backed, i, r) && StopFor(o, mid[i]);
    assert i < n + 1;
  }

  lemma AttendedSkip(mid: seq<Row>, now: seq<Row>, n: nat, backed: seq<bool>, r: Reads, c: Tally, before: seq<Call>,
                     after: seq<Call>)
    requires n < |mid| && Attended(mid, now, n, backed, r, c, before, after) && !Due(mid, backed, n, r)
    ensures Attended(mid, now, n + 1, backed, r, c, before, after)
  {
    hide SeenTo, SentForDue, Due;
    forall k | |before| <= k < |after| && after[k].SentOrder? ensures SentForDue(mid, backed, n + 1, r, after[k].order) {
      SentForDueMore(mid, backed, n, r, after[k].order);
    }
  }

  lemma SeenToLasts(mid: Row, now: Row, c: Tally, c': Tally, before: seq<Call>, heard: seq<Call>, after: seq<Call>)
    requires SeenTo(mid, now, c, before, heard) && heard <= after
    requires c.reread.Some? ==> c'.reread == c.reread
    requires At(c.committed, mid.sym) <= At(c'.committed, mid.sym)
    ensures SeenTo(mid, now, c', before, after)
  {
    hide StopFor, Snapped, Renewed;
    if StopRefused(before, heard, mid) {
      var k :| |before| <= k < |heard| && heard[k].SentOrder? && StopFor(heard[k].order, mid) && heard[k].placed.None?;
      assert after[k] == heard[k];
    }
  }

  lemma SeenToNow(row: Row, now: Row, how: Redo, r: Reads, c: Tally, reread: Option<Option<Positions>>, mid: Book,
                  book: Book, before: seq<Call>, heard: seq<Call>, after: seq<Call>)
    requires RestoredRow(row, now, how, r, c, reread, mid, book) && RestoreTold(heard, after, row, how) && before <= heard
    requires Exposed(row, mid) && (row.stopTxid.Some? ==> row.stopTxid.value in c.claimed)
    ensures SeenTo(row, now, Counted(c, row, now, how, reread), before, after)
  {
    hide StopFor, Snapped;
    RestoredRenews(row, now, how, r, c, reread, mid, book);
    if how.Failed? {
      var k := |after| - 1;
      assert after[k].SentOrder? && StopFor(after[k].order, row) && after[k].placed.None?;
    }
  }

  lemma AttendedStep(mid: seq<Row>, now: seq<Row>, n: nat, backed: seq<bool>, r: Reads, c: Tally, how: Redo, c': Tally,
                     now': seq<Row>, before: seq<Call>, heard: seq<Call>, after: seq<Call>, was: Book, book: Book)
    requires n < |mid| && Attended(mid, now, n, backed, r, c, before, heard) && Due(mid, backed, n, r) && now[n] == mid[n]
    requires |now'| == |now| && now' == now[n := now'[n]]
    requires RestoredRow(mid[n], now'[n], how, r, c, c'.reread, was, book) && RestoreTold(heard, after, mid[n], how)
    requires c' == Counted(c, mid[n], now'[n], how, c'.reread)
    requires Exposed(mid[n], was) && (mid[n].stopTxid.Some? ==> mid[n].stopTxid.value in c.claimed)
    ensures Attended(mid, now', n + 1, backed, r, c', before, after)
  {
    hide SeenTo, SentForDue, Due, Redone, StopFor, Exposed, NoneFor;
    SeenToNow(mid[n], now'[n], how, r, c, c'.reread, was, book, before, heard, after);
    forall i | 0 <= i < n && Due(mid, backed, i, r) ensures SeenTo(mid[i], now'[i], c', before, after) {
      SeenToLasts(mid[i], now[i], c, c', before, heard, after);
    }
    forall k | |before| <= k < |after| && after[k].SentOrder? ensures SentForDue(mid, backed, n + 1, r, after[k].order) {
      if k < |heard| {
        assert after[k] == heard[k];
        SentForDueMore(mid, backed, n, r, after[k].order);
      } else {
        SentForThis(mid, backed, n, r, after[k].order);
      }
    }
  }

  lemma SentForThis(mid: seq<Row>, backed: seq<bool>, n: nat, r: Reads, o: Order)
    requires |backed| == |mid| && Due(mid, backed, n, r) && StopFor(o, mid[n])
    ensures SentForDue(mid, backed, n + 1, r, o)
  {
  }

  lemma GuardingMeans(mid: seq<Row>, now: seq<Row>, n: nat, backed: seq<bool>, r: Reads, c: Tally, claims: set<Txid>,
                      was: Book, book: Book)
    requires Guarding(mid, now, n, backed, r, c, claims, was, book)
    ensures |mid| == |now| == |backed| && Untouched(mid, now, n) && claims <= c.claimed
    ensures forall p: Pair :: At(c.committed, p) == Committed(mid, now, backed, r, p)
  {
  }

  lemma NotReadAgain(closed: bool, told: seq<Call>, book: Book, claims: set<Txid>, committed: map<Pair, nat>)
    ensures ReadAgain(closed, told, told, book, book, Tally(claims, committed, None))
  {
  }

  lemma ReadAgainStep(closed: bool, before: seq<Call>, mid: seq<Call>, after: seq<Call>, was: Book, book: Book,
                      now: Book, c: Tally, c': Tally)
    requires ReadAgain(closed, before, mid, was, book, c) && before <= mid <= after && Grew(was, book) && Grew(book, now)
    requires c.reread.Some? ==> c'.reread == c.reread
    requires c.reread.None? && c'.reread.Some? ==> PositionRead(closed, mid, after, book, now, c'.reread.value)
    ensures ReadAgain(closed, before, after, was, now, c')
  {
    hide PositionRead, Grew;
    if c'.reread.Some? {
      GrewReflexive(was);
      GrewReflexive(now);
      if c.reread.Some? {
        PositionReadWithin(closed, before, before, mid, after, was, was, book, now, c'.reread.value);
      } else {
        PositionReadWithin(closed, before, mid, after, after, was, book, now, now, c'.reread.value);
      }
    }
  }

  lemma RestorableMeans(row: Row, r: Reads, claims: set<Txid>, book: Book)
    requires Restorable(row, r, claims, book) && !Holds(row, r)
    ensures Exposed(row, book) && row.status.RowOpen? && (row.stopTxid.Some? ==> row.stopTxid.value in claims)
  {
  }

  lemma SmoothSkip(mid: seq<Row>, now: seq<Row>, n: nat, backed: seq<bool>, r: Reads,
                   reread: Option<Option<Positions>>, book: Book)
    requires n < |mid| == |now| == |backed| && Smooth(mid, now, n, backed, r, reread, book)
    requires !backed[n] || Holds(mid[n], r)
    ensures Smooth(mid, now, n + 1, backed, r, reread, book)
  {
  }

  lemma OpenRowsHaveVolume(rows: seq<Row>, tags: Tags, book: Book, i: nat)
    requires Inv(rows, tags, book) && i < |rows| && rows[i].status.RowOpen?
    ensures 0 < rows[i].vol
  {
  }

  // ── the bound of pass 2, on any account ─────────────────────────────────────

  /** Order `t` is the recorded stop of kept row `i`. */
  ghost predicate StopOf(i: nat, t: Txid, mid: seq<Row>, now: seq<Row>, backed: seq<bool>, r: Reads)
    requires |mid| == |now| == |backed|
  {
    && i < |mid| && backed[i]
    && ((Holds(mid[i], r) && mid[i].stopTxid == Some(t)) || (Renewed(mid[i], now[i]) && now[i].stopTxid == Some(t)))
  }

  ghost function KeeperOf(t: Txid, mid: seq<Row>, now: seq<Row>, backed: seq<bool>, r: Reads): (i: Option<nat>)
    requires |mid| == |now| == |backed|
    ensures i.Some? ==> StopOf(i.value, t, mid, now, backed, r)
    ensures i.None? ==> forall j :: !StopOf(j, t, mid, now, backed, r)
  {
    if j: nat :| StopOf(j, t, mid, now, backed, r) then Some(j) else None
  }

  /** A sell-stop of the pair that rests now and was either shown by OpenOrders or recorded
      by pass 2. */
  ghost predicate Relevant(t: Txid, mid: seq<Row>, now: seq<Row>, r: Reads, book: Book, p: Pair)
    requires |mid| == |now| && t < |book|
  {
    && book[t].status.Resting? && book[t].side.Sell? && book[t].kind.StopLoss? && book[t].pair == p
    && ((r.open.Some? && t in r.open.value) || t in NewClaims(mid, now))
  }

  ghost function RelevantVol(mid: seq<Row>, now: seq<Row>, r: Reads, book: Book, p: Pair): int
    requires |mid| == |now|
  {
    Sum(seq(|book|, t requires 0 <= t < |book| => if Relevant(t, mid, now, r, book, p) then book[t].vol else 0))
  }

  /** The stops that rows claim, old or adopted, are for their own pair and volume. */
  ghost predicate StopsMatch(mid: seq<Row>, now: seq<Row>, book: Book)
    requires |mid| == |now|
  {
    forall i, t :: 0 <= i < |mid| && (mid[i].stopTxid == Some(t) || now[i].stopTxid == Some(t)) && t < |book| ==>
                     book[t].pair == mid[i].sym && book[t].vol == mid[i].vol
  }

  lemma RelevantIsKept(rows: seq<Row>, mid: seq<Row>, now: seq<Row>, backed: seq<bool>, r: Reads, c: Tally,
                       was: Book, book: Book, p: Pair, t: Txid)
    requires SiftedUpTo(rows, mid, |rows|, r, was) && Grew(was, book) && ReadsOk(r, book)
    requires |backed| == |rows| && forall i :: 0 <= i < |backed| ==> (backed[i] <==> VerdictOn(rows, i, r).Keep?)
    requires Guarding(mid, now, |mid|, backed, r, c, OpenClaims(rows), was, book)
    requires forall i :: 0 <= i < |mid| && mid[i].status.RowOpen? ==> backed[i]
    requires NoneFor(r.open, c.claimed, p) && r.open.Some? && t < |book| && Relevant(t, mid, now, r, book, p)
    requires OneExitEach(rows)
    ensures KeeperOf(t, mid, now, backed, r).Some?
  {
    hide Grew, ReadsOk, SafelyPlaced, Committed, VerdictOn;
    if t in NewClaims(mid, now) {
      var i :| 0 <= i < |mid| && Renewed(mid[i], now[i]) && now[i].stopTxid.value == t;
      assert RowGuarded(mid[i], now[i], backed[i], r, book);
      assert StopOf(i, t, mid, now, backed, r);
    } else {
      assert Seen(r.open.value, book) by { ReadsMean(r, book); }
      assert !Adoptable(t, r.open.value, c.claimed, p);
      assert Became(r.open.value[t], book[t]);
      assert t in OpenClaims(rows);
      var i :| 0 <= i < |rows| && rows[i].status.RowOpen? && rows[i].stopTxid == Some(t);
      assert Sifted(rows, i, mid[i], r, VerdictOn(rows, i, r), was);
      ReadsMean(r, book);
      KeptWhileResting(rows, i, mid[i], r, was, book, t);
      assert StopOf(i, t, mid, now, backed, r);
    }
  }

  lemma ReadsMean(r: Reads, book: Book)
    requires ReadsOk(r, book)
    ensures Seen(r.stops, book) && Seen(r.closes, book) && (r.open.Some? ==> Seen(r.open.value, book))
  {
  }

  /** A row whose stop still rests was not retired by pass 1. */
  lemma KeptWhileResting(rows: seq<Row>, i: nat, now: Row, r: Reads, was: Book, book: Book, t: Txid)
    requires i < |rows| && rows[i].status.RowOpen? && rows[i].stopTxid == Some(t) && rows[i].OneExit()
    requires Sifted(rows, i, now, r, VerdictOn(rows, i, r), was) && Grew(was, book)
    requires Seen(r.stops, book) && t < |book| && book[t].status.Resting?
    ensures now == rows[i] && Holds(rows[i], r)
  {
  }

  lemma StopsWithinReread(rows: seq<Row>, mid: seq<Row>, now: seq<Row>, backed: seq<bool>, r: Reads, c: Tally,
                          was: Book, book: Book, i: nat)
    requires SiftedUpTo(rows, mid, |rows|, r, was) && Grew(was, book) && ReadsOk(r, book) && OneExitEach(rows)
    requires |backed| == |rows| && forall j :: 0 <= j < |backed| ==> (backed[j] <==> VerdictOn(rows, j, r).Keep?)
    requires Guarding(mid, now, |mid|, backed, r, c, OpenClaims(rows), was, book)
    requires forall j :: 0 <= j < |mid| && mid[j].status.RowOpen? ==> backed[j]
    requires r.open.Some? && StopsMatch(mid, now, book) && i < |mid| && PlacedHere(mid, now, i, was)
    ensures c.reread.Some? && c.reread.value.Some?
    ensures RelevantVol(mid, now, r, book, mid[i].sym) <= Long(c.reread.value.value, mid[i].sym)
  {
    hide Grew, ReadsOk, OneExitEach, Holds, RowGuarded, VerdictOn, Renewed, SiftedUpTo, OpenClaims, NoneFor;
    var p := mid[i].sym;
    assert SafelyPlaced(r, c, p);
    var vols := seq(|book|, t requires 0 <= t < |book| => if Relevant(t, mid, now, r, book, p) then book[t].vol else 0);
    var at := seq(|book|, t requires 0 <= t < |book| =>
      if Relevant(t, mid, now, r, book, p) then KeeperOf(t, mid, now, backed, r) else None);
    var helds := Helds(mid, now, backed, r, p);
    forall t | 0 <= t < |book|
      ensures match at[t]
              case None => vols[t] <= 0
              case Some(j) => j < |helds| && vols[t] <= helds[j] && StopOf(j, t, mid, now, backed, r)
    {
      if Relevant(t, mid, now, r, book, p) {
        RelevantIsKept(rows, mid, now, backed, r, c, was, book, p, t);
        assert StopOf(at[t].value, t, mid, now, backed, r);
      }
    }
    forall t, u | 0 <= t < u < |book| && at[t].Some? ensures at[t] != at[u] {
      if at[t] == at[u] {
        OneStopEach(at[t].value, t, u, mid, now, backed, r, c, was, book);
      }
    }
    SumInject(vols, helds, at);
    assert At(c.committed, p) == Committed(mid, now, backed, r, p);
  }

  lemma OneStopEach(i: nat, t: Txid, u: Txid, mid: seq<Row>, now: seq<Row>, backed: seq<bool>, r: Reads, c: Tally,
                    was: Book, book: Book)
    requires |mid| == |now| == |backed| && i < |mid| && RowGuarded(mid[i], now[i], backed[i], r, book)
    requires StopOf(i, t, mid, now, backed, r) && StopOf(i, u, mid, now, backed, r)
    ensures t == u
  {
  }

  // ── the sweep ───────────────────────────────────────────────────────────────

  /** A record of one completed sweep: the book when the position was read, everything read,
      the rows, the book and the calls so far between the passes, the rows pass 1 kept, and
      pass 2's count. */
  datatype Sweep = Sweep(atRead: Book, r: Reads, mid: seq<Row>, between: Book, told: seq<Call>, backed: seq<bool>,
                         count: Tally)

  /** The first four calls of a stretch read all there is: the position, the statuses of the
      stops and of the solo closes, the resting orders. */
  ghost predicate ReadsFirst(before: seq<Call>, after: seq<Call>, rows: seq<Row>, r: Reads, atRead: Book) {
    && before <= after && |before| + 4 <= |after|
    && var (stops, closes) := (after[|before| + 1], after[|before| + 2]);
       && after[|before|] == AskedPositions(Some(r.long), atRead)
       && stops.AskedStatuses? && stops.seen == r.stops && (forall t :: t in stops.ids <==> t in OpenClaims(rows))
       && closes.AskedStatuses? && closes.seen == r.closes && Harvest.ListsSolos(rows, closes.ids)
       && after[|before| + 3].AskedOrders? && after[|before| + 3].open == r.open
  }

  lemma ReadsFirstLasts(before: seq<Call>, mid: seq<Call>, after: seq<Call>, rows: seq<Row>, r: Reads, atRead: Book)
    requires ReadsFirst(before, mid, rows, r, atRead) && mid <= after
    ensures ReadsFirst(before, after, rows, r, atRead)
  {
    hide OpenClaims, Harvest.ListsSolos;
    assert forall k :: |before| <= k < |mid| ==> after[k] == mid[k];
  }

  /** The position was asked for, with no usable answer, and nothing else was done. */
  ghost predicate ReadNothing(before: seq<Call>, after: seq<Call>, book: Book) {
    exists long :: after == before + [AskedPositions(long, book)] && (long.None? || WrongShape(long.value))
  }

  /** No close is resting half sold. */
  ghost predicate NoHalfSold(rows: seq<Row>, book: Book) {
    forall i :: 0 <= i < |rows| && rows[i].status.RowOpen? && rows[i].closeTxid.Some?
                && rows[i].closeTxid.value < |book| && book[rows[i].closeTxid.value].status.Resting? ==>
                  book[rows[i].closeTxid.value].exec == 0
  }

  method StopIds(rows: seq<Row>) returns (ids: seq<Txid>)
    ensures forall t :: t in ids <==> t in OpenClaims(rows)
  {
    ids := [];
    for i := 0 to |rows|
      invariant forall t :: t in ids <==> t in OpenClaims(rows[..i])
    {
      ghost var was := ids;
      assert rows[..i + 1] == rows[..i] + [rows[i]];
      assert OpenClaims(rows[..i + 1]) == OpenClaims(rows[..i])
          + if rows[i].status.RowOpen? && rows[i].stopTxid.Some? then {rows[i].stopTxid.value} else {};
      if rows[i].status.RowOpen? && rows[i].stopTxid.Some? {
        ids := ids + [rows[i].stopTxid.value];
      }
    }
    assert rows[..|rows|] == rows;
  }

  lemma KeptRestorable(rows: seq<Row>, i: nat, now: Row, r: Reads, book: Book)
    requires i < |rows| && VerdictOn(rows, i, r).Keep? && Sifted(rows, i, now, r, VerdictOn(rows, i, r), book)
    requires Seen(r.stops, book)
    ensures Restorable(now, r, OpenClaims(rows), book)
  {
    if !Holds(now, r) && now.stopTxid.Some? {
      SeenTerminal(r.stops, book, now.stopTxid.value);
      assert now.stopTxid == rows[i].stopTxid;
    }
  }

  lemma ReadLaterGrown(m: map<Txid, Order>, atRead: Book, mid: Book)
    requires Grew(atRead, mid) && forall t :: t in m && t < |mid| ==> Became(mid[t], m[t])
    ensures forall t :: t in m && t < |atRead| ==> Became(atRead[t], m[t])
  {
  }

  /** Every stop and every solo close of a row was answered, with what it is now. */
  ghost predicate Current(rows: seq<Row>, r: Reads, book: Book) {
    && (forall t :: t in OpenClaims(rows) && t < |book| ==> t in r.stops && r.stops[t] == book[t])
    && (forall i :: 0 <= i < |rows| && Harvest.SoloClose(rows, i) && rows[i].closeTxid.value < |book| ==>
                      var t := rows[i].closeTxid.value; t in r.closes && r.closes[t] == book[t])
  }

  /** All reads of the sweep, in the program's order: positions first, then statuses, then
      the resting orders. The ledger is not touched. */
  method ReadAll(tb: Table, kx: Kraken) returns (r: Option<Reads>, ghost atRead: Book)
    requires Sound(tb, kx)
    modifies kx`book, kx`safe, kx`trace
    ensures Sound(tb, kx) && Moved(old(kx.book), kx.book, kx.calm) && Grew(old(kx.book), atRead) && Grew(atRead, kx.book)
    ensures old(kx.trace) <= kx.trace
    ensures r.Some? ==> ReadsFirst(old(kx.trace), kx.trace, tb.rows, r.value, atRead)
    ensures r.None? ==> ReadNothing(old(kx.trace), kx.trace, kx.book)
    ensures r.Some? ==> ReadsOk(r.value, kx.book) && ReadLater(r.value, atRead)
    ensures kx.closed ==> Inv(tb.rows, tb.tags, atRead)
    ensures r.Some? && kx.closed ==> r.value.long == PositionsOf(atRead) && NoneAdoptable(r.value.open, OpenClaims(tb.rows))
    ensures kx.calm ==> atRead == kx.book
    ensures kx.calm && kx.closed ==> r.Some?
    ensures kx.calm && r.Some? ==> r.value.open.Some? && Current(tb.rows, r.value, kx.book)
  {
    hide Inv, Grew, PositionsOf, OpenClaims, Became, WrongShape, Harvest.ListsSolos, PositionRead, OrdersRead, ReadsFirst, Current;
    var positions := OpenPositions(tb, kx);
    atRead := kx.book;
    GrewReflexive(atRead);
    r := None;
    if kx.closed {
      InvCovered(tb.rows, tb.tags, atRead);
      CoveredShape(atRead);
    }
    var shapeless := Shapeless(positions);
    if positions.None? || shapeless {
      return;
    }
    var ids := StopIds(tb.rows);
    var stops := QueryOrders(tb, kx, ids);
    ghost var second := kx.book;
    var solos := Harvest.SoloCloses(tb.rows);
    var closes := QueryOrders(tb, kx, solos);
    ghost var third := kx.book;
    ReadLaterGrown(closes, atRead, second);
    GrewTransitive(atRead, second, third);
    SeenLasts(stops, second, third);
    var open := OpenOrders(tb, kx);
    GrewTransitive(atRead, third, kx.book);
    GrewTransitive(old(kx.book), atRead, kx.book);
    SeenLasts(stops, third, kx.book);
    SeenLasts(closes, third, kx.book);
    if open.Some? {
      ShownSeen(open.value, kx.book);
      if kx.closed {
        NothingToAdopt(tb.rows, tb.tags, kx.book, open.value);
      }
    }
    r := Some(Reads(positions.value, stops, closes, open));
    ReadsFirstFrom(old(kx.trace), kx.trace, tb.rows, ids, solos, r.value, atRead, second, third, kx.book);
    if kx.calm {
      CurrentFrom(tb.rows, ids, solos, r.value, kx.book);
    }
  }

  lemma ReadsFirstFrom(before: seq<Call>, after: seq<Call>, rows: seq<Row>, ids: seq<Txid>, solos: seq<Txid>, r: Reads,
                       atRead: Book, b1: Book, b2: Book, b3: Book)
    requires after == before + [AskedPositions(Some(r.long), atRead)] + [AskedStatuses(ids, r.stops, b1)]
                      + [AskedStatuses(solos, r.closes, b2)] + [AskedOrders(r.open, b3)]
    requires forall t :: t in ids <==> t in OpenClaims(rows)
    requires Harvest.ListsSolos(rows, solos)
    ensures ReadsFirst(before, after, rows, r, atRead)
  {
    hide OpenClaims, Harvest.ListsSolos;
  }

  lemma CurrentFrom(rows: seq<Row>, ids: seq<Txid>, solos: seq<Txid>, r: Reads, book: Book)
    requires forall t :: t in ids <==> t in OpenClaims(rows)
    requires Harvest.ListsSolos(rows, solos)
    requires forall t :: t in ids && t < |book| ==> t in r.stops && r.stops[t] == book[t]
    requires forall t :: t in solos && t < |book| ==> t in r.closes && r.closes[t] == book[t]
    ensures Current(rows, r, book)
  {
    hide OpenClaims;
  }

  lemma ShownSeen(m: map<Txid, Order>, book: Book)
    requires Shown(m, book)
    ensures Seen(m, book)
  {
  }

  /** What a completed sweep did, pass by pass. */
  ghost predicate Swept(closed: bool, before: seq<Call>, after: seq<Call>, was: Book, rows: seq<Row>, now: seq<Row>,
                        s: Sweep, book: Book)
  {
    && ReadsFirst(before, s.told, rows, s.r, s.atRead) && s.told <= after
    && Grew(was, s.atRead) && Grew(s.atRead, s.between) && Grew(s.between, book)
    && (closed ==> s.r.long == PositionsOf(s.atRead))
    && ReadAgain(closed, s.told, after, s.between, book, s.count)
    && Attended(s.mid, now, |s.mid|, s.backed, s.r, s.count, s.told, after)
    && ReadsOk(s.r, s.between) && ReadLater(s.r, s.atRead)
    && SiftedUpTo(rows, s.mid, |rows|, s.r, s.between)
    && |s.backed| == |rows| && (forall i :: 0 <= i < |rows| ==> (s.backed[i] <==> VerdictOn(rows, i, s.r).Keep?))
    && Guarding(s.mid, now, |s.mid|, s.backed, s.r, s.count, OpenClaims(rows), s.between, book)
  }

  /** On any account, whatever others trade on it: if OpenOrders answered, pass 1 left no
      unbacked row open, and the stops match their rows, then for every pair a stop was placed
      into the position was asked for again after pass 1, and all its resting sell-stops
      together are within the long volume of that answer. */
  lemma StopsBounded(closed: bool, before: seq<Call>, after: seq<Call>, was: Book, rows: seq<Row>, now: seq<Row>, s: Sweep,
                     book: Book, i: nat)
    requires Swept(closed, before, after, was, rows, now, s, book) && OneExitEach(rows)
    requires forall j :: 0 <= j < |s.mid| && s.mid[j].status.RowOpen? ==> VerdictOn(rows, j, s.r).Keep?
    requires s.r.open.Some? && |now| == |s.mid| && StopsMatch(s.mid, now, book)
    requires i < |s.mid| && PlacedHere(s.mid, now, i, s.between)
    ensures exists long ::
              && PositionRead(closed, s.told, after, s.between, book, Some(long))
              && RelevantVol(s.mid, now, s.r, book, s.mid[i].sym) <= Long(long, s.mid[i].sym)
  {
    hide Grew, ReadsFirst, ReadsOk, ReadLater, Attended, SiftedUpTo, Guarding, OneExitEach, StopsMatch, PlacedHere, PositionRead,
      RelevantVol, Long, VerdictOn, PositionsOf;
    ReadsLast(s.r, s.between, book);
    SiftedSize(rows, s.mid, s.r, s.between);
    StopsWithinReread(rows, s.mid, now, s.backed, s.r, s.count, s.between, book, i);
    assert PositionRead(closed, s.told, after, s.between, book, Some(s.count.reread.value.value));
  }

  lemma SiftedSize(rows: seq<Row>, now: seq<Row>, r: Reads, book: Book)
    requires SiftedUpTo(rows, now, |rows|, r, book)
    ensures |now| == |rows|
  {
  }

  /** Every open row has an exit at work, and nothing else has. */
  ghost predicate FullyGuarded(rows: seq<Row>, book: Book) {
    && (forall i :: 0 <= i < |rows| && rows[i].status.RowOpen? ==>
                      && Working(rows[i], book) && rows[i].OneExit()
                      && book[rows[i].Exit().value].side.Sell? && book[rows[i].Exit().value].pair == rows[i].sym
                      && book[rows[i].Exit().value].vol == rows[i].vol)
    && (forall t :: 0 <= t < |book| && book[t].side.Sell? && book[t].status.Resting? ==>
                      exists i :: 0 <= i < |rows| && rows[i].status.RowOpen? && rows[i].Exit() == Some(t))
  }

  lemma GuardedByInv(rows: seq<Row>, tags: Tags, book: Book)
    requires Inv(rows, tags, book)
    requires forall i :: 0 <= i < |rows| && rows[i].status.RowOpen? ==> Working(rows[i], book)
    ensures FullyGuarded(rows, book)
  {
    forall i | 0 <= i < |rows| && rows[i].status.RowOpen?
      ensures rows[i].OneExit() && book[rows[i].Exit().value].side.Sell? && book[rows[i].Exit().value].pair == rows[i].sym
              && book[rows[i].Exit().value].vol == rows[i].vol
    {
      assert RowOk(i, rows[i], tags.entryOf[i], tags.booked[i], tags, book);
    }
    forall t | 0 <= t < |book| && book[t].side.Sell? && book[t].status.Resting?
      ensures exists i :: 0 <= i < |rows| && rows[i].status.RowOpen? && rows[i].Exit() == Some(t)
    {
      assert OrderOwned(t, rows, tags, book);
    }
  }

  /** In a calm closed system a row that pass 1 kept and that holds a sell has it at work. */
  lemma KeptWorks(rows: seq<Row>, tags: Tags, book: Book, r: Reads, i: nat, now: Row)
    requires Inv(rows, tags, book) && i < |rows| && NoHalfSold(rows, book)
    requires VerdictOn(rows, i, r).Keep? && Sifted(rows, i, now, r, VerdictOn(rows, i, r), book) && Holds(now, r)
    requires Current(rows, r, book)
    ensures Working(now, book)
  {
  }

  /** Statuses read while nothing moves are current, so every exit that executed is answered. */
  lemma CalmAnswered(rows: seq<Row>, tags: Tags, book: Book, r: Reads)
    requires Inv(rows, tags, book)
    requires Current(rows, r, book)
    ensures Answered(rows, r, book)
  {
  }

  lemma NoSharing(rows: seq<Row>, tags: Tags, book: Book)
    requires Inv(rows, tags, book)
    ensures NoSharedClose(rows)
  {
  }

  /** A row that pass 1 left open was kept, unless it was judged unbacked. */
  lemma OpenIsKept(rows: seq<Row>, i: nat, now: Row, r: Reads, book: Book)
    requires i < |rows| && Sifted(rows, i, now, r, VerdictOn(rows, i, r), book)
    requires !VerdictOn(rows, i, r).Unbacked? && now.status.RowOpen?
    ensures VerdictOn(rows, i, r).Keep?
  {
  }

  lemma SmoothStart(rows: seq<Row>, mid: seq<Row>, tags: Tags, book: Book, r: Reads, backed: seq<bool>)
    requires Inv(rows, tags, book) && NoHalfSold(rows, book)
    requires SiftedUpTo(rows, mid, |rows|, r, book)
    requires |backed| == |rows| && forall i :: 0 <= i < |rows| ==> (backed[i] <==> VerdictOn(rows, i, r).Keep?)
    requires Current(rows, r, book)
    ensures Smooth(mid, mid, 0, backed, r, None, book)
  {
    hide Inv, Sifted, VerdictOn, Holds, Working, NoHalfSold, Current;
    forall i | 0 <= i < |mid| && backed[i] && Holds(mid[i], r) ensures Working(mid[i], book) {
      KeptWorks(rows, tags, book, r, i, mid[i]);
    }
  }

  lemma SmoothEnd(mid: seq<Row>, now: seq<Row>, backed: seq<bool>, r: Reads, c: Tally, claims: set<Txid>,
                  was: Book, tags: Tags, book: Book)
    requires Guarding(mid, now, |mid|, backed, r, c, claims, was, book)
    requires Smooth(mid, now, |mid|, backed, r, c.reread, book) && Inv(now, tags, book)
    requires forall i :: 0 <= i < |mid| && mid[i].status.RowOpen? ==> backed[i]
    ensures FullyGuarded(now, book)
  {
    hide Working, Holds, Committed, SafelyPlaced, Inv;
    forall i | 0 <= i < |now| && now[i].status.RowOpen? ensures Working(now[i], book) {
      assert RowGuarded(mid[i], now[i], backed[i], r, book);
    }
    GuardedByInv(now, tags, book);
  }

  /** The reconcile sweep. It acts on definite readings only and not at all without a
      position; on a closed account whose executed exits were all answered it removes nothing
      that is alive; and a fully answered sweep with no fills during it and no half-sold close
      leaves every open row with exactly one exit at work and no other sell resting. */
  method VerifyOpenStops(tb: Table, kx: Kraken) returns (ghost s: Option<Sweep>)
    requires Sound(tb, kx)
    modifies tb, kx`book, kx`safe, kx`trace
    ensures Sound(tb, kx) && Grew(old(kx.book), kx.book) && old(kx.trace) <= kx.trace
    ensures s.None? ==> tb.rows == old(tb.rows) && ReadNothing(old(kx.trace), kx.trace, kx.book)
    ensures s.Some? ==> Swept(kx.closed, old(kx.trace), kx.trace, old(kx.book), old(tb.rows), tb.rows, s.value, kx.book)
    ensures s.Some? && kx.closed && Answered(old(tb.rows), s.value.r, s.value.atRead) ==>
              forall i :: 0 <= i < |old(tb.rows)| ==> !VerdictOn(old(tb.rows), i, s.value.r).Unbacked?
    ensures kx.closed && kx.calm ==> s.Some?
    ensures kx.closed && kx.calm && NoHalfSold(old(tb.rows), old(kx.book)) ==> FullyGuarded(tb.rows, kx.book)
  {
    hide Inv, Grew, PositionsOf, OpenClaims, VerdictOn, ReadsOk, ReadLater, Guarding, Smooth, SiftedUpTo, Answered,
      NoHalfSold, FullyGuarded, Restorable, NoneAdoptable, NoSharedClose, Current, ReadsFirst, ReadNothing, ReadAgain, Attended;
    ghost var rows, tags, was, t0 := tb.rows, tb.tags, kx.book, kx.trace;
    var read;
    ghost var atRead;
    read, atRead := ReadAll(tb, kx);
    s := None;
    if read.None? {
      return;
    }
    var r := read.value;
    if kx.closed {
      NoSharing(rows, tags, atRead);
      if kx.calm {
        CalmAnswered(rows, tags, kx.book, r);
      }
      if Answered(rows, r, atRead) {
        forall i | 0 <= i < |rows| ensures !VerdictOn(rows, i, r).Unbacked? {
          ClosedSweepSparesAll(rows, tags, atRead, r, i);
        }
      }
    }
    var claims := OpenClaims(tb.rows);
    ghost var readBook, readTold := kx.book, kx.trace;
    var backed := PassOne(tb, kx, r);
    GrewTransitive(was, readBook, kx.book);
    GrewTransitive(atRead, readBook, kx.book);
    ghost var mid, between, told := tb.rows, kx.book, kx.trace;
    ReadsFirstLasts(t0, readTold, told, rows, r, atRead);
    PassOneLeaves(rows, mid, r, between, backed);
    assert kx.closed && kx.calm ==> NoCancel(rows, |rows|, r);
    if kx.closed && kx.calm && NoHalfSold(rows, was) {
      SmoothStart(rows, mid, tags, between, r, backed);
    }
    ghost var c := PassTwo(tb, kx, r, backed, claims);
    GrewTransitive(was, between, kx.book);
    s := Some(Sweep(atRead, r, mid, between, told, backed, c));
    if kx.closed && kx.calm && NoHalfSold(rows, was) {
      SmoothEnd(mid, tb.rows, backed, r, c, claims, between, tb.tags, kx.book);
    }
  }

  lemma PassOneLeaves(rows: seq<Row>, mid: seq<Row>, r: Reads, book: Book, backed: seq<bool>)
    requires SiftedUpTo(rows, mid, |rows|, r, book) && ReadsOk(r, book)
    requires |backed| == |rows| && forall i :: 0 <= i < |rows| ==> (backed[i] <==> VerdictOn(rows, i, r).Keep?)
    ensures |mid| == |rows|
    ensures forall i :: 0 <= i < |rows| && backed[i] ==> Restorable(mid[i], r, OpenClaims(rows), book)
    ensures (forall i :: 0 <= i < |rows| ==> !VerdictOn(rows, i, r).Unbacked?) ==>
              forall i :: 0 <= i < |mid| && mid[i].status.RowOpen? ==> backed[i]
    ensures r.open.Some? ==> Seen(r.open.value, book)
  {
    hide Sifted, VerdictOn, Restorable, OpenClaims, Seen;
    forall i | 0 <= i < |rows| && backed[i] ensures Restorable(mid[i], r, OpenClaims(rows), book) {
      KeptRestorable(rows, i, mid[i], r, book);
    }
    forall i | 0 <= i < |mid| && !VerdictOn(rows, i, r).Unbacked? && mid[i].status.RowOpen? ensures backed[i] {
      OpenIsKept(rows, i, mid[i], r, book);
    }
  }
}

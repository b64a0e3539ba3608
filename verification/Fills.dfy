/** Entry bids: placing them, recovering the ones whose acknowledgement was lost, and
    promoting them to positions once the exchange confirms a settled fill. */
module Fills {
  import opened Wrappers
  import opened Exchange
  import opened Ledger
  import opened Broker
  import opened Prices
  import opened Protect
  import Ladder

  predicate FreshRef(rows: seq<Row>, userref: nat) {
    forall j :: 0 <= j < |rows| ==> rows[j].userref != userref
  }

  function BidRow(sym: Pair, vol: nat, userref: nat, price: real, stop: real, tpPct: real): Row {
    Row(sym, vol, RowPending, userref, None, None, None, price, stop, None, tpPct)
  }

  lemma InvAddRejected(rows: seq<Row>, tags: Tags, book: Book, row: Row)
    requires Inv(rows, tags, book) && FreshRef(rows, row.userref) && 0 < row.vol
    requires row == BidRow(row.sym, row.vol, row.userref, row.entry, row.stop, row.tpPct)
    ensures Inv(rows + [row.(status := RowRejected)],
                Tags(tags.entryOf + [None], tags.booked + [0], tags.own), book)
  {
    var tags' := Tags(tags.entryOf + [None], tags.booked + [0], tags.own);
    InvAddEntry(rows, tags, book, row, row.entry, false);
    InvReject(rows + [row], tags', book, |rows|);
    assert (rows + [row])[|rows| := row.(status := RowRejected)] == rows + [row.(status := RowRejected)];
    assert tags'.booked[|rows| := 0] == tags'.booked;
  }

  /** AddOrder of an entry bid and the row that records it. An answered placement is recorded
      with its txid; an ambiguous transport failure is recorded pending without one, because
      the order may be on the book; a definite refusal leaves a rejected row, or none when
      the bid is a ladder rung. */
  method PlaceBid(tb: Table, kx: Kraken, row: Row, isRung: bool) returns (rests: bool)
    requires Sound(tb, kx) && 0 < row.vol && FreshRef(tb.rows, row.userref)
    requires row == BidRow(row.sym, row.vol, row.userref, row.entry, row.stop, row.tpPct)
    modifies tb, kx`book, kx`safe, kx`trace
    ensures Sound(tb, kx) && Grew(old(kx.book), kx.book) && old(kx.trace) <= kx.trace
    ensures rests ==>
              && |old(kx.book)| < |kx.book|
              && tb.rows == old(tb.rows) + [row.(txid := Some(|kx.book| - 1))]
              && kx.book[|kx.book| - 1] == NewOrder(row.sym, Buy, Limit, row.entry, row.vol, row.userref)
    ensures !rests ==>
              || tb.rows == old(tb.rows) + [row]
              || (!isRung && tb.rows == old(tb.rows) + [row.(status := RowRejected)])
              || (isRung && tb.rows == old(tb.rows))
    ensures kx.calm ==> rests && OnlyTouched(old(kx.book), kx.book, None)
    ensures |kx.trace| == |old(kx.trace)| + 1 && kx.trace[|old(kx.trace)|].SentOrder?
            && kx.trace[|old(kx.trace)|].order == NewOrder(row.sym, Buy, Limit, row.entry, row.vol, row.userref)
            && kx.trace[|old(kx.trace)|].placed == if rests then Some(|kx.book| - 1) else None
  {
    hide Inv, Grew;
    ghost var rows, tags, was := tb.rows, tb.tags, kx.book;
    ghost var landed, es;
    var r, definite;
    if kx.closed {
      InvCovered(rows, tags, was);
    }
    r, definite, landed, es := kx.AddBuy(row.sym, row.entry, row.vol, row.userref);
    if kx.closed {
      InvPlay(rows, tags, was, es);
    }
    rests := r.Some?;
    var recorded := row.(txid := r);
    if r.Some? || !definite {
      tb.rows := tb.rows + [recorded];
      if kx.closed {
        InvAddEntry(rows, tags, Play(was, es), recorded, row.entry, landed.Some?);
        tb.tags := Tags(tags.entryOf + [if landed.Some? then Some(|Play(was, es)|) else None], tags.booked + [0],
                        if landed.Some? then tags.own + [|rows|] else tags.own);
      }
    } else if !isRung {
      tb.rows := tb.rows + [row.(status := RowRejected)];
      if kx.closed {
        InvAddRejected(rows, tags, kx.book, row);
        tb.tags := Tags(tags.entryOf + [None], tags.booked + [0], tags.own);
      }
    }
  }

  /** A row whose order is not on the book and never will be can be rejected. */
  lemma InvReject(rows: seq<Row>, tags: Tags, book: Book, i: nat)
    requires Inv(rows, tags, book) && i < |rows| && rows[i].status.RowPending?
    requires tags.entryOf[i].None?
    ensures Inv(rows[i := rows[i].(status := RowRejected)], tags.(booked := tags.booked[i := 0]), book)
  {
    assert RowOk(i, rows[i], tags.entryOf[i], tags.booked[i], tags, book);
    InvSetRow(rows, tags, book, i, rows[i].(status := RowRejected), 0);
  }

  lemma InvLearnTxid(rows: seq<Row>, tags: Tags, book: Book, i: nat, t: Txid)
    requires Inv(rows, tags, book) && i < |rows| && rows[i].status.RowPending? && rows[i].txid.None?
    requires HasRef(book, t, rows[i].userref)
    ensures tags.entryOf[i] == Some(t)
    ensures Inv(rows[i := rows[i].(txid := Some(t))], tags, book)
  {
    assert OrderOwned(t, rows, tags, book);
    var j := tags.own[t];
    assert RowOk(j, rows[j], tags.entryOf[j], tags.booked[j], tags, book);
    assert RowOk(i, rows[i], tags.entryOf[i], tags.booked[i], tags, book);
    assert Conserves(i, rows[i], tags.booked[i], tags.own, book);
    InvSetRow(rows, tags, book, i, rows[i].(txid := Some(t)), tags.booked[i]);
    assert tags.booked[i := tags.booked[i]] == tags.booked;
  }

  /** The settled outcome of an entry whose order is finished. */
  function Promoted(row: Row, exec: nat): Row {
    if 0 < exec then row.(status := RowOpen, vol := exec) else row.(status := RowCanceled)
  }

  /** A bid that finished with `exec` bought: an open lot of exactly that volume, perhaps with a
      stop by now, and otherwise as it was; or, with nothing bought, a canceled row. */
  predicate BidEnded(was: Row, now: Row, exec: nat) {
    if exec == 0 then now == was.(status := RowCanceled)
    else now.vol == exec && now == was.(status := RowOpen, vol := now.vol, stopTxid := now.stopTxid)
  }

  lemma InvSettleEntry(rows: seq<Row>, tags: Tags, book: Book, i: nat)
    requires Inv(rows, tags, book) && i < |rows| && rows[i].status.RowPending? && rows[i].txid.Some?
    requires rows[i].txid.value < |book| && book[rows[i].txid.value].Terminal()
    ensures var exec := book[rows[i].txid.value].exec;
            && i < |tags.booked|
            && Inv(rows[i := Promoted(rows[i], exec)], tags.(booked := tags.booked[i := exec]), book)
  {
    var exec := book[rows[i].txid.value].exec;
    assert RowOk(i, rows[i], tags.entryOf[i], tags.booked[i], tags, book);
    assert Conserves(i, rows[i], tags.booked[i], tags.own, book);
    InvSetRow(rows, tags, book, i, Promoted(rows[i], exec), exec);
  }

  /** What may have become of a pending row. It leaves `pending` only for a finished order,
      with exactly the executed volume, or when its reference is provably absent. */
  ghost predicate EntrySettled(was: Row, now: Row, before: Book, book: Book, pastWindow: bool) {
    var learned := now.txid == was.txid || (was.txid.None? && now.txid.Some? && HasRef(book, now.txid.value, was.userref));
    match now.status
    case RowPending => learned && now == was.(txid := now.txid)
    case RowOpen =>
      && learned && now.txid.Some? && now.txid.value < |book|
      && book[now.txid.value].Terminal() && 0 < book[now.txid.value].exec
      && now.vol == book[now.txid.value].exec
      && now == was.(status := RowOpen, vol := now.vol, txid := now.txid, stopTxid := now.stopTxid)
      && (now.stopTxid.Some? ==> now.stopTxid.value < |book| && StopAt(book[now.stopTxid.value], now, now.stop))
    case RowCanceled =>
      && learned && now.txid.Some? && now.txid.value < |book|
      && book[now.txid.value].Terminal() && book[now.txid.value].exec == 0
      && now == was.(status := RowCanceled, txid := now.txid)
    case RowRejected =>
      && was.txid.None? && pastWindow && now == was.(status := RowRejected)
      && forall t: Txid :: t < |before| ==> !HasRef(before, t, was.userref)
    case RowClosed => false
  }

  lemma HasRefLasts(was: Book, now: Book, t: Txid, userref: nat)
    requires Grew(was, now) && HasRef(was, t, userref)
    ensures HasRef(now, t, userref)
  {
  }

  lemma EntrySettledLasts(was: Row, now: Row, before: Book, mid: Book, book: Book, pastWindow: bool)
    requires EntrySettled(was, now, before, mid, pastWindow) && Grew(mid, book)
    ensures EntrySettled(was, now, before, book, pastWindow)
  {
  }

  method ResolveAmbiguousEntry(tb: Table, kx: Kraken, i: nat, pastWindow: bool) returns (r: Option<Txid>)
    requires Sound(tb, kx) && i < |tb.rows| && tb.rows[i].status.RowPending? && tb.rows[i].txid.None?
    modifies tb, kx`book, kx`safe, kx`trace
    ensures Sound(tb, kx) && Moved(old(kx.book), kx.book, kx.calm) && old(kx.trace) <= kx.trace
    ensures r.Some? ==> HasRef(kx.book, r.value, old(tb.rows)[i].userref)
                        && tb.rows == old(tb.rows)[i := old(tb.rows)[i].(txid := r)]
    ensures r.None? ==> tb.rows == old(tb.rows)
                        || (pastWindow && tb.rows == old(tb.rows)[i := old(tb.rows)[i].(status := RowRejected)]
                            && forall t: Txid :: t < |old(kx.book)| ==> !HasRef(old(kx.book), t, old(tb.rows)[i].userref))
    ensures kx.calm && pastWindow ==> r.Some? || tb.rows[i].status.RowRejected?
  {
    hide Grew, RowOk, OrderOwned, Within;
    var row := tb.rows[i];
    ghost var rows, tags := tb.rows, tb.tags;
    var found := FindOrderByUserref(tb, kx, row.userref, pastWindow);
    r := None;
    if found.Found? {
      r := Some(found.txid);
      if kx.closed {
        InvLearnTxid(rows, tags, kx.book, i, found.txid);
      }
      tb.rows := tb.rows[i := row.(txid := r)];
    } else if found.Absent? && pastWindow {
      if kx.closed {
        EntryIsAbsent(rows, tags, old(kx.book), kx.book, i);
        InvReject(rows, tags, kx.book, i);
        tb.tags := tags.(booked := tags.booked[i := 0]);
      }
      tb.rows := tb.rows[i := row.(status := RowRejected)];
    }
  }

  lemma EntryIsAbsent(rows: seq<Row>, tags: Tags, before: Book, book: Book, i: nat)
    requires Inv(rows, tags, before) && Inv(rows, tags, book) && i < |rows|
    requires forall t: Txid :: t < |before| ==> !HasRef(before, t, rows[i].userref)
    ensures tags.entryOf[i].None?
  {
    assert RowOk(i, rows[i], tags.entryOf[i], tags.booked[i], tags, before);
    assert tags.entryOf[i].Some? ==> HasRef(before, tags.entryOf[i].value, rows[i].userref);
  }

  /** The terminal status of an entry order, once it has one: an order that is still resting
      is canceled if it has filled in part or outlived its time, and read again. */
  method ConfirmTerminal(tb: Table, kx: Kraken, t: Txid, seen: Option<Order>, ttlExpired: bool)
    returns (r: Option<Order>)
    requires Sound(tb, kx)
    requires seen.Some? ==> t < |kx.book| && Became(seen.value, kx.book[t])
    modifies kx`book, kx`safe, kx`trace
    ensures Sound(tb, kx) && Grew(old(kx.book), kx.book) && old(kx.trace) <= kx.trace
    ensures r.Some? ==> t < |kx.book| && r.value == kx.book[t] && r.value.Terminal()
    ensures seen.Some? && seen.value.Terminal() ==> r == seen
    ensures kx.calm && t < |old(kx.book)| && seen == Some(old(kx.book)[t]) ==>
              (r.Some? <==> seen.value.Terminal() || 0 < seen.value.exec || ttlExpired)
    ensures kx.calm ==> OnlyTouched(old(kx.book), kx.book, Some(t))
  {
    r := None;
    if seen.None? {
      return;
    }
    if seen.value.Terminal() {
      GrewReflexive(kx.book);
      return seen;
    }
    if seen.value.exec == 0 && !ttlExpired {
      return;
    }
    var ok := CancelOrder(tb, kx, t);
    if !ok {
      return;
    }
    ghost var mid := kx.book;
    var o := QueryOrder(tb, kx, t);
    GrewTransitive(old(kx.book), mid, kx.book);
    if o.Some? && o.value.Terminal() {
      r := o;
    }
  }

  /** The order behind a pending row and what the exchange last said about it. */
  method LocateEntry(tb: Table, kx: Kraken, i: nat, known: map<Txid, Order>, pastWindow: bool)
    returns (t: Option<Txid>, seen: Option<Order>)
    requires Sound(tb, kx) && i < |tb.rows| && tb.rows[i].status.RowPending?
    requires Seen(known, kx.book)
    modifies tb, kx`book, kx`safe, kx`trace
    ensures Sound(tb, kx) && Grew(old(kx.book), kx.book) && old(kx.trace) <= kx.trace
    ensures |tb.rows| == |old(tb.rows)| && tb.rows == old(tb.rows)[i := tb.rows[i]]
    ensures EntrySettled(old(tb.rows)[i], tb.rows[i], old(kx.book), kx.book, pastWindow)
    ensures if t.Some? then tb.rows[i].status.RowPending? && tb.rows[i].txid == t else !tb.rows[i].status.RowOpen?
    ensures seen.Some? ==> t.Some? && t.value < |kx.book| && Became(seen.value, kx.book[t.value])
    ensures old(tb.rows)[i].txid.Some? ==>
              && tb.rows == old(tb.rows) && kx.book == old(kx.book) && t == tb.rows[i].txid
              && seen == if t.value in known then Some(known[t.value]) else None
    ensures kx.calm ==> kx.book == old(kx.book)
    ensures kx.calm && pastWindow ==> tb.rows[i].txid.Some? || tb.rows[i].status.RowRejected?
  {
    hide Inv, Grew;
    ghost var before := kx.book;
    var row := tb.rows[i];
    GrewReflexive(kx.book);
    t, seen := row.txid, None;
    if row.txid.Some? {
      seen := if t.value in known then Some(known[t.value]) else None;
    } else {
      t := ResolveAmbiguousEntry(tb, kx, i, pastWindow);
      if t.Some? {
        ghost var grown := kx.book;
        seen := QueryOrder(tb, kx, t.value);
        GrewTransitive(before, grown, kx.book);
        HasRefLasts(grown, kx.book, t.value, row.userref);
      }
    }
  }

  /** A confirmed settled fill becomes an open position of exactly that volume and gets its
      protective stop; a finished order without a fill ends the row. */
  method PromoteEntry(tb: Table, kx: Kraken, i: nat, final: Order)
    requires Sound(tb, kx) && i < |tb.rows| && tb.rows[i].status.RowPending? && tb.rows[i].txid.Some?
    requires tb.rows[i].txid.value < |kx.book| && kx.book[tb.rows[i].txid.value] == final && final.Terminal()
    modifies tb, kx`book, kx`safe, kx`trace
    ensures Sound(tb, kx) && Grew(old(kx.book), kx.book) && old(kx.trace) <= kx.trace
    ensures |tb.rows| == |old(tb.rows)| && tb.rows == old(tb.rows)[i := tb.rows[i]]
    ensures BidEnded(old(tb.rows)[i], tb.rows[i], final.exec)
    ensures 0 < final.exec && tb.rows[i].stopTxid.Some? ==>
              tb.rows[i].stopTxid.value < |kx.book|
              && StopAt(kx.book[tb.rows[i].stopTxid.value], tb.rows[i], tb.rows[i].stop)
    ensures kx.calm && 0 < final.exec ==> tb.rows[i].stopTxid.Some?
    ensures kx.calm ==> OnlyTouched(old(kx.book), kx.book, None)
  {
    hide Inv, Grew;
    var row := tb.rows[i];
    if kx.closed {
      InvSettleEntry(tb.rows, tb.tags, kx.book, i);
      tb.tags := tb.tags.(booked := tb.tags.booked[i := final.exec]);
    }
    GrewReflexive(kx.book);
    assert row.OneExit();
    tb.rows := tb.rows[i := Promoted(row, final.exec)];
    if 0 < final.exec {
      var stop := RestStop(tb, kx, i, tb.rows[i].stop);
    }
  }

  lemma PromotedSettled(was: Row, learned: Row, now: Row, before: Book, mid: Book, book: Book, pastWindow: bool)
    requires EntrySettled(was, learned, before, mid, pastWindow) && Grew(mid, book)
    requires learned.status.RowPending? && learned.txid.Some?
    requires learned.txid.value < |book| && book[learned.txid.value].Terminal()
    requires BidEnded(learned, now, book[learned.txid.value].exec)
    requires 0 < book[learned.txid.value].exec && now.stopTxid.Some? ==>
               now.stopTxid.value < |book| && StopAt(book[now.stopTxid.value], now, now.stop)
    ensures EntrySettled(was, now, before, book, pastWindow)
  {
  }

  /** When every call is answered: a row that opened has its stop, and past the window no row is
      left without knowing its order. */
  predicate CalmlySettled(was: Row, now: Row, pastWindow: bool) {
    && (now.status.RowOpen? ==> now.stopTxid.Some?)
    && (pastWindow && was.txid.None? ==> now.txid.Some? || now.status.RowRejected?)
  }

  /** One pending row of the poll. `known` is the batched status read of this cycle. */
  method SettlePending(tb: Table, kx: Kraken, i: nat, known: map<Txid, Order>, pastWindow: bool, ttlExpired: bool)
    requires Sound(tb, kx) && i < |tb.rows| && tb.rows[i].status.RowPending?
    requires Seen(known, kx.book)
    modifies tb, kx`book, kx`safe, kx`trace
    ensures Sound(tb, kx) && Grew(old(kx.book), kx.book) && old(kx.trace) <= kx.trace
    ensures |tb.rows| == |old(tb.rows)| && tb.rows == old(tb.rows)[i := tb.rows[i]]
    ensures EntrySettled(old(tb.rows)[i], tb.rows[i], old(kx.book), kx.book, pastWindow)
    ensures var t := old(tb.rows)[i].txid;
            t.Some? && t.value in known && known[t.value].Terminal() ==> !tb.rows[i].status.RowPending?
    ensures var t := old(tb.rows)[i].txid;
            kx.calm && t.Some? && t.value in known && known[t.value] == old(kx.book)[t.value] ==>
              (tb.rows[i].status.RowPending?
               <==> !known[t.value].Terminal() && known[t.value].exec == 0 && !ttlExpired)
    ensures kx.calm ==> CalmlySettled(old(tb.rows)[i], tb.rows[i], pastWindow)
                        && OnlyTouched(old(kx.book), kx.book, tb.rows[i].txid)
  {
    hide Inv, Grew, EntrySettled, StopAt, Became;
    ghost var was, before := tb.rows[i], kx.book;
    var t, seen := LocateEntry(tb, kx, i, known, pastWindow);
    if t.None? {
      return;
    }
    ghost var learned, mid := tb.rows[i], kx.book;
    var final := ConfirmTerminal(tb, kx, t.value, seen, ttlExpired);
    GrewTransitive(before, mid, kx.book);
    if final.None? {
      EntrySettledLasts(was, learned, before, mid, kx.book, pastWindow);
      return;
    }
    ghost var grown := kx.book;
    PromoteEntry(tb, kx, i, final.value);
    GrewTransitive(before, grown, kx.book);
    GrewTransitive(mid, grown, kx.book);
    TerminalLasts(grown, kx.book, t.value);
    PromotedSettled(was, learned, tb.rows[i], before, mid, kx.book, pastWindow);
  }

  lemma TerminalLasts(was: Book, now: Book, t: Txid)
    requires Grew(was, now) && t < |was| && was[t].Terminal()
    ensures t < |now| && now[t] == was[t]
  {
  }

  // ── laddering ───────────────────────────────────────────────────────────────

  predicate HasPendingEntry(rows: seq<Row>, sym: Pair) {
    exists i :: 0 <= i < |rows| && rows[i].sym == sym && rows[i].status.RowPending?
  }

  method FindPending(rows: seq<Row>, sym: Pair) returns (found: bool)
    ensures found <==> HasPendingEntry(rows, sym)
  {
    found := false;
    for i := 0 to |rows|
      invariant found <==> exists j :: 0 <= j < i && rows[j].sym == sym && rows[j].status.RowPending?
    {
      if rows[i].status.RowPending? && rows[i].sym == sym {
        found := true;
      }
    }
  }

  /** Entries of the pair's open rows: the levels it owns. */
  function LevelsOwned(rows: seq<Row>, sym: Pair): seq<real> {
    if |rows| == 0 then []
    else
      var row := rows[|rows| - 1];
      LevelsOwned(rows[..|rows| - 1], sym) + if row.sym == sym && row.status.RowOpen? then [row.entry] else []
  }

  lemma {:induction false} LevelsOwnedComplete(rows: seq<Row>, sym: Pair, i: nat) returns (k: nat)
    requires i < |rows| && rows[i].status.RowOpen? && rows[i].sym == sym
    ensures k < |LevelsOwned(rows, sym)| && LevelsOwned(rows, sym)[k] == rows[i].entry
  {
    var n := |rows| - 1;
    if i == n {
      k := |LevelsOwned(rows, sym)| - 1;
    } else {
      k := LevelsOwnedComplete(rows[..n], sym, i);
    }
  }

  /** The level is above the chain's stop and more than half a step from every lot of the pair. */
  ghost predicate Roomy(rows: seq<Row>, sym: Pair, level: real, step: real, stop: real) {
    stop < level
    && forall i :: 0 <= i < |rows| && rows[i].status.RowOpen? && rows[i].sym == sym && rows[i].entry != 0.0 ==>
                     step * 0.5 * level < Ladder.Abs(rows[i].entry - level)
  }

  /** The level is above the chain's stop, if it has one, and more than half a step from every lot of
      the pair. */
  predicate RungFits(rows: seq<Row>, sym: Pair, level: real, step: real, stop: real) {
    && (stop == 0.0 || stop < level)
    && forall i :: 0 <= i < |rows| && rows[i].status.RowOpen? && rows[i].sym == sym && rows[i].entry != 0.0 && 0.0 < level ==>
                     rows[i].entry < level - step * 0.5 * level || level + step * 0.5 * level < rows[i].entry
  }

  /** Where the next rung under a fill of the pair goes, if it fits. */
  function RungLevel(rows: seq<Row>, sym: Pair, filled: real, step: real, stop: real, live: Option<real>): Option<real> {
    var level := Ladder.StepDown(filled, step, live);
    if 0.0 < filled && RungFits(rows, sym, level, step, stop) then Some(level) else None
  }

  lemma {:induction false} LevelsOwnedOnly(rows: seq<Row>, sym: Pair, k: nat) returns (i: nat)
    requires k < |LevelsOwned(rows, sym)|
    ensures i < |rows| && rows[i].status.RowOpen? && rows[i].sym == sym && rows[i].entry == LevelsOwned(rows, sym)[k]
  {
    var n := |rows| - 1;
    if k < |LevelsOwned(rows[..n], sym)| {
      i := LevelsOwnedOnly(rows[..n], sym, k);
    } else {
      i := n;
    }
  }

  /** The rung the program computes is exactly this. */
  lemma NextRungExact(rows: seq<Row>, sym: Pair, filled: real, step: real, stop: real, live: Option<real>)
    ensures Ladder.NextRung(LevelsOwned(rows, sym), filled, step, stop, live) == RungLevel(rows, sym, filled, step, stop, live)
  {
    hide Ladder.NextRung, Ladder.StepDown, LevelsOwned;
    var (held, level) := (LevelsOwned(rows, sym), Ladder.StepDown(filled, step, live));
    Ladder.NextRungExact(held, filled, step, stop, live);
    forall i | 0 <= i < |rows| && rows[i].status.RowOpen? && rows[i].sym == sym
      ensures exists k :: 0 <= k < |held| && held[k] == rows[i].entry
    {
      var k := LevelsOwnedComplete(rows, sym, i);
    }
    forall k | 0 <= k < |held|
      ensures exists i :: 0 <= i < |rows| && rows[i].status.RowOpen? && rows[i].sym == sym && rows[i].entry == held[k]
    {
      var i := LevelsOwnedOnly(rows, sym, k);
    }
  }

  lemma NextRungIsRoomy(rows: seq<Row>, sym: Pair, filled: real, step: real, stop: real, live: Option<real>)
    requires Ladder.NextRung(LevelsOwned(rows, sym), filled, step, stop, live).Some? && 0.0 < stop
    ensures Roomy(rows, sym, Ladder.NextRung(LevelsOwned(rows, sym), filled, step, stop, live).value, step, stop)
  {
    hide Ladder.NextRung, LevelsOwned;
    var held := LevelsOwned(rows, sym);
    var bid := Ladder.NextRung(held, filled, step, stop, live).value;
    assert stop < bid by { NextRungAboveStop(held, filled, step, stop, live); }
    forall i | 0 <= i < |rows| && rows[i].status.RowOpen? && rows[i].sym == sym && rows[i].entry != 0.0
      ensures step * 0.5 * bid < Ladder.Abs(rows[i].entry - bid)
    {
      var k := LevelsOwnedComplete(rows, sym, i);
      Ladder.NextRungSpaced(held, filled, step, stop, live, k);
    }
  }

  lemma NextRungAboveStop(held: seq<real>, filled: real, step: real, stop: real, live: Option<real>)
    requires Ladder.NextRung(held, filled, step, stop, live).Some? && 0.0 < stop
    ensures stop < Ladder.NextRung(held, filled, step, stop, live).value
  {
    hide TickRound;
  }

  lemma {:induction false} SomeRefIsFresh(rows: seq<Row>) returns (userref: nat)
    ensures forall j :: 0 <= j < |rows| ==> rows[j].userref < userref
  {
    if |rows| == 0 {
      userref := 0;
    } else {
      var below := SomeRefIsFresh(rows[..|rows| - 1]);
      var last := rows[|rows| - 1].userref;
      userref := if below <= last then last + 1 else below;
    }
  }

  /** Bid the next rung under a fill, if nothing forbids it: no bid of the pair rests, the
      level is above the chain's stop, and no lot is held within half a step of it. `allowed`
      stands for the gates that look outside the ledger: halt file, regime, margin floor,
      rails, order ceiling and respend budget. */
  method PlaceLadderRung(tb: Table, kx: Kraken, sym: Pair, stop: real, filled: real, step: real, live: Option<real>,
                         vol: nat, userref: nat, tpPct: real, allowed: bool)
    requires Sound(tb, kx) && 0 < vol && FreshRef(tb.rows, userref)
    modifies tb, kx`book, kx`safe, kx`trace
    ensures Sound(tb, kx) && Grew(old(kx.book), kx.book) && old(kx.trace) <= kx.trace
    ensures tb.rows != old(tb.rows) ==>
              && allowed && !HasPendingEntry(old(tb.rows), sym)
              && var bid := RungLevel(old(tb.rows), sym, filled, step, stop, live);
                 bid.Some? && |tb.rows| == |old(tb.rows)| + 1
                 && var row := tb.rows[|old(tb.rows)|];
                    && tb.rows == old(tb.rows) + [row]
                    && row == BidRow(sym, vol, userref, bid.value, TickRound(stop) as real, tpPct).(txid := row.txid)
                    && (0.0 < stop ==> Roomy(old(tb.rows), sym, row.entry, step, stop))
    ensures kx.calm && allowed && !HasPendingEntry(old(tb.rows), sym)
            && RungLevel(old(tb.rows), sym, filled, step, stop, live).Some?
            ==> |tb.rows| == |old(tb.rows)| + 1 && 0 < |kx.book| && tb.rows[|old(tb.rows)|].txid == Some(|kx.book| - 1)
                && kx.book[|kx.book| - 1] == NewOrder(sym, Buy, Limit, tb.rows[|old(tb.rows)|].entry, vol, userref)
    ensures kx.calm ==> OnlyTouched(old(kx.book), kx.book, None)
  {
    hide Inv, Grew, Ladder.NextRung, Roomy, RungLevel, LevelsOwned;
    GrewReflexive(kx.book);
    NextRungExact(tb.rows, sym, filled, step, stop, live);
    var pending := FindPending(tb.rows, sym);
    if !allowed || pending {
      return;
    }
    var bid := Ladder.NextRung(LevelsOwned(tb.rows, sym), filled, step, stop, live);
    if bid.None? {
      return;
    }
    if 0.0 < stop {
      NextRungIsRoomy(tb.rows, sym, filled, step, stop, live);
    }
    var rests := PlaceBid(tb, kx, BidRow(sym, vol, userref, bid.value, TickRound(stop) as real, tpPct), true);
  }

  /** What this cycle's clock and market say about the rows and pairs it visits. */
  datatype Scene = Scene(pastWindow: bool, ttlExpired: bool, step: real, live: Option<real>, vol: nat, tpPct: real,
                         allowed: bool)

  /** The row is the rung that the fill of row `i` calls for, on the levels the rows own. */
  ghost predicate RungOf(rows: seq<Row>, i: nat, row: Row, s: Scene) {
    && i < |rows| && rows[i].status.RowOpen? && row.sym == rows[i].sym && row.vol == s.vol
    && row.stop == TickRound(rows[i].stop) as real
    && RungLevel(rows, row.sym, rows[i].entry, s.step, rows[i].stop, s.live) == Some(row.entry)
  }

  lemma RungIsRoomy(rows: seq<Row>, i: nat, row: Row, s: Scene)
    requires RungOf(rows, i, row, s) && 0.0 < rows[i].stop
    ensures Roomy(rows, row.sym, row.entry, s.step, rows[i].stop)
  {
    hide LevelsOwned, Ladder.NextRung, Ladder.StepDown, RungLevel, Roomy;
    NextRungExact(rows, row.sym, rows[i].entry, s.step, rows[i].stop, s.live);
    NextRungIsRoomy(rows, row.sym, rows[i].entry, s.step, rows[i].stop, s.live);
  }

  /** The pair's rows are the same, and rows that came after are not open. */
  ghost predicate SamePair(was: seq<Row>, now: seq<Row>, sym: Pair) {
    && |was| <= |now|
    && (forall i :: 0 <= i < |was| && (was[i].sym == sym || now[i].sym == sym) ==> now[i] == was[i])
    && (forall i :: |was| <= i < |now| ==> !now[i].status.RowOpen?)
  }

  lemma {:induction false} SameLevels(was: seq<Row>, now: seq<Row>, sym: Pair)
    requires SamePair(was, now, sym)
    ensures LevelsOwned(now, sym) == LevelsOwned(was, sym)
  {
    if |now| > 0 {
      var n := |now| - 1;
      if |was| == |now| {
        SameLevels(was[..n], now[..n], sym);
      } else {
        SameLevels(was, now[..n], sym);
      }
    }
  }

  lemma RungLasts(was: seq<Row>, now: seq<Row>, i: nat, row: Row, s: Scene)
    requires RungOf(was, i, row, s) && SamePair(was, now, row.sym)
    ensures RungOf(now, i, row, s)
  {
    hide LevelsOwned, Ladder.NextRung, RungLevel;
    SameLevels(was, now, row.sym);
    NextRungExact(was, row.sym, was[i].entry, s.step, was[i].stop, s.live);
    NextRungExact(now, row.sym, was[i].entry, s.step, was[i].stop, s.live);
  }

  lemma EntrySettledEarlier(was: Row, now: Row, older: Book, before: Book, book: Book, pastWindow: bool)
    requires EntrySettled(was, now, before, book, pastWindow) && Grew(older, before)
    ensures EntrySettled(was, now, older, book, pastWindow)
  {
    forall t: Txid | t < |older| ensures HasRef(older, t, was.userref) ==> HasRef(before, t, was.userref) {
      assert Became(older[t], before[t]);
    }
  }

  /** The pass after its first `n` rows: those that were pending are settled as far as the
      exchange allowed, the others untouched, and only new bids were appended. */
  ghost predicate PassSoFar(rows: seq<Row>, now: seq<Row>, n: nat, scene: seq<Scene>, before: Book, book: Book) {
    && |rows| == |scene| && |rows| <= |now|
    && (forall i :: 0 <= i < |rows| ==>
                      if i < n && rows[i].status.RowPending?
                      then EntrySettled(rows[i], now[i], before, book, scene[i].pastWindow)
                      else now[i] == rows[i])
    && (forall i :: |rows| <= i < |now| ==> now[i].status.RowPending?)
  }

  lemma PassStep(rows: seq<Row>, now: seq<Row>, n: nat, scene: seq<Scene>, before: Book, mid: Book,
                 now': seq<Row>, book: Book)
    requires n < |rows| && PassSoFar(rows, now, n, scene, before, mid) && Grew(before, mid) && Grew(mid, book)
    requires |now| <= |now'| && (forall i :: 0 <= i < |now| && i != n ==> now'[i] == now[i])
    requires forall i :: |now| <= i < |now'| ==> now'[i].status.RowPending?
    requires if rows[n].status.RowPending? then EntrySettled(rows[n], now'[n], mid, book, scene[n].pastWindow)
             else now'[n] == rows[n]
    ensures PassSoFar(rows, now', n + 1, scene, before, book)
  {
    forall i | 0 <= i < n && rows[i].status.RowPending?
      ensures EntrySettled(rows[i], now'[i], before, book, scene[i].pastWindow)
    {
      EntrySettledLasts(rows[i], now[i], before, mid, book, scene[i].pastWindow);
    }
    if rows[n].status.RowPending? {
      EntrySettledEarlier(rows[n], now'[n], before, mid, book, scene[n].pastWindow);
    }
  }

  /** One row of the pass, and the rung its fill calls for. */
  method SettleAndLadder(tb: Table, kx: Kraken, i: nat, known: map<Txid, Order>, scene: Scene)
    requires Sound(tb, kx) && i < |tb.rows| && tb.rows[i].status.RowPending?
    requires Seen(known, kx.book)
    modifies tb, kx`book, kx`safe, kx`trace
    ensures Sound(tb, kx) && Grew(old(kx.book), kx.book) && old(kx.trace) <= kx.trace
    ensures |old(tb.rows)| <= |tb.rows|
    ensures forall j :: 0 <= j < |old(tb.rows)| && j != i ==> tb.rows[j] == old(tb.rows)[j]
    ensures forall j :: |old(tb.rows)| <= j < |tb.rows| ==> tb.rows[j].status.RowPending?
    ensures |tb.rows| == |old(tb.rows)| || RungAdded(tb.rows, |old(tb.rows)|, i, scene)
    ensures EntrySettled(old(tb.rows)[i], tb.rows[i], old(kx.book), kx.book, scene.pastWindow)
    ensures var t := old(tb.rows)[i].txid;
            t.Some? && t.value in known && known[t.value].Terminal() ==> !tb.rows[i].status.RowPending?
    ensures var t := old(tb.rows)[i].txid;
            kx.calm && t.Some? && t.value in known && known[t.value] == old(kx.book)[t.value] ==>
              (tb.rows[i].status.RowPending?
               <==> !known[t.value].Terminal() && known[t.value].exec == 0 && !scene.ttlExpired)
    ensures kx.calm ==> CalmlySettled(old(tb.rows)[i], tb.rows[i], scene.pastWindow)
                        && OnlyTouched(old(kx.book), kx.book, tb.rows[i].txid)
    ensures var settled := tb.rows[..|old(tb.rows)|];
            kx.calm && RungDue(settled, i, scene) && !HasPendingEntry(settled, tb.rows[i].sym) ==>
              |tb.rows| == |old(tb.rows)| + 1
  {
    hide Inv, Grew, EntrySettled, Ladder.NextRung, RungLevel, LevelsOwned, Became, HasPendingEntry, Roomy;
    SettlePending(tb, kx, i, known, scene.pastWindow, scene.ttlExpired);
    if tb.rows[i].status.RowOpen? && 0 < scene.vol {
      ghost var was, now, mid := old(tb.rows)[i], tb.rows[i], kx.book;
      var row := tb.rows[i];
      ghost var unused := SomeRefIsFresh(tb.rows);
      assert FreshRef(tb.rows, unused);
      var userref: nat :| FreshRef(tb.rows, userref);
      ghost var settled := tb.rows;
      PlaceLadderRung(tb, kx, row.sym, row.stop, row.entry, scene.step, scene.live, scene.vol, userref,
                      scene.tpPct, scene.allowed);
      GrewTransitive(old(kx.book), mid, kx.book);
      EntrySettledLasts(was, now, old(kx.book), mid, kx.book, scene.pastWindow);
      assert tb.rows[..|settled|] == settled;
    } else {
      assert tb.rows[..|old(tb.rows)|] == tb.rows;
    }
  }

  /** The fill of row `i` calls for a rung, and one fits. */
  predicate RungDue(rows: seq<Row>, i: nat, s: Scene) {
    && i < |rows| && rows[i].status.RowOpen? && 0 < s.vol && s.allowed
    && RungLevel(rows, rows[i].sym, rows[i].entry, s.step, rows[i].stop, s.live).Some?
  }

  lemma RungDueLasts(was: seq<Row>, now: seq<Row>, i: nat, s: Scene)
    requires i < |was| && SamePair(was, now, was[i].sym)
    ensures RungDue(was, i, s) <==> RungDue(now, i, s)
  {
    hide RungLevel, Ladder.NextRung, LevelsOwned;
    var row := was[i];
    SameLevels(was, now, row.sym);
    NextRungExact(was, row.sym, row.entry, s.step, row.stop, s.live);
    NextRungExact(now, row.sym, row.entry, s.step, row.stop, s.live);
  }

  /** Row `n`, the last, was added as the rung that the fill of row `i` calls for, where no bid of
      its pair was pending. */
  ghost predicate RungAdded(rows: seq<Row>, n: nat, i: nat, s: Scene) {
    |rows| == n + 1 && !HasPendingEntry(rows[..n], rows[n].sym) && RungOf(rows[..n], i, rows[n], s)
  }

  /** The bids that the first `n` rows of the pass added: each the rung under a row that opened in
      it, and the only pending row of its pair. */
  ghost predicate Laddered(rows: seq<Row>, now: seq<Row>, n: nat, scene: seq<Scene>)
    requires |rows| == |scene| && |rows| <= |now|
  {
    && (forall j :: |rows| <= j < |now| ==> now[j].status.RowPending? && HasRungUnder(rows, now, n, scene, j))
    && (forall j, k :: |rows| <= j < |now| && 0 <= k < |now| && k != j && now[k].status.RowPending? ==>
                         now[k].sym != now[j].sym)
  }

  ghost predicate HasRungUnder(rows: seq<Row>, now: seq<Row>, n: nat, scene: seq<Scene>, j: nat)
    requires |rows| == |scene| && |rows| <= |now|
  {
    exists i :: RungUnder(rows, now, n, scene, i, j)
  }

  ghost predicate RungUnder(rows: seq<Row>, now: seq<Row>, n: nat, scene: seq<Scene>, i: nat, j: nat)
    requires |rows| == |scene| && |rows| <= |now|
  {
    i < n && i < |rows| && j < |now| && rows[i].status.RowPending? && RungOf(now, i, now[j], scene[i])
  }

  lemma RungUnderLasts(rows: seq<Row>, now: seq<Row>, n: nat, scene: seq<Scene>, i: nat, j: nat, now': seq<Row>)
    requires |rows| == |scene| && n < |rows| <= |now| <= |now'|
    requires RungUnder(rows, now, n, scene, i, j) && now'[j] == now[j] && SamePair(now, now', now[j].sym)
    ensures RungUnder(rows, now', n + 1, scene, i, j)
  {
    hide RungOf;
    RungLasts(now, now', i, now[j], scene[i]);
  }

  lemma LadderedSkip(rows: seq<Row>, now: seq<Row>, n: nat, scene: seq<Scene>)
    requires |rows| == |scene| && n < |rows| <= |now| && Laddered(rows, now, n, scene)
    ensures Laddered(rows, now, n + 1, scene)
  {
    hide RungOf;
    var m := n + 1;
    forall j | |rows| <= j < |now| ensures HasRungUnder(rows, now, m, scene, j) {
      assert HasRungUnder(rows, now, n, scene, j);
      var i :| RungUnder(rows, now, n, scene, i, j);
      assert RungUnder(rows, now, n + 1, scene, i, j);
    }
  }

  lemma LadderedStep(rows: seq<Row>, now: seq<Row>, n: nat, scene: seq<Scene>, now': seq<Row>)
    requires |rows| == |scene| && n < |rows| <= |now| <= |now'| && Laddered(rows, now, n, scene)
    requires rows[n].status.RowPending? && now[n] == rows[n] && now'[n].sym == rows[n].sym
    requires forall i :: 0 <= i < |now| && i != n ==> now'[i] == now[i]
    requires forall i :: |now| <= i < |now'| ==> now'[i].status.RowPending?
    requires |now'| == |now| || RungAdded(now', |now|, n, scene[n])
    ensures Laddered(rows, now', n + 1, scene)
  {
    hide RungOf;
    var m := n + 1;
    forall j | |rows| <= j < |now'| ensures HasRungUnder(rows, now', m, scene, j) {
      if j < |now| {
        assert HasRungUnder(rows, now, n, scene, j);
        var i :| RungUnder(rows, now, n, scene, i, j);
        RungUnderLasts(rows, now, n, scene, i, j, now');
      } else {
        RungLasts(now'[..|now|], now', n, now'[j], scene[n]);
        assert RungUnder(rows, now', n + 1, scene, n, j);
      }
    }
  }

  /** Row `i` was the only pending one of its pair. */
  predicate OnlyBid(rows: seq<Row>, i: nat)
    requires i < |rows|
  {
    forall k :: 0 <= k < |rows| && k != i && rows[k].status.RowPending? ==> rows[k].sym != rows[i].sym
  }

  /** No rung was missed among the first `n` rows: whoever opened as the only bid of its pair has
      the rung that its fill calls for, if one fits. */
  ghost predicate NoneMissed(rows: seq<Row>, now: seq<Row>, n: nat, scene: seq<Scene>)
    requires |rows| == |scene| && |rows| <= |now|
  {
    forall i: nat :: i < n && i < |rows| && rows[i].status.RowPending? && OnlyBid(rows, i) && RungDue(now, i, scene[i]) ==>
                       HasRungOver(rows, now, n, scene, i)
  }

  ghost predicate HasRungOver(rows: seq<Row>, now: seq<Row>, n: nat, scene: seq<Scene>, i: nat)
    requires |rows| == |scene| && |rows| <= |now|
  {
    exists j: nat :: |rows| <= j < |now| && RungUnder(rows, now, n, scene, i, j)
  }

  /** What the pass keeps of every row it found: its pair, and that only bids are pending. */
  ghost predicate PairsKept(rows: seq<Row>, now: seq<Row>) {
    |rows| <= |now|
    && forall k :: 0 <= k < |rows| ==> now[k].sym == rows[k].sym && (now[k].status.RowPending? ==> rows[k].status.RowPending?)
  }

  lemma PassKeepsPairs(rows: seq<Row>, now: seq<Row>, n: nat, scene: seq<Scene>, before: Book, book: Book)
    requires PassSoFar(rows, now, n, scene, before, book)
    ensures PairsKept(rows, now)
  {
    hide EntrySettled;
    forall k | 0 <= k < |rows| && k < n && rows[k].status.RowPending? ensures now[k].sym == rows[k].sym {
      EntryKeepsPair(rows[k], now[k], before, book, scene[k].pastWindow);
    }
  }

  lemma OtherPairStays(now: seq<Row>, n: nat, now': seq<Row>, sym: Pair)
    requires n < |now| <= |now'| && now[n].sym != sym && now'[n].sym != sym
    requires forall i :: 0 <= i < |now| && i != n ==> now'[i] == now[i]
    requires forall i :: |now| <= i < |now'| ==> now'[i].status.RowPending?
    ensures SamePair(now, now', sym)
  {
  }

  lemma NoneMissedEarlier(rows: seq<Row>, now: seq<Row>, n: nat, scene: seq<Scene>, now': seq<Row>, i: nat)
    requires |rows| == |scene| && i < n < |rows| <= |now| <= |now'| && NoneMissed(rows, now, n, scene) && PairsKept(rows, now)
    requires rows[n].status.RowPending? && now'[n].sym == rows[n].sym
    requires forall k :: 0 <= k < |now| && k != n ==> now'[k] == now[k]
    requires forall k :: |now| <= k < |now'| ==> now'[k].status.RowPending?
    requires rows[i].status.RowPending? && OnlyBid(rows, i) && RungDue(now', i, scene[i])
    ensures HasRungOver(rows, now', n + 1, scene, i)
  {
    hide RungOf, RungDue;
    OtherPairStays(now, n, now', now[i].sym);
    RungDueLasts(now, now', i, scene[i]);
    assert HasRungOver(rows, now, n, scene, i);
    var j: nat :| |rows| <= j < |now| && RungUnder(rows, now, n, scene, i, j);
    RungUnderPair(rows, now, n, scene, i, j);
    RungUnderLasts(rows, now, n, scene, i, j, now');
  }

  lemma RungUnderPair(rows: seq<Row>, now: seq<Row>, n: nat, scene: seq<Scene>, i: nat, j: nat)
    requires |rows| == |scene| && |rows| <= |now| && RungUnder(rows, now, n, scene, i, j)
    ensures i < n && i < |rows| && j < |now| && now[j].sym == now[i].sym && rows[i].status.RowPending?
  {
  }

  /** When a row opens as the only bid of its pair, no rung of the pair can have been added before. */
  lemma NoPendingLeft(rows: seq<Row>, now: seq<Row>, n: nat, scene: seq<Scene>, settled: seq<Row>)
    requires |rows| == |scene| && n < |rows| <= |now| == |settled| && Laddered(rows, now, n, scene) && PairsKept(rows, now)
    requires OnlyBid(rows, n) && settled[n].sym == rows[n].sym && settled[n].status.RowOpen?
    requires forall k :: 0 <= k < |now| && k != n ==> settled[k] == now[k]
    ensures !HasPendingEntry(settled, settled[n].sym)
  {
    hide RungOf;
    forall k | |rows| <= k < |now| ensures now[k].sym != rows[n].sym {
      assert HasRungUnder(rows, now, n, scene, k);
      var i :| RungUnder(rows, now, n, scene, i, k);
      RungUnderPair(rows, now, n, scene, i, k);
    }
  }

  lemma NoneMissedStep(rows: seq<Row>, now: seq<Row>, n: nat, scene: seq<Scene>, now': seq<Row>)
    requires |rows| == |scene| && n < |rows| <= |now| <= |now'| && Laddered(rows, now, n, scene)
    requires NoneMissed(rows, now, n, scene) && PairsKept(rows, now)
    requires rows[n].status.RowPending? && now[n] == rows[n] && now'[n].sym == rows[n].sym
    requires forall i :: 0 <= i < |now| && i != n ==> now'[i] == now[i]
    requires forall i :: |now| <= i < |now'| ==> now'[i].status.RowPending?
    requires |now'| == |now| || RungAdded(now', |now|, n, scene[n])
    requires RungDue(now'[..|now|], n, scene[n]) && !HasPendingEntry(now'[..|now|], now'[n].sym) ==> |now'| == |now| + 1
    ensures NoneMissed(rows, now', n + 1, scene)
  {
    hide RungOf, RungDue, Laddered, NoneMissed;
    var m := n + 1;
    forall i: nat | i < m && rows[i].status.RowPending? && OnlyBid(rows, i) && RungDue(now', i, scene[i])
      ensures HasRungOver(rows, now', m, scene, i)
    {
      if i < n {
        NoneMissedEarlier(rows, now, n, scene, now', i);
      } else {
        var settled := now'[..|now|];
        RungDueLasts(settled, now', n, scene[n]);
        assert settled[n].status.RowOpen? by { DueIsOpen(now', n, scene[n]); }
        NoPendingLeft(rows, now, n, scene, settled);
        RungLasts(settled, now', n, now'[|now|], scene[n]);
        assert RungUnder(rows, now', n + 1, scene, n, |now|);
      }
    }
    assert NoneMissed(rows, now', m, scene) by { NoneMissedFrom(rows, now', m, scene); }
  }

  lemma NoneMissedFrom(rows: seq<Row>, now: seq<Row>, n: nat, scene: seq<Scene>)
    requires |rows| == |scene| && |rows| <= |now|
    requires forall i: nat :: i < n && i < |rows| && rows[i].status.RowPending? && OnlyBid(rows, i) && RungDue(now, i, scene[i]) ==>
                                HasRungOver(rows, now, n, scene, i)
    ensures NoneMissed(rows, now, n, scene)
  {
  }

  lemma DueIsOpen(rows: seq<Row>, i: nat, s: Scene)
    requires RungDue(rows, i, s)
    ensures i < |rows| && rows[i].status.RowOpen?
  {
  }

  lemma NoneMissedSkip(rows: seq<Row>, now: seq<Row>, n: nat, scene: seq<Scene>)
    requires |rows| == |scene| && n < |rows| <= |now| && NoneMissed(rows, now, n, scene) && !rows[n].status.RowPending?
    ensures NoneMissed(rows, now, n + 1, scene)
  {
    hide RungOf, RungDue;
    var m := n + 1;
    forall i: nat | i < n && rows[i].status.RowPending? && OnlyBid(rows, i) && RungDue(now, i, scene[i])
      ensures HasRungOver(rows, now, m, scene, i)
    {
      assert HasRungOver(rows, now, n, scene, i);
      var j: nat :| |rows| <= j < |now| && RungUnder(rows, now, n, scene, i, j);
      assert RungUnder(rows, now, n + 1, scene, i, j);
    }
  }

  lemma EntryKeepsPair(was: Row, now: Row, before: Book, book: Book, pastWindow: bool)
    requires EntrySettled(was, now, before, book, pastWindow)
    ensures now.sym == was.sym && now.entry == was.entry
  {
  }

  /** Exactly the orders of the pending rows that know theirs. */
  ghost predicate ListsBids(rows: seq<Row>, ids: seq<Txid>) {
    forall t :: t in ids <==> exists i :: 0 <= i < |rows| && rows[i].status.RowPending? && rows[i].txid == Some(t)
  }

  method ListPending(rows: seq<Row>) returns (ids: seq<Txid>)
    ensures ListsBids(rows, ids)
  {
    ids := [];
    for i := 0 to |rows|
      invariant forall t :: t in ids <==> exists j :: 0 <= j < i && rows[j].status.RowPending? && rows[j].txid == Some(t)
    {
      if rows[i].status.RowPending? && rows[i].txid.Some? {
        ids := ids + [rows[i].txid.value];
      }
    }
  }

  /** The known orders of pending rows are theirs alone: no other pending row knows the same one,
      or could find it by its reference. */
  ghost predicate EntriesApart(rows: seq<Row>, book: Book) {
    forall i, j :: 0 <= i < |rows| && 0 <= j < |rows| && i != j && rows[i].status.RowPending? && rows[j].status.RowPending?
                   && rows[j].txid.Some? && rows[j].txid.value < |book| ==>
                     rows[i].txid != rows[j].txid
                     && (rows[i].txid.None? ==> !HasRef(book, rows[j].txid.value, rows[i].userref))
  }

  /** On a closed account they are. */
  lemma ClosedEntriesApart(rows: seq<Row>, tags: Tags, book: Book)
    requires Inv(rows, tags, book)
    ensures EntriesApart(rows, book)
  {
    forall i, j | 0 <= i < |rows| && 0 <= j < |rows| && i != j && rows[j].txid.Some? && rows[j].txid.value < |book|
      ensures rows[i].txid != rows[j].txid && !HasRef(book, rows[j].txid.value, rows[i].userref)
    {
      assert RowOk(i, rows[i], tags.entryOf[i], tags.booked[i], tags, book);
      assert RowOk(j, rows[j], tags.entryOf[j], tags.booked[j], tags, book);
    }
  }

  /** A pending row on what its order was when the pass began: it stays pending exactly if the
      order is resting, has filled nothing and has not outlived its time. */
  predicate SettledBy(was: Row, now: Row, before: Book, ttlExpired: bool) {
    was.status.RowPending? && was.txid.Some? && was.txid.value < |before| ==>
      var o := before[was.txid.value];
      (now.status.RowPending? <==> !o.Terminal() && o.exec == 0 && !ttlExpired)
  }

  /** The pass after its first `n` rows when every call is answered. */
  ghost predicate CalmPass(rows: seq<Row>, now: seq<Row>, n: nat, scene: seq<Scene>, before: Book, apart: bool)
    requires |rows| == |scene| && |rows| <= |now|
  {
    forall i :: 0 <= i < |rows| && i < n && rows[i].status.RowPending? ==>
                  && CalmlySettled(rows[i], now[i], scene[i].pastWindow)
                  && (apart ==> SettledBy(rows[i], now[i], before, scene[i].ttlExpired))
  }

  /** The orders of the pending rows still to come are as they were. */
  ghost predicate StillAsRead(rows: seq<Row>, n: nat, before: Book, book: Book) {
    forall j :: 0 <= j < |rows| && n <= j && rows[j].status.RowPending? && rows[j].txid.Some?
                && rows[j].txid.value < |before| ==>
                  rows[j].txid.value < |book| && book[rows[j].txid.value] == before[rows[j].txid.value]
  }

  lemma StillAsReadStep(rows: seq<Row>, n: nat, before: Book, mid: Book, t: Option<Txid>, book: Book)
    requires n < |rows| && rows[n].status.RowPending? && StillAsRead(rows, n, before, mid) && EntriesApart(rows, before)
    requires Grew(before, book) && OnlyTouched(mid, book, t)
    requires t == rows[n].txid || (rows[n].txid.None? && t.Some? && HasRef(book, t.value, rows[n].userref))
    ensures StillAsRead(rows, n + 1, before, book)
  {
    forall j | n < j < |rows| && rows[j].status.RowPending? && rows[j].txid.Some? && rows[j].txid.value < |before|
      ensures t != rows[j].txid
    {
      assert Became(before[rows[j].txid.value], book[rows[j].txid.value]);
    }
  }

  /** A settled row knows the order it knew, or found one by its reference. */
  lemma SettledLearned(was: Row, now: Row, before: Book, book: Book, pastWindow: bool)
    requires EntrySettled(was, now, before, book, pastWindow)
    ensures now.txid == was.txid || (was.txid.None? && now.txid.Some? && HasRef(book, now.txid.value, was.userref))
  {
  }

  /** Wherever the answers showed a finished order, the row has left `pending`. */
  ghost predicate DefiniteLeft(rows: seq<Row>, now: seq<Row>, n: nat, known: map<Txid, Order>)
    requires |rows| <= |now|
  {
    forall i :: 0 <= i < |rows| && i < n && rows[i].status.RowPending? && rows[i].txid.Some?
                && rows[i].txid.value in known && known[rows[i].txid.value].Terminal() ==>
                  !now[i].status.RowPending?
  }

  /** The promotion pass after its first `n` rows, with all it keeps. */
  ghost predicate Promoting(rows: seq<Row>, now: seq<Row>, n: nat, scene: seq<Scene>, known: map<Txid, Order>,
                            before: Book, book: Book, calm: bool, apart: bool)
  {
    && Grew(before, book) && Seen(known, book)
    && PassSoFar(rows, now, n, scene, before, book) && Laddered(rows, now, n, scene)
    && DefiniteLeft(rows, now, n, known)
    && (calm ==> CalmPass(rows, now, n, scene, before, apart) && (apart ==> StillAsRead(rows, n, before, book))
                 && NoneMissed(rows, now, n, scene))
  }

  lemma PromotingStart(rows: seq<Row>, scene: seq<Scene>, known: map<Txid, Order>, book: Book, calm: bool, apart: bool)
    requires |scene| == |rows| && Seen(known, book)
    ensures Promoting(rows, rows, 0, scene, known, book, book, calm, apart)
  {
  }

  lemma PromotingSkip(rows: seq<Row>, now: seq<Row>, n: nat, scene: seq<Scene>, known: map<Txid, Order>, before: Book,
                      book: Book, calm: bool, apart: bool)
    requires n < |rows| && Promoting(rows, now, n, scene, known, before, book, calm, apart) && !rows[n].status.RowPending?
    ensures Promoting(rows, now, n + 1, scene, known, before, book, calm, apart)
  {
    hide EntrySettled, CalmlySettled, SettledBy, Grew, Seen, Laddered, NoneMissed;
    LadderedSkip(rows, now, n, scene);
    if calm {
      NoneMissedSkip(rows, now, n, scene);
    }
  }

  lemma PromotingStep(rows: seq<Row>, now: seq<Row>, n: nat, scene: seq<Scene>, known: map<Txid, Order>, before: Book,
                      mid: Book, now': seq<Row>, book: Book, calm: bool, apart: bool)
    requires n < |rows| && Promoting(rows, now, n, scene, known, before, mid, calm, apart) && Grew(mid, book)
    requires rows[n].status.RowPending? && |now| <= |now'|
    requires forall i :: 0 <= i < |now| && i != n ==> now'[i] == now[i]
    requires forall i :: |now| <= i < |now'| ==> now'[i].status.RowPending?
    requires |now'| == |now| || RungAdded(now', |now|, n, scene[n])
    requires EntrySettled(rows[n], now'[n], mid, book, scene[n].pastWindow)
    requires var t := rows[n].txid;
             t.Some? && t.value in known && known[t.value].Terminal() ==> !now'[n].status.RowPending?
    requires calm ==> CalmlySettled(rows[n], now'[n], scene[n].pastWindow)
    requires calm && RungDue(now'[..|now|], n, scene[n]) && !HasPendingEntry(now'[..|now|], now'[n].sym) ==> |now'| == |now| + 1
    requires calm && apart ==> SettledBy(rows[n], now'[n], before, scene[n].ttlExpired) && StillAsRead(rows, n + 1, before, book)
    ensures Promoting(rows, now', n + 1, scene, known, before, book, calm, apart)
  {
    hide EntrySettled, CalmlySettled, SettledBy, StillAsRead, Seen, Grew, PassSoFar, Laddered, RungAdded, NoneMissed, RungDue,
      HasPendingEntry;
    PassKeepsPairs(rows, now, n, scene, before, mid);
    PassRows(rows, now, n, scene, before, mid);
    EntryKeepsPair(rows[n], now'[n], mid, book, scene[n].pastWindow);
    LadderedStep(rows, now, n, scene, now');
    if calm {
      NoneMissedStep(rows, now, n, scene, now');
    }
    PassStep(rows, now, n, scene, before, mid, now', book);
    GrewTransitive(before, mid, book);
    SeenLasts(known, mid, book);
  }

  lemma PassRows(rows: seq<Row>, now: seq<Row>, n: nat, scene: seq<Scene>, before: Book, book: Book)
    requires PassSoFar(rows, now, n, scene, before, book)
    ensures |rows| == |scene| && |rows| <= |now| && forall i :: n <= i < |rows| ==> now[i] == rows[i]
  {
  }

  /** A pending row of the pass in its turn. */
  method PromoteNext(tb: Table, kx: Kraken, i: nat, rows: seq<Row>, known: map<Txid, Order>, scene: seq<Scene>,
                     ghost before: Book, ghost apart: bool)
    requires Sound(tb, kx) && i < |rows| && rows[i].status.RowPending? && (apart ==> EntriesApart(rows, before))
    requires Promoting(rows, tb.rows, i, scene, known, before, kx.book, kx.calm, apart)
    requires kx.calm ==> AnsweredAll(rows, known, before)
    modifies tb, kx`book, kx`safe, kx`trace
    ensures Sound(tb, kx) && Grew(old(kx.book), kx.book) && old(kx.trace) <= kx.trace
    ensures Promoting(rows, tb.rows, i + 1, scene, known, before, kx.book, kx.calm, apart)
  {
    hide Inv, Grew, EntrySettled, Became, SettledBy, CalmlySettled, OnlyTouched, StillAsRead, DefiniteLeft, CalmPass, Seen,
      EntriesApart, Laddered, RungAdded, NoneMissed, RungDue, HasPendingEntry;
    ghost var now, mid := tb.rows, kx.book;
    SettleAndLadder(tb, kx, i, known, scene[i]);
    if kx.calm && apart {
      CalmRow(rows[i], tb.rows[i], i, rows, before, mid, known, scene[i].ttlExpired);
      SettledLearned(rows[i], tb.rows[i], mid, kx.book, scene[i].pastWindow);
      GrewTransitive(before, mid, kx.book);
      StillAsReadStep(rows, i, before, mid, tb.rows[i].txid, kx.book);
    }
    PromotingStep(rows, now, i, scene, known, before, mid, tb.rows, kx.book, kx.calm, apart);
  }

  /** The answer has the order of every pending row as it was. */
  ghost predicate AnsweredAll(rows: seq<Row>, known: map<Txid, Order>, before: Book) {
    forall i :: 0 <= i < |rows| && rows[i].status.RowPending? && rows[i].txid.Some? && rows[i].txid.value < |before| ==>
                  rows[i].txid.value in known && known[rows[i].txid.value] == before[rows[i].txid.value]
  }

  /** The first call of a stretch asked for the orders of all pending rows, and this was the answer. */
  ghost predicate BidsAsked(before: seq<Call>, after: seq<Call>, rows: seq<Row>, known: map<Txid, Order>) {
    && |before| < |after|
    && var asked := after[|before|]; asked.AskedStatuses? && asked.seen == known && ListsBids(rows, asked.ids)
  }

  /** The promotion pass: one batched status read of the orders of all pending rows, then every
      row that is pending when it starts is settled against it, and a fill bids the next rung
      of its chain. When every call is answered, a row is left pending only if its order rests
      untouched in its time (as long as no two rows could mean the same order), and every row
      that opened has its stop. */
  method PromoteAll(tb: Table, kx: Kraken, scene: seq<Scene>) returns (ghost known: map<Txid, Order>)
    requires Sound(tb, kx) && |scene| == |tb.rows|
    modifies tb, kx`book, kx`safe, kx`trace
    ensures Sound(tb, kx) && Grew(old(kx.book), kx.book) && old(kx.trace) <= kx.trace
    ensures BidsAsked(old(kx.trace), kx.trace, old(tb.rows), known)
    ensures PassSoFar(old(tb.rows), tb.rows, |old(tb.rows)|, scene, old(kx.book), kx.book)
    ensures |old(tb.rows)| <= |tb.rows| && Laddered(old(tb.rows), tb.rows, |old(tb.rows)|, scene)
    ensures DefiniteLeft(old(tb.rows), tb.rows, |old(tb.rows)|, known)
    ensures kx.calm ==> AnsweredAll(old(tb.rows), known, old(kx.book))
                        && CalmPass(old(tb.rows), tb.rows, |old(tb.rows)|, scene, old(kx.book),
                                    EntriesApart(old(tb.rows), old(kx.book)))
                        && NoneMissed(old(tb.rows), tb.rows, |old(tb.rows)|, scene)
    ensures kx.closed ==> EntriesApart(old(tb.rows), old(kx.book))
  {
    hide Inv, Grew, Promoting, PassSoFar, Laddered, DefiniteLeft, CalmPass, NoneMissed, Became, Seen, AnsweredAll, ListsBids, EntriesApart;
    var rows := tb.rows;
    ghost var apart := kx.calm && EntriesApart(rows, kx.book);
    if kx.closed {
      ClosedEntriesApart(rows, tb.tags, kx.book);
    }
    ghost var before, told := kx.book, kx.trace;
    var ids := ListPending(rows);
    var answer := QueryOrders(tb, kx, ids);
    known := answer;
    ghost var read, asked := kx.book, kx.trace;
    PromotingStart(rows, scene, answer, read, kx.calm, apart);
    if kx.calm {
      AllAnswered(rows, ids, answer, read);
    }
    GrewReflexive(read);
    for i := 0 to |rows|
      invariant Sound(tb, kx) && Grew(read, kx.book) && asked <= kx.trace
      invariant Promoting(rows, tb.rows, i, scene, answer, read, kx.book, kx.calm, apart)
    {
      if rows[i].status.RowPending? {
        ghost var mid := kx.book;
        PromoteNext(tb, kx, i, rows, answer, scene, read, apart);
        GrewTransitive(read, mid, kx.book);
      } else {
        PromotingSkip(rows, tb.rows, i, scene, answer, read, kx.book, kx.calm, apart);
      }
    }
    PromotingMeans(rows, tb.rows, |rows|, scene, answer, read, kx.book, kx.calm, apart);
    PassEarlier(rows, tb.rows, scene, before, read, kx.book);
    GrewTransitive(before, read, kx.book);
    assert told < asked && asked <= kx.trace;
  }

  lemma AllAnswered(rows: seq<Row>, ids: seq<Txid>, known: map<Txid, Order>, book: Book)
    requires ListsBids(rows, ids) && forall t :: t in ids && t < |book| ==> t in known && known[t] == book[t]
    ensures AnsweredAll(rows, known, book)
  {
  }

  lemma PassEarlier(rows: seq<Row>, now: seq<Row>, scene: seq<Scene>, older: Book, before: Book, book: Book)
    requires PassSoFar(rows, now, |rows|, scene, before, book) && Grew(older, before)
    ensures PassSoFar(rows, now, |rows|, scene, older, book)
  {
    hide EntrySettled, Grew;
    forall i | 0 <= i < |rows| && rows[i].status.RowPending?
      ensures EntrySettled(rows[i], now[i], older, book, scene[i].pastWindow)
    {
      EntrySettledEarlier(rows[i], now[i], older, before, book, scene[i].pastWindow);
    }
  }

  lemma PromotingMeans(rows: seq<Row>, now: seq<Row>, n: nat, scene: seq<Scene>, known: map<Txid, Order>, before: Book,
                       book: Book, calm: bool, apart: bool)
    requires Promoting(rows, now, n, scene, known, before, book, calm, apart)
    ensures PassSoFar(rows, now, n, scene, before, book) && |rows| <= |now| && |rows| == |scene|
    ensures Laddered(rows, now, n, scene)
    ensures DefiniteLeft(rows, now, n, known)
    ensures calm ==> CalmPass(rows, now, n, scene, before, apart) && NoneMissed(rows, now, n, scene)
  {
  }

  lemma CalmRow(was: Row, now: Row, i: nat, rows: seq<Row>, before: Book, mid: Book, known: map<Txid, Order>, ttlExpired: bool)
    requires i < |rows| && rows[i] == was && was.status.RowPending? && StillAsRead(rows, i, before, mid)
    requires was.txid.Some? && was.txid.value < |before| ==>
               was.txid.value in known && known[was.txid.value] == before[was.txid.value]
    requires var t := was.txid;
             t.Some? && t.value in known && t.value < |mid| && known[t.value] == mid[t.value] ==>
               (now.status.RowPending? <==> !known[t.value].Terminal() && known[t.value].exec == 0 && !ttlExpired)
    ensures SettledBy(was, now, before, ttlExpired)
  {
  }
}

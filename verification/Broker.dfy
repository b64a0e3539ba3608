/** The broker calls as the bot makes them: the ledger is not touched, the market moves,
    and whatever the ledger guaranteed about the exchange it still guarantees. */
module Broker {
  import opened Wrappers
  import opened Exchange
  import opened Ledger

  /** What holds whenever the bot's code is between two statements. Always: no row has two
      ways out, and recorded exits exist. If nobody else trades the account also the ledger invariant, and a history
      without a single uncovered moment. */
  ghost predicate Sound(tb: Table, kx: Kraken)
    reads tb, kx
  {
    && OneExitEach(tb.rows) && Recorded(tb.rows, kx.book)
    && (kx.closed ==> Inv(tb.rows, tb.tags, kx.book) && kx.safe)
  }

  predicate Moved(was: Book, now: Book, calm: bool) {
    Grew(was, now) && (calm ==> now == was)
  }

  /** Orders were added, and of those already there at most `t` changed. */
  predicate OnlyTouched(was: Book, now: Book, t: Option<Txid>) {
    |was| <= |now| && forall u: Txid :: u < |was| && t != Some(u) ==> now[u] == was[u]
  }

  lemma MovedTransitive(a: Book, b: Book, c: Book, calm: bool)
    requires Moved(a, b, calm) && Moved(b, c, calm)
    ensures Moved(a, c, calm)
  {
  }

  /** Every entry of an answer shows an order as it was at some moment up to now. */
  ghost predicate Seen(info: map<Txid, Order>, book: Book) {
    forall t :: t in info ==> t < |book| && Became(info[t], book[t])
  }

  lemma SeenExists(info: map<Txid, Order>, book: Book)
    requires Seen(info, book)
    ensures forall t :: t in info ==> t < |book|
  {
  }

  lemma SeenLasts(info: map<Txid, Order>, was: Book, now: Book)
    requires Seen(info, was) && Grew(was, now)
    ensures Seen(info, now)
  {
  }

  /** A finished order reads as it stays. */
  lemma SeenTerminal(info: map<Txid, Order>, book: Book, t: Txid)
    requires Seen(info, book) && t in info && info[t].Terminal()
    ensures t < |book| && book[t] == info[t]
  {
  }

  /** Entries without a single long volume among them: a response of the wrong shape. */
  predicate WrongShape(m: Positions) {
    m != map[] && forall p :: p in m ==> m[p] == 0
  }

  method Shapeless(m: Option<Positions>) returns (wrong: bool)
    ensures wrong <==> m.Some? && WrongShape(m.value)
  {
    wrong := m.Some? && m.value != map[] && !exists p :: p in m.value && 0 < m.value[p];
  }

  /** A covered account never reports one. */
  lemma CoveredShape(book: Book)
    requires Covered(book)
    ensures !WrongShape(PositionsOf(book))
  {
    forall p: Pair ensures 0 <= Net(book, p) {
      FreeIsNetLessResting(book, p);
      assert RestingSells(book, p) <= Net(book, p);
    }
  }

  // ── what was asked, and what was answered ───────────────────────────────────

  /** A call was made between two moments of the record. */
  ghost predicate Told(before: seq<Call>, after: seq<Call>, c: Call) {
    exists k :: |before| <= k < |after| && after[k] == c
  }

  /** The position was asked for between two moments, and this was the answer; on a closed
      account it is the position of the book at that time. */
  ghost predicate PositionRead(closed: bool, before: seq<Call>, after: seq<Call>, was: Book, now: Book,
                               long: Option<Positions>)
  {
    exists at: Book ::
      Told(before, after, AskedPositions(long, at)) && Grew(was, at) && Grew(at, now)
      && (closed && long.Some? ==> long.value == PositionsOf(at))
  }

  /** OpenOrders was asked for between two moments, and this was the answer. */
  ghost predicate OrdersRead(before: seq<Call>, after: seq<Call>, was: Book, now: Book, open: Option<map<Txid, Order>>) {
    exists at: Book ::
      Told(before, after, AskedOrders(open, at)) && Grew(was, at) && Grew(at, now)
      && (open.Some? ==> Shown(open.value, at))
  }

  /** Exactly the resting orders of a book. */
  ghost predicate Shown(open: map<Txid, Order>, book: Book) {
    && (forall t: Txid :: t in open <==> t < |book| && book[t].status.Resting?)
    && forall t :: t in open ==> open[t] == book[t]
  }

  lemma JustTold(before: seq<Call>, c: Call)
    ensures Told(before, before + [c], c)
  {
    assert (before + [c])[|before|] == c;
  }

  lemma ToldWithin(a: seq<Call>, before: seq<Call>, after: seq<Call>, b: seq<Call>, c: Call)
    requires Told(before, after, c) && a <= before && after <= b
    ensures Told(a, b, c)
  {
    var k :| |before| <= k < |after| && after[k] == c;
    assert b[k] == c;
  }

  /** A reading made in a part of a stretch was made in the stretch. */
  lemma PositionReadWithin(closed: bool, a: seq<Call>, before: seq<Call>, after: seq<Call>, b: seq<Call>,
                           earlier: Book, was: Book, now: Book, later: Book, long: Option<Positions>)
    requires PositionRead(closed, before, after, was, now, long) && a <= before && after <= b
    requires Grew(earlier, was) && Grew(now, later)
    ensures PositionRead(closed, a, b, earlier, later, long)
  {
    hide PositionsOf, Grew, Told;
    var at: Book :| Told(before, after, AskedPositions(long, at)) && Grew(was, at) && Grew(at, now)
                    && (closed && long.Some? ==> long.value == PositionsOf(at));
    ToldWithin(a, before, after, b, AskedPositions(long, at));
    GrewTransitive(earlier, was, at);
    GrewTransitive(at, now, later);
  }

  lemma OrdersReadWithin(a: seq<Call>, before: seq<Call>, after: seq<Call>, b: seq<Call>,
                         earlier: Book, was: Book, now: Book, later: Book, open: Option<map<Txid, Order>>)
    requires OrdersRead(before, after, was, now, open) && a <= before && after <= b
    requires Grew(earlier, was) && Grew(now, later)
    ensures OrdersRead(a, b, earlier, later, open)
  {
    hide Shown, Grew, Told;
    var at: Book :| Told(before, after, AskedOrders(open, at)) && Grew(was, at) && Grew(at, now)
                    && (open.Some? ==> Shown(open.value, at));
    ToldWithin(a, before, after, b, AskedOrders(open, at));
    GrewTransitive(earlier, was, at);
    GrewTransitive(at, now, later);
  }

  method OpenPositions(tb: Table, kx: Kraken) returns (r: Option<Positions>)
    requires Sound(tb, kx)
    modifies kx`book, kx`safe, kx`trace
    ensures Sound(tb, kx) && Moved(old(kx.book), kx.book, kx.calm)
    ensures kx.trace == old(kx.trace) + [AskedPositions(r, kx.book)]
    ensures PositionRead(kx.closed, old(kx.trace), kx.trace, old(kx.book), kx.book, r)
    ensures kx.calm ==> r.Some?
    ensures kx.closed && r.Some? ==> r.value == PositionsOf(kx.book)
  {
    ghost var was := kx.book;
    ghost var es;
    if kx.closed { InvCovered(tb.rows, tb.tags, was); }
    r, es := kx.OpenPositions();
    if kx.closed { InvPlay(tb.rows, tb.tags, was, es); }
    JustTold(old(kx.trace), AskedPositions(r, kx.book));
    GrewReflexive(kx.book);
  }

  method OpenOrders(tb: Table, kx: Kraken) returns (r: Option<map<Txid, Order>>)
    requires Sound(tb, kx)
    modifies kx`book, kx`safe, kx`trace
    ensures Sound(tb, kx) && Moved(old(kx.book), kx.book, kx.calm)
    ensures kx.trace == old(kx.trace) + [AskedOrders(r, kx.book)]
    ensures OrdersRead(old(kx.trace), kx.trace, old(kx.book), kx.book, r)
    ensures kx.calm ==> r.Some?
    ensures r.Some? ==> Shown(r.value, kx.book)
  {
    ghost var was := kx.book;
    ghost var es;
    if kx.closed { InvCovered(tb.rows, tb.tags, was); }
    r, es := kx.OpenOrders();
    if kx.closed { InvPlay(tb.rows, tb.tags, was, es); }
    JustTold(old(kx.trace), AskedOrders(r, kx.book));
    GrewReflexive(kx.book);
  }

  /** query_orders: one entry per order whose status could be read; a txid that is missing
      from the answer is UNKNOWN, never gone. A finished order reads as it will stay. */
  method QueryOrders(tb: Table, kx: Kraken, ids: seq<Txid>) returns (m: map<Txid, Order>)
    requires Sound(tb, kx)
    modifies kx`book, kx`safe, kx`trace
    ensures Sound(tb, kx) && Moved(old(kx.book), kx.book, kx.calm)
    ensures kx.trace == old(kx.trace) + [AskedStatuses(ids, m, kx.book)]
    ensures Seen(m, kx.book) && forall t :: t in m ==> t in ids
    ensures forall t :: t in m && t < |old(kx.book)| ==> Became(old(kx.book)[t], m[t])
    ensures kx.calm ==> forall t :: t in ids && t < |kx.book| ==> t in m && m[t] == kx.book[t]
  {
    ghost var was := kx.book;
    ghost var es;
    if kx.closed { InvCovered(tb.rows, tb.tags, was); }
    m, es := kx.QueryOrders(ids);
    if kx.closed { InvPlay(tb.rows, tb.tags, was, es); }
  }

  method QueryOrder(tb: Table, kx: Kraken, t: Txid) returns (o: Option<Order>)
    requires Sound(tb, kx)
    modifies kx`book, kx`safe, kx`trace
    ensures Sound(tb, kx) && Moved(old(kx.book), kx.book, kx.calm) && old(kx.trace) <= kx.trace
    ensures o.Some? ==> t < |kx.book| && Became(o.value, kx.book[t])
    ensures o.Some? && t < |old(kx.book)| ==> Became(old(kx.book)[t], o.value)
    ensures kx.calm && t < |kx.book| ==> o == Some(kx.book[t])
  {
    var m := QueryOrders(tb, kx, [t]);
    o := if t in m then Some(m[t]) else None;
  }

  method CancelOrder(tb: Table, kx: Kraken, t: Txid) returns (ok: bool)
    requires Sound(tb, kx)
    modifies kx`book, kx`safe, kx`trace
    ensures Sound(tb, kx) && Grew(old(kx.book), kx.book)
    ensures kx.trace == old(kx.trace) + [SentCancel(t, ok, kx.book)]
    ensures ok ==> t < |kx.book| && kx.book[t].status.Canceled?
    ensures ok && t < |old(kx.book)| ==> old(kx.book)[t].status.Resting?
    ensures kx.calm ==> (ok <==> t < |old(kx.book)| && old(kx.book)[t].status.Resting?)
    ensures kx.calm ==> kx.book == if ok then Step(old(kx.book), Kill(t, false)) else old(kx.book)
  {
    ghost var was := kx.book;
    ghost var es;
    if kx.closed { InvCovered(tb.rows, tb.tags, was); }
    ok, es := kx.CancelOrder(t);
    if kx.closed { InvPlay(tb.rows, tb.tags, was, es); }
  }

  datatype Lookup = Found(txid: Txid) | Absent | Unknown

  /** find_order_by_userref: resting orders first, finished ones second. In that order an
      order cannot slip through by finishing between the two reads, so once the resolve
      window has passed `Absent` is proof that the order never landed. */
  method FindOrderByUserref(tb: Table, kx: Kraken, userref: nat, pastWindow: bool)
    returns (r: Lookup)
    requires Sound(tb, kx)
    modifies kx`book, kx`safe, kx`trace
    ensures Sound(tb, kx) && Moved(old(kx.book), kx.book, kx.calm) && old(kx.trace) <= kx.trace
    ensures r.Found? ==> HasRef(kx.book, r.txid, userref)
    ensures r.Absent? && pastWindow ==> forall t: Txid :: t < |old(kx.book)| ==> !HasRef(old(kx.book), t, userref)
    ensures kx.calm ==> !r.Unknown?
  {
    ghost var was := kx.book;
    ghost var es;
    if kx.closed { InvCovered(tb.rows, tb.tags, was); }
    var oo;
    oo, es := kx.OrdersByRef(userref, true, pastWindow);
    if kx.closed { InvPlay(tb.rows, tb.tags, was, es); }
    if oo.None? {
      return Unknown;
    }
    if oo.value.Some? {
      return Found(oo.value.value);
    }
    ghost var mid := kx.book;
    var co;
    if kx.closed { InvCovered(tb.rows, tb.tags, mid); }
    co, es := kx.OrdersByRef(userref, false, pastWindow);
    if kx.closed { InvPlay(tb.rows, tb.tags, mid, es); }
    MovedTransitive(was, mid, kx.book, kx.calm);
    if co.None? {
      return Unknown;
    }
    if co.value.Some? {
      return Found(co.value.value);
    }
    if pastWindow {
      forall t: Txid | t < |was| ensures !HasRef(was, t, userref) {
        assert Became(was[t], mid[t]) && Became(mid[t], kx.book[t]);
        assert HasRef(was, t, userref) ==> HasRef(mid, t, userref) && HasRef(kx.book, t, userref);
      }
    }
    return Absent;
  }
}

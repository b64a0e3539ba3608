/** The margin account on the other side of the broker: the orders this account ever
    placed, each with what it has executed, and the calls the bot makes against them.

    Volumes count lots (the pair's smallest tradable unit), so the volume tolerances of
    the program are zero here. Prices are real numbers in ticks of the pair. An order's
    txid is its index in the book; orders are never forgotten and ids never reused. */
module Exchange {
  import opened Wrappers
  import opened Sums

  type Pair = nat
  type Txid = nat

  datatype Side = Buy | Sell
  datatype Kind = Limit | StopLoss
  datatype Status = Resting | Closed | Canceled | Expired
  datatype Order = Order(pair: Pair, side: Side, kind: Kind, price: real, vol: nat,
                         exec: nat, status: Status, userref: nat)
  {
    predicate Terminal() {
      !status.Resting?
    }

    /** A limit order may fill in parts; a stop executes as a whole or not at all. */
    predicate Ok() {
      && exec <= vol
      && (status.Closed? ==> exec == vol)
      && (status.Resting? ==> exec < vol)
      && (kind.StopLoss? ==> exec == 0 || status.Closed?)
    }
  }

  type Book = seq<Order>

  ghost predicate BookOk(book: Book) {
    forall t :: 0 <= t < |book| ==> book[t].Ok()
  }

  // ── what the market may do to a resting order between two calls ──────────────

  datatype Event = Fill(t: Txid, q: nat) | Kill(t: Txid, expired: bool)

  /** A fill of a stop takes all of it. An event that names no resting order is void. */
  function Apply(o: Order, e: Event): Order {
    if o.Terminal() then o
    else match e
      case Fill(_, q) =>
        var done := if o.kind.StopLoss? || o.vol < o.exec + q then o.vol else o.exec + q;
        o.(exec := done, status := if done == o.vol then Closed else Resting)
      case Kill(_, expired) => o.(status := if expired then Expired else Canceled)
  }

  function Step(book: Book, e: Event): (after: Book)
    ensures |after| == |book|
  {
    if e.t < |book| then book[e.t := Apply(book[e.t], e)] else book
  }

  function Play(book: Book, es: seq<Event>): (after: Book)
    ensures |after| == |book|
  {
    if |es| == 0 then book else Step(Play(book, es[..|es| - 1]), es[|es| - 1])
  }

  /** `now` is what `was` can have become: same terms, no less executed, and a finished
      order stays exactly what it is. */
  predicate Became(was: Order, now: Order) {
    && now.pair == was.pair && now.side == was.side && now.kind == was.kind
    && now.price == was.price && now.vol == was.vol && now.userref == was.userref
    && (was.Terminal() ==> now == was)
    && (was.Ok() ==> was.exec <= now.exec && now.Ok())
  }

  predicate Grew(was: Book, now: Book) {
    && |was| <= |now|
    && forall t :: 0 <= t < |was| ==> Became(was[t], now[t])
  }

  lemma GrewReflexive(book: Book)
    ensures Grew(book, book)
  {
  }

  lemma GrewTransitive(a: Book, b: Book, c: Book)
    requires Grew(a, b) && Grew(b, c)
    ensures Grew(a, c)
    ensures |a| <= |b| <= |c|
  {
  }

  lemma {:induction false} PlayGrew(book: Book, es: seq<Event>)
    ensures Grew(book, Play(book, es))
  {
    if |es| > 0 {
      var n := |es| - 1;
      PlayGrew(book, es[..n]);
      assert Grew(Play(book, es[..n]), Play(book, es));
      GrewTransitive(book, Play(book, es[..n]), Play(book, es));
    }
  }

  // ── net position and resting sells of a pair ────────────────────────────────

  function Signed(o: Order, p: Pair): int {
    if o.pair != p then 0 else if o.side.Buy? then o.exec else 0 - o.exec
  }

  function RestingSell(o: Order, p: Pair): nat
    requires o.Ok()
  {
    if o.pair == p && o.side.Sell? && o.status.Resting? then o.vol - o.exec else 0
  }

  /** The market is free: between two calls a resting order can end up in any state it can have become,
      except canceled or expired after it had executed in full. */
  lemma MarketIsFree(was: Order, now: Order, t: Txid) returns (fill: Event, kill: Event)
    requires was.Ok() && was.status.Resting? && Became(was, now) && (now.exec == now.vol ==> now.status.Closed?)
    ensures fill.t == t == kill.t
    ensures now == was || Apply(was, fill) == now || Apply(Apply(was, fill), kill) == now
  {
    fill, kill := Fill(t, now.exec - was.exec), Kill(t, now.status.Expired?);
    if was.kind.StopLoss? && !now.status.Closed? {
      fill := kill;
    }
  }

  /** What an order leaves free for further sells: executed buys give, sells take their
      whole volume while they rest and their executed volume afterwards. */
  function Slack(o: Order, p: Pair): int {
    if o.pair != p then 0
    else if o.side.Buy? then o.exec
    else if o.status.Resting? then 0 - o.vol
    else 0 - o.exec
  }

  function Slacks(book: Book, p: Pair): seq<int> {
    seq(|book|, t requires 0 <= t < |book| => Slack(book[t], p))
  }

  /** Net position of pair `p`: executed buys minus executed sells. */
  function Net(book: Book, p: Pair): int {
    Sum(seq(|book|, t requires 0 <= t < |book| => Signed(book[t], p)))
  }

  ghost function RestingSells(book: Book, p: Pair): int
    requires BookOk(book)
  {
    Sum(seq(|book|, t requires 0 <= t < |book| => RestingSell(book[t], p)))
  }

  ghost function Free(book: Book, p: Pair): int {
    Sum(Slacks(book, p))
  }

  /** Free volume is exactly the net position less everything resting for sale. */
  lemma FreeIsNetLessResting(book: Book, p: Pair)
    requires BookOk(book)
    ensures Free(book, p) == Net(book, p) - RestingSells(book, p)
    ensures 0 <= RestingSells(book, p)
  {
    var resting: seq<int> := seq(|book|, t requires 0 <= t < |book| => RestingSell(book[t], p));
    SumPlus(Slacks(book, p), resting,
            seq(|book|, t requires 0 <= t < |book| => Signed(book[t], p)));
    SumNonNegative(resting);
  }

  /** The account is never exposed to a short: on every pair, all resting sells together
      are covered by the long position. */
  ghost predicate Covered(book: Book) {
    BookOk(book) && forall p: Pair :: RestingSells(book, p) <= Net(book, p)
  }

  lemma CoveredIffFree(book: Book)
    requires BookOk(book)
    ensures Covered(book) <==> forall p: Pair :: 0 <= Free(book, p)
  {
    forall p: Pair ensures Free(book, p) == Net(book, p) - RestingSells(book, p) {
      FreeIsNetLessResting(book, p);
    }
  }

  /** No fill, stop execution, cancel or expiry takes free volume away. */
  lemma StepKeepsFree(book: Book, e: Event, p: Pair)
    requires BookOk(book)
    ensures BookOk(Step(book, e))
    ensures Free(book, p) <= Free(Step(book, e), p)
  {
    SumMono(Slacks(book, p), Slacks(Step(book, e), p));
  }

  lemma {:induction false} PlayKeepsFree(book: Book, es: seq<Event>, p: Pair)
    requires BookOk(book)
    ensures BookOk(Play(book, es))
    ensures Free(book, p) <= Free(Play(book, es), p)
  {
    if |es| > 0 {
      var n := |es| - 1;
      PlayKeepsFree(book, es[..n], p);
      StepKeepsFree(Play(book, es[..n]), es[n], p);
    }
  }

  /** An exchange that starts covered stays covered through any market activity. */
  lemma PlayKeepsCovered(book: Book, es: seq<Event>)
    requires Covered(book)
    ensures Covered(Play(book, es))
  {
    PlayGrew(book, es);
    PlayKeepsFree(book, es, 0);
    CoveredIffFree(book);
    forall p: Pair ensures 0 <= Free(Play(book, es), p) {
      PlayKeepsFree(book, es, p);
    }
    CoveredIffFree(Play(book, es));
  }

  lemma PushFree(book: Book, o: Order, p: Pair)
    ensures Free(book + [o], p) == Free(book, p) + Slack(o, p)
  {
    assert Slacks(book + [o], p) == Slacks(book, p) + [Slack(o, p)];
    SumPush(Slacks(book, p), Slack(o, p));
  }

  // ── the broker calls ─────────────────────────────────────────────────────────

  function NewOrder(pair: Pair, side: Side, kind: Kind, price: real, vol: nat, userref: nat): Order {
    Order(pair, side, kind, price, vol, 0, Resting, userref)
  }

  /** OpenPositions as parsed: net open long volume per pair, pairs without one absent. */
  type Positions = map<Pair, nat>

  function Long(m: Positions, p: Pair): nat {
    if p in m then m[p] else 0
  }

  function PositionsOf(book: Book): Positions {
    var pairs := set t | 0 <= t < |book| :: book[t].pair;
    map p | p in pairs && Net(book, p) != 0 :: Max(0, Net(book, p))
  }

  lemma {:induction false} NetOfStranger(book: Book, p: Pair)
    requires forall t :: 0 <= t < |book| ==> book[t].pair != p
    ensures Net(book, p) == 0
  {
    var s: seq<int> := seq(|book|, t requires 0 <= t < |book| => Signed(book[t], p));
    var z: seq<int> := seq(|book|, t => 0);
    assert s == z;
    SumZeros(z);
  }

  lemma PositionsAreNet(book: Book, p: Pair)
    ensures Long(PositionsOf(book), p) == Max(0, Net(book, p))
  {
    if p !in (set t | 0 <= t < |book| :: book[t].pair) {
      NetOfStranger(book, p);
    }
  }

  /** A record of the calls of the bot, each with its answer (None: there was none) and the book
      as it stood when the call returned. */
  datatype Call =
    | AskedPositions(long: Option<Positions>, at: Book)
    | AskedOrders(open: Option<map<Txid, Order>>, at: Book)
    | AskedStatuses(ids: seq<Txid>, seen: map<Txid, Order>, at: Book)
    | AskedByRef(userref: nat, resting: bool, at: Book)
    | SentCancel(t: Txid, ok: bool, at: Book)
    | SentOrder(order: Order, placed: Option<Txid>, at: Book)

  /** The exchange as the bot can reach it. Time passes inside every call, so anything in
      `Drift` may have happened before the call takes effect; any read may fail (None, or a
      txid missing from a batch answer), and a failed cancel may still have landed.

      `closed`: nobody but this bot trades the account. Otherwise orders of others may
      appear and the position may move on its own.
      `calm`: a stretch in which every call is answered and nothing executes. */
  class Kraken {
    var book: Book
    var calm: bool
    const closed: bool
    /** Every state of the book so far, between any two calls, was covered. */
    ghost var safe: bool
    /** Every call so far. Only the calls themselves add to it. */
    ghost var trace: seq<Call>

    constructor (closed: bool)
      ensures this.closed == closed && book == [] && !calm && safe && Covered(book) && trace == []
    {
      this.closed := closed;
      book, calm, safe, trace := [], false, true, [];
    }

    /** The market moves: some events on resting orders, and on an open system whatever
        else the account's other users did. */
    method Drift() returns (ghost es: seq<Event>)
      modifies this`book, this`safe
      ensures safe ==> old(safe)
      ensures Grew(old(book), book)
      ensures closed ==> book == Play(old(book), es)
      ensures calm ==> book == old(book)
      ensures closed && old(safe && Covered(book)) ==> safe && Covered(book)
    {
      if calm {
        es := [];
        return;
      }
      if closed {
        var happened: seq<Event> := *;
        es := happened;
        PlayGrew(book, es);
        safe := safe && forall k :: 0 <= k <= |es| ==> Covered(Play(book, es[..k]));
        if Covered(book) {
          forall k | 0 <= k <= |es| ensures Covered(Play(book, es[..k])) {
            PlayKeepsCovered(book, es[..k]);
          }
          assert es[..|es|] == es;
        }
        book := Play(book, happened);
      } else {
        es := [];
        var b: Book := *;
        if Grew(book, b) {
          book := b;
        }
      }
    }

    method OpenPositions() returns (r: Option<Positions>, ghost es: seq<Event>)
      modifies this`book, this`safe, this`trace
      ensures safe ==> old(safe)
      ensures trace == old(trace) + [AskedPositions(r, book)]
      ensures Grew(old(book), book)
      ensures closed ==> book == Play(old(book), es)
      ensures calm ==> book == old(book) && r.Some?
      ensures closed && old(safe && Covered(book)) ==> safe && Covered(book)
      ensures closed && r.Some? ==> r.value == PositionsOf(book)
    {
      es := Drift();
      var answered: bool := *;
      if !calm && !answered {
        trace := trace + [AskedPositions(None, book)];
        return None, es;
      }
      var m: Positions := *;
      r := Some(if closed then PositionsOf(book) else m);
      trace := trace + [AskedPositions(r, book)];
    }

    method OpenOrders() returns (r: Option<map<Txid, Order>>, ghost es: seq<Event>)
      modifies this`book, this`safe, this`trace
      ensures safe ==> old(safe)
      ensures trace == old(trace) + [AskedOrders(r, book)]
      ensures Grew(old(book), book)
      ensures closed ==> book == Play(old(book), es)
      ensures calm ==> book == old(book) && r.Some?
      ensures closed && old(safe && Covered(book)) ==> safe && Covered(book)
      ensures r.Some? ==>
                forall t: Txid :: t in r.value <==> t < |book| && book[t].status.Resting?
      ensures r.Some? ==> forall t :: t in r.value ==> r.value[t] == book[t]
    {
      es := Drift();
      var answered: bool := *;
      if !calm && !answered {
        trace := trace + [AskedOrders(None, book)];
        return None, es;
      }
      r := Some(map t: Txid | 0 <= t < |book| && book[t].status.Resting? :: book[t]);
      trace := trace + [AskedOrders(r, book)];
    }

    /** Batched status query. A txid absent from the answer is UNKNOWN; one that is present
        shows the order as it was at some moment during the call. */
    method QueryOrders(ids: seq<Txid>) returns (m: map<Txid, Order>, ghost es: seq<Event>)
      modifies this`book, this`safe, this`trace
      ensures safe ==> old(safe)
      ensures trace == old(trace) + [AskedStatuses(ids, m, book)]
      ensures Grew(old(book), book)
      ensures closed ==> book == Play(old(book), es)
      ensures calm ==> book == old(book)
      ensures closed && old(safe && Covered(book)) ==> safe && Covered(book)
      ensures forall t :: t in m ==> t in ids && t < |book| && Became(m[t], book[t])
      ensures forall t :: t in m && t < |old(book)| ==> Became(old(book)[t], m[t])
      ensures calm ==> forall t :: t in ids && t < |book| ==> t in m && m[t] == book[t]
    {
      m, es := map[], [];
      for k := 0 to |ids|
        invariant Grew(old(book), book) && trace == old(trace) && (safe ==> old(safe))
        invariant closed ==> book == Play(old(book), es)
        invariant calm ==> book == old(book)
        invariant closed && old(safe && Covered(book)) ==> safe && Covered(book)
        invariant forall t :: t in m ==> t in ids && t < |book| && Became(m[t], book[t])
        invariant forall t :: t in m && t < |old(book)| ==> Became(old(book)[t], m[t])
        invariant calm ==> forall t :: t in ids[..k] && t < |book| ==> t in m && m[t] == book[t]
      {
        ghost var before, esBefore := book, es;
        ghost var more := Drift();
        GrewTransitive(old(book), before, book);
        if closed {
          PlayAppend(old(book), esBefore, more);
        }
        es := es + more;
        forall t | t in m ensures t < |book| && Became(m[t], book[t]) {
          assert Became(m[t], before[t]) && Became(before[t], book[t]);
        }
        var answered: bool := *;
        if (calm || answered) && ids[k] < |book| {
          m := m[ids[k] := book[ids[k]]];
        }
        assert ids[..k + 1] == ids[..k] + [ids[k]];
      }
      assert ids[..|ids|] == ids;
      trace := trace + [AskedStatuses(ids, m, book)];
    }

    /** `ok` only if the order was resting when the cancel reached it and is now canceled. A
        cancel that reports failure may or may not have landed. */
    method CancelOrder(t: Txid) returns (ok: bool, ghost es: seq<Event>)
      modifies this`book, this`safe, this`trace
      ensures safe ==> old(safe)
      ensures trace == old(trace) + [SentCancel(t, ok, book)]
      ensures Grew(old(book), book)
      ensures closed ==> book == Play(old(book), es)
      ensures closed && old(safe && Covered(book)) ==> safe && Covered(book)
      ensures ok ==> t < |book| && book[t].status.Canceled?
      ensures ok && t < |old(book)| ==> old(book)[t].status.Resting?
      ensures calm ==> (ok <==> t < |old(book)| && old(book)[t].status.Resting?)
      ensures calm ==> book == if ok then Step(old(book), Kill(t, false)) else old(book)
    {
      es := Drift();
      ghost var before, esBefore := book, es;
      var reaches: bool := *;
      ok := false;
      if t < |book| && book[t].status.Resting? && (calm || reaches) {
        if closed && Covered(book) {
          PlayKeepsCovered(book, [Kill(t, false)]);
          assert Play(book, [Kill(t, false)]) == Step(book, Kill(t, false));
        }
        book := Step(book, Kill(t, false));
        es := es + [Kill(t, false)];
        safe := safe && Covered(book);
        GrewTransitive(old(book), before, book);
        PlayAppend(old(book), esBefore, [Kill(t, false)]);
        assert closed ==> Play(before, [Kill(t, false)]) == book;
        var acknowledged: bool := *;
        ok := calm || acknowledged;
      }
      trace := trace + [SentCancel(t, ok, book)];
    }

    /** A sell AddOrder. `None` means it did not land: sells carry no userref and the
        program has no recovery for one that did. An order for no volume is refused. */
    method AddSell(pair: Pair, kind: Kind, price: real, vol: nat)
      returns (r: Option<Txid>, ghost es: seq<Event>)
      modifies this`book, this`safe, this`trace
      ensures safe ==> old(safe)
      ensures trace == old(trace) + [SentOrder(NewOrder(pair, Sell, kind, price, vol, 0), r, book)]
      ensures Grew(old(book), book)
      ensures r.None? ==> (calm ==> book == old(book))
      ensures r.None? && closed ==> book == Play(old(book), es)
      ensures r.Some? && closed ==>
                book == Play(old(book), es) + [NewOrder(pair, Sell, kind, price, vol, 0)]
      ensures r.Some? ==> |old(book)| <= r.value == |book| - 1
                          && book[r.value] == NewOrder(pair, Sell, kind, price, vol, 0)
      ensures r.Some? ==> 0 < vol && (safe ==> Covered(book))
      ensures calm ==> r == if 0 < vol then Some(|old(book)|) else None
      ensures calm && 0 < vol ==> book == old(book) + [NewOrder(pair, Sell, kind, price, vol, 0)]
      ensures closed && old(safe && Covered(book)) && (r.Some? ==> vol <= Free(old(book), pair))
              ==> safe && Covered(book)
    {
      es := Drift();
      ghost var mid := book;
      var accepted: bool := *;
      var o := NewOrder(pair, Sell, kind, price, vol, 0);
      if vol == 0 || (!calm && !accepted) {
        trace := trace + [SentOrder(o, None, book)];
        return None, es;
      }
      book := book + [o];
      safe := safe && Covered(book);
      r := Some(|book| - 1);
      trace := trace + [SentOrder(o, r, book)];
      assert Grew(mid, book);
      GrewTransitive(old(book), mid, book);
      if closed && old(Covered(book)) && vol <= Free(old(book), pair) {
        CoveredIffFree(old(book));
        forall p: Pair ensures 0 <= Free(book, p) {
          assert 0 <= Free(old(book), p);
          PushFree(mid, o, p);
          PlayKeepsFree(old(book), es, p);
        }
        CoveredIffFree(book);
      }
    }

    /** A buy AddOrder. `definite` tells an answered call from an ambiguous transport
        failure; after the latter the order may be on the book (`landed`) unknown to us. */
    method AddBuy(pair: Pair, price: real, vol: nat, userref: nat)
      returns (r: Option<Txid>, definite: bool, ghost landed: Option<Txid>, ghost es: seq<Event>)
      requires 0 < vol
      modifies this`book, this`safe, this`trace
      ensures safe ==> old(safe)
      ensures trace == old(trace) + [SentOrder(NewOrder(pair, Buy, Limit, price, vol, userref), r, book)]
      ensures Grew(old(book), book)
      ensures landed.None? ==> r.None? && (closed ==> book == Play(old(book), es))
      ensures landed.Some? ==>
                && |old(book)| <= landed.value == |book| - 1
                && book[landed.value] == NewOrder(pair, Buy, Limit, price, vol, userref)
                && (closed ==> book == Play(old(book), es)
                                       + [NewOrder(pair, Buy, Limit, price, vol, userref)])
      ensures definite ==> r == landed
      ensures r.Some? ==> definite
      ensures calm ==> r.Some? && book == old(book) + [NewOrder(pair, Buy, Limit, price, vol, userref)]
      ensures closed && old(safe && Covered(book)) ==> safe && Covered(book)
    {
      es := Drift();
      ghost var mid := book;
      var lands: bool := *;
      var answered: bool := *;
      r, definite, landed := None, calm || answered, None;
      var o := NewOrder(pair, Buy, Limit, price, vol, userref);
      if calm || lands {
        book := book + [o];
        assert book == mid + [o];
        safe := safe && Covered(book);
        landed := Some(|book| - 1);
        assert Grew(mid, book);
        GrewTransitive(old(book), mid, book);
        if definite {
          r := Some(|book| - 1);
        }
        if closed && Covered(mid) {
          CoveredIffFree(mid);
          forall p: Pair ensures 0 <= Free(book, p) {
            PushFree(mid, o, p);
            assert 0 <= Free(mid, p) && Slack(o, p) == 0;
          }
          CoveredIffFree(book);
        }
      }
      trace := trace + [SentOrder(o, r, book)];
    }

    /** OpenOrders (`resting`) or ClosedOrders filtered by our client reference. An order may
        lag behind its own landing for as long as the resolve window has not passed
        (`pastWindow` false); after it, every landed order is listed. */
    method OrdersByRef(userref: nat, resting: bool, pastWindow: bool)
      returns (r: Option<Option<Txid>>, ghost es: seq<Event>)
      modifies this`book, this`safe, this`trace
      ensures safe ==> old(safe)
      ensures trace == old(trace) + [AskedByRef(userref, resting, book)]
      ensures Grew(old(book), book)
      ensures closed ==> book == Play(old(book), es)
      ensures calm ==> book == old(book) && r.Some?
      ensures closed && old(safe && Covered(book)) ==> safe && Covered(book)
      ensures r.Some? && r.value.Some? ==>
                HasRef(book, r.value.value, userref) && book[r.value.value].status.Resting? == resting
      ensures r.Some? && r.value.None? && pastWindow ==>
                forall t: Txid :: HasRef(book, t, userref) ==> book[t].status.Resting? != resting
    {
      es := Drift();
      trace := trace + [AskedByRef(userref, resting, book)];
      var answered: bool := *;
      if !calm && !answered {
        return None, es;
      }
      for t := 0 to |book|
        invariant forall u :: 0 <= u < t && HasRef(book, u, userref) ==> book[u].status.Resting? != resting
      {
        if HasRef(book, t, userref) && book[t].status.Resting? == resting {
          var listed: bool := *;
          return Some(if listed || pastWindow then Some(t) else None), es;
        }
      }
      r := Some(None);
    }
  }

  predicate HasRef(book: Book, t: Txid, userref: nat) {
    t < |book| && book[t].side.Buy? && book[t].userref == userref
  }

  lemma {:induction false} PlayAppend(book: Book, a: seq<Event>, b: seq<Event>)
    ensures Play(book, a + b) == Play(Play(book, a), b)
  {
    if |b| == 0 {
      assert a + b == a;
    } else {
      var n := |b| - 1;
      assert (a + b)[..|a + b| - 1] == a + b[..n];
      PlayAppend(book, a, b[..n]);
    }
  }
}

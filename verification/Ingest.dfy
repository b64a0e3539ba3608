/** Bar closes: from the feed's updates to exactly one evaluation per close instant, under
    duplicates, late and reordered closes, coincident borders, outages and restarts.

    Times are whole seconds, intervals whole minutes, and a bar is known by the second it
    begins. Prices are not part of this: a stored bar is only forming or closed. */
module Ingest {
  import opened Wrappers

  type Symbol = nat

  const DAY := 1440
  const WEEK := 10080
  const SIGNAL_INTERVALS := [DAY, WEEK]
  const REST_CONFIRM_DEFER_SECS := 1800

  datatype Key = Key(symbol: Symbol, interval: nat, ts: int)
  {
    /** The instant at which the bar is complete. */
    function CloseAt(): int {
      ts + interval * 60
    }

    predicate Signal() {
      interval == DAY || interval == WEEK
    }

    /** Bars are anchored at the epoch: they end on multiples of their length. */
    predicate Aligned() {
      0 < interval && CloseAt() % (interval * 60) == 0
    }
  }

  // ── the feed ────────────────────────────────────────────────────────────────

  datatype Event = CandleClosed(k: Key) | CandleUpdate(k: Key)

  /** What one candle message of a series becomes, after a message for the bar `prev`: a live
      update that moved on to a later bar closes the one before. */
  function Emit(prev: Option<int>, k: Key, live: bool): seq<Event> {
    (if live && prev.Some? && prev.value < k.ts then [CandleClosed(k.(ts := prev.value))] else [])
    + [CandleUpdate(k)]
  }

  /** A candle message of one series: a live update, or part of the snapshot that a subscription
      starts with. */
  datatype Message = Message(bar: int, live: bool)

  /** The bars closed by the messages of one series, in order. A snapshot moves the newest bar on
      without closing anything. */
  function ClosedBy(msgs: seq<Message>): seq<int> {
    if |msgs| < 2 then []
    else
      var (prev, last) := (msgs[|msgs| - 2], msgs[|msgs| - 1]);
      ClosedBy(msgs[..|msgs| - 1]) + if last.live && prev.bar < last.bar then [prev.bar] else []
  }

  /** Everything emitted for the messages of one series. */
  function Emitted(k: Key, msgs: seq<Message>): seq<Event> {
    if |msgs| == 0 then []
    else
      var n := |msgs| - 1;
      Emitted(k, msgs[..n]) + Emit(if n == 0 then None else Some(msgs[n - 1].bar), k.(ts := msgs[n].bar), msgs[n].live)
  }

  function Closes(events: seq<Event>): seq<int> {
    if |events| == 0 then []
    else
      var e := events[|events| - 1];
      Closes(events[..|events| - 1]) + if e.CandleClosed? then [e.k.ts] else []
  }

  lemma {:induction false} ClosesAppend(a: seq<Event>, b: seq<Event>)
    ensures Closes(a + b) == Closes(a) + Closes(b)
  {
    if |b| == 0 {
      assert a + b == a;
    } else {
      assert (a + b)[..|a + b| - 1] == a + b[..|b| - 1];
      ClosesAppend(a, b[..|b| - 1]);
    }
  }

  lemma EmitCloses(prev: Option<int>, k: Key, live: bool)
    ensures Closes(Emit(prev, k, live)) == if live && prev.Some? && prev.value < k.ts then [prev.value] else []
  {
    var update := CandleUpdate(k);
    assert [update][..0] == [];
    if live && prev.Some? && prev.value < k.ts {
      var close := CandleClosed(k.(ts := prev.value));
      var both := [close, update];
      assert [close][..0] == [] && both[..1] == [close] && Emit(prev, k, live) == both;
      assert Closes([close]) == [prev.value];
      assert Closes(both) == Closes(both[..1]) + [];
    } else {
      assert [] + [update] == [update];
    }
  }

  lemma {:induction false} EmittedCloses(k: Key, msgs: seq<Message>)
    ensures Closes(Emitted(k, msgs)) == ClosedBy(msgs)
  {
    hide Closes, Emit;
    if |msgs| == 0 {
      NothingCloses();
    } else {
      var n := |msgs| - 1;
      var prev := if n == 0 then None else Some(msgs[n - 1].bar);
      EmittedCloses(k, msgs[..n]);
      EmitCloses(prev, k.(ts := msgs[n].bar), msgs[n].live);
      ClosesAppend(Emitted(k, msgs[..n]), Emit(prev, k.(ts := msgs[n].bar), msgs[n].live));
      assert n == 0 ==> msgs[..n] == [];
    }
  }

  lemma NothingCloses()
    ensures Closes([]) == []
  {
  }

  predicate NonDecreasing(s: seq<int>) {
    forall i, j :: 0 <= i < j < |s| ==> s[i] <= s[j]
  }

  predicate Increasing(s: seq<int>) {
    forall i, j :: 0 <= i < j < |s| ==> s[i] < s[j]
  }

  /** The feed never steps back to an earlier bar. */
  predicate Steady(msgs: seq<Message>) {
    forall i, j :: 0 <= i < j < |msgs| ==> msgs[i].bar <= msgs[j].bar
  }

  /** Message `i` is the last one of bar `b`, and a live update follows it. */
  predicate LeftLive(msgs: seq<Message>, i: nat, b: int) {
    i + 1 < |msgs| && msgs[i].bar == b < msgs[i + 1].bar && msgs[i + 1].live
  }

  /** Of a feed that never steps back, exactly the bars that a live update moved on from are closed,
      each once, in order. */
  lemma {:induction false} FeedClosesOnce(msgs: seq<Message>)
    requires Steady(msgs)
    ensures Increasing(ClosedBy(msgs))
    ensures forall b :: b in ClosedBy(msgs) <==> exists i :: LeftLive(msgs, i, b)
    ensures forall b :: b in ClosedBy(msgs) ==> b < msgs[|msgs| - 1].bar
  {
    if |msgs| >= 2 {
      var n := |msgs| - 1;
      var init := msgs[..n];
      FeedClosesOnce(init);
      forall b ensures b in ClosedBy(msgs) <==> exists i :: LeftLive(msgs, i, b) {
        if b in ClosedBy(init) {
          var i :| LeftLive(init, i, b);
          assert LeftLive(msgs, i, b);
        } else if b in ClosedBy(msgs) {
          assert LeftLive(msgs, n - 1, b);
        }
        forall i: nat | LeftLive(msgs, i, b) ensures b in ClosedBy(msgs) {
          if i + 1 < n {
            assert LeftLive(init, i, b);
          }
        }
      }
      forall i | 0 <= i < |ClosedBy(init)| ensures ClosedBy(init)[i] < msgs[n - 1].bar {
        assert ClosedBy(init)[i] in ClosedBy(init);
      }
    }
  }

  /** If all of it is live, these are all bars but the newest. */
  lemma {:induction false} LiveFeedClosesAll(msgs: seq<Message>, k: nat)
    requires Steady(msgs) && k < |msgs| && (forall i :: 0 <= i < |msgs| ==> msgs[i].live)
    ensures msgs[k].bar in ClosedBy(msgs) <==> msgs[k].bar < msgs[|msgs| - 1].bar
    decreases |msgs| - k
  {
    FeedClosesOnce(msgs);
    if msgs[k].bar < msgs[|msgs| - 1].bar {
      if msgs[k].bar == msgs[k + 1].bar {
        LiveFeedClosesAll(msgs, k + 1);
      } else {
        assert LeftLive(msgs, k, msgs[k].bar);
      }
    }
  }

  /** A feed that steps back after a reconnect closes a bar twice: the edge gate of the writer
      is what absorbs it. */
  lemma ReplayedFeedRepeats()
    ensures ClosedBy([Message(0, true), Message(86400, true), Message(0, true), Message(86400, true)]) == [0, 0]
  {
    var (a, b) := (Message(0, true), Message(86400, true));
    assert [a, b, a, b][..3] == [a, b, a];
    assert [a, b, a][..2] == [a, b];
    assert [a, b][..1] == [a];
    assert ClosedBy([a, b]) == [0];
    assert ClosedBy([a, b, a]) == [0];
  }

  /** A reconnect whose snapshot is the first to show the next bar swallows a close: what is left
      is the watchdog on the clock. */
  lemma SnapshotSwallowsClose()
    ensures ClosedBy([Message(0, true), Message(86400, false), Message(86400, true)]) == []
  {
    var (a, b, c) := (Message(0, true), Message(86400, false), Message(86400, true));
    assert [a, b, c][..2] == [a, b];
    assert [a, b][..1] == [a];
  }

  // ── the store ───────────────────────────────────────────────────────────────

  /** The candles table: is the bar closed? */
  type Candles = map<Key, bool>

  function FlipClosed(c: Candles, k: Key): Candles {
    if k in c then c[k := true] else c
  }

  /** The latest close instant among the closed signal bars of a symbol, or -1. */
  ghost predicate IsSeed(c: Candles, symbol: Symbol, seed: int) {
    && (seed == -1 || exists k :: k in c && c[k] && k.symbol == symbol && k.Signal() && k.CloseAt() == seed)
    && -1 <= seed
    && forall k :: k in c && c[k] && k.symbol == symbol && k.Signal() ==> k.CloseAt() <= seed
  }

  /** Closed bars of the symbol as the evaluation loads them. */
  function ClosedBars(c: Candles, symbol: Symbol): set<Key> {
    set k | k in c && c[k] && k.symbol == symbol && k.Signal()
  }

  /** One evaluation with the alert and order path armed. */
  datatype Fire = Fire(symbol: Symbol, at: int, read: set<Key>)

  function At(m: map<Symbol, int>, s: Symbol): int {
    if s in m then m[s] else -1
  }

  /** The fired instants of each symbol strictly increase. */
  ghost predicate OncePerInstant(fired: seq<Fire>) {
    forall i, j :: 0 <= i < j < |fired| && fired[i].symbol == fired[j].symbol ==> fired[i].at < fired[j].at
  }

  /** The store knows of the instant: some signal bar that completed then or later is stored as
      closed. */
  ghost predicate Kept(f: Fire, c: Candles) {
    exists k :: k in c && c[k] && k.symbol == f.symbol && k.Signal() && f.at <= k.CloseAt()
  }

  /** The same by a bar whose end the clock has passed, which nothing re-opens. */
  ghost predicate Remembered(f: Fire, c: Candles, clock: int) {
    exists k :: k in c && c[k] && k.symbol == f.symbol && k.Signal() && f.at <= k.CloseAt() <= clock
  }

  /** The same bars, and none of them open that was closed. */
  predicate OnlyClosed(was: Candles, now: Candles) {
    now.Keys == was.Keys && forall j :: j in was && was[j] ==> now[j]
  }

  /** No signal bar of the symbol that completed at the fired instant is still open, and the
      evaluation read them all. */
  ghost predicate ReadsAll(f: Fire, c: Candles) {
    forall j :: j in c && j.symbol == f.symbol && j.Signal() && j.CloseAt() == f.at ==> c[j] && j in f.read
  }

  predicate AllAligned(c: Candles) {
    forall k :: k in c ==> k.Aligned()
  }

  // ── what each event makes of the writer's state ─────────────────────────────

  /** The store, the edge gate per symbol, the closes whose confirmation is deferred, and
      everything that ever fired, across restarts. */
  datatype State = State(candles: Candles, lastFired: map<Symbol, int>, restDefer: map<Key, int>, fired: seq<Fire>)

  const START := State(map[], map[], map[], [])

  function AfterUpdate(s: State, k: Key, now: int): State {
    s.(candles := s.candles[k := k.CloseAt() <= now])
  }

  predicate Fires(s: State, k: Key) {
    k.Signal() && At(s.lastFired, k.symbol) < k.CloseAt()
  }

  /** The bar of interval `other` that completed together with `k`. */
  function Twin(k: Key, other: nat): Key {
    Key(k.symbol, other, k.CloseAt() - other * 60)
  }

  /** The bars of the first `n` signal intervals that completed together with `k` are closed. */
  function TwinsClosed(s: State, k: Key, n: nat): State
    requires n <= |SIGNAL_INTERVALS|
  {
    if n == 0 then s
    else
      var (t, other) := (TwinsClosed(s, k, n - 1), SIGNAL_INTERVALS[n - 1]);
      if other != k.interval && k.CloseAt() % (other * 60) == 0
      then t.(candles := FlipClosed(t.candles, Twin(k, other)), restDefer := t.restDefer - {Twin(k, other)})
      else t
  }

  /** The evaluation with the order path armed: first sight of a close instant. */
  function Armed(s: State, k: Key): State {
    var t := TwinsClosed(s.(lastFired := s.lastFired[k.symbol := k.CloseAt()]), k, |SIGNAL_INTERVALS|);
    t.(fired := t.fired + [Fire(k.symbol, k.CloseAt(), ClosedBars(t.candles, k.symbol))])
  }

  function AfterClose(s: State, k: Key): State {
    var t := s.(candles := FlipClosed(s.candles, k), restDefer := s.restDefer - {k});
    if Fires(s, k) then Armed(t, k) else t
  }

  /** The first `n` of the bars the exchange returned for a confirmation, of which only the last
      four count, and only from the overdue bar on. */
  function RowsStored(s: State, k: Key, rows: seq<int>, n: nat, now: int): State
    requires n <= |rows|
  {
    if n == 0 || n <= |rows| - 4 then s
    else
      var t := RowsStored(s, k, rows, n - 1, now);
      if k.ts <= rows[n - 1] then AfterUpdate(t, k.(ts := rows[n - 1]), now) else t
  }

  function FirstFailure(s: State, k: Key, now: int): int {
    if k in s.restDefer then s.restDefer[k] else now
  }

  /** Without an answer the close is put off, but no longer than half an hour after the first
      failure: then it runs on the clock alone. */
  function AfterConfirm(s: State, k: Key, rows: seq<int>, now: int): State {
    var first := FirstFailure(s, k, now);
    if rows == [] && now - first < 1800 then s.(restDefer := s.restDefer[k := first])
    else AfterClose(RowsStored(s.(restDefer := s.restDefer - {k}), k, rows, |rows|, now), k)
  }

  lemma {:induction false} SeedExists(c: Candles, symbol: Symbol, keys: set<Key>) returns (seed: int)
    requires keys <= c.Keys
    ensures -1 <= seed
    ensures seed == -1 || exists k :: k in keys && c[k] && k.symbol == symbol && k.Signal() && k.CloseAt() == seed
    ensures forall k :: k in keys && c[k] && k.symbol == symbol && k.Signal() ==> k.CloseAt() <= seed
    decreases keys
  {
    if keys == {} {
      seed := -1;
    } else {
      var k :| k in keys;
      seed := SeedExists(c, symbol, keys - {k});
      if c[k] && k.symbol == symbol && k.Signal() && seed < k.CloseAt() {
        seed := k.CloseAt();
      }
    }
  }

  lemma SeedIsThere(c: Candles, symbol: Symbol)
    ensures exists seed :: IsSeed(c, symbol, seed)
  {
    var seed := SeedExists(c, symbol, c.Keys);
    assert IsSeed(c, symbol, seed);
  }

  lemma SeedIsUnique(c: Candles, symbol: Symbol, a: int, b: int)
    requires IsSeed(c, symbol, a) && IsSeed(c, symbol, b)
    ensures a == b
  {
  }

  ghost function SeedOf(c: Candles, symbol: Symbol): (seed: int)
    ensures IsSeed(c, symbol, seed)
  {
    SeedIsThere(c, symbol);
    var seed :| IsSeed(c, symbol, seed);
    seed
  }

  /** The process dies and comes back: memory is gone, the store is not, and the first sweep
      seeds the edge gate from the closed bars. */
  ghost function AfterReboot(s: State, pairs: seq<Symbol>): State {
    s.(lastFired := map p | p in pairs :: SeedOf(s.candles, p), restDefer := map[])
  }

  // ── a close fires once, and reads everything that completed with it ─────────

  /** The bar of `other` that completed together with `k` is closed if it is stored. */
  predicate FlippedAt(c: Candles, k: Key, other: nat) {
    Twin(k, other) in c && Twin(k, other).Aligned() ==> c[Twin(k, other)]
  }

  lemma {:induction false} TwinsFlipped(s: State, k: Key, n: nat)
    requires n <= |SIGNAL_INTERVALS| && k.Signal() && (k in s.candles ==> s.candles[k])
    ensures var t := TwinsClosed(s, k, n);
            && OnlyClosed(s.candles, t.candles) && t.lastFired == s.lastFired && t.fired == s.fired
            && t.restDefer.Keys <= s.restDefer.Keys
            && forall m :: 0 <= m < n ==> FlippedAt(t.candles, k, SIGNAL_INTERVALS[m])
  {
    if n > 0 {
      TwinsFlipped(s, k, n - 1);
      var (u, other) := (TwinsClosed(s, k, n - 1), SIGNAL_INTERVALS[n - 1]);
      if other == k.interval {
        assert Twin(k, other) == k;
      }
    }
  }

  /** Once both signal intervals were handled, every stored signal bar of the symbol that
      completed at the instant is closed. */
  lemma AllFlipped(c: Candles, k: Key)
    requires forall n :: 0 <= n < |SIGNAL_INTERVALS| ==> FlippedAt(c, k, SIGNAL_INTERVALS[n])
    requires AllAligned(c)
    ensures forall j :: j in c && j.symbol == k.symbol && j.Signal() && j.CloseAt() == k.CloseAt() ==> c[j]
  {
    assert FlippedAt(c, k, SIGNAL_INTERVALS[0]) && FlippedAt(c, k, SIGNAL_INTERVALS[1]);
    forall j | j in c && j.symbol == k.symbol && j.Signal() && j.CloseAt() == k.CloseAt() ensures c[j] {
      assert j == Twin(k, j.interval);
    }
  }

  /** A reported close fires exactly on the first sight of a close instant of a signal bar, and
      the evaluation then reads every stored signal bar that completed at that instant. */
  lemma CloseFiresOnce(s: State, k: Key)
    requires AllAligned(s.candles)
    ensures var t := AfterClose(s, k);
            && OnlyClosed(s.candles, t.candles) && (k in t.candles ==> t.candles[k])
            && t.lastFired == (if Fires(s, k) then s.lastFired[k.symbol := k.CloseAt()] else s.lastFired)
            && t.fired == s.fired + (if Fires(s, k) then [Fire(k.symbol, k.CloseAt(), ClosedBars(t.candles, k.symbol))] else [])
            && (Fires(s, k) ==> ReadsAll(t.fired[|s.fired|], t.candles))
            && t.restDefer.Keys <= s.restDefer.Keys - {k}
  {
    if Fires(s, k) {
      var u := s.(candles := FlipClosed(s.candles, k), restDefer := s.restDefer - {k},
                  lastFired := s.lastFired[k.symbol := k.CloseAt()]);
      TwinsFlipped(u, k, |SIGNAL_INTERVALS|);
      var t := TwinsClosed(u, k, |SIGNAL_INTERVALS|);
      AllFlipped(t.candles, k);
    }
  }

  lemma {:induction false} RowsKeepTheRest(s: State, k: Key, rows: seq<int>, n: nat, now: int)
    requires n <= |rows| && AllAligned(s.candles)
    requires forall m :: 0 <= m < |rows| ==> k.(ts := rows[m]).Aligned()
    ensures var t := RowsStored(s, k, rows, n, now);
            && AllAligned(t.candles) && t == s.(candles := t.candles)
            && forall m :: 0 <= m < n && |rows| - 4 <= m && k.ts <= rows[m] ==> k.(ts := rows[m]) in t.candles
  {
    if n != 0 && |rows| - 4 < n {
      RowsKeepTheRest(s, k, rows, n - 1, now);
    }
  }

  // ── the writer ──────────────────────────────────────────────────────────────

  /** The single writer. `fired` records everything it ever fired, across restarts. */
  class Writer {
    var candles: Candles
    var lastFired: map<Symbol, int>
    var restDefer: map<Key, int>
    ghost var fired: seq<Fire>

    ghost function Now(): State
      reads this
    {
      State(candles, lastFired, restDefer, fired)
    }

    constructor ()
      ensures Now() == START
    {
      candles, lastFired, restDefer := map[], map[], map[];
      fired := [];
    }

    /** A bar moves: it is stored closed exactly if the clock is past its end. This can even
        re-open a bar that was closed ahead of the clock. */
    method HandleCandleUpdate(k: Key, now: int)
      modifies this`candles
      ensures Now() == AfterUpdate(old(Now()), k, now)
      ensures candles == old(candles)[k := k.CloseAt() <= now]
    {
      candles := candles[k := k.CloseAt() <= now];
    }

    /** Close the bars of the other signal intervals that completed at the same instant. */
    method FlipTwins(k: Key)
      modifies this`candles, this`restDefer
      ensures Now() == TwinsClosed(old(Now()), k, |SIGNAL_INTERVALS|)
    {
      var closeAt := k.CloseAt();
      for n := 0 to |SIGNAL_INTERVALS|
        invariant Now() == TwinsClosed(old(Now()), k, n)
      {
        var other := SIGNAL_INTERVALS[n];
        if other != k.interval && closeAt % (other * 60) == 0 {
          var twin := Key(k.symbol, other, closeAt - other * 60);
          if twin in candles {
            candles := candles[twin := true];
          }
          restDefer := restDefer - {twin};
        }
      }
    }

    /** The evaluation with the order path armed: first sight of a close instant. */
    method Arm(k: Key)
      requires AllAligned(candles) && k.Signal() && (k in candles ==> candles[k]) && At(lastFired, k.symbol) < k.CloseAt()
      modifies this
      ensures Now() == Armed(old(Now()), k)
      ensures OnlyClosed(old(candles), candles)
      ensures fired == old(fired) + [Fire(k.symbol, k.CloseAt(), ClosedBars(candles, k.symbol))]
      ensures ReadsAll(fired[|old(fired)|], candles)
    {
      lastFired := lastFired[k.symbol := k.CloseAt()];
      ghost var before := Now();
      FlipTwins(k);
      var bars := set j | j in candles && candles[j] && j.symbol == k.symbol && (j.interval == DAY || j.interval == WEEK);
      assert bars == ClosedBars(candles, k.symbol);
      fired := fired + [Fire(k.symbol, k.CloseAt(), bars)];
      TwinsFlipped(before, k, |SIGNAL_INTERVALS|);
      AllFlipped(candles, k);
    }

    /** A bar is reported closed, by the feed, the watchdog, or both. Signal bars run the
        evaluation; it is armed on the first sight of their close instant only, and then it
        reads every stored signal bar that completed at that instant. */
    method HandleCandleClosed(k: Key)
      requires AllAligned(candles)
      modifies this
      ensures Now() == AfterClose(old(Now()), k)
      ensures OnlyClosed(old(candles), candles) && (k in candles ==> candles[k])
      ensures var fires := k.Signal() && At(old(lastFired), k.symbol) < k.CloseAt();
              && lastFired == (if fires then old(lastFired)[k.symbol := k.CloseAt()] else old(lastFired))
              && fired == old(fired) + (if fires then [Fire(k.symbol, k.CloseAt(), ClosedBars(candles, k.symbol))] else [])
              && (fires ==> ReadsAll(fired[|old(fired)|], candles))
      ensures restDefer.Keys <= old(restDefer).Keys - {k}
    {
      hide TwinsClosed, ClosedBars, ReadsAll;
      CloseFiresOnce(Now(), k);
      if k in candles {
        candles := candles[k := true];
      }
      restDefer := restDefer - {k};
      if k.interval in SIGNAL_INTERVALS && At(lastFired, k.symbol) < k.CloseAt() {
        Arm(k);
      }
    }

    /** The watchdog's confirmation of an overdue bar. `rows` are the bars the exchange returned,
        none if it failed. */
    method ApplyRestConfirm(k: Key, rows: seq<int>, now: int)
      requires AllAligned(candles) && forall n :: 0 <= n < |rows| ==> k.(ts := rows[n]).Aligned()
      modifies this
      ensures Now() == AfterConfirm(old(Now()), k, rows, now)
      ensures rows == [] && now - FirstFailure(old(Now()), k, now) < 1800 ==>
                && candles == old(candles) && fired == old(fired) && lastFired == old(lastFired)
                && restDefer == old(restDefer)[k := FirstFailure(old(Now()), k, now)]
      ensures rows != [] || 1800 <= now - FirstFailure(old(Now()), k, now) ==>
                && k !in restDefer && (k in candles ==> candles[k])
                && (forall m :: 0 <= m < |rows| && |rows| - 4 <= m && k.ts <= rows[m] ==> k.(ts := rows[m]) in candles)
                && var fires := k.Signal() && At(old(lastFired), k.symbol) < k.CloseAt();
                   && fired == old(fired) + (if fires then [Fire(k.symbol, k.CloseAt(), ClosedBars(candles, k.symbol))] else [])
                   && (fires ==> ReadsAll(fired[|old(fired)|], candles))
    {
      hide AfterClose, ReadsAll, ClosedBars;
      if rows == [] {
        var first := if k in restDefer then restDefer[k] else now;
        if now - first < REST_CONFIRM_DEFER_SECS {
          restDefer := restDefer[k := first];
          return;
        }
        restDefer := restDefer - {k};
      } else {
        restDefer := restDefer - {k};
        ghost var base := Now();
        for n := if |rows| < 4 then 0 else |rows| - 4 to |rows|
          invariant Now() == RowsStored(base, k, rows, n, now)
        {
          if k.ts <= rows[n] {
            HandleCandleUpdate(k.(ts := rows[n]), now);
          }
        }
      }
      RowsKeepTheRest(old(Now()).(restDefer := old(restDefer) - {k}), k, rows, |rows|, now);
      HandleCandleClosed(k);
    }

    method MaxClosedTs(symbol: Symbol, interval: nat) returns (r: Option<int>)
      ensures r.None? ==> forall k :: k in candles && candles[k] && k.symbol == symbol ==> k.interval != interval
      ensures r.Some? ==> Key(symbol, interval, r.value) in candles && candles[Key(symbol, interval, r.value)]
      ensures r.Some? ==> forall k :: k in candles && candles[k] && k.symbol == symbol && k.interval == interval ==> k.ts <= r.value
    {
      r := None;
      var todo := candles.Keys;
      while todo != {}
        invariant todo <= candles.Keys
        invariant r.None? ==> forall k :: k in candles && k !in todo && candles[k] && k.symbol == symbol ==> k.interval != interval
        invariant r.Some? ==> Key(symbol, interval, r.value) in candles && candles[Key(symbol, interval, r.value)]
        invariant r.Some? ==> forall k :: k in candles && k !in todo && candles[k] && k.symbol == symbol && k.interval == interval
                                          ==> k.ts <= r.value
        decreases todo
      {
        var k :| k in todo;
        todo := todo - {k};
        if candles[k] && k.symbol == symbol && k.interval == interval && (r.None? || r.value < k.ts) {
          r := Some(k.ts);
        }
      }
    }

    method Seed(symbol: Symbol) returns (seed: int)
      ensures IsSeed(candles, symbol, seed)
    {
      seed := -1;
      var day := MaxClosedTs(symbol, DAY);
      if day.Some? && seed < day.value + DAY * 60 {
        seed := day.value + DAY * 60;
        assert Key(symbol, DAY, day.value).CloseAt() == seed;
      }
      var week := MaxClosedTs(symbol, WEEK);
      if week.Some? && seed < week.value + WEEK * 60 {
        seed := week.value + WEEK * 60;
        assert Key(symbol, WEEK, week.value).CloseAt() == seed;
      }
    }

    /** The process dies and comes back. */
    method Restart(pairs: seq<Symbol>)
      modifies this
      ensures Now() == AfterReboot(old(Now()), pairs)
      ensures forall s :: s in pairs ==> IsSeed(candles, s, At(lastFired, s))
    {
      hide IsSeed;
      lastFired, restDefer := map[], map[];
      ghost var store, history := candles, fired;
      for n := 0 to |pairs|
        invariant candles == store && fired == history && restDefer == map[]
        invariant forall p :: p in lastFired <==> p in pairs[..n]
        invariant forall p :: p in lastFired ==> lastFired[p] == SeedOf(store, p)
      {
        var seed := Seed(pairs[n]);
        SeedIsUnique(store, pairs[n], seed, SeedOf(store, pairs[n]));
        lastFired := lastFired[pairs[n] := seed];
        assert pairs[..n + 1] == pairs[..n] + [pairs[n]];
      }
      assert pairs[..|pairs|] == pairs;
      assert lastFired == map p | p in pairs :: SeedOf(store, p);
    }
  }

  // ── whole runs ──────────────────────────────────────────────────────────────

  datatype Step =
    | Update(k: Key)
    | Close(k: Key)
    | Confirm(k: Key, rows: seq<int>)
    | Reboot

  predicate OnGrid(s: Step) {
    match s
    case Update(k) => k.Aligned()
    case Close(_) => true
    case Confirm(k, rows) => forall n :: 0 <= n < |rows| ==> k.(ts := rows[n]).Aligned()
    case Reboot => true
  }

  predicate About(s: Step, pairs: seq<Symbol>) {
    s.Reboot? || s.k.symbol in pairs
  }

  ghost function AfterStep(s: State, step: Step, now: int, pairs: seq<Symbol>): State {
    match step
    case Update(k) => AfterUpdate(s, k, now)
    case Close(k) => AfterClose(s, k)
    case Confirm(k, rows) => AfterConfirm(s, k, rows, now)
    case Reboot => AfterReboot(s, pairs)
  }

  /** The state after the first `n` steps of a run. */
  ghost function After(steps: seq<Step>, clock: seq<int>, pairs: seq<Symbol>, n: nat): State
    requires n <= |steps| == |clock|
  {
    if n == 0 then START else AfterStep(After(steps, clock, pairs, n - 1), steps[n - 1], clock[n - 1], pairs)
  }

  predicate Legal(steps: seq<Step>, clock: seq<int>, pairs: seq<Symbol>) {
    |steps| == |clock| && forall n :: 0 <= n < |steps| ==> OnGrid(steps[n]) && About(steps[n], pairs)
  }

  ghost predicate AllKept(s: State) {
    forall i :: 0 <= i < |s.fired| ==> Kept(s.fired[i], s.candles)
  }

  /** Every restart of the first `n` steps found all earlier fires in the store. */
  ghost predicate RebootsRemember(steps: seq<Step>, clock: seq<int>, pairs: seq<Symbol>, n: nat)
    requires n <= |steps| == |clock|
  {
    forall m :: 0 <= m < n && steps[m].Reboot? ==> AllKept(After(steps, clock, pairs, m))
  }

  /** What a run keeps: the grid, whose fires there are, and as long as the restarts remember, that
      the gate is at or past everything fired. */
  ghost predicate Gated(s: State, pairs: seq<Symbol>) {
    && (forall i :: 0 <= i < |s.fired| ==> s.fired[i].symbol in pairs)
    && OncePerInstant(s.fired) && forall i :: 0 <= i < |s.fired| ==> s.fired[i].at <= At(s.lastFired, s.fired[i].symbol)
  }

  lemma KeepsAligned(s: State, step: Step, now: int, pairs: seq<Symbol>)
    requires AllAligned(s.candles) && OnGrid(step)
    ensures AllAligned(AfterStep(s, step, now, pairs).candles)
  {
    hide AfterClose;
    match step {
      case Update(k) =>
      case Close(k) => CloseFiresOnce(s, k);
      case Confirm(k, rows) =>
        RowsKeepTheRest(s.(restDefer := s.restDefer - {k}), k, rows, |rows|, now);
        CloseFiresOnce(RowsStored(s.(restDefer := s.restDefer - {k}), k, rows, |rows|, now), k);
      case Reboot =>
    }
  }

  lemma {:induction false} AlignedAfter(steps: seq<Step>, clock: seq<int>, pairs: seq<Symbol>, n: nat)
    requires Legal(steps, clock, pairs) && n <= |steps|
    ensures AllAligned(After(steps, clock, pairs, n).candles)
  {
    hide AfterStep, OnGrid;
    if n > 0 {
      AlignedAfter(steps, clock, pairs, n - 1);
      KeepsAligned(After(steps, clock, pairs, n - 1), steps[n - 1], clock[n - 1], pairs);
    }
  }

  lemma FiredOnce(history: seq<Fire>, gate: map<Symbol, int>, f: Fire)
    requires OncePerInstant(history) && forall i :: 0 <= i < |history| ==> history[i].at <= At(gate, history[i].symbol)
    requires At(gate, f.symbol) < f.at
    ensures OncePerInstant(history + [f])
    ensures forall i :: 0 <= i < |history + [f]| ==>
                          (history + [f])[i].at <= At(gate[f.symbol := f.at], (history + [f])[i].symbol)
  {
  }

  lemma CloseStaysGated(s: State, k: Key, pairs: seq<Symbol>)
    requires AllAligned(s.candles) && Gated(s, pairs) && k.symbol in pairs
    ensures Gated(AfterClose(s, k), pairs)
  {
    hide AfterClose, ReadsAll, ClosedBars, OnlyClosed, OncePerInstant;
    CloseFiresOnce(s, k);
    var t := AfterClose(s, k);
    if Fires(s, k) {
      var f := Fire(k.symbol, k.CloseAt(), ClosedBars(t.candles, k.symbol));
      FiredOnce(s.fired, s.lastFired, f);
      assert t.fired == s.fired + [f];
      forall i | 0 <= i < |t.fired| ensures t.fired[i].symbol in pairs && t.fired[i].at <= At(t.lastFired, t.fired[i].symbol) {
        assert t.fired[i] == (s.fired + [f])[i];
      }
    } else {
      assert t.fired == s.fired;
    }
  }

  lemma StaysGated(s: State, step: Step, now: int, pairs: seq<Symbol>)
    requires AllAligned(s.candles) && OnGrid(step) && About(step, pairs) && Gated(s, pairs)
    requires step.Reboot? ==> AllKept(s)
    ensures Gated(AfterStep(s, step, now, pairs), pairs)
  {
    hide AfterClose, OncePerInstant;
    match step {
      case Update(k) =>
      case Close(k) => CloseStaysGated(s, k, pairs);
      case Confirm(k, rows) =>
        RowsKeepTheRest(s.(restDefer := s.restDefer - {k}), k, rows, |rows|, now);
        CloseStaysGated(RowsStored(s.(restDefer := s.restDefer - {k}), k, rows, |rows|, now), k, pairs);
      case Reboot =>
        forall i | 0 <= i < |s.fired| ensures s.fired[i].at <= SeedOf(s.candles, s.fired[i].symbol) {
          assert Kept(s.fired[i], s.candles);
        }
    }
  }

  lemma {:induction false} GatedAfter(steps: seq<Step>, clock: seq<int>, pairs: seq<Symbol>, n: nat)
    requires Legal(steps, clock, pairs) && n <= |steps| && RebootsRemember(steps, clock, pairs, n)
    ensures Gated(After(steps, clock, pairs, n), pairs)
  {
    hide AfterStep, OnGrid, About, AllKept, AllAligned;
    if n > 0 {
      GatedAfter(steps, clock, pairs, n - 1);
      AlignedAfter(steps, clock, pairs, n - 1);
      StaysGated(After(steps, clock, pairs, n - 1), steps[n - 1], clock[n - 1], pairs);
    }
  }

  /** Exactly once: over any stream of updates, closes, confirmations and restarts, in any order
      and with any repetitions, no symbol ever fires the same or an earlier instant again, if
      every restart found all earlier fires in the store; without a restart, always. */
  lemma FiresOncePerInstant(steps: seq<Step>, clock: seq<int>, pairs: seq<Symbol>)
    requires Legal(steps, clock, pairs)
    ensures RebootsRemember(steps, clock, pairs, |steps|) ==> OncePerInstant(After(steps, clock, pairs, |steps|).fired)
    ensures (forall n :: 0 <= n < |steps| ==> !steps[n].Reboot?) ==>
              OncePerInstant(After(steps, clock, pairs, |steps|).fired)
  {
    hide AllKept;
    if RebootsRemember(steps, clock, pairs, |steps|) {
      GatedAfter(steps, clock, pairs, |steps|);
    }
  }

  /** Whatever the restarts found: every evaluation that ever fires has read every signal bar
      stored at that time that completed at its instant. */
  lemma EveryFireReadsAll(steps: seq<Step>, clock: seq<int>, pairs: seq<Symbol>, n: nat)
    requires Legal(steps, clock, pairs) && n < |steps|
    ensures var (was, now) := (After(steps, clock, pairs, n), After(steps, clock, pairs, n + 1));
            && |was.fired| <= |now.fired| <= |was.fired| + 1 && now.fired[..|was.fired|] == was.fired
            && (|was.fired| < |now.fired| ==> ReadsAll(now.fired[|was.fired|], now.candles))
  {
    hide AfterClose, ReadsAll, ClosedBars, About, AllAligned;
    AlignedAfter(steps, clock, pairs, n);
    var was := After(steps, clock, pairs, n);
    match steps[n] {
      case Update(k) =>
      case Close(k) => CloseFiresOnce(was, k);
      case Confirm(k, rows) =>
        assert OnGrid(steps[n]);
        RowsKeepTheRest(was.(restDefer := was.restDefer - {k}), k, rows, |rows|, clock[n]);
        CloseFiresOnce(RowsStored(was.(restDefer := was.restDefer - {k}), k, rows, |rows|, clock[n]), k);
      case Reboot =>
    }
  }

  // ── what a restart can forget ───────────────────────────────────────────────

  /** Exactly when a restart is safe: some close after it fires an instant a second time, or one
      before it, if and only if the store has lost a fire: no signal bar of the symbol that
      completed then or later is stored as closed. */
  lemma RestartIsSafeIff(s: State, pairs: seq<Symbol>)
    requires AllAligned(s.candles) && OncePerInstant(s.fired)
    requires forall i :: 0 <= i < |s.fired| ==> s.fired[i].symbol in pairs && 0 <= s.fired[i].at
    ensures (exists k: Key :: k.symbol in pairs && !OncePerInstant(AfterClose(AfterReboot(s, pairs), k).fired))
            <==> !AllKept(s)
  {
    hide AfterClose, AllAligned, OncePerInstant, AfterReboot;
    if AllKept(s) {
      forall k: Key | k.symbol in pairs ensures OncePerInstant(AfterClose(AfterReboot(s, pairs), k).fired) {
        KeptRestartIsSafe(s, pairs, k);
      }
    } else {
      var i :| 0 <= i < |s.fired| && !Kept(s.fired[i], s.candles);
      var k := LostFireRepeats(s, pairs, i);
      assert !OncePerInstant(AfterClose(AfterReboot(s, pairs), k).fired);
    }
  }

  lemma KeptRestartIsSafe(s: State, pairs: seq<Symbol>, k: Key)
    requires AllAligned(s.candles) && OncePerInstant(s.fired) && AllKept(s) && k.symbol in pairs
    requires forall i :: 0 <= i < |s.fired| ==> s.fired[i].symbol in pairs
    ensures OncePerInstant(AfterClose(AfterReboot(s, pairs), k).fired)
  {
    hide AfterClose, OncePerInstant;
    forall i | 0 <= i < |s.fired| ensures s.fired[i].at <= SeedOf(s.candles, s.fired[i].symbol) {
      assert Kept(s.fired[i], s.candles);
    }
    CloseStaysGated(AfterReboot(s, pairs), k, pairs);
  }

  lemma LostFireRepeats(s: State, pairs: seq<Symbol>, i: nat) returns (k: Key)
    requires AllAligned(s.candles) && i < |s.fired| && s.fired[i].symbol in pairs && 0 <= s.fired[i].at
    requires !Kept(s.fired[i], s.candles)
    ensures k.symbol in pairs && !OncePerInstant(AfterClose(AfterReboot(s, pairs), k).fired)
  {
    hide AfterClose, ReadsAll, ClosedBars, AllAligned;
    k := Key(s.fired[i].symbol, DAY, s.fired[i].at - DAY * 60);
    RefiresIffForgotten(s, pairs, k);
    CloseFiresOnce(AfterReboot(s, pairs), k);
    var now := AfterClose(AfterReboot(s, pairs), k).fired;
    assert now[i] == s.fired[i] && now[|s.fired|].symbol == s.fired[i].symbol && now[|s.fired|].at == s.fired[i].at;
  }

  /** Exactly when a close reported after a restart fires: no signal bar of the symbol that
      completed at its instant or later was stored as closed when the process came back,
      whether or not that instant had fired before. */
  lemma RefiresIffForgotten(s: State, pairs: seq<Symbol>, k: Key)
    requires AllAligned(s.candles) && k.Signal() && k.symbol in pairs && 0 <= k.CloseAt()
    ensures AfterClose(AfterReboot(s, pairs), k).fired != s.fired
            <==> forall j :: j in s.candles && s.candles[j] && j.symbol == k.symbol && j.Signal() ==> j.CloseAt() < k.CloseAt()
  {
    hide AfterClose, ReadsAll, ClosedBars, OnlyClosed;
    CloseFiresOnce(AfterReboot(s, pairs), k);
    var seed := SeedOf(s.candles, k.symbol);
    assert IsSeed(s.candles, k.symbol, seed);
  }

  lemma RowsRemember(f: Fire, s: State, k: Key, rows: seq<int>, n: nat, now: int)
    requires n <= |rows| && Remembered(f, s.candles, now)
    ensures Remembered(f, RowsStored(s, k, rows, n, now).candles, now)
  {
    if n != 0 && |rows| - 4 < n {
      RowsRemember(f, s, k, rows, n - 1, now);
      if k.ts <= rows[n - 1] {
        UpsertRemembers(f, RowsStored(s, k, rows, n - 1, now).candles, k.(ts := rows[n - 1]), now);
      }
    }
  }

  lemma UpsertRemembers(f: Fire, c: Candles, k: Key, now: int)
    requires Remembered(f, c, now)
    ensures Remembered(f, c[k := k.CloseAt() <= now], now)
  {
  }

  lemma FlipsRemember(f: Fire, was: Candles, now: Candles, clock: int)
    requires Remembered(f, was, clock) && OnlyClosed(was, now)
    ensures Remembered(f, now, clock)
  {
  }

  /** A fire of a stored bar whose end the clock had passed is never lost, whatever follows: no
      update re-opens such a bar, and no restart touches the store. */
  lemma StepRemembers(f: Fire, s: State, step: Step, was: int, now: int, pairs: seq<Symbol>)
    requires AllAligned(s.candles) && OnGrid(step) && Remembered(f, s.candles, was) && was <= now
    ensures Remembered(f, AfterStep(s, step, now, pairs).candles, now)
    ensures Kept(f, s.candles)
  {
    hide AfterClose, ReadsAll, ClosedBars;
    assert Remembered(f, s.candles, now);
    match step {
      case Update(k) => UpsertRemembers(f, s.candles, k, now);
      case Close(k) =>
        CloseFiresOnce(s, k);
        FlipsRemember(f, s.candles, AfterClose(s, k).candles, now);
      case Confirm(k, rows) =>
        var mid := RowsStored(s.(restDefer := s.restDefer - {k}), k, rows, |rows|, now);
        RowsKeepTheRest(s.(restDefer := s.restDefer - {k}), k, rows, |rows|, now);
        RowsRemember(f, s.(restDefer := s.restDefer - {k}), k, rows, |rows|, now);
        CloseFiresOnce(mid, k);
        FlipsRemember(f, mid.candles, AfterClose(mid, k).candles, now);
      case Reboot =>
    }
  }

  /** Whatever step `n` fired is remembered by the store once the step is over: the bar is stored,
      and the clock is past its end. */
  ghost predicate FiresStored(steps: seq<Step>, clock: seq<int>, pairs: seq<Symbol>, n: nat)
    requires n < |steps| == |clock|
  {
    var (was, now) := (After(steps, clock, pairs, n), After(steps, clock, pairs, n + 1));
    |was.fired| < |now.fired| ==> Remembered(now.fired[|was.fired|], now.candles, clock[n])
  }

  lemma {:induction false} RememberedAfter(steps: seq<Step>, clock: seq<int>, pairs: seq<Symbol>, n: nat)
    requires Legal(steps, clock, pairs) && NonDecreasing(clock) && n < |steps|
    requires forall m :: 0 <= m < |steps| ==> FiresStored(steps, clock, pairs, m)
    ensures var now := After(steps, clock, pairs, n + 1);
            forall i :: 0 <= i < |now.fired| ==> Remembered(now.fired[i], now.candles, clock[n])
  {
    hide Remembered, ReadsAll, AllAligned, AfterStep;
    var (was, now) := (After(steps, clock, pairs, n), After(steps, clock, pairs, n + 1));
    AlignedAfter(steps, clock, pairs, n);
    EveryFireReadsAll(steps, clock, pairs, n);
    assert FiresStored(steps, clock, pairs, n);
    if n > 0 {
      RememberedAfter(steps, clock, pairs, n - 1);
      forall i | 0 <= i < |was.fired| ensures now.fired[i] == was.fired[i] && Remembered(was.fired[i], now.candles, clock[n]) {
        assert now.fired[i] == now.fired[..|was.fired|][i];
        StepRemembers(was.fired[i], was, steps[n], clock[n - 1], clock[n], pairs);
      }
    }
  }

  /** Hence, under a clock that does not run backwards, restarts do no harm if only stored bars
      fire, and only once the clock is past their end. */
  lemma StoredBarsFireOnce(steps: seq<Step>, clock: seq<int>, pairs: seq<Symbol>)
    requires Legal(steps, clock, pairs) && NonDecreasing(clock)
    requires forall m :: 0 <= m < |steps| ==> FiresStored(steps, clock, pairs, m)
    ensures RebootsRemember(steps, clock, pairs, |steps|)
    ensures OncePerInstant(After(steps, clock, pairs, |steps|).fired)
  {
    hide Remembered, AfterStep, FiresStored, OncePerInstant, Kept;
    forall m | 0 <= m < |steps| ensures AllKept(After(steps, clock, pairs, m)) {
      var s := After(steps, clock, pairs, m);
      if m > 0 {
        RememberedAfter(steps, clock, pairs, m - 1);
        forall i | 0 <= i < |s.fired| ensures Kept(s.fired[i], s.candles) {
          RememberedIsKept(s.fired[i], s.candles, clock[m - 1]);
        }
      }
    }
    FiresOncePerInstant(steps, clock, pairs);
  }

  lemma RememberedIsKept(f: Fire, c: Candles, clock: int)
    requires Remembered(f, c, clock)
    ensures Kept(f, c)
  {
  }

  /** Any stream of events and restarts on a new writer. */
  method Run(steps: seq<Step>, clock: seq<int>, pairs: seq<Symbol>) returns (w: Writer)
    requires Legal(steps, clock, pairs)
    ensures w.Now() == After(steps, clock, pairs, |steps|)
    ensures RebootsRemember(steps, clock, pairs, |steps|) ==> OncePerInstant(w.fired)
    ensures (forall n :: 0 <= n < |steps| ==> !steps[n].Reboot?) ==> OncePerInstant(w.fired)
  {
    hide OncePerInstant, AllKept;
    w := new Writer();
    for n := 0 to |steps|
      invariant fresh(w) && w.Now() == After(steps, clock, pairs, n)
    {
      hide AfterUpdate, AfterClose, AfterConfirm, AfterReboot, ReadsAll, OnlyClosed, ClosedBars, IsSeed, AllAligned;
      AlignedAfter(steps, clock, pairs, n);
      assert OnGrid(steps[n]);
      match steps[n] {
        case Update(k) => w.HandleCandleUpdate(k, clock[n]);
        case Close(k) => w.HandleCandleClosed(k);
        case Confirm(k, rows) => w.ApplyRestConfirm(k, rows, clock[n]);
        case Reboot => w.Restart(pairs);
      }
    }
    FiresOncePerInstant(steps, clock, pairs);
  }
}

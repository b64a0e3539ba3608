/** Where the promises end: concrete inputs on which a step does harm, next to the exact
    conditions proved elsewhere. */
module Limits {
  import opened Wrappers
  import opened Sums
  import opened Exchange
  import opened Ledger
  import opened Broker
  import Fills
  import Flatten
  import Ingest
  import Reconcile
  import Sizing

  function Bid(userref: nat, t: Txid): Row {
    Fills.BidRow(0, 1, userref, 100.0, 90.0, 4.0).(txid := Some(t))
  }

  function Lot(userref: nat, t: Txid, stop: Txid): Row {
    Bid(userref, t).(status := RowOpen, stopTxid := Some(stop))
  }

  function Buy1(userref: nat): Order {
    Order(0, Buy, Limit, 100.0, 1, 1, Closed, userref)
  }

  function Stop1(exec: nat): Order {
    Order(0, Sell, StopLoss, 90.0, 1, exec, if exec == 1 then Closed else Resting, 0)
  }

  /** Two lots of one pair, each with its stop; the older stop has executed. */
  const LOTS := [Lot(0, 0, 2), Lot(1, 1, 3)]
  const ORDERS := [Buy1(0), Buy1(1), Stop1(1), Stop1(0)]
  const HISTORY := Tags([Some(0), Some(1)], [1, 1], [0, 1, 0, 1])

  lemma SumOf4(a: int, b: int, c: int, d: int)
    ensures Sum([a, b, c, d]) == a + b + c + d
    ensures Sum([a, b]) == a + b
  {
    SumPush([], a);
    SumPush([a], b);
    assert [] + [a] == [a] && [a] + [b] == [a, b];
    SumPush([a, b], c);
    SumPush([a, b, c], d);
    assert [a, b] + [c] == [a, b, c] && [a, b, c] + [d] == [a, b, c, d];
  }

  lemma NetOf4(book: Book)
    requires |book| == 4
    ensures Net(book, 0) == Signed(book[0], 0) + Signed(book[1], 0) + Signed(book[2], 0) + Signed(book[3], 0)
  {
    var s: seq<int> := seq(|book|, t requires 0 <= t < |book| => Signed(book[t], 0));
    assert s == [s[0], s[1], s[2], s[3]];
    SumOf4(s[0], s[1], s[2], s[3]);
  }

  lemma TwoLots()
    ensures Inv(LOTS, HISTORY, ORDERS)
    ensures Net(ORDERS, 0) == 1
  {
    NetOf4(ORDERS);
    NoSales(0, Some(2), HISTORY.own, ORDERS);
    NoSales(1, Some(3), HISTORY.own, ORDERS);
    forall p: Pair ensures Sum(Bares(LOTS, HISTORY, ORDERS, p)) <= Free(ORDERS, p) {
      var one := if p == 0 then 1 else 0;
      assert Bares(LOTS, HISTORY, ORDERS, p) == [0, 0];
      assert Slacks(ORDERS, p) == [one, one, 0 - one, 0 - one];
      SumOf4(0, 0, 0, 0);
      SumOf4(one, one, 0 - one, 0 - one);
    }
  }

  /** An executed stop whose status read failed eats its sibling's backing: with one lot left
      and its stop resting, pass 1 judges that living lot unbacked, so it would cancel the
      live stop and close the row. `Answered` is what rules this out. */
  lemma UnansweredStopEatsSibling(r: Reconcile.Reads)
    requires r == Reconcile.Reads(PositionsOf(ORDERS), map[3 := ORDERS[3]], map[], Some(map[3 := ORDERS[3]]))
    ensures Inv(LOTS, HISTORY, ORDERS) && Net(ORDERS, 0) == 1
    ensures Reconcile.ReadLater(r, ORDERS) && !Reconcile.Answered(LOTS, r, ORDERS)
    ensures Reconcile.VerdictOn(LOTS, 1, r).Unbacked? && Reconcile.StopShown(LOTS[1], r)
    ensures ORDERS[3].status.Resting? && ORDERS[3].exec == 0
  {
    hide Inv;
    TwoLots();
    PositionsAreNet(ORDERS, 0);
    assert Reconcile.Left(LOTS, r, 0, 0) == 1;
    assert Reconcile.Judge(LOTS, 0, r, 1) == Reconcile.Keep(1);
    assert Reconcile.Left(LOTS, r, 1, 0) == 0;
    assert LOTS[0].Exit() == Some(2) && 0 < ORDERS[2].exec;
  }

  // ── a flatten outrun by its own close ───────────────────────────────────────

  /** One lot with a close at work that rests when the position is read and has sold when the
      statuses are. */
  const WORKED := [Bid(0, 0).(status := RowOpen, closeTxid := Some(1))]
  const CLOSING := Order(0, Sell, Limit, 104.0, 1, 0, Resting, 0)
  const AT_READ := [Buy1(0), CLOSING]
  const SOLD := [Buy1(0), CLOSING.(exec := 1, status := Closed)]

  lemma TwoOrders(book: Book, p: Pair)
    requires |book| == 2
    ensures Net(book, p) == Signed(book[0], p) + Signed(book[1], p)
    ensures Free(book, p) == Slack(book[0], p) + Slack(book[1], p)
  {
    var s: seq<int> := seq(|book|, t requires 0 <= t < |book| => Signed(book[t], p));
    assert s == [s[0], s[1]] && Slacks(book, p) == [Slack(book[0], p), Slack(book[1], p)];
    SumOf4(s[0], s[1], 0, 0);
    SumOf4(Slack(book[0], p), Slack(book[1], p), 0, 0);
  }

  lemma OneLotWorked(tags: Tags)
    requires tags == Tags([Some(0)], [1], [0, 0])
    ensures Inv(WORKED, tags, AT_READ)
  {
    NoSales(0, Some(1), tags.own, AT_READ);
    forall p: Pair ensures Sum(Bares(WORKED, tags, AT_READ, p)) <= Free(AT_READ, p) {
      TwoOrders(AT_READ, p);
      assert Bares(WORKED, tags, AT_READ, p) == [0];
      SumPush([], 0);
      assert [] + [0] == [0];
    }
  }

  /** The position reads one lot, the close fills, its status reads spent: nothing is free any
      more, and a sell of the volume that was read would uncover the account. */
  lemma CloseOutrunsReading(again: Order)
    requires again == NewOrder(0, Sell, Limit, again.price, Long(PositionsOf(AT_READ), 0), 0)
    ensures Inv(WORKED, Tags([Some(0)], [1], [0, 0]), AT_READ)
    ensures SOLD == Play(AT_READ, [Fill(1, 1)]) && Flatten.SoldBetween(map[1 := SOLD[1]], AT_READ, 0)
    ensures Long(PositionsOf(AT_READ), 0) == 1 && Free(SOLD, 0) == 0 && Covered(SOLD) && !Covered(SOLD + [again])
  {
    var tags := Tags([Some(0)], [1], [0, 0]);
    hide Inv;
    OneLotWorked(tags);
    forall p: Pair ensures Free(SOLD, p) == 0 {
      TwoOrders(SOLD, p);
    }
    assert Play(AT_READ, [Fill(1, 1)][..0]) == AT_READ && Step(AT_READ, Fill(1, 1)) == SOLD;
    TwoOrders(AT_READ, 0);
    PositionsAreNet(AT_READ, 0);
    CoveredIffFree(SOLD);
    PushFree(SOLD, again, 0);
    CoveredIffFree(SOLD + [again]);
  }

  // ── a restart that forgot ───────────────────────────────────────────────────

  const UNSTORED := Ingest.Key(0, 1440, 0)

  /** A daily bar that is not in the store is reported closed, the process restarts, and the same
      close arrives again: it fires twice. */
  lemma RestartFiresTwice(clock: seq<int>)
    requires |clock| == 3
    ensures var fired := Ingest.After([Ingest.Close(UNSTORED), Ingest.Reboot, Ingest.Close(UNSTORED)], clock, [0], 3).fired;
            |fired| == 2 && fired[0] == fired[1] && !Ingest.OncePerInstant(fired)
  {
    hide Ingest.AfterClose, Ingest.ReadsAll, Ingest.AfterReboot;
    var steps := [Ingest.Close(UNSTORED), Ingest.Reboot, Ingest.Close(UNSTORED)];
    var first := Ingest.AfterClose(Ingest.START, UNSTORED);
    Ingest.CloseFiresOnce(Ingest.START, UNSTORED);
    assert first.candles == map[];
    Ingest.RefiresIffForgotten(first, [0], UNSTORED);
    var back := Forgot(first);
    Ingest.CloseFiresOnce(back, UNSTORED);
    var last := Ingest.AfterClose(back, UNSTORED);
    assert last.candles == map[];
    assert Ingest.After(steps, clock, [0], 1) == first;
    assert Ingest.After(steps, clock, [0], 2) == back;
    assert Ingest.After(steps, clock, [0], 3) == last;
  }

  lemma Forgot(s: Ingest.State) returns (back: Ingest.State)
    requires s.candles == map[]
    ensures back == Ingest.AfterReboot(s, [0]) && back.candles == map[] && back.fired == s.fired
  {
    back := Ingest.AfterReboot(s, [0]);
  }

  // ── a pre-gate that refuses too much ────────────────────────────────────────

  /** With a minimum of one lot at ten dollars and a multiplier of one and a half, the pre-gate
      asks for fifteen dollars, while the order it skips is one lot for ten. */
  lemma PreGateSkipsFundable()
    ensures var (p, price, smult) := (Sizing.Pair(1.0, 0.0), 10.0, 1.5);
            && Sizing.WouldRefuse(12.0, p, price, smult)
            && Sizing.Size(p, price, None, smult) == Some(1) && !Sizing.Refused(12.0, 1, price)
  {
    var p := Sizing.Pair(1.0, 0.0);
    Sizing.MinVolumeIsLeast(p, 10.0, 1);
    Sizing.MinVolumeIsLeast(p, 10.0, 0);
    assert Sizing.MinVolume(p, 10.0) == 1;
    assert (1.0 * 1.5).Floor == 1;
  }
}

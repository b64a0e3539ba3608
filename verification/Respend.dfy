/** The respend governor: a leaky bucket over the notional of new growth. Times are seconds,
    the rate is dollars per hour. */
module Respend {
  import opened Wrappers

  const SLACK: real := 0.000000001

  /** The stored level and when it was written; None before the first write. */
  datatype Stored = Stored(tokens: real, updated: real)
  type Bucket = Option<Stored>

  /** The configured pace; a burst of zero means one hour's worth. */
  datatype Pace = Pace(rate: real, burst: real)
  {
    predicate On() {
      0.0 < rate && 0.0 < burst
    }

    function Accrual(seconds: real): real {
      if seconds <= 0.0 then 0.0 else seconds * rate / 3600.0
    }
  }

  function Least(a: real, b: real): real {
    if b < a then b else a
  }

  /** The level at time `t`. */
  function Level(b: Bucket, p: Pace, t: real): real {
    match b
    case None => p.burst
    case Some(s) => Least(p.burst, s.tokens + p.Accrual(t - s.updated))
  }

  ghost predicate Sane(b: Bucket, p: Pace, now: real) {
    p.On() && (b.Some? ==> 0.0 <= b.value.tokens <= p.burst && b.value.updated <= now)
  }

  // ── what the three operations leave behind ──────────────────────────────────

  function Rewritten(b: Bucket, p: Pace, now: real): Bucket {
    Some(Stored(Level(b, p, now), now))
  }

  function Debited(b: Bucket, p: Pace, amount: real, now: real): Bucket {
    var left := Level(b, p, now) - amount;
    Some(Stored(if left < 0.0 then 0.0 else left, now))
  }

  function Credited(b: Bucket, p: Pace, amount: real, now: real): Bucket {
    if amount <= 0.0 then b else Some(Stored(Least(p.burst, Level(b, p, now) + amount), now))
  }

  /** The order fits the level, up to a billionth of a dollar. */
  predicate Funded(b: Bucket, p: Pace, amount: real, now: real) {
    amount <= Level(b, p, now) + 0.000000001
  }

  class Governor {
    var bucket: Bucket
    const pace: Pace

    constructor (rate: real, burst: real)
      ensures bucket == None && pace == Pace(rate, if burst == 0.0 then rate else burst)
    {
      bucket, pace := None, Pace(rate, if burst == 0.0 then rate else burst);
    }

    /** The check before an order: switched off it always passes; a refusal writes the level
        back, a pass writes nothing. */
    method BudgetOk(amount: real, now: real) returns (ok: bool)
      modifies this
      ensures ok <==> pace.rate <= 0.0 || Funded(old(bucket), pace, amount, now)
      ensures bucket == if ok then old(bucket) else Rewritten(old(bucket), pace, now)
    {
      ok := pace.rate <= 0.0;
      if !ok {
        var tokens := Level(bucket, pace, now);
        ok := amount <= tokens + SLACK;
        if !ok {
          bucket := Some(Stored(tokens, now));
        }
      }
    }

    /** Only after the order rests. */
    method Debit(amount: real, now: real)
      modifies this
      ensures bucket == if pace.rate <= 0.0 then old(bucket) else Debited(old(bucket), pace, amount, now)
    {
      if 0.0 < pace.rate {
        var left := Level(bucket, pace, now) - amount;
        bucket := Some(Stored(if left < 0.0 then 0.0 else left, now));
      }
    }

    /** A rested bid died unfilled: hand its claim back, up to the burst. */
    method Credit(amount: real, now: real)
      modifies this
      ensures bucket == if pace.rate <= 0.0 then old(bucket) else Credited(old(bucket), pace, amount, now)
    {
      if 0.0 < pace.rate && 0.0 < amount {
        var tokens := Level(bucket, pace, now);
        bucket := Some(Stored(Least(pace.burst, tokens + amount), now));
      }
    }

    /** One order from its check to its resting, or one refund; what it spent is returned. With the
        governor off nothing is checked and nothing written. */
    method Handle(op: Op) returns (spent: real)
      modifies this
      ensures 0.0 < pace.rate ==> bucket == Apply(old(bucket), pace, op) && spent == Spent(old(bucket), pace, op)
      ensures pace.rate <= 0.0 ==> bucket == old(bucket) && spent == if op.Order? && op.rests then op.amount else 0.0
    {
      spent := 0.0;
      match op {
        case Order(amount, at, rests, restsAt) =>
          var ok := BudgetOk(amount, at);
          if ok && rests {
            Debit(amount, restsAt);
            spent := amount;
          }
        case Refund(amount, at) =>
          Credit(amount, at);
      }
    }
  }

  // ── the level as a function of time ─────────────────────────────────────────

  lemma AccrualAdds(p: Pace, a: real, b: real)
    requires p.On() && 0.0 <= a && 0.0 <= b
    ensures p.Accrual(a + b) == p.Accrual(a) + p.Accrual(b)
    ensures 0.0 <= p.Accrual(a) && (0.0 < a ==> 0.0 < p.Accrual(a))
  {
    assert (a + b) * p.rate == a * p.rate + b * p.rate;
    if 0.0 < a {
      assert 0.0 < a * p.rate;
    }
  }

  /** Two buckets that agree now agree from now on. */
  lemma SameFromHere(b: Bucket, p: Pace, now: real, t: real)
    requires Sane(b, p, now) && now <= t
    ensures Level(b, p, t) == Least(p.burst, Level(b, p, now) + p.Accrual(t - now))
  {
    AccrualAdds(p, t - now, 0.0);
    if b.Some? {
      AccrualAdds(p, now - b.value.updated, t - now);
    }
  }

  /** A new bucket is full; and whatever it was, in an hour it earns exactly the rate, up to the burst.
      So after any number of seconds it has earned the same share of it. */
  lemma HourEarnsTheRate(b: Bucket, p: Pace, now: real, share: real)
    requires Sane(b, p, now) && 0.0 <= share
    ensures Level(None, p, now) == p.burst
    ensures Level(b, p, now + 3600.0 * share) == Least(p.burst, Level(b, p, now) + share * p.rate)
  {
    SameFromHere(b, p, now, now + 3600.0 * share);
    assert 3600.0 * share * p.rate / 3600.0 == share * p.rate;
  }

  /** Writing the level back at `now` is invisible at every later time exactly if the clock
      has not run backwards since the last write, or the bucket is full anyway. */
  lemma WriteBackIsNeutral(b: Bucket, p: Pace, now: real)
    requires p.On() && (b.Some? ==> 0.0 <= b.value.tokens <= p.burst)
    ensures (forall t :: now <= t ==> Level(Rewritten(b, p, now), p, t) == Level(b, p, t))
            <==> b.None? || b.value.updated <= now || b.value.tokens == p.burst
  {
    if b.None? || b.value.updated <= now {
      forall t | now <= t ensures Level(Rewritten(b, p, now), p, t) == Level(b, p, t) {
        SameFromHere(b, p, now, t);
        AccrualAdds(p, t - now, 0.0);
      }
    } else if b.value.tokens == p.burst {
      forall t | now <= t ensures Level(Rewritten(b, p, now), p, t) == Level(b, p, t) {
        AccrualAdds(p, t - now, 0.0);
        if b.value.updated <= t {
          AccrualAdds(p, t - b.value.updated, 0.0);
        }
      }
    } else {
      AccrualAdds(p, b.value.updated - now, 0.0);
      var t := b.value.updated;
      assert Level(Rewritten(b, p, now), p, t) != Level(b, p, t);
    }
  }

  /** A debit and a later credit of the same funded amount cancel out exactly, in spite of the
      cap, at every time after the credit. */
  lemma CreditUndoesDebit(b: Bucket, p: Pace, amount: real, spent: real, later: real, t: real)
    requires Sane(b, p, spent) && 0.0 < amount <= Level(b, p, spent) && spent <= later <= t
    ensures Level(Credited(Debited(b, p, amount, spent), p, amount, later), p, t) == Level(b, p, t)
  {
    var d := Debited(b, p, amount, spent);
    SameFromHere(b, p, spent, later);
    SameFromHere(d, p, spent, later);
    AccrualAdds(p, later - spent, 0.0);
    var c := Credited(d, p, amount, later);
    assert Level(c, p, later) == Level(b, p, later);
    SameFromHere(b, p, later, t);
    SameFromHere(c, p, later, t);
  }

  // ── the rate bound over any window ──────────────────────────────────────────

  /** What happens to the bucket: an order is tried (checked at one time, and debited at a
      later one if it passed and rests), or a dead bid is credited. */
  datatype Op = Order(amount: real, at: real, rests: bool, restsAt: real) | Refund(amount: real, at: real)
  {
    function Start(): real {
      at
    }

    function End(): real {
      if Order? then restsAt else at
    }
  }

  function Apply(b: Bucket, p: Pace, op: Op): Bucket {
    match op
    case Order(amount, at, rests, restsAt) =>
      if !Funded(b, p, amount, at) then Rewritten(b, p, at)
      else if rests then Debited(b, p, amount, restsAt) else b
    case Refund(amount, at) => Credited(b, p, amount, at)
  }

  function Spent(b: Bucket, p: Pace, op: Op): real {
    if op.Order? && op.rests && Funded(b, p, op.amount, op.at) then op.amount else 0.0
  }

  function Returned(op: Op): real {
    if op.Refund? && 0.0 < op.amount then op.amount else 0.0
  }

  function After(b: Bucket, p: Pace, ops: seq<Op>): Bucket {
    if |ops| == 0 then b else Apply(After(b, p, ops[..|ops| - 1]), p, ops[|ops| - 1])
  }

  function AllSpent(b: Bucket, p: Pace, ops: seq<Op>): real {
    if |ops| == 0 then 0.0
    else AllSpent(b, p, ops[..|ops| - 1]) + Spent(After(b, p, ops[..|ops| - 1]), p, ops[|ops| - 1])
  }

  /** How many of the operations are orders: the checks that grant the tolerance. */
  function Orders(ops: seq<Op>): nat {
    if |ops| == 0 then 0 else Orders(ops[..|ops| - 1]) + if ops[|ops| - 1].Order? then 1 else 0
  }

  function AllReturned(ops: seq<Op>): real {
    if |ops| == 0 then 0.0 else AllReturned(ops[..|ops| - 1]) + Returned(ops[|ops| - 1])
  }

  /** A clock that does not run backwards, from `t0` on. */
  predicate InOrder(ops: seq<Op>, t0: real) {
    && (forall i :: 0 <= i < |ops| ==> t0 <= ops[i].Start() <= ops[i].End() && (ops[i].Order? ==> 0.0 <= ops[i].amount))
    && (forall i, j :: 0 <= i < j < |ops| ==> ops[i].End() <= ops[j].Start())
  }

  function LastTime(ops: seq<Op>, t0: real): real {
    if |ops| == 0 then t0 else ops[|ops| - 1].End()
  }

  /** The level just before `at`, and that accrual is never negative. */
  lemma LevelAt(b: Bucket, p: Pace, t: real, at: real)
    requires Sane(b, p, t) && t <= at
    ensures Sane(b, p, at) && 0.0 <= Level(b, p, at) <= p.burst
    ensures Level(b, p, t) <= Level(b, p, at) <= Level(b, p, t) + p.Accrual(at - t)
  {
    SameFromHere(b, p, t, at);
    AccrualAdds(p, at - t, 0.0);
    if b.Some? {
      AccrualAdds(p, t - b.value.updated, at - t);
    }
  }

  lemma ApplyBound(b: Bucket, p: Pace, op: Op, t: real)
    requires Sane(b, p, t) && t <= op.Start() <= op.End() && (op.Order? ==> 0.0 <= op.amount)
    ensures var b' := Apply(b, p, op);
            && Sane(b', p, op.End())
            && Spent(b, p, op) + Level(b', p, op.End())
               <= Level(b, p, t) + p.Accrual(op.End() - t) + Returned(op) + if op.Order? then 0.000000001 else 0.0
  {
    hide Pace.Accrual, Level;
    var (b', s, e) := (Apply(b, p, op), op.Start(), op.End());
    LevelAt(b, p, t, s);
    LevelAt(b, p, t, e);
    LevelAt(b, p, s, e);
    AccrualAdds(p, s - t, e - s);
    AccrualAdds(p, e - s, 0.0);
    assert (s - t) + (e - s) == e - t;
    assert p.Accrual(e - t) == p.Accrual(s - t) + p.Accrual(e - s);
    if b'.Some? {
      WrittenLevel(b'.value, p, b'.value.updated);
      LevelAt(b', p, b'.value.updated, e);
    }
  }

  /** Where neither the cap nor the floor is met, an operation moves the level by exactly what it spends or
      hands back, on top of what was earned meanwhile. */
  lemma LevelMovesBySpending(b: Bucket, p: Pace, op: Op, t: real)
    requires Sane(b, p, t) && t <= op.Start() <= op.End() && (op.Order? ==> 0.0 <= op.amount)
    requires op.Order? && op.rests ==> op.amount <= Level(b, p, op.End())
    requires op.Refund? ==> Level(b, p, op.at) + op.amount <= p.burst
    ensures Level(Apply(b, p, op), p, op.End()) == Level(b, p, op.End()) - Spent(b, p, op) + Returned(op)
  {
    var (s, e) := (op.Start(), op.End());
    SameFromHere(b, p, t, s);
    SameFromHere(b, p, t, e);
    LevelAt(b, p, t, s);
    LevelAt(b, p, t, e);
    SameFromHere(b, p, s, e);
    SameFromHere(Rewritten(b, p, s), p, s, e);
  }

  lemma WrittenLevel(s: Stored, p: Pace, t: real)
    requires p.On() && s.updated == t && 0.0 <= s.tokens <= p.burst
    ensures Level(Some(s), p, t) == s.tokens
  {
  }

  /** Over any window the orders put on the book cost at most what was in the bucket when it
      began, what it earned since, and what was handed back, up to the tolerance per order. */
  lemma {:induction false} RateBound(b: Bucket, p: Pace, ops: seq<Op>, t0: real)
    requires Sane(b, p, t0) && InOrder(ops, t0)
    ensures var t1 := LastTime(ops, t0);
            && t0 <= t1 && Sane(After(b, p, ops), p, t1)
            && AllSpent(b, p, ops) + Level(After(b, p, ops), p, t1)
               <= Level(b, p, t0) + p.Accrual(t1 - t0) + AllReturned(ops) + 0.000000001 * Orders(ops) as real
  {
    if |ops| > 0 {
      var init, op := ops[..|ops| - 1], ops[|ops| - 1];
      RateBound(b, p, init, t0);
      var mid := LastTime(init, t0);
      ApplyBound(After(b, p, init), p, op, mid);
      AccrualAdds(p, mid - t0, op.End() - mid);
    }
  }

  /** In particular: never more than the burst, the rate times the elapsed time, and the
      credits. */
  lemma WindowBound(b: Bucket, p: Pace, ops: seq<Op>, t0: real)
    requires Sane(b, p, t0) && InOrder(ops, t0)
    ensures AllSpent(b, p, ops) <= p.burst + p.Accrual(LastTime(ops, t0) - t0) + AllReturned(ops) + 0.000000001 * Orders(ops) as real
  {
    hide Pace.Accrual, Level, After, AllSpent, AllReturned;
    RateBound(b, p, ops, t0);
    LevelAt(b, p, t0, t0);
    LevelAt(After(b, p, ops), p, LastTime(ops, t0), LastTime(ops, t0));
  }

  lemma {:induction false} AfterAppend(b: Bucket, p: Pace, a: seq<Op>, c: seq<Op>)
    ensures After(b, p, a + c) == After(After(b, p, a), p, c)
    ensures AllSpent(b, p, a + c) == AllSpent(b, p, a) + AllSpent(After(b, p, a), p, c)
  {
    hide Apply, Spent;
    if |c| == 0 {
      assert a + c == a;
    } else {
      assert (a + c)[..|a + c| - 1] == a + c[..|c| - 1];
      AfterAppend(b, p, a, c[..|c| - 1]);
    }
  }

  /** A governor from its start through any sequence of orders and refunds. */
  method Run(rate: real, burst: real, ops: seq<Op>) returns (g: Governor, spent: real)
    ensures g.pace == Pace(rate, if burst == 0.0 then rate else burst)
    ensures 0.0 < rate ==> g.bucket == After(None, g.pace, ops) && spent == AllSpent(None, g.pace, ops)
    ensures rate <= 0.0 ==> g.bucket == None
    ensures 0.0 < rate && 0.0 <= burst ==>
              forall t0 :: InOrder(ops, t0) ==>
                             spent <= g.pace.burst + g.pace.Accrual(LastTime(ops, t0) - t0) + AllReturned(ops) + 0.000000001 * Orders(ops) as real
  {
    hide Apply, Spent;
    g := new Governor(rate, burst);
    spent := 0.0;
    for n := 0 to |ops|
      invariant fresh(g) && g.pace == Pace(rate, if burst == 0.0 then rate else burst)
      invariant 0.0 < rate ==> g.bucket == After(None, g.pace, ops[..n]) && spent == AllSpent(None, g.pace, ops[..n])
      invariant rate <= 0.0 ==> g.bucket == None
    {
      assert ops[..n + 1][..n] == ops[..n];
      var cost := g.Handle(ops[n]);
      spent := spent + cost;
    }
    assert ops[..|ops|] == ops;
    if 0.0 < rate && 0.0 <= burst {
      forall t0 | InOrder(ops, t0)
        ensures spent <= g.pace.burst + g.pace.Accrual(LastTime(ops, t0) - t0) + AllReturned(ops) + 0.000000001 * Orders(ops) as real
      {
        WindowBound(None, g.pace, ops, t0);
      }
    }
  }

  /** The pace over any window of a run: what operations `i` to `j` spent is at most the burst, the
      rate times the time they took, and what they handed back, up to the tolerance per order. */
  lemma AnyWindow(p: Pace, ops: seq<Op>, t0: real, i: nat, j: nat)
    requires p.On() && InOrder(ops, t0) && i <= j <= |ops|
    ensures AllSpent(None, p, ops[..j]) - AllSpent(None, p, ops[..i])
            <= p.burst + p.Accrual(LastTime(ops[..j], t0) - LastTime(ops[..i], t0)) + AllReturned(ops[i..j])
               + 0.000000001 * Orders(ops[i..j]) as real
  {
    hide After, AllSpent, AllReturned, Level, Pace.Accrual;
    assert ops[..j] == ops[..i] + ops[i..j];
    AfterAppend(None, p, ops[..i], ops[i..j]);
    InOrderParts(ops, t0, i, j);
    RateBound(None, p, ops[..i], t0);
    WindowBound(After(None, p, ops[..i]), p, ops[i..j], LastTime(ops[..i], t0));
  }

  lemma InOrderParts(ops: seq<Op>, t0: real, i: nat, j: nat)
    requires InOrder(ops, t0) && i <= j <= |ops|
    ensures InOrder(ops[..i], t0) && InOrder(ops[i..j], LastTime(ops[..i], t0))
    ensures LastTime(ops[i..j], LastTime(ops[..i], t0)) == LastTime(ops[..j], t0)
  {
  }
}

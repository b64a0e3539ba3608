/** Finite sums: the arithmetic behind every per-pair total and every cash account. */
module Sums {
  import opened Wrappers

  function Sum(s: seq<int>): int {
    if |s| == 0 then 0 else Sum(s[..|s| - 1]) + s[|s| - 1]
  }

  lemma {:induction false} SumPush(a: seq<int>, x: int)
    ensures Sum(a + [x]) == Sum(a) + x
  {
  }

  /** Two sequences that differ at one place have sums that differ by that place. */
  lemma {:induction false} SumPoint(a: seq<int>, b: seq<int>, k: nat)
    requires |a| == |b| && k < |a|
    requires forall i :: 0 <= i < |a| && i != k ==> a[i] == b[i]
    ensures Sum(b) - Sum(a) == b[k] - a[k]
  {
    var n := |a| - 1;
    if k == n {
      assert a[..n] == b[..n];
    } else {
      SumPoint(a[..n], b[..n], k);
    }
  }

  lemma {:induction false} SumZeros(s: seq<int>)
    requires forall i :: 0 <= i < |s| ==> s[i] == 0
    ensures Sum(s) == 0
  {
    if |s| > 0 {
      SumZeros(s[..|s| - 1]);
    }
  }

  lemma {:induction false} SumMono(a: seq<int>, b: seq<int>)
    requires |a| == |b|
    requires forall i :: 0 <= i < |a| ==> a[i] <= b[i]
    ensures Sum(a) <= Sum(b)
  {
    if |a| > 0 {
      SumMono(a[..|a| - 1], b[..|a| - 1]);
    }
  }

  lemma {:induction false} SumNonNegative(a: seq<int>)
    requires forall i :: 0 <= i < |a| ==> 0 <= a[i]
    ensures 0 <= Sum(a)
    ensures forall i :: 0 <= i < |a| ==> a[i] <= Sum(a)
  {
    if |a| > 0 {
      SumNonNegative(a[..|a| - 1]);
      assert forall i :: 0 <= i < |a| - 1 ==> a[..|a| - 1][i] == a[i];
    }
  }

  lemma {:induction false} SumPlus(a: seq<int>, b: seq<int>, c: seq<int>)
    requires |a| == |b| == |c|
    requires forall i :: 0 <= i < |a| ==> c[i] == a[i] + b[i]
    ensures Sum(c) == Sum(a) + Sum(b)
  {
    if |a| > 0 {
      var n := |a| - 1;
      SumPlus(a[..n], b[..n], c[..n]);
    }
  }

  /** Re-indexing: if every non-zero entry of `a` is bounded by its own entry of the
      non-negative `b`, no two sharing one, then `a` sums to no more than `b`. */
  lemma {:induction false} SumInject(a: seq<int>, b: seq<int>, at: seq<Option<nat>>)
    requires |a| == |at|
    requires forall t :: 0 <= t < |b| ==> 0 <= b[t]
    requires forall i :: 0 <= i < |a| ==>
                           match at[i]
                           case None => a[i] <= 0
                           case Some(t) => t < |b| && a[i] <= b[t]
    requires forall i, j :: 0 <= i < j < |a| && at[i].Some? ==> at[i] != at[j]
    ensures Sum(a) <= Sum(b)
  {
    if |a| == 0 {
      SumNonNegative(b);
    } else {
      var n := |a| - 1;
      match at[n]
      case None =>
        SumInject(a[..n], b, at[..n]);
      case Some(t) =>
        var c := b[t := 0];
        SumPoint(c, b, t);
        SumInject(a[..n], c, at[..n]);
    }
  }

  // ── the same for real amounts ───────────────────────────────────────────────

  function Total(s: seq<real>): real {
    if |s| == 0 then 0.0 else Total(s[..|s| - 1]) + s[|s| - 1]
  }

  lemma TotalPush(a: seq<real>, x: real)
    ensures Total(a + [x]) == Total(a) + x
  {
  }

  lemma {:induction false} TotalPoint(a: seq<real>, b: seq<real>, k: nat)
    requires |a| == |b| && k < |a|
    requires forall i :: 0 <= i < |a| && i != k ==> a[i] == b[i]
    ensures Total(b) - Total(a) == b[k] - a[k]
  {
    var n := |a| - 1;
    if k == n {
      assert a[..n] == b[..n];
    } else {
      TotalPoint(a[..n], b[..n], k);
    }
  }

  lemma {:induction false} TotalPlus(a: seq<real>, b: seq<real>, c: seq<real>)
    requires |a| == |b| == |c|
    requires forall i :: 0 <= i < |a| ==> c[i] == a[i] + b[i]
    ensures Total(c) == Total(a) + Total(b)
  {
    if |a| > 0 {
      var n := |a| - 1;
      TotalPlus(a[..n], b[..n], c[..n]);
    }
  }

  /** Dropping entries that are zero changes no sum. */
  lemma {:induction false} TotalCut(a: seq<real>, k: nat)
    requires k < |a| && a[k] == 0.0
    ensures Total(a[..k] + a[k + 1..]) == Total(a)
  {
    var n := |a| - 1;
    if k == n {
      assert a[..k] + a[k + 1..] == a[..n];
    } else {
      TotalCut(a[..n], k);
      assert a[..k] + a[k + 1..] == (a[..n][..k] + a[..n][k + 1..]) + [a[n]];
      TotalPush(a[..n][..k] + a[..n][k + 1..], a[n]);
    }
  }

  lemma {:induction false} SumCut(a: seq<int>, k: nat)
    requires k < |a| && a[k] == 0
    ensures Sum(a[..k] + a[k + 1..]) == Sum(a)
  {
    var n := |a| - 1;
    if k == n {
      assert a[..k] + a[k + 1..] == a[..n];
    } else {
      SumCut(a[..n], k);
      assert a[..k] + a[k + 1..] == (a[..n][..k] + a[..n][k + 1..]) + [a[n]];
      SumPush(a[..n][..k] + a[..n][k + 1..], a[n]);
    }
  }
}

/** The iteration controller (phaul/iters.py, `iter_consts` and the progress checks). */
module Progress {
  import opened Prelude

  const MAX_ITERS_COUNT: nat := 8
  const MIN_ITER_PAGES_COUNT: nat := 64
  const MIN_ITER_FS_XFER_BYTES: nat := 0x100000
  const MAX_ITER_GROW_RATE := 10

  /** In percents, rounded down: Python 2 divides integers towards minus infinity, and so
      does Dafny for a positive divisor. */
  function CalcGrowRate(value: nat, prev: nat): int
    requires prev > 0
  {
    (value - prev) * 100 / prev
  }

  /** `__check_live_iter_progress` and `__check_restart_iter_progress`: they differ in `minimum`. */
  predicate CheckProgress(limit: nat, minimum: nat, index: nat, value: nat, prev: Option<nat>)
    requires prev.Some? ==> prev.value > 0
  {
    if value <= minimum then false
    else if prev.Some? && CalcGrowRate(value, prev.value) > MAX_ITER_GROW_RATE then false
    else index < limit
  }

  predicate CheckLive(index: nat, pages: nat, prev: Option<nat>)
    requires prev.Some? ==> prev.value > 0
  {
    CheckProgress(MAX_ITERS_COUNT, MIN_ITER_PAGES_COUNT, index, pages, prev)
  }

  predicate CheckRestart(index: nat, bytes: nat, prev: Option<nat>)
    requires prev.Some? ==> prev.value > 0
  {
    CheckProgress(MAX_ITERS_COUNT, MIN_ITER_FS_XFER_BYTES, index, bytes, prev)
  }

  // ---- the declarative stop condition ------------------------------------------------

  /** Iteration `k` is the last: little was sent, it grew by eleven percent, or it is one too many. */
  predicate StopsAt(limit: nat, minimum: nat, sent: seq<nat>, k: nat)
    requires k < |sent|
  {
    sent[k] <= minimum || (k > 0 && 100 * sent[k] >= 111 * sent[k - 1]) || k >= limit
  }

  /** All the iterations of a finished or unfinished loop but the last went on. */
  ghost predicate WentOn(limit: nat, minimum: nat, sent: seq<nat>, n: nat)
    requires n <= |sent|
  {
    forall k: nat | k < n :: !StopsAt(limit, minimum, sent, k)
  }

  /** Growing by more than ten percent, rounded down, is growing to 111 percent or more. */
  lemma GrowRateBound(value: nat, prev: nat)
    requires prev > 0
    ensures CalcGrowRate(value, prev) > MAX_ITER_GROW_RATE <==> 100 * value >= 111 * prev
  {
    var d := (value - prev) * 100;
    assert d == (d / prev) * prev + d % prev;
    FloorAbove(d, prev, d / prev);
  }

  lemma FloorAbove(d: int, prev: nat, q: int)
    requires q * prev <= d < q * prev + prev
    ensures q > 10 <==> d >= 11 * prev
  {
    if q > 10 {
      assert (q - 11) * prev >= 0;
    } else {
      assert (10 - q) * prev >= 0;
    }
  }

  /** The check of iteration `k` fails exactly when the stop condition holds. */
  lemma CheckIsStop(limit: nat, minimum: nat, sent: seq<nat>, k: nat)
    requires k < |sent| && (k > 0 ==> sent[k - 1] > 0)
    ensures CheckProgress(limit, minimum, k, sent[k], if k == 0 then None else Some(sent[k - 1]))
       <==> !StopsAt(limit, minimum, sent, k)
  {
    if k > 0 {
      GrowRateBound(sent[k], sent[k - 1]);
    }
  }

  /** In plain numbers: the live loop goes on from 65 pages, below 111 percent of the round before,
      up to index 7; */
  lemma LiveDecision(index: nat, pages: nat, prev: Option<nat>)
    requires prev.Some? ==> prev.value > 0
    ensures CheckLive(index, pages, prev) <==>
      pages >= 65 && index <= 7 && (prev.Some? ==> 100 * pages < 111 * prev.value)
  {
    if prev.Some? {
      GrowRateBound(pages, prev.value);
    }
  }

  /** and the restart loop from one byte above a mebibyte. */
  lemma RestartDecision(index: nat, bytes: nat, prev: Option<nat>)
    requires prev.Some? ==> prev.value > 0
    ensures CheckRestart(index, bytes, prev) <==>
      bytes >= 1048577 && index <= 7 && (prev.Some? ==> 100 * bytes < 111 * prev.value)
  {
    if prev.Some? {
      GrowRateBound(bytes, prev.value);
    }
  }

  /** The growth divisor is above the minimum in every iteration that has a predecessor. */
  lemma DivisorPositive(limit: nat, minimum: nat, sent: seq<nat>, k: nat)
    requires 0 < k <= |sent| && WentOn(limit, minimum, sent, k)
    ensures sent[k - 1] > minimum
  {
    assert !StopsAt(limit, minimum, sent, k - 1);
  }

  /** A loop that stopped did so at the least index where it could, after at most limit + 1 iterations. */
  lemma StopsLeast(limit: nat, minimum: nat, sent: seq<nat>)
    requires sent != [] && WentOn(limit, minimum, sent, |sent| - 1)
    ensures |sent| <= limit + 1
    ensures StopsAt(limit, minimum, sent, |sent| - 1) ==>
      forall k: nat | k < |sent| :: StopsAt(limit, minimum, sent, k) <==> k == |sent| - 1
  {
    assert limit < |sent| - 1 ==> !StopsAt(limit, minimum, sent, limit);
  }

  // ---- the geometric bound -------------------------------------------------------------

  function Pow(b: nat, n: nat): nat {
    if n == 0 then 1 else b * Pow(b, n - 1)
  }

  function Sum(s: seq<nat>): nat {
    if s == [] then 0 else Sum(s[..|s| - 1]) + s[|s| - 1]
  }

  lemma {:induction false} TermBound(limit: nat, minimum: nat, sent: seq<nat>, k: nat)
    requires k < |sent| && WentOn(limit, minimum, sent, |sent|)
    ensures Pow(100, k) * sent[k] <= Pow(111, k) * sent[0]
  {
    if k > 0 {
      TermBound(limit, minimum, sent, k - 1);
      assert !StopsAt(limit, minimum, sent, k);
      TermStep(Pow(100, k - 1), Pow(111, k - 1), sent[k], sent[k - 1], sent[0]);
    }
  }

  lemma TermStep(a: nat, b: nat, x: nat, y: nat, first: nat)
    requires a * y <= b * first && 100 * x <= 111 * y
    ensures (100 * a) * x <= (111 * b) * first
  {
    assert a * (100 * x) <= a * (111 * y);
  }

  /** Each iteration that went on sent less than 111 percent of the one before, so together n of
      them sent at most a geometric sum. */
  lemma {:induction false} GeometricBound(limit: nat, minimum: nat, sent: seq<nat>)
    requires sent != [] && WentOn(limit, minimum, sent, |sent|)
    ensures forall k: nat | 0 < k < |sent| :: 100 * sent[k] < 111 * sent[k - 1]
    ensures 11 * Pow(100, |sent| - 1) * Sum(sent) <= sent[0] * (Pow(111, |sent|) - Pow(100, |sent|))
  {
    forall k: nat | 0 < k < |sent| ensures 100 * sent[k] < 111 * sent[k - 1] {
      assert !StopsAt(limit, minimum, sent, k);
    }
    var n := |sent| - 1;
    if n == 0 {
      assert Sum(sent) == Sum(sent[..0]) + sent[0];
      assert Pow(111, 1) == 111 * Pow(111, 0) && Pow(100, 1) == 100 * Pow(100, 0);
    } else {
      var init := sent[..n];
      forall k: nat | k < n ensures !StopsAt(limit, minimum, init, k) {
        assert !StopsAt(limit, minimum, sent, k);
      }
      GeometricBound(limit, minimum, init);
      TermBound(limit, minimum, sent, n);
      SumStep(Pow(100, n - 1), Pow(111, n), Sum(init), sent[n], sent[0]);
    }
  }

  lemma SumStep(a: nat, b: nat, sum: nat, last: nat, first: nat)
    requires 11 * a * sum <= first * (b - 100 * a)
    requires 100 * a * last <= b * first
    ensures 11 * (100 * a) * (sum + last) <= first * (111 * b - 100 * (100 * a))
  {
    calc {
      11 * (100 * a) * (sum + last);
      100 * (11 * a * sum) + 11 * (100 * a * last);
      <=
      100 * (first * (b - 100 * a)) + 11 * (b * first);
      first * (111 * b - 100 * (100 * a));
    }
  }
}

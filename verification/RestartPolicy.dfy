/** The sentinel's restart budget: at most `maxRestarts` per fixed window, each attempt preceded by an
    exponential backoff.  `Decide` is one decision; a history is the sequence of restarts that were
    committed to the state file, each with the time it was decided and the time it was written. */
module RestartPolicy {
  import opened DaemonState
  import opened Wrappers
  import opened Powers
  import opened Timing

  datatype Policy = Policy(windowMs: int, maxRestarts: int, initialBackoffMs: int, maxBackoffMs: int)

  datatype Decision = Decision(allowed: bool, count: nat, windowStart: int, backoffMs: int)

  /** The pause before the `count`-th restart of a window. */
  function Backoff(p: Policy, count: nat): int {
    Min(p.maxBackoffMs, p.initialBackoffMs * Pow2(if count >= 1 then count - 1 else 0))
  }

  function WindowStart(s: State): Option<int> {
    if s.restartWindowStartedAt.Some? then s.restartWindowStartedAt else s.lastRestartAt
  }

  predicate WithinWindow(p: Policy, s: State, now: int) {
    WindowStart(s).Some? && now - WindowStart(s).value <= p.windowMs
  }

  function Decide(p: Policy, s: State, now: int): Decision {
    var within := WithinWindow(p, s, now);
    var next := (if within then s.restartCount else 0) + 1;
    Decision(next <= p.maxRestarts, next, if within then WindowStart(s).value else now, Backoff(p, next))
  }

  /** One restart that reached the file. */
  datatype Restart = Restart(decidedAt: int, committedAt: int, windowStart: int, count: nat)

  predicate OpensWindow(r: Restart) {
    r.count == 1 && r.windowStart == r.decidedAt
  }

  /** `next` may come after `prev`: it continues the window after its backoff, or the window has lapsed. */
  predicate Follows(p: Policy, prev: Restart, next: Restart) {
    && prev.committedAt <= next.decidedAt
    && (|| (&& next.windowStart == prev.windowStart
            && next.count == prev.count + 1
            && next.decidedAt <= next.windowStart + p.windowMs
            && next.decidedAt >= prev.committedAt + Backoff(p, next.count))
        || (OpensWindow(next) && next.decidedAt > prev.windowStart + p.windowMs))
  }

  predicate Admissible(p: Policy, h: seq<Restart>) {
    && (forall i :: 0 <= i < |h| ==> h[i].decidedAt <= h[i].committedAt && 1 <= h[i].count <= p.maxRestarts)
    && (|h| > 0 ==> OpensWindow(h[0]))
    && (forall i :: 0 < i < |h| ==> Follows(p, h[i - 1], h[i]))
  }

  lemma {:induction false} TimesAreOrdered(p: Policy, h: seq<Restart>, i: nat, j: nat)
    requires Admissible(p, h) && i <= j < |h|
    ensures h[i].committedAt <= h[j].committedAt
    ensures i < j ==> h[i].committedAt <= h[j].decidedAt
    decreases j
  {
    if i < j {
      TimesAreOrdered(p, h, i, j - 1);
      assert Follows(p, h[j - 1], h[j]);
    }
  }

  /** Between i and j either no window was opened, and the counts kept step, or one was. */
  lemma {:induction false} WindowOrReset(p: Policy, h: seq<Restart>, i: nat, j: nat) returns (k: nat)
    requires Admissible(p, h) && i <= j < |h|
    ensures i <= k <= j
    ensures k == i ==> h[j].windowStart == h[i].windowStart && h[j].count == h[i].count + (j - i)
    ensures k > i ==> && OpensWindow(h[k]) && h[k].decidedAt > h[k - 1].windowStart + p.windowMs
                      && h[k - 1].windowStart == h[i].windowStart && h[k - 1].count == h[i].count + (k - 1 - i)
    decreases j
  {
    if i == j {
      k := i;
    } else {
      k := WindowOrReset(p, h, i, j - 1);
      assert Follows(p, h[j - 1], h[j]);
      if k == i && !(h[j].windowStart == h[j - 1].windowStart && h[j].count == h[j - 1].count + 1) {
        k := j;
      }
    }
  }

  /** Restarts of one window that are both in the history are consecutive, so a window commits at most
      `maxRestarts` of them. */
  lemma OneWindowAtMostMax(p: Policy, h: seq<Restart>, i: nat, j: nat)
    requires Admissible(p, h) && i <= j < |h|
    requires p.windowMs >= 0
    requires h[i].windowStart == h[j].windowStart
    ensures h[j].count == h[i].count + (j - i)
    ensures j - i + 1 <= p.maxRestarts
  {
    var k := WindowOrReset(p, h, i, j);
    if k > i {
      WindowsAdvance(p, h, k, j);
    }
  }

  lemma {:induction false} WindowsAdvance(p: Policy, h: seq<Restart>, i: nat, j: nat)
    requires Admissible(p, h) && i <= j < |h| && p.windowMs >= 0
    ensures h[i].windowStart <= h[j].windowStart
    decreases j
  {
    if i < j {
      WindowsAdvance(p, h, i, j - 1);
      assert Follows(p, h[j - 1], h[j]);
    }
  }

  /** Two restarts written within one window length of each other are at most 2 * maxRestarts apart. */
  lemma AnyIntervalAtMostTwiceMax(p: Policy, h: seq<Restart>, a: nat, b: nat)
    requires Admissible(p, h) && a <= b < |h|
    requires h[b].committedAt - h[a].committedAt <= p.windowMs
    ensures b - a + 1 <= 2 * p.maxRestarts
  {
    var k := WindowOrReset(p, h, a, b);
    if k > a {
      var m := WindowOrReset(p, h, k, b);
      if m > k {
        TimesAreOrdered(p, h, a, k);
        TimesAreOrdered(p, h, m, b);
        assert false;
      }
    }
  }

  lemma {:induction false} RangeCardinality(s: set<int>, lo: int, n: nat)
    requires forall x :: x in s ==> lo <= x < lo + n
    ensures |s| <= n
    decreases n
  {
    if n == 0 {
      forall x | x in s ensures false {
      }
      assert s == {};
    } else {
      RangeCardinality(s - {lo + n - 1}, lo, n - 1);
    }
  }

  /** Any closed interval as long as the window holds at most 2 * maxRestarts restarts. */
  lemma IntervalBound(p: Policy, h: seq<Restart>, lo: int)
    requires Admissible(p, h)
    ensures var hits := set i | 0 <= i < |h| && lo <= h[i].committedAt <= lo + p.windowMs;
            hits != {} ==> |hits| <= 2 * p.maxRestarts
  {
    var hits := set i | 0 <= i < |h| && lo <= h[i].committedAt <= lo + p.windowMs;
    if x :| x in hits {
      var first: nat := x;
      while exists y :: y in hits && y < first
        invariant first in hits
        decreases first
      {
        var earlier :| earlier in hits && earlier < first;
        first := earlier;
      }
      assert 0 <= p.maxRestarts;
      forall y | y in hits ensures first <= y < first + 2 * p.maxRestarts {
        AnyIntervalAtMostTwiceMax(p, h, first, y);
      }
      RangeCardinality(hits, first, 2 * p.maxRestarts);
    }
  }

  // ----- The pauses, in the policy's own numbers. -----

  function Doubled(ms: int, times: nat): int {
    if times == 0 then ms else Doubled(ms, times - 1) + Doubled(ms, times - 1)
  }

  /** The pause promised before the `count`-th restart of a window: the initial one, doubled for each restart before it
      but never longer than the longest one. */
  function PromisedPause(p: Policy, count: nat): int
    requires count >= 1
  {
    var doubled := Doubled(p.initialBackoffMs, count - 1);
    if doubled > p.maxBackoffMs then p.maxBackoffMs else doubled
  }

  lemma {:induction false} DoubledIsPower(ms: int, times: nat)
    ensures Doubled(ms, times) == ms * Pow2(times)
    decreases times
  {
    if times > 0 {
      DoubledIsPower(ms, times - 1);
      assert ms * Pow2(times) == ms * Pow2(times - 1) + ms * Pow2(times - 1);
    }
  }

  lemma BackoffIsPromised(p: Policy, count: nat)
    requires count >= 1
    ensures Backoff(p, count) == PromisedPause(p, count)
  {
    DoubledIsPower(p.initialBackoffMs, count - 1);
  }

  /** The pauses before the restarts numbered from + 1 .. to. */
  function PromisedSpacing(p: Policy, from: nat, to: nat): int
    requires from <= to
  {
    if from == to then 0 else PromisedSpacing(p, from, to - 1) + PromisedPause(p, to)
  }

  /** A later restart of the same window comes at least the pauses in between after the earlier one
      was written; from the first (count 1) to the k-th that is the sum for 2 .. k. */
  lemma {:induction false} BackoffsAccumulate(p: Policy, h: seq<Restart>, i: nat, j: nat)
    requires Admissible(p, h) && i < j < |h| && p.windowMs >= 0
    requires h[i].windowStart == h[j].windowStart
    ensures h[i].count <= h[j].count
    ensures h[j].decidedAt - h[i].committedAt >= PromisedSpacing(p, h[i].count, h[j].count)
    decreases j
  {
    OneWindowAtMostMax(p, h, i, j);
    WindowsAdvance(p, h, i, j - 1);
    WindowsAdvance(p, h, j - 1, j);
    assert Follows(p, h[j - 1], h[j]);
    BackoffIsPromised(p, h[j].count);
    if i < j - 1 {
      BackoffsAccumulate(p, h, i, j - 1);
    } else {
      assert PromisedSpacing(p, h[i].count, h[i].count) == 0;
    }
  }

  // ----- One decision, in terms of the restarts made so far. -----

  /** The restarts of the window that is still open at a time. */
  ghost function InOpenWindow(p: Policy, h: seq<Restart>, now: int): set<int> {
    if |h| == 0 || now - h[|h| - 1].windowStart > p.windowMs then {}
    else set k | 0 <= k < |h| && h[k].windowStart == h[|h| - 1].windowStart
  }

  /** Going back from the last restart, its window holds as many as it counts. */
  lemma {:induction false} CountsBack(p: Policy, h: seq<Restart>, back: nat)
    requires Admissible(p, h) && |h| > 0 && back < h[|h| - 1].count
    ensures back < |h|
    ensures h[|h| - 1 - back].windowStart == h[|h| - 1].windowStart
    ensures h[|h| - 1 - back].count == h[|h| - 1].count - back
    decreases back
  {
    if back > 0 {
      CountsBack(p, h, back - 1);
      var i := |h| - back;
      assert i > 0 ==> Follows(p, h[i - 1], h[i]);
    }
  }

  lemma {:induction false} IntervalSize(s: set<int>, lo: int, n: nat)
    requires forall x :: x in s <==> lo <= x < lo + n
    ensures |s| == n
    decreases n
  {
    if n == 0 {
      forall x | x in s ensures false {
      }
      assert s == {};
    } else {
      IntervalSize(s - {lo + n - 1}, lo, n - 1);
    }
  }

  lemma OpenWindowSize(p: Policy, h: seq<Restart>, now: int)
    requires Admissible(p, h) && p.windowMs >= 0 && |h| > 0
    ensures |InOpenWindow(p, h, now)| == if now - h[|h| - 1].windowStart <= p.windowMs then h[|h| - 1].count else 0
  {
    var n, count := |h|, h[|h| - 1].count;
    if now - h[n - 1].windowStart <= p.windowMs {
      CountsBack(p, h, count - 1);
      forall k
        ensures k in InOpenWindow(p, h, now) <==> n - count <= k < n
      {
        if 0 <= k < n && h[k].windowStart == h[n - 1].windowStart {
          OneWindowAtMostMax(p, h, k, n - 1);
        }
        if n - count <= k < n {
          CountsBack(p, h, n - 1 - k);
        }
      }
      IntervalSize(InOpenWindow(p, h, now), n - count, count);
    }
  }

  /** The record remembers the last restart. */
  predicate Remembers(file: State, h: seq<Restart>) {
    if |h| == 0 then file.restartCount == 0 && file.lastRestartAt.None? && file.restartWindowStartedAt.None?
    else
      var last := h[|h| - 1];
      && file.restartCount == last.count
      && file.restartWindowStartedAt == Some(last.windowStart)
      && file.lastRestartAt == Some(last.decidedAt)
  }

  /** The decision over a record that remembers the restarts made so far: one more is allowed exactly while the open
      window holds fewer than the maximum; it is numbered behind those, stays in their window or opens one now, and is
      preceded by the promised pause. */
  lemma DecisionIsExact(p: Policy, s: State, h: seq<Restart>, now: int)
    requires Admissible(p, h) && p.windowMs >= 0 && Remembers(s, h)
    ensures
      var d, made := Decide(p, s, now), |InOpenWindow(p, h, now)|;
      && (d.allowed <==> made < p.maxRestarts)
      && d.count == made + 1 && d.backoffMs == PromisedPause(p, made + 1)
      && d.windowStart == if made == 0 then now else h[|h| - 1].windowStart
  {
    if |h| > 0 {
      OpenWindowSize(p, h, now);
    }
    BackoffIsPromised(p, Decide(p, s, now).count);
  }
}

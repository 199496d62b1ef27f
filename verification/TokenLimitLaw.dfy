/**
 The exact law of the token limiter. When an attempt is held, which attempt begins a count and which
 overruns it are defined on the times of the attempts alone; the script's two keys tell just that.
 */
module TokenLimitLaw {
  import opened Prelude
  import opened RateLimit
  import opened RateLimitHistory

  // Attempt `n` falls within the ttl of an earlier attempt that overran its count.
  ghost predicate Held(h: seq<int>, n: nat, max: nat, ttl: nat)
    requires n < |h|
    decreases n, 0
  {
    exists j :: 0 <= j < n && Overran(h, j, max, ttl) && h[n] < h[j] + ttl
  }

  // Attempt `n` is counted, and no count that began earlier still runs.
  ghost predicate Begins(h: seq<int>, n: nat, max: nat, ttl: nat)
    requires n < |h|
    decreases n, 1
  {
    !Held(h, n, max, ttl) && forall b :: 0 <= b < n && Begins(h, b, max, ttl) ==> h[b] + ttl <= h[n]
  }

  // The attempt that began the count running at attempt `n`: `n` itself when none still runs.
  ghost function Since(h: seq<int>, n: nat, max: nat, ttl: nat): (b: nat)
    requires n < |h|
    ensures b <= n
    decreases n, 2
  {
    if exists b: nat :: b < n && Begins(h, b, max, ttl) && h[n] < h[b] + ttl then
      var b: nat :| b < n && Begins(h, b, max, ttl) && h[n] < h[b] + ttl; b
    else n
  }

  // How many of the attempts from `lo` up to `hi` were counted.
  ghost function Counted(h: seq<int>, lo: nat, hi: nat, max: nat, ttl: nat): nat
    requires lo <= hi <= |h|
    decreases hi, 0
  {
    if lo == hi then 0
    else Counted(h, lo, hi - 1, max, ttl) + if Held(h, hi - 1, max, ttl) then 0 else 1
  }

  // Attempt `n` is counted, and `max` or more were counted before it in its count.
  ghost predicate Overran(h: seq<int>, n: nat, max: nat, ttl: nat)
    requires n < |h|
    decreases n, 3
  {
    !Held(h, n, max, ttl) && Counted(h, Since(h, n, max, ttl), n, max, ttl) >= max
  }

  ghost predicate LatestBegin(h: seq<int>, b: nat, n: nat, max: nat, ttl: nat)
    requires n <= |h|
  {
    b < n && Begins(h, b, max, ttl) && forall c :: b < c < n ==> !Begins(h, c, max, ttl)
  }

  ghost predicate LatestOverrun(h: seq<int>, j: nat, n: nat, max: nat, ttl: nat)
    requires n <= |h|
  {
    j < n && Overran(h, j, max, ttl) && forall k :: j < k < n ==> !Overran(h, k, max, ttl)
  }

  // What the keys hold once the first `n` attempts have been made: the latest count begun ...
  ghost predicate CounterTells(g: Gate, h: seq<int>, n: nat, max: nat, ttl: nat)
    requires n <= |h|
  {
    if g.counter.None? then forall b :: 0 <= b < n ==> !Begins(h, b, max, ttl)
    else
      exists b: nat :: b < n && LatestBegin(h, b, n, max, ttl)
        && g.counter.value == Counter(Counted(h, b, n, max, ttl), h[b] + ttl)
  }

  // ... and the latest attempt that overran.
  ghost predicate BlockTells(g: Gate, h: seq<int>, n: nat, max: nat, ttl: nat)
    requires n <= |h|
  {
    if g.blockedUntil.None? then forall j :: 0 <= j < n ==> !Overran(h, j, max, ttl)
    else exists j: nat :: j < n && LatestOverrun(h, j, n, max, ttl) && g.blockedUntil.value == h[j] + ttl
  }

  lemma BlockedIsHeld(g: Gate, h: seq<int>, n: nat, max: nat, ttl: nat)
    requires Monotone(h) && n < |h| && BlockTells(g, h, n, max, ttl)
    ensures Blocked(g, h[n]) <==> Held(h, n, max, ttl)
  {
    if g.blockedUntil.Some? {
      var j: nat :| j < n && LatestOverrun(h, j, n, max, ttl) && g.blockedUntil.value == h[j] + ttl;
      if Held(h, n, max, ttl) {
        var k: nat :| k < n && Overran(h, k, max, ttl) && h[n] < h[k] + ttl;
        assert k <= j;
      }
    }
  }

  // Counts do not overlap, so only the latest one can still run.
  lemma OnlyLatestRuns(h: seq<int>, n: nat, b: nat, max: nat, ttl: nat)
    requires Monotone(h) && n < |h| && LatestBegin(h, b, n, max, ttl)
    ensures Since(h, n, max, ttl) == if h[n] < h[b] + ttl then b else n
  {
    forall c: nat | c < n && Begins(h, c, max, ttl) ensures c == b || h[c] + ttl <= h[b] {
      assert c <= b;
    }
  }

  // The count the script reaches is one more than what was counted since the running count began.
  lemma {:induction false} BumpCounts(g: Gate, h: seq<int>, n: nat, max: nat, ttl: nat)
    requires Monotone(h) && n < |h| && ttl >= 1 && CounterTells(g, h, n, max, ttl)
    ensures var since := Since(h, n, max, ttl);
            Bump(g, h[n], ttl) == Counter(Counted(h, since, n, max, ttl) + 1, h[since] + ttl)
  {
    if g.counter.Some? {
      var b: nat :| b < n && LatestBegin(h, b, n, max, ttl)
        && g.counter.value == Counter(Counted(h, b, n, max, ttl), h[b] + ttl);
      OnlyLatestRuns(h, n, b, max, ttl);
    }
  }

  lemma SinceIsLatest(h: seq<int>, n: nat, max: nat, ttl: nat)
    requires Monotone(h) && n < |h| && ttl >= 1 && !Held(h, n, max, ttl)
    ensures LatestBegin(h, Since(h, n, max, ttl), n + 1, max, ttl)
  {
    var b := Since(h, n, max, ttl);
    if b < n {
      forall c | b < c < n + 1 ensures !Begins(h, c, max, ttl) {
        assert h[c] <= h[n];
      }
    }
  }

  lemma CounterKept(g: Gate, h: seq<int>, n: nat, max: nat, ttl: nat)
    requires Monotone(h) && n < |h| && ttl >= 1 && CounterTells(g, h, n, max, ttl)
    requires Blocked(g, h[n]) <==> Held(h, n, max, ttl)
    ensures CounterTells(GateAfter(g, h[n], max, ttl), h, n + 1, max, ttl)
  {
    if !Held(h, n, max, ttl) {
      BumpCounts(g, h, n, max, ttl);
      SinceIsLatest(h, n, max, ttl);
    } else if g.counter.Some? {
      var b: nat :| b < n && LatestBegin(h, b, n, max, ttl)
        && g.counter.value == Counter(Counted(h, b, n, max, ttl), h[b] + ttl);
      assert LatestBegin(h, b, n + 1, max, ttl);
    }
  }

  lemma BlockKept(g: Gate, h: seq<int>, n: nat, max: nat, ttl: nat)
    requires n < |h| && BlockTells(g, h, n, max, ttl)
    requires Blocked(g, h[n]) <==> Held(h, n, max, ttl)
    requires Bump(g, h[n], ttl).count == Counted(h, Since(h, n, max, ttl), n, max, ttl) + 1
    ensures BlockTells(GateAfter(g, h[n], max, ttl), h, n + 1, max, ttl)
  {
    if Overran(h, n, max, ttl) {
      assert LatestOverrun(h, n, n + 1, max, ttl);
    } else if g.blockedUntil.Some? {
      var j: nat :| j < n && LatestOverrun(h, j, n, max, ttl) && g.blockedUntil.value == h[j] + ttl;
      assert LatestOverrun(h, j, n + 1, max, ttl);
    }
  }

  ghost predicate KeysTell(g: Gate, h: seq<int>, n: nat, max: nat, ttl: nat)
    requires n <= |h|
  {
    CounterTells(g, h, n, max, ttl) && BlockTells(g, h, n, max, ttl)
  }

  lemma KeysKept(g: Gate, h: seq<int>, n: nat, max: nat, ttl: nat)
    requires Monotone(h) && n < |h| && ttl >= 1 && KeysTell(g, h, n, max, ttl)
    ensures KeysTell(GateAfter(g, h[n], max, ttl), h, n + 1, max, ttl)
  {
    BlockedIsHeld(g, h, n, max, ttl);
    BumpCounts(g, h, n, max, ttl);
    CounterKept(g, h, n, max, ttl);
    BlockKept(g, h, n, max, ttl);
  }

  lemma GateOfPrefix(h: seq<int>, n: nat, max: nat, ttl: nat)
    requires n < |h|
    ensures GateOf(h[..n + 1], max, ttl) == GateAfter(GateOf(h[..n], max, ttl), h[n], max, ttl)
  {
    assert h[..n + 1][..n] == h[..n];
  }

  lemma {:induction false} KeysHold(h: seq<int>, n: nat, max: nat, ttl: nat)
    requires Monotone(h) && n <= |h| && ttl >= 1
    ensures KeysTell(GateOf(h[..n], max, ttl), h, n, max, ttl)
  {
    if n > 0 {
      KeysHold(h, n - 1, max, ttl);
      KeysKept(GateOf(h[..n - 1], max, ttl), h, n - 1, max, ttl);
      GateOfPrefix(h, n - 1, max, ttl);
    }
  }

  /**
   An attempt is admitted exactly when no attempt that overran its count lies within the last ttl
   and fewer than `max` attempts have been counted since the running count began.
   */
  lemma {:induction false} AdmitsExactlyWithinBudget(h: seq<int>, max: nat, ttl: nat)
    requires Monotone(h) && h != [] && ttl >= 1
    ensures var n := |h| - 1;
            LastPasses(h, max, ttl)
            <==> !Held(h, n, max, ttl) && Counted(h, Since(h, n, max, ttl), n, max, ttl) < max
  {
    var n := |h| - 1;
    KeysHold(h, n, max, ttl);
    BlockedIsHeld(GateOf(h[..n], max, ttl), h, n, max, ttl);
    BumpCounts(GateOf(h[..n], max, ttl), h, n, max, ttl);
  }

  /** After one ttl without attempts the next one passes, whatever came before, for every budget of at least one. */
  lemma {:induction false} QuietTtlReopens(h: seq<int>, max: nat, ttl: nat)
    requires Monotone(h) && h != [] && max >= 1 && ttl >= 1
    requires |h| > 1 ==> h[|h| - 2] + ttl <= h[|h| - 1]
    ensures LastPasses(h, max, ttl)
  {
    AdmitsExactlyWithinBudget(h, max, ttl);
  }
}

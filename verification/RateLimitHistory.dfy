/**
 What the limiters admit, stated over the whole history of attempts, with a clock that never goes
 back: the address limiter is exactly a trailing window, the token limiter a budget per lifetime.
 */
module RateLimitHistory {
  import opened Prelude
  import opened RateLimit

  // ----- the address limiter

  datatype Attempt = Attempt(at: int, member: Member)

  ghost predicate Ordered(h: seq<Attempt>) {
    (forall i, j :: 0 <= i < j < |h| ==> h[i].at <= h[j].at) &&
    (forall i, j :: 0 <= i < j < |h| ==> h[i].member != h[j].member)
  }

  function WindowOf(h: seq<Attempt>, windowMs: nat): Window {
    if h == [] then NoWindow
    else
      var last := h[|h| - 1];
      WindowAfter(WindowOf(h[..|h| - 1], windowMs), last.at, windowMs, last.member)
  }

  // The decision on the last attempt of `h`.
  predicate LastAdmitted(h: seq<Attempt>, windowMs: nat, max: nat)
    requires h != []
  {
    var last := h[|h| - 1];
    WindowAdmits(WindowOf(h[..|h| - 1], windowMs), last.at, windowMs, max, last.member)
  }

  // How many attempts, admitted or refused, came after `cutoff`.
  function AttemptsAfter(h: seq<Attempt>, cutoff: int): nat {
    if h == [] then 0 else AttemptsAfter(h[..|h| - 1], cutoff) + if h[|h| - 1].at > cutoff then 1 else 0
  }

  // How many admitted attempts fall in (lo, hi].
  function AdmittedIn(h: seq<Attempt>, lo: int, hi: int, windowMs: nat, max: nat): nat {
    if h == [] then 0
    else AdmittedIn(h[..|h| - 1], lo, hi, windowMs, max)
         + if lo < h[|h| - 1].at <= hi && LastAdmitted(h, windowMs, max) then 1 else 0
  }

  // The members of the attempts after `cutoff`, with their times.
  function Survivors(h: seq<Attempt>, cutoff: int): map<Member, int> {
    if h == [] then map[]
    else
      var rest := Survivors(h[..|h| - 1], cutoff);
      if h[|h| - 1].at > cutoff then rest[h[|h| - 1].member := h[|h| - 1].at] else rest
  }

  ghost predicate Survives(h: seq<Attempt>, cutoff: int, m: Member) {
    exists i :: 0 <= i < |h| && h[i].member == m && h[i].at > cutoff
  }

  lemma {:induction false} SurvivorsAt(h: seq<Attempt>, cutoff: int)
    requires Ordered(h)
    ensures forall m :: m in Survivors(h, cutoff) ==> Survives(h, cutoff, m)
    ensures forall i :: 0 <= i < |h| && h[i].at > cutoff ==>
              h[i].member in Survivors(h, cutoff) && Survivors(h, cutoff)[h[i].member] == h[i].at
  {
    if h != [] {
      var n := |h| - 1;
      var h0 := h[..n];
      PrefixOrdered(h);
      SurvivorsAt(h0, cutoff);
      forall m | m in Survivors(h, cutoff) ensures Survives(h, cutoff, m) {
        if m in Survivors(h0, cutoff) {
          var i :| 0 <= i < n && h0[i].member == m && h0[i].at > cutoff;
          assert h[i] == h0[i];
        } else {
          assert h[n].member == m;
        }
      }
      forall i | 0 <= i < |h| && h[i].at > cutoff
        ensures h[i].member in Survivors(h, cutoff) && Survivors(h, cutoff)[h[i].member] == h[i].at
      {
        assert i < n ==> h0[i] == h[i];
      }
    }
  }

  lemma {:induction false} SurvivorsCounted(h: seq<Attempt>, cutoff: int)
    requires Ordered(h)
    ensures |Survivors(h, cutoff)| == AttemptsAfter(h, cutoff)
  {
    if h != [] {
      var n := |h| - 1;
      PrefixOrdered(h);
      SurvivorsCounted(h[..n], cutoff);
      SurvivorsAt(h[..n], cutoff);
      var rest := Survivors(h[..n], cutoff);
      assert h[n].member !in rest;
      assert rest[h[n].member := h[n].at].Keys == rest.Keys + {h[n].member};
    }
  }

  // Trimming earlier survivors with a later cutoff leaves the survivors of that cutoff.
  lemma TrimSurvivors(h: seq<Attempt>, c: int, d: int)
    requires Ordered(h) && c <= d
    ensures var s := Survivors(h, c); (map m | m in s && s[m] > d :: s[m]) == Survivors(h, d)
  {
    SurvivorsAt(h, c);
    SurvivorsAt(h, d);
    var s, u := Survivors(h, c), Survivors(h, d);
    forall m | m in s && s[m] > d ensures m in u && u[m] == s[m] {
      assert Survives(h, c, m);
    }
    forall m | m in u ensures m in s && s[m] > d && u[m] == s[m] {
      assert Survives(h, d, m);
    }
  }

  lemma PrefixOrdered(h: seq<Attempt>)
    requires Ordered(h) && h != []
    ensures Ordered(h[..|h| - 1])
  {
    var h0 := h[..|h| - 1];
    assert forall i :: 0 <= i < |h0| ==> h0[i] == h[i];
  }

  /** The key's own expiry never drops an attempt that is still in the window. */
  lemma {:induction false} ExpiryDropsNothingLive(h: seq<Attempt>, windowMs: nat, now: int)
    requires Ordered(h) && h != [] && h[|h| - 1].at <= now
    ensures WindowOf(h, windowMs).expiresAt <= now ==> Survivors(h, now - windowMs) == map[]
  {
    SurvivorsAt(h, now - windowMs);
    if WindowOf(h, windowMs).expiresAt <= now {
      assert h[|h| - 1].at + windowMs < now;
      assert forall i :: 0 <= i < |h| ==> h[i].at <= h[|h| - 1].at;
    }
  }

  // The sorted set holds exactly the attempts of the trailing window.
  lemma {:induction false} WindowIsSurvivors(h: seq<Attempt>, windowMs: nat)
    requires Ordered(h) && h != []
    requires windowMs > 0
    ensures WindowOf(h, windowMs).scores == Survivors(h, h[|h| - 1].at - windowMs)
  {
    var last := h[|h| - 1];
    var h0 := h[..|h| - 1];
    PrefixOrdered(h);
    if h0 != [] {
      var prev := h0[|h0| - 1];
      assert prev == h[|h| - 2];
      WindowIsSurvivors(h0, windowMs);
      TrimSurvivors(h0, prev.at - windowMs, last.at - windowMs);
      ExpiryDropsNothingLive(h0, windowMs, last.at);
    }
  }

  /** An attempt is admitted exactly when fewer than `max` attempts, admitted or refused, precede it in its window. */
  lemma {:induction false} AdmitsExactlyTrailingWindow(h: seq<Attempt>, windowMs: nat, max: nat)
    requires Ordered(h) && h != [] && windowMs > 0
    ensures LastAdmitted(h, windowMs, max) <==> AttemptsAfter(h[..|h| - 1], h[|h| - 1].at - windowMs) < max
  {
    WindowIsSurvivors(h, windowMs);
    SurvivorsCounted(h, h[|h| - 1].at - windowMs);
  }

  lemma {:induction false} AdmittedAmongAttempts(h: seq<Attempt>, lo: int, hi: int, cutoff: int, windowMs: nat,
                                                 max: nat)
    requires cutoff <= lo
    ensures AdmittedIn(h, lo, hi, windowMs, max) <= AttemptsAfter(h, cutoff)
  {
    if h != [] {
      AdmittedAmongAttempts(h[..|h| - 1], lo, hi, cutoff, windowMs, max);
    }
  }

  /** No window of the configured length, wherever it starts, holds more than `max` admissions. */
  lemma {:induction false} AnyWindowHoldsMax(h: seq<Attempt>, lo: int, windowMs: nat, max: nat)
    requires Ordered(h) && windowMs > 0
    ensures AdmittedIn(h, lo, lo + windowMs, windowMs, max) <= max
  {
    if h != [] {
      PrefixOrdered(h);
      var last, h0 := h[|h| - 1], h[..|h| - 1];
      AnyWindowHoldsMax(h0, lo, windowMs, max);
      AdmitsExactlyTrailingWindow(h, windowMs, max);
      if lo < last.at <= lo + windowMs {
        AdmittedAmongAttempts(h0, lo, lo + windowMs, last.at - windowMs, windowMs, max);
      }
    }
  }

  // ----- the token limiter

  ghost predicate Monotone(h: seq<int>) {
    forall i, j :: 0 <= i < j < |h| ==> h[i] <= h[j]
  }

  function GateOf(h: seq<int>, max: nat, ttl: nat): Gate {
    if h == [] then OpenGate else GateAfter(GateOf(h[..|h| - 1], max, ttl), h[|h| - 1], max, ttl)
  }

  predicate LastPasses(h: seq<int>, max: nat, ttl: nat)
    requires h != []
  {
    GateAdmits(GateOf(h[..|h| - 1], max, ttl), h[|h| - 1], max, ttl)
  }

  // How many attempts in [lo, hi) were admitted.
  function PassedIn(h: seq<int>, lo: int, hi: int, max: nat, ttl: nat): nat {
    if h == [] then 0
    else PassedIn(h[..|h| - 1], lo, hi, max, ttl) + if lo <= h[|h| - 1] < hi && LastPasses(h, max, ttl) then 1 else 0
  }

  lemma {:induction false} PassedSplits(h: seq<int>, lo: int, mid: int, hi: int, max: nat, ttl: nat)
    requires lo <= mid <= hi
    ensures PassedIn(h, lo, hi, max, ttl) == PassedIn(h, lo, mid, max, ttl) + PassedIn(h, mid, hi, max, ttl)
  {
    if h != [] {
      PassedSplits(h[..|h| - 1], lo, mid, hi, max, ttl);
    }
  }

  lemma PassedGrows(h: seq<int>, lo: int, hi: int, lo': int, hi': int, max: nat, ttl: nat)
    requires lo' <= lo && hi <= hi'
    ensures PassedIn(h, lo, hi, max, ttl) <= PassedIn(h, lo', hi', max, ttl)
  {
    if lo <= hi {
      PassedSplits(h, lo', lo, hi', max, ttl);
      PassedSplits(h, lo, hi, hi', max, ttl);
    } else {
      NonePassed(h, lo, hi, max, ttl);
    }
  }

  // Nothing passes in an interval that holds no attempt.
  lemma {:induction false} NonePassed(h: seq<int>, lo: int, hi: int, max: nat, ttl: nat)
    requires forall i :: 0 <= i < |h| ==> !(lo <= h[i] < hi)
    ensures PassedIn(h, lo, hi, max, ttl) == 0
  {
    if h != [] {
      NonePassed(h[..|h| - 1], lo, hi, max, ttl);
    }
  }

  // When the running count began, and what passed since and in the ttl before.
  ghost predicate CountOk(h: seq<int>, max: nat, ttl: nat, end: int) {
    var g := GateOf(h, max, ttl);
    if g.counter.None? then forall lo, hi :: PassedIn(h, lo, hi, max, ttl) == 0
    else
      var n, start := g.counter.value.count, g.counter.value.expiresAt - ttl;
      var spent := if n < max then n else max;
      && n >= 1 && h != [] && h[0] <= start <= h[|h| - 1]
      && PassedIn(h, start, end, max, ttl) <= spent
      && PassedIn(h, start + 1, end, max, ttl) <= spent - 1
      && PassedIn(h, start - ttl + 1, start, max, ttl) <= max - 1
      && PassedIn(h, start + ttl, end, max, ttl) == 0
  }

  lemma {:induction false} CountHolds(h: seq<int>, max: nat, ttl: nat, end: int)
    requires Monotone(h) && max >= 1 && ttl >= 1 && (h != [] ==> h[|h| - 1] < end)
    ensures CountOk(h, max, ttl, end)
  {
    if h != [] {
      var now, h0 := h[|h| - 1], h[..|h| - 1];
      CountHolds(h0, max, ttl, end);
      var g0 := GateOf(h0, max, ttl);
      if g0.counter.Some? && !Blocked(g0, now) && g0.counter.value.expiresAt <= now {
        var start := g0.counter.value.expiresAt - ttl;
        PassedGrows(h0, now - ttl + 1, now, start + 1, end, max, ttl);
        PassedGrows(h0, now, end, start + ttl, end, max, ttl);
        PassedGrows(h0, now + 1, end, start + ttl, end, max, ttl);
        PassedGrows(h0, now + ttl, end, start + ttl, end, max, ttl);
      }
    }
  }

  /** No span of one ttl admits more than 2 * max - 1 attempts on one token. */
  lemma {:induction false} SpanHoldsLessThanDouble(h: seq<int>, lo: int, max: nat, ttl: nat)
    requires Monotone(h) && max >= 1 && ttl >= 1
    ensures PassedIn(h, lo, lo + ttl, max, ttl) <= 2 * max - 1
  {
    if h != [] {
      var now, h0 := h[|h| - 1], h[..|h| - 1];
      SpanHoldsLessThanDouble(h0, lo, max, ttl);
      if lo <= now < lo + ttl && LastPasses(h, max, ttl) {
        CountHolds(h, max, ttl, lo + ttl);
        var start := GateOf(h, max, ttl).counter.value.expiresAt - ttl;
        if start <= lo {
          PassedGrows(h, lo, lo + ttl, start, lo + ttl, max, ttl);
        } else {
          PassedSplits(h, lo, start, lo + ttl, max, ttl);
          PassedGrows(h, lo, start, start - ttl + 1, start, max, ttl);
        }
      }
    }
  }

  // When every attempt follows the issuance, the first count begun runs past the token's expiry.
  ghost predicate FirstCount(h: seq<int>, max: nat, ttl: nat) {
    var g := GateOf(h, max, ttl);
    h != [] ==>
      (g.counter.Some? && (g.counter.value.expiresAt - ttl == h[0] || g.counter.value.expiresAt - ttl >= h[0] + ttl))
  }

  lemma {:induction false} FirstCountHolds(h: seq<int>, max: nat, ttl: nat)
    requires Monotone(h)
    ensures FirstCount(h, max, ttl)
    ensures h == [] ==> GateOf(h, max, ttl) == OpenGate
  {
    if |h| > 1 {
      var h0 := h[..|h| - 1];
      FirstCountHolds(h0, max, ttl);
      assert h0[0] == h[0];
    }
  }

  /** If no attempt precedes a token's issuance, its whole lifetime admits at most `max`. */
  lemma {:induction false} LifetimeHoldsMax(h: seq<int>, issued: int, max: nat, ttl: nat)
    requires Monotone(h) && max >= 1 && ttl >= 1
    requires forall i :: 0 <= i < |h| ==> issued <= h[i]
    ensures PassedIn(h, issued, issued + ttl, max, ttl) <= max
  {
    if h != [] {
      var now, h0 := h[|h| - 1], h[..|h| - 1];
      LifetimeHoldsMax(h0, issued, max, ttl);
      if now < issued + ttl && LastPasses(h, max, ttl) {
        CountHolds(h, max, ttl, issued + ttl);
        FirstCountHolds(h, max, ttl);
        var start := GateOf(h, max, ttl).counter.value.expiresAt - ttl;
        assert start == h[0];
        PassedSplits(h, issued, start, issued + ttl, max, ttl);
        assert forall i :: 0 <= i < |h| ==> h[0] <= h[i];
        NonePassed(h, issued, start, max, ttl);
      }
    }
  }

  /** Once an attempt after issuance goes over the budget, every later attempt in the lifetime is refused. */
  lemma {:induction false} BlockOutlastsToken(h: seq<int>, more: seq<int>, issued: int, max: nat, ttl: nat)
    requires Monotone(h + more) && h != [] && more != [] && issued <= h[|h| - 1]
    requires !Blocked(GateOf(h[..|h| - 1], max, ttl), h[|h| - 1]) && !LastPasses(h, max, ttl)
    requires more[|more| - 1] < issued + ttl
    ensures !LastPasses(h + more, max, ttl)
    ensures GateOf(h, max, ttl).blockedUntil.Some? && issued + ttl <= GateOf(h, max, ttl).blockedUntil.value
  {
    var all := h + more;
    assert all[..|all| - 1] == h + more[..|more| - 1];
    if |more| > 1 {
      var less := more[..|more| - 1];
      forall i | 0 <= i < |less| ensures less[i] < issued + ttl {
        assert less[i] == all[|h| + i] && more[|more| - 1] == all[|all| - 1];
      }
      BlockStays(h, less, issued, max, ttl);
    } else {
      assert h + more[..0] == h;
    }
  }

  lemma {:induction false} BlockStays(h: seq<int>, more: seq<int>, issued: int, max: nat, ttl: nat)
    requires h != [] && issued <= h[|h| - 1]
    requires !Blocked(GateOf(h[..|h| - 1], max, ttl), h[|h| - 1]) && !LastPasses(h, max, ttl)
    requires forall i :: 0 <= i < |more| ==> more[i] < issued + ttl
    ensures GateOf(h + more, max, ttl) == GateOf(h, max, ttl)
    ensures GateOf(h, max, ttl).blockedUntil == Some(h[|h| - 1] + ttl)
  {
    var all := h + more;
    if more == [] {
      assert all == h;
    } else {
      assert all[..|all| - 1] == h + more[..|more| - 1];
      BlockStays(h, more[..|more| - 1], issued, max, ttl);
    }
  }

  // ----- the bound is attained

  // One attempt, `max - 1` more just before its count ends, and `max` as soon as a new one may begin.
  function BurstTime(max: nat, ttl: nat, i: nat): int {
    if i == 0 then 0 else if i < max then ttl - 1 else ttl
  }

  function Burst(max: nat, ttl: nat, n: nat): seq<int> {
    seq(n, i requires 0 <= i < n => BurstTime(max, ttl, i))
  }

  lemma {:induction false} BurstPasses(max: nat, ttl: nat, n: nat)
    requires max >= 1 && ttl >= 2 && n <= 2 * max
    ensures GateOf(Burst(max, ttl, n), max, ttl)
         == if n == 0 then OpenGate
            else if n <= max then Gate(Some(Counter(n, ttl)), None)
            else Gate(Some(Counter(n - max, 2 * ttl)), None)
    ensures PassedIn(Burst(max, ttl, n), ttl - 1, 2 * ttl - 1, max, ttl) == if n == 0 then 0 else n - 1
  {
    if n > 0 {
      BurstPasses(max, ttl, n - 1);
      assert Burst(max, ttl, n)[..n - 1] == Burst(max, ttl, n - 1);
      assert Burst(max, ttl, n)[n - 1] == BurstTime(max, ttl, n - 1);
    }
  }

  /** For every budget and every ttl of at least two there are attempts of which 2 * max - 1 pass within one ttl. */
  lemma {:induction false} DoubleIsNearlyReached(max: nat, ttl: nat) returns (h: seq<int>, lo: int)
    requires max >= 1 && ttl >= 2
    ensures Monotone(h) && PassedIn(h, lo, lo + ttl, max, ttl) == 2 * max - 1
  {
    h, lo := Burst(max, ttl, 2 * max), ttl - 1;
    BurstPasses(max, ttl, 2 * max);
  }
}

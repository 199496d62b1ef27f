/**
 The two Redis scripts that limit pairing attempts, as mutable keys, each proved against a function
 from its keys to their next values. `RateLimitHistory` says what those functions mean over time.
 */
module RateLimit {
  import opened Prelude

  type Member = string

  // ----- per address: a sorted set of attempts, in milliseconds

  // The key exists while `scores` is not empty and the clock is before `expiresAt`.
  datatype Window = Window(scores: map<Member, int>, expiresAt: int)

  const NoWindow := Window(map[], 0)

  function CeilSeconds(ms: nat): nat {
    (ms + 999) / 1000
  }

  // What the script finds: an expired key is gone.
  function Found(w: Window, now: int): map<Member, int> {
    if now < w.expiresAt then w.scores else map[]
  }

  // ZREMRANGEBYSCORE key -inf (now - windowMs), then ZADD.
  function Scored(w: Window, now: int, windowMs: nat, member: Member): map<Member, int> {
    var found := Found(w, now);
    (map m | m in found && found[m] > now - windowMs :: found[m])[member := now]
  }

  function WindowAfter(w: Window, now: int, windowMs: nat, member: Member): Window {
    Window(Scored(w, now, windowMs, member), now + (CeilSeconds(windowMs) + 1) * 1000)
  }

  predicate WindowAdmits(w: Window, now: int, windowMs: nat, max: nat, member: Member) {
    |Scored(w, now, windowMs, member)| <= max
  }

  class IpKey {
    var scores: map<Member, int>
    var expiresAt: int

    constructor ()
      ensures View() == NoWindow
    {
      scores, expiresAt := map[], 0;
    }

    function View(): Window
      reads this
    {
      Window(scores, expiresAt)
    }

    // _IP_WINDOW_SCRIPT
    method Attempt(now: int, windowMs: nat, max: nat, member: Member) returns (ok: bool)
      modifies this
      ensures View() == WindowAfter(old(View()), now, windowMs, member)
      ensures ok == WindowAdmits(old(View()), now, windowMs, max, member)
    {
      if expiresAt <= now {
        scores := map[];
      }
      scores := map m | m in scores && scores[m] > now - windowMs :: scores[m];
      scores := scores[member := now];
      expiresAt := now + (CeilSeconds(windowMs) + 1) * 1000;
      var count := |scores|;
      ok := count <= max;
    }
  }

  // ----- per token: an attempt counter and a block, each with an expiry

  datatype Counter = Counter(count: nat, expiresAt: int)

  datatype Gate = Gate(counter: Option<Counter>, blockedUntil: Option<int>)

  const OpenGate := Gate(None, None)

  predicate Blocked(g: Gate, now: int) {
    g.blockedUntil.Some? && now < g.blockedUntil.value
  }

  // INCR, with an expiry only when it created the key.
  function Bump(g: Gate, now: int, ttl: nat): Counter {
    if g.counter.Some? && now < g.counter.value.expiresAt then g.counter.value.(count := g.counter.value.count + 1)
    else Counter(1, now + ttl)
  }

  function GateAfter(g: Gate, now: int, max: nat, ttl: nat): Gate {
    if Blocked(g, now) then g
    else
      var c := Bump(g, now, ttl);
      Gate(Some(c), if c.count > max then Some(now + ttl) else g.blockedUntil)
  }

  predicate GateAdmits(g: Gate, now: int, max: nat, ttl: nat) {
    !Blocked(g, now) && Bump(g, now, ttl).count <= max
  }

  class TokenKeys {
    var count: Option<nat>
    var countExpiresAt: int
    var blockedUntil: Option<int>

    constructor ()
      ensures View() == OpenGate
    {
      count, countExpiresAt, blockedUntil := None, 0, None;
    }

    function View(): Gate
      reads this
    {
      Gate(if count.Some? then Some(Counter(count.value, countExpiresAt)) else None, blockedUntil)
    }

    // _TOKEN_ATTEMPT_SCRIPT
    method Attempt(now: int, max: nat, ttl: nat) returns (ok: bool)
      modifies this
      ensures View() == GateAfter(old(View()), now, max, ttl)
      ensures ok == GateAdmits(old(View()), now, max, ttl)
    {
      if blockedUntil.Some? && now < blockedUntil.value {
        return false;
      }
      if count.Some? && countExpiresAt <= now {
        count := None;
      }
      var n := if count.Some? then count.value + 1 else 1;
      if count.None? {
        countExpiresAt := now + ttl;
      }
      count := Some(n);
      if n > max {
        blockedUntil := Some(now + ttl);
        return false;
      }
      ok := true;
    }
  }
}

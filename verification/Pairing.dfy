/**
 Pairing tokens and session records as the relay keeps them in Redis: hashes with an optional
 expiry instant, changed only by whole scripts or single commands.
 */
module Pairing {
  import opened Prelude
  import opened RoutingTable

  type Token = string

  // `serial` tells issuances of the same token string apart; the relay never reads it.
  datatype TokenEntry = TokenEntry(sid: SessionId, serial: nat, consumed: bool, expiresAt: int)

  // `writer` is the connection whose command last wrote the hash; the relay never reads it.
  datatype SessionRecord = SessionRecord(writer: Ws, expiresAt: Option<int>)

  datatype Reply =
    | Ok
    | Failed
    | Blocked
    | Duplicate
    | NotFound
    | AlreadyUsed
    | Granted(sid: SessionId, serial: nat)

  datatype Store = Store(tokens: map<Token, TokenEntry>, records: map<SessionId, SessionRecord>, issued: nat) {

    predicate HasToken(token: Token, now: int) {
      token in tokens && now < tokens[token].expiresAt
    }

    predicate HasRecord(sid: SessionId, now: int) {
      sid in records && (records[sid].expiresAt.Some? ==> now < records[sid].expiresAt.value)
    }

    // _ISSUE_SCRIPT
    function IssueReply(token: Token, now: int): Reply {
      if HasToken(token, now) then Duplicate else Ok
    }

    function Issue(token: Token, sid: SessionId, now: int, ttl: int): Store {
      if HasToken(token, now) then this
      else this.(tokens := tokens[token := TokenEntry(sid, issued, false, now + ttl)], issued := issued + 1)
    }

    // _CONSUME_SCRIPT
    function ConsumeReply(token: Token, now: int): Reply {
      if !HasToken(token, now) then NotFound
      else if tokens[token].consumed then AlreadyUsed
      else Granted(tokens[token].sid, tokens[token].serial)
    }

    function Consume(token: Token, now: int): Store {
      if HasToken(token, now) then this.(tokens := tokens[token := tokens[token].(consumed := true)]) else this
    }

    function DropToken(token: Token): Store {
      this.(tokens := tokens - {token})
    }

    // HSET keeps the expiry of a live hash and creates a hash without one otherwise.
    function SetRecord(sid: SessionId, writer: Ws, now: int): Store {
      var expiry := if HasRecord(sid, now) then records[sid].expiresAt else None;
      this.(records := records[sid := SessionRecord(writer, expiry)])
    }

    function ExpireRecord(sid: SessionId, now: int, ttl: int): Store {
      if HasRecord(sid, now) then this.(records := records[sid := records[sid].(expiresAt := Some(now + ttl))])
        else this
    }

    function PersistRecord(sid: SessionId, now: int): Store {
      if HasRecord(sid, now) then this.(records := records[sid := records[sid].(expiresAt := None)]) else this
    }

    function DeleteRecord(sid: SessionId): Store {
      this.(records := records - {sid})
    }
  }

  const EmptyStore := Store(map[], map[], 0)

  // ----- how long tokens and records last

  // An issued token is there for its whole time, grants its session to the first redemption, and
  // nothing after that or once it is dropped.
  lemma {:induction false} IssuedTokenGrantsOnce(s: Store, token: Token, sid: SessionId, issue: int, ttl: nat,
                                                 first: int, second: int)
    requires !s.HasToken(token, issue) && first <= second
    ensures var s1 := s.Issue(token, sid, issue, ttl);
            && s1.ConsumeReply(token, first) == (if first < issue + ttl then Granted(sid, s.issued) else NotFound)
            && s1.Consume(token, first).ConsumeReply(token, second)
               == (if second < issue + ttl then AlreadyUsed else NotFound)
            && s1.DropToken(token).ConsumeReply(token, first) == NotFound
            && (s1.IssueReply(token, first) == Duplicate <==> first < issue + ttl)
  {
  }

  // Writing a live record again does not change how long it lasts.
  lemma {:induction false} RewriteKeepsExpiry(s: Store, sid: SessionId, writer: Ws, written: int, at: int)
    requires s.HasRecord(sid, written)
    ensures s.SetRecord(sid, writer, written).HasRecord(sid, at) <==> s.HasRecord(sid, at)
  {
  }

  // A record made for a pairing is there for its whole time and no longer, whenever that is looked at.
  lemma {:induction false} PendingRecordExpires(s: Store, sid: SessionId, writer: Ws, made: int, expire: int,
                                                ttl: nat, at: int)
    requires !s.HasRecord(sid, made)
    ensures s.SetRecord(sid, writer, made).ExpireRecord(sid, expire, ttl).HasRecord(sid, at) <==> at < expire + ttl
  {
  }

  // Once the session is established its record stays until it is deleted, unless it had expired before.
  lemma {:induction false} EstablishedRecordStays(s: Store, sid: SessionId, writer: Ws, made: int, persist: int,
                                                  at: int)
    ensures var s1 := s.SetRecord(sid, writer, made);
            s1.HasRecord(sid, persist) ==> s1.PersistRecord(sid, persist).HasRecord(sid, at)
    ensures !s.DeleteRecord(sid).HasRecord(sid, at)
  {
  }

  // ----- token format

  // `re.match` of one or more url-safe characters and `$`, which stands at the end of the text or
  // before a line feed that ends it.
  predicate MatchesTokenPattern(token: Token) {
    exists end :: 0 < end <= |token| && UrlSafe(token[..end]) && EndsAt(token, end)
  }

  predicate EndsAt(text: string, end: nat)
    requires end <= |text|
  {
    end == |text| || (end == |text| - 1 && text[end] == '\n')
  }

  predicate ValidToken(token: Token, minLen: nat, maxLen: nat) {
    minLen <= |token| <= maxLen && MatchesTokenPattern(token)
  }

  // Which tokens pass: url-safe ones, and url-safe ones with one line feed behind them.
  lemma {:induction false} ValidTokensExactly(token: Token, minLen: nat, maxLen: nat)
    ensures ValidToken(token, minLen, maxLen)
       <==> && minLen <= |token| <= maxLen && token != ""
            && (UrlSafe(token) || (token[|token| - 1] == '\n' && |token| > 1 && UrlSafe(token[..|token| - 1])))
  {
    var n := |token|;
    if n > 0 && UrlSafe(token) {
      assert token[..n] == token && EndsAt(token, n);
    }
    if n > 1 && token[n - 1] == '\n' && UrlSafe(token[..n - 1]) {
      assert EndsAt(token, n - 1);
    }
    if end :| 0 < end <= n && UrlSafe(token[..end]) && EndsAt(token, end) {
      assert token[..n] == token;
    }
  }
}

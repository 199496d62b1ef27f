/** The Redis keys behind pairing, changed in place by the two scripts and the record commands. */
module PairingStore {
  import opened Prelude
  import opened RoutingTable
  import opened Pairing

  class PairingStore {
    var tokens: map<Token, TokenEntry>
    var records: map<SessionId, SessionRecord>
    var issued: nat

    constructor ()
      ensures View() == EmptyStore
    {
      tokens, records, issued := map[], map[], 0;
    }

    function View(): Store
      reads this
    {
      Store(tokens, records, issued)
    }

    // EXISTS: an expired key counts as absent.
    method TokenExists(token: Token, now: int) returns (found: bool)
      ensures found == View().HasToken(token, now)
    {
      found := token in tokens && now < tokens[token].expiresAt;
    }

    // _ISSUE_SCRIPT
    method Issue(token: Token, sid: SessionId, now: int, ttl: int) returns (reply: Reply)
      modifies this
      ensures reply == old(View()).IssueReply(token, now)
      ensures View() == old(View()).Issue(token, sid, now, ttl)
    {
      var found := TokenExists(token, now);
      if found {
        return Duplicate;
      }
      var fields := TokenEntry(sid, issued, false, now);
      tokens := tokens[token := fields];
      tokens := tokens[token := fields.(expiresAt := now + ttl)];
      issued := issued + 1;
      reply := Ok;
    }

    // _CONSUME_SCRIPT
    method Consume(token: Token, now: int) returns (reply: Reply)
      modifies this
      ensures reply == old(View()).ConsumeReply(token, now)
      ensures View() == old(View()).Consume(token, now)
    {
      var found := TokenExists(token, now);
      if !found {
        return NotFound;
      }
      if tokens[token].consumed {
        return AlreadyUsed;
      }
      tokens := tokens[token := tokens[token].(consumed := true)];
      reply := Granted(tokens[token].sid, tokens[token].serial);
    }

    method DeleteToken(token: Token)
      modifies this`tokens
      ensures View() == old(View()).DropToken(token)
    {
      tokens := tokens - {token};
    }

    // HSET: a hash that is there keeps its expiry, a new one has none.
    method HSet(sid: SessionId, writer: Ws, now: int)
      modifies this`records
      ensures View() == old(View()).SetRecord(sid, writer, now)
    {
      if sid in records && records[sid].expiresAt.Some? && records[sid].expiresAt.value <= now {
        records := records - {sid};
      }
      var expiry := if sid in records then records[sid].expiresAt else None;
      records := records[sid := SessionRecord(writer, expiry)];
    }

    method Expire(sid: SessionId, now: int, ttl: int)
      modifies this`records
      ensures View() == old(View()).ExpireRecord(sid, now, ttl)
    {
      if View().HasRecord(sid, now) {
        records := records[sid := records[sid].(expiresAt := Some(now + ttl))];
      }
    }

    method Persist(sid: SessionId, now: int)
      modifies this`records
      ensures View() == old(View()).PersistRecord(sid, now)
    {
      if View().HasRecord(sid, now) {
        records := records[sid := records[sid].(expiresAt := None)];
      }
    }

    method DeleteRecord(sid: SessionId)
      modifies this`records
      ensures View() == old(View()).DeleteRecord(sid)
    {
      records := records - {sid};
    }

    // `create_session_record`: two commands, between which the record has no expiry.
    method CreateSessionRecord(sid: SessionId, writer: Ws, now: int, later: int, ttl: int)
      modifies this`records
      ensures View() == old(View()).SetRecord(sid, writer, now).ExpireRecord(sid, later, ttl)
    {
      HSet(sid, writer, now);
      Expire(sid, later, ttl);
    }

    // `mark_session_established`
    method MarkSessionEstablished(sid: SessionId, writer: Ws, now: int, later: int)
      modifies this`records
      ensures View() == old(View()).SetRecord(sid, writer, now).PersistRecord(sid, later)
    {
      HSet(sid, writer, now);
      Persist(sid, later);
    }
  }
}

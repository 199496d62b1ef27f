/**
 The byte strings that handshake and messages are authenticated under. They are built from fields
 of any length, so what matters is that no two sets of fields give the same bytes.
 Characters stand for the ASCII bytes they encode to.
 */
module Crypto {
  datatype Direction = AgentToClient | ClientToAgent

  datatype ProofRole = AgentProof | ClientProof

  function Digit(d: nat): char
    requires d < 10
  {
    '0' + d as char
  }

  // `str(n)` of a number that is not negative.
  function Digits(n: nat): string {
    if n < 10 then [Digit(n)] else Digits(n / 10) + [Digit(n % 10)]
  }

  function Decimal(n: int): string {
    if n < 0 then "-" + Digits(-n) else Digits(n)
  }

  function DirectionName(d: Direction): string {
    if d == AgentToClient then "agent_to_client" else "client_to_agent"
  }

  function RoleName(r: ProofRole): string {
    if r == AgentProof then "agent" else "client"
  }

  // The associated data from the type on.
  function TypeOnwards(kind: string, sessionId: string, number: string): string {
    "type=" + kind + "\n" + ("session_id=" + sessionId + "\n" + ("seq=" + number))
  }

  function MessageAad(kind: string, sessionId: string, number: int, direction: Direction): string {
    "termhop-message-v2\n" +
    ("direction=" + DirectionName(direction) + "\n" + TypeOnwards(kind, sessionId, Decimal(number)))
  }

  function HandshakeTranscript(sessionId: string, token: string, agentKey: string, clientKey: string): string {
    "termhop-handshake-v2\n" +
    ("session_id=" + sessionId + "\n" +
    ("token=" + token + "\n" +
    ("agent_pubkey=" + agentKey + "\n" +
     ("client_pubkey=" + clientKey))))
  }

  // What `pairing_proof` computes the HMAC of.
  function ProofInput(transcript: string, role: ProofRole): string {
    transcript + "\nrole=" + RoleName(role)
  }

  predicate OneLine(s: string) {
    '\n' !in s
  }

  // ----- decimal printing

  function Value(digits: string): int {
    if digits == "" then 0 else Value(digits[..|digits| - 1]) * 10 + (digits[|digits| - 1] as int - '0' as int)
  }

  lemma {:induction false} ValueOfDigits(n: nat)
    ensures Value(Digits(n)) == n
    ensures |Digits(n)| > 0 && forall i :: 0 <= i < |Digits(n)| ==> '0' <= Digits(n)[i] <= '9'
  {
    if n < 10 {
      assert Digits(n)[..0] == "";
    } else {
      ValueOfDigits(n / 10);
      assert Digits(n)[..|Digits(n)| - 1] == Digits(n / 10);
    }
  }

  lemma DecimalOneLine(n: int)
    ensures OneLine(Decimal(n))
  {
    ValueOfDigits(if n < 0 then -n else n);
  }

  // Numbers of any size print differently.
  lemma {:induction false} DecimalInjective(m: int, n: int)
    requires Decimal(m) == Decimal(n)
    ensures m == n
  {
    ValueOfDigits(if m < 0 then -m else m);
    ValueOfDigits(if n < 0 then -n else n);
    assert m < 0 ==> Decimal(m)[0] == '-' && Decimal(m)[1..] == Digits(-m);
    assert n < 0 ==> Decimal(n)[0] == '-' && Decimal(n)[1..] == Digits(-n);
  }

  // ----- reading fields back

  lemma FirstLineEnds(a: string, x: string)
    requires OneLine(a)
    ensures forall i :: 0 <= i < |a| ==> (a + "\n" + x)[i] != '\n'
    ensures (a + "\n" + x)[|a|] == '\n'
  {
    forall i | 0 <= i < |a| ensures (a + "\n" + x)[i] != '\n' {
      assert (a + "\n" + x)[i] == a[i];
    }
  }

  lemma FirstLine(a: string, x: string, b: string, y: string)
    requires OneLine(a) && OneLine(b) && a + "\n" + x == b + "\n" + y
    ensures a == b && x == y
  {
    var left, right := a + "\n" + x, b + "\n" + y;
    FirstLineEnds(a, x);
    FirstLineEnds(b, y);
    assert |a| == |b|;
    assert a == left[..|a|] && b == right[..|b|];
    assert x == left[|a| + 1..] && y == right[|b| + 1..];
  }

  lemma LastLineStarts(a: string, x: string)
    requires OneLine(x)
    ensures forall i :: |a| < i < |a + "\n" + x| ==> (a + "\n" + x)[i] != '\n'
    ensures (a + "\n" + x)[|a|] == '\n'
  {
    forall i | |a| < i < |a + "\n" + x| ensures (a + "\n" + x)[i] != '\n' {
      assert (a + "\n" + x)[i] == x[i - |a| - 1];
    }
  }

  lemma LastLine(a: string, x: string, b: string, y: string)
    requires OneLine(x) && OneLine(y) && a + "\n" + x == b + "\n" + y
    ensures a == b && x == y
  {
    var left, right := a + "\n" + x, b + "\n" + y;
    LastLineStarts(a, x);
    LastLineStarts(b, y);
    assert |a| == |b|;
    assert a == left[..|a|] && b == right[..|b|];
    assert x == left[|a| + 1..] && y == right[|b| + 1..];
  }

  lemma CancelPrefix(p: string, x: string, y: string)
    requires p + x == p + y
    ensures x == y
  {
    assert x == (p + x)[|p|..] && y == (p + y)[|p|..];
  }

  // A labelled line at the front: field, value and rest are determined.
  lemma LabelledLine(field: string, a: string, x: string, b: string, y: string)
    requires OneLine(a) && OneLine(b) && field + a + "\n" + x == field + b + "\n" + y
    ensures a == b && x == y
  {
    assert field + a + "\n" + x == field + (a + "\n" + x);
    assert field + b + "\n" + y == field + (b + "\n" + y);
    CancelPrefix(field, a + "\n" + x, b + "\n" + y);
    FirstLine(a, x, b, y);
  }

  // ----- the three encodings

  // Direction, type, session and number can be read back from the associated data, whatever the
  // session id contains.
  lemma {:induction false} MessageAadInjective(k: string, s: string, n: int, d: Direction, k': string, s': string,
                                               n': int, d': Direction)
    requires OneLine(k) && OneLine(k')
    requires MessageAad(k, s, n, d) == MessageAad(k', s', n', d')
    ensures k == k' && s == s' && n == n' && d == d'
  {
    var tail, tail' := "session_id=" + s + "\n" + ("seq=" + Decimal(n)),
      "session_id=" + s' + "\n" + ("seq=" + Decimal(n'));
    var kinds, kinds' := "type=" + k + "\n" + tail, "type=" + k' + "\n" + tail';
    CancelPrefix("termhop-message-v2\n", "direction=" + DirectionName(d) + "\n" + kinds,
                 "direction=" + DirectionName(d') + "\n" + kinds');
    LabelledLine("direction=", DirectionName(d), kinds, DirectionName(d'), kinds');
    assert DirectionName(AgentToClient)[0] != DirectionName(ClientToAgent)[0];
    LabelledLine("type=", k, tail, k', tail');
    DecimalOneLine(n);
    DecimalOneLine(n');
    LastLine("session_id=" + s, "seq=" + Decimal(n), "session_id=" + s', "seq=" + Decimal(n'));
    CancelPrefix("session_id=", s, s');
    CancelPrefix("seq=", Decimal(n), Decimal(n'));
    DecimalInjective(n, n');
  }

  lemma BorrowedType(number: string)
    ensures TypeOnwards("a\nsession_id=b", "c", number) == TypeOnwards("a", "b\nsession_id=c", number)
  {
  }

  // A type with a newline could borrow from the session id, so the check on types is needed.
  lemma {:induction false} TypesMustBeOneLine(number: int, d: Direction)
    ensures MessageAad("a\nsession_id=b", "c", number, d) == MessageAad("a", "b\nsession_id=c", number, d)
  {
    BorrowedType(Decimal(number));
  }

  // The client's key, last, may be anything.
  lemma {:induction false} HandshakeTranscriptInjective(s: string, t: string, a: string, c: string, s': string,
                                                        t': string, a': string, c': string)
    requires OneLine(s) && OneLine(t) && OneLine(a) && OneLine(s') && OneLine(t') && OneLine(a')
    requires HandshakeTranscript(s, t, a, c) == HandshakeTranscript(s', t', a', c')
    ensures s == s' && t == t' && a == a' && c == c'
  {
    var keys, keys' := "agent_pubkey=" + a + "\n" + ("client_pubkey=" + c),
      "agent_pubkey=" + a' + "\n" + ("client_pubkey=" + c');
    var tail, tail' := "token=" + t + "\n" + keys, "token=" + t' + "\n" + keys';
    CancelPrefix("termhop-handshake-v2\n", "session_id=" + s + "\n" + tail, "session_id=" + s' + "\n" + tail');
    LabelledLine("session_id=", s, tail, s', tail');
    LabelledLine("token=", t, keys, t', keys');
    LabelledLine("agent_pubkey=", a, "client_pubkey=" + c, a', "client_pubkey=" + c');
    CancelPrefix("client_pubkey=", c, c');
  }

  // ----- line breaks

  function Breaks(s: string): nat {
    if s == "" then 0 else (if s[0] == '\n' then 1 else 0) + Breaks(s[1..])
  }

  lemma {:induction false} BreaksJoin(s: string, t: string)
    ensures Breaks(s + t) == Breaks(s) + Breaks(t)
  {
    if s == "" {
      assert s + t == t;
    } else {
      BreaksJoin(s[1..], t);
      assert (s + t)[0] == s[0] && (s + t)[1..] == s[1..] + t;
    }
  }

  lemma {:induction false} OneLineHasNoBreaks(s: string)
    ensures OneLine(s) <==> Breaks(s) == 0
  {
    if s != "" {
      OneLineHasNoBreaks(s[1..]);
      assert s == [s[0]] + s[1..];
    }
  }

  lemma LineBreaks(field: string, value: string, rest: string)
    requires OneLine(field)
    ensures Breaks(field + value + "\n" + rest) == Breaks(value) + 1 + Breaks(rest)
  {
    OneLineHasNoBreaks(field);
    BreaksJoin(field, value);
    BreaksJoin(field + value, "\n");
    BreaksJoin(field + value + "\n", rest);
    assert "\n"[1..] == "";
  }

  lemma HeaderBreaks(rest: string)
    ensures Breaks("termhop-handshake-v2\n" + rest) == 1 + Breaks(rest)
  {
    LineBreaks("termhop-handshake-v2", "", rest);
    assert "termhop-handshake-v2" + "" + "\n" == "termhop-handshake-v2\n";
  }

  lemma LastFieldBreaks(field: string, value: string)
    requires OneLine(field)
    ensures Breaks(field + value) == Breaks(value)
  {
    OneLineHasNoBreaks(field);
    BreaksJoin(field, value);
  }

  lemma TranscriptBreaks(s: string, t: string, a: string, c: string)
    ensures Breaks(HandshakeTranscript(s, t, a, c)) == 4 + Breaks(s) + Breaks(t) + Breaks(a) + Breaks(c)
  {
    var keys := "agent_pubkey=" + a + "\n" + ("client_pubkey=" + c);
    var tail := "token=" + t + "\n" + keys;
    LastFieldBreaks("client_pubkey=", c);
    LineBreaks("agent_pubkey=", a, "client_pubkey=" + c);
    LineBreaks("token=", t, keys);
    LineBreaks("session_id=", s, tail);
    HeaderBreaks("session_id=" + s + "\n" + tail);
  }

  // A transcript made of one-line fields is nobody else's, whatever lines the others' fields have.
  lemma {:induction false} OneLineTranscriptIsUnique(s: string, t: string, a: string, c: string,
                                                     s': string, t': string, a': string, c': string)
    requires OneLine(s) && OneLine(t) && OneLine(a) && OneLine(c)
    requires HandshakeTranscript(s, t, a, c) == HandshakeTranscript(s', t', a', c')
    ensures s == s' && t == t' && a == a' && c == c'
  {
    TranscriptBreaks(s, t, a, c);
    TranscriptBreaks(s', t', a', c');
    OneLineHasNoBreaks(s);
    OneLineHasNoBreaks(t);
    OneLineHasNoBreaks(a);
    OneLineHasNoBreaks(c);
    OneLineHasNoBreaks(s');
    OneLineHasNoBreaks(t');
    OneLineHasNoBreaks(a');
    HandshakeTranscriptInjective(s, t, a, c, s', t', a', c');
  }

  lemma DirectionBreaks(d: Direction, rest: string)
    ensures Breaks("termhop-message-v2\n" + ("direction=" + DirectionName(d) + "\n" + rest)) == 2 + Breaks(rest)
  {
    OneLineHasNoBreaks(DirectionName(d));
    LineBreaks("direction=", DirectionName(d), rest);
    LineBreaks("termhop-message-v2", "", "direction=" + DirectionName(d) + "\n" + rest);
    assert "termhop-message-v2" + "" + "\n" == "termhop-message-v2\n";
  }

  lemma AadBreaks(k: string, s: string, n: int, d: Direction)
    ensures Breaks(MessageAad(k, s, n, d)) == 4 + Breaks(k) + Breaks(s)
  {
    var number := "seq=" + Decimal(n);
    DecimalOneLine(n);
    OneLineHasNoBreaks(Decimal(n));
    LastFieldBreaks("seq=", Decimal(n));
    LineBreaks("session_id=", s, number);
    LineBreaks("type=", k, "session_id=" + s + "\n" + number);
    DirectionBreaks(d, TypeOnwards(k, s, Decimal(n)));
  }

  // Associated data made of a one-line type and session id is no other message's.
  lemma {:induction false} OneLineAadIsUnique(k: string, s: string, n: int, d: Direction,
                                              k': string, s': string, n': int, d': Direction)
    requires OneLine(k) && OneLine(s) && MessageAad(k, s, n, d) == MessageAad(k', s', n', d')
    ensures k == k' && s == s' && n == n' && d == d'
  {
    AadBreaks(k, s, n, d);
    AadBreaks(k', s', n', d');
    OneLineHasNoBreaks(k);
    OneLineHasNoBreaks(s);
    OneLineHasNoBreaks(k');
    MessageAadInjective(k, s, n, d, k', s', n', d');
  }

  // Proofs of the two roles are never interchangeable, and each fixes the transcript it proves.
  lemma {:induction false} ProofInputInjective(t: string, r: ProofRole, t': string, r': ProofRole)
    requires ProofInput(t, r) == ProofInput(t', r')
    ensures t == t' && r == r'
  {
    assert ProofInput(t, r) == t + "\n" + ("role=" + RoleName(r));
    assert ProofInput(t', r') == t' + "\n" + ("role=" + RoleName(r'));
    LastLine(t, "role=" + RoleName(r), t', "role=" + RoleName(r'));
    CancelPrefix("role=", RoleName(r), RoleName(r'));
  }

  // ----- the texts in full

  // The associated data of a message from the agent, written out.
  function AgentAad(kind: string, sessionId: string, number: int): string {
    "termhop-message-v2\ndirection=agent_to_client\ntype=" + kind + "\nsession_id=" + sessionId + "\nseq="
    + Decimal(number)
  }

  // And of one from the client.
  function ClientAad(kind: string, sessionId: string, number: int): string {
    "termhop-message-v2\ndirection=client_to_agent\ntype=" + kind + "\nsession_id=" + sessionId + "\nseq="
    + Decimal(number)
  }

  lemma Regroup(a: string, b: string, c: string)
    ensures a + b + c == a + (b + c)
  {
  }

  lemma Flatten(head: string, field: string, kind: string, session: string, sessionId: string, seqField: string,
                number: string)
    ensures head + (field + kind + "\n" + (session + sessionId + "\n" + (seqField + number)))
         == (head + field) + kind + ("\n" + session) + sessionId + ("\n" + seqField) + number
  {
    var line3 := seqField + number;
    var line2 := session + sessionId + "\n" + line3;
    Regroup(head, field + kind + "\n", line2);
    assert head + (field + kind + "\n" + line2) == (head + field) + kind + "\n" + line2;
    var front := (head + field) + kind;
    assert front + "\n" + line2 == front + ("\n" + session) + sessionId + "\n" + line3;
    var front2 := front + ("\n" + session) + sessionId;
    assert front2 + "\n" + line3 == front2 + ("\n" + seqField) + number;
  }

  lemma AgentHeaderText()
    ensures "termhop-message-v2\n" + ("direction=" + DirectionName(AgentToClient) + "\n") + "type="
         == "termhop-message-v2\ndirection=agent_to_client\ntype="
  {
  }

  lemma ClientHeaderText()
    ensures "termhop-message-v2\n" + ("direction=" + DirectionName(ClientToAgent) + "\n") + "type="
         == "termhop-message-v2\ndirection=client_to_agent\ntype="
  {
  }

  lemma {:induction false} AadWrittenOut(kind: string, sessionId: string, number: int)
    ensures MessageAad(kind, sessionId, number, AgentToClient) == AgentAad(kind, sessionId, number)
    ensures MessageAad(kind, sessionId, number, ClientToAgent) == ClientAad(kind, sessionId, number)
  {
    AadFlat(kind, sessionId, number, AgentToClient);
    AadFlat(kind, sessionId, number, ClientToAgent);
    AgentHeaderText();
    ClientHeaderText();
  }

  lemma AadFlat(kind: string, sessionId: string, number: int, d: Direction)
    ensures MessageAad(kind, sessionId, number, d)
         == "termhop-message-v2\n" + ("direction=" + DirectionName(d) + "\n") + "type=" + kind
            + "\nsession_id=" + sessionId + "\nseq=" + Decimal(number)
  {
    var tail := TypeOnwards(kind, sessionId, Decimal(number));
    var direction := "direction=" + DirectionName(d) + "\n";
    Regroup("termhop-message-v2\n", direction, tail);
    Flatten("termhop-message-v2\n" + direction, "type=", kind, "session_id=", sessionId, "seq=", Decimal(number));
    assert "\n" + "session_id=" == "\nsession_id=";
    assert "\n" + "seq=" == "\nseq=";
  }

  lemma AppendLine(text: string, field: string, value: string, rest: string)
    ensures text + "\n" + (field + value + rest) == text + ("\n" + field) + value + rest
  {
    assert text + "\n" + (field + value + rest) == text + "\n" + field + value + rest;
    assert text + "\n" + field == text + ("\n" + field);
  }

  lemma LabelTexts()
    ensures "termhop-handshake-v2\n" + "session_id=" == "termhop-handshake-v2\nsession_id="
    ensures "\n" + "token=" == "\ntoken=" && "\n" + "agent_pubkey=" == "\nagent_pubkey="
    ensures "\n" + "client_pubkey=" == "\nclient_pubkey="
  {
  }

  lemma JoinFour(head: string, s: string, t: string, a: string, c: string, l1: string, l2: string, l3: string)
    ensures head + s + "\n" + (l1 + t + "\n" + (l2 + a + "\n" + (l3 + c)))
         == head + s + ("\n" + l1) + t + ("\n" + l2) + a + ("\n" + l3) + c
  {
    var last := "\n" + (l3 + c);
    AppendLine(head + s, l1, t, "\n" + (l2 + a + last));
    var front := head + s + ("\n" + l1) + t;
    assert front + ("\n" + (l2 + a + last)) == front + "\n" + (l2 + a + last);
    AppendLine(front, l2, a, last);
    var front1 := front + ("\n" + l2) + a;
    assert front1 + last == front1 + ("\n" + l3) + c;
    assert l2 + a + "\n" + (l3 + c) == l2 + a + last;
    assert l1 + t + "\n" + (l2 + a + last) == l1 + t + ("\n" + (l2 + a + last));
  }

  // The transcript of a handshake, written out.
  lemma {:induction false} TranscriptWrittenOut(sessionId: string, token: string, agentKey: string, clientKey: string)
    ensures HandshakeTranscript(sessionId, token, agentKey, clientKey)
         == "termhop-handshake-v2\nsession_id=" + sessionId + "\ntoken=" + token + "\nagent_pubkey=" + agentKey
            + "\nclient_pubkey=" + clientKey
  {
    var keys := "agent_pubkey=" + agentKey + "\n" + ("client_pubkey=" + clientKey);
    var tail := "token=" + token + "\n" + keys;
    assert "termhop-handshake-v2\n" + ("session_id=" + sessionId + "\n" + tail)
        == "termhop-handshake-v2\n" + "session_id=" + sessionId + "\n" + tail;
    JoinFour("termhop-handshake-v2\n" + "session_id=", sessionId, token, agentKey, clientKey, "token=", "agent_pubkey=",
             "client_pubkey=");
    LabelTexts();
  }

  lemma RoleText(transcript: string)
    ensures ProofInput(transcript, AgentProof) == transcript + "\nrole=agent"
    ensures ProofInput(transcript, ClientProof) == transcript + "\nrole=client"
  {
    Regroup(transcript, "\nrole=", "agent");
    Regroup(transcript, "\nrole=", "client");
    assert "\nrole=" + "agent" == "\nrole=agent";
    assert "\nrole=" + "client" == "\nrole=client";
  }
}

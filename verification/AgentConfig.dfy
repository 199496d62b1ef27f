/**
 The agent's configuration file: the hand-written TOML printer, and the part of TOML v1.0.0 that it
 uses (sections 'Table', 'Keys' and 'String': standard tables, bare keys, basic strings) read back.
 */
module AgentConfig {
  import opened Prelude

  datatype Config = Config(relayUrl: Option<string>, deviceId: Option<string>, deviceSecret: Option<string>)

  // ----- printing

  // `s.replace(c, into)`
  function Replace(s: string, c: char, into: string): string {
    if s == "" then "" else (if s[0] == c then into else [s[0]]) + Replace(s[1..], c, into)
  }

  // What the two replacements amount to.
  function Escape(s: string): string {
    if s == "" then ""
    else (if s[0] == '\\' then "\\\\" else if s[0] == '"' then "\\\"" else [s[0]]) + Escape(s[1..])
  }

  // Python's truth of an optional string.
  predicate Given(s: Option<string>) {
    s.Some? && s.value != ""
  }

  function RelayText(c: Config): string {
    "[relay]\n" + if Given(c.relayUrl) then "url = \"" + Escape(c.relayUrl.value) + "\"\n" else ""
  }

  function DeviceText(c: Config): string {
    if Given(c.deviceId) && Given(c.deviceSecret)
    then "\n[device]\n" + ("id = \"" + c.deviceId.value + "\"\n" + ("secret = \"" + c.deviceSecret.value + "\"\n"))
    else ""
  }

  // The file that `save_config` writes.
  function FileText(c: Config): string {
    RelayText(c) + DeviceText(c)
  }

  // `"\n".join(lines) + "\n"`
  function Terminated(lines: seq<string>): string {
    if lines == [] then "" else Terminated(lines[..|lines| - 1]) + lines[|lines| - 1] + "\n"
  }

  method RenderConfig(c: Config) returns (text: string)
    ensures text == FileText(c)
  {
    var lines := ["[relay]"];
    RelayLines(c);
    if Given(c.relayUrl) {
      var escaped := Replace(Replace(c.relayUrl.value, '\\', "\\\\"), '"', "\\\"");
      ReplacesAreEscape(c.relayUrl.value);
      lines := lines + ["url = \"" + escaped + "\""];
    }
    if Given(c.deviceId) && Given(c.deviceSecret) {
      var id, secret := "id = \"" + c.deviceId.value + "\"", "secret = \"" + c.deviceSecret.value + "\"";
      TerminatedFour(lines, "", "[device]", id, secret);
      DeviceLines(c);
      lines := lines + ["", "[device]", id, secret];
    }
    text := Terminated(lines);
  }

  lemma TerminatedMore(lines: seq<string>, line: string)
    ensures Terminated(lines + [line]) == Terminated(lines) + line + "\n"
  {
    assert (lines + [line])[..|lines|] == lines;
  }

  lemma RelayLines(c: Config)
    ensures Terminated(["[relay]"] + if Given(c.relayUrl) then ["url = \"" + Escape(c.relayUrl.value) + "\""]
                       else []) == RelayText(c)
  {
    TerminatedMore([], "[relay]");
    assert [] + ["[relay]"] == ["[relay]"];
    if Given(c.relayUrl) {
      TerminatedMore(["[relay]"], "url = \"" + Escape(c.relayUrl.value) + "\"");
    } else {
      assert ["[relay]"] + [] == ["[relay]"];
    }
  }

  lemma DeviceLines(c: Config)
    requires Given(c.deviceId) && Given(c.deviceSecret)
    ensures "" + "\n" + ("[device]" + "\n" +
             ("id = \"" + c.deviceId.value + "\"" + "\n" + ("secret = \"" + c.deviceSecret.value + "\"" + "\n")))
         == DeviceText(c)
  {
  }

  lemma TerminatedFour(lines: seq<string>, a: string, b: string, c: string, d: string)
    ensures Terminated(lines + [a, b, c, d]) == Terminated(lines) + (a + "\n" + (b + "\n" + (c + "\n" + (d + "\n"))))
  {
    TerminatedMore(lines, a);
    TerminatedMore(lines + [a], b);
    TerminatedMore(lines + [a] + [b], c);
    TerminatedMore(lines + [a] + [b] + [c], d);
    assert lines + [a, b, c, d] == lines + [a] + [b] + [c] + [d];
  }

  lemma {:induction false} ReplaceJoins(s: string, t: string, c: char, into: string)
    ensures Replace(s + t, c, into) == Replace(s, c, into) + Replace(t, c, into)
  {
    if s == "" {
      assert s + t == t;
    } else {
      ReplaceJoins(s[1..], t, c, into);
      assert (s + t)[1..] == s[1..] + t && (s + t)[0] == s[0];
      var head := if s[0] == c then into else [s[0]];
      assert Replace(s + t, c, into) == head + (Replace(s[1..], c, into) + Replace(t, c, into));
    }
  }

  // Backslashes first, then quotes: together a replacement of each character by itself.
  lemma {:induction false} ReplacesAreEscape(s: string)
    ensures Replace(Replace(s, '\\', "\\\\"), '"', "\\\"") == Escape(s)
  {
    if s != "" {
      ReplacesAreEscape(s[1..]);
      var head := if s[0] == '\\' then "\\\\" else [s[0]];
      ReplaceJoins(head, Replace(s[1..], '\\', "\\\\"), '"', "\\\"");
      ReplaceShort(s[0]);
    }
  }

  lemma ReplaceShort(c: char)
    ensures Replace("\\\\", '"', "\\\"") == "\\\\"
    ensures Replace([c], '"', "\\\"") == if c == '"' then "\\\"" else [c]
  {
    assert "\\\\"[1..] == "\\" && "\\"[1..] == "" && [c][1..] == "";
    assert Replace("\\", '"', "\\\"") == "\\" + "";
    assert Replace("\\\\", '"', "\\\"") == "\\" + Replace("\\", '"', "\\\"");
  }

  // ----- reading

  // Control characters a basic string may not hold: all but tab.
  predicate Control(c: char) {
    (c < ' ' && c != '\t') || c == '\U{7F}'
  }

  predicate Clean(s: string) {
    forall i :: 0 <= i < |s| ==> !Control(s[i])
  }

  function Unescape(c: char): Option<char> {
    if c == '"' || c == '\\' then Some(c)
    else if c == 'b' then Some('\U{8}')
    else if c == 't' then Some('\t')
    else if c == 'n' then Some('\n')
    else if c == 'f' then Some('\U{C}')
    else if c == 'r' then Some('\r')
    else None
  }

  // The rest of a basic string after its opening quote: the value, and what follows the closing quote.
  function BasicString(s: string): Option<(string, string)> {
    if s == "" || Control(s[0]) then None
    else if s[0] == '"' then Some(("", s[1..]))
    else if s[0] == '\\' then
      if |s| < 2 || Unescape(s[1]).None? then None
      else
        var r := BasicString(s[2..]);
        if r.None? then None else Some(([Unescape(s[1]).value] + r.value.0, r.value.1))
    else
      var r := BasicString(s[1..]);
      if r.None? then None else Some(([s[0]] + r.value.0, r.value.1))
  }

  // The length of the longest bare key at the front of `s`; bare keys are url-safe.
  function BareLength(s: string): (n: nat)
    ensures n <= |s|
  {
    if s == "" || !UrlSafeChar(s[0]) then 0 else 1 + BareLength(s[1..])
  }

  predicate Starts(s: string, prefix: string) {
    |prefix| <= |s| && s[..|prefix|] == prefix
  }

  type Document = map<(string, string), string>

  // `[name]` and what follows its line.
  function Header(s: string): (r: Option<(string, string)>)
    requires s != ""
    ensures r.Some? ==> |r.value.1| < |s|
  {
    var n := BareLength(s[1..]);
    var rest := s[n + 1..];
    if n == 0 || !Starts(rest, "]\n") then None else Some((s[1..n + 1], rest[2..]))
  }

  // ` = "value"` and what follows its line. Strings in three quotes are not read: the printer makes none.
  function Assigned(s: string): (r: Option<(string, string)>)
    ensures r.Some? ==> |r.value.1| < |s|
  {
    if !Starts(s, " = \"") || Starts(s, " = \"\"\"") then None
    else
      var r := BasicString(s[4..]);
      if r.None? || !Starts(r.value.1, "\n") then None
      else
        Shortens(s[4..]);
        Some((r.value.0, r.value.1[1..]))
  }

  // A key, its value, and what follows the line.
  function Entry(s: string): (r: Option<(string, string, string)>)
    ensures r.Some? ==> |r.value.2| < |s|
  {
    var n := BareLength(s);
    var r := Assigned(s[n..]);
    if n == 0 || r.None? then None else Some((s[..n], r.value.0, r.value.1))
  }

  lemma Shortens(s: string)
    requires BasicString(s).Some?
    ensures |BasicString(s).value.1| < |s|
  {
  }

  // Lines from `s` on, inside `table`; defining a table or key twice is an error.
  function Lines(s: string, table: string, tables: set<string>, doc: Document): Option<Document>
    decreases |s|
  {
    if s == "" then Some(doc)
    else if s[0] == '\n' then Lines(s[1..], table, tables, doc)
    else if s[0] == '[' then
      var r := Header(s);
      if r.None? || r.value.0 in tables then None else Lines(r.value.1, r.value.0, tables + {r.value.0}, doc)
    else
      var r := Entry(s);
      if r.None? || (table, r.value.0) in doc then None
      else Lines(r.value.2, table, tables, doc[(table, r.value.0) := r.value.1])
  }

  function Get(doc: Document, table: string, key: string): Option<string> {
    if (table, key) in doc then Some(doc[(table, key)]) else None
  }

  // `load_config`; None when the file is no valid TOML.
  function LoadConfig(text: string): Option<Config> {
    var doc := Lines(text, "", {}, map[]);
    if doc.None? then None
    else Some(Config(Get(doc.value, "relay", "url"), Get(doc.value, "device", "id"),
                     Get(doc.value, "device", "secret")))
  }

  // ----- saving, then loading

  // What survives: an empty URL is no URL, and a device needs both its fields.
  function Normalized(c: Config): Config {
    var device := Given(c.deviceId) && Given(c.deviceSecret);
    Config(if Given(c.relayUrl) then c.relayUrl else None,
           if device then c.deviceId else None,
           if device then c.deviceSecret else None)
  }

  // Nothing that a basic string would read differently; url-safe text in particular.
  predicate Plain(s: string) {
    Clean(s) && '"' !in s && '\\' !in s
  }

  lemma UrlSafeIsPlain(s: string)
    requires UrlSafe(s)
    ensures Plain(s)
  {
  }

  // A basic string undoes the escaping, and refuses exactly the strings with control characters.
  lemma {:induction false} EscapeReadsBack(s: string, rest: string)
    ensures BasicString(Escape(s) + "\"" + rest) == if Clean(s) then Some((s, rest)) else None
  {
    var text := Escape(s) + "\"" + rest;
    if s == "" {
      assert text == "\"" + rest;
      assert text[1..] == rest;
    } else {
      EscapeReadsBack(s[1..], rest);
      var tail := Escape(s[1..]) + "\"" + rest;
      CleanSplit(s);
      if s[0] == '\\' || s[0] == '"' {
        assert text[2..] == tail;
      } else {
        assert text == [s[0]] + tail;
        assert text[1..] == tail;
      }
      assert s == [s[0]] + s[1..];
    }
  }

  lemma CleanSplit(s: string)
    requires s != ""
    ensures Clean(s) <==> !Control(s[0]) && Clean(s[1..])
  {
    assert s == [s[0]] + s[1..];
  }

  lemma {:induction false} PlainIsItsEscape(s: string)
    requires Plain(s)
    ensures Escape(s) == s
  {
    if s != "" {
      PlainIsItsEscape(s[1..]);
    }
  }

  lemma {:induction false} BareEnds(name: string, rest: string)
    requires UrlSafe(name) && rest != "" && !UrlSafeChar(rest[0])
    ensures BareLength(name + rest) == |name|
  {
    if name == "" {
      assert name + rest == rest;
    } else {
      BareEnds(name[1..], rest);
      assert (name + rest)[1..] == name[1..] + rest;
    }
  }

  lemma HeaderReadsBack(name: string, rest: string)
    requires name != "" && UrlSafe(name)
    ensures Header("[" + name + "]\n" + rest) == Some((name, rest))
  {
    var s, tail := "[" + name + "]\n" + rest, "]\n" + rest;
    BareEnds(name, tail);
    assert s[1..] == name + tail;
    assert s[1..|name| + 1] == name && s[|name| + 1..] == tail;
    assert tail[2..] == rest && tail[..2] == "]\n";
  }

  lemma HeaderLine(name: string, rest: string, table: string, tables: set<string>, doc: Document)
    requires name != "" && UrlSafe(name) && name !in tables
    ensures Lines("[" + name + "]\n" + rest, table, tables, doc) == Lines(rest, name, tables + {name}, doc)
  {
    HeaderReadsBack(name, rest);
    assert ("[" + name + "]\n" + rest)[0] == '[';
  }

  lemma AssignedReadsBack(v: string, rest: string)
    requires v != ""
    ensures Assigned(" = \"" + (Escape(v) + "\"" + ("\n" + rest))) == if Clean(v) then Some((v, rest)) else None
  {
    var inside := Escape(v) + "\"" + ("\n" + rest);
    var s := " = \"" + inside;
    assert s[..4] == " = \"" && s[4..] == inside && s[4] != '"';
    EscapeReadsBack(v, "\n" + rest);
    assert ("\n" + rest)[1..] == rest && ("\n" + rest)[..1] == "\n";
  }

  lemma EntryReadsBack(key: string, v: string, rest: string)
    requires key != "" && UrlSafe(key) && v != ""
    ensures Entry(key + " = \"" + Escape(v) + "\"\n" + rest) == if Clean(v) then Some((key, v, rest)) else None
  {
    var tail := " = \"" + (Escape(v) + "\"" + ("\n" + rest));
    assert key + " = \"" + Escape(v) + "\"\n" + rest == key + tail;
    BareEnds(key, tail);
    assert (key + tail)[..|key|] == key && (key + tail)[|key|..] == tail;
    AssignedReadsBack(v, rest);
  }

  lemma EntryLine(key: string, v: string, rest: string, table: string, tables: set<string>, doc: Document)
    requires key != "" && UrlSafe(key) && v != "" && (table, key) !in doc
    ensures Lines(key + " = \"" + Escape(v) + "\"\n" + rest, table, tables, doc)
         == if Clean(v) then Lines(rest, table, tables, doc[(table, key) := v]) else None
  {
    EntryReadsBack(key, v, rest);
    var s := key + " = \"" + Escape(v) + "\"\n" + rest;
    assert s[0] == key[0] && UrlSafeChar(key[0]);
  }

  lemma BlankLine(rest: string, table: string, tables: set<string>, doc: Document)
    ensures Lines("\n" + rest, table, tables, doc) == Lines(rest, table, tables, doc)
  {
    assert ("\n" + rest)[1..] == rest;
  }

  lemma DeviceEntries(id: string, secret: string, tables: set<string>, doc: Document)
    requires id != "" && secret != "" && Plain(id) && Plain(secret) && ("device", "id") !in doc
    requires ("device", "secret") !in doc
    ensures Lines("id = \"" + id + "\"\n" + ("secret = \"" + secret + "\"\n"), "device", tables, doc)
         == Some(doc[("device", "id") := id][("device", "secret") := secret])
  {
    PlainIsItsEscape(id);
    PlainIsItsEscape(secret);
    var last := "secret" + " = \"" + Escape(secret) + "\"\n" + "";
    assert last == "secret = \"" + secret + "\"\n";
    assert "id" + " = \"" + Escape(id) + "\"\n" + last == "id = \"" + id + "\"\n" + last;
    EntryLine("id", id, last, "device", tables, doc);
    EntryLine("secret", secret, "", "device", tables, doc[("device", "id") := id]);
  }

  lemma DeviceReadsBack(c: Config, table: string, tables: set<string>, doc: Document)
    requires Given(c.deviceId) && Given(c.deviceSecret) && Plain(c.deviceId.value) && Plain(c.deviceSecret.value)
    requires "device" !in tables && ("device", "id") !in doc && ("device", "secret") !in doc
    ensures Lines(DeviceText(c), table, tables, doc)
         == Some(doc[("device", "id") := c.deviceId.value][("device", "secret") := c.deviceSecret.value])
  {
    var entries := "id = \"" + c.deviceId.value + "\"\n" + ("secret = \"" + c.deviceSecret.value + "\"\n");
    var header := "[" + "device" + "]\n" + entries;
    assert DeviceText(c) == "\n" + header;
    BlankLine(header, table, tables, doc);
    HeaderLine("device", entries, table, tables, doc);
    DeviceEntries(c.deviceId.value, c.deviceSecret.value, tables + {"device"}, doc);
  }

  lemma RelayReadsBack(c: Config, rest: string)
    ensures Lines(RelayText(c) + rest, "", {}, map[])
         == if Given(c.relayUrl) && !Clean(c.relayUrl.value) then None
            else Lines(rest, "relay", {"relay"}, if Given(c.relayUrl) then map[("relay", "url") := c.relayUrl.value]
                       else map[])
  {
    assert {} + {"relay"} == {"relay"};
    if Given(c.relayUrl) {
      var entry := "url" + " = \"" + Escape(c.relayUrl.value) + "\"\n" + rest;
      assert RelayText(c) + rest == "[" + "relay" + "]\n" + entry;
      HeaderLine("relay", entry, "", {}, map[]);
      EntryLine("url", c.relayUrl.value, rest, "relay", {"relay"}, map[]);
    } else {
      assert RelayText(c) + rest == "[" + "relay" + "]\n" + rest;
      HeaderLine("relay", rest, "", {}, map[]);
    }
  }

  // What loading gives after saving: the configuration, normalized, exactly when the URL is free of
  // control characters; otherwise the file is no valid TOML.
  lemma {:induction false} SaveThenLoad(c: Config)
    requires Given(c.deviceId) && Given(c.deviceSecret) ==> Plain(c.deviceId.value) && Plain(c.deviceSecret.value)
    ensures LoadConfig(FileText(c)) == if Given(c.relayUrl) && !Clean(c.relayUrl.value) then None
            else Some(Normalized(c))
  {
    RelayReadsBack(c, DeviceText(c));
    var doc: Document := if Given(c.relayUrl) then map[("relay", "url") := c.relayUrl.value] else map[];
    if Given(c.deviceId) && Given(c.deviceSecret) {
      DeviceReadsBack(c, "relay", {"relay"}, doc);
    }
  }

  // With the url-safe ids and secrets that agents draw, every URL without control characters survives.
  lemma {:induction false} UrlSafeSaveThenLoad(c: Config)
    requires Given(c.deviceId) && Given(c.deviceSecret) ==> UrlSafe(c.deviceId.value) && UrlSafe(c.deviceSecret.value)
    ensures LoadConfig(FileText(c)) == Some(Normalized(c)) <==> (Given(c.relayUrl) ==> Clean(c.relayUrl.value))
  {
    if Given(c.deviceId) && Given(c.deviceSecret) {
      UrlSafeIsPlain(c.deviceId.value);
      UrlSafeIsPlain(c.deviceSecret.value);
    }
    SaveThenLoad(c);
  }
}

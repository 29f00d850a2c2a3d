/** Signature headers: a dictionary of strings in the form of RFC 8941 (sections 3.2, 3.3.3, 4.1.6
    and 4.2.5), its writer and its reader. */
module StructuredHeaders {
  import opened Wrappers
  import opened Text

  datatype Member = Member(name: string, value: string)

  // ---- writing ----

  /** Backslashes and quotes are escaped. */
  function EscapeChar(c: char): string { if c == '\\' || c == '"' then ['\\', c] else [c] }

  function Escape(v: string): string { if v == "" then "" else EscapeChar(v[0]) + Escape(v[1..]) }

  function WriteMember(m: Member): string { m.name + "=\"" + Escape(m.value) + "\"" }

  function WriteMembers(members: seq<Member>): string {
    if members == [] then ""
    else if |members| == 1 then WriteMember(members[0])
    else WriteMember(members[0]) + ", " + WriteMembers(members[1..])
  }

  const ALGORITHM := "secp256k1-eip191-keccak256"

  /** bootstrapSignatureHeader; the signature comes as base64 text. */
  function SignatureHeader(signature: string, keyID: string): string {
    WriteMembers([Member("sig", signature), Member("keyid", keyID), Member("alg", ALGORITHM)])
  }

  // ---- reading ----

  /** splitStructuredMembers as a scan: commas inside quotes do not separate. */
  function Scan(s: string, quoted: bool, escaped: bool, member: string): seq<string> {
    if s == "" then [Trim(member)]
    else if escaped then Scan(s[1..], quoted, false, member + [s[0]])
    else if quoted && s[0] == '\\' then Scan(s[1..], quoted, true, member + [s[0]])
    else if s[0] == '"' then Scan(s[1..], !quoted, false, member + [s[0]])
    else if s[0] == ',' && !quoted then [Trim(member)] + Scan(s[1..], false, false, "")
    else Scan(s[1..], quoted, false, member + [s[0]])
  }

  /** The loop that keeps the start of the current member and two flags. */
  method SplitMembers(header: string) returns (members: seq<string>)
    ensures members == Scan(header, false, false, "")
  {
    members := [];
    var quoted, escaped, start := false, false, 0;
    assert header[0..] == header && header[0..0] == "";
    for i := 0 to |header|
      invariant 0 <= start <= i
      invariant members + Scan(header[i..], quoted, escaped, header[start..i]) == Scan(header, false, false, "")
    {
      assert header[i..][0] == header[i] && header[i..][1..] == header[i + 1..];
      assert header[start..i] + [header[i]] == header[start..i + 1];
      if escaped {
        escaped := false;
      } else if quoted && header[i] == '\\' {
        escaped := true;
      } else if header[i] == '"' {
        quoted := !quoted;
      } else if header[i] == ',' && !quoted {
        ghost var rest := Scan(header[i + 1..], false, false, "");
        assert members + ([Trim(header[start..i])] + rest) == (members + [Trim(header[start..i])]) + rest;
        members := members + [Trim(header[start..i])];
        start := i + 1;
        assert header[start..i + 1] == "";
      }
    }
    assert header[|header|..] == "" && header[start..|header|] == header[start..];
    members := members + [Trim(header[start..])];
  }

  /** unquoteStructuredString behind the opening quote: only quotes and backslashes are escaped, and
      nothing may follow the closing quote. */
  function Unquote(s: string, out: string): string {
    if s == "" then ""
    else if s[0] == '\\' then
      if |s| < 2 || (s[1] != '"' && s[1] != '\\') then "" else Unquote(s[2..], out + [s[1]])
    else if s[0] == '"' then if |s| > 1 then "" else out
    else Unquote(s[1..], out + [s[0]])
  }

  method UnquoteString(value: string) returns (out: string)
    ensures out == if |value| < 2 || value[0] != '"' then "" else Unquote(value[1..], "")
  {
    if |value| < 2 || value[0] != '"' { return ""; }
    out := "";
    var i := 1;
    while i < |value|
      invariant 1 <= i <= |value|
      invariant Unquote(value[i..], out) == Unquote(value[1..], "")
    {
      assert value[i..][0] == value[i] && value[i..][1..] == value[i + 1..];
      if value[i] == '\\' {
        if i + 1 >= |value| { return ""; }
        assert value[i..][1] == value[i + 1] && value[i..][2..] == value[i + 2..];
        i := i + 1;
        if value[i] != '"' && value[i] != '\\' { return ""; }
        out := out + [value[i]];
      } else if value[i] == '"' {
        if i != |value| - 1 { return ""; }
        return;
      } else {
        out := out + [value[i]];
      }
      i := i + 1;
    }
    return "";
  }

  function IndexOf(s: string, c: char): (k: nat)
    ensures k <= |s|
  {
    if s == "" || s[0] == c then 0 else 1 + IndexOf(s[1..], c)
  }

  /** The value of a member whose name matches, or nothing. */
  function ReadMember(member: string, key: string): Option<string> {
    var k := IndexOf(member, '=');
    if k == |member| || Upper(Trim(member[..k])) != Upper(key) then None else
    var value := Trim(member[k + 1..]);
    if value == "" || value[0] != '"' then Some(Trim(value[..IndexOf(value, ';')]))
    else if |value| < 2 then Some("")
    else Some(Unquote(value[1..], ""))
  }

  function FirstNamed(members: seq<string>, key: string): string {
    if members == [] then ""
    else if ReadMember(members[0], key).Some? then ReadMember(members[0], key).value
    else FirstNamed(members[1..], key)
  }

  function ReadHeader(header: string, key: string): string {
    if Trim(header) == "" || key == "" then "" else FirstNamed(Scan(Trim(header), false, false, ""), key)
  }

  /** structuredDictionaryString. */
  method ReadDictionary(header: string, key: string) returns (out: string)
    ensures out == ReadHeader(header, key)
  {
    var text := Trim(header);
    if text == "" || key == "" { return ""; }
    var members := SplitMembers(text);
    for i := 0 to |members|
      invariant FirstNamed(members[i..], key) == FirstNamed(members, key)
    {
      assert members[i..][0] == members[i] && members[i..][1..] == members[i + 1..];
      var k := IndexOf(members[i], '=');
      if k == |members[i]| || Upper(Trim(members[i][..k])) != Upper(key) { continue; }
      var value := Trim(members[i][k + 1..]);
      if value == "" || value[0] != '"' {
        return Trim(value[..IndexOf(value, ';')]);
      }
      out := UnquoteString(value);
      return;
    }
    return "";
  }

  // ---- what was written is read back ----

  /** A member name of the writer: no spaces, quotes, commas or equals signs. */
  predicate PlainName(s: string) {
    s != "" && forall i :: 0 <= i < |s| ==> !IsSpace(s[i]) && s[i] != '"' && s[i] != ',' && s[i] != '=' && s[i] != '\\'
  }

  lemma {:induction false} ScanPlain(p: string, s: string, member: string)
    requires forall i :: 0 <= i < |p| ==> p[i] != '"' && p[i] != ','
    ensures Scan(p + s, false, false, member) == Scan(s, false, false, member + p)
  {
    if p == "" {
      assert p + s == s && member + p == member;
    } else {
      assert (p + s)[1..] == p[1..] + s;
      ScanPlain(p[1..], s, member + [p[0]]);
      assert member + [p[0]] + p[1..] == member + p;
    }
  }

  lemma ScanChar(c: char, s: string, member: string)
    ensures Scan(EscapeChar(c) + s, true, false, member) == Scan(s, true, false, member + EscapeChar(c))
  {
    if c == '\\' || c == '"' {
      assert (EscapeChar(c) + s)[1..] == [c] + s && ([c] + s)[1..] == s;
      assert member + ['\\'] + [c] == member + EscapeChar(c);
    } else {
      assert (EscapeChar(c) + s)[1..] == s;
    }
  }

  lemma {:induction false} ScanEscaped(v: string, s: string, member: string)
    ensures Scan(Escape(v) + s, true, false, member) == Scan(s, true, false, member + Escape(v))
  {
    if v == "" {
      assert Escape(v) + s == s && member + Escape(v) == member;
    } else {
      var first, rest := EscapeChar(v[0]), Escape(v[1..]);
      assert Escape(v) + s == first + (rest + s);
      ScanChar(v[0], rest + s, member);
      ScanEscaped(v[1..], s, member + first);
      assert member + first + rest == member + Escape(v);
    }
  }

  /** A written member is scanned as one piece, whatever its value has in it. */
  lemma ScanMember(m: Member, s: string, member: string)
    requires PlainName(m.name)
    ensures Scan(WriteMember(m) + s, false, false, member) == Scan(s, false, false, member + WriteMember(m))
  {
    var name, value := m.name + "=", Escape(m.value);
    var behind := "\"" + s;
    var all := name + ("\"" + (value + behind));
    assert WriteMember(m) + s == all;
    ScanPlain(name, "\"" + (value + behind), member);
    OpenQuote(value + behind, member + name);
    ScanEscaped(m.value, behind, member + name + "\"");
    CloseQuote(s, member + name + "\"" + value);
    assert member + name + "\"" + value + "\"" == member + WriteMember(m);
  }

  lemma OpenQuote(s: string, member: string)
    ensures Scan("\"" + s, false, false, member) == Scan(s, true, false, member + "\"")
  {
    assert ("\"" + s)[1..] == s;
  }

  lemma CloseQuote(s: string, member: string)
    ensures Scan("\"" + s, true, false, member) == Scan(s, false, false, member + "\"")
  {
    assert ("\"" + s)[1..] == s;
  }

  function Written(members: seq<Member>): seq<string> {
    if members == [] then [] else [WriteMember(members[0])] + Written(members[1..])
  }

  predicate PlainNames(members: seq<Member>) { forall i :: 0 <= i < |members| ==> PlainName(members[i].name) }

  lemma TrimWritten(m: Member)
    requires PlainName(m.name)
    ensures Trim(WriteMember(m)) == WriteMember(m) && Trim(" " + WriteMember(m)) == WriteMember(m)
  {
    var w := WriteMember(m);
    assert w[0] == m.name[0] && w[|w| - 1] == '"';
    assert (" " + w)[1..] == w;
    assert TrimLeft(" " + w) == TrimLeft(w) == w;
  }

  /** The scan of a written dictionary gives back the written members. */
  lemma {:induction false} ScanWritten(members: seq<Member>, pre: string)
    requires members != [] && PlainNames(members) && (pre == "" || pre == " ")
    ensures Scan(WriteMembers(members), false, false, pre) == Written(members)
  {
    var w := WriteMember(members[0]);
    TrimWritten(members[0]);
    assert "" + w == w;
    if |members| == 1 {
      ScanMember(members[0], "", pre);
      assert w + "" == w;
      assert Written(members[1..]) == [];
    } else {
      var rest := WriteMembers(members[1..]);
      assert WriteMembers(members) == w + (", " + rest);
      ScanMember(members[0], ", " + rest, pre);
      NextMember(rest, pre + w);
      ScanWritten(members[1..], " ");
    }
  }

  lemma NextMember(rest: string, member: string)
    ensures Scan(", " + rest, false, false, member) == [Trim(member)] + Scan(rest, false, false, " ")
  {
    assert (", " + rest)[1..] == " " + rest && (" " + rest)[1..] == rest;
    assert "" + [' '] == " ";
  }

  lemma {:induction false} UnquoteEscaped(v: string, out: string)
    ensures Unquote(Escape(v) + "\"", out) == out + v
  {
    if v == "" {
      assert Escape(v) + "\"" == "\"" && out + v == out;
    } else {
      var first, rest := EscapeChar(v[0]), Escape(v[1..]) + "\"";
      UnquoteEscaped(v[1..], out + [v[0]]);
      assert out + [v[0]] + v[1..] == out + v;
      assert Escape(v) + "\"" == first + rest;
      assert (first + rest)[|first|..] == rest;
    }
  }

  lemma {:induction false} IndexBehind(p: string, s: string, c: char)
    requires forall i :: 0 <= i < |p| ==> p[i] != c
    ensures IndexOf(p + [c] + s, c) == |p|
  {
    if p != "" {
      assert (p + [c] + s)[1..] == p[1..] + [c] + s;
      IndexBehind(p[1..], s, c);
    }
  }

  lemma QuotedIsTrimmed(s: string)
    ensures Trim("\"" + s + "\"") == "\"" + s + "\""
  {
    var value := "\"" + s + "\"";
    assert value[0] == '"' && value[|value| - 1] == '"';
    assert TrimLeft(value) == value && TrimRight(value) == value;
  }

  lemma ReadWritten(m: Member, key: string)
    requires PlainName(m.name)
    ensures ReadMember(WriteMember(m), key) == if Upper(m.name) == Upper(key) then Some(m.value) else None
  {
    var w, value := WriteMember(m), "\"" + Escape(m.value) + "\"";
    assert w == m.name + ['='] + value;
    IndexBehind(m.name, value, '=');
    assert w[..|m.name|] == m.name && w[|m.name| + 1..] == value;
    TrimmedAway(m.name);
    QuotedIsTrimmed(Escape(m.value));
    assert value[1..] == Escape(m.value) + "\"";
    UnquoteEscaped(m.value, "");
    assert "" + m.value == m.value;
  }

  /** The value of the first member of that name, whatever its case. */
  function FirstValue(members: seq<Member>, key: string): string {
    if members == [] then ""
    else if Upper(members[0].name) == Upper(key) then members[0].value
    else FirstValue(members[1..], key)
  }

  lemma {:induction false} FirstWritten(members: seq<Member>, key: string)
    requires PlainNames(members)
    ensures FirstNamed(Written(members), key) == FirstValue(members, key)
  {
    if members != [] {
      ReadWritten(members[0], key);
      FirstWritten(members[1..], key);
      assert Written(members)[1..] == Written(members[1..]);
    }
  }

  lemma {:induction false} WrittenIsTrimmed(members: seq<Member>)
    requires members != [] && PlainNames(members)
    ensures var w := WriteMembers(members); w != "" && !IsSpace(w[0]) && w[|w| - 1] == '"' && Trim(w) == w
  {
    var first := WriteMember(members[0]);
    assert first[0] == members[0].name[0];
    if |members| > 1 {
      WrittenIsTrimmed(members[1..]);
    }
    var w := WriteMembers(members);
    assert TrimLeft(w) == w && TrimRight(w) == w;
  }

  // ---- main results ----

  /** Whatever the values have in them — quotes, backslashes, commas, equals signs — reading a key
      from a written dictionary gives the value of its first member of that name, and nothing if it
      has none. */
  lemma DictionaryRoundTrip(members: seq<Member>, key: string)
    requires members != [] && PlainNames(members) && key != ""
    ensures ReadHeader(WriteMembers(members), key) == FirstValue(members, key)
  {
    WrittenIsTrimmed(members);
    ScanWritten(members, "");
    FirstWritten(members, key);
  }

  /** For every signature and key id, the header gives both back. */
  lemma SignatureHeaderRoundTrip(signature: string, keyID: string)
    ensures ReadHeader(SignatureHeader(signature, keyID), "sig") == signature
    ensures ReadHeader(SignatureHeader(signature, keyID), "keyid") == keyID
    ensures ReadHeader(SignatureHeader(signature, keyID), "alg") == ALGORITHM
  {
    var sig, keyid, alg := Member("sig", signature), Member("keyid", keyID), Member("alg", ALGORITHM);
    var members := [sig, keyid, alg];
    assert members[1..] == [keyid, alg] && members[1..][1..] == [alg];
    DictionaryRoundTrip(members, "sig");
    DictionaryRoundTrip(members, "keyid");
    DictionaryRoundTrip(members, "alg");
    DifferentLengths("sig", "keyid");
    assert Upper("alg")[0] == 'A' && Upper("sig")[0] == 'S' && Upper("keyid")[0] == 'K';
    assert FirstValue([alg], "alg") == ALGORITHM && FirstValue([keyid, alg], "alg") == FirstValue([alg], "alg");
  }

  lemma DifferentLengths(a: string, b: string)
    requires |a| != |b|
    ensures Upper(a) != Upper(b)
  {
  }
}

/** Secrets in the build log: every secret value that this process knows is replaced. */
module Redaction {
  const REDACTED := "***"
  const MIN_SECRET := 6

  /** A value that can be replaced has something in it. */
  type Value = v: string | v != "" witness "?"

  predicate PrefixAt(s: string, i: nat, u: string) { i + |u| <= |s| && s[i..i + |u|] == u }

  predicate Contains(s: string, u: string) { exists i: nat :: i <= |s| && PrefixAt(s, i, u) }

  /** The mark cannot be a part of u, nor complete it at its end. */
  predicate NoMarkBehind(u: string) { (u == "" || u[|u| - 1] != '*') && !Contains(u, REDACTED) }

  /** Nothing of the mark can belong to an occurrence of u. */
  predicate Markless(u: Value) { u[0] != '*' && NoMarkBehind(u) }

  /** strings.ReplaceAll with the redaction mark: leftmost occurrences, one after the other. */
  function Redact(text: string, value: Value): string
    decreases |text|
  {
    if text == "" then ""
    else if PrefixAt(text, 0, value) then REDACTED + Redact(text[|value|..], value)
    else [text[0]] + Redact(text[1..], value)
  }

  /** One value after the other. */
  function RedactAll(text: string, values: seq<Value>): string {
    if values == [] then text else Redact(RedactAll(text, values[..|values| - 1]), values[|values| - 1])
  }

  lemma CharByChar(s: string, i: nat, u: string)
    ensures PrefixAt(s, i, u) <==> i + |u| <= |s| && forall k :: 0 <= k < |u| ==> s[i + k] == u[k]
  {
    if PrefixAt(s, i, u) {
      forall k | 0 <= k < |u| ensures s[i + k] == u[k] { assert s[i..i + |u|][k] == s[i + k]; }
    }
  }

  // ---- the mark never completes a markless text ----

  lemma {:induction false} PrefixesWereThere(text: string, value: Value, u: string)
    requires NoMarkBehind(u) && PrefixAt(Redact(text, value), 0, u)
    ensures PrefixAt(text, 0, u)
    decreases |u|
  {
    if u != "" {
      var out := Redact(text, value);
      assert out[0] == u[0];
      if PrefixAt(text, 0, value) { MarkInFront(Redact(text[|value|..], value), u); assert false; }
      assert out[1..] == Redact(text[1..], value);
      assert PrefixAt(out[1..], 0, u[1..]) by { assert out[1..][..|u| - 1] == out[..|u|][1..]; }
      if Contains(u[1..], REDACTED) { FoundLater(u, 1, REDACTED); }
      PrefixesWereThere(text[1..], value, u[1..]);
      assert text[..|u|] == [text[0]] + text[1..][..|u| - 1];
      assert u == [u[0]] + u[1..];
    }
  }

  lemma MarkInFront(rest: string, u: Value)
    requires PrefixAt(REDACTED + rest, 0, u)
    ensures !NoMarkBehind(u)
  {
    CharByChar(REDACTED + rest, 0, u);
    if |u| >= 3 {
      CharByChar(u, 0, REDACTED);
      assert PrefixAt(u, 0, REDACTED);
    }
  }

  lemma AfterTheMark(rest: string, u: Value, i: nat)
    requires Markless(u) && PrefixAt(REDACTED + rest, i, u)
    ensures i >= 3 && PrefixAt(rest, i - 3, u)
  {
    var out := REDACTED + rest;
    assert u[0] == out[i..i + |u|][0] == out[i];
    assert out[i..i + |u|] == rest[i - 3..i - 3 + |u|];
  }

  lemma AfterTheChar(c: char, rest: string, u: Value, i: nat)
    requires i >= 1 && PrefixAt([c] + rest, i, u)
    ensures PrefixAt(rest, i - 1, u)
  {
    assert ([c] + rest)[i..i + |u|] == rest[i - 1..i - 1 + |u|];
  }

  lemma {:induction false} NothingIsMadeUp(text: string, value: Value, u: Value, i: nat)
    requires Markless(u) && PrefixAt(Redact(text, value), i, u)
    ensures Contains(text, u)
    decreases |text|
  {
    if text == "" {
      assert false;
    } else if PrefixAt(text, 0, value) {
      AfterTheMark(Redact(text[|value|..], value), u, i);
      NothingIsMadeUp(text[|value|..], value, u, i - 3);
      FoundLater(text, |value|, u);
    } else if i == 0 {
      PrefixesWereThere(text, value, u);
    } else {
      AfterTheChar(text[0], Redact(text[1..], value), u, i);
      NothingIsMadeUp(text[1..], value, u, i - 1);
      FoundLater(text, 1, u);
    }
  }

  lemma FoundLater(text: string, k: nat, u: string)
    requires k <= |text| && Contains(text[k..], u)
    ensures Contains(text, u)
  {
    var i: nat :| i <= |text[k..]| && PrefixAt(text[k..], i, u);
    assert text[k + i..k + i + |u|] == text[k..][i..i + |u|];
    assert PrefixAt(text, k + i, u);
  }

  lemma {:induction false} ReplacedIsGone(text: string, value: Value, i: nat)
    requires Markless(value)
    ensures !PrefixAt(Redact(text, value), i, value)
    decreases |text|
  {
    if PrefixAt(Redact(text, value), i, value) && text != "" {
      if PrefixAt(text, 0, value) {
        AfterTheMark(Redact(text[|value|..], value), value, i);
        ReplacedIsGone(text[|value|..], value, i - 3);
      } else if i == 0 {
        PrefixesWereThere(text, value, value);
      } else {
        AfterTheChar(text[0], Redact(text[1..], value), value, i);
        ReplacedIsGone(text[1..], value, i - 1);
      }
    }
  }

  lemma AbsentStaysAbsent(text: string, value: Value, u: Value)
    requires Markless(u) && !Contains(text, u)
    ensures !Contains(Redact(text, value), u)
  {
    if Contains(Redact(text, value), u) {
      var i: nat :| i <= |Redact(text, value)| && PrefixAt(Redact(text, value), i, u);
      NothingIsMadeUp(text, value, u, i);
    }
  }

  /** No secret survives: a listed value to which no part of the mark can belong is nowhere in a
      redacted line, however the values overlap or nest, whatever the other values are, and
      although they are replaced one after the other. */
  lemma {:induction false} NoSecretSurvives(text: string, values: seq<Value>, v: Value)
    requires v in values && Markless(v)
    ensures !Contains(RedactAll(text, values), v)
  {
    var n := |values| - 1;
    var before := RedactAll(text, values[..n]);
    assert values == values[..n] + [values[n]];
    if v == values[n] {
      forall i: nat ensures !PrefixAt(Redact(before, v), i, v) { ReplacedIsGone(before, v, i); }
    } else {
      NoSecretSurvives(text, values[..n], v);
      AbsentStaysAbsent(before, values[n], v);
    }
  }

  /** There is some listed secret in v, often v itself, to which no part of the mark can belong. */
  predicate GuardedBy(values: seq<Value>, v: Value) {
    exists k :: 0 <= k < |values| && Markless(values[k]) && Contains(v, values[k])
  }

  predicate Guarded(values: seq<Value>) { forall v :: v in values ==> GuardedBy(values, v) }

  lemma GuardedSecretsAreGone(text: string, values: seq<Value>)
    requires Guarded(values)
    ensures forall v :: v in values ==> !Contains(RedactAll(text, values), v)
  {
    forall v | v in values ensures !Contains(RedactAll(text, values), v) { GuardedSecretIsGone(text, values, v); }
  }

  lemma GuardedSecretIsGone(text: string, values: seq<Value>, v: Value)
    requires GuardedBy(values, v)
    ensures !Contains(RedactAll(text, values), v)
  {
    var k :| 0 <= k < |values| && Markless(values[k]) && Contains(v, values[k]);
    var w := values[k];
    NoSecretSurvives(text, values, w);
    if Contains(RedactAll(text, values), v) { PartsAreContained(RedactAll(text, values), v, w); }
  }

  lemma PartsAreContained(s: string, v: string, w: string)
    requires Contains(s, v) && Contains(v, w)
    ensures Contains(s, w)
  {
    var i: nat :| i <= |s| && PrefixAt(s, i, v);
    var k: nat :| k <= |v| && PrefixAt(v, k, w);
    CharByChar(s, i, v);
    CharByChar(v, k, w);
    forall n | 0 <= n < |w| ensures s[i + k + n] == w[n] { assert s[i + (k + n)] == v[k + n]; }
    CharByChar(s, i + k, w);
  }

  // ---- and when it can ----

  lemma TooShort(text: string, value: Value)
    requires |text| < |value|
    ensures Redact(text, value) == text
  {
    NothingToReplace(text, value);
  }

  /** Where nothing else is to be replaced, what is between a and b is. */
  lemma {:induction false} OneIsReplaced(a: string, v: Value, b: string)
    requires |b| < |v| && forall p: nat :: p < |a| ==> !PrefixAt(a + v + b, p, v)
    ensures Redact(a + v + b, v) == a + REDACTED + b
    decreases |a|
  {
    var text := a + v + b;
    if a == "" {
      CharByChar(text, 0, v);
      assert text[|v|..] == b;
      TooShort(b, v);
    } else {
      var rest := a[1..] + v + b;
      assert text[1..] == rest;
      assert !PrefixAt(text, 0, v);
      forall p: nat | p < |a| - 1 ensures !PrefixAt(rest, p, v) {
        assert !PrefixAt(text, p + 1, v);
        BehindTheChar(a[0], rest, v, p);
      }
      OneIsReplaced(a[1..], v, b);
      assert a + REDACTED + b == [a[0]] + (a[1..] + REDACTED + b);
    }
  }

  lemma BehindTheChar(c: char, rest: string, u: Value, p: nat)
    ensures PrefixAt(rest, p, u) ==> PrefixAt([c] + rest, p + 1, u)
  {
    if p + |u| <= |rest| { assert ([c] + rest)[p + 1..p + 1 + |u|] == rest[p..p + |u|]; }
  }

  /** A secret that begins with an asterisk is completed by the mark before its rest. */
  lemma MarkBegins(v: Value)
    requires v[0] == '*'
    ensures Contains(Redact("" + v + v[1..], v), v)
  {
    OneIsReplaced("", v, v[1..]);
    BeginsInTheMark(v);
  }

  lemma BeginsInTheMark(v: Value)
    requires v[0] == '*'
    ensures Contains("" + REDACTED + v[1..], v)
  {
    var out := "" + REDACTED + v[1..];
    CharByChar(out, 2, v);
    assert PrefixAt(out, 2, v);
  }

  lemma BeforeTheEnd(v: Value, p: nat)
    requires v[0] != '*' && v[|v| - 1] == '*' && p < |v| - 1
    ensures !PrefixAt(v[..|v| - 1] + v + "", p, v)
  {
    var n := |v| - 1;
    var text := v[..n] + v + "";
    CharByChar(text, p, v);
    assert text[p + 0] == v[p] && text[p + n] == v[p];
  }

  /** One that ends with an asterisk is completed by the mark behind all but its last character. */
  lemma MarkEnds(v: Value)
    requires v[0] != '*' && v[|v| - 1] == '*'
    ensures Contains(Redact(v[..|v| - 1] + v + "", v), v)
  {
    var a := v[..|v| - 1];
    forall p: nat | p < |a| ensures !PrefixAt(a + v + "", p, v) { BeforeTheEnd(v, p); }
    OneIsReplaced(a, v, "");
    EndsInTheMark(v);
  }

  lemma EndsInTheMark(v: Value)
    requires v[|v| - 1] == '*'
    ensures Contains(v[..|v| - 1] + REDACTED + "", v)
  {
    var out := v[..|v| - 1] + REDACTED + "";
    CharByChar(out, 0, v);
    assert PrefixAt(out, 0, v);
  }

  lemma BeforeTheMark(v: Value, m: nat, p: nat)
    requires PrefixAt(v, m, REDACTED) && p < m && PrefixAt(v[..m] + v + v[m + 3..], p, v)
    ensures PrefixAt(v, p, REDACTED)
  {
    var text := v[..m] + v + v[m + 3..];
    CharByChar(text, p, v);
    CharByChar(v, m, REDACTED);
    forall t | p <= t < p + 3 ensures v[t] == '*' {
      assert text[p + (m + (t - p))] == v[m + (t - p)] == REDACTED[t - p];
      assert text[m + t] == v[t];
    }
    CharByChar(v, p, REDACTED);
  }

  /** One with three asterisks in it, the first at m, is completed by the mark between the parts around them. */
  lemma MarkConnects(v: Value, m: nat)
    requires v[0] != '*' && PrefixAt(v, m, REDACTED) && forall p: nat :: p < m ==> !PrefixAt(v, p, REDACTED)
    ensures Redact(v[..m] + v + v[m + 3..], v) == v
  {
    var text := v[..m] + v + v[m + 3..];
    forall p: nat | p < m ensures !PrefixAt(text, p, v) {
      if PrefixAt(text, p, v) { BeforeTheMark(v, m, p); }
    }
    OneIsReplaced(v[..m], v, v[m + 3..]);
    AroundTheMark(v, m);
  }

  lemma AroundTheMark(v: string, m: nat)
    requires PrefixAt(v, m, REDACTED)
    ensures v[..m] + REDACTED + v[m + 3..] == v
  {
    assert v == v[..m] + v[m..m + 3] + v[m + 3..];
  }

  lemma {:induction false} FirstAt(s: string, i: nat, u: string) returns (m: nat)
    requires PrefixAt(s, i, u)
    ensures PrefixAt(s, m, u) && forall p: nat :: p < m ==> !PrefixAt(s, p, u)
  {
    m := i;
    if p: nat :| p < i && PrefixAt(s, p, u) { m := FirstAt(s, p, u); }
  }

  /** One secret is gone from every line exactly when it neither begins nor ends with an asterisk
      and has no three of them in a row: otherwise the mark itself can complete it. */
  lemma OneSecretIsGoneExactly(v: Value)
    ensures (forall text :: !Contains(RedactAll(text, [v]), v)) <==>
      v[0] != '*' && v[|v| - 1] != '*' && !Contains(v, REDACTED)
  {
    if Markless(v) {
      forall text ensures !Contains(RedactAll(text, [v]), v) { NoSecretSurvives(text, [v], v); }
    } else {
      var text := SurvivesIn(v);
      OneValue(text, v);
      assert Contains(RedactAll(text, [v]), v);
    }
  }

  lemma OneValue(text: string, v: Value)
    ensures RedactAll(text, [v]) == Redact(text, v)
  {
    assert [v][..0] == [];
  }

  lemma SurvivesIn(v: Value) returns (text: string)
    requires !Markless(v)
    ensures Contains(Redact(text, v), v)
  {
    if v[0] == '*' {
      text := "" + v + v[1..];
      MarkBegins(v);
    } else if v[|v| - 1] == '*' {
      text := v[..|v| - 1] + v + "";
      MarkEnds(v);
    } else {
      var i: nat :| i <= |v| && PrefixAt(v, i, REDACTED);
      var m := FirstAt(v, i, REDACTED);
      text := v[..m] + v + v[m + 3..];
      MarkConnects(v, m);
      CharByChar(v, 0, v);
    }
  }

  lemma NotInThere(text: string, value: Value)
    requires '*' !in text && value[0] == '*'
    ensures !Contains(text, value)
  {
    forall i: nat | i <= |text| ensures !PrefixAt(text, i, value) {
      assert i + |value| <= |text| ==> text[i..i + |value|][0] == text[i] && text[i] != '*';
    }
  }

  /** Nor need such a secret be in the text at all: the marks of others complete it too. */
  lemma AsterisksCanSurvive()
    ensures Contains(RedactAll("aaaaaabbb", ["***bbb", "aaaaaa"]), "***bbb")
  {
    var first, second: Value := "***bbb", "aaaaaa";
    var text, one, values := "aaaaaabbb", [first], [first, second];
    NotInThere(text, first);
    NothingToReplace(text, first);
    assert one[..|one| - 1] == [] && values[..|values| - 1] == one;
    assert RedactAll(text, one) == text;
    MarkCompletes();
    assert PrefixAt(first, 0, first);
  }

  lemma MarkCompletes()
    ensures Redact("aaaaaabbb", "aaaaaa") == "***bbb"
  {
    var text, second: Value := "aaaaaabbb", "aaaaaa";
    assert PrefixAt(text, 0, second) && text[6..] == "bbb";
    NothingToReplace("bbb", second);
  }

  /** Nothing but secrets is touched: a text without any of them stays as it is. */
  lemma {:induction false} OthersStay(text: string, values: seq<Value>)
    requires forall v :: v in values ==> !Contains(text, v)
    ensures RedactAll(text, values) == text
  {
    if values != [] {
      OthersStay(text, values[..|values| - 1]);
      NothingToReplace(text, values[|values| - 1]);
    }
  }

  lemma {:induction false} NothingToReplace(text: string, value: Value)
    requires !Contains(text, value)
    ensures Redact(text, value) == text
  {
    if text != "" {
      assert !PrefixAt(text, 0, value);
      if Contains(text[1..], value) { FoundLater(text, 1, value); }
      NothingToReplace(text[1..], value);
    }
  }

  // ---- the redactor ----

  predicate LongestFirst(values: seq<Value>) { forall i, j :: 0 <= i < j < |values| ==> |values[i]| >= |values[j]| }

  datatype Variable = Variable(name: string, value: string)

  /** The values of the environment's secret variables, the long ones first. Which names are
      secret is decided by a pattern. */
  method SecretValues(environment: seq<Variable>, secret: string -> bool) returns (values: seq<Value>)
    ensures forall v :: v in values <==>
      exists i :: 0 <= i < |environment| && environment[i].value == v && |v| >= MIN_SECRET && secret(environment[i].name)
    ensures LongestFirst(values)
  {
    values := [];
    for i := 0 to |environment|
      invariant forall v :: v in values <==>
        exists k :: 0 <= k < i && environment[k].value == v && |v| >= MIN_SECRET && secret(environment[k].name)
      invariant LongestFirst(values)
    {
      if |environment[i].value| < MIN_SECRET || !secret(environment[i].name) { continue; }
      values := InsertByLength(values, environment[i].value);
    }
  }

  method InsertByLength(values: seq<Value>, value: Value) returns (out: seq<Value>)
    requires LongestFirst(values)
    ensures LongestFirst(out) && forall v :: v in out <==> v in values || v == value
  {
    var k := |values|;
    while k > 0 && |values[k - 1]| < |value|
      invariant 0 <= k <= |values|
      invariant forall i :: k <= i < |values| ==> |values[i]| < |value|
    {
      k := k - 1;
    }
    out := values[..k] + [value] + values[k..];
    forall v ensures v in out <==> v in values || v == value { InsertedMembers(values, value, k, v); }
  }

  lemma InsertedMembers(values: seq<Value>, value: Value, k: nat, v: Value)
    requires k <= |values|
    ensures v in values[..k] + [value] + values[k..] <==> v in values || v == value
  {
    assert values == values[..k] + values[k..];
  }

  /** redactor.line. */
  method RedactLine(text: string, values: seq<Value>) returns (out: string)
    ensures out == RedactAll(text, values)
    ensures forall v :: v in values && Markless(v) ==> !Contains(out, v)
    ensures Guarded(values) ==> forall v :: v in values ==> !Contains(out, v)
  {
    out := text;
    for i := 0 to |values|
      invariant out == RedactAll(text, values[..i])
    {
      assert values[..i + 1][..i] == values[..i];
      out := Redact(out, values[i]);
    }
    assert values[..|values|] == values;
    forall v | v in values && Markless(v) ensures !Contains(out, v) { NoSecretSurvives(text, values, v); }
    if Guarded(values) { GuardedSecretsAreGone(text, values); }
  }
}

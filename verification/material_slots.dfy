/** The names of signing material on a Mac: slots, their parts, and their order. */
module MaterialSlots {
  import opened Wrappers
  import opened Text

  // ---- splitting and joining ----

  predicate Without(s: string, sep: char) { forall i :: 0 <= i < |s| ==> s[i] != sep }

  /** The parts between separators: one more than there are separators. */
  function Split(s: string, sep: char): seq<string> {
    if s == "" then [""]
    else if s[0] == sep then [""] + Split(s[1..], sep)
    else var rest := Split(s[1..], sep); if rest == [] then [s] else [[s[0]] + rest[0]] + rest[1..]
  }

  function Join(parts: seq<string>, sep: char): string {
    if parts == [] then "" else if |parts| == 1 then parts[0] else parts[0] + [sep] + Join(parts[1..], sep)
  }

  lemma {:induction false} SplitParts(s: string, sep: char)
    ensures |Split(s, sep)| >= 1 && forall p :: p in Split(s, sep) ==> Without(p, sep)
  {
    if s != "" {
      SplitParts(s[1..], sep);
      var rest := Split(s[1..], sep);
      assert Without(rest[0], sep) && Without("", sep);
      forall p | p in Split(s, sep) ensures Without(p, sep) {
        if s[0] != sep && p == [s[0]] + rest[0] {
          assert forall i :: 1 <= i < |p| ==> p[i] == rest[0][i - 1];
        }
      }
    }
  }

  lemma {:induction false} JoinOfSplit(s: string, sep: char)
    ensures Join(Split(s, sep), sep) == s
  {
    if s != "" {
      JoinOfSplit(s[1..], sep);
      SplitParts(s[1..], sep);
      var rest := Split(s[1..], sep);
      if s[0] == sep {
        assert ([""] + rest)[1..] == rest;
        assert s == [s[0]] + s[1..];
      } else if |rest| == 1 {
        assert s == [s[0]] + s[1..];
      } else {
        assert ([[s[0]] + rest[0]] + rest[1..])[1..] == rest[1..];
        assert s == [s[0]] + s[1..];
      }
    }
  }

  /** A text without separators in front adds to the first part. */
  lemma {:induction false} SplitAfterPlain(p: string, s: string, sep: char)
    requires Without(p, sep)
    ensures |Split(s, sep)| >= 1 && Split(p + s, sep) == [p + Split(s, sep)[0]] + Split(s, sep)[1..]
  {
    SplitParts(s, sep);
    if p == "" {
      assert p + s == s;
      assert p + Split(s, sep)[0] == Split(s, sep)[0];
    } else {
      SplitAfterPlain(p[1..], s, sep);
      assert (p + s)[1..] == p[1..] + s;
      assert [p[0]] + (p[1..] + Split(s, sep)[0]) == p + Split(s, sep)[0];
    }
  }

  lemma {:induction false} SplitOfJoin(parts: seq<string>, sep: char)
    requires parts != [] && forall p :: p in parts ==> Without(p, sep)
    ensures Split(Join(parts, sep), sep) == parts
  {
    var p := parts[0];
    if |parts| == 1 {
      SplitAfterPlain(p, "", sep);
      assert p + "" == p;
    } else {
      var rest := Join(parts[1..], sep);
      SplitOfJoin(parts[1..], sep);
      SplitAfterPlain(p, [sep] + rest, sep);
      assert p + ([sep] + rest) == p + [sep] + rest;
      assert Split([sep] + rest, sep) == [""] + parts[1..];
      assert p + "" == p;
    }
  }

  // ---- slots ----

  const CERTIFICATE := "certificate"
  const PROFILE := "profile"
  const UPLOAD_KEY := "upload-key"

  /** What a slot names; tenant is empty in the per-team layout. */
  datatype Name = Name(tenant: string, kind: string, team: string, scope: string)

  /** One item of the manifest. */
  datatype Entry = Entry(name: Name, version: int, legacy: bool)

  predicate ValidTenantID(s: string) {
    1 <= |s| <= 20 && s[0] != '0' && forall i :: 0 <= i < |s| ==> '0' <= s[i] <= '9'
  }

  function Parts(n: Name): seq<string> {
    if n.tenant != "" then [n.tenant, n.kind, n.team, n.scope] else [n.kind, n.team, n.scope]
  }

  function Slot(n: Name): string { Join(Parts(n), '/') }

  function ParseSlot(slot: string): Option<Name> {
    var parts := Split(slot, '/');
    if |parts| == 3 then Some(Name("", parts[0], parts[1], parts[2]))
    else if |parts| == 4 && ValidTenantID(parts[0]) then Some(Name(parts[0], parts[1], parts[2], parts[3]))
    else None
  }

  predicate Usable(n: Name) { n.tenant == "" || ValidTenantID(n.tenant) }

  /** A name is read back from its slot exactly when none of its parts has a slash in it. */
  lemma SlotRoundTrip(n: Name)
    requires Usable(n)
    ensures ParseSlot(Slot(n)) == Some(n) <==> Without(n.kind, '/') && Without(n.team, '/') && Without(n.scope, '/')
  {
    var parts := Split(Slot(n), '/');
    SplitParts(Slot(n), '/');
    if Without(n.kind, '/') && Without(n.team, '/') && Without(n.scope, '/') {
      SplitOfJoin(Parts(n), '/');
    }
    if ParseSlot(Slot(n)) == Some(n) {
      assert parts == Parts(n);
      assert n.kind in parts && n.team in parts && n.scope in parts;
    }
  }

  /** A slot that can be read is the slot of what was read. */
  lemma ParsedSlot(slot: string, n: Name)
    requires ParseSlot(slot) == Some(n)
    ensures Slot(n) == slot && Usable(n)
  {
    JoinOfSplit(slot, '/');
    var parts := Split(slot, '/');
    if |parts| == 3 {
      assert parts == [parts[0], parts[1], parts[2]];
    } else {
      assert parts == [parts[0], parts[1], parts[2], parts[3]];
    }
    assert Parts(n) == parts;
  }

  /** A tenant's slot that can be read at all is read back as what it names, and so is never taken
      for a per-team one. */
  lemma TenantSlotsParse(n: Name)
    requires ValidTenantID(n.tenant)
    ensures ParseSlot(Slot(n)).Some? ==> ParseSlot(Slot(n)) == Some(n)
  {
    SlotOfTenant(n);
    SplitCounts(n.team, n.scope);
    SplitCounts(n.kind, n.team + "/" + n.scope);
    SplitCounts(n.tenant, n.kind + "/" + (n.team + "/" + n.scope));
    var tail := n.kind + "/" + (n.team + "/" + n.scope);
    assert n.tenant + ("/" + tail) == n.tenant + "/" + tail;
    OnePartIsPlain(n.kind);
    OnePartIsPlain(n.team);
    OnePartIsPlain(n.scope);
    SplitParts(n.tenant, '/');
    SlotRoundTrip(n);
  }

  lemma SlotOfTenant(n: Name)
    requires n.tenant != ""
    ensures Slot(n) == n.tenant + ("/" + (n.kind + "/" + (n.team + "/" + n.scope)))
  {
    var one, two, three := [n.scope], [n.team, n.scope], [n.kind, n.team, n.scope];
    assert Join(one, '/') == n.scope;
    assert two[1..] == one;
    assert Join(two, '/') == n.team + "/" + n.scope;
    assert three[1..] == two;
    assert Join(three, '/') == n.kind + "/" + (n.team + "/" + n.scope);
    assert Parts(n)[1..] == three;
  }

  /** The parts of a text put together with a slash are those of both sides. */
  lemma {:induction false} SplitCounts(a: string, s: string)
    ensures |Split(a, '/')| >= 1 && |Split(s, '/')| >= 1
    ensures |Split(a + "/" + s, '/')| == |Split(a, '/')| + |Split(s, '/')|
  {
    SplitParts(a, '/');
    SplitParts(s, '/');
    if a == "" {
      assert ("" + "/" + s)[1..] == s;
    } else {
      SplitCounts(a[1..], s);
      assert (a + "/" + s)[1..] == a[1..] + "/" + s;
    }
  }

  lemma {:induction false} OnePartIsPlain(s: string)
    ensures |Split(s, '/')| == 1 ==> Without(s, '/')
  {
    if s != "" {
      OnePartIsPlain(s[1..]);
      SplitParts(s[1..], '/');
    }
  }

  // ---- the order of installation ----

  /** Certificates first, because profiles are checked against them; then profiles, then the rest. */
  function KindOrder(kind: string): nat { if kind == CERTIFICATE then 0 else if kind == PROFILE then 1 else 2 }

  predicate InOrder(a: Entry, b: Entry) {
    KindOrder(a.name.kind) < KindOrder(b.name.kind)
    || (KindOrder(a.name.kind) == KindOrder(b.name.kind) && AtMost(Slot(a.name), Slot(b.name)))
  }

  lemma InOrderIsTotal(a: Entry, b: Entry)
    ensures InOrder(a, b) || InOrder(b, a)
  {
    AtMostIsTotal(Slot(a.name), Slot(b.name));
  }

  lemma InOrderIsTransitive(a: Entry, b: Entry, c: Entry)
    requires InOrder(a, b) && InOrder(b, c)
    ensures InOrder(a, c)
  {
    if KindOrder(a.name.kind) == KindOrder(b.name.kind) == KindOrder(c.name.kind) {
      AtMostIsTransitive(Slot(a.name), Slot(b.name), Slot(c.name));
    }
  }

  predicate Sorted(s: seq<Entry>) { forall i, j :: 0 <= i < j < |s| ==> InOrder(s[i], s[j]) }

  /** The stable sort of the manifest. */
  method SortEntries(entries: seq<Entry>) returns (out: seq<Entry>)
    ensures Sorted(out) && multiset(out) == multiset(entries)
  {
    out := [];
    for i := 0 to |entries|
      invariant Sorted(out) && multiset(out) == multiset(entries[..i])
    {
      assert entries[..i + 1] == entries[..i] + [entries[i]];
      out := Insert(out, entries[i]);
    }
    assert entries[..|entries|] == entries;
  }

  method Insert(s: seq<Entry>, e: Entry) returns (out: seq<Entry>)
    requires Sorted(s)
    ensures Sorted(out) && multiset(out) == multiset(s) + multiset{e}
    ensures exists k :: 0 <= k <= |s| && out == s[..k] + [e] + s[k..]
  {
    var k := |s|;
    while k > 0 && !InOrder(s[k - 1], e)
      invariant 0 <= k <= |s|
      invariant forall i :: k <= i < |s| ==> InOrder(e, s[i])
    {
      InOrderIsTotal(s[k - 1], e);
      k := k - 1;
    }
    out := s[..k] + [e] + s[k..];
    InsertedIsSorted(s, e, k);
    InsertedElements(s, e, k);
  }

  lemma InsertedElements(s: seq<Entry>, e: Entry, k: nat)
    requires k <= |s|
    ensures multiset(s[..k] + [e] + s[k..]) == multiset(s) + multiset{e}
  {
    assert s == s[..k] + s[k..];
  }

  lemma InsertedIsSorted(s: seq<Entry>, e: Entry, k: nat)
    requires Sorted(s) && k <= |s| && (k > 0 ==> InOrder(s[k - 1], e)) && forall i :: k <= i < |s| ==> InOrder(e, s[i])
    ensures Sorted(s[..k] + [e] + s[k..])
  {
    forall i | 0 <= i < k ensures InOrder(s[i], e) {
      if i < k - 1 { InOrderIsTransitive(s[i], s[k - 1], e); }
    }
  }

  predicate SortedSlots(s: seq<string>) { forall i, j :: 0 <= i < j < |s| ==> AtMost(s[i], s[j]) }

  method InsertSlot(s: seq<string>, x: string) returns (out: seq<string>)
    requires SortedSlots(s)
    ensures SortedSlots(out) && forall y :: y in out <==> y in s || y == x
  {
    var k := |s|;
    while k > 0 && !AtMost(s[k - 1], x)
      invariant 0 <= k <= |s|
      invariant forall i :: k <= i < |s| ==> AtMost(x, s[i])
    {
      AtMostIsTotal(s[k - 1], x);
      k := k - 1;
    }
    out := s[..k] + [x] + s[k..];
    forall i | 0 <= i < k ensures AtMost(s[i], x) {
      if i < k - 1 { AtMostIsTransitive(s[i], s[k - 1], x); }
    }
    assert s == s[..k] + s[k..];
  }
}

/** The numbers that the next build must exceed, from the fifty newest rows of two tables. */
module BuildFloor {
  import opened Wrappers
  import opened BuildJobs

  /** The numbers of a release or of a living job; a version that is not semver counts as none. */
  datatype Numbers = Numbers(version: Option<Version>, build: nat)

  /** The highest version and build number taken so far; no version and 0 when there is none. */
  datatype Floor = Floor(version: Option<Version>, build: nat)

  const LIMIT := 50

  predicate AtMostVersion(a: Option<Version>, b: Option<Version>) {
    a.None? || (b.Some? && (a == b || a.value.Below(b.value)))
  }

  /** The floor is at least every row, and nothing more. */
  ghost predicate IsFloorOf(f: Floor, rows: seq<Numbers>) {
    && (forall i :: 0 <= i < |rows| ==> rows[i].build <= f.build && AtMostVersion(rows[i].version, f.version))
    && (f.build == 0 || exists i :: 0 <= i < |rows| && rows[i].build == f.build)
    && (f.version.None? || exists i :: 0 <= i < |rows| && rows[i].version == f.version)
  }

  lemma BelowIsTransitive(a: Version, b: Version, c: Version)
    requires a.Below(b) && b.Below(c)
    ensures a.Below(c)
  {
  }

  lemma BelowIsTotal(a: Version, b: Version)
    ensures a.Below(b) || b.Below(a) || a == b
    ensures !(a.Below(b) && b.Below(a)) && !a.Below(a)
  {
  }

  /** There is only one floor. */
  lemma FloorIsUnique(f: Floor, g: Floor, rows: seq<Numbers>)
    requires IsFloorOf(f, rows) && IsFloorOf(g, rows)
    ensures f == g
  {
    if f.version.Some? && g.version.Some? { BelowIsTotal(f.version.value, g.version.value); }
  }

  /** The loop over the rows that the query returned. */
  method BuildFloorFor(rows: seq<Numbers>) returns (f: Floor)
    ensures IsFloorOf(f, rows)
  {
    f := Floor(None, 0);
    for i := 0 to |rows|
      invariant IsFloorOf(f, rows[..i])
    {
      var row := rows[i];
      ghost var before := f;
      if row.build > f.build {
        f := f.(build := row.build);
      }
      if row.version.Some? && (f.version.None? || f.version.value.Below(row.version.value)) {
        f := f.(version := row.version);
      }
      OneMoreRow(before, f, rows[..i], row);
      assert rows[..i + 1] == rows[..i] + [row];
    }
    assert rows[..|rows|] == rows;
  }

  lemma OneMoreRow(before: Floor, after: Floor, rows: seq<Numbers>, row: Numbers)
    requires IsFloorOf(before, rows)
    requires after.build == if row.build > before.build then row.build else before.build
    requires after.version == if row.version.Some? && (before.version.None? || before.version.value.Below(row.version.value))
                              then row.version else before.version
    ensures IsFloorOf(after, rows + [row])
  {
    var more := rows + [row];
    assert more[|rows|] == row;
    forall i | 0 <= i < |more| ensures more[i].build <= after.build && AtMostVersion(more[i].version, after.version) {
      if i < |rows| {
        assert more[i] == rows[i];
        if rows[i].version.Some? && after.version != before.version && rows[i].version != before.version {
          BelowIsTransitive(rows[i].version.value, before.version.value, row.version.value);
        }
      } else if row.version.Some? && before.version.Some? {
        BelowIsTotal(row.version.value, before.version.value);
      }
    }
    if after.build != row.build && after.build != 0 {
      var i :| 0 <= i < |rows| && rows[i].build == before.build;
      assert more[i].build == after.build;
    }
    if after.version != row.version && after.version.Some? {
      var i :| 0 <= i < |rows| && rows[i].version == before.version;
      assert more[i].version == after.version;
    }
  }

  // ---- what the limit leaves out ----

  function Newest(table: seq<Numbers>): seq<Numbers> { if |table| > LIMIT then table[..LIMIT] else table }

  /** ORDER BY build_number DESC. */
  predicate Descending(table: seq<Numbers>) { forall i, j :: 0 <= i < j < |table| ==> table[j].build <= table[i].build }

  /** Some row has at least this version. */
  predicate Reached(row: Numbers, rows: seq<Numbers>) {
    exists k :: 0 <= k < |rows| && AtMostVersion(row.version, rows[k].version)
  }

  /** Every row beyond the limit has its version reached by a row within. */
  ghost predicate AllReached(all: seq<Numbers>, few: seq<Numbers>) { forall i :: 0 <= i < |all| ==> Reached(all[i], few) }

  lemma AtMostVersionIsTransitive(a: Option<Version>, b: Option<Version>, c: Option<Version>)
    requires AtMostVersion(a, b) && AtMostVersion(b, c)
    ensures AtMostVersion(a, c)
  {
    if a.Some? && a != b && b != c { BelowIsTransitive(a.value, b.value, c.value); }
  }

  /** A row of the two tables is one of the newest, or has no greater build number than one of them. */
  lemma NewestHasTheBuilds(releases: seq<Numbers>, jobs: seq<Numbers>, i: nat)
    requires Descending(releases) && Descending(jobs) && i < |releases + jobs|
    ensures var few, row := Newest(releases) + Newest(jobs), (releases + jobs)[i];
      exists k :: 0 <= k < |few| && row.build <= few[k].build
  {
    var few := Newest(releases) + Newest(jobs);
    var table := if i < |releases| then releases else jobs;
    var at := if i < |releases| then i else i - |releases|;
    var k := if at < LIMIT then at else LIMIT - 1;
    assert table[at] == (releases + jobs)[i] && table[at].build <= table[k].build;
    assert few[if i < |releases| then k else |Newest(releases)| + k] == table[k];
  }

  lemma NewestAreRows(releases: seq<Numbers>, jobs: seq<Numbers>, k: nat)
    requires k < |Newest(releases) + Newest(jobs)|
    ensures (Newest(releases) + Newest(jobs))[k] in releases + jobs
  {
    var n, all := |Newest(releases)|, releases + jobs;
    assert all[if k < n then k else |releases| + k - n] == (Newest(releases) + Newest(jobs))[k];
  }

  /** The floor of the fifty newest rows of each table is the floor of all rows exactly when every
      row beyond has its version reached by one of the newest. */
  lemma LimitIsExactWhenReached(releases: seq<Numbers>, jobs: seq<Numbers>, f: Floor)
    requires Descending(releases) && Descending(jobs) && IsFloorOf(f, Newest(releases) + Newest(jobs))
    ensures IsFloorOf(f, releases + jobs) <==> AllReached(releases + jobs, Newest(releases) + Newest(jobs))
  {
    var few, all := Newest(releases) + Newest(jobs), releases + jobs;
    forall k | 0 <= k < |few| ensures few[k] in all { NewestAreRows(releases, jobs, k); }
    forall i | 0 <= i < |all| ensures all[i].build <= f.build && |few| > 0 { NewestHasTheBuilds(releases, jobs, i); }
    if AllReached(all, few) { FloorOfReachedRows(few, all, f); }
    if IsFloorOf(f, all) { FloorReaches(few, all, f); }
  }

  lemma FloorOfReachedRows(few: seq<Numbers>, all: seq<Numbers>, f: Floor)
    requires IsFloorOf(f, few) && AllReached(all, few)
    requires forall k :: 0 <= k < |few| ==> few[k] in all
    requires forall i :: 0 <= i < |all| ==> all[i].build <= f.build
    ensures IsFloorOf(f, all)
  {
    forall i | 0 <= i < |all| ensures AtMostVersion(all[i].version, f.version) {
      assert Reached(all[i], few);
      var k :| 0 <= k < |few| && AtMostVersion(all[i].version, few[k].version);
      AtMostVersionIsTransitive(all[i].version, few[k].version, f.version);
    }
    if f.build != 0 {
      var k :| 0 <= k < |few| && few[k].build == f.build;
      assert few[k] in all;
    }
    if f.version.Some? {
      var k :| 0 <= k < |few| && few[k].version == f.version;
      assert few[k] in all;
    }
  }

  lemma FloorReaches(few: seq<Numbers>, all: seq<Numbers>, f: Floor)
    requires IsFloorOf(f, few) && IsFloorOf(f, all) && (|all| > 0 ==> |few| > 0)
    ensures AllReached(all, few)
  {
    forall i | 0 <= i < |all| ensures Reached(all[i], few) {
      assert AtMostVersion(all[i].version, f.version);
      if f.version.Some? {
        var k :| 0 <= k < |few| && few[k].version == f.version;
        assert AtMostVersion(all[i].version, few[k].version);
      } else {
        assert AtMostVersion(all[i].version, few[0].version);
      }
    }
  }

  /** Where a build number is lower the version is, too. */
  predicate Chain(table: seq<Numbers>) {
    forall i, j :: 0 <= i < j < |table| ==> AtMostVersion(table[j].version, table[i].version)
  }

  lemma ChainsAreReached(releases: seq<Numbers>, jobs: seq<Numbers>)
    requires Chain(releases) && Chain(jobs)
    ensures AllReached(releases + jobs, Newest(releases) + Newest(jobs))
  {
    var few, all := Newest(releases) + Newest(jobs), releases + jobs;
    forall i | 0 <= i < |all| ensures Reached(all[i], few) {
      var table := if i < |releases| then releases else jobs;
      var at := if i < |releases| then i else i - |releases|;
      var k := if at < LIMIT then at else LIMIT - 1;
      assert table[at] == all[i] && AtMostVersion(table[at].version, table[k].version);
      assert few[if i < |releases| then k else |Newest(releases)| + k] == table[k];
    }
  }

  lemma {:induction false} SomeFloor(rows: seq<Numbers>) returns (f: Floor)
    ensures IsFloorOf(f, rows)
  {
    if rows == [] {
      f := Floor(None, 0);
    } else {
      var n := |rows| - 1;
      var before := SomeFloor(rows[..n]);
      f := before;
      if rows[n].build > f.build { f := f.(build := rows[n].build); }
      if rows[n].version.Some? && (f.version.None? || f.version.value.Below(rows[n].version.value)) {
        f := f.(version := rows[n].version);
      }
      OneMoreRow(before, f, rows[..n], rows[n]);
      assert rows == rows[..n] + [rows[n]];
    }
  }

  /** So on two tables whose versions rise with their build numbers, the floor of the fifty newest
      rows of each is the floor of all rows. */
  lemma FiftyAreEnough(releases: seq<Numbers>, jobs: seq<Numbers>, f: Floor)
    requires Descending(releases) && Chain(releases) && Descending(jobs) && Chain(jobs)
    ensures IsFloorOf(f, Newest(releases) + Newest(jobs)) <==> IsFloorOf(f, releases + jobs)
  {
    var g := SomeFloor(Newest(releases) + Newest(jobs));
    ChainsAreReached(releases, jobs);
    LimitIsExactWhenReached(releases, jobs, g);
    if IsFloorOf(f, Newest(releases) + Newest(jobs)) { FloorIsUnique(f, g, Newest(releases) + Newest(jobs)); }
    if IsFloorOf(f, releases + jobs) { FloorIsUnique(f, g, releases + jobs); }
  }

  // ---- the next numbers ----

  function NextPatchVersion(v: Option<Version>): Version {
    if v.Some? then Version(v.value.major, v.value.minor, v.value.patch + 1) else Version(1, 0, 0)
  }

  function NextNumbers(f: Floor): (Version, nat) {
    if f.version.None? && f.build == 0 then (Version(1, 0, 0), 1) else (NextPatchVersion(f.version), f.build + 1)
  }

  /** createBuildJob takes numbers that exceed the floor. */
  predicate Accepted(f: Floor, version: Version, build: nat) {
    build > f.build && (f.version.None? || f.version.value.Below(version))
  }

  /** What the server suggests next is always accepted, and accepted numbers exceed every row. */
  lemma NextIsAccepted(f: Floor, rows: seq<Numbers>, version: Version, build: nat)
    requires IsFloorOf(f, rows)
    ensures Accepted(f, NextNumbers(f).0, NextNumbers(f).1)
    ensures Accepted(f, version, build) <==>
      (build > 0 && forall i :: 0 <= i < |rows| ==>
         rows[i].build < build && (rows[i].version.Some? ==> rows[i].version.value.Below(version)))
  {
    if Accepted(f, version, build) {
      forall i | 0 <= i < |rows| && rows[i].version.Some? ensures rows[i].version.value.Below(version) {
        assert AtMostVersion(rows[i].version, f.version);
      }
    }
  }
}

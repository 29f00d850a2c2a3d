/** The numbers of a series, that is of one tenant's releases and jobs on one platform: releases
    ascend, living iOS jobs form a chain, and so the fifty rows that queueing looks at are enough. */
module Series {
  import opened Wrappers
  import opened JobStates
  import opened BuildJobs
  import opened JobProgress
  import BuildFloor
  import opened World
  import opened Deliveries
  import opened ClaimOrder

  // ---- releases ascend ----

  predicate Exceeds(b: Release, a: Release) { a.build < b.build && a.version.Below(b.version) }

  predicate Follows(a: Release, b: Release) { OfSeries(a, b.tenant, b.platform) }

  /** Of two releases of a series the later one has the greater version and build number. */
  predicate Ascending(w: World) {
    forall a, b :: a in w.releases && b in w.releases && a < b && Follows(w.releases[a], w.releases[b]) ==>
      Exceeds(w.releases[b], w.releases[a])
  }

  /** Among finitely many releases one has the greatest build number. */
  lemma {:induction false} SomeLatest(w: World, ids: set<ReleaseId>) returns (top: ReleaseId)
    requires ids != {} && forall r :: r in ids ==> r in w.releases
    ensures top in ids && forall r :: r in ids ==> w.releases[r].build <= w.releases[top].build
  {
    var r :| r in ids;
    if ids == {r} {
      top := r;
    } else {
      top := SomeLatest(w, ids - {r});
      if w.releases[r].build > w.releases[top].build { top := r; }
    }
  }

  /** What the insertion check compares with one release holds of every release of the series. */
  lemma {:induction false} IncreasingIsAboveAll(w: World, tenant: Tenant, platform: Platform, version: Version,
                                                build: nat, r: ReleaseId)
    requires Ascending(w) && Increasing(w, tenant, platform, version, build)
    requires r in w.releases && OfSeries(w.releases[r], tenant, platform)
    ensures w.releases[r].build < build && w.releases[r].version.Below(version)
  {
    var ids := set k | k in w.releases && OfSeries(w.releases[k], tenant, platform);
    assert r in ids;
    var top := SomeLatest(w, ids);
    forall o | o in w.releases && OfSeries(w.releases[o], w.releases[top].tenant, w.releases[top].platform)
      ensures w.releases[o].build <= w.releases[top].build
    {
      assert o in ids;
    }
    assert Latest(w, top);
    LatestIsTheLast(w, top, r);
  }

  lemma LatestIsTheLast(w: World, top: ReleaseId, r: ReleaseId)
    requires Ascending(w) && Latest(w, top) && r in w.releases && Follows(w.releases[r], w.releases[top])
    ensures r == top || Exceeds(w.releases[top], w.releases[r])
  {
    assert r < top ==> Exceeds(w.releases[top], w.releases[r]);
    assert top < r ==> Exceeds(w.releases[r], w.releases[top]);
  }

  lemma AscendingKept(w: World, s: Step)
    requires ObjectsInv(w) && Ascending(w) && Enabled(w, s)
    ensures Ascending(Next(w, s))
  {
    var w' := Next(w, s);
    forall a, b | a in w'.releases && b in w'.releases && a < b && Follows(w'.releases[a], w'.releases[b])
      ensures Exceeds(w'.releases[b], w'.releases[a])
    {
      ReleasesComeFrom(w, s, a);
      ReleasesComeFrom(w, s, b);
      if b == w.nextRelease {
        var r := w'.releases[b];
        IncreasingIsAboveAll(w, r.tenant, r.platform, r.version, r.build, a);
      }
    }
  }

  /** A release is an old one, or the one that this step inserts, which was checked. */
  lemma ReleasesComeFrom(w: World, s: Step, r: ReleaseId)
    requires Served(w) && Enabled(w, s) && r in Next(w, s).releases
    ensures if r == w.nextRelease then
        var made := Next(w, s).releases[r];
        Inserts(s) && Increasing(w, made.tenant, made.platform, made.version, made.build)
      else r in w.releases && r < w.nextRelease && Next(w, s).releases[r] == w.releases[r]
  {
  }

  // ---- fifty rows are enough of a chain, and exactly of what a chain guarantees ----

  predicate Under(a: Taken, b: Taken) { a.build < b.build && a.version.Below(b.version) }

  predicate Comparable(a: Taken, b: Taken) { a == b || Under(a, b) || Under(b, a) }

  /** Of any two rows one exceeds the other in both numbers, or they have the same numbers. */
  predicate Chained(table: map<nat, Taken>) { forall a, b :: a in table && b in table ==> Comparable(table[a], table[b]) }

  predicate Reaches(a: Taken, b: Taken) { a.version == b.version || b.version.Below(a.version) }

  /** Every row that was not read has its version reached by a row that was. */
  predicate VersionsReached(table: map<nat, Taken>, rows: set<nat>) {
    forall b :: b in table && b !in rows ==> exists a :: a in rows && a in table && Reaches(table[a], table[b])
  }

  /** The rows that were not read have smaller build numbers, so they matter only by their versions. */
  lemma ReadRowsAreEnough(spec: Spec, table: map<nat, Taken>, rows: set<nat>)
    requires Newest(table, rows) && VersionsReached(table, rows) && AboveRows(spec, table, rows)
    ensures AboveRows(spec, table, table.Keys)
  {
    forall b | b in table && b !in rows ensures Above(spec, table[b].version, table[b].build) {
      var a :| a in rows && a in table && Reaches(table[a], table[b]);
      assert Above(spec, table[a].version, table[a].build) && table[b].build <= table[a].build;
    }
  }

  lemma ChainsReach(table: map<nat, Taken>, rows: set<nat>)
    requires Newest(table, rows) && Chained(table)
    ensures VersionsReached(table, rows)
  {
    forall b | b in table && b !in rows ensures exists a :: a in rows && a in table && Reaches(table[a], table[b]) {
      NewestLeavesNoneEmpty(table, rows, b);
      var a :| a in rows;
      assert Comparable(table[a], table[b]) && table[b].build <= table[a].build;
    }
  }

  lemma NewestLeavesNoneEmpty(table: map<nat, Taken>, rows: set<nat>, b: nat)
    requires Newest(table, rows) && b in table && b !in rows
    ensures rows != {}
  {
    var keys := table.Keys;
    assert b in keys && |keys| > 0;
  }

  lemma {:induction false} BuildsAreBounded(table: map<nat, Taken>) returns (top: nat)
    ensures forall k :: k in table ==> table[k].build <= top
  {
    if table == map[] {
      top := 0;
    } else {
      var k :| k in table;
      var rest := table - {k};
      top := BuildsAreBounded(rest);
      assert forall o :: o in table ==> o == k || (o in rest && rest[o] == table[o]);
      if table[k].build > top { top := table[k].build; }
    }
  }

  /** Looking at the newest rows is as good as looking at all of them exactly when every row beyond
      has its version reached by one of them: otherwise some numbers exceed what was read and not
      what is there. */
  lemma LimitIsExactWhenReached(like: Spec, table: map<nat, Taken>, rows: set<nat>)
    requires Newest(table, rows)
    ensures VersionsReached(table, rows) <==>
      forall version, build :: AboveRows(like.(version := version, build := build), table, rows) ==>
        AboveRows(like.(version := version, build := build), table, table.Keys)
  {
    if VersionsReached(table, rows) {
      forall version, build | AboveRows(like.(version := version, build := build), table, rows)
        ensures AboveRows(like.(version := version, build := build), table, table.Keys)
      {
        ReadRowsAreEnough(like.(version := version, build := build), table, rows);
      }
    } else {
      var b :| b in table && b !in rows && forall a :: a in rows && a in table ==> !Reaches(table[a], table[b]);
      var top := BuildsAreBounded(table);
      var spec := like.(version := table[b].version, build := top + 1);
      forall a | a in rows && a in table ensures Above(spec, table[a].version, table[a].build) {
        BuildFloor.BelowIsTotal(table[a].version, table[b].version);
      }
      assert AboveRows(spec, table, rows) && !AboveRows(spec, table, table.Keys) by {
        BuildFloor.BelowIsTotal(table[b].version, table[b].version);
        assert b in table.Keys && !Above(spec, table[b].version, table[b].build);
      }
    }
  }

  // ---- the loop's floor and the rows that were read ----

  /** The rows of a table as the query lists them. */
  predicate Lists(ids: seq<nat>, table: map<nat, Taken>) {
    && (forall i :: 0 <= i < |ids| ==> ids[i] in table) && (forall k :: k in table ==> k in ids)
    && (forall i, j :: 0 <= i < j < |ids| ==> ids[i] != ids[j])
    && forall i, j :: 0 <= i < j < |ids| && ids[i] in table && ids[j] in table ==> table[ids[j]].build <= table[ids[i]].build
  }

  function FirstIds(ids: seq<nat>): seq<nat> { if |ids| > BuildFloor.LIMIT then ids[..BuildFloor.LIMIT] else ids }

  function RowsOf(ids: seq<nat>, table: map<nat, Taken>): seq<BuildFloor.Numbers>
    requires forall i :: 0 <= i < |ids| ==> ids[i] in table
  {
    seq(|ids|, i requires 0 <= i < |ids| => BuildFloor.Numbers(Some(table[ids[i]].version), table[ids[i]].build))
  }

  function IdSet(ids: seq<nat>): set<nat> { set k | k in ids }

  lemma {:induction false} DistinctIdsCount(ids: seq<nat>)
    requires forall i, j :: 0 <= i < j < |ids| ==> ids[i] != ids[j]
    ensures |IdSet(ids)| == |ids|
  {
    if ids != [] {
      var n := |ids| - 1;
      DistinctIdsCount(ids[..n]);
      assert ids == ids[..n] + [ids[n]];
      assert IdSet(ids) == IdSet(ids[..n]) + {ids[n]} && ids[n] !in IdSet(ids[..n]);
    } else {
      assert IdSet(ids) == {};
    }
  }

  /** The first fifty of a listing are newest rows. */
  lemma FirstAreNewest(ids: seq<nat>, table: map<nat, Taken>)
    requires Lists(ids, table)
    ensures Newest(table, IdSet(FirstIds(ids)))
  {
    DistinctIdsCount(ids);
    DistinctIdsCount(FirstIds(ids));
    assert table.Keys == IdSet(ids);
    forall a, b | a in IdSet(FirstIds(ids)) && b in table && b !in IdSet(FirstIds(ids)) ensures table[b].build <= table[a].build {
      FirstComeFirst(ids, table, a, b);
    }
  }

  lemma FirstComeFirst(ids: seq<nat>, table: map<nat, Taken>, a: nat, b: nat)
    requires Lists(ids, table) && a in FirstIds(ids) && b in table && b !in FirstIds(ids)
    ensures a in table && table[b].build <= table[a].build
  {
    var first := FirstIds(ids);
    var i :| 0 <= i < |first| && first[i] == a;
    var j :| 0 <= j < |ids| && ids[j] == b;
    assert ids[i] == a && forall n :: 0 <= n < |first| ==> first[n] == ids[n] && first[n] in first;
  }

  /** createBuildJob's comparison with the floor that the loop computes is exceeding the rows read, and
      those are newest rows: it is the guard of queueing. */
  lemma FloorIsTheGuard(spec: Spec, jobIds: seq<JobId>, jobs: map<JobId, Taken>, releaseIds: seq<ReleaseId>,
                        releases: map<ReleaseId, Taken>, f: BuildFloor.Floor)
    requires Lists(jobIds, jobs) && Lists(releaseIds, releases)
    requires BuildFloor.IsFloorOf(f, RowsOf(FirstIds(releaseIds), releases) + RowsOf(FirstIds(jobIds), jobs))
    ensures BuildFloor.Accepted(f, spec.version, spec.build) <==>
      spec.build >= 1 && AboveRows(spec, jobs, IdSet(FirstIds(jobIds)))
      && AboveRows(spec, releases, IdSet(FirstIds(releaseIds)))
    ensures Newest(jobs, IdSet(FirstIds(jobIds))) && Newest(releases, IdSet(FirstIds(releaseIds)))
  {
    FirstAreNewest(jobIds, jobs);
    FirstAreNewest(releaseIds, releases);
    var r, j := RowsOf(FirstIds(releaseIds), releases), RowsOf(FirstIds(jobIds), jobs);
    BuildFloor.NextIsAccepted(f, r + j, spec.version, spec.build);
    assert BuildFloor.Accepted(f, spec.version, spec.build) <==> spec.build > 0 && AllBelow(r + j, spec);
    BothBelow(r, j, spec);
    RowsAbove(spec, FirstIds(jobIds), jobs);
    RowsAbove(spec, FirstIds(releaseIds), releases);
  }

  predicate AllBelow(rows: seq<BuildFloor.Numbers>, spec: Spec) {
    forall i :: 0 <= i < |rows| ==>
      rows[i].build < spec.build && (rows[i].version.Some? ==> rows[i].version.value.Below(spec.version))
  }

  lemma BothBelow(r: seq<BuildFloor.Numbers>, j: seq<BuildFloor.Numbers>, spec: Spec)
    ensures AllBelow(r + j, spec) <==> AllBelow(r, spec) && AllBelow(j, spec)
  {
    assert forall i :: 0 <= i < |r| ==> (r + j)[i] == r[i];
    assert forall i :: 0 <= i < |j| ==> (r + j)[|r| + i] == j[i];
  }

  lemma RowsAbove(spec: Spec, ids: seq<nat>, table: map<nat, Taken>)
    requires forall i :: 0 <= i < |ids| ==> ids[i] in table
    ensures AboveRows(spec, table, IdSet(ids)) <==> AllBelow(RowsOf(ids, table), spec)
  {
    var rows := RowsOf(ids, table);
    if AllBelow(rows, spec) {
      forall k | k in IdSet(ids) ensures Above(spec, table[k].version, table[k].build) {
        var i :| 0 <= i < |ids| && ids[i] == k;
        assert rows[i] == BuildFloor.Numbers(Some(table[k].version), table[k].build);
      }
    }
    if AboveRows(spec, table, IdSet(ids)) {
      forall i | 0 <= i < |rows| ensures Above(spec, table[ids[i]].version, table[ids[i]].build) {
        assert ids[i] in IdSet(ids);
      }
    }
  }

  // ---- iOS jobs stay a chain ----

  predicate BothLive(a: Job, b: Job) { SameSeries(a.spec, b.spec) && a.spec.platform == IOS && Alive(a) && Alive(b) }

  function NumbersOfJob(j: Job): Taken { Taken(j.spec.version, j.spec.build) }

  /** Of two living iOS jobs of a tenant one has the greater version and build number. */
  predicate IOSChain(w: World) {
    forall a, b :: a in w.jobs && b in w.jobs && BothLive(w.jobs[a], w.jobs[b]) ==>
      Comparable(NumbersOfJob(w.jobs[a]), NumbersOfJob(w.jobs[b]))
  }

  lemma JobTableIsChained(w: World, spec: Spec)
    requires IOSChain(w) && spec.platform == IOS
    ensures Chained(JobTable(w, spec))
  {
    var table := JobTable(w, spec);
    forall a, b | a in table && b in table ensures Comparable(table[a], table[b]) {
      assert BothLive(w.jobs[a], w.jobs[b]);
    }
  }

  lemma ReleaseTableIsChained(w: World, spec: Spec)
    requires Ascending(w)
    ensures Chained(ReleaseTable(w, spec))
  {
    var table := ReleaseTable(w, spec);
    forall a, b | a in table && b in table ensures Comparable(table[a], table[b]) {
      assert Follows(w.releases[a], w.releases[b]) && Follows(w.releases[b], w.releases[a]);
      if a < b { assert Exceeds(w.releases[b], w.releases[a]); }
      if b < a { assert Exceeds(w.releases[a], w.releases[b]); }
    }
  }

  /** On iOS, exceeding the rows that were read is exceeding every release and every living job. */
  lemma IOSFloorIsExact(w: World, spec: Spec, jobRows: set<JobId>, releaseRows: set<ReleaseId>)
    requires IOSChain(w) && Ascending(w) && spec.platform == IOS
    requires Newest(JobTable(w, spec), jobRows) && Newest(ReleaseTable(w, spec), releaseRows)
    ensures AboveRows(spec, JobTable(w, spec), jobRows) && AboveRows(spec, ReleaseTable(w, spec), releaseRows)
      <==> AboveFloor(w, spec)
  {
    JobTableIsChained(w, spec);
    ReleaseTableIsChained(w, spec);
    ChainsReach(JobTable(w, spec), jobRows);
    ChainsReach(ReleaseTable(w, spec), releaseRows);
    if AboveRows(spec, JobTable(w, spec), jobRows) { ReadRowsAreEnough(spec, JobTable(w, spec), jobRows); }
    if AboveRows(spec, ReleaseTable(w, spec), releaseRows) { ReadRowsAreEnough(spec, ReleaseTable(w, spec), releaseRows); }
  }

  /** Failed and canceled jobs do not come back to life. */
  lemma AliveBefore(w: World, s: Step, id: JobId)
    requires RowsInv(w) && Enabled(w, s) && id in w.jobs && Alive(Next(w, s).jobs[id])
    ensures Alive(w.jobs[id]) && Next(w, s).jobs[id].spec == w.jobs[id].spec
  {
    RowGoesOn(w, s, id);
  }

  ghost predicate SeriesInv(w: World) { ObjectsInv(w) && Ascending(w) && IOSChain(w) }

  lemma IOSChainKept(w: World, s: Step)
    requires SeriesInv(w) && Enabled(w, s)
    ensures IOSChain(Next(w, s))
  {
    var w' := Next(w, s);
    forall a, b | a in w'.jobs && b in w'.jobs && BothLive(w'.jobs[a], w'.jobs[b])
      ensures Comparable(NumbersOfJob(w'.jobs[a]), NumbersOfJob(w'.jobs[b]))
    {
      if a in w.jobs { AliveBefore(w, s, a); }
      if b in w.jobs { AliveBefore(w, s, b); }
      if a in w.jobs && b in w.jobs {
        assert BothLive(w.jobs[a], w.jobs[b]);
      } else {
        NewcomerIsComparable(w, s, if a in w.jobs then a else b);
      }
    }
  }

  lemma NewcomerIsComparable(w: World, s: Step, a: JobId)
    requires SeriesInv(w) && Enabled(w, s) && s.Queue?
    ensures a in w.jobs && BothLive(w.jobs[a], NewRow(s.spec)) ==>
      Under(NumbersOfJob(w.jobs[a]), Taken(s.spec.version, s.spec.build))
  {
    if a in w.jobs && BothLive(w.jobs[a], NewRow(s.spec)) {
      IOSFloorIsExact(w, s.spec, s.jobRows, s.releaseRows);
      assert a in JobTable(w, s.spec).Keys;
    }
  }

  lemma SeriesInvKept(w: World, s: Step)
    requires SeriesInv(w) && Enabled(w, s)
    ensures SeriesInv(Next(w, s))
  {
    ObjectsInvKept(w, s);
    AscendingKept(w, s);
    IOSChainKept(w, s);
  }

  lemma {:induction false} SeriesAlways(ss: seq<Step>)
    requires Runs(Initial(), ss)
    ensures SeriesInv(Exec(Initial(), ss))
  {
    if ss != [] {
      SeriesAlways(ss[..|ss| - 1]);
      SeriesInvKept(Exec(Initial(), ss[..|ss| - 1]), ss[|ss| - 1]);
    }
  }

  // ---- main result ----

  /** In every run, an iOS package is queued exactly with numbers that exceed those of every release
      and every living job of its tenant, although queueing reads fifty rows of each at most. */
  lemma {:induction false} IOSNumbersExceedEverything(ss: seq<Step>, s: Step)
    requires Runs(Initial(), ss) && s.Queue? && s.spec.platform == IOS && s.spec.build >= 1
    requires s.id !in Exec(Initial(), ss).jobs
    requires Newest(JobTable(Exec(Initial(), ss), s.spec), s.jobRows)
    requires Newest(ReleaseTable(Exec(Initial(), ss), s.spec), s.releaseRows)
    ensures Enabled(Exec(Initial(), ss), s) <==> s.spec.kind == Apk && AboveFloor(Exec(Initial(), ss), s.spec)
  {
    var w := Exec(Initial(), ss);
    SeriesAlways(ss);
    IOSFloorIsExact(w, s.spec, s.jobRows, s.releaseRows);
    if AboveFloor(w, s.spec) {
      forall id | id in JobTable(w, s.spec) ensures w.jobs[id].spec.build != s.spec.build {
        assert id in JobTable(w, s.spec).Keys;
      }
    }
  }
}

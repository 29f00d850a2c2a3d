/** A run in which the fifty rows that queueing reads hide a higher version: hot updates copy the
    numbers of a release that was uploaded by hand, and fill the limit. */
module FloorScenario {
  import opened Wrappers
  import opened JobStates
  import opened BuildJobs
  import BuildFloor
  import opened World
  import opened ScenarioSteps

  /** An Android package that waits in the queue, a release made by hand, a hot update of it, and the
      package that is queued in the end. */
  const WAITING := Spec(1, Android, Apk, None, Version(9, 0, 0), 5, 1)
  const BASE := Release(1, Android, Version(1, 0, 1), 100, None)
  const UPDATE := Spec(1, Android, Ota, None, Version(1, 0, 1), 100, 2)
  const NEXT := Spec(1, Android, Apk, None, Version(1, 0, 2), 101, 3)

  const BASES: map<ReleaseId, Release> := map[0 := BASE]

  /** The waiting package and so many finished hot updates. */
  ghost predicate Filled(rows: map<JobId, Job>, n: nat) {
    && (forall k: JobId :: k in rows <==> k <= n)
    && forall k: JobId :: k in rows ==> IsRow(rows[k], k)
  }

  predicate IsRow(j: Job, k: JobId) {
    if k == 0 then j.status == Queued && j.spec == WAITING else j.status == Succeeded && j.spec == UPDATE
  }

  function Finish(id: JobId): Step { Apply(id, FromBuilder(7, 1, 50, CompleteOTA(1)), Acked) }

  lemma BaseIsMade() returns (ss: seq<Step>)
    ensures Runs(Initial(), ss) && Looks(Exec(Initial(), ss), map[0 := NewRow(WAITING)], map[], BASES)
  {
    var make := ManualRelease(BASE);
    ss := Queues([], 0, WAITING);
    var w := Exec(Initial(), ss);
    assert w.nextRelease == 0;
    assert JobsAfter(w, make) == w.jobs;
    Extend(ss, make);
    ss := ss + [make];
  }

  lemma UpdateMayBeQueued(w: World, rows: map<JobId, Job>, n: nat)
    requires Looks(w, rows, map[], BASES) && Filled(rows, n)
    ensures Enabled(w, Queue(n + 1, UPDATE, {}, {}))
  {
    assert w.releases[0] == BASE;
  }

  /** A hot update is queued, claimed and completed. */
  lemma OneMoreUpdate(ss: seq<Step>, rows: map<JobId, Job>, n: nat) returns (more: seq<Step>, after: map<JobId, Job>)
    requires Runs(Initial(), ss) && Looks(Exec(Initial(), ss), rows, map[], BASES) && Filled(rows, n)
    ensures Runs(Initial(), more) && Looks(Exec(Initial(), more), after, map[], BASES) && Filled(after, n + 1)
  {
    var queued, taken;
    more, queued := UpdateIsQueued(ss, rows, n);
    more, taken := UpdateIsTaken(more, queued, n + 1);
    more, after := UpdateIsDone(more, taken, n + 1);
    FilledOn(rows, n, queued, taken, after);
  }

  lemma FilledOn(rows: map<JobId, Job>, n: nat, queued: map<JobId, Job>, taken: map<JobId, Job>, after: map<JobId, Job>)
    requires Filled(rows, n) && OnlyIn(rows, queued, n + 1) && OnlyIn(queued, taken, n + 1) && OnlyIn(taken, after, n + 1)
    requires IsRow(after[n + 1], n + 1)
    ensures Filled(after, n + 1)
  {
  }

  /** Two tables differ in one row at most. */
  predicate OnlyIn(before: map<JobId, Job>, after: map<JobId, Job>, id: JobId) {
    id in after && after.Keys == before.Keys + {id} && forall k :: k in before && k != id ==> after[k] == before[k]
  }

  lemma UpdateIsQueued(ss: seq<Step>, rows: map<JobId, Job>, n: nat) returns (more: seq<Step>, after: map<JobId, Job>)
    requires Runs(Initial(), ss) && Looks(Exec(Initial(), ss), rows, map[], BASES) && Filled(rows, n)
    ensures Runs(Initial(), more) && Looks(Exec(Initial(), more), after, map[], BASES)
    ensures OnlyIn(rows, after, n + 1) && (forall k :: k in after ==> !Building(after[k])) && after[n + 1] == NewRow(UPDATE)
  {
    UpdateMayBeQueued(Exec(Initial(), ss), rows, n);
    more := QueuesRow(ss, Queue(n + 1, UPDATE, {}, {}));
    after := rows[n + 1 := NewRow(UPDATE)];
    NobodyBuilds(rows, n, NewRow(UPDATE));
  }

  lemma NobodyBuilds(rows: map<JobId, Job>, n: nat, j: Job)
    requires Filled(rows, n) && j.status == Queued
    ensures var after := rows[n + 1 := j]; OnlyIn(rows, after, n + 1) && forall k :: k in after ==> !Building(after[k])
  {
    assert forall k :: k in rows ==> IsRow(rows[k], k);
  }

  lemma UpdateIsTaken(ss: seq<Step>, rows: map<JobId, Job>, id: JobId) returns (more: seq<Step>, after: map<JobId, Job>)
    requires Runs(Initial(), ss) && Looks(Exec(Initial(), ss), rows, map[], BASES)
    requires id in rows && (forall k :: k in rows ==> !Building(rows[k])) && rows[id] == NewRow(UPDATE)
    ensures Runs(Initial(), more) && Looks(Exec(Initial(), more), after, map[], BASES)
    ensures OnlyIn(rows, after, id) && after[id] == ClaimRow(NewRow(UPDATE), 7, 40, true)
  {
    more := BeginsAlone(ss, rows, 7, id, BASES);
    more := PicksAlone(more, rows, 7, id, BASES);
    more := EndsAlone(more, rows, 7, id, 40, BASES);
    after := rows[id := ClaimRow(rows[id], 7, 40, true)];
  }

  lemma UpdateIsDone(ss: seq<Step>, rows: map<JobId, Job>, id: JobId) returns (more: seq<Step>, after: map<JobId, Job>)
    requires Runs(Initial(), ss) && Looks(Exec(Initial(), ss), rows, map[], BASES)
    requires id in rows && rows[id] == ClaimRow(NewRow(UPDATE), 7, 40, true)
    ensures Runs(Initial(), more) && Looks(Exec(Initial(), more), after, map[], BASES)
    ensures OnlyIn(rows, after, id) && after[id].status == Succeeded && after[id].spec == UPDATE
  {
    assert Guard(id, rows[id], Finish(id).report);
    ApplyLooks(Exec(Initial(), ss), Finish(id));
    Extend(ss, Finish(id));
    more := ss + [Finish(id)];
    after := rows[id := Update(rows[id], Finish(id).report)];
  }

  lemma {:induction false} ManyUpdates(n: nat) returns (ss: seq<Step>, rows: map<JobId, Job>)
    ensures Runs(Initial(), ss) && Looks(Exec(Initial(), ss), rows, map[], BASES) && Filled(rows, n)
  {
    if n == 0 {
      ss := BaseIsMade();
      rows := map[0 := NewRow(WAITING)];
    } else {
      ss, rows := ManyUpdates(n - 1);
      ss, rows := OneMoreUpdate(ss, rows, n - 1);
    }
  }

  function UpTo(n: nat): set<nat> { if n == 0 then {} else UpTo(n - 1) + {n} }

  lemma {:induction false} CountUpTo(n: nat)
    ensures |UpTo(n)| == n && forall k :: k in UpTo(n) <==> 1 <= k <= n
  {
    if n > 0 { CountUpTo(n - 1); }
  }

  /** The numbers in the job table. */
  function Numbers(n: nat): map<JobId, Taken> {
    if n == 0 then map[0 := Taken(WAITING.version, WAITING.build)] else Numbers(n - 1)[n := Taken(UPDATE.version, UPDATE.build)]
  }

  lemma {:induction false} NumbersAre(n: nat)
    ensures forall k: JobId :: k in Numbers(n) <==> k <= n
    ensures forall k :: k in Numbers(n) ==>
      Numbers(n)[k] == if k == 0 then Taken(WAITING.version, WAITING.build) else Taken(UPDATE.version, UPDATE.build)
  {
    if n > 0 { NumbersAre(n - 1); }
  }

  lemma TableIs(w: World, rows: map<JobId, Job>, n: nat)
    requires Looks(w, rows, map[], BASES) && Filled(rows, n)
    ensures JobTable(w, NEXT) == Numbers(n) && ReleaseTable(w, NEXT) == map[0 := Taken(BASE.version, BASE.build)]
  {
    NumbersAre(n);
    assert JobTable(w, NEXT).Keys == Numbers(n).Keys;
  }

  lemma UpdatesAreNewest(n: nat)
    requires n == BuildFloor.LIMIT
    ensures Newest(Numbers(n), UpTo(n)) && AboveRows(NEXT, Numbers(n), UpTo(n))
  {
    CountUpTo(n);
    NumbersAre(n);
    assert Numbers(n).Keys == UpTo(n) + {0};
  }

  lemma BaseIsNewest()
    ensures var table := map[0 := Taken(BASE.version, BASE.build)]; Newest(table, {0}) && AboveRows(NEXT, table, {0})
  {
    var table := map[0 := Taken(BASE.version, BASE.build)];
    assert table.Keys == {0} && |{0}| == 1;
  }

  lemma NobodyHasTheBuild(w: World, rows: map<JobId, Job>, n: nat)
    requires Looks(w, rows, map[], BASES) && Filled(rows, n)
    ensures forall id :: id in w.jobs ==> w.jobs[id].spec.build != NEXT.build
  {
  }

  lemma NextPasses(w: World, n: nat)
    requires JobTable(w, NEXT) == Numbers(n) && ReleaseTable(w, NEXT) == map[0 := Taken(BASE.version, BASE.build)]
    requires n == BuildFloor.LIMIT && forall id :: id in w.jobs ==> w.jobs[id].spec.build != NEXT.build
    ensures PassesFloor(w, NEXT, UpTo(n), {0})
  {
    UpdatesAreNewest(n);
    BaseIsNewest();
  }

  lemma NextIsEnabled(w: World, rows: map<JobId, Job>, n: nat)
    requires Looks(w, rows, map[], BASES) && Filled(rows, n) && n == BuildFloor.LIMIT
    ensures Enabled(w, Queue(n + 1, NEXT, UpTo(n), {0})) && !AboveFloor(w, NEXT)
  {
    TableIs(w, rows, n);
    NobodyHasTheBuild(w, rows, n);
    NextPasses(w, n);
    WaitingIsInTheWay(w, n);
  }

  lemma WaitingIsInTheWay(w: World, n: nat)
    requires JobTable(w, NEXT) == Numbers(n)
    ensures !AboveFloor(w, NEXT)
  {
    NumbersAre(n);
    assert 0 in Numbers(n).Keys;
  }

  lemma {:induction false} NextIsQueued(n: nat) returns (ss: seq<Step>, s: Step, rows: map<JobId, Job>)
    requires n == BuildFloor.LIMIT
    ensures Runs(Initial(), ss + [s]) && s.Queue? && s.spec == NEXT && !AboveFloor(Exec(Initial(), ss), NEXT)
    ensures Looks(Exec(Initial(), ss), rows, map[], BASES) && Filled(rows, n)
  {
    ss, rows := ManyUpdates(n);
    s := Queue(n + 1, NEXT, UpTo(n), {0});
    NextIsEnabled(Exec(Initial(), ss), rows, n);
    Extend(ss, s);
  }

  /** Version 9.0.0 waits in the queue of an Android tenant; release 1.0.1 is uploaded by hand, and
      fifty hot updates of it are built. Then 1.0.2 may be queued: the fifty newest rows are the hot
      updates, and 9.0.0 is the fifty-first. */
  lemma TheLimitHidesAVersion() returns (ss: seq<Step>, s: Step, hidden: JobId)
    ensures Runs(Initial(), ss + [s]) && s.Queue? && s.spec.kind == Apk && !AboveFloor(Exec(Initial(), ss), s.spec)
    ensures var w := Exec(Initial(), ss);
      && hidden in w.jobs && Alive(w.jobs[hidden]) && SameSeries(w.jobs[hidden].spec, s.spec)
      && s.spec.version.Below(w.jobs[hidden].spec.version)
  {
    hidden := 0;
    var n: nat :| n == BuildFloor.LIMIT;
    var rows;
    ss, s, rows := NextIsQueued(n);
    assert IsRow(rows[0], 0);
  }
}

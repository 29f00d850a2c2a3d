/** Runs in which the order of a tenant's iOS packages is lost, step by step. */
module ClaimScenarios {
  import opened Wrappers
  import opened JobStates
  import opened BuildJobs
  import opened World
  import opened ClaimOrder
  import opened ScenarioSteps

  // ---- a job queued between a claim's snapshot and its pick ----

  const EARLY := Spec(1, IOS, Apk, Some(TestFlight), Version(1, 0, 0), 1, 10)
  const LATE := Spec(1, IOS, Apk, Some(TestFlight), Version(1, 0, 1), 2, 20)

  const E0 := NewRow(EARLY)
  const E1 := ClaimRow(E0, 8, 30, true)
  const L0 := NewRow(LATE)
  const L1 := ClaimRow(L0, 7, 31, true)
  const BLIND := ClaimTx(map[], {1, 2}, None)
  const SIGHTED := ClaimTx(map[1 := E0], {1, 2}, None)

  lemma EarlyIsQueued() returns (ss: seq<Step>)
    ensures Runs(Initial(), ss) && Looks(Exec(Initial(), ss), map[1 := E0], map[7 := BLIND], map[])
  {
    ss := Begins([], 7, {1, 2});
    ss := Queues(ss, 1, EARLY);
  }

  lemma EarlyIsClaimed() returns (ss: seq<Step>)
    ensures Runs(Initial(), ss) && Looks(Exec(Initial(), ss), map[1 := E1], map[7 := BLIND], map[])
  {
    ss := EarlyIsPicked();
    TwoRows(1, E0, 2, L0, E1);
    TwoClaims(7, BLIND, 8, SIGHTED.(picked := Some(1)));
    ss := Ends(ss, 8, 1, 30);
  }

  lemma EarlyIsPicked() returns (ss: seq<Step>)
    ensures Runs(Initial(), ss)
    ensures Looks(Exec(Initial(), ss), map[1 := E0], map[7 := BLIND, 8 := SIGHTED.(picked := Some(1))], map[])
  {
    ss := EarlyIsSeen();
    EarlyIsChosen(Exec(Initial(), ss));
    ss := PicksRow(ss, 8, 1);
  }

  lemma EarlyIsSeen() returns (ss: seq<Step>)
    ensures Runs(Initial(), ss) && Looks(Exec(Initial(), ss), map[1 := E0], map[7 := BLIND, 8 := SIGHTED], map[])
  {
    ss := EarlyIsQueued();
    TwoClaims(7, BLIND, 8, SIGHTED);
    ss := Begins(ss, 8, {1, 2});
  }

  lemma EarlyIsChosen(w: World)
    requires Looks(w, map[1 := E0], map[7 := BLIND, 8 := SIGHTED], map[])
    ensures Chosen(w, w.claims[8], 1)
  {
    PicksTheOnlyOne(w, 8, 1);
  }

  lemma LateIsPicked() returns (ss: seq<Step>)
    ensures Runs(Initial(), ss)
    ensures Looks(Exec(Initial(), ss), map[1 := E1, 2 := L0], map[7 := BLIND.(picked := Some(2))], map[])
  {
    ss := LateIsQueued();
    LateIsChosen(Exec(Initial(), ss));
    ss := PicksRow(ss, 7, 2);
  }

  lemma LateIsQueued() returns (ss: seq<Step>)
    ensures Runs(Initial(), ss) && Looks(Exec(Initial(), ss), map[1 := E1, 2 := L0], map[7 := BLIND], map[])
  {
    ss := EarlyIsClaimed();
    TwoRows(1, E1, 2, L0, L0);
    ss := Queues(ss, 2, LATE);
  }

  lemma LateIsChosen(w: World)
    requires Looks(w, map[1 := E1, 2 := L0], map[7 := BLIND], map[])
    ensures Chosen(w, w.claims[7], 2)
  {
    PicksTheOnlyOne(w, 7, 2);
  }

  /** The two subqueries do not suffice when a job may be queued between a claim's snapshot and its
      pick: machine 7 takes its snapshot before any job is there; then a job is queued and claimed
      by machine 8, another one is queued, and machine 7 picks that one. */
  lemma LatePicksBreakTheOrder() returns (ss: seq<Step>)
    ensures Runs(Initial(), ss)
    ensures var w := Exec(Initial(), ss);
      1 in w.jobs && 2 in w.jobs && Rivals(w.jobs[1], w.jobs[2]) && Building(w.jobs[1]) && Building(w.jobs[2])
  {
    ss := LateIsPicked();
    TwoRows(1, E1, 2, L0, L1);
    ss := Ends(ss, 7, 2, 31);
    assert Exec(Initial(), ss).jobs == map[1 := E1, 2 := L1];
  }

  // ---- a job queued ahead of one that a claim has already seen ----

  const BEHIND := Spec(1, IOS, Apk, Some(TestFlight), Version(1, 0, 0), 1, 20)
  const AHEAD := Spec(1, IOS, Apk, Some(TestFlight), Version(1, 0, 1), 2, 10)

  const B0 := NewRow(BEHIND)
  const A0 := NewRow(AHEAD)
  const A1 := ClaimRow(A0, 8, 40, true)
  const SAW_BEHIND := ClaimTx(map[2 := B0], {1, 2}, None)
  const SAW_BOTH := ClaimTx(map[2 := B0, 1 := A0], {1, 2}, None)

  lemma BehindIsSeen() returns (ss: seq<Step>)
    ensures Runs(Initial(), ss) && Looks(Exec(Initial(), ss), map[2 := B0], map[7 := SAW_BEHIND], map[])
  {
    ss := Queues([], 2, BEHIND);
    ss := Begins(ss, 7, {1, 2});
  }

  lemma BothAreSeen() returns (ss: seq<Step>)
    ensures Runs(Initial(), ss)
    ensures Looks(Exec(Initial(), ss), map[2 := B0, 1 := A0], map[7 := SAW_BEHIND, 8 := SAW_BOTH], map[])
  {
    ss := BothAreThere();
    TwoClaims(7, SAW_BEHIND, 8, SAW_BOTH);
    ss := Begins(ss, 8, {1, 2});
  }

  lemma BothAreThere() returns (ss: seq<Step>)
    ensures Runs(Initial(), ss) && Looks(Exec(Initial(), ss), map[2 := B0, 1 := A0], map[7 := SAW_BEHIND], map[])
  {
    ss := BehindIsSeen();
    TwoRows(2, B0, 1, A0, A0);
    ss := Queues(ss, 1, AHEAD);
  }

  lemma AheadIsChosen(w: World)
    requires Looks(w, map[2 := B0, 1 := A0], map[7 := SAW_BEHIND, 8 := SAW_BOTH], map[])
    ensures Chosen(w, w.claims[8], 1)
  {
    PicksTheOnlyOne(w, 8, 1);
  }

  lemma AheadIsClaimed() returns (ss: seq<Step>)
    ensures Runs(Initial(), ss) && Looks(Exec(Initial(), ss), map[2 := B0, 1 := A1], map[7 := SAW_BEHIND], map[])
  {
    ss := AheadIsPicked();
    TwoRows(2, B0, 1, A0, A1);
    TwoClaims(7, SAW_BEHIND, 8, SAW_BOTH.(picked := Some(1)));
    ss := Ends(ss, 8, 1, 40);
  }

  lemma AheadIsPicked() returns (ss: seq<Step>)
    ensures Runs(Initial(), ss)
    ensures Looks(Exec(Initial(), ss), map[2 := B0, 1 := A0],
                  map[7 := SAW_BEHIND, 8 := SAW_BOTH.(picked := Some(1))], map[])
  {
    ss := BothAreSeen();
    AheadIsChosen(Exec(Initial(), ss));
    ss := PicksRow(ss, 8, 1);
  }

  lemma BehindIsChosen(w: World)
    requires Looks(w, map[2 := B0, 1 := A1], map[7 := SAW_BEHIND], map[])
    ensures Chosen(w, w.claims[7], 2)
  {
    PicksTheOnlyOne(w, 7, 2);
  }

  /** Nor does it suffice that the picked job was in the snapshot: machine 7 sees one job; then one
      with an earlier created_at is queued and claimed by machine 8, and machine 7 picks the one it
      saw. That last pick is of a job that its claim had seen. */
  lemma OvertakenPicksBreakTheOrder() returns (ss: seq<Step>, pick: Step)
    ensures Runs(Initial(), ss + [pick]) && PicksSeenJob(Exec(Initial(), ss), pick) && pick.ClaimPick?
    ensures var w := Exec(Initial(), ss + [pick]);
      1 in w.jobs && 2 in w.jobs && Rivals(w.jobs[1], w.jobs[2]) && Building(w.jobs[1]) && Busy(w, 2)
  {
    ss := AheadIsClaimed();
    pick := ClaimPick(7, 2);
    BehindIsChosen(Exec(Initial(), ss));
    PickLooks(Exec(Initial(), ss), 7, 2);
    Extend(ss, pick);
    var w := Exec(Initial(), ss + [pick]);
    assert w.claims[7].picked == Some(2) && Locked(w, 2);
  }

  // ---- two jobs with the same created_at, and a purge ----

  const SOONER := Spec(1, IOS, Apk, Some(TestFlight), Version(1, 0, 0), 1, 10)
  const LATER := Spec(1, IOS, Apk, Some(TestFlight), Version(1, 0, 1), 2, 10)

  const S0 := NewRow(SOONER)
  const S1 := ClaimRow(S0, 7, 40, true)
  const T0 := NewRow(LATER)
  const T1 := ClaimRow(T0, 7, 30, true)

  function Completes(id: JobId, now: Time, release: ReleaseId): Step {
    Apply(id, FromBuilder(7, 1, now, CompleteIOS(Blob(id, 1), release)), Acked)
  }

  function Completed(id: JobId, j: Job, now: Time, release: ReleaseId): Job {
    j.(status := Succeeded, artifact := Some(id), release := Some(release), heartbeat := Some(now))
  }

  function ReleaseMade(j: Job): Release { Release(j.spec.tenant, j.spec.platform, j.spec.version, j.spec.build, None) }

  predicate HeldBySeven(j: Job) {
    IOSPackage(j) && j.status == Claimed && j.attempt == 1 && j.machine == Some(7) && j.spec.delivery == Some(TestFlight)
  }

  lemma CompletingMoves(id: JobId, j: Job, now: Time, release: ReleaseId)
    requires HeldBySeven(j)
    ensures Guard(id, j, Completes(id, now, release).report)
    ensures Update(j, Completes(id, now, release).report) == Completed(id, j, now, release)
  {
    var k := Update(j, Completes(id, now, release).report);
    assert k.keys == j.keys && k.files == j.files;
  }

  lemma CompletionLooks(w: World, id: JobId, now: Time)
    requires id in w.jobs && !Locked(w, id) && w.releases == map[]
    requires HeldBySeven(w.jobs[id])
    ensures Enabled(w, Completes(id, now, w.nextRelease))
    ensures var w', j := Next(w, Completes(id, now, w.nextRelease)), w.jobs[id];
      && Looks(w', w.jobs[id := Completed(id, j, now, w.nextRelease)], w.claims, map[w.nextRelease := ReleaseMade(j)])
      && w'.completions == w.completions + [Completion(id, 1, 7, id, w.nextRelease)]
      && w'.nextRelease == w.nextRelease + 1 && w'.purges == w.purges
  {
    var s := Completes(id, now, w.nextRelease);
    CompletingMoves(id, w.jobs[id], now, w.nextRelease);
    assert forall k :: k in w.jobs ==> ActOn(w, s, k) == if k == id then Move(s.report) else Stay;
    assert JobsAfter(w, s) == w.jobs[id := Update(w.jobs[id], s.report)];
  }

  lemma {:induction false} CompletesRow(ss: seq<Step>, id: JobId, now: Time) returns (more: seq<Step>)
    requires Runs(Initial(), ss) && id in Exec(Initial(), ss).jobs && Exec(Initial(), ss).claims == map[]
    requires Exec(Initial(), ss).releases == map[]
    requires HeldBySeven(Exec(Initial(), ss).jobs[id])
    ensures var w, w' := Exec(Initial(), ss), Exec(Initial(), more);
      var j := w.jobs[id];
      && Runs(Initial(), more)
      && Looks(w', w.jobs[id := Completed(id, j, now, w.nextRelease)], map[], map[w.nextRelease := ReleaseMade(j)])
      && w'.completions == w.completions + [Completion(id, 1, 7, id, w.nextRelease)]
      && w'.nextRelease == w.nextRelease + 1 && w'.purges == w.purges
  {
    var w := Exec(Initial(), ss);
    CompletionLooks(w, id, now);
    Extend(ss, Completes(id, now, w.nextRelease));
    more := ss + [Completes(id, now, w.nextRelease)];
  }

  /** Purging the one release that is there. */
  lemma PurgeLooks(w: World, id: JobId)
    requires w.releases.Keys == {0} && w.releases[0].served.None? && w.purges == {} && id in w.jobs
    requires w.jobs[id].release == Some(0) && w.jobs[id].keys == map[] && AppStoreInfo !in w.jobs[id].files
    requires forall k :: k in w.jobs && k != id ==> w.jobs[k].release.None?
    ensures var read := PurgeRead(0, {});
      var w1 := Next(w, ReadPurge(0));
      var w2 := Next(w1, CommitPurge(read, false, Acked));
      && Enabled(w, ReadPurge(0)) && Enabled(w1, CommitPurge(read, false, Acked))
      && Looks(w2, w.jobs[id := w.jobs[id].(release := None)], w.claims, map[])
      && w2.completions == w.completions && w2.nextRelease == w.nextRelease && w2.purges == {}
  {
    var read := PurgeRead(0, {});
    var w1 := Next(w, ReadPurge(0));
    var s := CommitPurge(read, false, Acked);
    assert PurgeKeys(w, 0) == {};
    assert JobsAfter(w, ReadPurge(0)) == w.jobs;
    PurgedRow(w.jobs[id]);
    assert JobsAfter(w1, s) == w.jobs[id := w.jobs[id].(release := None)];
    assert w1.releases - {0} == map[];
  }

  lemma PurgedRow(j: Job)
    requires j.release == Some(0) && j.keys == map[] && AppStoreInfo !in j.files
    ensures Update(j, FromServer(PurgeRelease(0))) == j.(release := None)
  {
    var k := Update(j, FromServer(PurgeRelease(0)));
    assert k.keys == j.keys && k.files == j.files;
  }

  lemma {:induction false} PurgesRow(ss: seq<Step>, id: JobId) returns (more: seq<Step>)
    requires Runs(Initial(), ss)
    requires var w := Exec(Initial(), ss);
      && w.releases.Keys == {0} && w.releases[0].served.None? && w.purges == {} && id in w.jobs
      && w.jobs[id].release == Some(0) && w.jobs[id].keys == map[] && AppStoreInfo !in w.jobs[id].files
      && forall k :: k in w.jobs && k != id ==> w.jobs[k].release.None?
    ensures var w, w' := Exec(Initial(), ss), Exec(Initial(), more);
      && Runs(Initial(), more) && Looks(w', w.jobs[id := w.jobs[id].(release := None)], w.claims, map[])
      && w'.completions == w.completions && w'.nextRelease == w.nextRelease && w'.purges == {}
  {
    var read, commit := ReadPurge(0), CommitPurge(PurgeRead(0, {}), false, Acked);
    PurgeLooks(Exec(Initial(), ss), id);
    Extend(ss, read);
    Extend(ss + [read], commit);
    more := ss + [read] + [commit];
  }

  predicate Tells(w: World, completions: seq<Completion>, next: ReleaseId) {
    w.completions == completions && w.nextRelease == next && w.purges == {}
  }

  const FIRST_DONE := Completion(1, 1, 7, 1, 0)
  const SECOND_DONE := Completion(2, 1, 7, 2, 1)
  const T2 := Completed(1, T1, 31, 0)
  const T3 := T2.(release := None)

  lemma BothAreQueued() returns (ss: seq<Step>)
    ensures Runs(Initial(), ss) && Looks(Exec(Initial(), ss), map[2 := S0, 1 := T0], map[], map[])
    ensures Tells(Exec(Initial(), ss), [], 0)
  {
    ss := Queues([], 2, SOONER);
    ss := Queues(ss, 1, LATER);
  }

  lemma LaterIsPicked() returns (ss: seq<Step>)
    ensures Runs(Initial(), ss) && Tells(Exec(Initial(), ss), [], 0)
    ensures Looks(Exec(Initial(), ss), map[2 := S0, 1 := T0],
                  map[7 := ClaimTx(map[2 := S0, 1 := T0], {1, 2}, Some(1))], map[])
  {
    ss := BothAreQueued();
    ss := Begins(ss, 7, {1, 2});
    LaterIsChosen(Exec(Initial(), ss));
    ss := PicksRow(ss, 7, 1);
  }

  lemma LaterIsChosen(w: World)
    requires Looks(w, map[2 := S0, 1 := T0], map[7 := ClaimTx(map[2 := S0, 1 := T0], {1, 2}, None)], map[])
    ensures Chosen(w, w.claims[7], 1)
  {
    PicksTheOnlyOne(w, 7, 1);
  }

  lemma LaterIsClaimed() returns (ss: seq<Step>)
    ensures Runs(Initial(), ss) && Looks(Exec(Initial(), ss), map[2 := S0, 1 := T1], map[], map[])
    ensures Tells(Exec(Initial(), ss), [], 0)
  {
    ss := LaterIsPicked();
    TwoRows(2, S0, 1, T0, T1);
    TwoClaims(7, ClaimTx(map[2 := S0, 1 := T0], {1, 2}, Some(1)), 8, SIGHTED);
    ss := Ends(ss, 7, 1, 30);
  }

  lemma LaterCompletes() returns (ss: seq<Step>)
    ensures Runs(Initial(), ss) && Looks(Exec(Initial(), ss), map[2 := S0, 1 := T2], map[], map[0 := ReleaseMade(T1)])
    ensures Tells(Exec(Initial(), ss), [FIRST_DONE], 1)
  {
    ss := LaterIsClaimed();
    TwoRows(2, S0, 1, T1, T2);
    ss := CompletesRow(ss, 1, 31);
  }

  lemma LaterIsPurged() returns (ss: seq<Step>)
    ensures Runs(Initial(), ss) && Looks(Exec(Initial(), ss), map[2 := S0, 1 := T3], map[], map[])
    ensures Tells(Exec(Initial(), ss), [FIRST_DONE], 1)
  {
    ss := LaterCompletes();
    ss := PurgesRow(ss, 1);
  }

  lemma SoonerIsPicked() returns (ss: seq<Step>)
    ensures Runs(Initial(), ss) && Tells(Exec(Initial(), ss), [FIRST_DONE], 1)
    ensures Looks(Exec(Initial(), ss), map[2 := S0, 1 := T3],
                  map[7 := ClaimTx(map[2 := S0, 1 := T3], {1, 2}, Some(2))], map[])
  {
    ss := SoonerIsSeen();
    SoonerIsChosen(Exec(Initial(), ss));
    ss := PicksRow(ss, 7, 2);
  }

  lemma SoonerIsChosen(w: World)
    requires Looks(w, map[2 := S0, 1 := T3], map[7 := ClaimTx(map[2 := S0, 1 := T3], {1, 2}, None)], map[])
    ensures Chosen(w, w.claims[7], 2)
  {
    PicksTheOnlyOne(w, 7, 2);
  }

  lemma SoonerIsSeen() returns (ss: seq<Step>)
    ensures Runs(Initial(), ss) && Tells(Exec(Initial(), ss), [FIRST_DONE], 1)
    ensures Looks(Exec(Initial(), ss), map[2 := S0, 1 := T3], map[7 := ClaimTx(map[2 := S0, 1 := T3], {1, 2}, None)], map[])
  {
    ss := LaterIsPurged();
    ss := Begins(ss, 7, {1, 2});
  }

  lemma SoonerIsClaimed() returns (ss: seq<Step>)
    ensures Runs(Initial(), ss) && Looks(Exec(Initial(), ss), map[2 := S1, 1 := T3], map[], map[])
    ensures Tells(Exec(Initial(), ss), [FIRST_DONE], 1)
  {
    ss := SoonerIsPicked();
    TwoRows(2, S0, 1, T3, S1);
    TwoClaims(7, ClaimTx(map[2 := S0, 1 := T3], {1, 2}, Some(2)), 8, SIGHTED);
    ss := Ends(ss, 7, 2, 40);
  }

  lemma SoonerCompletes() returns (ss: seq<Step>)
    ensures Runs(Initial(), ss) && Exec(Initial(), ss).completions == [FIRST_DONE, SECOND_DONE]
    ensures Exec(Initial(), ss).jobs == map[2 := Completed(2, S1, 41, 1), 1 := T3]
  {
    ss := SoonerIsClaimed();
    ss := CompletesRow(ss, 2, 41);
    TwoRows(2, S1, 1, T3, Completed(2, S1, 41, 1));
  }

  lemma SpecsStayed()
    ensures Completed(2, S1, 41, 1).spec == SOONER && T3.spec == LATER
  {
  }

  /** Completions need not come in the order of queueing: of two jobs with the same created_at the one
      with the smaller id is claimed first, even if it was queued second and has the greater numbers.
      If its release is purged before the other one completes, the numbers go down. */
  lemma TiesAndPurgesBreakTheNumbers() returns (ss: seq<Step>)
    ensures Runs(Initial(), ss) && Exec(Initial(), ss).completions == [FIRST_DONE, SECOND_DONE]
    ensures var w := Exec(Initial(), ss);
      FIRST_DONE.job in w.jobs && SECOND_DONE.job in w.jobs
      && Rivals(w.jobs[FIRST_DONE.job], w.jobs[SECOND_DONE.job])
      && w.jobs[SECOND_DONE.job].spec.version.Below(w.jobs[FIRST_DONE.job].spec.version)
      && w.jobs[SECOND_DONE.job].spec.build < w.jobs[FIRST_DONE.job].spec.build
  {
    ss := SoonerCompletes();
    SpecsStayed();
  }
}

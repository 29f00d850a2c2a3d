/** The handlers that change rows and objects step by step, proved against the row functions. */
module Server {
  import opened Wrappers
  import opened JobStates
  import opened BuildJobs
  import opened JobProgress
  import opened World
  import opened IOSCompletion
  import opened Reapers

  /** What object storage will do with a batch of deletions: it may be out of reach, and it may
      refuse single keys. */
  datatype Storage = Storage(reachable: bool, deletable: set<Key>)

  function Deleted(keys: seq<Key>, storage: Storage): set<Key> {
    set k | k in keys && storage.reachable && k in storage.deletable
  }

  datatype Receipt = Kept(file: Blob) | StaleAttempt | NoSuchJob

  /** jobTransition: the guard, the assignments, and the columns whose objects are given up. */
  datatype Transition = Transition(where: Job -> bool, assign: Job -> Job, release: set<Column>)

  function Transitioned(j: Job, t: Transition): Job { Clear(t.assign(j), t.release) }

  /** The keys of the columns that a row no longer has set. */
  function Cleared(j: Job, j': Job): set<Key> { set c | c in j.keys && c !in j'.keys :: j.keys[c] }

  predicate GivenUpBySome(before: map<JobId, Job>, after: map<JobId, Job>, k: Key) {
    exists id :: id in before && id in after && k in Cleared(before[id], after[id])
  }

  /** From storage goes exactly what can be deleted of what some row has given up. */
  ghost predicate DeletesGivenUp(before: map<JobId, Job>, after: map<JobId, Job>, objects: map<Key, Blob>,
                                 left: map<Key, Blob>, storage: Storage)
  {
    && left.Keys <= objects.Keys && (forall k :: k in left ==> left[k] == objects[k])
    && forall k :: k in objects ==>
         (k !in left <==> storage.reachable && k in storage.deletable && GivenUpBySome(before, after, k))
  }

  /** One more row of a pass. */
  lemma OneMoreRow(before: map<JobId, Job>, mid: map<JobId, Job>, after: map<JobId, Job>, objects: map<Key, Blob>,
                   left: map<Key, Blob>, id: JobId, storage: Storage)
    requires DeletesGivenUp(before, mid, objects, left, storage) && before.Keys == mid.Keys
    requires id in mid && mid[id] == before[id] && id in after && after == mid[id := after[id]]
    ensures DeletesGivenUp(before, after, objects,
      left - if storage.reachable then Cleared(before[id], after[id]) * storage.deletable else {}, storage)
  {
    assert Cleared(mid[id], before[id]) == {};
    forall k ensures GivenUpBySome(before, after, k) <==> GivenUpBySome(before, mid, k) || k in Cleared(before[id], after[id]) {
      if GivenUpBySome(before, mid, k) {
        var i :| i in before && i in mid && k in Cleared(before[i], mid[i]);
        assert i != id && after[i] == mid[i];
      }
      if GivenUpBySome(before, after, k) {
        var i :| i in before && i in after && k in Cleared(before[i], after[i]);
        assert i == id || after[i] == mid[i];
      }
    }
  }

  /** These rows were moved to this status. */
  ghost predicate Moved(before: map<JobId, Job>, after: map<JobId, Job>, ids: seq<JobId>, status: Status)
    requires before.Keys == after.Keys
  {
    forall id :: id in ids <==> id in after && after[id] != before[id] && after[id].status == status
  }

  lemma OneMoreMoved(before: map<JobId, Job>, mid: map<JobId, Job>, after: map<JobId, Job>, ids: seq<JobId>, id: JobId,
                     status: Status)
    requires before.Keys == mid.Keys && Moved(before, mid, ids, status)
    requires id in mid && mid[id] == before[id] && id in after && after == mid[id := after[id]] && after[id] != before[id]
    ensures Moved(before, after, if after[id].status == status then ids + [id] else ids, status)
  {
    assert id !in ids;
  }

  /** These rows were updated as they were read, and no other. */
  ghost predicate BuildsReaped(found: seq<(JobId, BuildRead)>, before: map<JobId, Job>, after: map<JobId, Job>)
    requires before.Keys == after.Keys
  {
    && (forall i :: 0 <= i < |found| && found[i].0 in after ==>
          after[found[i].0] == ReapBuildLater(found[i].1, before[found[i].0]))
    && forall id :: id in after && (forall i :: 0 <= i < |found| ==> found[i].0 != id) ==> after[id] == before[id]
  }

  lemma OneMoreBuildReaped(found: seq<(JobId, BuildRead)>, next: (JobId, BuildRead), before: map<JobId, Job>,
                           mid: map<JobId, Job>, after: map<JobId, Job>)
    requires before.Keys == mid.Keys == after.Keys && BuildsReaped(found, before, mid)
    requires forall i :: 0 <= i < |found| ==> found[i].0 != next.0
    requires next.0 in mid ==> after == mid[next.0 := ReapBuildLater(next.1, before[next.0])]
    requires next.0 !in mid ==> after == mid
    ensures BuildsReaped(found + [next], before, after)
  {
    var more := found + [next];
    assert more[|found|] == next && forall i :: 0 <= i < |found| ==> more[i] == found[i];
  }

  /** The lists that a reaper pass reports. */
  datatype ReapResult = ReapResult(requeued: seq<JobId>, failed: seq<JobId>)

  /** One column's key, if it is wanted and set. */
  function Wanted(j: Job, wanted: set<Column>, c: Column): seq<Key> {
    if c in wanted && c in j.keys then [j.keys[c]] else []
  }

  /** jobObjectKeys.pick: the set keys of the wanted columns, in column order. */
  method PickKeys(j: Job, wanted: set<Column>) returns (keys: seq<Key>)
    ensures keys == Wanted(j, wanted, Unsigned) + Wanted(j, wanted, Sbom) + Wanted(j, wanted, Signed)
                    + Wanted(j, wanted, AppStoreInfo)
    ensures forall k :: k in keys <==> k in Pick(j, wanted)
  {
    keys := [];
    if Unsigned in wanted && Unsigned in j.keys { keys := keys + [j.keys[Unsigned]]; }
    if Sbom in wanted && Sbom in j.keys { keys := keys + [j.keys[Sbom]]; }
    if Signed in wanted && Signed in j.keys { keys := keys + [j.keys[Signed]]; }
    if AppStoreInfo in wanted && AppStoreInfo in j.keys { keys := keys + [j.keys[AppStoreInfo]]; }
    forall k | k in Pick(j, wanted) ensures k in keys {
      var c :| c in j.keys && c in wanted && j.keys[c] == k;
      assert Wanted(j, wanted, c) == [k];
      match c case Unsigned => case Sbom => case Signed => case AppStoreInfo =>
    }
  }

  function ReapingBuild(read: BuildRead): Transition {
    var requeue := read.kind == Apk && read.attempt < MAX_BUILD_ATTEMPTS;
    Transition(
      (j: Job) => Building(j) && j.attempt == read.attempt && LastBeat(j) < read.cutoff,
      (j: Job) => if requeue then j.(status := Queued, claimedAt := None, heartbeat := None) else j.(status := Failed),
      BUILD_DELIVERY)
  }

  /** Run as a transition, a reaper's update is its late update. */
  lemma ReapingBuildIsLate(read: BuildRead, j: Job)
    ensures ReapBuildLater(read, j) == if ReapingBuild(read).where(j) then Transitioned(j, ReapingBuild(read)) else j
    ensures ReapingBuild(read).where(j) ==> ReapBuildLater(read, j) != j
    ensures ReapingBuild(read).where(j) ==>
      ReapBuildLater(read, j).status == if read.kind == Apk && read.attempt < MAX_BUILD_ATTEMPTS then Queued else Failed
    ensures ReapingBuild(read).where(j) ==> Cleared(j, ReapBuildLater(read, j)) == Pick(j, ReapingBuild(read).release)
  {
  }

  function ReapingSigning(read: SignRead): Transition {
    var last := GivesUp(read.failures);
    Transition(
      (j: Job) => j.status == Signing && j.signAttempt == read.signAttempt && j.signFailures == read.failures
                  && j.signBeat < read.cutoff,
      (j: Job) => j.(status := if last then Failed else Built, signFailures := j.signFailures + 1),
      if last then ALL_DELIVERIES else {Signed})
  }

  lemma ReapingSigningIsLate(read: SignRead, j: Job)
    ensures ReapSigningLater(read, j) == if ReapingSigning(read).where(j) then Transitioned(j, ReapingSigning(read)) else j
    ensures ReapingSigning(read).where(j) ==>
      ReapSigningLater(read, j) != j && ReapSigningLater(read, j).status == if GivesUp(read.failures) then Failed else Built
    ensures ReapingSigning(read).where(j) ==> Cleared(j, ReapSigningLater(read, j)) == Pick(j, ReapingSigning(read).release)
  {
  }

  /** What an insertion writes. */
  lemma CompletionWrites(j: Job, m: Machine, attempt: nat, file: Blob, now: Time, release: ReleaseId)
    ensures Update(j, FromBuilder(m, attempt, now, CompleteIOS(file, release))) ==
      j.(status := Succeeded, artifact := Some(file.digest), release := Some(release), heartbeat := Some(now))
  {
    var k := Update(j, FromBuilder(m, attempt, now, CompleteIOS(file, release)));
    assert k.keys == j.keys;
  }

  lemma CompletionStep(w: World, id: JobId, r: Report)
    requires id in w.jobs && r.FromBuilder? && r.did.CompleteIOS? && w.claims == map[]
    ensures var s := Apply(id, r, Acked);
      var w', spec := Next(w, s), w.jobs[id].spec;
      && w'.jobs == w.jobs[id := Update(w.jobs[id], r)]
      && w'.releases == w.releases[w.nextRelease := Release(spec.tenant, spec.platform, spec.version, spec.build, None)]
      && w' == w.(jobs := w'.jobs, releases := w'.releases, nextRelease := w.nextRelease + 1, completions := w'.completions)
  {
    var s := Apply(id, r, Acked);
    assert forall k :: k in w.jobs ==> ActOn(w, s, k) == if k == id then Move(r) else Stay;
    assert JobsAfter(w, s) == w.jobs[id := Update(w.jobs[id], r)];
    assert Dropped(w.jobs[id], r) == {};
  }

  class Server {
    var jobs: map<JobId, Job>
    var objects: map<Key, Blob>
    var nonce: nat
    var releases: map<ReleaseId, Release>
    var nextRelease: ReleaseId

    /** The part of the world that the handlers look at. */
    function View(): World
      reads this
    {
      World(jobs, map[], map[], objects, map[], {}, {}, nonce, releases, [], nextRelease, {})
    }

    constructor ()
      ensures jobs == map[] && objects == map[] && nonce == 0 && releases == map[] && nextRelease == 0
    {
      jobs, objects, nonce, releases, nextRelease := map[], map[], 0, map[], 0;
    }

    /** Best effort, and only after the commit: what cannot be deleted stays. */
    method DeleteDeliveryObjects(keys: seq<Key>, storage: Storage)
      modifies this`objects
      ensures objects == old(objects) - Deleted(keys, storage)
    {
      if |keys| == 0 || !storage.reachable {
        return;
      }
      for i := 0 to |keys|
        invariant objects == old(objects) - Deleted(keys[..i], storage)
      {
        if keys[i] in storage.deletable {
          objects := objects - {keys[i]};
        }
      }
      assert keys[..|keys|] == keys;
    }

    /** Lock the row if the guard holds, update it, clear the released key columns, commit, and then
        delete what they named. Nothing at all happens if the guard does not hold. */
    method TransitionBuildJob(id: JobId, t: Transition, storage: Storage) returns (matched: bool)
      modifies this`jobs, this`objects
      ensures matched <==> id in old(jobs) && t.where(old(jobs)[id])
      ensures jobs == if matched then old(jobs)[id := Transitioned(old(jobs)[id], t)] else old(jobs)
      ensures objects == old(objects) -
        if matched && storage.reachable then Pick(old(jobs)[id], t.release) * storage.deletable else {}
    {
      if id !in jobs || !t.where(jobs[id]) {
        return false;
      }
      var locked := jobs[id];
      jobs := jobs[id := Clear(t.assign(locked), t.release)];
      var keys := PickKeys(locked, t.release);
      DeleteDeliveryObjects(keys, storage);
      return true;
    }

    /** A report of a builder, the signer or an admin, as such a transition. */
    method ReportTransition(id: JobId, r: Report, storage: Storage) returns (matched: bool)
      requires Recorded(r).None? && !(r.FromServer? && r.act.PurgeRelease?)
      modifies this`jobs, this`objects
      ensures matched <==> id in old(jobs) && Guard(id, old(jobs)[id], r)
      ensures jobs == if matched then old(jobs)[id := Update(old(jobs)[id], r)] else old(jobs)
      ensures objects == old(objects) -
        if matched && storage.reachable then Dropped(old(jobs)[id], r) * storage.deletable else {}
    {
      matched := TransitionBuildJob(id, Transition(j => Guard(id, j, r), j => Assign(j, r), Released(r)), storage);
    }

    /** No stored object has a name that is still to be made. */
    predicate Valid()
      reads this
    {
      forall k :: k in objects ==> k.nonce < nonce
    }

    /** The first half of an upload: the claim is checked, and the file is stored under a new name
        of this job and attempt, so that no upload ever writes over another. */
    method StoreDelivery(id: JobId, m: Machine, attempt: nat, column: Column, file: Blob) returns (key: Option<Key>)
      requires Valid()
      modifies this`objects, this`nonce
      ensures Valid()
      ensures key == if Accepts(jobs, id, m, attempt, column) then Some(Key(id, column, attempt, old(nonce))) else None
      ensures key.None? ==> objects == old(objects)
      ensures key.Some? ==> key.value !in old(objects) && objects == old(objects)[key.value := file]
    {
      if !Accepts(jobs, id, m, attempt, column) { return None; }
      var made := Key(id, column, attempt, nonce);
      nonce := nonce + 1;
      objects := objects[made := file];
      return Some(made);
    }

    /** recordDeliveredObject and what its caller does next: lock the row, record the new key if the
        claim still holds, and delete the object that it replaced; or else delete the new object. */
    method RecordDelivery(key: Key, r: Report, storage: Storage) returns (receipt: Receipt)
      requires Recorded(r) == Some(key) && key in objects && objects[key] == FileOf(r)
      modifies this`jobs, this`objects
      // A builder's file is recorded exactly when its claim would be accepted for an upload now.
      ensures r.FromBuilder? ==>
        (receipt.Kept? <==> r.attempt == key.attempt && Accepts(old(jobs), key.job, r.machine, r.attempt, key.column))
      ensures receipt == if key.job !in old(jobs) then NoSuchJob
                         else if Guard(key.job, old(jobs)[key.job], r) then Kept(FileOf(r)) else StaleAttempt
      ensures jobs == if receipt.Kept? then old(jobs)[key.job := Update(old(jobs)[key.job], r)] else old(jobs)
      ensures objects == old(objects) -
        Deleted(if receipt.Kept? then Replaced(old(jobs)[key.job], key) else [key], storage)
    {
      if key.job !in jobs {
        DeleteDeliveryObjects([key], storage);
        return NoSuchJob;
      }
      var locked := jobs[key.job];
      AcceptedIsRecorded(jobs, key, r);
      if !Guard(key.job, locked, r) {
        DeleteDeliveryObjects([key], storage);
        return StaleAttempt;
      }
      jobs := jobs[key.job := Update(locked, r)];
      DeleteDeliveryObjects(Replaced(locked, key), storage);
      return Kept(FileOf(r));
    }

    /** completeIOSBuildJob, on the row as it was read and on the locked one, with the insertion of
        its release. */
    method CompleteIOSBuildJob(read: Job, id: JobId, m: Machine, attempt: nat, file: Blob, now: Time) returns (answer: Answer)
      requires id in jobs
      modifies this`jobs, this`releases, this`nextRelease
      ensures answer == Answers(read, old(View()), id, m, attempt, file)
      ensures View() == if answer.Inserted? then
          Next(old(View()), Apply(id, FromBuilder(m, attempt, now, CompleteIOS(file, answer.release)), Acked))
            .(completions := [])
        else old(View())
      // Whatever was read, only a step that the system has is made; and it is made if the row is still as read.
      ensures RowsInv(old(View())) && read.spec == old(jobs)[id].spec ==>
        var step := Apply(id, FromBuilder(m, attempt, now, CompleteIOS(file, old(nextRelease))), Acked);
        && (answer.Inserted? ==> answer.release == old(nextRelease) && Enabled(old(View()), step))
        && (Enabled(old(View()), step) && read == old(jobs)[id] ==> answer.Inserted?)
    {
      if RowsInv(View()) && read.spec == jobs[id].spec {
        InsertedIsTheOnlyStep(read, View(), id, m, attempt, file, now, Acked);
      }
      var active := read.status in Starts(BuilderHeartbeat, read.spec.kind) || read.status == Succeeded;
      if !active || read.attempt != attempt || read.machine != Some(m) { return AttemptStale; }
      if !IOSPackage(read) { return KindMismatch; }
      var delivered := JobDelivery(read) == Some(Ipa);
      if delivered && !(Unsigned in read.files && read.files[Unsigned] == file) { return NotDelivered; }
      var j := jobs[id];
      var same := j.status == Succeeded && j.release.Some? && j.attempt == attempt && j.machine == Some(m);
      if same && j.artifact == Some(file.digest) { return Again(j.release.value); }
      if same { return ResultConflict; }
      if j.status !in Starts(BuilderIOSRelease, Apk) || j.attempt != attempt || j.machine != Some(m) { return AttemptStale; }
      if delivered && !(Unsigned in j.files && j.files[Unsigned] == file) { return NotDelivered; }
      if !Increasing(View(), j.spec.tenant, j.spec.platform, j.spec.version, j.spec.build) { return VersionNotIncreasing; }
      var release := InsertAndComplete(id, m, attempt, file, now);
      return Inserted(release);
    }

    /** The new release and the row that points to it, in one transaction. */
    method InsertAndComplete(id: JobId, m: Machine, attempt: nat, file: Blob, now: Time) returns (release: ReleaseId)
      requires id in jobs
      modifies this`jobs, this`releases, this`nextRelease
      ensures release == old(nextRelease)
      ensures View() ==
        Next(old(View()), Apply(id, FromBuilder(m, attempt, now, CompleteIOS(file, release)), Acked)).(completions := [])
    {
      var j := jobs[id];
      release := nextRelease;
      releases := releases[release := Release(j.spec.tenant, j.spec.platform, j.spec.version, j.spec.build, None)];
      nextRelease := nextRelease + 1;
      CompletionWrites(j, m, attempt, file, now, release);
      CompletionStep(old(View()), id, FromBuilder(m, attempt, now, CompleteIOS(file, release)));
      jobs := jobs[id := j.(status := Succeeded, artifact := Some(file.digest), release := Some(release),
                            heartbeat := Some(now))];
    }

    /** The read of a reaper pass: every stale row, in the order in which the table is scanned. */
    method FindStaleBuilds(cutoff: Time, table: seq<JobId>) returns (found: seq<(JobId, BuildRead)>)
      requires forall id :: id in table ==> id in jobs
      ensures forall f :: f in found <==>
        f.0 in table && StaleBuild(jobs[f.0], cutoff) && f.1 == ReadBuild(jobs[f.0], cutoff)
      ensures Distinct(table) ==> DistinctIds(found)
    {
      found := [];
      for i := 0 to |table|
        invariant forall f :: f in found <==>
          f.0 in table[..i] && StaleBuild(jobs[f.0], cutoff) && f.1 == ReadBuild(jobs[f.0], cutoff)
        invariant Distinct(table) ==> DistinctIds(found)
      {
        var id := table[i];
        assert forall k :: k in table[..i + 1] <==> k in table[..i] || k == id;
        if StaleBuild(jobs[id], cutoff) {
          ghost var before := found;
          found := found + [(id, ReadBuild(jobs[id], cutoff))];
          if Distinct(table) {
            assert id !in table[..i];
            assert forall k :: 0 <= k < |before| ==> before[k] in before && before[k].0 in table[..i];
          }
        }
      }
    }

    /** The updates of a reaper pass. Between the read and here the rows may have moved on. */
    method ReapBuilds(found: seq<(JobId, BuildRead)>, storage: Storage) returns (result: ReapResult)
      requires DistinctIds(found)
      modifies this`jobs, this`objects
      ensures jobs.Keys == old(jobs).Keys
      ensures forall i :: 0 <= i < |found| && found[i].0 in jobs ==>
        jobs[found[i].0] == ReapBuildLater(found[i].1, old(jobs)[found[i].0])
      ensures forall id :: id in jobs && (forall i :: 0 <= i < |found| ==> found[i].0 != id) ==> jobs[id] == old(jobs)[id]
      ensures forall id :: id in result.requeued <==> id in jobs && jobs[id] != old(jobs)[id] && jobs[id].status == Queued
      ensures forall id :: id in result.failed <==> id in jobs && jobs[id] != old(jobs)[id] && jobs[id].status == Failed
      ensures DeletesGivenUp(old(jobs), jobs, old(objects), objects, storage)
    {
      var requeued: seq<JobId>, failed: seq<JobId> := [], [];
      for i := 0 to |found|
        invariant jobs.Keys == old(jobs).Keys && BuildsReaped(found[..i], old(jobs), jobs)
        invariant Moved(old(jobs), jobs, requeued, Queued) && Moved(old(jobs), jobs, failed, Failed)
        invariant DeletesGivenUp(old(jobs), jobs, old(objects), objects, storage)
      {
        var (id, read) := found[i];
        assert found[..i + 1] == found[..i] + [found[i]];
        assert id in jobs ==> jobs[id] == old(jobs)[id];
        ghost var mid, left := jobs, objects;
        var matched := ReapBuild(id, read, storage);
        OneMoreBuildReaped(found[..i], found[i], old(jobs), mid, jobs);
        if matched {
          OneMoreRow(old(jobs), mid, jobs, old(objects), left, id, storage);
          OneMoreMoved(old(jobs), mid, jobs, requeued, id, Queued);
          OneMoreMoved(old(jobs), mid, jobs, failed, id, Failed);
        }
        if matched && read.kind == Apk && read.attempt < MAX_BUILD_ATTEMPTS {
          requeued := requeued + [id];
        } else if matched {
          failed := failed + [id];
        }
      }
      assert found[..|found|] == found;
      return ReapResult(requeued, failed);
    }

    /** The guarded update of one row. */
    method ReapBuild(id: JobId, read: BuildRead, storage: Storage) returns (matched: bool)
      modifies this`jobs, this`objects
      ensures matched <==> id in old(jobs) && ReapBuildLater(read, old(jobs)[id]) != old(jobs)[id]
      ensures jobs == if matched then old(jobs)[id := ReapBuildLater(read, old(jobs)[id])] else old(jobs)
      ensures objects == old(objects) -
        if matched && storage.reachable then Cleared(old(jobs)[id], jobs[id]) * storage.deletable else {}
      ensures matched ==>
        jobs[id].status == if read.kind == Apk && read.attempt < MAX_BUILD_ATTEMPTS then Queued else Failed
    {
      if id in jobs { ReapingBuildIsLate(read, jobs[id]); }
      matched := TransitionBuildJob(id, ReapingBuild(read), storage);
    }

    method ReapSigning(id: JobId, read: SignRead, storage: Storage) returns (matched: bool)
      modifies this`jobs, this`objects
      ensures matched <==> id in old(jobs) && ReapSigningLater(read, old(jobs)[id]) != old(jobs)[id]
      ensures jobs == if matched then old(jobs)[id := ReapSigningLater(read, old(jobs)[id])] else old(jobs)
      ensures objects == old(objects) -
        if matched && storage.reachable then Cleared(old(jobs)[id], jobs[id]) * storage.deletable else {}
      ensures matched ==> jobs[id].status == if GivesUp(read.failures) then Failed else Built
    {
      if id in jobs { ReapingSigningIsLate(read, jobs[id]); }
      matched := TransitionBuildJob(id, ReapingSigning(read), storage);
    }

    /** The updates of a pass over stale signings: back to built, or failed at the second failure. */
    method ReapSignings(found: seq<(JobId, SignRead)>, storage: Storage) returns (back: seq<JobId>, failed: seq<JobId>)
      requires forall i, k :: 0 <= i < k < |found| ==> found[i].0 != found[k].0
      modifies this`jobs, this`objects
      ensures jobs.Keys == old(jobs).Keys
      ensures forall i :: 0 <= i < |found| && found[i].0 in jobs ==>
        jobs[found[i].0] == ReapSigningLater(found[i].1, old(jobs)[found[i].0])
      ensures forall id :: id in jobs && (forall i :: 0 <= i < |found| ==> found[i].0 != id) ==> jobs[id] == old(jobs)[id]
      ensures forall id :: id in back <==> id in jobs && jobs[id] != old(jobs)[id] && jobs[id].status == Built
      ensures forall id :: id in failed <==> id in jobs && jobs[id] != old(jobs)[id] && jobs[id].status == Failed
      ensures DeletesGivenUp(old(jobs), jobs, old(objects), objects, storage)
    {
      back, failed := [], [];
      for i := 0 to |found|
        invariant jobs.Keys == old(jobs).Keys
        invariant forall k :: 0 <= k < i && found[k].0 in jobs ==>
          jobs[found[k].0] == ReapSigningLater(found[k].1, old(jobs)[found[k].0])
        invariant forall id :: id in jobs && (forall k :: 0 <= k < i ==> found[k].0 != id) ==> jobs[id] == old(jobs)[id]
        invariant Moved(old(jobs), jobs, back, Built) && Moved(old(jobs), jobs, failed, Failed)
        invariant DeletesGivenUp(old(jobs), jobs, old(objects), objects, storage)
      {
        var (id, read) := found[i];
        assert id in jobs ==> jobs[id] == old(jobs)[id];
        ghost var mid, left := jobs, objects;
        var matched := ReapSigning(id, read, storage);
        if matched {
          OneMoreRow(old(jobs), mid, jobs, old(objects), left, id, storage);
          OneMoreMoved(old(jobs), mid, jobs, back, id, Built);
          OneMoreMoved(old(jobs), mid, jobs, failed, id, Failed);
        }
        if matched && GivesUp(read.failures) {
          failed := failed + [id];
        } else if matched {
          back := back + [id];
        }
      }
    }
  }

  /** The claim that a builder presents is current, and the job takes such a file. */
  predicate Accepts(jobs: map<JobId, Job>, id: JobId, m: Machine, attempt: nat, column: Column) {
    id in jobs && var j := jobs[id];
      j.spec.kind == Apk && Building(j) && j.attempt == attempt && j.machine == Some(m) && TakesFile(j, column)
  }

  /** Nothing else is asked when the file is recorded. */
  lemma AcceptedIsRecorded(jobs: map<JobId, Job>, key: Key, r: Report)
    requires key.job in jobs && Recorded(r) == Some(key)
    ensures r.FromBuilder? ==> (Guard(key.job, jobs[key.job], r) <==>
      r.attempt == key.attempt && Accepts(jobs, key.job, r.machine, r.attempt, key.column))
  {
  }

  predicate Distinct(ids: seq<JobId>) { forall i, k :: 0 <= i < k < |ids| ==> ids[i] != ids[k] }

  predicate DistinctIds(found: seq<(JobId, BuildRead)>) {
    forall i, k :: 0 <= i < k < |found| ==> found[i].0 != found[k].0
  }

  function Replaced(j: Job, key: Key): seq<Key> {
    if key.column in j.keys && j.keys[key.column] != key then [j.keys[key.column]] else []
  }
}

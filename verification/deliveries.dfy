/** Delivered objects over whole runs: what a row names is stored, and is what it says it is; a
    deletion never hits a name that a row still holds; nothing is lost track of. */
module Deliveries {
  import opened Wrappers
  import opened JobStates
  import opened BuildJobs
  import opened JobProgress
  import opened World

  /** Some row names this key. Keys carry their row's id, so it can only be that row. */
  predicate Refers(w: World, k: Key) { k.job in w.jobs && k in RowKeys(w.jobs[k.job]) }

  predicate Stored(w: World, k: Key) { k in w.uploads && w.uploads[k].stored }

  function Abandoned(w: World): set<Key> { w.doomed + w.kept }

  // ---- the invariant ----

  ghost predicate ObjectsInv(w: World) { RowsInv(w) && OldNames(w) && Apart(w) && Contents(w) && Purges(w) && Served(w) }

  /** Every name in use was made before the next one. */
  predicate OldNames(w: World) {
    && (forall k :: k in w.objects ==> k.nonce < w.nonce)
    && (forall k :: k in w.uploads ==> k.nonce < w.nonce && k.job in w.jobs)
    && (forall k :: k in Abandoned(w) ==> k.nonce < w.nonce)
    && (forall p :: p in w.purges ==> forall k :: k in p.keys ==> k.nonce < w.nonce)
  }

  /** A name belongs to an upload, to a row, or is given up. */
  ghost predicate Apart(w: World) {
    && (forall k :: k in w.uploads ==> !Refers(w, k) && k !in Abandoned(w))
    && (forall k :: k in Abandoned(w) ==> !Refers(w, k))
  }

  /** What a row names is stored with the size and digest that the row records. */
  ghost predicate Contents(w: World) {
    && (forall k :: Stored(w, k) ==> k in w.objects && Uploaded(w.uploads[k].report, w.objects[k]))
    && (forall k :: Refers(w, k) ==> k in w.objects && Described(w, k))
  }

  predicate Uploaded(r: Report, b: Blob) { Recorded(r).Some? && FileOf(r) == b }

  predicate Described(w: World, k: Key)
    requires k.job in w.jobs && k in w.objects
  {
    k.column != Signed ==> k.column in w.jobs[k.job].files && w.jobs[k.job].files[k.column] == w.objects[k]
  }

  /** What a purge read belongs to the release's own job, which has long finished. */
  predicate Purges(w: World) { forall p :: p in w.purges ==> forall k :: k in p.keys ==> ReadBefore(w, p, k) }

  predicate ReadBefore(w: World, p: PurgeRead, k: Key) {
    && k !in w.uploads && k.job in w.jobs && w.jobs[k.job].status == Succeeded
    && (Refers(w, k) ==> w.jobs[k.job].release == Some(p.release))
  }

  /** A release serves an object of the job that points to it. */
  predicate Served(w: World) {
    && (forall r :: r in w.releases && w.releases[r].served.Some? ==> ServedBy(w, r, w.releases[r].served.value))
    && (forall r :: r in w.releases ==> r < w.nextRelease)
    && (forall id :: id in w.jobs && w.jobs[id].release.Some? ==> w.jobs[id].release.value < w.nextRelease)
  }

  predicate ServedBy(w: World, r: ReleaseId, k: Key) {
    Refers(w, k) && w.jobs[k.job].release == Some(r) && w.jobs[k.job].spec.platform == Android
  }

  // ---- what a step does to the names ----

  /** A step makes a row name a new key only by recording an upload. */
  lemma NamesGrowByRecording(w: World, s: Step, k: Key)
    requires ObjectsInv(w) && Enabled(w, s) && Refers(Next(w, s), k)
    ensures Refers(w, k) || (s.RecordUpload? && k == s.key)
  {
    if k.job in w.jobs {
      StepsMoveRows(w, s, k.job);
      assert RowInv(k.job, w.jobs[k.job]);
      if ActOn(w, s, k.job).Move? { RecordedIsUploaded(w, s, k.job); }
      RowNamesGrow(k.job, w.jobs[k.job], ActOn(w, s, k.job), k);
    }
  }

  lemma RowNamesGrow(id: JobId, j: Job, a: RowAct, k: Key)
    requires RowInv(id, j) && Allowed(id, j, a) && k in RowKeys(After(j, a))
    requires a.Move? && Recorded(a.report).Some? ==> Recorded(a.report).value !in RowKeys(j)
    ensures k in RowKeys(j) || (a.Move? && Recorded(a.report) == Some(k))
  {
    match a
    case Stay =>
    case Take(m, now, granted) => ClaimKeepsRowInv(id, j, m, now, granted);
    case Move(r) => DroppedIsWhatTheRowForgets(id, j, r);
  }

  lemma RecordedIsUploaded(w: World, s: Step, id: JobId)
    requires Tagged(w) && Apart(w) && Enabled(w, s) && id in w.jobs && ActOn(w, s, id).Move?
    ensures var r := ActOn(w, s, id).report;
      Recorded(r).Some? ==> s.RecordUpload? && Recorded(r) == Some(s.key) && s.key.job == id && !Refers(w, s.key)
  {
  }

  /** A queued row names nothing, so claiming it gives up nothing. */
  lemma ClaimsGiveUpNothing(w: World, s: Step)
    requires RowsInv(w) && Enabled(w, s) && s.ClaimEnd?
    ensures GivenUp(w, s) == {}
  {
    if w.claims[s.machine].picked.Some? {
      var id := w.claims[s.machine].picked.value;
      assert HoldsQueued(w, id) && RowInv(id, w.jobs[id]);
    }
  }

  /** What a step gives up, no row names afterwards. */
  lemma GivenUpIsUnnamed(w: World, s: Step, k: Key)
    requires ObjectsInv(w) && Enabled(w, s) && k in GivenUp(w, s)
    ensures !Refers(Next(w, s), k)
  {
    if s.ClaimEnd? {
      ClaimsGiveUpNothing(w, s);
    } else if s.Apply? {
      MovedRowForgets(w, s, s.id, k);
    } else if s.RecordUpload? {
      RecordingGivesUp(w, s, k);
    } else if s.RefuseUpload? {
      RefusedIsUnnamed(w, s, k);
    } else if s.CommitPurge? {
      PurgedIsUnnamed(w, s, k);
    }
  }

  lemma RefusedIsUnnamed(w: World, s: Step, k: Key)
    requires Apart(w) && Enabled(w, s) && s.RefuseUpload? && k == s.key
    ensures !Refers(Next(w, s), k)
  {
    assert k.job in w.jobs ==> ActOn(w, s, k.job) == Stay;
  }

  /** A recorded upload gives up the object that it replaced, a late one its own. */
  lemma RecordingGivesUp(w: World, s: Step, k: Key)
    requires ObjectsInv(w) && Enabled(w, s) && s.RecordUpload? && k in GivenUp(w, s)
    ensures !Refers(Next(w, s), k) && (Refers(w, k) || k == s.key)
  {
    if ActOn(w, s, s.key.job).Move? {
      MovedRowForgets(w, s, s.key.job, k);
    } else {
      assert k == s.key && ActOn(w, s, k.job) == Stay;
    }
  }

  lemma MovedRowForgets(w: World, s: Step, id: JobId, k: Key)
    requires ObjectsInv(w) && Enabled(w, s) && id in w.jobs && ActOn(w, s, id).Move?
    requires k in Dropped(w.jobs[id], ActOn(w, s, id).report)
    ensures !Refers(Next(w, s), k) && Refers(w, k)
  {
    StepsMoveRows(w, s, id);
    var r := ActOn(w, s, id).report;
    RecordedIsUploaded(w, s, id);
    DroppedIsWhatTheRowForgets(id, w.jobs[id], r);
    DroppedIsOwn(id, w.jobs[id], r, k);
  }

  lemma PurgedIsUnnamed(w: World, s: Step, k: Key)
    requires ObjectsInv(w) && Enabled(w, s) && s.CommitPurge? && Applied(s.commit) && k in s.read.keys
    ensures !Refers(Next(w, s), k)
  {
    assert ReadBefore(w, s.read, k);
    if Refers(w, k) {
      PurgedRowForgets(w, s, k.job);
    } else {
      PurgeForgetsOnly(w, s, k.job);
    }
  }

  lemma PurgedRowForgets(w: World, s: Step, id: JobId)
    requires Rows(w) && s.CommitPurge? && Applied(s.commit) && id in w.jobs
    requires w.jobs[id].status == Succeeded && w.jobs[id].release == Some(s.read.release)
    ensures RowKeys(After(w.jobs[id], ActOn(w, s, id))) == {}
  {
    var r := FromServer(PurgeRelease(s.read.release));
    assert ActOn(w, s, id) == Move(r) && RowInv(id, w.jobs[id]) && Guard(id, w.jobs[id], r);
    ReleasedKeys(id, w.jobs[id], r);
  }

  lemma PurgeForgetsOnly(w: World, s: Step, id: JobId)
    requires s.CommitPurge? && id in w.jobs
    ensures RowKeys(After(w.jobs[id], ActOn(w, s, id))) <= RowKeys(w.jobs[id])
  {
  }

  lemma DroppedIsOwn(id: JobId, j: Job, r: Report, k: Key)
    requires RowInv(id, j) && k in Dropped(j, r)
    ensures k.job == id && k in RowKeys(j)
  {
  }

  /** Only names of rows, of this upload, or of this purge are ever given up. */
  lemma GivenUpComesFrom(w: World, s: Step, k: Key)
    requires ObjectsInv(w) && Enabled(w, s) && k in Abandoned(Next(w, s))
    ensures k in Abandoned(w) || Refers(w, k) || (k in w.uploads && k !in Next(w, s).uploads)
      || (s.CommitPurge? && Applied(s.commit) && k in s.read.keys)
  {
    if k in GivenUp(w, s) {
      match s
      case ClaimEnd(_, _, _, _) => ClaimsGiveUpNothing(w, s);
      case Apply(id, r, _) => DroppedIsOwn(id, w.jobs[id], r, k);
      case RecordUpload(key, _, _) => RecordingGivesUp(w, s, k);
      case _ =>
    }
  }

  // ---- every step keeps the invariant ----

  lemma OldNamesKept(w: World, s: Step)
    requires ObjectsInv(w) && Enabled(w, s)
    ensures OldNames(Next(w, s))
  {
    AbandonedNamesAreOld(w, s);
    PurgeNamesAreOld(w, s);
    NoncesGrow(w, s);
    forall k | k in Next(w, s).objects ensures k.nonce < w.nonce { ObjectsComeFrom(w, s, k); }
    forall k | k in Next(w, s).uploads ensures k.nonce < Next(w, s).nonce && k.job in Next(w, s).jobs {
      UploadsComeFrom(w, s, k);
    }
  }

  lemma NoncesGrow(w: World, s: Step)
    requires Enabled(w, s)
    ensures Next(w, s).nonce == if s.BeginUpload? then w.nonce + 1 else w.nonce
  {
  }

  lemma ObjectsComeFrom(w: World, s: Step, k: Key)
    requires Enabled(w, s) && k in Next(w, s).objects
    ensures k in w.objects || (s.PutObject? && s.key == k && k in w.uploads)
  {
  }

  lemma UploadsComeFrom(w: World, s: Step, k: Key)
    requires Enabled(w, s) && k in Next(w, s).uploads
    ensures (k in w.uploads && (s.RecordUpload? || s.RefuseUpload? ==> s.key != k))
      || (s.BeginUpload? && k.nonce == w.nonce && k.job in w.jobs)
  {
  }

  lemma AbandonedNamesAreOld(w: World, s: Step)
    requires ObjectsInv(w) && Enabled(w, s)
    ensures forall k :: k in Abandoned(Next(w, s)) ==> k.nonce < w.nonce
  {
    forall k | k in Abandoned(Next(w, s)) ensures k.nonce < w.nonce { GivenUpComesFrom(w, s, k); }
  }

  lemma PurgeNamesAreOld(w: World, s: Step)
    requires ObjectsInv(w) && Enabled(w, s)
    ensures forall p :: p in PurgesAfter(w, s) ==> forall k :: k in p.keys ==> k.nonce < w.nonce
  {
    forall p, k | p in PurgesAfter(w, s) && k in p.keys ensures k.nonce < w.nonce {
      if p !in w.purges { PurgeReadsRows(w, s.release, k); }
    }
  }

  lemma PurgeReadsRows(w: World, r: ReleaseId, k: Key)
    requires ObjectsInv(w) && r in w.releases && k in PurgeKeys(w, r)
    ensures Refers(w, k) && w.jobs[k.job].release == Some(r) && w.jobs[k.job].status == Succeeded
  {
    if w.releases[r].served == Some(k) {
      assert ServedBy(w, r, k);
    }
    assert Outcome(w.jobs[k.job]) && k.job in w.jobs by {
      if w.releases[r].served != Some(k) {
        var id, c :| id in w.jobs && w.jobs[id].release == Some(r) && c in w.jobs[id].keys && w.jobs[id].keys[c] == k;
        assert RowInv(id, w.jobs[id]) && KeyTag(id, w.jobs[id], c, k);
      }
      assert RowInv(k.job, w.jobs[k.job]);
    }
  }

  lemma UploadsStayApart(w: World, s: Step, k: Key)
    requires ObjectsInv(w) && Enabled(w, s) && k in Next(w, s).uploads
    ensures !Refers(Next(w, s), k) && k !in Abandoned(Next(w, s))
  {
    UploadsComeFrom(w, s, k);
    PurgesSpareUploads(w, k);
    if Refers(Next(w, s), k) { NamesGrowByRecording(w, s, k); }
    if k in Abandoned(Next(w, s)) { GivenUpComesFrom(w, s, k); }
  }

  lemma PurgesSpareUploads(w: World, k: Key)
    requires Purges(w)
    ensures k in w.uploads ==> forall p :: p in w.purges ==> k !in p.keys
  {
    forall p | p in w.purges && k in p.keys ensures k !in w.uploads {
      assert ReadBefore(w, p, k);
    }
  }

  lemma AbandonedStaysApart(w: World, s: Step, k: Key)
    requires ObjectsInv(w) && Enabled(w, s) && k in Abandoned(Next(w, s))
    ensures !Refers(Next(w, s), k)
  {
    if Refers(Next(w, s), k) { NamesGrowByRecording(w, s, k); }
    if k in GivenUp(w, s) {
      GivenUpIsUnnamed(w, s, k);
    } else if s.CommitPurge? && Applied(s.commit) && k in s.read.keys {
      PurgedIsUnnamed(w, s, k);
    } else {
      assert k in Abandoned(w);
    }
  }

  lemma ApartKept(w: World, s: Step)
    requires ObjectsInv(w) && Enabled(w, s)
    ensures Apart(Next(w, s))
  {
    forall k | k in Next(w, s).uploads ensures !Refers(Next(w, s), k) && k !in Abandoned(Next(w, s)) {
      UploadsStayApart(w, s, k);
    }
    forall k | k in Abandoned(Next(w, s)) ensures !Refers(Next(w, s), k) {
      AbandonedStaysApart(w, s, k);
    }
  }

  /** A row that goes on naming a file goes on describing it. */
  lemma DescriptionKept(id: JobId, j: Job, r: Report, k: Key)
    requires RowInv(id, j) && Guard(id, j, r) && k in RowKeys(j) && k in RowKeys(Update(j, r)) && k.column != Signed
    requires Recorded(r).Some? ==> Recorded(r).value.job == id && Recorded(r).value !in RowKeys(j)
    ensures k.column in j.files && k.column in Update(j, r).files && Update(j, r).files[k.column] == j.files[k.column]
  {
    DroppedIsWhatTheRowForgets(id, j, r);
    var c :| c in j.keys && j.keys[c] == k;
    assert KeyTag(id, j, c, k);
    OtherFilesStay(j, r, c);
  }

  lemma OtherFilesStay(j: Job, r: Report, c: Column)
    requires c in j.keys && j.keys[c] !in Dropped(j, r)
    requires r.FromServer? && r.act.PurgeRelease? ==> c != AppStoreInfo
    ensures c in j.files ==> c in Update(j, r).files && Update(j, r).files[c] == j.files[c]
  {
    if Recorded(r).Some? {
      assert c != Recorded(r).value.column;
    } else {
      assert AppStoreInfo in Released(r) ==> c != AppStoreInfo;
    }
  }

  lemma UploadedStaysStored(w: World, s: Step, k: Key)
    requires Tagged(w) && Contents(w) && Apart(w) && OldNames(w) && Enabled(w, s) && Stored(Next(w, s), k)
    ensures k in Next(w, s).objects && Uploaded(Next(w, s).uploads[k].report, Next(w, s).objects[k])
  {
    UploadsComeFrom(w, s, k);
    if s.PutObject? && s.key == k {
      assert Recorded(w.uploads[k].report) == Some(k);
    } else {
      assert Stored(w, k) && UploadsAfter(w, s)[k] == w.uploads[k];
      assert k !in w.doomed;
    }
  }

  /** The heart of it: whatever a row names stays in storage and stays what the row says it is. */
  lemma NamedStaysStored(w: World, s: Step, k: Key)
    requires ObjectsInv(w) && Enabled(w, s) && Refers(Next(w, s), k)
    ensures k in Next(w, s).objects && Described(Next(w, s), k)
  {
    NamesGrowByRecording(w, s, k);
    if Refers(w, k) {
      NamedObjectStays(w, s, k);
      NamedStaysDescribed(w, s, k);
    } else {
      RecordedIsDescribed(w, s, k);
    }
  }

  lemma NamedStaysDescribed(w: World, s: Step, k: Key)
    requires ObjectsInv(w) && Enabled(w, s) && Refers(w, k) && Refers(Next(w, s), k)
    requires k in w.objects && k in Next(w, s).objects && Next(w, s).objects[k] == w.objects[k]
    ensures Described(Next(w, s), k)
  {
    assert Described(w, k);
    if k.column != Signed { NamedRowDescribes(w, s, k); }
  }

  lemma NamedObjectStays(w: World, s: Step, k: Key)
    requires ObjectsInv(w) && Enabled(w, s) && Refers(w, k)
    ensures k in w.objects && k in Next(w, s).objects && Next(w, s).objects[k] == w.objects[k]
  {
  }

  lemma NamedRowDescribes(w: World, s: Step, k: Key)
    requires ObjectsInv(w) && Enabled(w, s) && Refers(w, k) && Refers(Next(w, s), k) && k.column != Signed
    ensures k.column in Next(w, s).jobs[k.job].files && k.column in w.jobs[k.job].files
    ensures Next(w, s).jobs[k.job].files[k.column] == w.jobs[k.job].files[k.column]
  {
    StepsMoveRows(w, s, k.job);
    var j := w.jobs[k.job];
    assert RowInv(k.job, j);
    match ActOn(w, s, k.job)
    case Stay => assert Described(w, k);
    case Take(m, now, granted) => ClaimKeepsRowInv(k.job, j, m, now, granted);
    case Move(r) =>
      RecordedIsUploaded(w, s, k.job);
      DescriptionKept(k.job, j, r, k);
  }

  lemma RecordedIsDescribed(w: World, s: Step, k: Key)
    requires Tagged(w) && Contents(w) && Enabled(w, s) && Refers(Next(w, s), k) && s.RecordUpload? && k == s.key && !Refers(w, k)
    ensures k in Next(w, s).objects && Described(Next(w, s), k)
  {
    assert Stored(w, k);
    assert ActOn(w, s, k.job).Move?;
    var r := At(w.uploads[k].report, s.now);
    AtRecordsTheSame(w.uploads[k].report, s.now);
    RecordedFile(w.jobs[k.job], r);
  }

  lemma RecordedFile(j: Job, r: Report)
    requires Recorded(r).Some?
    ensures var c := Recorded(r).value.column;
      r.FromBuilder? ==> c in Update(j, r).files && Update(j, r).files[c] == FileOf(r)
  {
  }

  lemma ContentsKept(w: World, s: Step)
    requires ObjectsInv(w) && Enabled(w, s)
    ensures Contents(Next(w, s))
  {
    var w' := Next(w, s);
    forall k | Stored(w', k) ensures k in w'.objects && Uploaded(w'.uploads[k].report, w'.objects[k]) {
      UploadedStaysStored(w, s, k);
    }
    forall k | Refers(w', k) ensures k in w'.objects && Described(w', k) {
      NamedStaysStored(w, s, k);
    }
  }

  /** A finished row is only ever touched by the two purges. */
  lemma FinishedRowStays(w: World, s: Step, id: JobId)
    requires RowsInv(w) && Enabled(w, s) && id in w.jobs && w.jobs[id].status in TERMINAL
    ensures id in Next(w, s).jobs && Finished(w.jobs[id], Next(w, s).jobs[id])
  {
    StepsMoveRows(w, s, id);
    FinishedAct(id, w.jobs[id], ActOn(w, s, id));
  }

  predicate Finished(j: Job, j': Job) {
    && j'.status == j.status && j'.spec == j.spec && j'.artifact == j.artifact && RowKeys(j') <= RowKeys(j)
    && (j' == j || (j'.release == None && RowKeys(j') == {}) || (j'.release == j.release && j.spec.platform == IOS))
  }

  lemma FinishedAct(id: JobId, j: Job, a: RowAct)
    requires RowInv(id, j) && Allowed(id, j, a) && j.status in TERMINAL
    ensures Finished(j, After(j, a))
  {
    if a.Move? {
      TerminalRowsStay(id, j, a.report);
      ReleasedKeys(id, j, a.report);
    }
  }

  lemma PurgesKept(w: World, s: Step)
    requires ObjectsInv(w) && Enabled(w, s)
    ensures Purges(Next(w, s))
  {
    var w' := Next(w, s);
    forall p, k | p in w'.purges && k in p.keys ensures ReadBefore(w', p, k) {
      PurgeReadKept(w, s, p, k);
    }
  }

  lemma PurgeReadKept(w: World, s: Step, p: PurgeRead, k: Key)
    requires ObjectsInv(w) && Enabled(w, s) && p in PurgesAfter(w, s) && k in p.keys
    ensures ReadBefore(Next(w, s), p, k)
  {
    if p !in w.purges { PurgeReadsRows(w, s.release, k); }
    assert ReadBefore(w, p, k);
    FinishedRowStays(w, s, k.job);
    if k in Next(w, s).uploads { UploadsComeFrom(w, s, k); }
    if Refers(Next(w, s), k) { NamesGrowByRecording(w, s, k); }
  }

  lemma ServedKept(w: World, s: Step)
    requires ObjectsInv(w) && Enabled(w, s)
    ensures Served(Next(w, s))
  {
    var w' := Next(w, s);
    forall r | r in w'.releases && w'.releases[r].served.Some? ensures ServedBy(w', r, w'.releases[r].served.value) {
      if r in w.releases && w'.releases[r] == w.releases[r] { ServedStays(w, s, r); } else { ServedAnew(w, s, r); }
    }
    forall id | id in w'.jobs && w'.jobs[id].release.Some? ensures w'.jobs[id].release.value < w'.nextRelease {
      RowReleaseIsOld(w, s, id);
    }
  }

  lemma ServedStays(w: World, s: Step, r: ReleaseId)
    requires ObjectsInv(w) && Enabled(w, s) && r in w.releases && r in Next(w, s).releases && w.releases[r].served.Some?
    ensures ServedBy(Next(w, s), r, w.releases[r].served.value)
  {
    var k := w.releases[r].served.value;
    assert ServedBy(w, r, k);
    assert RowInv(k.job, w.jobs[k.job]);
    FinishedRowStays(w, s, k.job);
    StaysReleased(w, s, k.job);
  }

  /** The release column is set by a completion and cleared by a purge of that release. */
  lemma ReleaseColumn(id: JobId, j: Job, r: Report)
    requires Guard(id, j, r)
    ensures var j' := Update(j, r);
      if ReleaseOf(r).Some? then j'.release == Some(ReleaseOf(r).value.0) && j'.status == Succeeded
      else if r.FromServer? && r.act.PurgeRelease? then j.release == Some(r.act.release) && j'.release == None
      else j'.release == j.release
  {
  }

  lemma ReleaseServesARowKey(id: JobId, j: Job, r: Report)
    requires RowInv(id, j) && Guard(id, j, r) && ReleaseOf(r).Some? && ReleaseOf(r).value.1.Some?
    ensures var k := ReleaseOf(r).value.1.value;
      k.job == id && k in RowKeys(Update(j, r)) && Update(j, r).spec.platform == Android
  {
    var k := ReleaseOf(r).value.1.value;
    assert Update(j, r).keys[Signed] == k && KeyTag(id, j, Signed, k);
  }

  /** A finished row keeps its release until that is purged. */
  lemma FinishedRelease(id: JobId, j: Job, a: RowAct)
    requires Allowed(id, j, a) && j.status in TERMINAL
    ensures After(j, a).release == j.release
      || (After(j, a).release == None && a.Move? && a.report.FromServer? && a.report.act.PurgeRelease?
          && j.release == Some(a.report.act.release))
  {
    if a.Move? {
      TerminalRowsStay(id, j, a.report);
      ReleaseColumn(id, j, a.report);
    }
  }

  lemma PurgeReportsArePurges(w: World, s: Step, id: JobId)
    requires Tagged(w) && Enabled(w, s) && id in w.jobs && ActOn(w, s, id).Move?
    ensures var r := ActOn(w, s, id).report;
      r.FromServer? && r.act.PurgeRelease? ==> s.CommitPurge? && Applied(s.commit) && s.read.release == r.act.release
  {
    if s.RecordUpload? { AtRecordsTheSame(w.uploads[s.key].report, s.now); }
  }

  lemma StaysReleased(w: World, s: Step, id: JobId)
    requires RowsInv(w) && Enabled(w, s) && id in w.jobs && w.jobs[id].release.Some?
    requires w.jobs[id].release.value in Next(w, s).releases
    ensures Next(w, s).jobs[id].release == w.jobs[id].release
  {
    assert RowInv(id, w.jobs[id]);
    StepsMoveRows(w, s, id);
    FinishedRelease(id, w.jobs[id], ActOn(w, s, id));
    PurgedIsGone(w, s);
    if ActOn(w, s, id).Move? { PurgeReportsArePurges(w, s, id); }
  }

  lemma PurgedIsGone(w: World, s: Step)
    requires Enabled(w, s)
    ensures s.CommitPurge? && Applied(s.commit) ==> s.read.release !in Next(w, s).releases
  {
  }

  lemma ServedAnew(w: World, s: Step, r: ReleaseId)
    requires ObjectsInv(w) && Enabled(w, s) && r in Next(w, s).releases
    requires r !in w.releases || Next(w, s).releases[r] != w.releases[r]
    ensures Next(w, s).releases[r].served.Some? ==> ServedBy(Next(w, s), r, Next(w, s).releases[r].served.value)
  {
    if s.Apply? {
      assert RowInv(s.id, w.jobs[s.id]);
      ReleaseColumn(s.id, w.jobs[s.id], s.report);
      if ReleaseOf(s.report).value.1.Some? { ReleaseServesARowKey(s.id, w.jobs[s.id], s.report); }
    }
  }

  lemma RowReleaseIsOld(w: World, s: Step, id: JobId)
    requires ObjectsInv(w) && Enabled(w, s) && id in Next(w, s).jobs && Next(w, s).jobs[id].release.Some?
    ensures Next(w, s).jobs[id].release.value < Next(w, s).nextRelease
  {
    if id in w.jobs {
      StepsMoveRows(w, s, id);
      ReleaseColumnOf(id, w.jobs[id], ActOn(w, s, id));
      if ActOn(w, s, id).Move? { NoReleaseByUpload(w, s, id); }
    }
  }

  lemma ReleaseColumnOf(id: JobId, j: Job, a: RowAct)
    requires Allowed(id, j, a)
    ensures After(j, a).release == j.release || After(j, a).release == None
      || (a.Move? && ReleaseOf(a.report).Some? && After(j, a).release == Some(ReleaseOf(a.report).value.0))
  {
    if a.Move? { ReleaseColumn(id, j, a.report); }
  }

  lemma NoReleaseByUpload(w: World, s: Step, id: JobId)
    requires Tagged(w) && Enabled(w, s) && id in w.jobs && ActOn(w, s, id).Move?
    ensures ReleaseOf(ActOn(w, s, id).report).Some? ==> Inserts(s) && ReleaseOf(ActOn(w, s, id).report).value.0 == w.nextRelease
  {
    if s.RecordUpload? { AtRecordsTheSame(w.uploads[s.key].report, s.now); }
  }

  lemma ObjectsInvKept(w: World, s: Step)
    requires ObjectsInv(w) && Enabled(w, s)
    ensures ObjectsInv(Next(w, s))
  {
    RowsInvKept(w, s);
    OldNamesKept(w, s);
    ApartKept(w, s);
    ContentsKept(w, s);
    PurgesKept(w, s);
    ServedKept(w, s);
  }

  lemma {:induction false} ObjectsInvAlways(ss: seq<Step>)
    requires Runs(Initial(), ss)
    ensures ObjectsInv(Exec(Initial(), ss))
  {
    if ss != [] {
      ObjectsInvAlways(ss[..|ss| - 1]);
      ObjectsInvKept(Exec(Initial(), ss[..|ss| - 1]), ss[|ss| - 1]);
    }
  }

  // ---- main results ----

  /** In every reachable world every key of every row is the name of a stored object, the object
      has the size and digest that the row records for it, and so is every released object. */
  lemma {:induction false} NamedObjectsExist(ss: seq<Step>)
    requires Runs(Initial(), ss)
    ensures var w := Exec(Initial(), ss);
      && (forall id, c :: id in w.jobs && c in w.jobs[id].keys ==>
            w.jobs[id].keys[c] in w.objects && (c != Signed ==>
              c in w.jobs[id].files && w.objects[w.jobs[id].keys[c]] == w.jobs[id].files[c]))
      && (forall r :: r in w.releases && w.releases[r].served.Some? ==> w.releases[r].served.value in w.objects)
  {
    var w := Exec(Initial(), ss);
    ObjectsInvAlways(ss);
    forall id, c | id in w.jobs && c in w.jobs[id].keys
      ensures w.jobs[id].keys[c] in w.objects && (c != Signed ==>
        c in w.jobs[id].files && w.objects[w.jobs[id].keys[c]] == w.jobs[id].files[c])
    {
      NamedIsStored(w, id, c);
    }
    forall r | r in w.releases && w.releases[r].served.Some? ensures w.releases[r].served.value in w.objects {
      assert ServedBy(w, r, w.releases[r].served.value);
    }
  }

  lemma NamedIsStored(w: World, id: JobId, c: Column)
    requires ObjectsInv(w) && id in w.jobs && c in w.jobs[id].keys
    ensures w.jobs[id].keys[c] in w.objects
    ensures c != Signed ==> c in w.jobs[id].files && w.objects[w.jobs[id].keys[c]] == w.jobs[id].files[c]
  {
    assert RowInv(id, w.jobs[id]) && KeyTag(id, w.jobs[id], c, w.jobs[id].keys[c]);
    assert Refers(w, w.jobs[id].keys[c]);
  }

  /** No step of any run deletes an object that a row, a release or an upload in flight names. */
  lemma {:induction false} NoNamedObjectIsDeleted(ss: seq<Step>, s: Step, k: Key)
    requires Runs(Initial(), ss) && Enabled(Exec(Initial(), ss), s)
    requires k in Exec(Initial(), ss).objects && k !in Next(Exec(Initial(), ss), s).objects
    ensures var w, w' := Exec(Initial(), ss), Next(Exec(Initial(), ss), s);
      && (forall id :: id in w.jobs ==> k !in RowKeys(w.jobs[id]))
      && (forall id :: id in w'.jobs ==> k !in RowKeys(w'.jobs[id]))
      && (forall r :: r in w.releases ==> w.releases[r].served != Some(k)) && k !in w.uploads
  {
    var w := Exec(Initial(), ss);
    ObjectsInvAlways(ss);
    ObjectsInvKept(w, s);
    DeletedIsUnnamed(w, s, k);
    NamedOnlyByItsRow(w, k);
    NamedOnlyByItsRow(Next(w, s), k);
    UnnamedIsUnserved(w, k);
  }

  lemma DeletedIsUnnamed(w: World, s: Step, k: Key)
    requires ObjectsInv(w) && Enabled(w, s) && k in w.objects && k !in Next(w, s).objects
    ensures !Refers(w, k) && !Refers(Next(w, s), k) && k !in w.uploads
  {
    assert k in w.doomed && s.DeleteObject?;
    if Refers(Next(w, s), k) { NamesGrowByRecording(w, s, k); }
  }

  lemma UnnamedIsUnserved(w: World, k: Key)
    requires Served(w) && !Refers(w, k)
    ensures forall r :: r in w.releases ==> w.releases[r].served != Some(k)
  {
    forall r | r in w.releases ensures w.releases[r].served != Some(k) {
      assert w.releases[r].served.Some? ==> ServedBy(w, r, w.releases[r].served.value);
    }
  }

  lemma NamedOnlyByItsRow(w: World, k: Key)
    requires Rows(w) && !Refers(w, k)
    ensures forall id :: id in w.jobs ==> k !in RowKeys(w.jobs[id])
  {
    forall id | id in w.jobs ensures k !in RowKeys(w.jobs[id]) {
      RowKeysAreOwn(w, id);
    }
  }

  lemma RowKeysAreOwn(w: World, id: JobId)
    requires Rows(w) && id in w.jobs
    ensures forall k :: k in RowKeys(w.jobs[id]) ==> k.job == id
  {
    assert RowInv(id, w.jobs[id]);
    forall k | k in RowKeys(w.jobs[id]) ensures k.job == id {
      var c :| c in w.jobs[id].keys && w.jobs[id].keys[c] == k;
      assert KeyTag(id, w.jobs[id], c, k);
    }
  }
}

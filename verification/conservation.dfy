/** Conservation of delivered objects: in a run without storage or commit errors nothing is left
    behind in storage. */
module Conservation {
  import opened Wrappers
  import opened JobStates
  import opened BuildJobs
  import opened JobProgress
  import opened World
  import opened Deliveries

  /** A step in which no database or storage call fails and no handler dies half-way. */
  predicate Flawless(s: Step) {
    match s
    case ClaimEnd(_, _, _, commit) => commit == Acked
    case Apply(_, _, commit) => commit == Acked
    case RecordUpload(_, _, commit) => commit == Acked
    case CommitPurge(_, _, commit) => commit == Acked
    case PutObject(_, failed) => !failed
    case DeleteObject(_, failed) => !failed
    case DropUpload(_) => false
    case _ => true
  }

  ghost predicate ConservedInv(w: World) { ObjectsInv(w) && Accounted(w) && Pointed(w) && ReadInFull(w) }

  /** Every stored object has somebody to answer for it. */
  ghost predicate Accounted(w: World) {
    forall k :: k in w.objects ==> k in Abandoned(w) || Refers(w, k) || Stored(w, k)
  }

  /** A row's release exists, and serves its signed package. */
  predicate Pointed(w: World) {
    forall id :: id in w.jobs && w.jobs[id].release.Some? ==> PointsTo(w, w.jobs[id], w.jobs[id].release.value)
  }

  predicate PointsTo(w: World, j: Job, r: ReleaseId) {
    r in w.releases && (Signed in j.keys ==> w.releases[r].served == Some(j.keys[Signed]))
  }

  /** A purge has read every key of the row that points to its release. */
  predicate ReadInFull(w: World) {
    forall p :: p in w.purges ==> Covers(w, p)
  }

  predicate Covers(w: World, p: PurgeRead) {
    p.release < w.nextRelease
    && forall id :: id in w.jobs && w.jobs[id].release == Some(p.release) ==> RowKeys(w.jobs[id]) <= p.keys
  }

  // ---- what a flawless step forgets, it gives up ----

  lemma ForgottenIsGivenUp(w: World, s: Step, k: Key)
    requires ConservedInv(w) && Enabled(w, s) && Flawless(s) && Refers(w, k) && !Refers(Next(w, s), k)
    ensures k in Abandoned(Next(w, s))
  {
    if s.CommitPurge? {
      PurgedRowWasRead(w, s, k);
    } else if ActOn(w, s, k.job).Move? {
      MovedRowGivesUp(w, s, k);
    } else {
      TakenRowsNameNothing(w, s, k);
    }
  }

  lemma PurgedRowWasRead(w: World, s: Step, k: Key)
    requires ReadInFull(w) && Enabled(w, s) && Flawless(s) && Refers(w, k) && !Refers(Next(w, s), k) && s.CommitPurge?
    ensures k in Abandoned(Next(w, s))
  {
    assert Covers(w, s.read);
    assert ActOn(w, s, k.job) != Stay;
  }

  lemma TakenRowsNameNothing(w: World, s: Step, k: Key)
    requires RowsInv(w) && Enabled(w, s) && k.job in w.jobs && !ActOn(w, s, k.job).Move?
    ensures Refers(Next(w, s), k) <==> Refers(w, k)
  {
    assert RowInv(k.job, w.jobs[k.job]);
    StepsMoveRows(w, s, k.job);
  }

  lemma MovedRowGivesUp(w: World, s: Step, k: Key)
    requires RowsInv(w) && Apart(w) && Enabled(w, s) && Flawless(s) && Refers(w, k) && !Refers(Next(w, s), k)
    requires !s.CommitPurge? && ActOn(w, s, k.job).Move?
    ensures k in GivenUp(w, s)
  {
    var r := ActOn(w, s, k.job).report;
    assert RowInv(k.job, w.jobs[k.job]);
    StepsMoveRows(w, s, k.job);
    RecordedIsUploaded(w, s, k.job);
    NoPurgeByReport(w, s, k.job);
    DroppedIsWhatTheRowForgets(k.job, w.jobs[k.job], r);
  }

  lemma NoPurgeByReport(w: World, s: Step, id: JobId)
    requires Tagged(w) && Enabled(w, s) && id in w.jobs && !s.CommitPurge? && ActOn(w, s, id).Move?
    ensures var r := ActOn(w, s, id).report; !(r.FromServer? && r.act.PurgeRelease?)
  {
    if s.RecordUpload? { AtRecordsTheSame(w.uploads[s.key].report, s.now); }
  }

  lemma UploadIsNamedOrGivenUp(w: World, s: Step, k: Key)
    requires Tagged(w) && OldNames(w) && Enabled(w, s) && Flawless(s) && Stored(w, k) && !Stored(Next(w, s), k)
    ensures Refers(Next(w, s), k) || k in Abandoned(Next(w, s))
  {
    assert (s.RecordUpload? || s.RefuseUpload?) && s.key == k;
    if s.RecordUpload? && ActOn(w, s, k.job).Move? {
      AtRecordsTheSame(w.uploads[k].report, s.now);
      RecordedIsNamed(w.jobs[k.job], At(w.uploads[k].report, s.now));
    }
  }

  lemma RecordedIsNamed(j: Job, r: Report)
    requires Recorded(r).Some?
    ensures Recorded(r).value in RowKeys(Update(j, r))
  {
    assert Update(j, r).keys[RecordedColumn(r)] == Recorded(r).value;
  }

  lemma AccountedKept(w: World, s: Step)
    requires ConservedInv(w) && Enabled(w, s) && Flawless(s)
    ensures Accounted(Next(w, s))
  {
    var w' := Next(w, s);
    forall k | k in w'.objects ensures k in Abandoned(w') || Refers(w', k) || Stored(w', k) {
      ObjectsComeFrom(w, s, k);
      if k in w.objects && Refers(w, k) && !Refers(w', k) {
        ForgottenIsGivenUp(w, s, k);
      } else if k in w.objects && Stored(w, k) && !Stored(w', k) {
        UploadIsNamedOrGivenUp(w, s, k);
      }
    }
  }

  // ---- releases and purges know all that a row names ----

  lemma PointedKept(w: World, s: Step)
    requires ConservedInv(w) && Enabled(w, s)
    ensures Pointed(Next(w, s))
  {
    var w' := Next(w, s);
    forall id | id in w'.jobs && w'.jobs[id].release.Some? ensures PointsTo(w', w'.jobs[id], w'.jobs[id].release.value) {
      if ActOn(w, s, id).Move? {
        PointsAfterMove(w, s, id);
      } else {
        PointsAfterRest(w, s, id);
      }
    }
  }

  lemma PointsAfterRest(w: World, s: Step, id: JobId)
    requires RowsInv(w) && Served(w) && Pointed(w) && Enabled(w, s) && id in w.jobs && !ActOn(w, s, id).Move?
    requires Next(w, s).jobs[id].release.Some?
    ensures PointsTo(Next(w, s), Next(w, s).jobs[id], Next(w, s).jobs[id].release.value)
  {
    var j := w.jobs[id];
    RestingKeepsRelease(w, s, id);
    assert PointsTo(w, j, j.release.value);
    ReleaseStays(w, s, j.release.value);
  }

  lemma RestingKeepsRelease(w: World, s: Step, id: JobId)
    requires RowsInv(w) && Enabled(w, s) && id in w.jobs && !ActOn(w, s, id).Move? && Next(w, s).jobs[id].release.Some?
    ensures Next(w, s).jobs[id] == w.jobs[id]
  {
    assert RowInv(id, w.jobs[id]);
    StepsMoveRows(w, s, id);
  }

  lemma ReleaseStays(w: World, s: Step, r: ReleaseId)
    requires r in w.releases && r < w.nextRelease
    ensures (s.CommitPurge? && s.read.release == r && Applied(s.commit))
      || (r in Next(w, s).releases && Next(w, s).releases[r] == w.releases[r])
  {
  }

  lemma PointsAfterMove(w: World, s: Step, id: JobId)
    requires ConservedInv(w) && Enabled(w, s) && id in w.jobs && ActOn(w, s, id).Move?
    requires Next(w, s).jobs[id].release.Some?
    ensures PointsTo(Next(w, s), Next(w, s).jobs[id], Next(w, s).jobs[id].release.value)
  {
    var j, r := w.jobs[id], ActOn(w, s, id).report;
    assert RowInv(id, j);
    StepsMoveRows(w, s, id);
    ReleaseColumn(id, j, r);
    NoReleaseByUpload(w, s, id);
    if ReleaseOf(r).Some? {
      SignedIsReleased(id, j, r);
    } else {
      assert PointsTo(w, j, j.release.value);
      SignedKeyStays(id, j, r);
    }
  }

  lemma SignedIsReleased(id: JobId, j: Job, r: Report)
    requires RowInv(id, j) && Guard(id, j, r) && ReleaseOf(r).Some?
    ensures Signed in Update(j, r).keys ==> ReleaseOf(r).value.1 == Some(Update(j, r).keys[Signed])
  {
  }

  lemma SignedKeyStays(id: JobId, j: Job, r: Report)
    requires RowInv(id, j) && Guard(id, j, r) && j.release.Some?
    ensures Signed in Update(j, r).keys ==> Signed in j.keys && Update(j, r).keys[Signed] == j.keys[Signed]
  {
    TerminalRowsStay(id, j, r);
  }

  lemma ReadInFullKept(w: World, s: Step)
    requires ConservedInv(w) && Enabled(w, s)
    ensures ReadInFull(Next(w, s))
  {
    var w' := Next(w, s);
    forall p | p in w'.purges ensures Covers(w', p) {
      if p !in w.purges { PurgeReadCovers(w, s.release); }
      assert Covers(w, p);
      forall id | id in w'.jobs && w'.jobs[id].release == Some(p.release) ensures RowKeys(w'.jobs[id]) <= p.keys {
        PointedBefore(w, s, id, p.release);
      }
    }
  }

  lemma PointedBefore(w: World, s: Step, id: JobId, r: ReleaseId)
    requires ConservedInv(w) && Enabled(w, s) && id in Next(w, s).jobs && r < w.nextRelease
    requires Next(w, s).jobs[id].release == Some(r)
    ensures id in w.jobs && w.jobs[id].release == Some(r) && RowKeys(Next(w, s).jobs[id]) <= RowKeys(w.jobs[id])
  {
    assert RowInv(id, w.jobs[id]);
    StepsMoveRows(w, s, id);
    if ActOn(w, s, id).Move? {
      ReleaseColumn(id, w.jobs[id], ActOn(w, s, id).report);
      NoReleaseByUpload(w, s, id);
    }
    FinishedRowStays(w, s, id);
  }

  lemma PurgeReadCovers(w: World, r: ReleaseId)
    requires ConservedInv(w) && r in w.releases
    ensures Covers(w, PurgeRead(r, PurgeKeys(w, r)))
  {
    forall id, k | id in w.jobs && w.jobs[id].release == Some(r) && k in RowKeys(w.jobs[id]) ensures k in PurgeKeys(w, r) {
      var c :| c in w.jobs[id].keys && w.jobs[id].keys[c] == k;
      assert PointsTo(w, w.jobs[id], r);
    }
  }

  lemma ConservedKept(w: World, s: Step)
    requires ConservedInv(w) && Enabled(w, s) && Flawless(s)
    ensures ConservedInv(Next(w, s))
  {
    ObjectsInvKept(w, s);
    AccountedKept(w, s);
    PointedKept(w, s);
    ReadInFullKept(w, s);
  }

  lemma {:induction false} ConservedAlways(ss: seq<Step>)
    requires Runs(Initial(), ss) && forall s :: s in ss ==> Flawless(s)
    ensures ConservedInv(Exec(Initial(), ss))
  {
    if ss != [] {
      assert forall s :: s in ss[..|ss| - 1] ==> s in ss;
      ConservedAlways(ss[..|ss| - 1]);
      ConservedKept(Exec(Initial(), ss[..|ss| - 1]), ss[|ss| - 1]);
    }
  }

  /** In a flawless run the objects in storage that are not waiting for their deletion (or kept by
      a purge that was told to keep them) are exactly those that rows name and those that an
      upload in flight has stored. */
  lemma {:induction false} StorageIsExactlyWhatIsNamed(ss: seq<Step>, k: Key)
    requires Runs(Initial(), ss) && forall s :: s in ss ==> Flawless(s)
    ensures var w := Exec(Initial(), ss);
      (k in w.objects && k !in w.doomed && k !in w.kept) <==>
      ((k in w.uploads && w.uploads[k].stored) || exists id :: id in w.jobs && k in RowKeys(w.jobs[id]))
  {
    var w := Exec(Initial(), ss);
    ConservedAlways(ss);
    if !Refers(w, k) { NamedOnlyByItsRow(w, k); }
  }

  /** A claim that is refused at dispatch leaks nothing: the row it takes names nothing. */
  lemma {:induction false} RefusedClaimsLeakNothing(ss: seq<Step>, s: Step)
    requires Runs(Initial(), ss) && Enabled(Exec(Initial(), ss), s) && s.ClaimEnd?
    ensures var w, w' := Exec(Initial(), ss), Next(Exec(Initial(), ss), s);
      && w'.objects == w.objects && Abandoned(w') == Abandoned(w)
      && forall k :: Refers(w, k) <==> Refers(w', k)
  {
    var w := Exec(Initial(), ss);
    RowsInvAlways(ss);
    ClaimsGiveUpNothing(w, s);
    forall k ensures Refers(w, k) <==> Refers(Next(w, s), k) {
      if k.job in w.jobs { TakenRowsNameNothing(w, s, k); }
    }
  }
}

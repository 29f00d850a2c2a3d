/** Exactly-once completion of an iOS job: one release per job however often the report is sent,
    the same answer to the same report, and no replacement by another package. */
module IOSCompletion {
  import opened Wrappers
  import opened JobStates
  import opened BuildJobs
  import opened JobProgress
  import opened World
  import opened Deliveries

  // ---- the handler's answer ----

  datatype Answer =
    | Inserted(release: ReleaseId)
    | Again(release: ReleaseId)
    | ResultConflict
    | AttemptStale
    | NotDelivered
    | VersionNotIncreasing
    | KindMismatch

  /** This claim has completed the job, and its release is still there. */
  predicate CompletedBy(j: Job, m: Machine, attempt: nat) {
    j.status == Succeeded && j.release.Some? && j.attempt == attempt && j.machine == Some(m)
  }

  /** builderResultScope: this machine's claim is the job's, which is being built or has succeeded. */
  predicate InScope(j: Job, m: Machine, attempt: nat) {
    && (j.status in Starts(BuilderHeartbeat, j.spec.kind) || j.status == Succeeded)
    && j.attempt == attempt && j.machine == Some(m)
  }

  /** For a job whose package goes back to the tenant: this very package was delivered. */
  predicate HasDelivered(j: Job, file: Blob) {
    JobDelivery(j) == Some(Ipa) ==> Unsigned in j.files && j.files[Unsigned] == file
  }

  /** completeIOSBuildJob: its checks on the row as it was read, and then on the locked row. */
  function Answers(read: Job, w: World, id: JobId, m: Machine, attempt: nat, file: Blob): Answer
    requires id in w.jobs
  {
    var j := w.jobs[id];
    if !InScope(read, m, attempt) then AttemptStale
    else if !IOSPackage(read) then KindMismatch
    else if !HasDelivered(read, file) then NotDelivered
    else if CompletedBy(j, m, attempt) && j.artifact == Some(file.digest) then Again(j.release.value)
    else if CompletedBy(j, m, attempt) then ResultConflict
    else if j.status !in Starts(BuilderIOSRelease, Apk) || j.attempt != attempt || j.machine != Some(m) then AttemptStale
    else if JobDelivery(read) == Some(Ipa) && !(Unsigned in j.files && j.files[Unsigned] == file) then NotDelivered
    else if !Increasing(w, j.spec.tenant, j.spec.platform, j.spec.version, j.spec.build) then VersionNotIncreasing
    else Inserted(w.nextRelease)
  }

  /** A report changes the world only if the answer is that its release was inserted, and if the row
      is as it was read, whenever the system has that step. */
  lemma InsertedIsTheOnlyStep(read: Job, w: World, id: JobId, m: Machine, attempt: nat, file: Blob, now: Time, commit: Commit)
    requires RowsInv(w) && id in w.jobs && read.spec == w.jobs[id].spec
    ensures var step := Apply(id, FromBuilder(m, attempt, now, CompleteIOS(file, w.nextRelease)), commit);
      && (Answers(read, w, id, m, attempt, file) == Inserted(w.nextRelease) ==> Enabled(w, step))
      && (Enabled(w, step) && read == w.jobs[id] ==> Answers(read, w, id, m, attempt, file) == Inserted(w.nextRelease))
  {
    var r := FromBuilder(m, attempt, now, CompleteIOS(file, w.nextRelease));
    if Guard(id, w.jobs[id], r) {
      assert Building(w.jobs[id]);
    }
    LockedIsQueued(w, id);
  }

  // ---- the invariant ----

  ghost predicate CompletionInv(w: World) { ObjectsInv(w) && Once(w) && Backed(w) && Complete(w) }

  predicate Once(w: World) {
    forall i, j :: 0 <= i < j < |w.completions| ==>
      w.completions[i].job != w.completions[j].job && w.completions[i].release != w.completions[j].release
  }

  /** The row keeps what its completion recorded; the release may have been purged since. */
  predicate BackedBy(w: World, c: Completion) {
    && c.job in w.jobs && c.release < w.nextRelease
    && var j := w.jobs[c.job];
    && Carries(j, c)
    && (j.release == Some(c.release) || (j.release == None && c.release !in w.releases))
  }

  predicate Carries(j: Job, c: Completion) {
    && IOSPackage(j) && j.status == Succeeded && j.attempt == c.attempt && j.machine == Some(c.machine)
    && j.artifact == Some(c.digest)
    && (JobDelivery(j) == Some(Ipa) ==> Unsigned in j.files && j.files[Unsigned].digest == c.digest)
  }

  predicate Backed(w: World) { forall i :: 0 <= i < |w.completions| ==> BackedBy(w, w.completions[i]) }

  predicate HasCompletion(w: World, id: JobId) { exists i :: 0 <= i < |w.completions| && w.completions[i].job == id }

  predicate Complete(w: World) {
    forall id :: id in w.jobs && IOSPackage(w.jobs[id]) && w.jobs[id].status == Succeeded ==> HasCompletion(w, id)
  }

  // ---- every step keeps it ----

  lemma BackedStays(w: World, s: Step, c: Completion)
    requires CompletionInv(w) && Enabled(w, s) && BackedBy(w, c)
    ensures BackedBy(Next(w, s), c)
  {
    StepsMoveRows(w, s, c.job);
    CarriedOn(c.job, w.jobs[c.job], ActOn(w, s, c.job), c);
    ReleaseOrPurged(w, s, c);
  }

  lemma CarriedOn(id: JobId, j: Job, a: RowAct, c: Completion)
    requires Allowed(id, j, a) && Carries(j, c)
    ensures Carries(After(j, a), c)
  {
    if a.Move? { TerminalRowsStay(id, j, a.report); }
  }

  lemma ReleaseOrPurged(w: World, s: Step, c: Completion)
    requires CompletionInv(w) && Enabled(w, s) && BackedBy(w, c)
    ensures var j' := Next(w, s).jobs[c.job];
      j'.release == Some(c.release) || (j'.release == None && c.release !in Next(w, s).releases)
  {
    StepsMoveRows(w, s, c.job);
    FinishedRelease(c.job, w.jobs[c.job], ActOn(w, s, c.job));
    OldIdsStayGone(w, s, c.release);
    if ActOn(w, s, c.job).Move? { PurgeReportsArePurges(w, s, c.job); }
  }

  lemma OldIdsStayGone(w: World, s: Step, r: ReleaseId)
    requires r < w.nextRelease
    ensures r !in w.releases ==> r !in Next(w, s).releases
    ensures s.CommitPurge? && Applied(s.commit) ==> s.read.release !in Next(w, s).releases
  {
  }

  predicate Completing(s: Step) {
    s.Apply? && s.report.FromBuilder? && s.report.did.CompleteIOS? && Applied(s.commit)
  }

  function CompletionOf(s: Step): Completion
    requires Completing(s)
  {
    Completion(s.id, s.report.attempt, s.report.machine, s.report.did.file.digest, s.report.did.release)
  }

  lemma CompletionsGrow(w: World, s: Step)
    ensures Next(w, s).completions == if Completing(s) then w.completions + [CompletionOf(s)] else w.completions
  {
  }

  lemma CompletingRow(w: World, s: Step)
    requires Enabled(w, s) && Completing(s)
    ensures s.id in w.jobs && Building(w.jobs[s.id]) && IOSPackage(w.jobs[s.id])
  {
  }

  lemma CompletedRowCarries(id: JobId, j: Job, r: Report)
    requires Guard(id, j, r) && r.FromBuilder? && r.did.CompleteIOS?
    ensures Carries(Update(j, r), Completion(id, r.attempt, r.machine, r.did.file.digest, r.did.release))
    ensures Update(j, r).release == Some(r.did.release)
  {
  }

  lemma CompletedJobsSucceeded(w: World, id: JobId)
    requires Backed(w)
    ensures HasCompletion(w, id) ==> id in w.jobs && w.jobs[id].status == Succeeded
  {
    if HasCompletion(w, id) {
      var i :| 0 <= i < |w.completions| && w.completions[i].job == id;
      assert BackedBy(w, w.completions[i]);
    }
  }

  /** A completion is recorded by a row that was still building, so it had none before. */
  lemma NewCompletionIsBacked(w: World, s: Step)
    requires Backed(w) && Enabled(w, s) && Completing(s)
    ensures BackedBy(Next(w, s), CompletionOf(s)) && !HasCompletion(w, s.id)
  {
    CompletingRow(w, s);
    CompletedJobsSucceeded(w, s.id);
    CompletedRowCarries(s.id, w.jobs[s.id], s.report);
    assert Next(w, s).jobs[s.id] == Update(w.jobs[s.id], s.report);
  }

  lemma BackedKept(w: World, s: Step)
    requires CompletionInv(w) && Enabled(w, s)
    ensures Backed(Next(w, s))
  {
    CompletionsGrow(w, s);
    if Completing(s) { NewCompletionIsBacked(w, s); }
    forall i | 0 <= i < |w.completions| ensures BackedBy(Next(w, s), w.completions[i]) {
      assert BackedBy(w, w.completions[i]);
      BackedStays(w, s, w.completions[i]);
    }
  }

  lemma OnceKept(w: World, s: Step)
    requires Once(w) && Backed(w) && Enabled(w, s)
    ensures Once(Next(w, s))
  {
    CompletionsGrow(w, s);
    if Completing(s) {
      CompletingRow(w, s);
      CompletedJobsSucceeded(w, s.id);
      NewReleaseIsNew(w, s);
    }
  }

  lemma NewReleaseIsNew(w: World, s: Step)
    requires Backed(w) && Enabled(w, s) && Completing(s)
    ensures forall i :: 0 <= i < |w.completions| ==> w.completions[i].release < CompletionOf(s).release
  {
    forall i | 0 <= i < |w.completions| ensures w.completions[i].release < CompletionOf(s).release {
      assert BackedBy(w, w.completions[i]);
    }
  }

  /** The only way for an iOS package to succeed is a completion. */
  lemma SuccessIsCompletion(w: World, s: Step, id: JobId)
    requires RowsInv(w) && Enabled(w, s) && id in Next(w, s).jobs
    requires IOSPackage(Next(w, s).jobs[id]) && Next(w, s).jobs[id].status == Succeeded
    ensures id in w.jobs && IOSPackage(w.jobs[id])
    ensures w.jobs[id].status == Succeeded || (Completing(s) && s.id == id)
  {
    StepsMoveRows(w, s, id);
    assert RowInv(id, w.jobs[id]);
    if ActOn(w, s, id).Move? {
      IOSSucceedsByCompletion(id, w.jobs[id], ActOn(w, s, id).report);
      CompletionsAreApplied(w, s, id);
    }
  }

  lemma CompletionsAreApplied(w: World, s: Step, id: JobId)
    requires Tagged(w) && Enabled(w, s) && id in w.jobs && ActOn(w, s, id).Move?
    ensures var r := ActOn(w, s, id).report; r.FromBuilder? && r.did.CompleteIOS? ==> Completing(s) && s.id == id
  {
    if s.RecordUpload? { AtRecordsTheSame(w.uploads[s.key].report, s.now); }
  }

  lemma IOSSucceedsByCompletion(id: JobId, j: Job, r: Report)
    requires RowInv(id, j) && Guard(id, j, r) && Update(j, r).status == Succeeded && IOSPackage(Update(j, r))
    ensures IOSPackage(j) && (j.status == Succeeded || (r.FromBuilder? && r.did.CompleteIOS?))
  {
    SuccessNeedsAnArtifact(j, r);
  }

  lemma SuccessNeedsAnArtifact(j: Job, r: Report)
    requires Update(j, r).status == Succeeded
    ensures j.status == Succeeded || (r.FromBuilder? && (r.did.CompleteIOS? || r.did.CompleteOTA?))
      || (r.FromSigner? && r.signed.Complete?)
    ensures Update(j, r).spec == j.spec
  {
  }

  lemma CompleteKept(w: World, s: Step)
    requires RowsInv(w) && Complete(w) && Enabled(w, s)
    ensures Complete(Next(w, s))
  {
    var w' := Next(w, s);
    forall id | id in w'.jobs && IOSPackage(w'.jobs[id]) && w'.jobs[id].status == Succeeded ensures HasCompletion(w', id) {
      SuccessIsCompletion(w, s, id);
      CompletionsStay(w, s, id);
    }
  }

  lemma CompletionsStay(w: World, s: Step, id: JobId)
    ensures HasCompletion(w, id) || (Completing(s) && s.id == id) ==> HasCompletion(Next(w, s), id)
  {
    CompletionsGrow(w, s);
    var after := Next(w, s).completions;
    if HasCompletion(w, id) {
      var i :| 0 <= i < |w.completions| && w.completions[i].job == id;
      assert after[i].job == id;
    } else if Completing(s) && s.id == id {
      assert after[|w.completions|].job == id;
    }
  }

  lemma CompletionInvKept(w: World, s: Step)
    requires CompletionInv(w) && Enabled(w, s)
    ensures CompletionInv(Next(w, s))
  {
    ObjectsInvKept(w, s);
    BackedKept(w, s);
    OnceKept(w, s);
    CompleteKept(w, s);
  }

  lemma {:induction false} CompletionAlways(ss: seq<Step>)
    requires Runs(Initial(), ss)
    ensures CompletionInv(Exec(Initial(), ss))
  {
    if ss != [] {
      CompletionAlways(ss[..|ss| - 1]);
      CompletionInvKept(Exec(Initial(), ss[..|ss| - 1]), ss[|ss| - 1]);
    }
  }

  // ---- main results ----

  /** However reports are repeated and answers lost: a job inserts at most one release, two jobs
      never the same one, and an iOS package has succeeded exactly when it inserted one. It never
      waits for or sits at the signer. */
  lemma {:induction false} ExactlyOneRelease(ss: seq<Step>, id: JobId)
    requires Runs(Initial(), ss) && id in Exec(Initial(), ss).jobs
    ensures var w := Exec(Initial(), ss);
      && (forall i, j :: 0 <= i < j < |w.completions| ==>
            w.completions[i].job != w.completions[j].job && w.completions[i].release != w.completions[j].release)
      && (HasCompletion(w, id) <==> IOSPackage(w.jobs[id]) && w.jobs[id].status == Succeeded)
      && (w.jobs[id].spec.platform == IOS ==> !AtSigner(w.jobs[id]))
  {
    var w := Exec(Initial(), ss);
    CompletionAlways(ss);
    assert RowInv(id, w.jobs[id]);
    if HasCompletion(w, id) {
      var i :| 0 <= i < |w.completions| && w.completions[i].job == id;
      assert BackedBy(w, w.completions[i]);
    }
  }

  /** What a report on a completed job is answered, if its row was read at any moment since and is
      locked now. Another claim is stale. Where the package goes back to the tenant, any but the one
      that was delivered is refused as not delivered. Then, for as long as the release is not purged,
      the same package gets the same release and any other a conflict; after that everything is
      stale. None of these answers is a step, so nothing changes. */
  lemma RepeatedReports(ss: seq<Step>, more: seq<Step>, i: nat, m: Machine, attempt: nat, file: Blob)
    requires Runs(Initial(), ss + more) && i < |Exec(Initial(), ss).completions|
    ensures var w, c := Exec(Initial(), ss + more), Exec(Initial(), ss).completions[i];
      && c.job in Exec(Initial(), ss).jobs && c.job in w.jobs
      && var read := Exec(Initial(), ss).jobs[c.job];
      && Answers(read, w, c.job, m, attempt, file) ==
          (if m != c.machine || attempt != c.attempt then AttemptStale
           else if !HasDelivered(read, file) then NotDelivered
           else if w.jobs[c.job].release.None? then AttemptStale
           else if file.digest == c.digest then Again(c.release)
           else ResultConflict)
      && (JobDelivery(read) == Some(Ipa) && HasDelivered(read, file) ==> file.digest == c.digest)
  {
    var w, c := Exec(Initial(), ss + more), Exec(Initial(), ss).completions[i];
    assert (ss + more)[..|ss|] == ss;
    RunsBefore(ss + more, |ss|);
    CompletionAlways(ss);
    CompletionAlways(ss + more);
    CompletionsSince(ss + more, |ss|);
    assert w.completions[i] == c;
    assert BackedBy(Exec(Initial(), ss), c) && BackedBy(w, w.completions[i]);
    RepeatedReport(Exec(Initial(), ss), w, c, m, attempt, file);
  }

  lemma RepeatedReport(read: World, w: World, c: Completion, m: Machine, attempt: nat, file: Blob)
    requires BackedBy(read, c) && BackedBy(w, c)
    ensures var row := read.jobs[c.job];
      && Answers(row, w, c.job, m, attempt, file) ==
          (if m != c.machine || attempt != c.attempt then AttemptStale
           else if !HasDelivered(row, file) then NotDelivered
           else if w.jobs[c.job].release.None? then AttemptStale
           else if file.digest == c.digest then Again(c.release)
           else ResultConflict)
      && (JobDelivery(row) == Some(Ipa) && HasDelivered(row, file) ==> file.digest == c.digest)
  {
    NoEventStartsAtTheEnd(BuilderIOSRelease, Apk, w.jobs[c.job].status);
  }

  lemma {:induction false} RunsBefore(ss: seq<Step>, k: nat)
    requires k <= |ss| && Runs(Initial(), ss)
    ensures Runs(Initial(), ss[..k])
  {
    if k == |ss| {
      assert ss[..k] == ss;
    } else {
      assert ss[..|ss| - 1][..k] == ss[..k];
      RunsBefore(ss[..|ss| - 1], k);
    }
  }

  /** What has been recorded stays recorded: later steps only append. */
  lemma {:induction false} CompletionsOnlyGrow(ss: seq<Step>, more: seq<Step>)
    ensures Exec(Initial(), ss).completions <= Exec(Initial(), ss + more).completions
  {
    assert (ss + more)[..|ss|] == ss;
    CompletionsSince(ss + more, |ss|);
  }

  lemma {:induction false} CompletionsSince(ss: seq<Step>, k: nat)
    requires k <= |ss|
    ensures Exec(Initial(), ss[..k]).completions <= Exec(Initial(), ss).completions
  {
    if k == |ss| {
      assert ss[..k] == ss;
    } else {
      assert ss[..|ss| - 1][..k] == ss[..k];
      CompletionsSince(ss[..|ss| - 1], k);
      CompletionsGrow(Exec(Initial(), ss[..|ss| - 1]), ss[|ss| - 1]);
    }
  }
}

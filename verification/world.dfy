/** The whole protocol as one transition system: rows, stored objects, uploads in flight, claims
    in flight, releases. A database transaction is one step, except that a claim is split into
    its snapshot, its row lock and its commit, an upload into its check, its storing and its
    recording, and every deletion of an object is a step after the commit that gave it up. */
module World {
  import opened Wrappers
  import opened JobStates
  import opened BuildJobs
  import BuildFloor

  /** An upload handler between its first check and its last statement. */
  datatype Upload = Upload(report: Report, stored: bool)

  /** Who was given a claim, and how many object names had been made by then. */
  datatype Issue = Issue(machine: Machine, nonce: nat)

  datatype Release = Release(tenant: Tenant, platform: Platform, version: Version, build: nat, served: Option<Key>)

  /** One iOS job completed by one insertion of a release. */
  datatype Completion = Completion(job: JobId, attempt: nat, machine: Machine, digest: Digest, release: ReleaseId)

  /** A claim in flight: what its subqueries see, the jobs its material and delivery conditions
      let through, and the row it holds locked. */
  datatype ClaimTx = ClaimTx(snapshot: map<JobId, Job>, serves: set<JobId>, picked: Option<JobId>)

  /** What purging a release read before its transaction. */
  datatype PurgeRead = PurgeRead(release: ReleaseId, keys: set<Key>)

  datatype World = World(
    jobs: map<JobId, Job>, claims: map<Machine, ClaimTx>, issued: map<(JobId, nat), Issue>,
    objects: map<Key, Blob>, uploads: map<Key, Upload>, doomed: set<Key>, kept: set<Key>, nonce: nat,
    releases: map<ReleaseId, Release>, completions: seq<Completion>, nextRelease: ReleaseId, purges: set<PurgeRead>)

  /** How a transaction ended: acknowledged, or reported as an error although the database did,
      or did not, apply it. */
  datatype Commit = Acked | LostApplied | LostRolledBack

  datatype Verdict = Grant | Refuse | Leave

  datatype Step =
    | Queue(id: JobId, spec: Spec, jobRows: set<JobId>, releaseRows: set<ReleaseId>)
    | ClaimBegin(machine: Machine, serves: set<JobId>)
    | ClaimPick(machine: Machine, id: JobId)
    | ClaimEnd(machine: Machine, now: Time, verdict: Verdict, commit: Commit)
    | Apply(id: JobId, report: Report, commit: Commit)
    | BeginUpload(id: JobId, report: Report)
    | PutObject(key: Key, failed: bool)
    | DropUpload(key: Key)
    | RefuseUpload(key: Key)
    | RecordUpload(key: Key, now: Time, commit: Commit)
    | DeleteObject(key: Key, failed: bool)
    | ReadPurge(release: ReleaseId)
    | CommitPurge(read: PurgeRead, keep: bool, commit: Commit)
    | ManualRelease(made: Release)

  function Initial(): World {
    World(map[], map[], map[], map[], map[], {}, {}, 0, map[], [], 0, {})
  }

  // ---- queueing ----

  /** The row that createBuildJob or the OTA variant inserts. */
  function NewRow(spec: Spec): (j: Job)
    ensures FreshRow(j)
  {
    Job(spec, Queued, 0, None, None, None, map[], map[], None, 0, 0, None, 0, None, None)
  }

  /** In flight or succeeded: the jobs whose numbers are taken. */
  predicate Alive(j: Job) { j.status in IN_FLIGHT || j.status == Succeeded }

  predicate Above(spec: Spec, version: Version, build: nat) { build < spec.build && version.Below(spec.version) }

  /** The numbers of a job or of a release. */
  datatype Taken = Taken(version: Version, build: nat)

  /** What the two halves of buildFloorFor's query select from. */
  function JobTable(w: World, spec: Spec): map<JobId, Taken> {
    map id | id in w.jobs && SameSeries(w.jobs[id].spec, spec) && Alive(w.jobs[id]) ::
      Taken(w.jobs[id].spec.version, w.jobs[id].spec.build)
  }

  function ReleaseTable(w: World, spec: Spec): map<ReleaseId, Taken> {
    map r | r in w.releases && OfSeries(w.releases[r], spec.tenant, spec.platform) ::
      Taken(w.releases[r].version, w.releases[r].build)
  }

  /** ORDER BY build_number DESC LIMIT 50: rows with the same build number come in any order. */
  predicate Newest(table: map<nat, Taken>, rows: set<nat>) {
    && rows <= table.Keys && |rows| == (if |table.Keys| < BuildFloor.LIMIT then |table.Keys| else BuildFloor.LIMIT)
    && forall a, b :: a in rows && b in table && b !in rows ==> table[b].build <= table[a].build
  }

  predicate AboveRows(spec: Spec, table: map<nat, Taken>, rows: set<nat>) {
    forall k :: k in rows && k in table ==> Above(spec, table[k].version, table[k].build)
  }

  /** What createBuildJob checks: the numbers exceed those of the rows that its query returned, and
      no living package job has the build number (a unique index). */
  predicate PassesFloor(w: World, spec: Spec, jobRows: set<JobId>, releaseRows: set<ReleaseId>) {
    && Newest(JobTable(w, spec), jobRows) && AboveRows(spec, JobTable(w, spec), jobRows)
    && Newest(ReleaseTable(w, spec), releaseRows) && AboveRows(spec, ReleaseTable(w, spec), releaseRows)
    && spec.build >= 1
    && forall id :: id in JobTable(w, spec) && w.jobs[id].spec.kind == Apk ==> w.jobs[id].spec.build != spec.build
  }

  /** What that check is there for: no release and no living job of the tenant and platform has this
      version or build number, or a higher one. */
  predicate AboveFloor(w: World, spec: Spec) {
    AboveRows(spec, JobTable(w, spec), JobTable(w, spec).Keys)
    && AboveRows(spec, ReleaseTable(w, spec), ReleaseTable(w, spec).Keys)
  }

  /** createOTABuildJob: an Android release gives the numbers, and no other OTA job of the series is
      queued or building. */
  predicate CopiesRelease(w: World, spec: Spec) {
    && spec.platform == Android
    && (exists r :: r in w.releases && OfSeries(w.releases[r], spec.tenant, spec.platform)
          && w.releases[r].version == spec.version && w.releases[r].build == spec.build)
    && forall id :: id in w.jobs && SameSeries(w.jobs[id].spec, spec) && w.jobs[id].spec.kind == Ota ==>
         w.jobs[id].status !in {Queued, Claimed, Running}
  }

  predicate SameSeries(a: Spec, b: Spec) { a.tenant == b.tenant && a.platform == b.platform }

  predicate OfSeries(r: Release, tenant: Tenant, platform: Platform) { r.tenant == tenant && r.platform == platform }

  // ---- claiming ----

  /** Queue order: by created_at, then by id. */
  predicate Before(a: JobId, ja: Job, b: JobId, jb: Job) {
    ja.spec.createdAt < jb.spec.createdAt || (ja.spec.createdAt == jb.spec.createdAt && a < b)
  }

  predicate ActiveSibling(snapshot: map<JobId, Job>, j: Job) {
    exists o :: o in snapshot && SameSeries(snapshot[o].spec, j.spec) && snapshot[o].spec.kind == Apk && Building(snapshot[o])
  }

  predicate EarlierQueued(snapshot: map<JobId, Job>, id: JobId, j: Job) {
    exists e :: e in snapshot && SameSeries(snapshot[e].spec, j.spec) && snapshot[e].spec.kind == Apk
      && snapshot[e].status == Queued && Before(e, snapshot[e], id, j)
  }

  predicate Locked(w: World, id: JobId) { exists m :: m in w.claims && w.claims[m].picked == Some(id) }

  /** A row that the claim's query may return. The row itself is read as it is now; the two
      subqueries see the snapshot; rows that another claim holds are skipped. */
  predicate Choosable(w: World, tx: ClaimTx, id: JobId) {
    && id in w.jobs && w.jobs[id].status == Queued && id in tx.serves && !Locked(w, id)
    && (w.jobs[id].spec.platform == IOS ==>
          && !ActiveSibling(tx.snapshot, w.jobs[id])
          && (w.jobs[id].spec.kind == Apk ==> !EarlierQueued(tx.snapshot, id, w.jobs[id])))
  }

  /** ORDER BY created_at LIMIT 1. */
  ghost predicate Chosen(w: World, tx: ClaimTx, id: JobId) {
    Choosable(w, tx, id)
    && forall o :: Choosable(w, tx, o) ==> w.jobs[id].spec.createdAt <= w.jobs[o].spec.createdAt
  }

  predicate HasActiveJob(w: World, m: Machine) {
    exists id :: id in w.jobs && Building(w.jobs[id]) && w.jobs[id].machine == Some(m)
  }

  // ---- releases ----

  predicate Latest(w: World, r: ReleaseId) {
    r in w.releases && forall o :: o in w.releases && OfSeries(w.releases[o], w.releases[r].tenant, w.releases[r].platform) ==>
      w.releases[o].build <= w.releases[r].build
  }

  /** What inserting a release demands of the latest one: a greater build number and version. */
  predicate Increasing(w: World, tenant: Tenant, platform: Platform, version: Version, build: nat) {
    forall r :: r in w.releases && Latest(w, r) && OfSeries(w.releases[r], tenant, platform) ==>
      w.releases[r].build < build && w.releases[r].version.Below(version)
  }

  /** A build of the series waits for the signer or is being signed. */
  predicate SigningInFlight(w: World, r: Release) {
    exists id :: id in w.jobs && OfSeries(r, w.jobs[id].spec.tenant, w.jobs[id].spec.platform) && AtSigner(w.jobs[id])
  }

  /** The release that a report inserts, with the object that it serves. */
  function ReleaseOf(r: Report): Option<(ReleaseId, Option<Key>)> {
    match r
    case FromBuilder(_, _, _, CompleteIOS(_, release)) => Some((release, None))
    case FromSigner(_, _, _, Complete(key, _, release)) => Some((release, Some(key)))
    case _ => None
  }

  predicate MayRelease(w: World, spec: Spec, r: Report) {
    ReleaseOf(r).Some? ==>
      ReleaseOf(r).value.0 == w.nextRelease && Increasing(w, spec.tenant, spec.platform, spec.version, spec.build)
  }

  // ---- the rows ----

  /** What a step does to one row. */
  datatype RowAct = Stay | Move(report: Report) | Take(machine: Machine, now: Time, granted: bool)

  predicate Applied(c: Commit) { c != LostRolledBack }

  /** The report of an upload at the moment it is recorded. */
  function At(r: Report, now: Time): Report {
    match r
    case FromBuilder(m, a, _, did) => FromBuilder(m, a, now, did)
    case FromSigner(m, a, _, did) => FromSigner(m, a, now, did)
    case FromServer(_) => r
  }

  function ActOn(w: World, s: Step, id: JobId): RowAct
    requires id in w.jobs
  {
    match s
    case ClaimEnd(m, now, verdict, commit) =>
      if m in w.claims && w.claims[m].picked == Some(id) && verdict != Leave && Applied(commit)
      then Take(m, now, verdict == Grant) else Stay
    case Apply(job, r, commit) => if job == id && Applied(commit) then Move(r) else Stay
    case RecordUpload(key, now, commit) =>
      if key.job == id && key in w.uploads && Guard(id, w.jobs[id], At(w.uploads[key].report, now)) && Applied(commit)
      then Move(At(w.uploads[key].report, now)) else Stay
    case CommitPurge(read, _, commit) =>
      if w.jobs[id].release == Some(read.release) && Applied(commit)
      then Move(FromServer(PurgeRelease(read.release))) else Stay
    case _ => Stay
  }

  predicate Allowed(id: JobId, j: Job, a: RowAct) {
    match a
    case Stay => true
    case Move(r) => Guard(id, j, r) && (Recorded(r).Some? ==> Recorded(r).value.job == id)
    case Take(_, _, _) => j.status == Queued
  }

  function After(j: Job, a: RowAct): Job {
    match a
    case Stay => j
    case Move(r) => Update(j, r)
    case Take(m, now, granted) => ClaimRow(j, m, now, granted)
  }

  function JobsAfter(w: World, s: Step): map<JobId, Job> {
    var moved := map id | id in w.jobs :: After(w.jobs[id], ActOn(w, s, id));
    if s.Queue? then moved[s.id := NewRow(s.spec)] else moved
  }

  // ---- the steps ----

  predicate Free(w: World, id: JobId) { id in w.jobs && !Locked(w, id) }

  ghost predicate Enabled(w: World, s: Step) {
    match s
    case Queue(id, spec, jobRows, releaseRows) =>
      id !in w.jobs && if spec.kind == Apk then PassesFloor(w, spec, jobRows, releaseRows) else CopiesRelease(w, spec)
    case ClaimBegin(m, _) => m !in w.claims && !HasActiveJob(w, m)
    case ClaimPick(m, id) => m in w.claims && w.claims[m].picked.None? && Chosen(w, w.claims[m], id)
    case ClaimEnd(m, _, verdict, _) => m in w.claims && (verdict != Leave ==> w.claims[m].picked.Some?)
    case Apply(id, r, _) =>
      && Free(w, id) && Guard(id, w.jobs[id], r) && Recorded(r).None? && MayRelease(w, w.jobs[id].spec, r)
      && !(r.FromServer? && r.act.PurgeRelease?)
    case BeginUpload(id, r) =>
      && id in w.jobs && Guard(id, w.jobs[id], r)
      && Recorded(r).Some? && Recorded(r).value.job == id && Recorded(r).value.nonce == w.nonce
    case PutObject(key, _) => key in w.uploads && !w.uploads[key].stored
    case DropUpload(key) => key in w.uploads
    case RefuseUpload(key) => key in w.uploads && w.uploads[key].stored
    case RecordUpload(key, _, _) => key in w.uploads && w.uploads[key].stored && Free(w, key.job)
    case DeleteObject(key, _) => key in w.doomed
    case ReadPurge(release) => release in w.releases
    case CommitPurge(read, _, _) => read in w.purges
    case ManualRelease(r) =>
      && r.served.None? && Increasing(w, r.tenant, r.platform, r.version, r.build)
      && (r.platform == Android ==> !SigningInFlight(w, r))
  }

  function FileOf(r: Report): Blob
    requires Recorded(r).Some?
  {
    match r
    case FromBuilder(_, _, _, Deliver(_, file)) => file
    case FromSigner(_, _, _, DeliverSigned(_, file)) => file
  }

  /** The keys that purging a release deletes: its own object and the builder's deliveries. */
  function PurgeKeys(w: World, release: ReleaseId): set<Key>
    requires release in w.releases
  {
    (if w.releases[release].served.Some? then {w.releases[release].served.value} else {})
    + set id, c | id in w.jobs && w.jobs[id].release == Some(release) && c in w.jobs[id].keys && c in BUILD_DELIVERY
        :: w.jobs[id].keys[c]
  }

  /** What a claim, a report or a recorded upload gives up; deleted only when the commit was
      acknowledged. An upload that came too late gives up its own object. */
  function GivenUp(w: World, s: Step): set<Key> {
    match s
    case ClaimEnd(m, _, verdict, Acked) =>
      if m in w.claims && w.claims[m].picked.Some? && w.claims[m].picked.value in w.jobs && verdict != Leave
      then Pick(w.jobs[w.claims[m].picked.value], BUILD_DELIVERY) else {}
    case Apply(id, r, Acked) => if id in w.jobs then Dropped(w.jobs[id], r) else {}
    case RecordUpload(key, now, Acked) =>
      if key.job in w.jobs && ActOn(w, s, key.job).Move? then Dropped(w.jobs[key.job], ActOn(w, s, key.job).report)
      else {key}
    case RefuseUpload(key) => {key}
    case CommitPurge(read, false, Acked) => read.keys
    case _ => {}
  }

  function Next(w: World, s: Step): World {
    World(JobsAfter(w, s), ClaimsAfter(w, s), IssuedAfter(w, s), ObjectsAfter(w, s), UploadsAfter(w, s),
          DoomedAfter(w, s), KeptAfter(w, s), if s.BeginUpload? then w.nonce + 1 else w.nonce,
          ReleasesAfter(w, s), CompletionsAfter(w, s), if Inserts(s) then w.nextRelease + 1 else w.nextRelease,
          PurgesAfter(w, s))
  }

  function ObjectsAfter(w: World, s: Step): map<Key, Blob> {
    match s
    case PutObject(key, _) =>
      if key in w.uploads && Recorded(w.uploads[key].report).Some?
      then w.objects[key := FileOf(w.uploads[key].report)] else w.objects
    case DeleteObject(key, false) => w.objects - {key}
    case _ => w.objects
  }

  function UploadsAfter(w: World, s: Step): map<Key, Upload> {
    match s
    case BeginUpload(_, r) => if Recorded(r).Some? then w.uploads[Recorded(r).value := Upload(r, false)] else w.uploads
    case PutObject(key, false) => if key in w.uploads then w.uploads[key := w.uploads[key].(stored := true)] else w.uploads
    case PutObject(key, true) => w.uploads - {key}
    case DropUpload(key) => w.uploads - {key}
    case RefuseUpload(key) => w.uploads - {key}
    case RecordUpload(key, _, _) => w.uploads - {key}
    case _ => w.uploads
  }

  function DoomedAfter(w: World, s: Step): set<Key> {
    match s
    case DeleteObject(key, _) => w.doomed - {key}
    case _ => w.doomed + GivenUp(w, s)
  }

  /** What a purge was asked to keep. */
  function KeptAfter(w: World, s: Step): set<Key> {
    match s
    case CommitPurge(read, true, commit) => if Applied(commit) then w.kept + read.keys else w.kept
    case _ => w.kept
  }

  /** The step inserts a release. */
  predicate Inserts(s: Step) {
    s.ManualRelease? || (s.Apply? && ReleaseOf(s.report).Some? && Applied(s.commit))
  }

  function ReleasesAfter(w: World, s: Step): map<ReleaseId, Release> {
    match s
    case Apply(id, r, _) =>
      if Inserts(s) && id in w.jobs then
        var spec := w.jobs[id].spec;
        w.releases[w.nextRelease :=
          Release(spec.tenant, spec.platform, spec.version, spec.build, ReleaseOf(r).value.1)]
      else w.releases
    case ManualRelease(made) => w.releases[w.nextRelease := made]
    case CommitPurge(read, _, commit) => if Applied(commit) then w.releases - {read.release} else w.releases
    case _ => w.releases
  }

  function CompletionsAfter(w: World, s: Step): seq<Completion> {
    match s
    case Apply(id, FromBuilder(m, a, _, CompleteIOS(file, release)), commit) =>
      if Applied(commit) then w.completions + [Completion(id, a, m, file.digest, release)] else w.completions
    case _ => w.completions
  }

  function ClaimsAfter(w: World, s: Step): map<Machine, ClaimTx> {
    match s
    case ClaimBegin(m, serves) => w.claims[m := ClaimTx(w.jobs, serves, None)]
    case ClaimPick(m, id) => if m in w.claims then w.claims[m := w.claims[m].(picked := Some(id))] else w.claims
    case ClaimEnd(m, _, _, _) => w.claims - {m}
    case _ => w.claims
  }

  function IssuedAfter(w: World, s: Step): map<(JobId, nat), Issue> {
    match s
    case ClaimEnd(m, _, verdict, commit) =>
      if m in w.claims && w.claims[m].picked.Some? && w.claims[m].picked.value in w.jobs && verdict != Leave && Applied(commit)
      then var id := w.claims[m].picked.value; w.issued[(id, w.jobs[id].attempt + 1) := Issue(m, w.nonce)]
      else w.issued
    case _ => w.issued
  }

  function PurgesAfter(w: World, s: Step): set<PurgeRead> {
    match s
    case ReadPurge(release) =>
      if release in w.releases then w.purges + {PurgeRead(release, PurgeKeys(w, release))} else w.purges
    case CommitPurge(read, _, _) => w.purges - {read}
    case _ => w.purges
  }

  // ---- runs ----

  function Exec(w: World, ss: seq<Step>): World {
    if ss == [] then w else Next(Exec(w, ss[..|ss| - 1]), ss[|ss| - 1])
  }

  ghost predicate Runs(w: World, ss: seq<Step>) {
    ss == [] || (Runs(w, ss[..|ss| - 1]) && Enabled(Exec(w, ss[..|ss| - 1]), ss[|ss| - 1]))
  }

  // ---- rows over runs ----

  /** Row by row, uploads carry their own key, and a claim in flight holds a queued row alone. */
  predicate RowsInv(w: World) { Rows(w) && Tagged(w) && Picks(w) }

  predicate Rows(w: World) { forall id :: id in w.jobs ==> RowInv(id, w.jobs[id]) }

  predicate Tagged(w: World) { forall k :: k in w.uploads ==> Recorded(w.uploads[k].report) == Some(k) }

  predicate Picks(w: World) {
    && (forall m :: m in w.claims && w.claims[m].picked.Some? ==> HoldsQueued(w, w.claims[m].picked.value))
    && (forall m, n :: m in w.claims && n in w.claims && SamePick(w.claims[m], w.claims[n]) ==> m == n)
  }

  predicate SamePick(a: ClaimTx, b: ClaimTx) { a.picked.Some? && a.picked == b.picked }

  predicate HoldsQueued(w: World, id: JobId) { id in w.jobs && w.jobs[id].status == Queued }

  lemma AtRecordsTheSame(r: Report, now: Time)
    ensures Recorded(At(r, now)) == Recorded(r)
    ensures Recorded(r).Some? ==> FileOf(At(r, now)) == FileOf(r)
  {
  }

  /** Every step moves every row by one guarded report, by a claim, or not at all. */
  lemma StepsMoveRows(w: World, s: Step, id: JobId)
    requires Picks(w) && Tagged(w) && Enabled(w, s) && id in w.jobs
    ensures Allowed(id, w.jobs[id], ActOn(w, s, id))
  {
    match s
    case RecordUpload(key, now, _) => AtRecordsTheSame(w.uploads[key].report, now);
    case ClaimEnd(m, _, _, _) =>
    case Apply(_, _, _) =>
    case CommitPurge(_, _, _) =>
    case _ =>
  }

  lemma LockedIsQueued(w: World, id: JobId)
    requires Picks(w)
    ensures Locked(w, id) ==> HoldsQueued(w, id)
  {
  }

  lemma TakesAreClaims(w: World, s: Step, id: JobId)
    requires id in w.jobs && ActOn(w, s, id).Take?
    ensures s.ClaimEnd? && s.machine in w.claims && w.claims[s.machine].picked == Some(id)
    ensures Applied(s.commit) && ActOn(w, s, id) == Take(s.machine, s.now, s.verdict == Grant)
  {
  }

  lemma RowsInvKept(w: World, s: Step)
    requires RowsInv(w) && Enabled(w, s)
    ensures RowsInv(Next(w, s))
  {
    RowsKept(w, s);
    TagsKept(w, s);
    PicksKept(w, s);
  }

  lemma RowKept(w: World, s: Step, id: JobId)
    requires RowsInv(w) && Enabled(w, s) && id in w.jobs
    ensures RowInv(id, After(w.jobs[id], ActOn(w, s, id)))
  {
    StepsMoveRows(w, s, id);
    var j := w.jobs[id];
    match ActOn(w, s, id)
    case Stay =>
    case Move(r) => ReportKeepsRowInv(id, j, r);
    case Take(m, now, granted) => ClaimKeepsRowInv(id, j, m, now, granted);
  }

  lemma RowsKept(w: World, s: Step)
    requires RowsInv(w) && Enabled(w, s)
    ensures Rows(Next(w, s))
  {
    forall id | id in JobsAfter(w, s) ensures RowInv(id, JobsAfter(w, s)[id]) {
      if id in w.jobs { RowKept(w, s, id); }
    }
  }

  lemma TagsKept(w: World, s: Step)
    requires RowsInv(w) && Enabled(w, s)
    ensures Tagged(Next(w, s))
  {
  }

  lemma PicksKept(w: World, s: Step)
    requires RowsInv(w) && Enabled(w, s)
    ensures Picks(Next(w, s))
  {
    PicksStayQueued(w, s);
    var claims := ClaimsAfter(w, s);
    if s.ClaimPick? { PickIsNew(w, s); }
    forall m, n | m in claims && n in claims && SamePick(claims[m], claims[n]) ensures m == n {
      assert (m in w.claims && n in w.claims) || s.ClaimBegin?;
    }
  }

  lemma PickIsNew(w: World, s: Step)
    requires Enabled(w, s) && s.ClaimPick?
    ensures forall m :: m in w.claims ==> w.claims[m].picked != Some(s.id)
  {
    var id := s.id;
    assert !Locked(w, id);
  }

  lemma PicksStayQueued(w: World, s: Step)
    requires RowsInv(w) && Enabled(w, s)
    ensures forall m :: m in ClaimsAfter(w, s) && ClaimsAfter(w, s)[m].picked.Some? ==>
      HoldsQueued(Next(w, s), ClaimsAfter(w, s)[m].picked.value)
  {
    var claims := ClaimsAfter(w, s);
    forall m | m in claims && claims[m].picked.Some? ensures HoldsQueued(Next(w, s), claims[m].picked.value) {
      PickedAreLocked(w, s, m);
      QueuedRowStays(w, s, claims[m].picked.value);
    }
  }

  /** A picked row was locked by the same claim, or is locked now. */
  lemma PickedAreLocked(w: World, s: Step, m: Machine)
    requires Picks(w) && Enabled(w, s) && m in ClaimsAfter(w, s) && ClaimsAfter(w, s)[m].picked.Some?
    ensures var id := ClaimsAfter(w, s)[m].picked.value;
      && HoldsQueued(w, id) && (s.ClaimPick? || Locked(w, id))
      && (s.ClaimEnd? ==> s.machine in w.claims && w.claims[s.machine].picked != Some(id))
  {
    if !(s.ClaimPick? && s.machine == m) {
      assert m in w.claims && w.claims[m] == ClaimsAfter(w, s)[m];
      if s.ClaimEnd? { assert s.machine != m && !SamePick(w.claims[s.machine], w.claims[m]); }
    }
  }

  lemma QueuedRowStays(w: World, s: Step, id: JobId)
    requires RowsInv(w) && Enabled(w, s) && HoldsQueued(w, id) && (s.ClaimPick? || Locked(w, id))
    requires s.ClaimEnd? ==> s.machine in w.claims && w.claims[s.machine].picked != Some(id)
    ensures HoldsQueued(Next(w, s), id)
  {
    assert RowInv(id, w.jobs[id]);
    StepsMoveRows(w, s, id);
    if ActOn(w, s, id).Take? { TakesAreClaims(w, s, id); }
    if ActOn(w, s, id).Move? {
      QueuedMoves(id, w.jobs[id], ActOn(w, s, id).report);
      AdminsWait(w, s, id);
    }
  }

  /** A queued row is only ever moved by an administrator, */
  lemma QueuedMoves(id: JobId, j: Job, r: Report)
    requires RowInv(id, j) && Guard(id, j, r) && j.status == Queued
    ensures r.FromServer? && (r.act.Cancel? || r.act.ForceFail?)
  {
  }

  /** and not while a claim holds it. */
  lemma AdminsWait(w: World, s: Step, id: JobId)
    requires Tagged(w) && Enabled(w, s) && id in w.jobs && ActOn(w, s, id).Move? && ActOn(w, s, id).report.FromServer?
    requires ActOn(w, s, id).report.act.Cancel? || ActOn(w, s, id).report.act.ForceFail?
    ensures s.Apply? && !Locked(w, id)
  {
    if s.RecordUpload? { AtRecordsTheSame(w.uploads[s.key].report, s.now); }
  }

  lemma {:induction false} RowsInvAlways(ss: seq<Step>)
    requires Runs(Initial(), ss)
    ensures RowsInv(Exec(Initial(), ss))
  {
    if ss != [] {
      RowsInvAlways(ss[..|ss| - 1]);
      RowsInvKept(Exec(Initial(), ss[..|ss| - 1]), ss[|ss| - 1]);
    }
  }
}

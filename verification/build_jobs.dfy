/** One row of build_jobs and what each handler may do to it: the guard of its UPDATE, the new
    row, and the delivered objects that nobody refers to afterwards. */
module BuildJobs {
  import opened Wrappers
  import opened JobStates

  type JobId = nat
  type Machine = nat
  type ReleaseId = nat
  type Tenant = nat
  type Time = nat
  type Digest = nat

  datatype Platform = Android | IOS
  datatype Delivery = TestFlight | Ipa

  /** Versions are compared as triples. */
  datatype Version = Version(major: nat, minor: nat, patch: nat) {
    predicate Below(other: Version) {
      || major < other.major
      || (major == other.major && minor < other.minor)
      || (major == other.major && minor == other.minor && patch < other.patch)
    }
  }

  // ---- delivered objects ----

  /** The four object-key columns of a row. An .ipa is kept in the unsigned column. */
  datatype Column = Unsigned | Sbom | Signed | AppStoreInfo

  /** An object key names its job, its column's file, the attempt it was uploaded under (the
      signing attempt for a signed package), and a random segment of its own. */
  datatype Key = Key(job: JobId, column: Column, attempt: nat, nonce: nat)

  datatype Blob = Blob(digest: Digest, size: nat)

  const BUILD_DELIVERY := {Unsigned, Sbom, AppStoreInfo}
  const ALL_DELIVERIES := {Unsigned, Sbom, AppStoreInfo, Signed}
  const IOS_PACKAGE := {Unsigned, AppStoreInfo}

  /** What a builder signs about an Android package before it reports it built. */
  datatype Statement = Statement(job: JobId, attempt: nat, builder: Machine, unsigned: Blob, sbom: Digest)

  /** What createBuildJob fixes for good. */
  datatype Spec = Spec(tenant: Tenant, platform: Platform, kind: Kind, delivery: Option<Delivery>,
                       version: Version, build: nat, createdAt: Time)

  /** A row. The object-key columns and the columns with the size and digest of what they name
      are partial maps: a missing column is NULL. */
  datatype Job = Job(
    spec: Spec, status: Status,
    attempt: nat, machine: Option<Machine>, claimedAt: Option<Time>, heartbeat: Option<Time>,
    keys: map<Column, Key>, files: map<Column, Blob>, provenance: Option<Statement>,
    signAttempt: nat, signFailures: nat, signer: Option<Machine>, signBeat: Time,
    artifact: Option<Digest>, release: Option<ReleaseId>)

  const MAX_BUILD_ATTEMPTS := 3
  const MAX_SIGN_FAILURES := 2

  /** COALESCE(heartbeat_at, claimed_at, created_at). */
  function LastBeat(j: Job): Time {
    if j.heartbeat.Some? then j.heartbeat.value
    else if j.claimedAt.Some? then j.claimedAt.value
    else j.spec.createdAt
  }

  predicate Building(j: Job) { j.status == Claimed || j.status == Running }

  predicate AtSigner(j: Job) { j.status == Built || j.status == Signing }

  predicate IOSPackage(j: Job) { j.spec.platform == IOS && j.spec.kind == Apk }

  /** How an iOS package leaves: rows from before the column existed count as TestFlight. */
  function JobDelivery(j: Job): Option<Delivery> {
    if !IOSPackage(j) then None else if j.spec.delivery.Some? then j.spec.delivery else Some(TestFlight)
  }

  /** The keys of the chosen columns that are set. */
  function Pick(j: Job, columns: set<Column>): set<Key> {
    set c | c in j.keys && c in columns :: j.keys[c]
  }

  function RowKeys(j: Job): set<Key> { j.keys.Values }

  /** The chosen key columns set to NULL; the .plist takes its size and digest along. */
  function Clear(j: Job, columns: set<Column>): Job {
    j.(keys := j.keys - columns, files := if AppStoreInfo in columns then j.files - {AppStoreInfo} else j.files)
  }

  // ---- handlers ----

  /** One UPDATE of one row, by whoever asks for it. A builder presents its machine and the
      attempt it was given, a signer its machine and signing attempt. The server's own updates
      (reapers, admins, dispatch to the signer, purges) carry the counters and the cutoff that
      they read beforehand. */
  datatype Report =
    | FromBuilder(machine: Machine, attempt: nat, now: Time, did: BuilderAct)
    | FromSigner(machine: Machine, attempt: nat, now: Time, signed: SignerAct)
    | FromServer(act: ServerAct)

  datatype BuilderAct =
    | Beat
    | Deliver(key: Key, file: Blob)
    | Fail
    | HandBack
    | MarkBuilt(statement: Statement)
    | CompleteOTA(digest: Digest)
    | CompleteIOS(file: Blob, release: ReleaseId)
    | RefuseDispatch

  datatype SignerAct =
    | SignBeat
    | DeliverSigned(key: Key, file: Blob)
    | Defer
    | Reject(failures: nat, violation: bool)
    | Complete(key: Key, digest: Digest, release: ReleaseId)

  datatype ServerAct =
    | ReapBuild(attempt: nat, cutoff: Time)
    | ReapSign(signAttempt: nat, failures: nat, cutoff: Time)
    | Cancel
    | ForceFail
    | SignClaim(machine: Machine, signAttempt: nat, overtaken: bool, now: Time)
    | PurgeExpired(key: Key)
    | PurgeRelease(release: ReleaseId)

  /** The event of the state table that a report stands for; the two purges change no status. */
  function EventOf(r: Report): Option<Event> {
    match r
    case FromBuilder(_, _, _, did) => Some(BuilderEvent(did))
    case FromSigner(_, _, _, did) => Some(SignerEvent(did))
    case FromServer(act) => ServerEvent(act)
  }

  function BuilderEvent(did: BuilderAct): Event {
    match did
    case Beat => BuilderHeartbeat
    case Deliver(_, _) => BuilderUpload
    case Fail => BuilderFail
    case HandBack => Event.ReapBuild
    case MarkBuilt(_) => BuilderBuilt
    case CompleteOTA(_) => BuilderComplete
    case CompleteIOS(_, _) => BuilderIOSRelease
    case RefuseDispatch => DispatchFail
  }

  function SignerEvent(did: SignerAct): Event {
    match did
    case SignBeat => SignerHeartbeat
    case DeliverSigned(_, _) => SignerUpload
    case Defer => SignerRelease
    case Reject(_, violation) => if violation then SignerViolation else SignerTransient
    case Complete(_, _, _) => SignerComplete
  }

  function ServerEvent(act: ServerAct): Option<Event> {
    match act
    case ReapBuild(_, _) => Some(Event.ReapBuild)
    case ReapSign(_, _, _) => Some(Event.ReapSign)
    case Cancel => Some(AdminCancel)
    case ForceFail => Some(AdminForceFail)
    case SignClaim(_, _, overtaken, _) => Some(if overtaken then SignOvertaken else SignerClaim)
    case PurgeExpired(_) => None
    case PurgeRelease(_) => None
  }

  /** Which builder files a job takes: an unsigned package from Android, an .ipa and its plist
      from a self-upload iOS job, an SBOM from any package job. */
  predicate TakesFile(j: Job, column: Column) {
    match column
    case Unsigned => j.spec.platform == Android || JobDelivery(j) == Some(Ipa)
    case Sbom => true
    case AppStoreInfo => JobDelivery(j) == Some(Ipa)
    case Signed => false
  }

  /** The recorded files are the ones the statement names. */
  predicate Names(j: Job, st: Statement) {
    && Unsigned in j.files && j.files[Unsigned] == st.unsigned
    && Sbom in j.files && j.files[Sbom].digest == st.sbom
  }

  /** The guard of each UPDATE: the status list comes from the table, the rest is the claim. */
  predicate Guard(id: JobId, j: Job, r: Report) {
    && (EventOf(r).Some? ==> j.status in Starts(EventOf(r).value, j.spec.kind))
    && match r
       case FromBuilder(m, a, _, did) => j.attempt == a && j.machine == Some(m) && BuilderGuard(id, j, m, a, did)
       case FromSigner(m, sa, _, did) => j.signAttempt == sa && j.signer == Some(m) && SignerGuard(j, sa, did)
       case FromServer(act) => ServerGuard(j, act)
  }

  predicate BuilderGuard(id: JobId, j: Job, m: Machine, attempt: nat, did: BuilderAct) {
    match did
    case Deliver(key, _) => key.attempt == attempt && TakesFile(j, key.column)
    case HandBack => Requeues(j)
    case MarkBuilt(st) =>
      j.spec.platform == Android && st.job == id && st.attempt == attempt && st.builder == m && Names(j, st)
    case CompleteIOS(file, _) =>
      IOSPackage(j) && (JobDelivery(j) == Some(Ipa) ==> Unsigned in j.files && j.files[Unsigned] == file)
    case _ => true
  }

  predicate SignerGuard(j: Job, signAttempt: nat, did: SignerAct) {
    match did
    case DeliverSigned(key, _) => key.attempt == signAttempt && key.column == Signed
    case Reject(failures, _) => j.signFailures == failures
    case Complete(key, _, _) => Signed in j.keys && j.keys[Signed] == key
    case _ => true
  }

  predicate ServerGuard(j: Job, act: ServerAct) {
    match act
    case ReapBuild(a, cutoff) => j.attempt == a && LastBeat(j) < cutoff
    case ReapSign(sa, failures, cutoff) => j.signAttempt == sa && j.signFailures == failures && j.signBeat < cutoff
    case SignClaim(_, sa, _, _) => j.spec.platform == Android && j.signAttempt == sa
    case PurgeExpired(key) =>
      j.status == Succeeded && JobDelivery(j) == Some(Ipa) && Unsigned in j.keys && j.keys[Unsigned] == key
    case PurgeRelease(release) => j.release == Some(release)
    case _ => true
  }

  /** A reaped or handed-back claim goes back to the queue while it has attempts left. */
  predicate Requeues(j: Job) { j.spec.kind == Apk && j.attempt < MAX_BUILD_ATTEMPTS }

  /** A signing failure, transient or by timeout, is the last one. */
  predicate GivesUp(failures: nat) { failures + 1 >= MAX_SIGN_FAILURES }

  /** The columns whose objects are given up by a report (deleted once it has committed). */
  function Released(r: Report): set<Column> {
    match r
    case FromBuilder(_, _, _, did) => if did.Fail? || did.HandBack? then BUILD_DELIVERY else {}
    case FromSigner(_, _, _, Defer) => {Signed}
    case FromSigner(_, _, _, Reject(failures, violation)) =>
      if violation || GivesUp(failures) then ALL_DELIVERIES else {Signed}
    case FromSigner(_, _, _, _) => {}
    case FromServer(ReapBuild(_, _)) => BUILD_DELIVERY
    case FromServer(ReapSign(_, failures, _)) => if GivesUp(failures) then ALL_DELIVERIES else {Signed}
    case FromServer(SignClaim(_, _, overtaken, _)) => if overtaken then ALL_DELIVERIES else {Signed}
    case FromServer(PurgeExpired(_)) => IOS_PACKAGE
    case FromServer(_) => ALL_DELIVERIES
  }

  /** The assignments of each UPDATE other than the cleared key columns. */
  function Assign(j: Job, r: Report): Job {
    match r
    case FromBuilder(_, _, now, did) => BuilderAssign(j, now, did)
    case FromSigner(_, _, now, did) => SignerAssign(j, now, did)
    case FromServer(act) => ServerAssign(j, act)
  }

  function BuilderAssign(j: Job, now: Time, did: BuilderAct): Job {
    match did
    case Beat => j.(status := Running, heartbeat := Some(now))
    case Deliver(key, file) => j.(keys := j.keys[key.column := key], files := j.files[key.column := file])
    case Fail => j.(status := Failed, heartbeat := Some(now))
    case HandBack => j.(status := Queued, claimedAt := None, heartbeat := None)
    case MarkBuilt(st) => j.(status := Built, provenance := Some(st), heartbeat := Some(now))
    case CompleteOTA(digest) => j.(status := Succeeded, artifact := Some(digest), heartbeat := Some(now))
    case CompleteIOS(file, release) =>
      j.(status := Succeeded, artifact := Some(file.digest), release := Some(release), heartbeat := Some(now))
    case RefuseDispatch => j.(status := Failed, heartbeat := Some(now))
  }

  function SignerAssign(j: Job, now: Time, did: SignerAct): Job {
    match did
    case SignBeat => j.(signBeat := now)
    case DeliverSigned(key, _) => j.(keys := j.keys[Signed := key], signBeat := now)
    case Defer => j.(status := Built, signBeat := now)
    case Reject(failures, violation) =>
      j.(status := if violation || GivesUp(failures) then Failed else Built,
         signFailures := if violation then failures else failures + 1, signBeat := now)
    case Complete(_, digest, release) =>
      j.(status := Succeeded, artifact := Some(digest), release := Some(release), signBeat := now)
  }

  function ServerAssign(j: Job, act: ServerAct): Job {
    match act
    case ReapBuild(_, _) =>
      if Requeues(j) then j.(status := Queued, claimedAt := None, heartbeat := None) else j.(status := Failed)
    case ReapSign(_, failures, _) =>
      j.(status := if GivesUp(failures) then Failed else Built, signFailures := j.signFailures + 1)
    case Cancel => j.(status := Canceled)
    case ForceFail => j.(status := Failed)
    case SignClaim(m, _, overtaken, now) =>
      if overtaken then j.(status := Failed)
      else j.(status := Signing, signAttempt := j.signAttempt + 1, signer := Some(m), signBeat := now)
    case PurgeExpired(_) => j
    case PurgeRelease(_) => j.(release := None)
  }

  function Update(j: Job, r: Report): Job { Clear(Assign(j, r), Released(r)) }

  /** The key that an upload handler records. */
  function Recorded(r: Report): Option<Key> {
    match r
    case FromBuilder(_, _, _, Deliver(key, _)) => Some(key)
    case FromSigner(_, _, _, DeliverSigned(key, _)) => Some(key)
    case _ => None
  }

  /** The objects deleted after the commit: the released ones, or the one a re-upload replaced.
      A release purge deletes from a list it read beforehand instead. */
  function Dropped(j: Job, r: Report): set<Key> {
    if Recorded(r).Some? then Pick(j, {Recorded(r).value.column})
    else if r.FromServer? && r.act.PurgeRelease? then {}
    else Pick(j, Released(r))
  }

  /** The claim's UPDATE: everything the previous claim delivered is forgotten. A job whose git
      ref or tenant is not usable is failed in the same transaction. */
  function ClaimRow(j: Job, m: Machine, now: Time, granted: bool): Job {
    Clear(j, BUILD_DELIVERY).(
      status := if granted then Claimed else Failed, machine := Some(m), claimedAt := Some(now), heartbeat := Some(now),
      attempt := j.attempt + 1, files := map[], provenance := None)
  }

  /** A row as createBuildJob or the OTA variant inserts it. */
  predicate FreshRow(j: Job) {
    && j.status == Queued && j.attempt == 0 && j.signAttempt == 0 && j.signFailures == 0
    && j.machine == None && j.claimedAt == None && j.heartbeat == None && j.signer == None
    && j.keys == map[] && j.files == map[]
    && j.provenance == None && j.artifact == None && j.release == None
  }

  /** Claims a job may still get: package jobs are claimed at most three times, OTA jobs once. */
  function ClaimLimit(j: Job): nat { if j.spec.kind == Apk then MAX_BUILD_ATTEMPTS else 1 }

  /** What holds of every row in every run. */
  predicate RowInv(id: JobId, j: Job) {
    Attempts(j) && SigningStage(j) && Keys(id, j) && Files(id, j) && Outcome(j)
  }

  /** Attempts are bounded, and a queued job has one left. */
  predicate Attempts(j: Job) {
    && j.attempt <= ClaimLimit(j)
    && (j.status == Queued ==> j.attempt < ClaimLimit(j))
    && (j.status != Queued && j.status != Canceled ==> 1 <= j.attempt && j.machine.Some?)
  }

  /** Signing is for Android packages, and its failures stop short of the limit. */
  predicate SigningStage(j: Job) {
    && j.signFailures <= MAX_SIGN_FAILURES
    && (j.status == Queued || Building(j) ==> j.signFailures == 0 && j.signAttempt == 0)
    && (AtSigner(j) ==>
          j.spec.kind == Apk && j.spec.platform == Android && j.signFailures < MAX_SIGN_FAILURES)
    && (Signed in j.keys ==> (j.status == Signing || j.status == Succeeded) && j.spec.platform == Android)
    && (j.signer.Some? <==> j.signAttempt > 0)
  }

  /** Keys carry their row, column and attempt; a queued job and an OTA job have none. */
  predicate Keys(id: JobId, j: Job) {
    && (j.status == Queued || j.spec.kind == Ota ==> forall c :: c !in j.keys)
    && (forall c :: c in j.keys ==> KeyTag(id, j, c, j.keys[c]))
  }

  /** The size and digest columns describe the file that the key column names. */
  predicate Files(id: JobId, j: Job) {
    && (forall c :: c in j.keys && c != Signed ==> c in j.files)
    && (Building(j) ==> forall c :: c in j.files ==> c in j.keys)
    && (AtSigner(j) ==> Delivered(id, j))
  }

  /** A release and an artifact belong to success. */
  predicate Outcome(j: Job) {
    && (j.release.Some? ==> j.status == Succeeded && j.spec.kind == Apk)
    && (j.status == Succeeded ==> j.artifact.Some?)
  }

  predicate KeyTag(id: JobId, j: Job, c: Column, key: Key) {
    key.job == id && key.column == c && key.attempt == if c == Signed then j.signAttempt else j.attempt
  }

  /** The package and the SBOM that the accepted provenance names are the recorded ones, and
      both were uploaded under the attempt that is being delivered. */
  predicate Delivered(id: JobId, j: Job) {
    && j.provenance.Some? && Unsigned in j.keys && Sbom in j.keys
    && var st := j.provenance.value;
    && st.job == id && st.attempt == j.attempt && Some(st.builder) == j.machine && Names(j, st)
    && j.keys[Unsigned].attempt == st.attempt && j.keys[Sbom].attempt == st.attempt
  }

  // ---- what every report keeps ----

  /** Every handler keeps every row invariant. The key of an upload was made for this job. */
  lemma ReportKeepsRowInv(id: JobId, j: Job, r: Report)
    requires RowInv(id, j) && Guard(id, j, r) && (Recorded(r).Some? ==> Recorded(r).value.job == id)
    ensures RowInv(id, Update(j, r))
  {
    match r
    case FromBuilder(m, a, now, did) => BuilderKeepsRowInv(id, j, m, a, now, did);
    case FromSigner(m, a, now, did) => SignerKeepsRowInv(id, j, m, a, now, did);
    case FromServer(act) => ServerKeepsRowInv(id, j, act);
  }

  lemma BuilderKeepsRowInv(id: JobId, j: Job, m: Machine, a: nat, now: Time, did: BuilderAct)
    requires RowInv(id, j) && Guard(id, j, FromBuilder(m, a, now, did)) && (did.Deliver? ==> did.key.job == id)
    ensures RowInv(id, Update(j, FromBuilder(m, a, now, did)))
  {
    BuilderKeepsFiles(id, j, m, a, now, did);
  }

  lemma BuilderKeepsFiles(id: JobId, j: Job, m: Machine, a: nat, now: Time, did: BuilderAct)
    requires RowInv(id, j) && Guard(id, j, FromBuilder(m, a, now, did)) && (did.Deliver? ==> did.key.job == id)
    ensures Keys(id, Update(j, FromBuilder(m, a, now, did))) && Files(id, Update(j, FromBuilder(m, a, now, did)))
  {
    if did.Deliver? {
      DeliveryKeepsFiles(id, j, m, a, now, did);
    } else if did.MarkBuilt? {
      BuiltKeepsFiles(id, j, m, a, now, did);
    } else if did.Fail? || did.HandBack? {
      GivingUpKeepsFiles(id, j, m, a, now, did);
    }
  }

  lemma GivingUpKeepsFiles(id: JobId, j: Job, m: Machine, a: nat, now: Time, did: BuilderAct)
    requires RowInv(id, j) && Guard(id, j, FromBuilder(m, a, now, did)) && (did.Fail? || did.HandBack?)
    ensures Keys(id, Update(j, FromBuilder(m, a, now, did))) && Files(id, Update(j, FromBuilder(m, a, now, did)))
  {
    assert Building(j) && Signed !in j.keys;
  }

  lemma DeliveryKeepsFiles(id: JobId, j: Job, m: Machine, a: nat, now: Time, did: BuilderAct)
    requires RowInv(id, j) && Guard(id, j, FromBuilder(m, a, now, did)) && did.Deliver? && did.key.job == id
    ensures Keys(id, Update(j, FromBuilder(m, a, now, did))) && Files(id, Update(j, FromBuilder(m, a, now, did)))
  {
    var k := Update(j, FromBuilder(m, a, now, did));
    assert k.keys == j.keys[did.key.column := did.key] && k.files == j.files[did.key.column := did.file];
  }

  lemma BuiltKeepsFiles(id: JobId, j: Job, m: Machine, a: nat, now: Time, did: BuilderAct)
    requires RowInv(id, j) && Guard(id, j, FromBuilder(m, a, now, did)) && did.MarkBuilt?
    ensures Keys(id, Update(j, FromBuilder(m, a, now, did))) && Files(id, Update(j, FromBuilder(m, a, now, did)))
  {
    var k := Update(j, FromBuilder(m, a, now, did));
    assert k.keys == j.keys && k.files == j.files && Building(j);
  }

  lemma SignerKeepsRowInv(id: JobId, j: Job, m: Machine, a: nat, now: Time, did: SignerAct)
    requires RowInv(id, j) && Guard(id, j, FromSigner(m, a, now, did)) && (did.DeliverSigned? ==> did.key.job == id)
    ensures RowInv(id, Update(j, FromSigner(m, a, now, did)))
  {
  }

  lemma ServerKeepsRowInv(id: JobId, j: Job, act: ServerAct)
    requires RowInv(id, j) && Guard(id, j, FromServer(act))
    ensures RowInv(id, Update(j, FromServer(act)))
  {
    ServerKeepsFiles(id, j, act);
    ServerKeepsSigning(id, j, act);
    ServerKeepsAttempts(id, j, act);
  }

  lemma ServerKeepsAttempts(id: JobId, j: Job, act: ServerAct)
    requires RowInv(id, j) && Guard(id, j, FromServer(act))
    ensures Attempts(Update(j, FromServer(act)))
  {
  }

  lemma ServerKeepsSigning(id: JobId, j: Job, act: ServerAct)
    requires RowInv(id, j) && Guard(id, j, FromServer(act))
    ensures SigningStage(Update(j, FromServer(act)))
  {
  }

  lemma ServerKeepsFiles(id: JobId, j: Job, act: ServerAct)
    requires RowInv(id, j) && Guard(id, j, FromServer(act))
    ensures Keys(id, Update(j, FromServer(act))) && Files(id, Update(j, FromServer(act)))
  {
    if act.ReapBuild? || act.SignClaim? || act.ReapSign? {
      DispatchKeepsFiles(id, j, act);
    }
  }

  lemma DispatchKeepsFiles(id: JobId, j: Job, act: ServerAct)
    requires RowInv(id, j) && Guard(id, j, FromServer(act))
    requires act.ReapBuild? || act.SignClaim? || act.ReapSign?
    ensures Keys(id, Update(j, FromServer(act))) && Files(id, Update(j, FromServer(act)))
  {
    if act.SignClaim? {
      SignClaimKeepsFiles(id, j, act);
    } else if act.ReapSign? {
      ReapSignKeepsFiles(id, j, act);
    } else {
      assert Building(j);
    }
  }

  lemma SignClaimKeepsFiles(id: JobId, j: Job, act: ServerAct)
    requires RowInv(id, j) && Guard(id, j, FromServer(act)) && act.SignClaim?
    ensures Keys(id, Update(j, FromServer(act))) && Files(id, Update(j, FromServer(act)))
  {
    assert AtSigner(j) && Signed !in j.keys;
  }

  lemma ReapSignKeepsFiles(id: JobId, j: Job, act: ServerAct)
    requires RowInv(id, j) && Guard(id, j, FromServer(act)) && act.ReapSign?
    ensures Keys(id, Update(j, FromServer(act))) && Files(id, Update(j, FromServer(act)))
  {
    assert AtSigner(j);
  }

  lemma ClaimKeepsRowInv(id: JobId, j: Job, m: Machine, now: Time, granted: bool)
    requires RowInv(id, j) && j.status == Queued
    ensures RowInv(id, ClaimRow(j, m, now, granted)) && ClaimRow(j, m, now, granted).keys == map[]
  {
  }
}

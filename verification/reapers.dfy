/** The reapers: each reads stale rows and then updates them under a guard, several at a time. */
module Reapers {
  import opened Wrappers
  import opened JobStates
  import opened BuildJobs
  import opened JobProgress
  import opened World

  // ---- one row, read and later updated ----

  /** The columns that a reaper keeps from its read, and the cutoff it read with. */
  datatype BuildRead = BuildRead(kind: Kind, attempt: nat, cutoff: Time)
  datatype SignRead = SignRead(signAttempt: nat, failures: nat, cutoff: Time)

  predicate StaleBuild(j: Job, cutoff: Time) { Building(j) && LastBeat(j) < cutoff }

  predicate StaleSigning(j: Job, cutoff: Time) { j.spec.kind == Apk && j.status == Signing && j.signBeat < cutoff }

  function ReadBuild(j: Job, cutoff: Time): BuildRead { BuildRead(j.spec.kind, j.attempt, cutoff) }

  function ReadSigning(j: Job, cutoff: Time): SignRead { SignRead(j.signAttempt, j.signFailures, cutoff) }

  function Requeued(j: Job): Job { Clear(j.(status := Queued, claimedAt := None, heartbeat := None), BUILD_DELIVERY) }

  function FailedBuild(j: Job): Job { Clear(j.(status := Failed), BUILD_DELIVERY) }

  /** reapStaleBuilds, for one row: what happens was decided by what was read; the guard looks at
      the row as it is now. */
  function ReapBuildLater(read: BuildRead, j: Job): Job {
    if Building(j) && j.attempt == read.attempt && LastBeat(j) < read.cutoff then
      if read.kind == Apk && read.attempt < MAX_BUILD_ATTEMPTS then Requeued(j) else FailedBuild(j)
    else j
  }

  /** reapStaleSignings, for one row. */
  function ReapSigningLater(read: SignRead, j: Job): Job {
    if j.status == Signing && j.signAttempt == read.signAttempt && j.signFailures == read.failures && j.signBeat < read.cutoff
    then
      var last := GivesUp(read.failures);
      Clear(j.(status := if last then Failed else Built, signFailures := j.signFailures + 1),
            if last then ALL_DELIVERIES else {Signed})
    else j
  }

  /** One reaper that reads and updates in one step. */
  function ReapBuildNow(cutoff: Time, j: Job): Job {
    if StaleBuild(j, cutoff) then if Requeues(j) then Requeued(j) else FailedBuild(j) else j
  }

  function ReapSigningNow(cutoff: Time, j: Job): Job {
    if StaleSigning(j, cutoff) then
      Clear(j.(status := if GivesUp(j.signFailures) then Failed else Built, signFailures := j.signFailures + 1),
            if GivesUp(j.signFailures) then ALL_DELIVERIES else {Signed})
    else j
  }

  /** The world's reaper reports are these updates. */
  lemma ReapersReport(id: JobId, j: Job, build: BuildRead, sign: SignRead)
    requires RowInv(id, j) && build.kind == j.spec.kind
    ensures ReapBuildLater(build, j) ==
      if Guard(id, j, FromServer(ServerAct.ReapBuild(build.attempt, build.cutoff)))
      then Update(j, FromServer(ServerAct.ReapBuild(build.attempt, build.cutoff))) else j
    ensures ReapSigningLater(sign, j) ==
      if Guard(id, j, FromServer(ServerAct.ReapSign(sign.signAttempt, sign.failures, sign.cutoff)))
      then Update(j, FromServer(ServerAct.ReapSign(sign.signAttempt, sign.failures, sign.cutoff))) else j
  {
  }

  /** Handing a claim back that never reached its builder does to the row what the reaper would do,
      without waiting for the timeout: the attempt is not given back. */
  lemma HandBackIsARequeue(id: JobId, j: Job, m: Machine, attempt: nat, now: Time, cutoff: Time)
    requires RowInv(id, j) && Guard(id, j, FromBuilder(m, attempt, now, HandBack))
    ensures Update(j, FromBuilder(m, attempt, now, HandBack)) == Requeued(j)
    ensures LastBeat(j) < cutoff ==> Update(j, FromBuilder(m, attempt, now, HandBack)) == ReapBuildNow(cutoff, j)
    ensures Requeued(j).attempt == j.attempt && Requeued(j).status == Queued && Requeued(j).keys == map[]
  {
    ReapersReport(id, j, ReadBuild(j, cutoff), ReadSigning(j, cutoff));
    BuilderKeepsRowInv(id, j, m, attempt, now, HandBack);
    var k := Update(j, FromBuilder(m, attempt, now, HandBack));
    assert k.keys == map[] by { assert forall c :: c !in k.keys; }
  }

  /** Whatever happens in a run between a reaper's read and its update: the update does what the
      one-step reaper would do now, if the claim is still the one it read, and otherwise nothing.
      A row whose heartbeat was refreshed is not moved. */
  lemma {:induction false} LateReapIsAReapNow(ss: seq<Step>, more: seq<Step>, id: JobId, cutoff: Time)
    requires Runs(Initial(), ss) && Runs(Initial(), ss + more) && id in Exec(Initial(), ss).jobs
    requires StaleBuild(Exec(Initial(), ss).jobs[id], cutoff)
    ensures id in Exec(Initial(), ss + more).jobs
    ensures var before, now := Exec(Initial(), ss).jobs[id], Exec(Initial(), ss + more).jobs[id];
      && ReapBuildLater(ReadBuild(before, cutoff), now) ==
           (if now.attempt == before.attempt then ReapBuildNow(cutoff, now) else now)
      && (LastBeat(now) >= cutoff ==> ReapBuildLater(ReadBuild(before, cutoff), now) == now)
  {
    SpecGoesOn(ss, more, id);
  }

  lemma {:induction false} LateSigningReapIsAReapNow(ss: seq<Step>, more: seq<Step>, id: JobId, cutoff: Time)
    requires Runs(Initial(), ss) && Runs(Initial(), ss + more) && id in Exec(Initial(), ss).jobs
    requires StaleSigning(Exec(Initial(), ss).jobs[id], cutoff)
    ensures id in Exec(Initial(), ss + more).jobs
    ensures var before, now := Exec(Initial(), ss).jobs[id], Exec(Initial(), ss + more).jobs[id];
      && ReapSigningLater(ReadSigning(before, cutoff), now) ==
           (if now.signAttempt == before.signAttempt && now.signFailures == before.signFailures
            then ReapSigningNow(cutoff, now) else now)
      && (now.signBeat >= cutoff ==> ReapSigningLater(ReadSigning(before, cutoff), now) == now)
  {
    SpecGoesOn(ss, more, id);
  }

  lemma {:induction false} SpecGoesOn(ss: seq<Step>, more: seq<Step>, id: JobId)
    requires Runs(Initial(), ss) && Runs(Initial(), ss + more) && id in Exec(Initial(), ss).jobs
    ensures id in Exec(Initial(), ss + more).jobs
    ensures Exec(Initial(), ss + more).jobs[id].spec == Exec(Initial(), ss).jobs[id].spec
  {
    assert (ss + more)[..|ss|] == ss;
    SpecSince(ss + more, |ss|, id);
  }

  lemma {:induction false} SpecSince(ss: seq<Step>, k: nat, id: JobId)
    requires k <= |ss| && Runs(Initial(), ss) && id in Exec(Initial(), ss[..k]).jobs
    ensures id in Exec(Initial(), ss).jobs
    ensures Exec(Initial(), ss).jobs[id].spec == Exec(Initial(), ss[..k]).jobs[id].spec
  {
    if k == |ss| {
      assert ss[..k] == ss;
    } else {
      assert ss[..|ss| - 1][..k] == ss[..k];
      SpecSince(ss[..|ss| - 1], k, id);
      SpecStays(ss, id);
    }
  }

  lemma {:induction false} SpecStays(ss: seq<Step>, id: JobId)
    requires ss != [] && Runs(Initial(), ss) && id in Exec(Initial(), ss[..|ss| - 1]).jobs
    ensures id in Exec(Initial(), ss).jobs
    ensures Exec(Initial(), ss).jobs[id].spec == Exec(Initial(), ss[..|ss| - 1]).jobs[id].spec
  {
    var w, s := Exec(Initial(), ss[..|ss| - 1]), ss[|ss| - 1];
    RowsInvAlways(ss[..|ss| - 1]);
    StepsMoveRows(w, s, id);
    if ActOn(w, s, id).Move? { ReportsDoNotStart(id, w.jobs[id], ActOn(w, s, id).report); }
  }

  // ---- many reapers are one ----

  function Latest(cutoffs: seq<Time>): Time {
    if cutoffs == [] then 0 else
    var before, last := Latest(cutoffs[..|cutoffs| - 1]), cutoffs[|cutoffs| - 1];
    if before < last then last else before
  }

  /** Several reapers read this row, each with its own cutoff, and then update it one after the
      other; one whose read did not find the row stale leaves it alone. */
  function ReapBuildTogether(cutoffs: seq<Time>, j: Job): Job {
    if cutoffs == [] then j else
    var before, last := ReapBuildTogether(cutoffs[..|cutoffs| - 1], j), cutoffs[|cutoffs| - 1];
    if StaleBuild(j, last) then ReapBuildLater(ReadBuild(j, last), before) else before
  }

  function ReapSigningTogether(cutoffs: seq<Time>, j: Job): Job {
    if cutoffs == [] then j else
    var before, last := ReapSigningTogether(cutoffs[..|cutoffs| - 1], j), cutoffs[|cutoffs| - 1];
    if StaleSigning(j, last) then ReapSigningLater(ReadSigning(j, last), before) else before
  }

  /** However many reapers there are and in whichever order they update, the row ends up where the
      one with the latest cutoff alone would have put it. */
  lemma {:induction false} ManyReapersAreOne(cutoffs: seq<Time>, j: Job)
    ensures ReapBuildTogether(cutoffs, j) == ReapBuildNow(Latest(cutoffs), j)
    ensures ReapSigningTogether(cutoffs, j) == ReapSigningNow(Latest(cutoffs), j)
  {
    if cutoffs != [] {
      ManyReapersAreOne(cutoffs[..|cutoffs| - 1], j);
    }
  }

  // ---- over whole runs ----

  /** Which row steps reap a claim, reap a signing, and count a signing failure. */
  predicate ReapsClaim(a: RowAct, attempt: nat) {
    a.Move? && a.report.FromServer? && a.report.act.ReapBuild? && a.report.act.attempt == attempt
  }

  predicate ReapsSigning(a: RowAct, signAttempt: nat) {
    a.Move? && a.report.FromServer? && a.report.act.ReapSign? && a.report.act.signAttempt == signAttempt
  }

  predicate FailsSigning(a: RowAct) {
    a.Move? && ((a.report.FromServer? && a.report.act.ReapSign?)
                || (a.report.FromSigner? && a.report.signed.Reject? && !a.report.signed.violation))
  }

  function ClaimReaps(ss: seq<Step>, id: JobId, attempt: nat): nat {
    if ss == [] then 0 else
    var w, n := Exec(Initial(), ss[..|ss| - 1]), ClaimReaps(ss[..|ss| - 1], id, attempt);
    if id in w.jobs && ReapsClaim(ActOn(w, ss[|ss| - 1], id), attempt) then n + 1 else n
  }

  function SigningReaps(ss: seq<Step>, id: JobId, signAttempt: nat): nat {
    if ss == [] then 0 else
    var w, n := Exec(Initial(), ss[..|ss| - 1]), SigningReaps(ss[..|ss| - 1], id, signAttempt);
    if id in w.jobs && ReapsSigning(ActOn(w, ss[|ss| - 1], id), signAttempt) then n + 1 else n
  }

  function SigningFailures(ss: seq<Step>, id: JobId): nat {
    if ss == [] then 0 else
    var w, n := Exec(Initial(), ss[..|ss| - 1]), SigningFailures(ss[..|ss| - 1], id);
    if id in w.jobs && FailsSigning(ActOn(w, ss[|ss| - 1], id)) then n + 1 else n
  }

  /** A claim that is over, and a signing that is over. */
  predicate Over(j: Job, attempt: nat) { attempt < j.attempt || (attempt == j.attempt && !Building(j)) }

  predicate SigningOver(j: Job, signAttempt: nat) {
    signAttempt < j.signAttempt || (signAttempt == j.signAttempt && j.status != Signing)
  }

  lemma ClaimsEndOnce(id: JobId, j: Job, a: RowAct, attempt: nat)
    requires RowInv(id, j) && Allowed(id, j, a)
    ensures ReapsClaim(a, attempt) ==> !Over(j, attempt) && Over(After(j, a), attempt)
    ensures Over(j, attempt) ==> Over(After(j, a), attempt)
  {
    if a.Move? { ReportsDoNotStart(id, j, a.report); }
  }

  lemma SigningsEndOnce(id: JobId, j: Job, a: RowAct, signAttempt: nat)
    requires RowInv(id, j) && Allowed(id, j, a)
    ensures ReapsSigning(a, signAttempt) ==> !SigningOver(j, signAttempt) && SigningOver(After(j, a), signAttempt)
    ensures SigningOver(j, signAttempt) ==> SigningOver(After(j, a), signAttempt)
  {
    match a
    case Move(FromBuilder(_, _, now, did)) => BuildersLeaveSigning(j, now, did);
    case Move(FromSigner(_, _, now, did)) => SignersLeaveSigning(j, now, did);
    case _ =>
  }

  lemma SignersLeaveSigning(j: Job, now: Time, did: SignerAct)
    ensures var k := SignerAssign(j, now, did);
      k.signAttempt == j.signAttempt && (k.status == Signing ==> j.status == Signing)
  {
  }

  lemma BuildersLeaveSigning(j: Job, now: Time, did: BuilderAct)
    ensures var k := BuilderAssign(j, now, did);
      k.signAttempt == j.signAttempt && (k.status == Signing ==> j.status == Signing)
  {
  }

  lemma FailuresAreCounted(id: JobId, j: Job, a: RowAct)
    requires RowInv(id, j) && Allowed(id, j, a)
    ensures After(j, a).signFailures == j.signFailures + (if FailsSigning(a) then 1 else 0)
  {
    match a
    case Move(FromBuilder(_, _, now, did)) => BuilderSpends(j, now, did);
    case _ =>
  }

  lemma StepEndsOnce(w: World, s: Step, id: JobId, attempt: nat, signAttempt: nat)
    requires RowsInv(w) && Enabled(w, s) && id in w.jobs
    ensures var j, a, j' := w.jobs[id], ActOn(w, s, id), After(w.jobs[id], ActOn(w, s, id));
      && (ReapsClaim(a, attempt) ==> !Over(j, attempt) && Over(j', attempt))
      && (Over(j, attempt) ==> Over(j', attempt))
      && (ReapsSigning(a, signAttempt) ==> !SigningOver(j, signAttempt) && SigningOver(j', signAttempt))
      && (SigningOver(j, signAttempt) ==> SigningOver(j', signAttempt))
  {
    assert RowInv(id, w.jobs[id]);
    StepsMoveRows(w, s, id);
    ClaimsEndOnce(id, w.jobs[id], ActOn(w, s, id), attempt);
    SigningsEndOnce(id, w.jobs[id], ActOn(w, s, id), signAttempt);
  }

  lemma {:induction false} ReapsSoFar(ss: seq<Step>, id: JobId, attempt: nat, signAttempt: nat)
    requires Runs(Initial(), ss)
    ensures var w := Exec(Initial(), ss);
      if id in w.jobs then
        && ClaimReaps(ss, id, attempt) <= (if Over(w.jobs[id], attempt) then 1 else 0)
        && SigningReaps(ss, id, signAttempt) <= (if SigningOver(w.jobs[id], signAttempt) then 1 else 0)
      else ClaimReaps(ss, id, attempt) == 0 && SigningReaps(ss, id, signAttempt) == 0
  {
    if ss != [] {
      var before, s := ss[..|ss| - 1], ss[|ss| - 1];
      var w := Exec(Initial(), before);
      ReapsSoFar(before, id, attempt, signAttempt);
      RowsInvAlways(before);
      if id in w.jobs { StepEndsOnce(w, s, id, attempt, signAttempt); }
    }
  }

  lemma {:induction false} StepCountsFailures(before: seq<Step>, s: Step, id: JobId)
    requires Runs(Initial(), before) && Enabled(Exec(Initial(), before), s) && id in Exec(Initial(), before).jobs
    ensures var w := Exec(Initial(), before);
      After(w.jobs[id], ActOn(w, s, id)).signFailures
        == w.jobs[id].signFailures + (if FailsSigning(ActOn(w, s, id)) then 1 else 0)
  {
    var w := Exec(Initial(), before);
    RowsInvAlways(before);
    assert RowInv(id, w.jobs[id]);
    StepsMoveRows(w, s, id);
    FailuresAreCounted(id, w.jobs[id], ActOn(w, s, id));
  }

  lemma {:induction false} FailuresSoFar(ss: seq<Step>, id: JobId)
    requires Runs(Initial(), ss)
    ensures var w := Exec(Initial(), ss);
      SigningFailures(ss, id) == if id in w.jobs then w.jobs[id].signFailures else 0
  {
    if ss != [] {
      var before, s := ss[..|ss| - 1], ss[|ss| - 1];
      var w := Exec(Initial(), before);
      FailuresSoFar(before, id);
      if id in w.jobs { StepCountsFailures(before, s, id); }
    }
  }

  /** In every run, with any number of reapers: each claim is reaped at most once, each signing at
      most once, the failure count is exactly the number of reaped and transiently failed signings,
      and a job that waits for or sits at the signer has failed there less than twice. */
  lemma {:induction false} EachExpiryCountsOnce(ss: seq<Step>, id: JobId, attempt: nat, signAttempt: nat)
    requires Runs(Initial(), ss) && id in Exec(Initial(), ss).jobs
    ensures ClaimReaps(ss, id, attempt) <= 1 && SigningReaps(ss, id, signAttempt) <= 1
    ensures var j := Exec(Initial(), ss).jobs[id];
      SigningFailures(ss, id) == j.signFailures && (AtSigner(j) ==> j.signFailures < 2)
  {
    ReapsSoFar(ss, id, attempt, signAttempt);
    FailuresSoFar(ss, id);
    RowsInvAlways(ss);
    assert RowInv(id, Exec(Initial(), ss).jobs[id]);
  }
}

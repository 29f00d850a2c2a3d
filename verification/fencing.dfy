/** Attempt fencing: who holds which claim, and what a built job is made of. */
module Fencing {
  import opened Wrappers
  import opened JobStates
  import opened BuildJobs
  import opened JobProgress
  import opened World
  import opened Deliveries

  ghost predicate FencedInv(w: World) { ObjectsInv(w) && Issues(w) && Holders(w) && Fenced(w) }

  /** Issued attempts belong to rows, up to the row's own attempt. */
  predicate Issues(w: World) {
    forall p :: p in w.issued ==>
      p.0 in w.jobs && 1 <= p.1 <= w.jobs[p.0].attempt && w.issued[p].nonce <= w.nonce
  }

  /** A row's machine is the one that its current attempt was issued to. */
  predicate Holders(w: World) { forall id :: id in w.jobs && w.jobs[id].attempt > 0 ==> Holds(w, id) }

  predicate Holds(w: World, id: JobId)
    requires id in w.jobs
  {
    var p := (id, w.jobs[id].attempt); p in w.issued && w.jobs[id].machine == Some(w.issued[p].machine)
  }

  /** Everything a builder delivers is named after its claim was issued, by the machine that got it. */
  ghost predicate Fenced(w: World) {
    && (forall k :: k in w.uploads && w.uploads[k].report.FromBuilder? ==>
          UnderItsClaim(w, k) && w.issued[(k.job, k.attempt)].machine == w.uploads[k].report.machine)
    && (forall k :: Refers(w, k) && k.column != Signed ==> UnderItsClaim(w, k))
  }

  predicate UnderItsClaim(w: World, k: Key) {
    (k.job, k.attempt) in w.issued && w.issued[(k.job, k.attempt)].nonce <= k.nonce
  }

  // ---- every step keeps it ----

  /** Claiming issues a new attempt and never reissues an old one. */
  lemma IssuesGrow(w: World, s: Step)
    requires RowsInv(w) && Issues(w) && Enabled(w, s)
    ensures forall p :: p in w.issued ==> p in Next(w, s).issued && Next(w, s).issued[p] == w.issued[p]
    ensures forall p :: p in Next(w, s).issued && p !in w.issued ==>
      p.0 in w.jobs && ActOn(w, s, p.0).Take? && p.1 == w.jobs[p.0].attempt + 1
      && Next(w, s).issued[p] == Issue(ActOn(w, s, p.0).machine, w.nonce)
  {
    OldIssuesStay(w, s);
    forall p | p in Next(w, s).issued && p !in w.issued
      ensures p.0 in w.jobs && ActOn(w, s, p.0).Take? && p.1 == w.jobs[p.0].attempt + 1
        && Next(w, s).issued[p] == Issue(ActOn(w, s, p.0).machine, w.nonce)
    {
      NewIssueIsATake(w, s, p);
    }
  }

  lemma OldIssuesStay(w: World, s: Step)
    requires Issues(w)
    ensures forall p :: p in w.issued ==> p in Next(w, s).issued && Next(w, s).issued[p] == w.issued[p]
  {
  }

  lemma NewIssueIsATake(w: World, s: Step, p: (JobId, nat))
    requires p in Next(w, s).issued && p !in w.issued
    ensures p.0 in w.jobs && ActOn(w, s, p.0).Take? && p.1 == w.jobs[p.0].attempt + 1
    ensures Next(w, s).issued[p] == Issue(ActOn(w, s, p.0).machine, w.nonce)
  {
  }

  /** Attempts change by claims alone. */
  lemma AttemptMoves(j: Job, a: RowAct)
    ensures After(j, a).attempt == if a.Take? then j.attempt + 1 else j.attempt
    ensures After(j, a).machine == if a.Take? then Some(a.machine) else j.machine
  {
    if a.Move? { AssignKeepsClaim(j, a.report); }
  }

  lemma AssignKeepsClaim(j: Job, r: Report)
    ensures Update(j, r).attempt == j.attempt && Update(j, r).machine == j.machine
  {
    match r
    case FromBuilder(_, _, now, did) => assert BuilderAssign(j, now, did).machine == j.machine;
    case FromSigner(_, _, now, did) => assert SignerAssign(j, now, did).machine == j.machine;
    case FromServer(act) => assert ServerAssign(j, act).machine == j.machine;
  }

  lemma TakenIsIssued(w: World, s: Step, id: JobId)
    requires RowsInv(w) && Enabled(w, s) && id in w.jobs && ActOn(w, s, id).Take?
    ensures var p := (id, w.jobs[id].attempt + 1);
      p in Next(w, s).issued && Next(w, s).issued[p].machine == ActOn(w, s, id).machine
  {
  }

  lemma IssuesKept(w: World, s: Step)
    requires RowsInv(w) && Issues(w) && Enabled(w, s)
    ensures Issues(Next(w, s))
  {
    IssuesGrow(w, s);
    NoncesGrow(w, s);
    forall p | p in Next(w, s).issued
      ensures p.0 in w.jobs && 1 <= p.1 <= Next(w, s).jobs[p.0].attempt && Next(w, s).issued[p].nonce <= w.nonce
    {
      AttemptMoves(w.jobs[p.0], ActOn(w, s, p.0));
    }
  }

  lemma HoldersKept(w: World, s: Step)
    requires RowsInv(w) && Issues(w) && Holders(w) && Enabled(w, s)
    ensures Holders(Next(w, s))
  {
    IssuesGrow(w, s);
    forall id | id in Next(w, s).jobs && Next(w, s).jobs[id].attempt > 0 ensures Holds(Next(w, s), id) {
      assert id in w.jobs;
      AttemptMoves(w.jobs[id], ActOn(w, s, id));
      if ActOn(w, s, id).Take? { TakenIsIssued(w, s, id); } else { assert Holds(w, id); }
    }
  }

  lemma FencedKept(w: World, s: Step)
    requires FencedInv(w) && Enabled(w, s)
    ensures Fenced(Next(w, s))
  {
    var w' := Next(w, s);
    IssuesGrow(w, s);
    forall k | k in w'.uploads && w'.uploads[k].report.FromBuilder?
      ensures UnderItsClaim(w', k) && w'.issued[(k.job, k.attempt)].machine == w'.uploads[k].report.machine
    {
      UploadIsFenced(w, s, k);
    }
    forall k | Refers(w', k) && k.column != Signed ensures UnderItsClaim(w', k) {
      NamedIsFenced(w, s, k);
    }
  }

  lemma NamedIsFenced(w: World, s: Step, k: Key)
    requires FencedInv(w) && Enabled(w, s) && Refers(Next(w, s), k) && k.column != Signed
    ensures UnderItsClaim(w, k)
  {
    NamesGrowByRecording(w, s, k);
    if !Refers(w, k) { RecordedWasFenced(w, s, k); }
  }

  lemma UploadIsFenced(w: World, s: Step, k: Key)
    requires FencedInv(w) && Enabled(w, s) && k in Next(w, s).uploads && Next(w, s).uploads[k].report.FromBuilder?
    ensures UnderItsClaim(w, k) && w.issued[(k.job, k.attempt)].machine == Next(w, s).uploads[k].report.machine
  {
    OldUploadsKeepTheirReport(w, s, k);
    if s.BeginUpload? && Recorded(s.report) == Some(k) { NewUploadIsFenced(w, s, k); }
  }

  lemma OldUploadsKeepTheirReport(w: World, s: Step, k: Key)
    requires Enabled(w, s) && k in UploadsAfter(w, s)
    ensures if s.BeginUpload? && Recorded(s.report) == Some(k) then UploadsAfter(w, s)[k].report == s.report
      else k in w.uploads && w.uploads[k].report == UploadsAfter(w, s)[k].report
  {
  }

  lemma NewUploadIsFenced(w: World, s: Step, k: Key)
    requires Rows(w) && Issues(w) && Holders(w) && Enabled(w, s)
    requires s.BeginUpload? && Recorded(s.report) == Some(k) && s.report.FromBuilder?
    ensures UnderItsClaim(w, k) && w.issued[(k.job, k.attempt)].machine == s.report.machine
  {
    var j := w.jobs[s.id];
    BuildersReportOnBuilding(s.id, j, s.report);
    assert RowInv(s.id, j) && Holds(w, s.id);
    assert k.job == s.id && k.attempt == j.attempt;
  }

  lemma RecordedWasFenced(w: World, s: Step, k: Key)
    requires FencedInv(w) && Enabled(w, s) && s.RecordUpload? && s.key == k && k.column != Signed
    requires Refers(Next(w, s), k) && !Refers(w, k)
    ensures UnderItsClaim(w, k)
  {
    var r := w.uploads[k].report;
    assert Recorded(r) == Some(k);
    AtRecordsTheSame(r, s.now);
    StepsMoveRows(w, s, k.job);
    assert ActOn(w, s, k.job) == Move(At(r, s.now));
    OnlyBuildersDeliver(k.job, w.jobs[k.job], At(r, s.now));
  }

  lemma OnlyBuildersDeliver(id: JobId, j: Job, r: Report)
    requires Guard(id, j, r) && Recorded(r).Some? && Recorded(r).value.column != Signed
    ensures r.FromBuilder?
  {
  }

  lemma FencedInvKept(w: World, s: Step)
    requires FencedInv(w) && Enabled(w, s)
    ensures FencedInv(Next(w, s))
  {
    ObjectsInvKept(w, s);
    IssuesKept(w, s);
    HoldersKept(w, s);
    FencedKept(w, s);
  }

  lemma {:induction false} FencedAlways(ss: seq<Step>)
    requires Runs(Initial(), ss)
    ensures FencedInv(Exec(Initial(), ss))
  {
    if ss != [] {
      FencedAlways(ss[..|ss| - 1]);
      FencedInvKept(Exec(Initial(), ss[..|ss| - 1]), ss[|ss| - 1]);
    }
  }

  // ---- main results ----

  /** Each (job, attempt) is issued once, to one machine, and stays that machine's. */
  lemma {:induction false} EachAttemptIsIssuedOnce(ss: seq<Step>, s: Step)
    requires Runs(Initial(), ss) && Enabled(Exec(Initial(), ss), s)
    ensures var w, w' := Exec(Initial(), ss), Next(Exec(Initial(), ss), s);
      && (forall p :: p in w.issued ==> p in w'.issued && w'.issued[p] == w.issued[p])
      && (forall id :: id in w.jobs && ActOn(w, s, id).Take? ==>
            var p := (id, w'.jobs[id].attempt);
            p !in w.issued && p in w'.issued && w'.issued[p].machine == ActOn(w, s, id).machine)
  {
    var w := Exec(Initial(), ss);
    FencedAlways(ss);
    IssuesGrow(w, s);
    forall id | id in w.jobs && ActOn(w, s, id).Take?
      ensures var p := (id, Next(w, s).jobs[id].attempt);
        p !in w.issued && p in Next(w, s).issued && Next(w, s).issued[p].machine == ActOn(w, s, id).machine
    {
      TakenAnew(w, s, id);
    }
  }

  lemma TakenAnew(w: World, s: Step, id: JobId)
    requires RowsInv(w) && Issues(w) && Enabled(w, s) && id in w.jobs && ActOn(w, s, id).Take?
    ensures var p := (id, Next(w, s).jobs[id].attempt);
      p !in w.issued && p in Next(w, s).issued && Next(w, s).issued[p].machine == ActOn(w, s, id).machine
  {
    AttemptMoves(w.jobs[id], ActOn(w, s, id));
    TakenIsIssued(w, s, id);
  }

  /** A builder's report moves a row only while its claim is the current one: it was issued to
      that machine, no later one was issued for the job, and the job is being built. */
  lemma {:induction false} ReportsAreOfTheCurrentClaim(ss: seq<Step>, s: Step, id: JobId)
    requires Runs(Initial(), ss) && Enabled(Exec(Initial(), ss), s) && id in Exec(Initial(), ss).jobs
    ensures var w := Exec(Initial(), ss);
      ActOn(w, s, id).Move? && ActOn(w, s, id).report.FromBuilder? ==>
        var r := ActOn(w, s, id).report;
        && (id, r.attempt) in w.issued && w.issued[(id, r.attempt)].machine == r.machine
        && (forall b :: (id, b) in w.issued ==> b <= r.attempt)
        && Building(w.jobs[id])
  {
    var w := Exec(Initial(), ss);
    FencedAlways(ss);
    StepsMoveRows(w, s, id);
    assert RowInv(id, w.jobs[id]);
    if ActOn(w, s, id).Move? && ActOn(w, s, id).report.FromBuilder? {
      BuildersReportOnBuilding(id, w.jobs[id], ActOn(w, s, id).report);
      assert Holds(w, id);
      forall b | (id, b) in w.issued ensures b <= w.jobs[id].attempt {
        var p := (id, b);
        assert p in w.issued;
      }
    }
  }

  /** A built or signing job's package and SBOM are in storage, are the ones that the accepted
      provenance names, and were named under the very claim that the provenance names, after it
      was issued and to its machine. */
  lemma {:induction false} BuiltMeansDeliveredUnderItsClaim(ss: seq<Step>, id: JobId)
    requires Runs(Initial(), ss) && id in Exec(Initial(), ss).jobs && AtSigner(Exec(Initial(), ss).jobs[id])
    ensures var w := Exec(Initial(), ss);
      var j := w.jobs[id];
      && j.provenance.Some? && Unsigned in j.keys && Sbom in j.keys
      && var st, unsigned, sbom := j.provenance.value, j.keys[Unsigned], j.keys[Sbom];
      && unsigned in w.objects && w.objects[unsigned] == st.unsigned
      && sbom in w.objects && w.objects[sbom].digest == st.sbom
      && st.job == id && st.attempt == j.attempt && unsigned.attempt == st.attempt && sbom.attempt == st.attempt
      && (id, st.attempt) in w.issued && w.issued[(id, st.attempt)].machine == st.builder
      && w.issued[(id, st.attempt)].nonce <= unsigned.nonce && w.issued[(id, st.attempt)].nonce <= sbom.nonce
  {
    var w := Exec(Initial(), ss);
    var j := w.jobs[id];
    FencedAlways(ss);
    assert RowInv(id, j) && Delivered(id, j) && Holds(w, id);
    NamedIsStored(w, id, Unsigned);
    NamedIsStored(w, id, Sbom);
    NamedUnderItsClaim(w, id, Unsigned);
    NamedUnderItsClaim(w, id, Sbom);
  }

  lemma NamedUnderItsClaim(w: World, id: JobId, c: Column)
    requires Rows(w) && Fenced(w) && id in w.jobs && c in w.jobs[id].keys && c != Signed
    ensures w.jobs[id].keys[c].job == id && UnderItsClaim(w, w.jobs[id].keys[c])
  {
    assert RowInv(id, w.jobs[id]) && KeyTag(id, w.jobs[id], c, w.jobs[id].keys[c]);
    assert Refers(w, w.jobs[id].keys[c]);
  }
}

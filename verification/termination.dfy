/** Whole runs are bounded: how often a job is claimed, and how often its status changes. */
module Termination {
  import opened Wrappers
  import opened JobStates
  import opened BuildJobs
  import opened JobProgress
  import opened World

  /** What has happened to one job so far. */
  datatype Tally = Tally(claims: nat, changes: nat, deferrals: nat)

  function Count(ss: seq<Step>, id: JobId): Tally {
    if ss == [] then Tally(0, 0, 0) else
    var w, s, t := Exec(Initial(), ss[..|ss| - 1]), ss[|ss| - 1], Count(ss[..|ss| - 1], id);
    if id !in w.jobs then t else
    var j, a := w.jobs[id], ActOn(w, s, id);
    Tally(if a.Take? then t.claims + 1 else t.claims,
          if After(j, a).status != j.status then t.changes + 1 else t.changes,
          if a.Move? && Deferring(a.report) then t.deferrals + 1 else t.deferrals)
  }

  /** One row step against the measure: a change of status is paid for, unless it is a deferral,
      which is paid for twice over by the deferral itself. */
  lemma StepIsPaidFor(id: JobId, j: Job, a: RowAct)
    requires RowInv(id, j) && Allowed(id, j, a)
    ensures var j' := After(j, a);
      Measure(j') + (if j'.status != j.status then 1 else 0) <=
      Measure(j) + (if a.Move? && Deferring(a.report) then 2 else 0)
    ensures After(j, a).spec == j.spec && After(j, a).attempt == if a.Take? then j.attempt + 1 else j.attempt
  {
    match a
    case Stay =>
    case Take(m, now, granted) => ClaimDecreases(id, j, m, now, granted);
    case Move(r) => StatusChangesDecrease(id, j, r); ReportsDoNotStart(id, j, r);
  }

  lemma WorldStepIsPaidFor(w: World, s: Step, id: JobId)
    requires RowsInv(w) && Enabled(w, s) && id in w.jobs
    ensures var j, a, j' := w.jobs[id], ActOn(w, s, id), After(w.jobs[id], ActOn(w, s, id));
      && Next(w, s).jobs.Keys >= {id} && Next(w, s).jobs[id] == j'
      && Measure(j') + (if j'.status != j.status then 1 else 0) <=
         Measure(j) + (if a.Move? && Deferring(a.report) then 2 else 0)
      && j'.spec == j.spec && j'.attempt == if a.Take? then j.attempt + 1 else j.attempt
  {
    StepsMoveRows(w, s, id);
    assert RowInv(id, w.jobs[id]);
    StepIsPaidFor(id, w.jobs[id], ActOn(w, s, id));
  }

  /** The attempt number counts the claims, and the status changes so far plus the measure that is
      left stay within the budget of the job's kind, but for two per deferred signing. */
  lemma {:induction false} TallyIsBudgeted(ss: seq<Step>, id: JobId)
    requires Runs(Initial(), ss)
    ensures var w, t := Exec(Initial(), ss), Count(ss, id);
      if id in w.jobs then
        t.claims == w.jobs[id].attempt
        && t.changes + Measure(w.jobs[id]) <= Budget(w.jobs[id].spec.kind) + 2 * t.deferrals
      else t == Tally(0, 0, 0)
  {
    if ss != [] {
      var before, s := ss[..|ss| - 1], ss[|ss| - 1];
      var w := Exec(Initial(), before);
      TallyIsBudgeted(before, id);
      if id in w.jobs {
        RowsInvAlways(before);
        WorldStepIsPaidFor(w, s, id);
      } else if id in Next(w, s).jobs {
        FreshMeasure(NewRow(s.spec));
      }
    }
  }

  /** In any run, however reports, reapers, hand-backs and lost commits interleave: a package job
      is claimed at most three times and an OTA job at most once, a queued job has a claim left,
      and the status changes at most 69 (OTA: 33) times plus twice for every deferred signing. */
  lemma {:induction false} RunsAreBounded(ss: seq<Step>, id: JobId)
    requires Runs(Initial(), ss) && id in Exec(Initial(), ss).jobs
    ensures var j, t := Exec(Initial(), ss).jobs[id], Count(ss, id);
      && t.claims <= (if j.spec.kind == Apk then 3 else 1)
      && (j.status == Queued ==> t.claims < (if j.spec.kind == Apk then 3 else 1))
      && t.changes <= (if j.spec.kind == Apk then 69 else 33) + 2 * t.deferrals
  {
    TallyIsBudgeted(ss, id);
    RowsInvAlways(ss);
    var j := Exec(Initial(), ss).jobs[id];
    assert RowInv(id, j);
    MeasureIsBounded(id, j);
  }

  /** A finished job never moves again. */
  lemma {:induction false} FinishedJobsStay(ss: seq<Step>, more: seq<Step>, id: JobId)
    requires Runs(Initial(), ss + more) && Runs(Initial(), ss)
    requires id in Exec(Initial(), ss).jobs && Exec(Initial(), ss).jobs[id].status in TERMINAL
    ensures id in Exec(Initial(), ss + more).jobs
    ensures Exec(Initial(), ss + more).jobs[id].status == Exec(Initial(), ss).jobs[id].status
    ensures Exec(Initial(), ss + more).jobs[id].artifact == Exec(Initial(), ss).jobs[id].artifact
    ensures Count(ss + more, id) == Count(ss, id)
  {
    assert (ss + more)[..|ss|] == ss;
    FinishedSince(ss + more, |ss|, id);
  }

  lemma {:induction false} FinishedSince(ss: seq<Step>, k: nat, id: JobId)
    requires k <= |ss| && Runs(Initial(), ss)
    requires id in Exec(Initial(), ss[..k]).jobs && Exec(Initial(), ss[..k]).jobs[id].status in TERMINAL
    ensures id in Exec(Initial(), ss).jobs
    ensures Exec(Initial(), ss).jobs[id].status == Exec(Initial(), ss[..k]).jobs[id].status
    ensures Exec(Initial(), ss).jobs[id].artifact == Exec(Initial(), ss[..k]).jobs[id].artifact
    ensures Count(ss, id) == Count(ss[..k], id)
  {
    if k == |ss| {
      assert ss[..k] == ss;
    } else {
      assert ss[..|ss| - 1][..k] == ss[..k];
      FinishedSince(ss[..|ss| - 1], k, id);
      FinishedOneMore(ss, id);
    }
  }

  lemma {:induction false} FinishedOneMore(ss: seq<Step>, id: JobId)
    requires ss != [] && Runs(Initial(), ss)
    requires var w := Exec(Initial(), ss[..|ss| - 1]); id in w.jobs && w.jobs[id].status in TERMINAL
    ensures var w, w' := Exec(Initial(), ss[..|ss| - 1]), Exec(Initial(), ss);
      && id in w'.jobs && w'.jobs[id].status == w.jobs[id].status && w'.jobs[id].artifact == w.jobs[id].artifact
      && Count(ss, id) == Count(ss[..|ss| - 1], id)
  {
    RowsInvAlways(ss[..|ss| - 1]);
    FinishedStep(Exec(Initial(), ss[..|ss| - 1]), ss[|ss| - 1], id);
  }

  lemma FinishedStep(w: World, s: Step, id: JobId)
    requires Picks(w) && Tagged(w) && Enabled(w, s) && id in w.jobs && w.jobs[id].status in TERMINAL
    ensures id in Next(w, s).jobs && Next(w, s).jobs[id].status == w.jobs[id].status
    ensures Next(w, s).jobs[id].artifact == w.jobs[id].artifact
    ensures !ActOn(w, s, id).Take? && !(ActOn(w, s, id).Move? && Deferring(ActOn(w, s, id).report))
    ensures After(w.jobs[id], ActOn(w, s, id)).status == w.jobs[id].status
  {
    StepsMoveRows(w, s, id);
    if ActOn(w, s, id).Move? { TerminalRowsStay(id, w.jobs[id], ActOn(w, s, id).report); }
  }
}

/** Runs put together step by step: what each step makes of the parts of a world that matter to
    claims and releases. */
module ScenarioSteps {
  import opened Wrappers
  import opened JobStates
  import opened BuildJobs
  import opened World

  // ---- one step at a time ----

  /** The parts of a world that claims and releases touch. */
  predicate Looks(w: World, jobs: map<JobId, Job>, claims: map<Machine, ClaimTx>, releases: map<ReleaseId, Release>) {
    w.jobs == jobs && w.claims == claims && w.releases == releases
  }

  lemma {:induction false} Extend(ss: seq<Step>, s: Step)
    requires Runs(Initial(), ss) && Enabled(Exec(Initial(), ss), s)
    ensures Runs(Initial(), ss + [s]) && Exec(Initial(), ss + [s]) == Next(Exec(Initial(), ss), s)
  {
    assert (ss + [s])[..|ss|] == ss;
  }

  lemma QueueLooks(w: World, s: Step)
    requires s.Queue? && s.id !in w.jobs
    ensures Looks(Next(w, s), w.jobs[s.id := NewRow(s.spec)], w.claims, w.releases)
  {
    assert forall k :: k in w.jobs ==> ActOn(w, s, k) == Stay;
  }

  lemma BeginLooks(w: World, m: Machine, serves: set<JobId>)
    ensures Looks(Next(w, ClaimBegin(m, serves)), w.jobs, w.claims[m := ClaimTx(w.jobs, serves, None)], w.releases)
  {
    assert JobsAfter(w, ClaimBegin(m, serves)) == w.jobs;
  }

  lemma PickLooks(w: World, m: Machine, id: JobId)
    requires m in w.claims
    ensures Looks(Next(w, ClaimPick(m, id)), w.jobs, w.claims[m := w.claims[m].(picked := Some(id))], w.releases)
  {
    assert JobsAfter(w, ClaimPick(m, id)) == w.jobs;
  }

  lemma EndLooks(w: World, m: Machine, id: JobId, now: Time)
    requires m in w.claims && w.claims[m].picked == Some(id) && id in w.jobs
    ensures Looks(Next(w, ClaimEnd(m, now, Grant, Acked)), w.jobs[id := ClaimRow(w.jobs[id], m, now, true)],
                  w.claims - {m}, w.releases)
  {
    var s := ClaimEnd(m, now, Grant, Acked);
    assert forall k :: k in w.jobs ==> ActOn(w, s, k) == if k == id then Take(m, now, true) else Stay;
    assert JobsAfter(w, s) == w.jobs[id := ClaimRow(w.jobs[id], m, now, true)];
  }

  /** The run goes on by one step, and the parts of the world that are not shown stay. */
  ghost predicate Then(before: seq<Step>, after: seq<Step>) {
    Runs(Initial(), before) && Runs(Initial(), after)
    && Exec(Initial(), after).completions == Exec(Initial(), before).completions
    && Exec(Initial(), after).nextRelease == Exec(Initial(), before).nextRelease
    && Exec(Initial(), after).purges == Exec(Initial(), before).purges
  }

  lemma {:induction false} QueuesRow(ss: seq<Step>, s: Step) returns (more: seq<Step>)
    requires Runs(Initial(), ss) && s.Queue? && Enabled(Exec(Initial(), ss), s)
    ensures var w := Exec(Initial(), ss);
      Then(ss, more) && Looks(Exec(Initial(), more), w.jobs[s.id := NewRow(s.spec)], w.claims, w.releases)
  {
    QueueLooks(Exec(Initial(), ss), s);
    Extend(ss, s);
    more := ss + [s];
  }

  lemma {:induction false} SubsetsAreSmaller(a: set<nat>, b: set<nat>)
    requires a <= b
    ensures |a| <= |b|
  {
    if a != {} {
      var k :| k in a;
      SubsetsAreSmaller(a - {k}, b - {k});
    }
  }

  /** Where there are few rows, queueing reads all of them. */
  lemma FewRowsAreAllRead(w: World, id: JobId, spec: Spec)
    requires id !in w.jobs && spec.kind == Apk && spec.build >= 1 && AboveFloor(w, spec)
    requires |w.jobs.Keys| <= 50 && |w.releases.Keys| <= 50
    ensures Enabled(w, Queue(id, spec, JobTable(w, spec).Keys, ReleaseTable(w, spec).Keys))
  {
    SubsetsAreSmaller(JobTable(w, spec).Keys, w.jobs.Keys);
    SubsetsAreSmaller(ReleaseTable(w, spec).Keys, w.releases.Keys);
    forall k | k in JobTable(w, spec) ensures w.jobs[k].spec.build != spec.build {
      assert k in JobTable(w, spec).Keys;
    }
  }

  lemma {:induction false} Queues(ss: seq<Step>, id: JobId, spec: Spec) returns (more: seq<Step>)
    requires Runs(Initial(), ss) && id !in Exec(Initial(), ss).jobs && AboveFloor(Exec(Initial(), ss), spec)
    requires spec.kind == Apk && spec.build >= 1
    requires |Exec(Initial(), ss).jobs.Keys| <= 50 && |Exec(Initial(), ss).releases.Keys| <= 50
    ensures var w := Exec(Initial(), ss);
      Then(ss, more) && Looks(Exec(Initial(), more), w.jobs[id := NewRow(spec)], w.claims, w.releases)
  {
    var w := Exec(Initial(), ss);
    FewRowsAreAllRead(w, id, spec);
    more := QueuesRow(ss, Queue(id, spec, JobTable(w, spec).Keys, ReleaseTable(w, spec).Keys));
  }

  lemma {:induction false} Begins(ss: seq<Step>, m: Machine, serves: set<JobId>) returns (more: seq<Step>)
    requires Runs(Initial(), ss) && m !in Exec(Initial(), ss).claims && !HasActiveJob(Exec(Initial(), ss), m)
    ensures var w := Exec(Initial(), ss);
      Then(ss, more) && Looks(Exec(Initial(), more), w.jobs, w.claims[m := ClaimTx(w.jobs, serves, None)], w.releases)
  {
    var w, s := Exec(Initial(), ss), ClaimBegin(m, serves);
    BeginLooks(w, m, serves);
    BeginIsEnabled(w, m, serves);
    Extend(ss, s);
    more := ss + [s];
  }

  lemma BeginIsEnabled(w: World, m: Machine, serves: set<JobId>)
    requires m !in w.claims && !HasActiveJob(w, m)
    ensures Enabled(w, ClaimBegin(m, serves))
    ensures var w' := Next(w, ClaimBegin(m, serves));
      w'.completions == w.completions && w'.nextRelease == w.nextRelease && w'.purges == w.purges
  {
  }

  lemma {:induction false} PicksRow(ss: seq<Step>, m: Machine, id: JobId) returns (more: seq<Step>)
    requires Runs(Initial(), ss) && m in Exec(Initial(), ss).claims && Exec(Initial(), ss).claims[m].picked.None?
    requires Chosen(Exec(Initial(), ss), Exec(Initial(), ss).claims[m], id)
    ensures var w := Exec(Initial(), ss);
      Then(ss, more)
      && Looks(Exec(Initial(), more), w.jobs, w.claims[m := w.claims[m].(picked := Some(id))], w.releases)
  {
    PickLooks(Exec(Initial(), ss), m, id);
    Extend(ss, ClaimPick(m, id));
    more := ss + [ClaimPick(m, id)];
  }

  lemma {:induction false} Ends(ss: seq<Step>, m: Machine, id: JobId, now: Time) returns (more: seq<Step>)
    requires Runs(Initial(), ss) && m in Exec(Initial(), ss).claims && Exec(Initial(), ss).claims[m].picked == Some(id)
    requires id in Exec(Initial(), ss).jobs
    ensures var w := Exec(Initial(), ss);
      Then(ss, more)
      && Looks(Exec(Initial(), more), w.jobs[id := ClaimRow(w.jobs[id], m, now, true)], w.claims - {m}, w.releases)
  {
    EndLooks(Exec(Initial(), ss), m, id, now);
    Extend(ss, ClaimEnd(m, now, Grant, Acked));
    more := ss + [ClaimEnd(m, now, Grant, Acked)];
  }

  /** A job that is ahead of all queued jobs and whose rivals in the snapshot have all finished is
      the one that a claim picks. */
  lemma PicksTheOnlyOne(w: World, m: Machine, id: JobId)
    requires m in w.claims && id in w.jobs && w.jobs[id].status == Queued && id in w.claims[m].serves && !Locked(w, id)
    requires forall o :: o in w.jobs && w.jobs[o].status == Queued ==> w.jobs[id].spec.createdAt <= w.jobs[o].spec.createdAt
    requires forall o :: o in w.claims[m].snapshot ==> Clear(w.claims[m].snapshot[o], o, w.jobs[id], id)
    ensures Chosen(w, w.claims[m], id)
  {
    forall o | o in w.claims[m].snapshot ensures !Building(w.claims[m].snapshot[o]) {
      assert Clear(w.claims[m].snapshot[o], o, w.jobs[id], id);
    }
    forall o | o in w.claims[m].snapshot && w.claims[m].snapshot[o].status == Queued
      ensures !Before(o, w.claims[m].snapshot[o], id, w.jobs[id])
    {
      assert Clear(w.claims[m].snapshot[o], o, w.jobs[id], id);
    }
  }

  predicate Clear(past: Job, o: JobId, j: Job, id: JobId) {
    !Building(past) && (past.status == Queued ==> !Before(o, past, id, j))
  }

  // ---- a machine that serves one job, while nobody else claims or builds ----

  lemma BeginsAlone(ss: seq<Step>, rows: map<JobId, Job>, m: Machine, id: JobId, releases: map<ReleaseId, Release>)
    returns (more: seq<Step>)
    requires Runs(Initial(), ss) && Looks(Exec(Initial(), ss), rows, map[], releases)
    requires forall k :: k in rows ==> !Building(rows[k])
    ensures Runs(Initial(), more) && Looks(Exec(Initial(), more), rows, map[m := ClaimTx(rows, {id}, None)], releases)
  {
    assert !HasActiveJob(Exec(Initial(), ss), m);
    more := Begins(ss, m, {id});
    OneClaim(m, ClaimTx(rows, {id}, None), ClaimTx(rows, {id}, None));
  }

  lemma PicksAlone(ss: seq<Step>, rows: map<JobId, Job>, m: Machine, id: JobId, releases: map<ReleaseId, Release>)
    returns (more: seq<Step>)
    requires Runs(Initial(), ss) && Looks(Exec(Initial(), ss), rows, map[m := ClaimTx(rows, {id}, None)], releases)
    requires id in rows && rows[id].status == Queued && rows[id].spec.platform == Android
    ensures Runs(Initial(), more) && Looks(Exec(Initial(), more), rows, map[m := ClaimTx(rows, {id}, Some(id))], releases)
  {
    assert Chosen(Exec(Initial(), ss), ClaimTx(rows, {id}, None), id);
    more := PicksRow(ss, m, id);
    OneClaim(m, ClaimTx(rows, {id}, None), ClaimTx(rows, {id}, Some(id)));
  }

  lemma EndsAlone(ss: seq<Step>, rows: map<JobId, Job>, m: Machine, id: JobId, now: Time, releases: map<ReleaseId, Release>)
    returns (more: seq<Step>)
    requires Runs(Initial(), ss) && id in rows
    requires Looks(Exec(Initial(), ss), rows, map[m := ClaimTx(rows, {id}, Some(id))], releases)
    ensures Runs(Initial(), more)
    ensures Looks(Exec(Initial(), more), rows[id := ClaimRow(rows[id], m, now, true)], map[], releases)
  {
    more := Ends(ss, m, id, now);
    OneClaim(m, ClaimTx(rows, {id}, Some(id)), ClaimTx(rows, {id}, Some(id)));
  }

  lemma ApplyLooks(w: World, s: Step)
    requires s.Apply? && Applied(s.commit) && s.id in w.jobs && ReleaseOf(s.report).None?
    ensures Looks(Next(w, s), w.jobs[s.id := Update(w.jobs[s.id], s.report)], w.claims, w.releases)
  {
    assert forall k :: k in w.jobs ==> ActOn(w, s, k) == if k == s.id then Move(s.report) else Stay;
    assert JobsAfter(w, s) == w.jobs[s.id := Update(w.jobs[s.id], s.report)];
  }

  // ---- small maps ----

  lemma OneClaim(m: Machine, t: ClaimTx, u: ClaimTx)
    ensures map[][m := t] == map[m := t] && map[m := t][m := u] == map[m := u] && map[m := u] - {m} == map[]
  {
  }

  lemma TwoRows(a: JobId, x: Job, b: JobId, y: Job, z: Job)
    requires a != b
    ensures map[a := x, b := y][a := z] == map[a := z, b := y] && map[a := x, b := y][b := z] == map[a := x, b := z]
    ensures map[a := x][b := y] == map[a := x, b := y] && map[a := x][a := z] == map[a := z]
  {
  }

  lemma TwoClaims(m: Machine, t: ClaimTx, n: Machine, u: ClaimTx)
    requires m != n
    ensures map[m := t] - {m} == map[] && map[m := t, n := u] - {n} == map[m := t]
    ensures map[m := t][n := u] == map[m := t, n := u]
  {
  }
}

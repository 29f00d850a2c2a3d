/** Claims that race: a claim takes its snapshot, locks a row and commits in three steps, while
    other claims, reports and queueing go on. When that still keeps the iOS package jobs of a
    tenant one at a time and in order. */
module ClaimOrder {
  import opened Wrappers
  import opened JobStates
  import opened BuildJobs
  import opened JobProgress
  import opened World

  // ---- one job per machine ----

  /** A machine builds one job at most, and none while it is claiming. */
  predicate OneEach(w: World) {
    && (forall a, b :: a in w.jobs && b in w.jobs && SameMachine(w.jobs[a], w.jobs[b]) ==> a == b)
    && (forall id :: id in w.jobs && Builds(w.jobs[id]) ==> w.jobs[id].machine.value !in w.claims)
  }

  predicate SameMachine(a: Job, b: Job) { Builds(a) && Builds(b) && a.machine == b.machine }

  predicate Builds(j: Job) { Building(j) && j.machine.Some? }

  /** Only a claim makes a row build, for the claiming machine. */
  lemma BuildsByClaim(id: JobId, j: Job, a: RowAct)
    requires Allowed(id, j, a) && Building(After(j, a))
    ensures if a.Take? then After(j, a).machine == Some(a.machine) && j.status == Queued
      else Building(j) && After(j, a).machine == j.machine
  {
    if a.Move? { ReportsDoNotStart(id, j, a.report); }
  }

  /** A row that builds after a step was building before, or was just claimed. */
  predicate ClaimedOrBuilt(w: World, s: Step, id: JobId, j': Job) {
    id in w.jobs
    && ((Builds(w.jobs[id]) && j'.machine == w.jobs[id].machine)
        || (s.ClaimEnd? && s.machine in w.claims && w.claims[s.machine].picked == Some(id) && j'.machine == Some(s.machine)))
  }

  lemma RowBuilds(w: World, s: Step, id: JobId)
    requires Picks(w) && Tagged(w) && Enabled(w, s) && id in Next(w, s).jobs && Builds(Next(w, s).jobs[id])
    ensures ClaimedOrBuilt(w, s, id, Next(w, s).jobs[id])
  {
    StepsMoveRows(w, s, id);
    BuildsByClaim(id, w.jobs[id], ActOn(w, s, id));
    if ActOn(w, s, id).Take? { TakesAreClaims(w, s, id); }
  }

  lemma OneEachKept(w: World, s: Step)
    requires RowsInv(w) && OneEach(w) && Enabled(w, s)
    ensures OneEach(Next(w, s))
  {
    var w' := Next(w, s);
    forall a, b | a in w'.jobs && b in w'.jobs && SameMachine(w'.jobs[a], w'.jobs[b]) ensures a == b {
      RowBuilds(w, s, a);
      RowBuilds(w, s, b);
      BothBuild(w, s, a, b);
    }
    forall id | id in w'.jobs && Builds(w'.jobs[id]) ensures w'.jobs[id].machine.value !in w'.claims {
      BuildersDoNotClaim(w, s, id);
    }
  }

  lemma BuildersDoNotClaim(w: World, s: Step, id: JobId)
    requires RowsInv(w) && OneEach(w) && Enabled(w, s) && id in Next(w, s).jobs && Builds(Next(w, s).jobs[id])
    ensures Next(w, s).jobs[id].machine.value !in Next(w, s).claims
  {
    RowBuilds(w, s, id);
    if s.ClaimBegin? { ClaimsStartIdle(w, s); }
  }

  lemma BothBuild(w: World, s: Step, a: JobId, b: JobId)
    requires OneEach(w) && a in Next(w, s).jobs && b in Next(w, s).jobs
    requires var ja, jb := Next(w, s).jobs[a], Next(w, s).jobs[b];
      SameMachine(ja, jb) && ClaimedOrBuilt(w, s, a, ja) && ClaimedOrBuilt(w, s, b, jb)
    ensures a == b
  {
    assert SameMachine(w.jobs[a], w.jobs[b]) ==> a == b;
  }

  lemma ClaimsStartIdle(w: World, s: Step)
    requires Enabled(w, s) && s.ClaimBegin?
    ensures forall id :: id in w.jobs && Building(w.jobs[id]) ==> w.jobs[id].machine != Some(s.machine)
  {
  }

  // ---- a tenant's iOS packages: one at a time, in order ----

  predicate Rivals(a: Job, b: Job) { IOSPackage(a) && IOSPackage(b) && SameSeries(a.spec, b.spec) }

  /** a is ahead of b in the queue of one tenant's iOS packages. */
  predicate Earlier(w: World, a: JobId, b: JobId) {
    a in w.jobs && b in w.jobs && Rivals(w.jobs[a], w.jobs[b]) && Before(a, w.jobs[a], b, w.jobs[b])
  }

  /** Claimed, running, or locked by a claim that has not ended. */
  predicate Busy(w: World, id: JobId) { id in w.jobs && (Building(w.jobs[id]) || Locked(w, id)) }

  /** Whoever is ahead of a busy job has finished. */
  ghost predicate InTurn(w: World) {
    forall a, b :: Earlier(w, a, b) && Busy(w, b) ==> w.jobs[a].status in TERMINAL
  }

  /** A snapshot is a past state of the rows. */
  predicate PastRows(w: World, snapshot: map<JobId, Job>) {
    forall id :: id in snapshot ==> id in w.jobs && PastRow(id, snapshot[id], w.jobs[id])
  }

  predicate PastRow(id: JobId, past: Job, now: Job) {
    RowInv(id, past) && past.spec == now.spec && (past.status in TERMINAL ==> now.status in TERMINAL)
  }

  /** A snapshot that has a job has every job ahead of it. */
  ghost predicate Closed(w: World, snapshot: map<JobId, Job>) {
    forall a, b :: Earlier(w, a, b) && b in snapshot ==> a in snapshot
  }

  predicate Snapshots(w: World) { forall m :: m in w.claims ==> PastRows(w, w.claims[m].snapshot) }

  ghost predicate ClosedSnapshots(w: World) { forall m :: m in w.claims ==> Closed(w, w.claims[m].snapshot) }

  /** What holds in every run. */
  predicate ClaimInv(w: World) { RowsInv(w) && OneEach(w) && Snapshots(w) }

  // ---- exactly when the turn is kept ----

  /** Whoever is ahead of the picked job and not in the claim's snapshot has finished. */
  ghost predicate MissesNobody(w: World, s: Step) {
    s.ClaimPick? && s.machine in w.claims ==>
      forall a :: Earlier(w, a, s.id) && a !in w.claims[s.machine].snapshot ==> w.jobs[a].status in TERMINAL
  }

  /** Nobody is queued ahead of a job that is busy. */
  ghost predicate OvertakesNobody(w: World, s: Step) {
    s.Queue? ==> forall b :: Busy(w, b) && Rivals(NewRow(s.spec), w.jobs[b]) ==> !Before(s.id, NewRow(s.spec), b, w.jobs[b])
  }

  ghost predicate KeepsTurn(w: World, s: Step) { MissesNobody(w, s) && OvertakesNobody(w, s) }

  /** The two subqueries suffice for what they see: whoever is ahead of the picked job and in the
      snapshot is neither queued nor building there, so it has finished, then and now. */
  lemma PickIsInTurn(w: World, s: Step, a: JobId)
    requires RowsInv(w) && Snapshots(w) && Enabled(w, s) && s.ClaimPick? && Earlier(w, a, s.id)
    requires a in w.claims[s.machine].snapshot
    ensures w.jobs[a].status in TERMINAL
  {
    var snapshot := w.claims[s.machine].snapshot;
    assert PastRow(a, snapshot[a], w.jobs[a]);
    FinishedInSnapshot(snapshot, a, s.id, w.jobs[s.id]);
  }

  /** A claim locks no job that was queued after its snapshot. */
  predicate PicksSeenJob(w: World, s: Step) {
    s.ClaimPick? && s.machine in w.claims && s.id in w.jobs && IOSPackage(w.jobs[s.id]) ==>
      s.id in w.claims[s.machine].snapshot
  }

  /** A job is queued behind those that are there. */
  predicate QueuesBehind(w: World, s: Step) {
    s.Queue? ==> forall b :: b in w.jobs && Rivals(NewRow(s.spec), w.jobs[b]) ==> Before(b, w.jobs[b], s.id, NewRow(s.spec))
  }

  /** A job is queued before any claiming starts. */
  predicate QueuesFirst(w: World, s: Step) {
    s.Queue? ==> w.claims == map[] && forall b :: b in w.jobs ==> w.jobs[b].status == Queued
  }

  predicate Orderly(w: World, s: Step) { PicksSeenJob(w, s) && (QueuesBehind(w, s) || QueuesFirst(w, s)) }

  lemma FinishedInSnapshot(snapshot: map<JobId, Job>, a: JobId, id: JobId, j: Job)
    requires a in snapshot && RowInv(a, snapshot[a]) && Rivals(snapshot[a], j) && Before(a, snapshot[a], id, j)
    requires !ActiveSibling(snapshot, j) && !EarlierQueued(snapshot, id, j)
    ensures snapshot[a].status in TERMINAL
  {
    assert snapshot[a].status != Queued && !Building(snapshot[a]);
    assert SigningStage(snapshot[a]);
  }

  lemma BusyBefore(w: World, s: Step, b: JobId)
    requires RowsInv(w) && Enabled(w, s) && Busy(Next(w, s), b)
    ensures b in w.jobs && (Busy(w, b) || (s.ClaimPick? && s.id == b))
  {
    if Building(Next(w, s).jobs[b]) {
      BuildingBefore(w, s, b);
    } else {
      LocksBefore(w, s, b);
    }
  }

  lemma BuildingBefore(w: World, s: Step, b: JobId)
    requires Picks(w) && Tagged(w) && Enabled(w, s) && b in Next(w, s).jobs && Building(Next(w, s).jobs[b])
    ensures Busy(w, b)
  {
    assert b in w.jobs;
    StepsMoveRows(w, s, b);
    BuildsByClaim(b, w.jobs[b], ActOn(w, s, b));
    if ActOn(w, s, b).Take? { TakesAreClaims(w, s, b); }
  }

  lemma LocksBefore(w: World, s: Step, b: JobId)
    requires Picks(w) && Enabled(w, s) && Locked(Next(w, s), b)
    ensures b in w.jobs && (Locked(w, b) || (s.ClaimPick? && s.id == b))
  {
    var m :| m in ClaimsAfter(w, s) && ClaimsAfter(w, s)[m].picked == Some(b);
    if !(s.ClaimPick? && s.machine == m) {
      assert w.claims[m] == ClaimsAfter(w, s)[m];
      assert HoldsQueued(w, w.claims[m].picked.value);
    }
  }

  /** What never changes in a row, and what a finished row keeps. */
  lemma RowGoesOn(w: World, s: Step, id: JobId)
    requires RowsInv(w) && Enabled(w, s) && id in w.jobs
    ensures id in Next(w, s).jobs && Next(w, s).jobs[id].spec == w.jobs[id].spec
    ensures w.jobs[id].status in TERMINAL ==> Next(w, s).jobs[id].status == w.jobs[id].status
  {
    StepsMoveRows(w, s, id);
    ActsGoOn(id, w.jobs[id], ActOn(w, s, id));
  }

  lemma ActsGoOn(id: JobId, j: Job, a: RowAct)
    requires Allowed(id, j, a)
    ensures After(j, a).spec == j.spec && (j.status in TERMINAL ==> After(j, a).status == j.status)
  {
    if a.Move? {
      ReportsDoNotStart(id, j, a.report);
      if j.status in TERMINAL { TerminalRowsStay(id, j, a.report); }
    }
  }

  lemma EarlierBefore(w: World, s: Step, a: JobId, b: JobId)
    requires RowsInv(w) && Enabled(w, s) && Earlier(Next(w, s), a, b) && a in w.jobs && b in w.jobs
    ensures Earlier(w, a, b)
  {
    RowGoesOn(w, s, a);
    RowGoesOn(w, s, b);
  }

  lemma TurnIsKept(w: World, s: Step)
    requires RowsInv(w) && InTurn(w) && Snapshots(w) && Enabled(w, s) && KeepsTurn(w, s)
    ensures InTurn(Next(w, s))
  {
    var w' := Next(w, s);
    forall a, b | Earlier(w', a, b) && Busy(w', b) ensures w'.jobs[a].status in TERMINAL {
      BusyBefore(w, s, b);
      if a in w.jobs {
        EarlierBefore(w, s, a, b);
        if !Busy(w, b) && a in w.claims[s.machine].snapshot { PickIsInTurn(w, s, a); }
        RowGoesOn(w, s, a);
      } else {
        RowGoesOn(w, s, b);
      }
    }
  }

  lemma PickedIsBusy(w: World, s: Step)
    requires Enabled(w, s) && s.ClaimPick?
    ensures Next(w, s).jobs == w.jobs && Busy(Next(w, s), s.id)
  {
    assert Next(w, s).jobs == w.jobs;
    assert ClaimsAfter(w, s)[s.machine].picked == Some(s.id);
  }

  lemma BusyStaysWhileQueueing(w: World, s: Step, b: JobId)
    requires Enabled(w, s) && s.Queue? && Busy(w, b)
    ensures Busy(Next(w, s), b) && Next(w, s).jobs[b] == w.jobs[b]
  {
    assert ClaimsAfter(w, s) == w.claims;
  }

  lemma MissedIsLost(w: World, s: Step, a: JobId)
    requires Enabled(w, s) && s.ClaimPick? && Earlier(w, a, s.id) && w.jobs[a].status !in TERMINAL
    ensures !InTurn(Next(w, s))
  {
    PickedIsBusy(w, s);
    assert Earlier(Next(w, s), a, s.id);
  }

  lemma OvertakenIsLost(w: World, s: Step, b: JobId)
    requires Enabled(w, s) && s.Queue? && Busy(w, b)
    requires Rivals(NewRow(s.spec), w.jobs[b]) && Before(s.id, NewRow(s.spec), b, w.jobs[b])
    ensures !InTurn(Next(w, s))
  {
    BusyStaysWhileQueueing(w, s, b);
    assert Earlier(Next(w, s), s.id, b);
  }

  lemma LostTurnIsLost(w: World, s: Step)
    requires Enabled(w, s) && !KeepsTurn(w, s)
    ensures !InTurn(Next(w, s))
  {
    if s.ClaimPick? {
      var a :| Earlier(w, a, s.id) && a !in w.claims[s.machine].snapshot && w.jobs[a].status !in TERMINAL;
      MissedIsLost(w, s, a);
    } else {
      var b :| Busy(w, b) && Rivals(NewRow(s.spec), w.jobs[b]) && Before(s.id, NewRow(s.spec), b, w.jobs[b]);
      OvertakenIsLost(w, s, b);
    }
  }

  /** Step by step: the turn is kept exactly when a pick misses nobody that its snapshot lacks, and
      queueing overtakes nobody that is busy. No other step can lose it. */
  lemma TurnIsKeptExactly(w: World, s: Step)
    requires RowsInv(w) && InTurn(w) && Snapshots(w) && Enabled(w, s)
    ensures InTurn(Next(w, s)) <==> KeepsTurn(w, s)
  {
    if KeepsTurn(w, s) { TurnIsKept(w, s); } else { LostTurnIsLost(w, s); }
  }

  lemma OrderlyKeepsTurn(w: World, s: Step)
    requires RowsInv(w) && ClosedSnapshots(w) && Enabled(w, s) && Orderly(w, s)
    ensures KeepsTurn(w, s)
  {
    LockedAreQueued(w);
    if s.ClaimPick? { SeenPicksMissNobody(w, s); } else { OrderlyOvertakesNobody(w, s); }
  }

  lemma SeenPicksMissNobody(w: World, s: Step)
    requires RowsInv(w) && ClosedSnapshots(w) && Enabled(w, s) && s.ClaimPick? && PicksSeenJob(w, s)
    ensures MissesNobody(w, s)
  {
  }

  lemma OrderlyOvertakesNobody(w: World, s: Step)
    requires Enabled(w, s) && (QueuesBehind(w, s) || QueuesFirst(w, s))
    requires forall id :: Locked(w, id) ==> HoldsQueued(w, id)
    ensures OvertakesNobody(w, s)
  {
  }

  lemma LockedAreQueued(w: World)
    requires Picks(w)
    ensures forall id :: Locked(w, id) ==> HoldsQueued(w, id)
  {
    forall id | Locked(w, id) ensures HoldsQueued(w, id) { LockedIsQueued(w, id); }
  }

  lemma SnapshotsKept(w: World, s: Step)
    requires RowsInv(w) && Snapshots(w) && Enabled(w, s)
    ensures Snapshots(Next(w, s))
  {
    forall m | m in Next(w, s).claims ensures PastRows(Next(w, s), Next(w, s).claims[m].snapshot) {
      if s.ClaimBegin? && m == s.machine {
        NewSnapshot(w, s);
      } else {
        SnapshotsDoNotChange(w, s, m);
        PastRowsStay(w, s, w.claims[m].snapshot);
      }
    }
  }

  lemma ClosedSnapshotsKept(w: World, s: Step)
    requires RowsInv(w) && Snapshots(w) && ClosedSnapshots(w) && Enabled(w, s) && Orderly(w, s)
    ensures ClosedSnapshots(Next(w, s))
  {
    forall m | m in Next(w, s).claims ensures Closed(Next(w, s), Next(w, s).claims[m].snapshot) {
      if s.ClaimBegin? && m == s.machine {
        NewSnapshot(w, s);
      } else {
        SnapshotsDoNotChange(w, s, m);
        ClosedStays(w, s, m);
      }
    }
  }

  lemma SnapshotsDoNotChange(w: World, s: Step, m: Machine)
    requires m in Next(w, s).claims && !(s.ClaimBegin? && m == s.machine)
    ensures m in w.claims && Next(w, s).claims[m].snapshot == w.claims[m].snapshot
  {
  }

  lemma NewSnapshot(w: World, s: Step)
    requires Rows(w) && s.ClaimBegin?
    ensures Next(w, s).jobs == w.jobs && Next(w, s).claims == w.claims[s.machine := ClaimTx(w.jobs, s.serves, None)]
    ensures PastRows(Next(w, s), w.jobs) && Closed(Next(w, s), w.jobs)
  {
    assert Next(w, s).jobs == w.jobs;
  }

  lemma PastRowsStay(w: World, s: Step, snapshot: map<JobId, Job>)
    requires RowsInv(w) && Enabled(w, s) && PastRows(w, snapshot)
    ensures PastRows(Next(w, s), snapshot)
  {
    forall id | id in snapshot ensures id in Next(w, s).jobs && PastRow(id, snapshot[id], Next(w, s).jobs[id]) {
      RowGoesOn(w, s, id);
      assert PastRow(id, snapshot[id], w.jobs[id]);
    }
  }

  lemma ClosedStays(w: World, s: Step, m: Machine)
    requires RowsInv(w) && Snapshots(w) && ClosedSnapshots(w) && Enabled(w, s) && Orderly(w, s) && m in w.claims
    ensures Closed(Next(w, s), w.claims[m].snapshot)
  {
    var w', snapshot := Next(w, s), w.claims[m].snapshot;
    forall a, b | Earlier(w', a, b) && b in snapshot ensures a in snapshot {
      assert b in w.jobs;
      if a in w.jobs { EarlierBefore(w, s, a, b); } else { NewcomerIsLast(w, s, b); }
    }
  }

  lemma NewcomerIsLast(w: World, s: Step, b: JobId)
    requires RowsInv(w) && Enabled(w, s) && s.Queue? && QueuesBehind(w, s) && b in w.jobs
    ensures !Earlier(Next(w, s), s.id, b)
  {
    RowGoesOn(w, s, b);
  }

  lemma ClaimInvKept(w: World, s: Step)
    requires ClaimInv(w) && Enabled(w, s)
    ensures ClaimInv(Next(w, s))
  {
    RowsInvKept(w, s);
    OneEachKept(w, s);
    SnapshotsKept(w, s);
  }

  lemma {:induction false} ClaimInvAlways(ss: seq<Step>)
    requires Runs(Initial(), ss)
    ensures ClaimInv(Exec(Initial(), ss))
  {
    if ss != [] {
      ClaimInvAlways(ss[..|ss| - 1]);
      ClaimInvKept(Exec(Initial(), ss[..|ss| - 1]), ss[|ss| - 1]);
    }
  }

  /** Every step of the run keeps the turn. */
  ghost predicate KeepsTurns(ss: seq<Step>) {
    ss == [] || (KeepsTurns(ss[..|ss| - 1]) && KeepsTurn(Exec(Initial(), ss[..|ss| - 1]), ss[|ss| - 1]))
  }

  /** The turn holds throughout the run. */
  ghost predicate AlwaysInTurn(ss: seq<Step>) {
    ss == [] || (AlwaysInTurn(ss[..|ss| - 1]) && InTurn(Exec(Initial(), ss)))
  }

  /** Every step of the run is orderly. */
  ghost predicate OrderlyRun(ss: seq<Step>) {
    ss == [] || (OrderlyRun(ss[..|ss| - 1]) && Orderly(Exec(Initial(), ss[..|ss| - 1]), ss[|ss| - 1]))
  }

  lemma {:induction false} OrderlyRunsKeepTurns(ss: seq<Step>)
    requires Runs(Initial(), ss) && OrderlyRun(ss)
    ensures KeepsTurns(ss) && ClosedSnapshots(Exec(Initial(), ss))
  {
    if ss != [] {
      var but, s := ss[..|ss| - 1], ss[|ss| - 1];
      var w := Exec(Initial(), but);
      OrderlyRunsKeepTurns(but);
      ClaimInvAlways(but);
      OrderlyKeepsTurn(w, s);
      ClosedSnapshotsKept(w, s);
    }
  }

  // ---- main results ----

  /** In every run whatsoever a machine has at most one claimed or running job. */
  lemma {:induction false} OneJobPerMachine(ss: seq<Step>, a: JobId, b: JobId)
    requires Runs(Initial(), ss) && a in Exec(Initial(), ss).jobs && b in Exec(Initial(), ss).jobs
    requires Building(Exec(Initial(), ss).jobs[a]) && Building(Exec(Initial(), ss).jobs[b])
    requires Exec(Initial(), ss).jobs[a].machine == Exec(Initial(), ss).jobs[b].machine
    ensures a == b
  {
    var w := Exec(Initial(), ss);
    ClaimInvAlways(ss);
    assert RowInv(a, w.jobs[a]);
    assert SameMachine(w.jobs[a], w.jobs[b]);
  }

  /** However stale the snapshots: whoever is ahead of a busy iOS package of a tenant has finished,
      throughout a run, if and only if every pick of the run misses nobody that its snapshot lacks
      and every queueing overtakes nobody that is busy. */
  lemma {:induction false} TurnsAreKeptExactly(ss: seq<Step>)
    requires Runs(Initial(), ss)
    ensures AlwaysInTurn(ss) <==> KeepsTurns(ss)
    ensures AlwaysInTurn(ss) ==> InTurn(Exec(Initial(), ss))
  {
    if ss != [] {
      var but, s := ss[..|ss| - 1], ss[|ss| - 1];
      TurnsAreKeptExactly(but);
      ClaimInvAlways(but);
      if AlwaysInTurn(but) { TurnIsKeptExactly(Exec(Initial(), but), s); }
    }
  }

  /** While the turn is kept, no two iOS packages of a tenant are claimed, running or held by a claim
      at the same time, and whoever is ahead of such a job in the queue has finished. */
  lemma {:induction false} TenantsAreServedInTurn(ss: seq<Step>, a: JobId, b: JobId)
    requires Runs(Initial(), ss) && KeepsTurns(ss)
    requires a in Exec(Initial(), ss).jobs && b in Exec(Initial(), ss).jobs && a != b
    requires Rivals(Exec(Initial(), ss).jobs[a], Exec(Initial(), ss).jobs[b])
    ensures var w := Exec(Initial(), ss);
      && !(Busy(w, a) && Busy(w, b))
      && (Busy(w, b) && Before(a, w.jobs[a], b, w.jobs[b]) ==> w.jobs[a].status in TERMINAL)
  {
    TurnsAreKeptExactly(ss);
    ClaimInvAlways(ss);
    OneIsBusy(Exec(Initial(), ss), a, b);
  }

  lemma OneIsBusy(w: World, a: JobId, b: JobId)
    requires RowsInv(w) && InTurn(w) && a in w.jobs && b in w.jobs && a != b && Rivals(w.jobs[a], w.jobs[b])
    ensures !(Busy(w, a) && Busy(w, b))
    ensures Busy(w, b) && Before(a, w.jobs[a], b, w.jobs[b]) ==> w.jobs[a].status in TERMINAL
  {
    assert Earlier(w, a, b) || Earlier(w, b, a);
    assert Before(a, w.jobs[a], b, w.jobs[b]) ==> Earlier(w, a, b);
    LockedIsQueued(w, a);
    LockedIsQueued(w, b);
  }

  // ---- runs that are orderly ----

  predicate NoQueueing(ss: seq<Step>) { forall s :: s in ss ==> !s.Queue? }

  predicate AllQueueing(ss: seq<Step>) { forall s :: s in ss ==> s.Queue? }

  /** Over a fixed set of jobs, queued in whatever order before the claiming starts, every run is
      orderly, and so keeps turns: each snapshot has all the jobs. */
  lemma {:induction false} FixedJobSetsAreOrderly(queued: seq<Step>, ss: seq<Step>)
    requires AllQueueing(queued) && NoQueueing(ss) && Runs(Initial(), queued + ss)
    ensures OrderlyRun(queued + ss)
    ensures forall m :: m in Exec(Initial(), queued + ss).claims ==>
      Exec(Initial(), queued + ss).claims[m].snapshot.Keys == Exec(Initial(), queued + ss).jobs.Keys
  {
    if ss == [] {
      assert queued + ss == queued;
      QueueingIsOrderly(queued);
    } else {
      var but, s, all := ss[..|ss| - 1], ss[|ss| - 1], queued + ss;
      assert all[..|all| - 1] == queued + but && all[|all| - 1] == s;
      FixedJobSetsAreOrderly(queued, but);
      assert !s.Queue?;
      SnapshotsHaveAll(Exec(Initial(), queued + but), s);
    }
  }

  lemma SnapshotsHaveAll(w: World, s: Step)
    requires !s.Queue? && forall m :: m in w.claims ==> w.claims[m].snapshot.Keys == w.jobs.Keys
    ensures Next(w, s).jobs.Keys == w.jobs.Keys
    ensures forall m :: m in Next(w, s).claims ==> Next(w, s).claims[m].snapshot.Keys == w.jobs.Keys
    ensures Orderly(w, s)
  {
  }

  lemma {:induction false} QueueingIsOrderly(ss: seq<Step>)
    requires AllQueueing(ss)
    ensures OrderlyRun(ss) && Exec(Initial(), ss).claims == map[]
    ensures forall id :: id in Exec(Initial(), ss).jobs ==> Exec(Initial(), ss).jobs[id].status == Queued
  {
    if ss != [] {
      QueueingIsOrderly(ss[..|ss| - 1]);
    }
  }

  /** Every claim picks right after its snapshot, as if it were one step, and jobs are queued
      behind those that are there. */
  ghost predicate Prompt(ss: seq<Step>) {
    forall i :: 0 <= i < |ss| ==> QueuesBehind(Exec(Initial(), ss[..i]), ss[i]) && PromptPick(ss, i)
  }

  predicate PromptPick(ss: seq<Step>, i: nat)
    requires i < |ss|
  {
    ss[i].ClaimPick? ==> i > 0 && ss[i - 1].ClaimBegin? && ss[i - 1].machine == ss[i].machine
  }

  lemma PrefixesArePrompt(ss: seq<Step>)
    requires ss != [] && Prompt(ss)
    ensures Prompt(ss[..|ss| - 1])
  {
    var but := ss[..|ss| - 1];
    forall i | 0 <= i < |but| ensures QueuesBehind(Exec(Initial(), but[..i]), but[i]) && PromptPick(but, i) {
      assert but[..i] == ss[..i] && but[i] == ss[i] && PromptPick(ss, i);
    }
  }

  lemma {:induction false} PromptRunsAreOrderly(ss: seq<Step>)
    requires Runs(Initial(), ss) && Prompt(ss)
    ensures OrderlyRun(ss)
  {
    if ss != [] {
      var n := |ss| - 1;
      var but := ss[..n];
      PrefixesArePrompt(ss);
      PromptRunsAreOrderly(but);
      assert QueuesBehind(Exec(Initial(), ss[..n]), ss[n]) && PromptPick(ss, n);
      if ss[n].ClaimPick? {
        assert but[..|but| - 1] == ss[..n - 1];
        RowsInvAlways(ss[..n - 1]);
        NewSnapshot(Exec(Initial(), ss[..n - 1]), ss[n - 1]);
      }
    }
  }
}

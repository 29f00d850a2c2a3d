/** How a row moves: every change of status is an edge of the table, terminal rows stay, and a
    measure over attempts, signing failures and phase bounds the number of changes. */
module JobProgress {
  import opened Wrappers
  import opened JobStates
  import opened BuildJobs

  /** The event of a report, and what it does to the status. Purges have no event and leave it. */
  lemma EveryStatusChangeIsAnEdge(id: JobId, j: Job, r: Report)
    requires Guard(id, j, r)
    ensures EventOf(r).Some? && !Recorded(r).Some? ==> HasEdge(EventOf(r).value, j.spec.kind, j.status, Update(j, r).status)
    ensures EventOf(r).None? || Recorded(r).Some? ==> Update(j, r).status == j.status
  {
    if EventOf(r).Some? && !Recorded(r).Some? {
      StartHasAnEdge(EventOf(r).value, j.spec.kind, j.status);
      var i := EdgeIndex(EventOf(r).value, j.spec.kind, j.status);
      EdgeTakesTo(id, j, r, i);
    }
  }

  lemma EdgeTakesTo(id: JobId, j: Job, r: Report, i: nat)
    requires Guard(id, j, r) && EventOf(r).Some? && !Recorded(r).Some?
    requires i == EdgeIndex(EventOf(r).value, j.spec.kind, j.status)
    ensures Update(j, r).status in EdgeAt(i).to
  {
    match r
    case FromBuilder(_, _, _, _) => BuilderEdgeTakesTo(id, j, r, i);
    case FromSigner(_, _, _, _) =>
    case FromServer(_) =>
  }

  lemma BuilderEdgeTakesTo(id: JobId, j: Job, r: Report, i: nat)
    requires Guard(id, j, r) && r.FromBuilder? && EventOf(r).Some? && !Recorded(r).Some?
    requires i == EdgeIndex(EventOf(r).value, j.spec.kind, j.status)
    ensures Update(j, r).status in EdgeAt(i).to
  {
    assert j.status in {Claimed, Running};
  }

  /** No report and no claim moves a terminal row. */
  lemma TerminalRowsStay(id: JobId, j: Job, r: Report)
    requires Guard(id, j, r) && j.status in TERMINAL
    ensures Update(j, r).status == j.status && r.FromServer? && (r.act.PurgeExpired? || r.act.PurgeRelease?)
    ensures Recorded(r).None? && Update(j, r).artifact == j.artifact
  {
    if EventOf(r).Some? {
      NoEventStartsAtTheEnd(EventOf(r).value, j.spec.kind, j.status);
    }
  }

  lemma NoEventStartsAtTheEnd(event: Event, kind: Kind, s: Status)
    requires s in TERMINAL
    ensures s !in Starts(event, kind)
  {
  }

  lemma BuildersReportOnBuilding(id: JobId, j: Job, r: Report)
    requires Guard(id, j, r) && r.FromBuilder?
    ensures Building(j) && j.attempt == r.attempt && j.machine == Some(r.machine)
  {
  }

  /** No report makes a row build, and none changes its machine. */
  lemma ReportsDoNotStart(id: JobId, j: Job, r: Report)
    requires Guard(id, j, r)
    ensures Building(Update(j, r)) ==> Building(j)
    ensures Update(j, r).machine == j.machine && Update(j, r).spec == j.spec && Update(j, r).attempt == j.attempt
  {
    match r
    case FromBuilder(_, _, _, _) => BuildersReportOnBuilding(id, j, r);
    case FromSigner(_, _, now, did) => SignerStarts(j, now, did);
    case FromServer(act) => ServerStarts(j, act);
  }

  lemma SignerStarts(j: Job, now: Time, did: SignerAct)
    ensures var k := SignerAssign(j, now, did); k.status == j.status || !Building(k)
  {
  }

  lemma ServerStarts(j: Job, act: ServerAct)
    ensures var k := ServerAssign(j, act); k.status == j.status || !Building(k)
  {
  }

  // ---- the measure ----

  function Phase(s: Status): nat {
    match s
    case Claimed => 5 case Running => 4 case Queued => 3 case Built => 2 case Signing => 1 case _ => 0
  }

  /** Claims left, then signing failures left, then the phase. */
  function Measure(j: Job): int {
    ((ClaimLimit(j) - j.attempt) * 3 + MAX_SIGN_FAILURES - j.signFailures) * 6 + Phase(j.status)
  }

  /** The measure of a freshly queued row. */
  function Budget(kind: Kind): nat { if kind == Apk then 69 else 33 }

  predicate Deferring(r: Report) { r.FromSigner? && r.signed.Defer? }

  /** Every change of status costs at least one, except that a deferred signing gives one back. */
  lemma StatusChangesDecrease(id: JobId, j: Job, r: Report)
    requires RowInv(id, j) && Guard(id, j, r)
    ensures Update(j, r).status == j.status ==> Measure(Update(j, r)) == Measure(j)
    ensures Deferring(r) ==> Measure(Update(j, r)) == Measure(j) + 1
    ensures Update(j, r).status != j.status && !Deferring(r) ==> Measure(Update(j, r)) < Measure(j)
  {
    match r
    case FromBuilder(_, _, now, did) => BuilderSpends(j, now, did);
    case FromSigner(_, _, now, did) => SignerSpends(j, now, did);
    case FromServer(act) => ServerSpends(id, j, act);
  }

  /** What the measure looks at. */
  predicate SameCounters(j: Job, k: Job) {
    k.attempt == j.attempt && k.signFailures == j.signFailures && k.spec == j.spec
  }

  lemma BuilderSpends(j: Job, now: Time, did: BuilderAct)
    ensures SameCounters(j, BuilderAssign(j, now, did))
    ensures Building(j) && did.Beat? ==> j.status == Running || Phase(BuilderAssign(j, now, did).status) < Phase(j.status)
    ensures Building(j) && !did.Beat? && !did.Deliver? ==>
      Phase(BuilderAssign(j, now, did).status) < Phase(j.status)
    ensures did.Deliver? ==> BuilderAssign(j, now, did).status == j.status
  {
  }

  lemma SignerSpends(j: Job, now: Time, did: SignerAct)
    requires j.status == Signing && (did.Reject? ==> did.failures == j.signFailures)
    ensures SameCounters(j, SignerAssign(j, now, did)) || (did.Reject? && !did.violation)
    ensures SignerAssign(j, now, did).status in {Signing, Built, Failed, Succeeded}
    ensures did.Defer? <==> SignerAssign(j, now, did).status == Built && SameCounters(j, SignerAssign(j, now, did))
  {
  }

  lemma ServerSpends(id: JobId, j: Job, act: ServerAct)
    requires RowInv(id, j) && Guard(id, j, FromServer(act))
    ensures var k := Update(j, FromServer(act));
      if k.status == j.status then Measure(k) == Measure(j) else Measure(k) < Measure(j)
  {
    var k := Update(j, FromServer(act));
    if act.ReapSign? {
      assert j.status == Signing && k.signFailures == j.signFailures + 1 && Phase(k.status) <= 2;
    } else {
      ServerCounters(j, act);
      if ServerEvent(act).Some? { ServerPhases(j, act); }
    }
  }

  lemma ServerPhases(j: Job, act: ServerAct)
    requires !act.ReapSign? && ServerEvent(act).Some? && j.status in Starts(ServerEvent(act).value, j.spec.kind)
    ensures Update(j, FromServer(act)).status == j.status || Phase(Update(j, FromServer(act)).status) < Phase(j.status)
  {
  }

  lemma ServerCounters(j: Job, act: ServerAct)
    requires !act.ReapSign?
    ensures SameCounters(j, Update(j, FromServer(act)))
  {
  }

  lemma MeasureIsBounded(id: JobId, j: Job)
    requires RowInv(id, j)
    ensures Measure(j) >= 0
  {
  }

  /** A claim costs an attempt. */
  lemma ClaimDecreases(id: JobId, j: Job, m: Machine, now: Time, granted: bool)
    requires RowInv(id, j) && j.status == Queued
    ensures 0 <= Measure(ClaimRow(j, m, now, granted)) < Measure(j)
  {
  }

  lemma FreshMeasure(j: Job)
    requires FreshRow(j)
    ensures Measure(j) == Budget(j.spec.kind)
  {
  }

  // ---- the delivered objects ----

  /** What a report gives up is exactly what the row stops naming: nothing it still names is
      dropped, and nothing it stops naming is forgotten. A release purge drops what was read. */
  lemma DroppedIsWhatTheRowForgets(id: JobId, j: Job, r: Report)
    requires RowInv(id, j) && Guard(id, j, r)
    requires Recorded(r).Some? ==> Recorded(r).value.job == id && Recorded(r).value !in RowKeys(j)
    ensures RowKeys(Update(j, r)) !! Dropped(j, r)
    ensures !(r.FromServer? && r.act.PurgeRelease?) ==>
      RowKeys(j) + (if Recorded(r).Some? then {Recorded(r).value} else {}) == RowKeys(Update(j, r)) + Dropped(j, r)
    ensures r.FromServer? && r.act.PurgeRelease? ==> RowKeys(Update(j, r)) == {}
  {
    if Recorded(r).Some? {
      RecordedKeys(id, j, r);
    } else {
      ReleasedKeys(id, j, r);
    }
  }

  lemma RecordedKeys(id: JobId, j: Job, r: Report)
    requires RowInv(id, j) && Guard(id, j, r) && Recorded(r).Some? && Recorded(r).value !in RowKeys(j)
    ensures RowKeys(Update(j, r)) !! Dropped(j, r)
    ensures RowKeys(j) + {Recorded(r).value} == RowKeys(Update(j, r)) + Dropped(j, r)
  {
    var key := Recorded(r).value;
    var j' := Update(j, r);
    var c0 := RecordedColumn(r);
    assert j'.keys == j.keys[c0 := key];
    assert c0 == key.column;
    forall k | k in RowKeys(j) ensures k in RowKeys(j') + Dropped(j, r) {
      var c :| c in j.keys && j.keys[c] == k;
      if c != c0 { assert j'.keys[c] == k; }
    }
    assert j'.keys[c0] == key;
    forall k | k in RowKeys(j') && k != key ensures k in RowKeys(j) && k !in Dropped(j, r) {
      var c :| c in j'.keys && j'.keys[c] == k;
      assert c != c0 && j.keys[c] == k;
    }
  }

  function RecordedColumn(r: Report): Column
    requires Recorded(r).Some?
  {
    if r.FromBuilder? then Recorded(r).value.column else Signed
  }

  lemma ReleasedKeys(id: JobId, j: Job, r: Report)
    requires RowInv(id, j) && Guard(id, j, r) && Recorded(r).None?
    ensures RowKeys(Update(j, r)) !! Dropped(j, r)
    ensures !(r.FromServer? && r.act.PurgeRelease?) ==> RowKeys(j) == RowKeys(Update(j, r)) + Dropped(j, r)
    ensures r.FromServer? && r.act.PurgeRelease? ==> RowKeys(Update(j, r)) == {}
  {
    var gone := Released(r);
    var j' := Update(j, r);
    UpdateKeepsKeys(j, r);
    assert j'.keys == j.keys - gone;
    forall k | k in RowKeys(j) ensures k in RowKeys(j') || k in Pick(j, gone) {
      var c :| c in j.keys && j.keys[c] == k;
      if c !in gone { assert j'.keys[c] == k; }
    }
    forall k | k in RowKeys(j') ensures k in RowKeys(j) && k !in Pick(j, gone) {
      var c :| c in j'.keys && j'.keys[c] == k;
      assert j.keys[c] == k;
    }
  }

  lemma UpdateKeepsKeys(j: Job, r: Report)
    requires Recorded(r).None?
    ensures Assign(j, r).keys == j.keys
  {
  }
}

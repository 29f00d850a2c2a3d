/** The numbers of a tenant's iOS releases over whole runs. */
module ReleaseOrder {
  import opened Wrappers
  import opened JobStates
  import opened BuildJobs
  import opened JobProgress
  import opened World
  import opened Deliveries
  import opened IOSCompletion
  import opened ClaimOrder
  import opened Series

  // ---- while releases are kept, the insertion check alone orders them ----

  /** A completion's release carries the numbers of its job. */
  predicate CarriesNumbers(w: World, c: Completion) {
    c.job in w.jobs && (c.release in w.releases ==> NumbersOf(w.releases[c.release], w.jobs[c.job].spec))
  }

  predicate NumbersOf(r: Release, spec: Spec) {
    r.tenant == spec.tenant && r.platform == spec.platform && r.version == spec.version && r.build == spec.build
  }

  predicate SameTenant(w: World, i: nat, j: nat)
    requires i < |w.completions| && j < |w.completions|
  {
    && w.completions[i].job in w.jobs && w.completions[j].job in w.jobs
    && SameSeries(w.jobs[w.completions[i].job].spec, w.jobs[w.completions[j].job].spec)
  }

  predicate NumbersGrow(w: World, i: nat, j: nat)
    requires i < |w.completions| && j < |w.completions|
    requires SameTenant(w, i, j)
  {
    var before := w.jobs[w.completions[i].job].spec;
    Above(w.jobs[w.completions[j].job].spec, before.version, before.build)
  }

  ghost predicate KeptInv(w: World) {
    && CompletionInv(w) && Ascending(w)
    && (forall i :: 0 <= i < |w.completions| ==> CarriesNumbers(w, w.completions[i]))
    && (forall i, j :: 0 <= i < j < |w.completions| && SameTenant(w, i, j) && w.completions[i].release in w.releases ==>
          NumbersGrow(w, i, j))
  }

  lemma NewCarriesNumbers(w: World, s: Step)
    requires CompletionInv(w) && Enabled(w, s) && Completing(s)
    ensures CarriesNumbers(Next(w, s), CompletionOf(s))
    ensures var spec := w.jobs[s.id].spec; Increasing(w, spec.tenant, spec.platform, spec.version, spec.build)
  {
    RowGoesOn(w, s, s.id);
  }

  lemma OldCarriesNumbers(w: World, s: Step, c: Completion)
    requires CompletionInv(w) && Enabled(w, s) && CarriesNumbers(w, c) && BackedBy(w, c)
    ensures CarriesNumbers(Next(w, s), c)
    ensures Next(w, s).jobs[c.job].spec == w.jobs[c.job].spec
    ensures c.release in Next(w, s).releases ==> c.release in w.releases
  {
    RowGoesOn(w, s, c.job);
    if c.release in Next(w, s).releases { ReleasesComeFrom(w, s, c.release); }
  }

  lemma StillCarriesNumbers(w: World, s: Step, i: nat)
    requires KeptInv(w) && Enabled(w, s) && i < |w.completions|
    ensures CarriesNumbers(Next(w, s), w.completions[i])
  {
    assert BackedBy(w, w.completions[i]) && CarriesNumbers(w, w.completions[i]);
    OldCarriesNumbers(w, s, w.completions[i]);
  }

  lemma KeptInvKept(w: World, s: Step)
    requires KeptInv(w) && Enabled(w, s)
    ensures KeptInv(Next(w, s))
  {
    CompletionInvKept(w, s);
    AscendingKept(w, s);
    CarriesKept(w, s);
    forall i, j | 0 <= i < j < |Next(w, s).completions| && SameTenant(Next(w, s), i, j)
                  && Next(w, s).completions[i].release in Next(w, s).releases
      ensures NumbersGrow(Next(w, s), i, j)
    {
      NumbersGoOnGrowing(w, s, i, j);
    }
  }

  lemma CarriesKept(w: World, s: Step)
    requires KeptInv(w) && Enabled(w, s)
    ensures forall i :: 0 <= i < |Next(w, s).completions| ==> CarriesNumbers(Next(w, s), Next(w, s).completions[i])
  {
    CompletionsGrow(w, s);
    forall i | 0 <= i < |Next(w, s).completions| ensures CarriesNumbers(Next(w, s), Next(w, s).completions[i]) {
      if i < |w.completions| { StillCarriesNumbers(w, s, i); } else { NewCarriesNumbers(w, s); }
    }
  }

  lemma NumbersGoOnGrowing(w: World, s: Step, i: nat, j: nat)
    requires KeptInv(w) && Enabled(w, s) && i < j < |Next(w, s).completions|
    requires SameTenant(Next(w, s), i, j) && Next(w, s).completions[i].release in Next(w, s).releases
    ensures NumbersGrow(Next(w, s), i, j)
  {
    if j < |w.completions| { OldNumbersExceed(w, s, i, j); } else { NewNumbersExceed(w, s, i, j); }
  }

  lemma ReleaseWasThere(w: World, s: Step, i: nat)
    requires KeptInv(w) && Enabled(w, s) && i < |w.completions| && w.completions[i].release in Next(w, s).releases
    ensures CarriesNumbers(w, w.completions[i]) && w.completions[i].release in w.releases
  {
    assert BackedBy(w, w.completions[i]) && CarriesNumbers(w, w.completions[i]);
    OldCarriesNumbers(w, s, w.completions[i]);
  }

  lemma OldNumbersExceed(w: World, s: Step, i: nat, j: nat)
    requires KeptInv(w) && Enabled(w, s) && i < j < |Next(w, s).completions| && j < |w.completions|
    requires SameTenant(Next(w, s), i, j) && Next(w, s).completions[i].release in Next(w, s).releases
    ensures NumbersGrow(Next(w, s), i, j)
  {
    CompletionsGrow(w, s);
    ReleaseWasThere(w, s, i);
    assert BackedBy(w, w.completions[i]) && BackedBy(w, w.completions[j]);
    RowGoesOn(w, s, w.completions[i].job);
    RowGoesOn(w, s, w.completions[j].job);
    assert SameTenant(w, i, j) && NumbersGrow(w, i, j);
  }

  lemma NewNumbersExceed(w: World, s: Step, i: nat, j: nat)
    requires KeptInv(w) && Enabled(w, s) && i < j < |Next(w, s).completions| && j >= |w.completions|
    requires SameTenant(Next(w, s), i, j) && Next(w, s).completions[i].release in Next(w, s).releases
    ensures NumbersGrow(Next(w, s), i, j)
  {
    NewCompletionIsLast(w, s, i, j);
    ReleaseWasThere(w, s, i);
    SpecsGoOn(w, s, w.completions[i].job);
    NewNumbersAreAbove(w, s, w.completions[i]);
  }

  lemma NewCompletionIsLast(w: World, s: Step, i: nat, j: nat)
    requires i < j < |Next(w, s).completions| && j >= |w.completions|
    ensures Completing(s) && Next(w, s).completions[j] == CompletionOf(s)
    ensures i < |w.completions| && Next(w, s).completions[i] == w.completions[i]
  {
    CompletionsGrow(w, s);
  }

  lemma SpecsGoOn(w: World, s: Step, id: JobId)
    requires RowsInv(w) && Enabled(w, s) && id in w.jobs
    ensures id in Next(w, s).jobs && Next(w, s).jobs[id].spec == w.jobs[id].spec
  {
    RowGoesOn(w, s, id);
  }

  lemma NewNumbersAreAbove(w: World, s: Step, c: Completion)
    requires CompletionInv(w) && Ascending(w) && Enabled(w, s) && Completing(s)
    requires CarriesNumbers(w, c) && c.release in w.releases && c.job in w.jobs && s.id in w.jobs
    requires SameSeries(w.jobs[c.job].spec, w.jobs[s.id].spec)
    ensures Next(w, s).jobs[s.id].spec == w.jobs[s.id].spec
    ensures Above(w.jobs[s.id].spec, w.jobs[c.job].spec.version, w.jobs[c.job].spec.build)
  {
    NewCarriesNumbers(w, s);
    RowGoesOn(w, s, s.id);
    var spec := w.jobs[s.id].spec;
    IncreasingIsAboveAll(w, spec.tenant, spec.platform, spec.version, spec.build, c.release);
  }

  lemma {:induction false} KeptAlways(ss: seq<Step>)
    requires Runs(Initial(), ss)
    ensures KeptInv(Exec(Initial(), ss))
  {
    if ss != [] {
      KeptAlways(ss[..|ss| - 1]);
      KeptInvKept(Exec(Initial(), ss[..|ss| - 1]), ss[|ss| - 1]);
    }
  }

  // ---- and in orderly runs the queue orders them, whatever is purged ----

  /** Whoever is ahead of a succeeded iOS package has finished. */
  ghost predicate DoneInTurn(w: World) {
    forall a, b :: Earlier(w, a, b) && w.jobs[b].status == Succeeded ==> w.jobs[a].status in TERMINAL
  }

  /** Completions come in queue order. */
  predicate InSequence(w: World) {
    forall i, j :: 0 <= i < j < |w.completions| && SameTenant(w, i, j) ==>
      Earlier(w, w.completions[i].job, w.completions[j].job)
  }

  ghost predicate SequenceInv(w: World) {
    ClaimInv(w) && InTurn(w) && ClosedSnapshots(w) && CompletionInv(w) && DoneInTurn(w) && InSequence(w)
  }

  lemma DoneInTurnKept(w: World, s: Step)
    requires RowsInv(w) && InTurn(w) && DoneInTurn(w) && Enabled(w, s) && QueuesBehind(w, s)
    ensures DoneInTurn(Next(w, s))
  {
    var w' := Next(w, s);
    forall a, b | Earlier(w', a, b) && w'.jobs[b].status == Succeeded ensures w'.jobs[a].status in TERMINAL {
      SucceedsInTurn(w, s, a, b);
    }
  }

  lemma SucceedsInTurn(w: World, s: Step, a: JobId, b: JobId)
    requires RowsInv(w) && InTurn(w) && DoneInTurn(w) && Enabled(w, s) && QueuesBehind(w, s)
    requires Earlier(Next(w, s), a, b) && Next(w, s).jobs[b].status == Succeeded
    ensures Next(w, s).jobs[a].status in TERMINAL
  {
    SuccessIsCompletion(w, s, b);
    if a in w.jobs {
      EarlierBefore(w, s, a, b);
      RowGoesOn(w, s, a);
      if w.jobs[b].status != Succeeded { CompletingRow(w, s); }
    } else {
      NobodyQueuesAhead(w, s, b);
    }
  }

  lemma NobodyQueuesAhead(w: World, s: Step, b: JobId)
    requires RowsInv(w) && Enabled(w, s) && s.Queue? && QueuesBehind(w, s) && b in w.jobs
    ensures !Earlier(Next(w, s), s.id, b)
  {
    RowGoesOn(w, s, b);
  }

  lemma InSequenceKept(w: World, s: Step)
    requires SequenceInv(w) && Enabled(w, s)
    ensures InSequence(Next(w, s))
  {
    var w' := Next(w, s);
    CompletionsGrow(w, s);
    forall i, j | 0 <= i < j < |w'.completions| && SameTenant(w', i, j)
      ensures Earlier(w', w'.completions[i].job, w'.completions[j].job)
    {
      if j < |w.completions| { OldSequence(w, s, i, j); } else { NewCompletionIsBehind(w, s, i); }
    }
  }

  lemma OldSequence(w: World, s: Step, i: nat, j: nat)
    requires RowsInv(w) && Backed(w) && InSequence(w) && Enabled(w, s) && i < j < |w.completions|
    requires |Next(w, s).completions| >= |w.completions| && Next(w, s).completions[i] == w.completions[i]
    requires Next(w, s).completions[j] == w.completions[j] && SameTenant(Next(w, s), i, j)
    ensures Earlier(Next(w, s), w.completions[i].job, w.completions[j].job)
  {
    assert BackedBy(w, w.completions[i]) && BackedBy(w, w.completions[j]);
    RowGoesOn(w, s, w.completions[i].job);
    RowGoesOn(w, s, w.completions[j].job);
    assert SameTenant(w, i, j);
  }

  lemma NewCompletionIsBehind(w: World, s: Step, i: nat)
    requires RowsInv(w) && Backed(w) && DoneInTurn(w) && Enabled(w, s) && Completing(s) && i < |w.completions|
    requires SameTenant(Next(w, s), i, |w.completions|)
    ensures Earlier(Next(w, s), w.completions[i].job, s.id)
  {
    var x := w.completions[i].job;
    assert BackedBy(w, w.completions[i]);
    RowGoesOn(w, s, x);
    RowGoesOn(w, s, s.id);
    CompletingRow(w, s);
    BuildingIsBehind(w, x, s.id);
  }

  lemma BuildingIsBehind(w: World, x: JobId, b: JobId)
    requires DoneInTurn(w) && x in w.jobs && b in w.jobs && IOSPackage(w.jobs[x]) && IOSPackage(w.jobs[b])
    requires SameSeries(w.jobs[x].spec, w.jobs[b].spec) && w.jobs[x].status == Succeeded && Building(w.jobs[b])
    ensures Earlier(w, x, b)
  {
    assert !Earlier(w, b, x);
  }

  lemma SequenceInvKept(w: World, s: Step)
    requires SequenceInv(w) && Enabled(w, s) && PicksSeenJob(w, s) && QueuesBehind(w, s)
    ensures SequenceInv(Next(w, s))
  {
    ClaimInvKept(w, s);
    OrderlyKeepsTurn(w, s);
    TurnIsKept(w, s);
    ClosedSnapshotsKept(w, s);
    CompletionInvKept(w, s);
    DoneInTurnKept(w, s);
    InSequenceKept(w, s);
  }

  ghost predicate SequentialRun(ss: seq<Step>) {
    ss == [] || (SequentialRun(ss[..|ss| - 1])
      && PicksSeenJob(Exec(Initial(), ss[..|ss| - 1]), ss[|ss| - 1])
      && QueuesBehind(Exec(Initial(), ss[..|ss| - 1]), ss[|ss| - 1]))
  }

  lemma {:induction false} SequenceAlways(ss: seq<Step>)
    requires Runs(Initial(), ss) && SequentialRun(ss)
    ensures SequenceInv(Exec(Initial(), ss))
  {
    if ss != [] {
      SequenceAlways(ss[..|ss| - 1]);
      SequenceInvKept(Exec(Initial(), ss[..|ss| - 1]), ss[|ss| - 1]);
    }
  }

  /** Runs whose claims pick right after their snapshot and whose jobs queue up behind each other. */
  lemma {:induction false} PromptRunsAreSequential(ss: seq<Step>)
    requires Runs(Initial(), ss) && Prompt(ss)
    ensures SequentialRun(ss)
  {
    if ss != [] {
      var n := |ss| - 1;
      PrefixesArePrompt(ss);
      PromptRunsAreSequential(ss[..n]);
      PromptRunsAreOrderly(ss);
      assert QueuesBehind(Exec(Initial(), ss[..n]), ss[n]);
    }
  }

  // ---- numbers and the order of queueing ----

  /** At some point of the run a was there and b was not. */
  ghost predicate QueuedBefore(ss: seq<Step>, a: JobId, b: JobId) {
    exists k :: 0 <= k <= |ss| && OnlyOneThere(Exec(Initial(), ss[..k]), a, b)
  }

  predicate OnlyOneThere(w: World, a: JobId, b: JobId) { a in w.jobs && b !in w.jobs }

  lemma {:induction false} JobsStay(ss: seq<Step>, k: nat)
    requires Runs(Initial(), ss) && k <= |ss|
    ensures Exec(Initial(), ss[..k]).jobs.Keys <= Exec(Initial(), ss).jobs.Keys
  {
    if k == |ss| {
      assert ss[..k] == ss;
    } else {
      var n := |ss| - 1;
      assert ss[..n][..k] == ss[..k];
      JobsStay(ss[..n], k);
    }
  }

  lemma {:induction false} NotThereYet(ss: seq<Step>, k: nat, a: JobId, b: JobId)
    requires ss != [] && k <= |ss| && OnlyOneThere(Exec(Initial(), ss[..k]), a, b) && b in Exec(Initial(), ss).jobs
    ensures k < |ss| && ss[..|ss| - 1][..k] == ss[..k]
  {
    assert ss[..|ss|] == ss;
  }

  /** Whoever is there now and was queued before another one that is there now, was so before the
      last step, unless that step queued the other one. */
  lemma {:induction false} QueuedBeforeTheLastStep(ss: seq<Step>, a: JobId, b: JobId)
    requires Runs(Initial(), ss) && ss != [] && b in Exec(Initial(), ss).jobs && QueuedBefore(ss, a, b)
    ensures a in Exec(Initial(), ss[..|ss| - 1]).jobs
    ensures b in Exec(Initial(), ss[..|ss| - 1]).jobs ==> QueuedBefore(ss[..|ss| - 1], a, b)
  {
    var k :| 0 <= k <= |ss| && OnlyOneThere(Exec(Initial(), ss[..k]), a, b);
    NotThereYet(ss, k, a, b);
    ThereBefore(ss[..|ss| - 1], k, a, b);
  }

  lemma {:induction false} ThereBefore(ss: seq<Step>, k: nat, a: JobId, b: JobId)
    requires Runs(Initial(), ss) && k <= |ss| && OnlyOneThere(Exec(Initial(), ss[..k]), a, b)
    ensures a in Exec(Initial(), ss).jobs && QueuedBefore(ss, a, b)
  {
    JobsStay(ss, k);
  }

  /** A job's numbers exceed those of every living job that was queued before it. */
  lemma {:induction false} LaterNumbersExceed(ss: seq<Step>, a: JobId, b: JobId)
    requires Runs(Initial(), ss) && a in Exec(Initial(), ss).jobs && b in Exec(Initial(), ss).jobs
    requires var w := Exec(Initial(), ss); Rivals(w.jobs[a], w.jobs[b]) && Alive(w.jobs[a]) && Alive(w.jobs[b])
    requires QueuedBefore(ss, a, b)
    ensures var w := Exec(Initial(), ss); Above(w.jobs[b].spec, w.jobs[a].spec.version, w.jobs[a].spec.build)
  {
    if ss != [] {
      var but, s := ss[..|ss| - 1], ss[|ss| - 1];
      var w := Exec(Initial(), but);
      QueuedBeforeTheLastStep(ss, a, b);
      RowsInvAlways(but);
      AliveBefore(w, s, a);
      if b in w.jobs {
        AliveBefore(w, s, b);
        LaterNumbersExceed(but, a, b);
      } else {
        SeriesAlways(but);
        NewcomerIsComparable(w, s, a);
      }
    }
  }

  lemma {:induction false} QueuedBeforeGoesOn(ss: seq<Step>, a: JobId, b: JobId)
    requires ss != [] && QueuedBefore(ss[..|ss| - 1], a, b)
    ensures QueuedBefore(ss, a, b)
  {
    var but := ss[..|ss| - 1];
    var k :| 0 <= k <= |but| && OnlyOneThere(Exec(Initial(), but[..k]), a, b);
    assert but[..k] == ss[..k];
  }

  /** Jobs are queued one at a time. */
  lemma {:induction false} OneWasQueuedFirst(ss: seq<Step>, a: JobId, b: JobId)
    requires Runs(Initial(), ss) && a in Exec(Initial(), ss).jobs && b in Exec(Initial(), ss).jobs && a != b
    ensures QueuedBefore(ss, a, b) || QueuedBefore(ss, b, a)
  {
    if ss != [] {
      var but := ss[..|ss| - 1];
      var w := Exec(Initial(), but);
      if a in w.jobs && b in w.jobs {
        OneWasQueuedFirst(but, a, b);
        if QueuedBefore(but, a, b) { QueuedBeforeGoesOn(ss, a, b); } else { QueuedBeforeGoesOn(ss, b, a); }
      } else {
        assert OnlyOneThere(w, a, b) || OnlyOneThere(w, b, a);
      }
    }
  }

  /** In a run that queues behind what is there, the queue has the order of queueing. */
  lemma {:induction false} QueuedBeforeIsEarlier(ss: seq<Step>, a: JobId, b: JobId)
    requires Runs(Initial(), ss) && SequentialRun(ss) && a in Exec(Initial(), ss).jobs && b in Exec(Initial(), ss).jobs
    requires Rivals(Exec(Initial(), ss).jobs[a], Exec(Initial(), ss).jobs[b]) && QueuedBefore(ss, a, b)
    ensures Earlier(Exec(Initial(), ss), a, b)
  {
    if ss != [] {
      var but, s := ss[..|ss| - 1], ss[|ss| - 1];
      QueuedBeforeTheLastStep(ss, a, b);
      RowsInvAlways(but);
      RowGoesOn(Exec(Initial(), but), s, a);
      if b in Exec(Initial(), but).jobs {
        RowGoesOn(Exec(Initial(), but), s, b);
        QueuedBeforeIsEarlier(but, a, b);
      }
    }
  }

  // ---- main results ----

  /** In every run, whatever claims race: as long as the release of an earlier completion has not
      been purged, every later completion of that tenant has a greater version and build number. */
  lemma {:induction false} KeptReleasesIncrease(ss: seq<Step>, i: nat, j: nat)
    requires Runs(Initial(), ss) && i < j < |Exec(Initial(), ss).completions|
    requires SameTenant(Exec(Initial(), ss), i, j)
    requires Exec(Initial(), ss).completions[i].release in Exec(Initial(), ss).releases
    ensures NumbersGrow(Exec(Initial(), ss), i, j)
  {
    KeptAlways(ss);
  }

  /** In every run, whatever races, ties and purges there are: of two completions of a tenant the
      later one has the greater version and build number if and only if its job was queued after the
      job of the earlier one. */
  lemma {:induction false} NumbersGrowExactlyInQueueingOrder(ss: seq<Step>, i: nat, j: nat)
    requires Runs(Initial(), ss) && i < j < |Exec(Initial(), ss).completions| && SameTenant(Exec(Initial(), ss), i, j)
    ensures var w := Exec(Initial(), ss);
      NumbersGrow(w, i, j) <==> QueuedBefore(ss, w.completions[i].job, w.completions[j].job)
  {
    var w := Exec(Initial(), ss);
    CompletionAlways(ss);
    var a, b := w.completions[i].job, w.completions[j].job;
    assert BackedBy(w, w.completions[i]) && BackedBy(w, w.completions[j]);
    OneWasQueuedFirst(ss, a, b);
    if QueuedBefore(ss, a, b) {
      LaterNumbersExceed(ss, a, b);
    } else {
      LaterNumbersExceed(ss, b, a);
    }
  }

  /** In every run whose claims pick what their snapshot had and whose queue follows created_at:
      when an iOS package is claimed, whoever was queued before it has finished; completions come
      in queue order; and so versions and build numbers strictly increase in completion order even
      when releases in between have been purged. */
  lemma {:induction false} CompletionsFollowTheQueue(ss: seq<Step>)
    requires Runs(Initial(), ss) && SequentialRun(ss)
    ensures var w := Exec(Initial(), ss);
      && (forall a, b :: Earlier(w, a, b) && Busy(w, b) ==> w.jobs[a].status in TERMINAL)
      && (forall i, j :: 0 <= i < j < |w.completions| && SameTenant(w, i, j) ==>
            Earlier(w, w.completions[i].job, w.completions[j].job) && NumbersGrow(w, i, j))
  {
    var w := Exec(Initial(), ss);
    SequenceAlways(ss);
    forall i, j | 0 <= i < j < |w.completions| && SameTenant(w, i, j)
      ensures Earlier(w, w.completions[i].job, w.completions[j].job) && NumbersGrow(w, i, j)
    {
      var a, b := w.completions[i].job, w.completions[j].job;
      assert Earlier(w, a, b);
      OneWasQueuedFirst(ss, a, b);
      if QueuedBefore(ss, b, a) { QueuedBeforeIsEarlier(ss, b, a); }
      NumbersGrowExactlyInQueueingOrder(ss, i, j);
    }
  }
}

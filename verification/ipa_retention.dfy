/** Self-upload packages after delivery: what the tenant marks, how long the package is promised to be
    kept, and when it is purged. */
module IPARetention {
  import opened Wrappers

  type Time = int

  const DAY := 86400
  const RETENTION := 30 * DAY
  const UPLOADED_RETENTION := 7 * DAY
  const BATCH := 100

  /** delivery_state: what the tenant marked, and the purge. */
  datatype State = State(uploadedAt: Option<Time>, installableAt: Option<Time>, rejection: Option<string>,
                         rejectedAt: Option<Time>, purgedAt: Option<Time>)

  const BLANK := State(None, None, None, None, None)

  datatype Mark = Uploaded | Installable | Rejected(message: string)

  /** A succeeded self-upload job: when it was built, what was marked, and whether its package is
      still there. */
  datatype Parcel = Parcel(done: Time, state: Option<State>, available: bool)

  function StateOf(p: Parcel): State { if p.state.Some? then p.state.value else BLANK }

  // ---- marking ----

  /** markIOSIPAStatus on the locked row. */
  function Marked(s: State, mark: Mark, now: Time): State {
    match mark
    case Uploaded => s.(uploadedAt := Some(now))
    case Installable =>
      s.(uploadedAt := if s.uploadedAt.None? then Some(now) else s.uploadedAt, installableAt := Some(now),
         rejection := None, rejectedAt := None)
    case Rejected(message) => s.(rejection := Some(message), rejectedAt := Some(now), installableAt := None)
  }

  /** The purge's update sets one field of whatever the state is by then, and takes the package away. */
  function Purged(p: Parcel, now: Time): Parcel {
    p.(state := Some(StateOf(p).(purgedAt := Some(now))), available := false)
  }

  /** The update of a purge that read the package as still there: its guard looks again. */
  function PurgedLate(p: Parcel, now: Time): Parcel { if p.available then Purged(p, now) else p }

  function MarkedParcel(p: Parcel, mark: Mark, now: Time): Parcel { p.(state := Some(Marked(StateOf(p), mark, now))) }

  datatype Event = Marking(mark: Mark, at: Time) | Purging(at: Time)

  function Happen(p: Parcel, events: seq<Event>): Parcel {
    if events == [] then p else
    var before := Happen(p, events[..|events| - 1]);
    match events[|events| - 1]
    case Marking(mark, at) => MarkedParcel(before, mark, at)
    case Purging(at) => PurgedLate(before, at)
  }

  /** Installable means uploaded and not rejected, and a rejection carries its time. */
  predicate Consistent(s: State) {
    (s.installableAt.Some? ==> s.uploadedAt.Some? && s.rejection.None?) && (s.rejection.Some? <==> s.rejectedAt.Some?)
  }

  /** However marks and purges follow each other, the state stays consistent, and a purged package
      stays purged. */
  lemma {:induction false} StatesStayConsistent(p: Parcel, events: seq<Event>)
    requires Consistent(StateOf(p))
    ensures Consistent(StateOf(Happen(p, events)))
    ensures !p.available || (exists i :: 0 <= i < |events| && events[i].Purging?) ==> !Happen(p, events).available
  {
    if events != [] {
      var but := events[..|events| - 1];
      StatesStayConsistent(p, but);
      if i :| 0 <= i < |events| && events[i].Purging? {
        assert i < |but| ==> but[i] == events[i];
      }
    }
  }

  function Marks(events: seq<Event>): seq<Event> {
    if events == [] then [] else
    var last := events[|events| - 1];
    Marks(events[..|events| - 1]) + if last.Marking? then [last] else []
  }

  /** Marks and purges never lose each other, in whatever order they come: what is marked in the end
      is what the marks alone would have left. */
  lemma {:induction false} MarksSurvivePurges(p: Parcel, events: seq<Event>)
    ensures StateOf(Happen(p, events)).(purgedAt := None) == StateOf(Happen(p, Marks(events))).(purgedAt := None)
  {
    if events != [] {
      var but, last := events[..|events| - 1], events[|events| - 1];
      MarksSurvivePurges(p, but);
      if last.Marking? {
        var marks := Marks(but) + [last];
        assert marks[..|marks| - 1] == Marks(but) && marks[|marks| - 1] == last && Marks(events) == marks;
        MarkedAlike(StateOf(Happen(p, but)), StateOf(Happen(p, Marks(but))), last.mark, last.at);
      } else {
        assert Marks(events) == Marks(but);
      }
    }
  }

  lemma MarkedAlike(s: State, t: State, mark: Mark, now: Time)
    requires s.(purgedAt := None) == t.(purgedAt := None)
    ensures Marked(s, mark, now).(purgedAt := None) == Marked(t, mark, now).(purgedAt := None)
  {
    assert s.uploadedAt == t.uploadedAt && s.installableAt == t.installableAt;
    assert s.rejection == t.rejection && s.rejectedAt == t.rejectedAt;
  }

  // ---- the promise and the purge ----

  /** What the list shows as retainedUntil. */
  function RetainedUntil(p: Parcel): Time {
    var byAge, s := p.done + RETENTION, StateOf(p);
    if s.uploadedAt.Some? && s.uploadedAt.value + UPLOADED_RETENTION < byAge
    then s.uploadedAt.value + UPLOADED_RETENTION else byAge
  }

  predicate ExpiredByAge(p: Parcel, now: Time) { now - p.done >= RETENTION }

  /** What the purge decides after its query. */
  predicate Expired(p: Parcel, now: Time) {
    ExpiredByAge(p, now) || (StateOf(p).uploadedAt.Some? && now - StateOf(p).uploadedAt.value >= UPLOADED_RETENTION)
  }

  /** What the query finds. */
  predicate Candidate(p: Parcel, now: Time) {
    p.available && (p.done < now - UPLOADED_RETENTION || p.state.Some?)
  }

  /** The purge takes exactly what the list no longer promises to keep, and the query misses none of it. */
  lemma PurgeKeepsThePromise(p: Parcel, now: Time)
    ensures Expired(p, now) <==> now >= RetainedUntil(p)
    ensures p.available && Expired(p, now) ==> Candidate(p, now)
  {
  }

  predicate MarkedUploaded(events: seq<Event>) {
    exists i :: 0 <= i < |events| && events[i].Marking? && events[i].mark.Uploaded?
  }

  /** A package is purged some time after it was found to be expired. If the tenant marks it in
      between, it is still expired when it is purged, unless it had been so only for having been
      uploaded, and is marked as uploaded once more. Only then is a package purged that the list
      still promises to keep. */
  lemma {:induction false} LatePurges(read: Parcel, events: seq<Event>, now: Time)
    requires now >= RetainedUntil(read) && forall i :: 0 <= i < |events| ==> events[i].Marking? && events[i].at >= now
    ensures var p := Happen(read, events);
      && p.available == read.available && p.done == read.done
      && (now < RetainedUntil(p) <==> !ExpiredByAge(read, now) && MarkedUploaded(events))
  {
    PurgeKeepsThePromise(read, now);
    PurgeKeepsThePromise(Happen(read, events), now);
    StillExpired(read, events, now);
  }

  lemma {:induction false} StillExpired(read: Parcel, events: seq<Event>, now: Time)
    requires Expired(read, now) && forall i :: 0 <= i < |events| ==> events[i].Marking? && events[i].at >= now
    ensures var p := Happen(read, events);
      && p.available == read.available && p.done == read.done
      && (Expired(p, now) <==> ExpiredByAge(read, now) || !MarkedUploaded(events))
      && (!ExpiredByAge(read, now) ==> StateOf(p).uploadedAt.Some?)
  {
    if events != [] {
      var but, last := events[..|events| - 1], events[|events| - 1];
      assert forall i :: 0 <= i < |but| ==> but[i] == events[i];
      StillExpired(read, but, now);
      if MarkedUploaded(but) {
        var i :| 0 <= i < |but| && but[i].Marking? && but[i].mark.Uploaded?;
        assert events[i] == but[i];
      }
      if last.mark.Uploaded? { assert events[|events| - 1].mark.Uploaded?; }
    }
  }

  /** ORDER BY heartbeat_at. */
  predicate Oldest(rows: seq<Parcel>) { forall i, j :: 0 <= i < j < |rows| ==> rows[i].done <= rows[j].done }

  function Candidates(rows: seq<Parcel>, now: Time): nat {
    if rows == [] then 0 else Candidates(rows[..|rows| - 1], now) + if Candidate(rows[|rows| - 1], now) then 1 else 0
  }

  /** The row is among the candidates that one pass reads. */
  predicate InBatch(rows: seq<Parcel>, i: nat, now: Time)
    requires i < |rows|
  {
    Candidate(rows[i], now) && Candidates(rows[..i], now) < BATCH
  }

  /** One pass: read a batch, then purge what has expired of it. */
  method PurgeExpired(rows: seq<Parcel>, now: Time) returns (after: seq<Parcel>, purged: nat)
    ensures |after| == |rows|
    ensures forall i :: 0 <= i < |rows| ==>
      after[i] == if InBatch(rows, i, now) && Expired(rows[i], now) then Purged(rows[i], now) else rows[i]
    ensures after == Pass(rows, now)
    ensures forall i :: 0 <= i < |rows| && rows[i].available && !after[i].available ==> now >= RetainedUntil(rows[i])
  {
    forall i | 0 <= i < |rows| ensures Expired(rows[i], now) <==> now >= RetainedUntil(rows[i]) {
      PurgeKeepsThePromise(rows[i], now);
    }
    var due: seq<nat> := [];
    var found := 0;
    for i := 0 to |rows|
      invariant found == if Candidates(rows[..i], now) < BATCH then Candidates(rows[..i], now) else BATCH
      invariant forall k: nat :: k in due <==> k < i && InBatch(rows, k, now) && Expired(rows[k], now)
      invariant forall a, b :: 0 <= a < b < |due| ==> due[a] != due[b]
    {
      assert rows[..i + 1][..i] == rows[..i];
      if Candidate(rows[i], now) && found < BATCH {
        found := found + 1;
        if Expired(rows[i], now) { due := due + [i]; }
      }
    }
    assert rows[..|rows|] == rows;
    after, purged := rows, 0;
    for n := 0 to |due|
      invariant |after| == |rows| && forall k :: 0 <= k < |due| ==> due[k] in due && due[k] < |rows|
      invariant forall i :: 0 <= i < |rows| ==> after[i] == if i in due[..n] then Purged(rows[i], now) else rows[i]
    {
      assert due[n] !in due[..n];
      assert forall k :: k in due[..n + 1] <==> k in due[..n] || k == due[n];
      after, purged := after[due[n] := Purged(after[due[n]], now)], purged + 1;
    }
    assert due[..|due|] == due;
  }

  // ---- pass after pass ----

  function PassedRow(rows: seq<Parcel>, i: nat, now: Time): Parcel
    requires i < |rows|
  {
    if InBatch(rows, i, now) && Expired(rows[i], now) then Purged(rows[i], now) else rows[i]
  }

  function Pass(rows: seq<Parcel>, now: Time): seq<Parcel> {
    seq(|rows|, i requires 0 <= i < |rows| => PassedRow(rows, i, now))
  }

  function Passes(rows: seq<Parcel>, now: Time, n: nat): (after: seq<Parcel>)
    ensures |after| == |rows|
    decreases n
  {
    if n == 0 then rows else Passes(Pass(rows, now), now, n - 1)
  }

  /** The rows that keep their place in the batch: found by the query, but not expired. */
  function Waiting(rows: seq<Parcel>, now: Time): nat {
    if rows == [] then 0 else
    var last := rows[|rows| - 1];
    Waiting(rows[..|rows| - 1], now) + if Candidate(last, now) && !Expired(last, now) then 1 else 0
  }

  /** A pass takes from its batch all but what is waiting. */
  lemma {:induction false} OnePass(rows: seq<Parcel>, k: nat, now: Time)
    requires k <= |rows|
    ensures var found, left := Candidates(rows[..k], now), Candidates(Pass(rows, now)[..k], now);
      && Waiting(Pass(rows, now)[..k], now) == Waiting(rows[..k], now) <= left <= found
      && found - left + Waiting(rows[..k], now) >= if found < BATCH then found else BATCH
  {
    if k > 0 {
      OnePass(rows, k - 1, now);
      assert rows[..k][..k - 1] == rows[..k - 1];
      assert Pass(rows, now)[..k][..k - 1] == Pass(rows, now)[..k - 1];
    }
  }

  /** Pass after pass at one time: an expired package is purged sooner or later exactly when fewer
      rows are waiting before it than fit into a batch. */
  lemma PurgedInTheEnd(rows: seq<Parcel>, i: nat, now: Time)
    requires i < |rows| && rows[i].available && now >= RetainedUntil(rows[i])
    ensures (exists n: nat :: !Passes(rows, now, n)[i].available) <==> Waiting(rows[..i], now) < BATCH
  {
    PurgeKeepsThePromise(rows[i], now);
    if Waiting(rows[..i], now) < BATCH {
      var n := EnoughPasses(rows, i, now);
    } else {
      forall n: nat ensures Passes(rows, now, n)[i].available { NeverInTheBatch(rows, i, now, n); }
    }
  }

  lemma {:induction false} EnoughPasses(rows: seq<Parcel>, i: nat, now: Time) returns (n: nat)
    requires i < |rows| && rows[i].available && Expired(rows[i], now) && Waiting(rows[..i], now) < BATCH
    ensures !Passes(rows, now, n)[i].available
    decreases Candidates(rows[..i], now)
  {
    OnePass(rows, i, now);
    if InBatch(rows, i, now) {
      assert Passes(rows, now, 1) == Passes(Pass(rows, now), now, 0) == Pass(rows, now);
      n := 1;
    } else {
      var rest := EnoughPasses(Pass(rows, now), i, now);
      n := rest + 1;
    }
  }

  lemma {:induction false} NeverInTheBatch(rows: seq<Parcel>, i: nat, now: Time, n: nat)
    requires i < |rows| && rows[i].available && Waiting(rows[..i], now) >= BATCH
    ensures Passes(rows, now, n)[i].available
    decreases n
  {
    if n > 0 {
      OnePass(rows, i, now);
      NeverInTheBatch(Pass(rows, now), i, now, n - 1);
    }
  }

  /** Age never waits: whatever stands before an expired old package in a pass has expired too, and
      so it is purged sooner or later. */
  lemma AgeIsNotStarved(rows: seq<Parcel>, i: nat, now: Time)
    requires Oldest(rows) && i < |rows| && rows[i].available && ExpiredByAge(rows[i], now)
    ensures exists n: nat :: !Passes(rows, now, n)[i].available
  {
    PurgeKeepsThePromise(rows[i], now);
    NobodyWaits(rows, i, i, now);
    PurgedInTheEnd(rows, i, now);
  }

  lemma {:induction false} NobodyWaits(rows: seq<Parcel>, i: nat, k: nat, now: Time)
    requires Oldest(rows) && k <= i < |rows| && ExpiredByAge(rows[i], now)
    ensures Waiting(rows[..k], now) == 0
  {
    if k > 0 {
      NobodyWaits(rows, i, k - 1, now);
      assert rows[..k][..k - 1] == rows[..k - 1];
    }
  }

  const WAITING := Parcel(-10 * DAY, None, true)
  const OVERDUE := Parcel(-9 * DAY, Some(BLANK.(uploadedAt := Some(-8 * DAY))), true)

  function Crowd(n: nat): seq<Parcel> { if n == 0 then [] else Crowd(n - 1) + [WAITING] }

  lemma {:induction false} CrowdOf(n: nat, now: Time)
    requires now == 0
    ensures |Crowd(n)| == n && Waiting(Crowd(n), now) == n && forall i :: 0 <= i < n ==> Crowd(n)[i] == WAITING
  {
    if n > 0 {
      CrowdOf(n - 1, now);
      assert Crowd(n)[..n - 1] == Crowd(n - 1);
    }
  }

  /** But an uploaded package can wait: a hundred older ones that nobody has marked, not expired
      themselves, fill every batch, and the package is kept beyond what the list promises. */
  lemma UploadedPackagesCanWait()
    ensures var rows := Crowd(BATCH) + [OVERDUE];
      Oldest(rows) && OVERDUE.available && Expired(OVERDUE, 0) && |rows| == BATCH + 1 && rows[BATCH] == OVERDUE
      && (forall n: nat :: Passes(rows, 0, n)[BATCH].available) && forall i :: 0 <= i < BATCH ==> !Expired(rows[i], 0)
  {
    CrowdOf(BATCH, 0);
    var rows := Crowd(BATCH) + [OVERDUE];
    assert rows[..BATCH] == Crowd(BATCH);
    assert forall i :: 0 <= i < BATCH ==> rows[i] == WAITING;
    PurgedInTheEnd(rows, BATCH, 0);
  }
}

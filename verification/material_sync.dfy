/** The reconciliation of signing material on a Mac: what the server lists, what is installed, and
    what was rejected. The role programs that install and remove, and the disk, may fail at will. */
module MaterialSync {
  import opened Wrappers
  import opened MaterialSlots

  datatype Layout = Unknown | TeamLayout | TenantLayout

  /** The local record: which version of each slot is installed. */
  datatype Record = Record(layout: Layout, installed: map<string, int>)

  /** The record's file: written in the old format by the per-team layout, in the new one after. */
  datatype Disk = Missing | Garbage | OldFormat(slots: map<string, int>) | NewFormat(record: Record)

  datatype Manifest = Manifest(layout: Layout, items: seq<Entry>, complete: bool)

  /** Why a slot could not be installed; a rejected version is not tried again. */
  datatype Problem = Problem(version: int, rejected: bool)

  datatype Outcome = Installed | NotInstalled | Rejected

  datatype Call = Install(entry: Entry, outcome: Outcome) | Remove(name: Name, done: bool)

  /** What the world outside answers in one round; calls are told apart by their number. */
  datatype Env = Env(readable: bool, install: (Entry, nat) -> Outcome, remove: (Name, nat) -> bool,
                     switchSaved: bool, saved: bool)

  const NOTHING := Record(TeamLayout, map[])

  /** readMaterialRecord: what cannot be read counts as nothing installed. */
  function ReadRecord(disk: Disk, readable: bool): Record {
    if !readable then NOTHING else
    match disk
    case OldFormat(slots) => Record(TeamLayout, slots)
    case NewFormat(record) => if record.layout == Unknown then NOTHING else record
    case _ => NOTHING
  }

  predicate Current(installed: map<string, int>, e: Entry) {
    Slot(e.name) in installed && installed[Slot(e.name)] >= e.version
  }

  predicate Blocked(problems: map<string, Problem>, e: Entry) {
    Slot(e.name) in problems && problems[Slot(e.name)].rejected && problems[Slot(e.name)].version == e.version
  }

  /** A recorded slot of some tenant, and one of the per-team layout. */
  predicate TenantSlot(slot: string) { ParseSlot(slot).Some? && ParseSlot(slot).value.tenant != "" }

  predicate TeamSlot(slot: string) { ParseSlot(slot).Some? && ParseSlot(slot).value.tenant == "" }

  predicate AllCurrent(entries: seq<Entry>, installed: map<string, int>) {
    forall i :: 0 <= i < |entries| ==> Current(installed, entries[i])
  }

  /** Nothing is lost or goes back, and what is new is the version that some entry lists. */
  predicate Grows(entries: seq<Entry>, before: map<string, int>, after: map<string, int>) {
    && (forall slot :: slot in before ==> slot in after && before[slot] <= after[slot])
    && (forall slot :: slot in after ==> Explained(entries, before, slot, after[slot]))
  }

  predicate Explained(entries: seq<Entry>, before: map<string, int>, slot: string, version: int) {
    (slot in before && before[slot] == version) || exists i :: 0 <= i < |entries| && ListsVersion(entries[i], slot, version)
  }

  predicate ListsVersion(e: Entry, slot: string, version: int) { Slot(e.name) == slot && e.version == version }

  /** Slots go away, the others keep their version. */
  predicate Shrinks(before: map<string, int>, after: map<string, int>) {
    forall slot :: slot in after ==> slot in before && before[slot] == after[slot]
  }

  predicate Succeeds(call: Call) { if call.Install? then call.outcome == Installed else call.done }

  predicate AllSucceed(calls: seq<Call>) { forall i :: 0 <= i < |calls| ==> Succeeds(calls[i]) }

  /** This version of this slot was tried. */
  predicate Tried(calls: seq<Call>, slot: string, version: int) {
    exists i :: 0 <= i < |calls| && Tries(calls[i], slot, version)
  }

  predicate Tries(call: Call, slot: string, version: int) {
    call.Install? && Slot(call.entry.name) == slot && call.entry.version == version
  }

  /** A certificate of this tenant and team was installed. */
  predicate NewCertificate(calls: seq<Call>, tenant: string, team: string) {
    exists i :: 0 <= i < |calls| && Certifies(calls[i], tenant, team)
  }

  predicate Certifies(call: Call, tenant: string, team: string) {
    call.Install? && call.outcome == Installed && call.entry.name.kind == CERTIFICATE
    && call.entry.name.tenant == tenant && call.entry.name.team == team
  }

  /** A profile slot of this tenant and team that can be read back. */
  predicate ProfileOf(slot: string, tenant: string, team: string) {
    var n := ParseSlot(slot);
    n.Some? && n.value.tenant == tenant && n.value.team == team && n.value.kind == PROFILE
  }

  // ---- a round, as a function of what the world outside answers ----

  /** How far a round has come: what is installed, the memory of problems, the calls made in this
      round, whether everything so far is installed, and whether anything was left out because an
      earlier round had it rejected. */
  datatype Round = Round(installed: map<string, int>, problems: map<string, Problem>, calls: seq<Call>,
                         all: bool, skipped: bool)

  function Start(installed: map<string, int>, problems: map<string, Problem>): Round {
    Round(installed, problems, [], true, false)
  }

  /** What a try leaves behind in the memory of problems: profiles were checked against the
      certificate of the time, so a new one makes their rejections worthless. */
  function ProblemsAfter(problems: map<string, Problem>, e: Entry, outcome: Outcome): map<string, Problem> {
    var slot := Slot(e.name);
    if outcome != Installed then problems[slot := Problem(e.version, outcome == Rejected)]
    else if e.name.kind != CERTIFICATE then problems - {slot}
    else map s | s in problems && s != slot && !ProfileOf(s, e.name.tenant, e.name.team) :: problems[s]
  }

  function TryEntry(r: Round, e: Entry, env: Env, base: nat): Round {
    if Current(r.installed, e) then r
    else if Blocked(r.problems, e) then r.(all := false, skipped := true)
    else
      var outcome := env.install(e, base + |r.calls|);
      Round(if outcome == Installed then r.installed[Slot(e.name) := e.version] else r.installed,
            ProblemsAfter(r.problems, e, outcome), r.calls + [Install(e, outcome)],
            r.all && outcome == Installed, r.skipped)
  }

  function TryAll(entries: seq<Entry>, r: Round, env: Env, base: nat): Round {
    if entries == [] then r else
    TryEntry(TryAll(entries[..|entries| - 1], r, env, base), entries[|entries| - 1], env, base)
  }

  lemma TryOneMore(entries: seq<Entry>, i: nat, r: Round, env: Env, base: nat)
    requires i < |entries|
    ensures TryAll(entries[..i + 1], r, env, base) == TryEntry(TryAll(entries[..i], r, env, base), entries[i], env, base)
  {
    assert entries[..i + 1][..i] == entries[..i];
  }

  // ---- what installing does ----

  lemma {:induction false} TryingGrows(entries: seq<Entry>, before: map<string, int>, problems: map<string, Problem>,
                                       env: Env, base: nat)
    ensures var r := TryAll(entries, Start(before, problems), env, base);
      && Grows(entries, before, r.installed)
      && (r.all ==> AllCurrent(entries, r.installed))
      && (r.all <==> !r.skipped && AllSucceed(r.calls))
  {
    if entries != [] {
      var n := |entries| - 1;
      TryingGrows(entries[..n], before, problems, env, base);
      var r := TryAll(entries[..n], Start(before, problems), env, base);
      GrowsOn(entries, before, r, env, base);
      CurrentOn(entries, r, env, base);
      SuccessExtends(r, entries[n], env, base);
    }
  }

  lemma GrowsOn(entries: seq<Entry>, before: map<string, int>, r: Round, env: Env, base: nat)
    requires entries != [] && Grows(entries[..|entries| - 1], before, r.installed)
    ensures Grows(entries, before, TryEntry(r, entries[|entries| - 1], env, base).installed)
  {
    var n := |entries| - 1;
    var r' := TryEntry(r, entries[n], env, base);
    forall slot | slot in r'.installed ensures Explained(entries, before, slot, r'.installed[slot]) {
      if slot in r.installed && r.installed[slot] == r'.installed[slot] {
        ExplainedOn(entries, before, slot, r.installed[slot]);
      } else {
        assert ListsVersion(entries[n], slot, r'.installed[slot]);
      }
    }
  }

  lemma ExplainedOn(entries: seq<Entry>, before: map<string, int>, slot: string, version: int)
    requires entries != [] && Explained(entries[..|entries| - 1], before, slot, version)
    ensures Explained(entries, before, slot, version)
  {
    var shorter := entries[..|entries| - 1];
    if !(slot in before && before[slot] == version) {
      var i :| 0 <= i < |shorter| && ListsVersion(shorter[i], slot, version);
      assert entries[i] == shorter[i];
    }
  }

  lemma CurrentOn(entries: seq<Entry>, r: Round, env: Env, base: nat)
    requires entries != [] && (r.all ==> AllCurrent(entries[..|entries| - 1], r.installed))
    ensures var r' := TryEntry(r, entries[|entries| - 1], env, base); r'.all ==> AllCurrent(entries, r'.installed)
  {
    var n := |entries| - 1;
    var r' := TryEntry(r, entries[n], env, base);
    if r'.all {
      forall i | 0 <= i < |entries| ensures Current(r'.installed, entries[i]) {
        if i < n { assert entries[..n][i] == entries[i] && Current(r.installed, entries[..n][i]); }
      }
    }
  }

  lemma SuccessExtends(r: Round, e: Entry, env: Env, base: nat)
    requires r.all <==> !r.skipped && AllSucceed(r.calls)
    ensures var r' := TryEntry(r, e, env, base); r'.all <==> !r'.skipped && AllSucceed(r'.calls)
  {
    var r' := TryEntry(r, e, env, base);
    if |r'.calls| > |r.calls| {
      assert r'.calls[..|r.calls|] == r.calls;
      assert AllSucceed(r'.calls) <==> AllSucceed(r.calls) && Succeeds(r'.calls[|r.calls|]);
    }
  }

  /** When everything is current already, nothing is asked of anybody. */
  lemma {:induction false} NothingToTry(entries: seq<Entry>, before: map<string, int>, problems: map<string, Problem>,
                                        env: Env, base: nat)
    requires AllCurrent(entries, before)
    ensures TryAll(entries, Start(before, problems), env, base) == Start(before, problems)
  {
    if entries != [] {
      var n := |entries| - 1;
      assert forall i :: 0 <= i < n ==> entries[..n][i] == entries[i];
      NothingToTry(entries[..n], before, problems, env, base);
      assert Current(before, entries[n]);
    }
  }

  // ---- certificates before profiles ----

  /** After its certificate was installed in this round, a profile that is remembered as rejected
      was rejected in this round. */
  predicate FreshRejections(r: Round) {
    forall slot :: slot in r.problems && r.problems[slot].rejected ==> FreshRejection(r, slot)
  }

  predicate FreshRejection(r: Round, slot: string)
    requires slot in r.problems
  {
    var n := ParseSlot(slot);
    n.Some? && n.value.kind == PROFILE && NewCertificate(r.calls, n.value.tenant, n.value.team) ==>
      Tried(r.calls, slot, r.problems[slot].version)
  }

  lemma FreshRejectionsKept(r: Round, e: Entry, env: Env, base: nat)
    requires FreshRejections(r)
    ensures FreshRejections(TryEntry(r, e, env, base))
  {
    var r' := TryEntry(r, e, env, base);
    if |r'.calls| > |r.calls| {
      var call := r'.calls[|r.calls|];
      forall slot | slot in r'.problems && r'.problems[slot].rejected ensures FreshRejection(r', slot) {
        OneMoreCall(r.calls, call);
        if slot == Slot(e.name) {
          assert Tries(call, slot, e.version);
        } else {
          assert slot in r.problems && r.problems[slot] == r'.problems[slot] && FreshRejection(r, slot);
        }
      }
    }
  }

  lemma OneMoreCall(calls: seq<Call>, call: Call)
    ensures forall slot, version ::
      Tried(calls + [call], slot, version) <==> Tried(calls, slot, version) || Tries(call, slot, version)
    ensures forall t, m :: NewCertificate(calls + [call], t, m) <==> NewCertificate(calls, t, m) || Certifies(call, t, m)
  {
    var more := calls + [call];
    assert more[|calls|] == call;
    forall slot, version | Tried(calls, slot, version) ensures Tried(more, slot, version) {
      var i :| 0 <= i < |calls| && Tries(calls[i], slot, version);
      assert more[i] == calls[i];
    }
    forall t, m | NewCertificate(calls, t, m) ensures NewCertificate(more, t, m) {
      var i :| 0 <= i < |calls| && Certifies(calls[i], t, m);
      assert more[i] == calls[i];
    }
  }

  /** A listed profile whose certificate was installed in this round is current or was tried again. */
  predicate Retried(r: Round, e: Entry) {
    ParseSlot(Slot(e.name)) == Some(e.name) && e.name.kind == PROFILE && NewCertificate(r.calls, e.name.tenant, e.name.team) ==>
      Current(r.installed, e) || Tried(r.calls, Slot(e.name), e.version)
  }

  lemma RetriedKept(r: Round, e: Entry, next: Entry, env: Env, base: nat)
    requires Retried(r, e) && InOrder(e, next)
    ensures Retried(TryEntry(r, next, env, base), e)
  {
    var r' := TryEntry(r, next, env, base);
    if |r'.calls| > |r.calls| { OneMoreCall(r.calls, r'.calls[|r.calls|]); }
  }

  lemma RetriedNow(r: Round, e: Entry, env: Env, base: nat)
    requires FreshRejections(r)
    ensures Retried(TryEntry(r, e, env, base), e)
  {
    var r' := TryEntry(r, e, env, base);
    if |r'.calls| > |r.calls| {
      OneMoreCall(r.calls, r'.calls[|r.calls|]);
      assert Tries(r'.calls[|r.calls|], Slot(e.name), e.version);
    } else if !Current(r.installed, e) {
      assert FreshRejection(r, Slot(e.name));
    }
  }

  lemma {:induction false} ProfilesAreRetried(entries: seq<Entry>, before: map<string, int>,
                                              problems: map<string, Problem>, env: Env, base: nat)
    requires Sorted(entries)
    ensures var r := TryAll(entries, Start(before, problems), env, base);
      FreshRejections(r) && forall i :: 0 <= i < |entries| ==> Retried(r, entries[i])
  {
    if entries != [] {
      var n := |entries| - 1;
      ProfilesAreRetried(entries[..n], before, problems, env, base);
      var r := TryAll(entries[..n], Start(before, problems), env, base);
      FreshRejectionsKept(r, entries[n], env, base);
      RetriedNow(r, entries[n], env, base);
      forall i | 0 <= i < n ensures Retried(TryEntry(r, entries[n], env, base), entries[i]) {
        assert entries[..n][i] == entries[i];
        RetriedKept(r, entries[i], entries[n], env, base);
      }
    }
  }

  // ---- removing ----

  /** Which recorded slots go: of tenants, the ones that are no longer listed; of the per-team
      layout, all of them, certificates without asking anybody (the keychain keeps them). */
  predicate Due(slot: string, listed: set<string>, legacy: bool) {
    if legacy then TeamSlot(slot) else TenantSlot(slot) && slot !in listed
  }

  function DropSlot(r: Round, slot: string, listed: set<string>, legacy: bool, env: Env, base: nat): Round {
    if !Due(slot, listed, legacy) then r else
    var n := ParseSlot(slot).value;
    if legacy && n.kind == CERTIFICATE then r.(installed := r.installed - {slot}) else
    var done := env.remove(n, base + |r.calls|);
    r.(installed := if done then r.installed - {slot} else r.installed, calls := r.calls + [Remove(n, done)])
  }

  function DropAll(slots: seq<string>, r: Round, listed: set<string>, legacy: bool, env: Env, base: nat): Round {
    if slots == [] then r else
    DropSlot(DropAll(slots[..|slots| - 1], r, listed, legacy, env, base), slots[|slots| - 1], listed, legacy, env, base)
  }

  lemma DropOneMore(slots: seq<string>, i: nat, r: Round, listed: set<string>, legacy: bool, env: Env, base: nat)
    requires i < |slots|
    ensures DropAll(slots[..i + 1], r, listed, legacy, env, base)
      == DropSlot(DropAll(slots[..i], r, listed, legacy, env, base), slots[i], listed, legacy, env, base)
  {
    assert slots[..i + 1][..i] == slots[..i];
  }

  lemma {:induction false} DroppingShrinks(slots: seq<string>, r: Round, listed: set<string>, legacy: bool, env: Env, base: nat)
    ensures var r' := DropAll(slots, r, listed, legacy, env, base);
      && Shrinks(r.installed, r'.installed) && r.calls <= r'.calls
      && r'.problems == r.problems && r'.all == r.all && r'.skipped == r.skipped
      && (forall slot :: slot in r.installed && slot !in r'.installed ==> Due(slot, listed, legacy))
      && (AllSucceed(r'.calls) ==> forall slot :: slot in slots && Due(slot, listed, legacy) ==> slot !in r'.installed)
      && ((forall slot :: slot in slots ==> !Due(slot, listed, legacy)) ==> r' == r)
  {
    if slots != [] {
      var n := |slots| - 1;
      DroppingShrinks(slots[..n], r, listed, legacy, env, base);
      var r1 := DropAll(slots[..n], r, listed, legacy, env, base);
      var r2 := DropSlot(r1, slots[n], listed, legacy, env, base);
      assert slots == slots[..n] + [slots[n]];
      if AllSucceed(r2.calls) {
        assert forall i :: 0 <= i < |r1.calls| ==> r1.calls[i] == r2.calls[i];
        assert |r2.calls| > |r1.calls| ==> Succeeds(r2.calls[|r1.calls|]);
      }
    }
  }

  // ---- the tenant round ----

  function UsableItems(items: seq<Entry>): seq<Entry> {
    if items == [] then [] else
    var n := |items| - 1;
    UsableItems(items[..n]) + if ValidTenantID(items[n].name.tenant) then [items[n]] else []
  }

  predicate AllUsable(items: seq<Entry>) { forall e :: e in items ==> ValidTenantID(e.name.tenant) }

  lemma {:induction false} UsableItemsAre(items: seq<Entry>)
    ensures forall e :: e in UsableItems(items) <==> e in items && ValidTenantID(e.name.tenant)
    ensures |UsableItems(items)| <= |items|
    ensures |UsableItems(items)| == |items| <==> AllUsable(items)
  {
    if items != [] {
      var n := |items| - 1;
      UsableItemsAre(items[..n]);
      assert items == items[..n] + [items[n]];
    }
  }

  function Slots(entries: seq<Entry>): set<string> { set e | e in entries :: Slot(e.name) }

  /** The orders in which a round goes through its entries and its recorded slots. */
  datatype Plan = Plan(entries: seq<Entry>, withdrawn: seq<string>, legacy: seq<string>)

  function Installing(m: Manifest, installed: map<string, int>, problems: map<string, Problem>, plan: Plan, env: Env,
                      base: nat): Round
  {
    var r, listed := TryAll(plan.entries, Start(installed, problems), env, base), Slots(plan.entries);
    r.(problems := map slot | slot in r.problems && slot in listed :: r.problems[slot],
       all := r.all && |plan.entries| == |m.items|)
  }

  function Withdrawing(m: Manifest, r: Round, plan: Plan, env: Env, base: nat): Round {
    if m.complete then DropAll(plan.withdrawn, r, Slots(plan.entries), false, env, base) else r
  }

  function Retiring(m: Manifest, r: Round, plan: Plan, env: Env, base: nat): Round {
    if m.complete && r.all then DropAll(plan.legacy, r, Slots(plan.entries), true, env, base) else r
  }

  function TenantRound(m: Manifest, installed: map<string, int>, problems: map<string, Problem>, plan: Plan, env: Env,
                       base: nat): Round
  {
    Retiring(m, Withdrawing(m, Installing(m, installed, problems, plan, env, base), plan, env, base), plan, env, base)
  }

  ghost predicate Enumerates(slots: seq<string>, installed: map<string, int>) {
    forall slot :: slot in slots <==> slot in installed
  }

  /** The plan goes through the usable items in order, and through what is recorded by then. */
  ghost predicate Fits(m: Manifest, installed: map<string, int>, problems: map<string, Problem>, plan: Plan, env: Env,
                       base: nat)
  {
    var r := Installing(m, installed, problems, plan, env, base);
    && Sorted(plan.entries) && multiset(plan.entries) == multiset(UsableItems(m.items))
    && (m.complete ==> Enumerates(plan.withdrawn, r.installed))
    && (m.complete && r.all ==> Enumerates(plan.legacy, Withdrawing(m, r, plan, env, base).installed))
  }

  lemma PlannedItems(m: Manifest, entries: seq<Entry>)
    requires multiset(entries) == multiset(UsableItems(m.items))
    ensures forall e :: e in entries <==> e in m.items && ValidTenantID(e.name.tenant)
    ensures |entries| == |m.items| <==> AllUsable(m.items)
  {
    UsableItemsAre(m.items);
    assert forall e :: e in entries <==> e in multiset(entries);
    assert forall e :: e in UsableItems(m.items) <==> e in multiset(UsableItems(m.items));
    assert |entries| == |multiset(entries)| == |UsableItems(m.items)|;
  }

  predicate ItemsCurrent(m: Manifest, installed: map<string, int>) { forall e :: e in m.items ==> Current(installed, e) }

  predicate Listed(m: Manifest, slot: string) {
    exists e :: e in m.items && ValidTenantID(e.name.tenant) && Slot(e.name) == slot
  }

  // ---- safety, whatever fails ----

  /** A tenant's slot leaves the record only in a round whose complete manifest does not list it.
      A per-team slot leaves it only in a complete round in which every listed item is usable and
      installed at its listed version. Nothing else ever leaves it. */
  lemma SlotsLeaveOnlyWhenTheyMay(m: Manifest, installed: map<string, int>, problems: map<string, Problem>, plan: Plan,
                                  env: Env, base: nat, slot: string)
    requires Fits(m, installed, problems, plan, env, base) && slot in installed
    requires slot !in TenantRound(m, installed, problems, plan, env, base).installed
    ensures m.complete && ParseSlot(slot).Some?
    ensures TenantSlot(slot) ==> !Listed(m, slot)
    ensures TeamSlot(slot) ==>
      AllUsable(m.items) && ItemsCurrent(m, TenantRound(m, installed, problems, plan, env, base).installed)
  {
    var listed := Slots(plan.entries);
    var r1 := Installing(m, installed, problems, plan, env, base);
    var r2 := Withdrawing(m, r1, plan, env, base);
    PlannedItems(m, plan.entries);
    TryingGrows(plan.entries, installed, problems, env, base);
    DroppingShrinks(plan.withdrawn, r1, listed, false, env, base);
    DroppingShrinks(plan.legacy, r2, listed, true, env, base);
    if TeamSlot(slot) {
      assert r1.all && AllCurrent(plan.entries, r1.installed);
      forall e | e in m.items ensures Current(Retiring(m, r2, plan, env, base).installed, e) {
        ListedStays(m, r1, plan, env, base, e);
      }
    }
  }

  lemma ListedStays(m: Manifest, r: Round, plan: Plan, env: Env, base: nat, e: Entry)
    requires e in plan.entries && ValidTenantID(e.name.tenant) && Current(r.installed, e)
    ensures Current(Withdrawing(m, r, plan, env, base).installed, e)
    ensures Current(Retiring(m, Withdrawing(m, r, plan, env, base), plan, env, base).installed, e)
  {
    var listed := Slots(plan.entries);
    TenantSlotsParse(e.name);
    DroppingShrinks(plan.withdrawn, r, listed, false, env, base);
    DroppingShrinks(plan.legacy, Withdrawing(m, r, plan, env, base), listed, true, env, base);
    assert !Due(Slot(e.name), listed, false) && !Due(Slot(e.name), listed, true);
  }

  // ---- convergence ----

  /** The recorded slots that can be read are exactly the listed ones, at their version or above. */
  ghost predicate Converged(m: Manifest, installed: map<string, int>) {
    && ItemsCurrent(m, installed)
    && forall slot :: ParseSlot(slot).Some? ==> (slot in installed <==> Listed(m, slot))
  }

  /** One round on a complete manifest of usable items in which every call succeeds and nothing is
      left out because it was rejected before reaches exactly what is listed. */
  lemma OneRoundConverges(m: Manifest, installed: map<string, int>, problems: map<string, Problem>, plan: Plan, env: Env,
                          base: nat)
    requires Fits(m, installed, problems, plan, env, base) && m.complete && AllUsable(m.items)
    requires var r := TenantRound(m, installed, problems, plan, env, base); AllSucceed(r.calls) && !r.skipped
    ensures Converged(m, TenantRound(m, installed, problems, plan, env, base).installed)
  {
    var listed := Slots(plan.entries);
    var r1 := Installing(m, installed, problems, plan, env, base);
    var r2 := Withdrawing(m, r1, plan, env, base);
    var r3 := Retiring(m, r2, plan, env, base);
    PlannedItems(m, plan.entries);
    TryingGrows(plan.entries, installed, problems, env, base);
    DroppingShrinks(plan.withdrawn, r1, listed, false, env, base);
    DroppingShrinks(plan.legacy, r2, listed, true, env, base);
    PrefixSucceeds(r1.calls, r2.calls);
    PrefixSucceeds(r2.calls, r3.calls);
    forall e | e in m.items ensures Current(r3.installed, e) {
      ListedStays(m, r1, plan, env, base, e);
    }
    forall slot | ParseSlot(slot).Some? && slot in r3.installed ensures Listed(m, slot) {
      assert slot in r2.installed && slot in r1.installed;
      assert !TeamSlot(slot) && TenantSlot(slot) && slot in listed;
    }
  }

  lemma PrefixSucceeds(calls: seq<Call>, more: seq<Call>)
    requires calls <= more && AllSucceed(more)
    ensures AllSucceed(calls)
  {
    assert forall i :: 0 <= i < |calls| ==> calls[i] == more[i];
  }

  /** A round that starts there makes no calls and changes nothing, whatever the memory of problems
      is and whatever the calls would have answered. */
  lemma ConvergedRoundsAreSilent(m: Manifest, installed: map<string, int>, problems: map<string, Problem>, plan: Plan,
                                 env: Env, base: nat)
    requires Fits(m, installed, problems, plan, env, base) && AllUsable(m.items) && Converged(m, installed)
    ensures var r := TenantRound(m, installed, problems, plan, env, base); r.calls == [] && r.installed == installed
  {
    var listed := Slots(plan.entries);
    PlannedItems(m, plan.entries);
    assert AllCurrent(plan.entries, installed);
    NothingToTry(plan.entries, installed, problems, env, base);
    var r1 := Installing(m, installed, problems, plan, env, base);
    DroppingShrinks(plan.withdrawn, r1, listed, false, env, base);
    forall slot | slot in installed ensures !Due(slot, listed, false) && !Due(slot, listed, true) {
      if ParseSlot(slot).Some? {
        var e :| e in m.items && ValidTenantID(e.name.tenant) && Slot(e.name) == slot;
        TenantSlotsParse(e.name);
      }
    }
    var r2 := Withdrawing(m, r1, plan, env, base);
    assert r2 == r1;
    DroppingShrinks(plan.legacy, r2, listed, true, env, base);
  }

  /** In a tenant round a listed profile whose certificate was installed by it ends up current or
      was tried again, even if it had been rejected before. */
  lemma NewCertificatesRetryProfiles(m: Manifest, installed: map<string, int>, problems: map<string, Problem>, plan: Plan,
                                     env: Env, base: nat, e: Entry)
    requires Fits(m, installed, problems, plan, env, base) && e in m.items && ValidTenantID(e.name.tenant)
    requires e.name.kind == PROFILE && ParseSlot(Slot(e.name)) == Some(e.name)
    requires NewCertificate(TenantRound(m, installed, problems, plan, env, base).calls, e.name.tenant, e.name.team)
    ensures var r := TenantRound(m, installed, problems, plan, env, base);
      Current(r.installed, e) || Tried(r.calls, Slot(e.name), e.version)
  {
    var r0 := TryAll(plan.entries, Start(installed, problems), env, base);
    PlannedItems(m, plan.entries);
    ProfilesAreRetried(plan.entries, installed, problems, env, base);
    var i :| 0 <= i < |plan.entries| && plan.entries[i] == e;
    assert Retried(r0, plan.entries[i]);
    RemovalsComeLast(m, installed, problems, plan, env, base);
    TriedBeforeRemovals(r0.calls, TenantRound(m, installed, problems, plan, env, base).calls, e);
    if Current(r0.installed, e) { ListedStays(m, Installing(m, installed, problems, plan, env, base), plan, env, base, e); }
  }

  lemma RemovalsComeLast(m: Manifest, installed: map<string, int>, problems: map<string, Problem>, plan: Plan, env: Env,
                         base: nat)
    ensures var calls, all := TryAll(plan.entries, Start(installed, problems), env, base).calls,
                              TenantRound(m, installed, problems, plan, env, base).calls;
      calls <= all && forall i :: |calls| <= i < |all| ==> all[i].Remove?
  {
    var listed, r1 := Slots(plan.entries), Installing(m, installed, problems, plan, env, base);
    var r2 := Withdrawing(m, r1, plan, env, base);
    DroppingShrinks(plan.withdrawn, r1, listed, false, env, base);
    DroppingShrinks(plan.legacy, r2, listed, true, env, base);
    RemovalsOnly(plan.withdrawn, r1, listed, false, env, base);
    RemovalsOnly(plan.legacy, r2, listed, true, env, base);
  }

  lemma TriedBeforeRemovals(calls: seq<Call>, more: seq<Call>, e: Entry)
    requires calls <= more && forall i :: |calls| <= i < |more| ==> more[i].Remove?
    ensures NewCertificate(more, e.name.tenant, e.name.team) ==> NewCertificate(calls, e.name.tenant, e.name.team)
    ensures Tried(calls, Slot(e.name), e.version) ==> Tried(more, Slot(e.name), e.version)
  {
    if NewCertificate(more, e.name.tenant, e.name.team) {
      var k :| 0 <= k < |more| && Certifies(more[k], e.name.tenant, e.name.team);
      assert k < |calls| && more[k] == calls[k];
    }
    if Tried(calls, Slot(e.name), e.version) {
      var k :| 0 <= k < |calls| && Tries(calls[k], Slot(e.name), e.version);
      assert more[k] == calls[k];
    }
  }

  lemma {:induction false} RemovalsOnly(slots: seq<string>, r: Round, listed: set<string>, legacy: bool, env: Env, base: nat)
    ensures var r' := DropAll(slots, r, listed, legacy, env, base);
      |r.calls| <= |r'.calls| && forall i :: |r.calls| <= i < |r'.calls| ==> r'.calls[i].Remove?
  {
    if slots != [] {
      RemovalsOnly(slots[..|slots| - 1], r, listed, legacy, env, base);
    }
  }

  // ---- what is left out stays remembered ----

  predicate DistinctSlots(entries: seq<Entry>) {
    forall i, j :: 0 <= i < j < |entries| ==> Slot(entries[i].name) != Slot(entries[j].name)
  }

  /** When every slot is listed once, an item that was left out is still remembered as rejected at
      its version, and is not installed at it. So after a round in which all calls succeed and no
      listed item is still remembered as rejected, nothing was left out. */
  lemma {:induction false} SkippedStaysRejected(entries: seq<Entry>, before: map<string, int>, problems: map<string, Problem>,
                                                env: Env, base: nat)
    requires Sorted(entries) && DistinctSlots(entries)
    requires forall e :: e in entries ==> ValidTenantID(e.name.tenant)
    ensures var r := TryAll(entries, Start(before, problems), env, base);
      r.skipped ==> exists i :: 0 <= i < |entries| && LeftOut(r, entries[i])
  {
    if entries != [] {
      var n := |entries| - 1;
      var shorter := entries[..n];
      SkippedStaysRejected(shorter, before, problems, env, base);
      var r := TryAll(shorter, Start(before, problems), env, base);
      var r' := TryEntry(r, entries[n], env, base);
      if r.skipped {
        var i :| 0 <= i < n && LeftOut(r, shorter[i]);
        assert shorter[i] == entries[i] && entries[i] in entries;
        LeftOutKept(r, entries[i], entries[n], env, base);
        assert LeftOut(r', entries[i]);
      } else {
        SkippingLeavesOut(r, entries[n], env, base);
      }
    }
  }

  lemma SkippingLeavesOut(r: Round, e: Entry, env: Env, base: nat)
    requires !r.skipped
    ensures TryEntry(r, e, env, base).skipped ==> LeftOut(TryEntry(r, e, env, base), e)
  {
  }

  predicate LeftOut(r: Round, e: Entry) { Blocked(r.problems, e) && !Current(r.installed, e) }

  lemma LeftOutKept(r: Round, e: Entry, next: Entry, env: Env, base: nat)
    requires LeftOut(r, e) && InOrder(e, next) && Slot(e.name) != Slot(next.name) && ValidTenantID(e.name.tenant)
    ensures LeftOut(TryEntry(r, next, env, base), e)
  {
    TenantSlotsParse(e.name);
  }

  predicate ListedOnce(items: seq<Entry>) {
    (forall e :: e in items ==> multiset(items)[e] == 1)
    && forall a, b :: a in items && b in items && Slot(a.name) == Slot(b.name) ==> a == b
  }

  lemma TwiceIsTwo(s: seq<Entry>, i: nat, j: nat)
    requires i < j < |s| && s[i] == s[j]
    ensures multiset(s)[s[i]] >= 2
  {
    assert s == s[..i] + [s[i]] + s[i + 1..j] + [s[j]] + s[j + 1..];
  }

  /** Exactly what can be in the way: after a round on a complete manifest of usable items, each slot
      listed once, in which every call succeeds, the record is what is listed if and only if no
      listed item is still remembered as rejected (and not installed). */
  lemma ConvergesUnlessRejected(m: Manifest, installed: map<string, int>, problems: map<string, Problem>, plan: Plan,
                                env: Env, base: nat)
    requires Fits(m, installed, problems, plan, env, base) && m.complete && AllUsable(m.items) && ListedOnce(m.items)
    requires AllSucceed(TenantRound(m, installed, problems, plan, env, base).calls)
    ensures var r := TenantRound(m, installed, problems, plan, env, base);
      Converged(m, r.installed) <==> forall e :: e in m.items ==> !LeftOut(r, e)
  {
    PlannedItems(m, plan.entries);
    if TenantRound(m, installed, problems, plan, env, base).skipped {
      SkippedIsLeftOut(m, installed, problems, plan, env, base);
    } else {
      OneRoundConverges(m, installed, problems, plan, env, base);
    }
  }

  lemma SkippedIsLeftOut(m: Manifest, installed: map<string, int>, problems: map<string, Problem>, plan: Plan, env: Env,
                         base: nat)
    requires Fits(m, installed, problems, plan, env, base) && AllUsable(m.items) && ListedOnce(m.items)
    requires TenantRound(m, installed, problems, plan, env, base).skipped
    ensures exists e :: e in m.items && LeftOut(TenantRound(m, installed, problems, plan, env, base), e)
  {
    var r0 := TryAll(plan.entries, Start(installed, problems), env, base);
    RemovingKeepsTheRest(m, installed, problems, plan, env, base);
    PlannedItems(m, plan.entries);
    PlannedOnce(m, plan.entries);
    SkippedStaysRejected(plan.entries, installed, problems, env, base);
    var i :| 0 <= i < |plan.entries| && LeftOut(r0, plan.entries[i]);
    LeftOutAtTheEnd(r0, TenantRound(m, installed, problems, plan, env, base), plan.entries, plan.entries[i]);
    assert plan.entries[i] in m.items;
  }

  lemma LeftOutAtTheEnd(r0: Round, r: Round, entries: seq<Entry>, e: Entry)
    requires LeftOut(r0, e) && e in entries && Shrinks(r0.installed, r.installed)
    requires r.problems == map slot | slot in r0.problems && slot in Slots(entries) :: r0.problems[slot]
    ensures LeftOut(r, e)
  {
    assert Slot(e.name) in Slots(entries);
  }

  lemma PlannedOnce(m: Manifest, entries: seq<Entry>)
    requires multiset(entries) == multiset(UsableItems(m.items)) && AllUsable(m.items) && ListedOnce(m.items)
    ensures DistinctSlots(entries)
  {
    UsableItemsOfUsable(m.items);
    PlannedItems(m, entries);
    forall i, j | 0 <= i < j < |entries| ensures Slot(entries[i].name) != Slot(entries[j].name) {
      assert entries[i] in m.items && entries[j] in m.items;
      if entries[i] == entries[j] { TwiceIsTwo(entries, i, j); }
    }
  }

  lemma {:induction false} UsableItemsOfUsable(items: seq<Entry>)
    requires AllUsable(items)
    ensures UsableItems(items) == items
  {
    if items != [] {
      var n := |items| - 1;
      assert items == items[..n] + [items[n]];
      UsableItemsOfUsable(items[..n]);
    }
  }

  lemma RemovingKeepsTheRest(m: Manifest, installed: map<string, int>, problems: map<string, Problem>, plan: Plan, env: Env,
                             base: nat)
    ensures var r0, r := TryAll(plan.entries, Start(installed, problems), env, base),
                         TenantRound(m, installed, problems, plan, env, base);
      && r.skipped == r0.skipped && Shrinks(r0.installed, r.installed) && r0.calls <= r.calls
      && r.problems == map slot | slot in r0.problems && slot in Slots(plan.entries) :: r0.problems[slot]
  {
    var listed := Slots(plan.entries);
    var r1 := Installing(m, installed, problems, plan, env, base);
    DroppingShrinks(plan.withdrawn, r1, listed, false, env, base);
    DroppingShrinks(plan.legacy, Withdrawing(m, r1, plan, env, base), listed, true, env, base);
  }

  // ---- what will be left out ----

  /** A certificate that the round will install: neither current nor remembered as rejected. */
  predicate FreshCertificate(c: Entry, before: map<string, int>, problems: map<string, Problem>) {
    c.name.kind == CERTIFICATE && !Current(before, c) && !Blocked(problems, c)
  }

  /** This slot is a profile's, and one of these entries is such a certificate of its tenant and team. */
  predicate Freed(entries: seq<Entry>, before: map<string, int>, problems: map<string, Problem>, slot: string) {
    exists k :: 0 <= k < |entries| && FreshCertificate(entries[k], before, problems)
      && ProfileOf(slot, entries[k].name.tenant, entries[k].name.team)
  }

  /** Not current, remembered as rejected, and no certificate among these will make that worthless. */
  predicate WillBeLeftOut(entries: seq<Entry>, before: map<string, int>, problems: map<string, Problem>, e: Entry) {
    !Current(before, e) && Blocked(problems, e) && !Freed(entries, before, problems, Slot(e.name))
  }

  /** A slot that these entries do not list: only such a certificate has touched what is known of it. */
  predicate Untouched(entries: seq<Entry>, before: map<string, int>, problems: map<string, Problem>, r: Round, slot: string) {
    && (slot in r.installed <==> slot in before) && (slot in before && slot in r.installed ==> r.installed[slot] == before[slot])
    && (slot in r.problems <==> slot in problems && !Freed(entries, before, problems, slot))
    && (slot in r.problems && slot in problems ==> r.problems[slot] == problems[slot])
  }

  predicate Lists(entries: seq<Entry>, slot: string) { exists k :: 0 <= k < |entries| && Slot(entries[k].name) == slot }

  lemma FreedOneMore(entries: seq<Entry>, e: Entry, before: map<string, int>, problems: map<string, Problem>, slot: string)
    ensures Freed(entries + [e], before, problems, slot) <==>
      (Freed(entries, before, problems, slot)
       || (FreshCertificate(e, before, problems) && ProfileOf(slot, e.name.tenant, e.name.team)))
  {
    var more := entries + [e];
    assert more[|entries|] == e;
    if Freed(entries, before, problems, slot) {
      var k :| 0 <= k < |entries| && FreshCertificate(entries[k], before, problems)
        && ProfileOf(slot, entries[k].name.tenant, entries[k].name.team);
      assert more[k] == entries[k];
    }
  }

  lemma CertificatesAreNotFreed(entries: seq<Entry>, before: map<string, int>, problems: map<string, Problem>, c: Entry)
    requires c.name.kind != PROFILE && ValidTenantID(c.name.tenant)
    ensures !Freed(entries, before, problems, Slot(c.name))
  {
    TenantSlotsParse(c.name);
  }

  lemma UntouchedOneMore(entries: seq<Entry>, e: Entry, before: map<string, int>, problems: map<string, Problem>, r: Round,
                         env: Env, base: nat, slot: string)
    requires ValidTenantID(e.name.tenant) && slot != Slot(e.name) && AllSucceed(TryEntry(r, e, env, base).calls)
    requires Untouched(entries, before, problems, r, slot) && Untouched(entries, before, problems, r, Slot(e.name))
    ensures Untouched(entries + [e], before, problems, TryEntry(r, e, env, base), slot)
  {
    FreedOneMore(entries, e, before, problems, slot);
    OutcomeIsSuccess(r, e, env, base);
    if e.name.kind == CERTIFICATE { CertificatesAreNotFreed(entries, before, problems, e); }
  }

  lemma OutcomeIsSuccess(r: Round, e: Entry, env: Env, base: nat)
    requires AllSucceed(TryEntry(r, e, env, base).calls)
    ensures AllSucceed(r.calls)
    ensures !Current(r.installed, e) && !Blocked(r.problems, e) ==> env.install(e, base + |r.calls|) == Installed
  {
    var r' := TryEntry(r, e, env, base);
    assert r.calls <= r'.calls;
    PrefixSucceeds(r.calls, r'.calls);
    if |r'.calls| > |r.calls| { assert Succeeds(r'.calls[|r.calls|]); }
  }

  ghost predicate OthersUntouched(entries: seq<Entry>, before: map<string, int>, problems: map<string, Problem>, r: Round) {
    forall slot :: !Lists(entries, slot) ==> Untouched(entries, before, problems, r, slot)
  }

  predicate Settled(entries: seq<Entry>, before: map<string, int>, problems: map<string, Problem>, r: Round) {
    forall i :: 0 <= i < |entries| ==> SettledAt(entries, i, before, problems, r)
  }

  predicate SettledAt(entries: seq<Entry>, i: nat, before: map<string, int>, problems: map<string, Problem>, r: Round)
    requires i < |entries|
  {
    LeftOut(r, entries[i]) <==> WillBeLeftOut(entries[..i], before, problems, entries[i])
  }

  /** When all calls succeed, what a round leaves out was settled before it. */
  lemma {:induction false} LeftOutWasSettled(entries: seq<Entry>, before: map<string, int>, problems: map<string, Problem>,
                                             env: Env, base: nat)
    requires Sorted(entries) && DistinctSlots(entries) && forall e :: e in entries ==> ValidTenantID(e.name.tenant)
    requires AllSucceed(TryAll(entries, Start(before, problems), env, base).calls)
    ensures var r := TryAll(entries, Start(before, problems), env, base);
      OthersUntouched(entries, before, problems, r) && Settled(entries, before, problems, r)
  {
    if entries != [] {
      var n := |entries| - 1;
      var r := TryAll(entries[..n], Start(before, problems), env, base);
      OutcomeIsSuccess(r, entries[n], env, base);
      LeftOutWasSettled(entries[..n], before, problems, env, base);
      OthersStayUntouched(entries, before, problems, r, env, base);
      forall i | 0 <= i < |entries| ensures SettledAt(entries, i, before, problems, TryEntry(r, entries[n], env, base)) {
        SettledOneMore(entries, i, before, problems, r, env, base);
      }
    }
  }

  lemma OthersStayUntouched(entries: seq<Entry>, before: map<string, int>, problems: map<string, Problem>, r: Round,
                            env: Env, base: nat)
    requires entries != [] && DistinctSlots(entries) && ValidTenantID(entries[|entries| - 1].name.tenant)
    requires AllSucceed(TryEntry(r, entries[|entries| - 1], env, base).calls)
    requires OthersUntouched(entries[..|entries| - 1], before, problems, r)
    ensures OthersUntouched(entries, before, problems, TryEntry(r, entries[|entries| - 1], env, base))
  {
    var n := |entries| - 1;
    assert entries == entries[..n] + [entries[n]];
    LastIsNew(entries);
    forall slot | !Lists(entries, slot) ensures Untouched(entries, before, problems, TryEntry(r, entries[n], env, base), slot) {
      ListsOneMore(entries, slot);
      UntouchedOneMore(entries[..n], entries[n], before, problems, r, env, base, slot);
    }
  }

  lemma LastIsNew(entries: seq<Entry>)
    requires entries != [] && DistinctSlots(entries)
    ensures !Lists(entries[..|entries| - 1], Slot(entries[|entries| - 1].name))
  {
    assert forall k :: 0 <= k < |entries| - 1 ==> entries[..|entries| - 1][k] == entries[k];
  }

  lemma ListsOneMore(entries: seq<Entry>, slot: string)
    requires entries != []
    ensures var n := |entries| - 1; Lists(entries, slot) <==> Lists(entries[..n], slot) || Slot(entries[n].name) == slot
  {
    var n := |entries| - 1;
    assert forall k :: 0 <= k < n ==> entries[..n][k] == entries[k];
    if Lists(entries[..n], slot) {
      var k :| 0 <= k < n && Slot(entries[..n][k].name) == slot;
      assert Slot(entries[k].name) == slot;
    }
  }

  lemma SettledOneMore(entries: seq<Entry>, i: nat, before: map<string, int>, problems: map<string, Problem>, r: Round,
                       env: Env, base: nat)
    requires i < |entries| && Sorted(entries) && DistinctSlots(entries)
    requires ValidTenantID(entries[i].name.tenant)
    requires AllSucceed(TryEntry(r, entries[|entries| - 1], env, base).calls)
    requires var shorter := entries[..|entries| - 1];
      OthersUntouched(shorter, before, problems, r) && Settled(shorter, before, problems, r)
    ensures SettledAt(entries, i, before, problems, TryEntry(r, entries[|entries| - 1], env, base))
  {
    var n := |entries| - 1;
    if i < n {
      assert SettledAt(entries[..n], i, before, problems, r) && entries[..n][..i] == entries[..i];
      OthersStayLeftOut(r, entries[i], entries[n], env, base);
    } else {
      LastIsNew(entries);
      SettledAtItsTurn(entries[..n], entries[n], before, problems, r, env, base);
    }
  }

  lemma SettledAtItsTurn(entries: seq<Entry>, e: Entry, before: map<string, int>, problems: map<string, Problem>, r: Round,
                         env: Env, base: nat)
    requires Untouched(entries, before, problems, r, Slot(e.name)) && AllSucceed(TryEntry(r, e, env, base).calls)
    ensures LeftOut(TryEntry(r, e, env, base), e) <==> WillBeLeftOut(entries, before, problems, e)
  {
    OutcomeIsSuccess(r, e, env, base);
  }

  lemma OthersStayLeftOut(r: Round, e: Entry, next: Entry, env: Env, base: nat)
    requires InOrder(e, next) && Slot(e.name) != Slot(next.name) && ValidTenantID(e.name.tenant)
    ensures LeftOut(TryEntry(r, next, env, base), e) <==> LeftOut(r, e)
  {
    TenantSlotsParse(e.name);
  }

  /** Whether a complete round of usable items, each slot listed once, converges when all its calls
      succeed can be told before it: exactly when every listed item is current, or is not remembered
      as rejected at its version, or is a profile of which a certificate of its tenant and team is
      listed that is neither. */
  lemma ConvergesExactly(m: Manifest, installed: map<string, int>, problems: map<string, Problem>, plan: Plan, env: Env,
                         base: nat)
    requires Fits(m, installed, problems, plan, env, base) && m.complete && AllUsable(m.items) && ListedOnce(m.items)
    requires AllSucceed(TenantRound(m, installed, problems, plan, env, base).calls)
    ensures var r := TenantRound(m, installed, problems, plan, env, base);
      && (forall e :: e in m.items ==> (LeftOut(r, e) <==> WillBeLeftOut(m.items, installed, problems, e)))
      && (Converged(m, r.installed) <==> forall e :: e in m.items ==> !WillBeLeftOut(m.items, installed, problems, e))
  {
    var r0, r := TryAll(plan.entries, Start(installed, problems), env, base),
                 TenantRound(m, installed, problems, plan, env, base);
    PlannedItems(m, plan.entries);
    PlannedOnce(m, plan.entries);
    RemovingKeepsTheRest(m, installed, problems, plan, env, base);
    PrefixSucceeds(r0.calls, r.calls);
    LeftOutWasSettled(plan.entries, installed, problems, env, base);
    forall e | e in m.items ensures LeftOut(r, e) <==> WillBeLeftOut(m.items, installed, problems, e) {
      var i :| 0 <= i < |plan.entries| && plan.entries[i] == e;
      assert SettledAt(plan.entries, i, installed, problems, r0);
      CertificatesComeFirst(m.items, plan.entries, i, installed, problems);
      LeftOutBothWays(m, installed, problems, plan, env, base, e);
    }
    ConvergesUnlessRejected(m, installed, problems, plan, env, base);
  }

  lemma CertificatesComeFirst(items: seq<Entry>, entries: seq<Entry>, i: nat, before: map<string, int>,
                              problems: map<string, Problem>)
    requires Sorted(entries) && i < |entries| && (forall e :: e in entries <==> e in items)
    requires ValidTenantID(entries[i].name.tenant)
    ensures Freed(entries[..i], before, problems, Slot(entries[i].name)) <==> Freed(items, before, problems, Slot(entries[i].name))
  {
    var slot := Slot(entries[i].name);
    if Freed(entries[..i], before, problems, slot) {
      var k :| 0 <= k < i && FreshCertificate(entries[..i][k], before, problems)
        && ProfileOf(slot, entries[..i][k].name.tenant, entries[..i][k].name.team);
      assert entries[..i][k] == entries[k] && entries[k] in entries;
      FreedBy(items, entries[k], before, problems, slot);
    }
    if Freed(items, before, problems, slot) {
      var j :| 0 <= j < |items| && FreshCertificate(items[j], before, problems)
        && ProfileOf(slot, items[j].name.tenant, items[j].name.team);
      assert items[j] in items;
      CertificateIsEarlier(entries, i, items[j]);
      FreedBy(entries[..i], items[j], before, problems, slot);
    }
  }

  lemma FreedBy(entries: seq<Entry>, c: Entry, before: map<string, int>, problems: map<string, Problem>, slot: string)
    requires c in entries && FreshCertificate(c, before, problems) && ProfileOf(slot, c.name.tenant, c.name.team)
    ensures Freed(entries, before, problems, slot)
  {
    var k :| 0 <= k < |entries| && entries[k] == c;
  }

  lemma CertificateIsEarlier(entries: seq<Entry>, i: nat, c: Entry)
    requires Sorted(entries) && i < |entries| && ValidTenantID(entries[i].name.tenant)
    requires c in entries && c.name.kind == CERTIFICATE && ProfileOf(Slot(entries[i].name), c.name.tenant, c.name.team)
    ensures c in entries[..i]
  {
    TenantSlotsParse(entries[i].name);
    var k :| 0 <= k < |entries| && entries[k] == c;
    assert !InOrder(entries[i], entries[k]) && k != i;
    assert entries[..i][k] == c;
  }

  /** Removals neither install nor forget anything of what is listed. */
  lemma LeftOutBothWays(m: Manifest, installed: map<string, int>, problems: map<string, Problem>, plan: Plan, env: Env,
                        base: nat, e: Entry)
    requires Fits(m, installed, problems, plan, env, base) && e in plan.entries && ValidTenantID(e.name.tenant)
    ensures LeftOut(TenantRound(m, installed, problems, plan, env, base), e)
      <==> LeftOut(TryAll(plan.entries, Start(installed, problems), env, base), e)
  {
    var r0 := TryAll(plan.entries, Start(installed, problems), env, base);
    RemovingKeepsTheRest(m, installed, problems, plan, env, base);
    assert Slot(e.name) in Slots(plan.entries);
    if Current(r0.installed, e) { ListedStays(m, Installing(m, installed, problems, plan, env, base), plan, env, base, e); }
  }

  // ---- the per-team round ----

  /** A recorded upload key, by the first two parts of its slot, whose team has none in the list. */
  predicate Withdrawn(slot: string, items: seq<Entry>) { KindOf(slot) == UPLOAD_KEY && !HasUploadKey(items, TeamOf(slot)) }

  /** The per-team layout remembers no problems. */
  function TryTeamEntry(r: Round, e: Entry, env: Env, base: nat): Round {
    TryEntry(r.(problems := map[]), e, env, base)
  }

  function TryTeamAll(entries: seq<Entry>, before: map<string, int>, env: Env, base: nat): Round {
    if entries == [] then Start(before, map[]) else
    TryTeamEntry(TryTeamAll(entries[..|entries| - 1], before, env, base), entries[|entries| - 1], env, base)
  }

  function DropKey(r: Round, slot: string, items: seq<Entry>, env: Env, base: nat): Round {
    if !Withdrawn(slot, items) then r else
    var n := Name("", UPLOAD_KEY, TeamOf(slot), "");
    var done := env.remove(n, base + |r.calls|);
    r.(installed := if done then r.installed - {slot} else r.installed, calls := r.calls + [Remove(n, done)])
  }

  function DropKeys(slots: seq<string>, r: Round, items: seq<Entry>, env: Env, base: nat): Round {
    if slots == [] then r else
    DropKey(DropKeys(slots[..|slots| - 1], r, items, env, base), slots[|slots| - 1], items, env, base)
  }

  function TeamRound(items: seq<Entry>, complete: bool, before: map<string, int>, order: seq<string>, env: Env, base: nat): Round {
    var r := TryTeamAll(items, before, env, base);
    if complete then DropKeys(order, r, items, env, base) else r
  }

  /** The removals go through what is recorded by then, each slot once, in any order. */
  ghost predicate TeamFits(items: seq<Entry>, complete: bool, before: map<string, int>, order: seq<string>, env: Env, base: nat) {
    complete ==> Enumerates(order, TryTeamAll(items, before, env, base).installed) && Once(order)
  }

  predicate Once(slots: seq<string>) { forall i, j :: 0 <= i < j < |slots| ==> slots[i] != slots[j] }

  predicate AnySucceeds(calls: seq<Call>) { exists i :: 0 <= i < |calls| && Succeeds(calls[i]) }

  lemma {:induction false} TeamTryingGrows(entries: seq<Entry>, before: map<string, int>, env: Env, base: nat)
    ensures var r := TryTeamAll(entries, before, env, base);
      && Grows(entries, before, r.installed)
      && (AllSucceed(r.calls) ==> AllCurrent(entries, r.installed))
      && (AllSucceed(r.calls) <==> r.all) && !r.skipped
      && (r.installed != before ==> AnySucceeds(r.calls))
  {
    if entries != [] {
      var n := |entries| - 1;
      TeamTryingGrows(entries[..n], before, env, base);
      var r := TryTeamAll(entries[..n], before, env, base);
      var plain := r.(problems := map[]);
      GrowsOn(entries, before, plain, env, base);
      CurrentOn(entries, plain, env, base);
      SuccessExtends(plain, entries[n], env, base);
      AnyExtends(plain, entries[n], env, base);
    }
  }

  lemma AnyExtends(r: Round, e: Entry, env: Env, base: nat)
    ensures var r' := TryEntry(r, e, env, base);
      AnySucceeds(r'.calls) <==> AnySucceeds(r.calls) || (|r'.calls| > |r.calls| && r'.installed == r.installed[Slot(e.name) := e.version] && Succeeds(r'.calls[|r.calls|]))
    ensures var r' := TryEntry(r, e, env, base);
      r'.installed == r.installed || (AnySucceeds(r'.calls) && r'.installed == r.installed[Slot(e.name) := e.version])
  {
    var r' := TryEntry(r, e, env, base);
    if |r'.calls| > |r.calls| { OneMoreSucceeds(r.calls, r'.calls[|r.calls|]); }
  }

  lemma OneMoreSucceeds(calls: seq<Call>, call: Call)
    ensures AnySucceeds(calls + [call]) <==> AnySucceeds(calls) || Succeeds(call)
  {
    var more := calls + [call];
    assert more[|calls|] == call;
    if AnySucceeds(calls) {
      var i :| 0 <= i < |calls| && Succeeds(calls[i]);
      assert more[i] == calls[i];
    }
  }

  lemma {:induction false} KeysDropped(slots: seq<string>, r: Round, items: seq<Entry>, env: Env, base: nat)
    ensures var r' := DropKeys(slots, r, items, env, base);
      && Shrinks(r.installed, r'.installed) && r.calls <= r'.calls
      && (forall slot :: slot in r.installed && slot !in r'.installed ==> Withdrawn(slot, items))
      && (AllSucceed(r'.calls) ==> forall slot :: slot in slots && Withdrawn(slot, items) ==> slot !in r'.installed)
      && ((forall slot :: slot in slots ==> !Withdrawn(slot, items)) ==> r' == r)
      && (AnySucceeds(r.calls) || r'.installed != r.installed ==> AnySucceeds(r'.calls))
  {
    if slots != [] {
      var n := |slots| - 1;
      KeysDropped(slots[..n], r, items, env, base);
      var r1 := DropKeys(slots[..n], r, items, env, base);
      var r2 := DropKey(r1, slots[n], items, env, base);
      assert slots == slots[..n] + [slots[n]];
      if |r2.calls| > |r1.calls| { OneMoreSucceeds(r1.calls, r2.calls[|r1.calls|]); }
      if AllSucceed(r2.calls) {
        assert forall i :: 0 <= i < |r1.calls| ==> r1.calls[i] == r2.calls[i];
        assert |r2.calls| > |r1.calls| ==> Succeeds(r2.calls[|r1.calls|]);
      }
    }
  }

  /** Safety of the per-team layout, whatever fails: nothing but an upload key leaves the record, and
      that only in a complete round that lists none for its team; what is recorded is explained. */
  lemma OnlyWithdrawnKeysLeave(items: seq<Entry>, complete: bool, before: map<string, int>, order: seq<string>, env: Env, base: nat)
    ensures var r := TeamRound(items, complete, before, order, env, base);
      && (forall slot :: slot in before && slot !in r.installed ==> complete && Withdrawn(slot, items))
      && (forall slot :: slot in r.installed ==> Explained(items, before, slot, r.installed[slot]))
      && (r.installed != before ==> AnySucceeds(r.calls))
  {
    TeamTryingGrows(items, before, env, base);
    KeysDropped(order, TryTeamAll(items, before, env, base), items, env, base);
  }

  /** What a per-team list says is there, and no upload key that it withdrew. */
  ghost predicate TeamConverged(items: seq<Entry>, installed: map<string, int>) {
    && (forall e :: e in items ==> Current(installed, e))
    && forall slot :: slot in installed ==> !Withdrawn(slot, items)
  }

  /** Kind and team of a per-team item can be read back from its slot. */
  predicate PerTeam(items: seq<Entry>) {
    forall e :: e in items ==> e.name.tenant == "" && Without(e.name.kind, '/') && Without(e.name.team, '/')
  }

  lemma ListedKeysStay(items: seq<Entry>, e: Entry)
    requires PerTeam(items) && e in items
    ensures !Withdrawn(Slot(e.name), items)
  {
    var n := e.name;
    var two, three := [n.team, n.scope], [n.kind, n.team, n.scope];
    assert two[1..] == [n.scope] && three[1..] == two;
    assert Join(two, '/') == n.team + "/" + n.scope && Slot(n) == n.kind + "/" + Join(two, '/');
    FirstPart(n.kind, Join(two, '/'));
    FirstPart(n.team, n.scope);
    var i :| 0 <= i < |items| && items[i] == e;
  }

  lemma FirstPart(p: string, s: string)
    requires Without(p, '/')
    ensures |Split(p + "/" + s, '/')| >= 2 && Split(p + "/" + s, '/') == [p] + Split(s, '/')
  {
    SplitParts(s, '/');
    SplitAfterPlain(p, "/" + s, '/');
    assert p + ("/" + s) == p + "/" + s && ("/" + s)[1..] == s;
    assert p + "" == p;
  }

  /** A per-team round in which every call succeeds installs what is listed and, on a complete list,
      leaves no withdrawn key and keeps every other slot. */
  lemma TeamRoundConverges(items: seq<Entry>, complete: bool, before: map<string, int>, order: seq<string>, env: Env, base: nat)
    requires TeamFits(items, complete, before, order, env, base) && (complete ==> PerTeam(items))
    requires AllSucceed(TeamRound(items, complete, before, order, env, base).calls)
    ensures var r := TeamRound(items, complete, before, order, env, base);
      && (forall e :: e in items ==> Current(r.installed, e))
      && (complete ==> TeamConverged(items, r.installed))
      && forall slot :: slot in before && (complete ==> !Withdrawn(slot, items)) ==> slot in r.installed
  {
    var r1 := TryTeamAll(items, before, env, base);
    var r := TeamRound(items, complete, before, order, env, base);
    TeamTryingGrows(items, before, env, base);
    KeysDropped(order, r1, items, env, base);
    PrefixSucceeds(r1.calls, r.calls);
    forall e | e in items ensures Current(r.installed, e) {
      var i :| 0 <= i < |items| && items[i] == e;
      assert Current(r1.installed, items[i]);
      if complete { ListedKeysStay(items, e); }
    }
  }

  /** And a round that starts there asks nothing of anybody. */
  lemma TeamRoundsAreSilent(items: seq<Entry>, complete: bool, before: map<string, int>, order: seq<string>, env: Env, base: nat)
    requires TeamFits(items, complete, before, order, env, base) && TeamConverged(items, before)
    ensures TeamRound(items, complete, before, order, env, base) == Start(before, map[])
  {
    TeamNothingToTry(items, before, env, base);
    KeysDropped(order, Start(before, map[]), items, env, base);
  }

  lemma {:induction false} TeamNothingToTry(entries: seq<Entry>, before: map<string, int>, env: Env, base: nat)
    requires forall e :: e in entries ==> Current(before, e)
    ensures TryTeamAll(entries, before, env, base) == Start(before, map[])
  {
    if entries != [] {
      var n := |entries| - 1;
      assert forall e :: e in entries[..n] ==> e in entries;
      TeamNothingToTry(entries[..n], before, env, base);
      assert Current(before, entries[n]);
    }
  }

  // ---- rounds that start from nothing ----

  /** From nothing each item is tried until one is installed; which call that is, is known before. */
  predicate SomeInstalls(items: seq<Entry>, env: Env, base: nat) {
    exists i :: 0 <= i < |items| && env.install(items[i], base + i) == Installed
  }

  lemma {:induction false} FromNothing(entries: seq<Entry>, env: Env, base: nat)
    ensures var r := TryTeamAll(entries, map[], env, base);
      && (AnySucceeds(r.calls) <==> SomeInstalls(entries, env, base))
      && (!AnySucceeds(r.calls) ==> r.installed == map[] && |r.calls| == |entries|)
  {
    if entries != [] {
      var n := |entries| - 1;
      var r := TryTeamAll(entries[..n], map[], env, base);
      FromNothing(entries[..n], env, base);
      MoreInstalls(entries, env, base);
      AnyExtends(r.(problems := map[]), entries[n], env, base);
    }
  }

  lemma MoreInstalls(items: seq<Entry>, env: Env, base: nat)
    requires items != []
    ensures var n := |items| - 1;
      SomeInstalls(items, env, base) <==> SomeInstalls(items[..n], env, base) || env.install(items[n], base + n) == Installed
  {
    var n := |items| - 1;
    if SomeInstalls(items[..n], env, base) {
      var i :| 0 <= i < n && env.install(items[..n][i], base + i) == Installed;
      assert items[i] == items[..n][i];
    }
    if SomeInstalls(items, env, base) {
      var i :| 0 <= i < |items| && env.install(items[i], base + i) == Installed;
      if i < n { assert items[..n][i] == items[i]; }
    }
  }

  /** This slot was installed. */
  predicate SlotInstalled(calls: seq<Call>, slot: string) { exists i :: 0 <= i < |calls| && Installs(calls[i], slot) }

  predicate Installs(call: Call, slot: string) {
    call.Install? && call.outcome == Installed && Slot(call.entry.name) == slot
  }

  /** What is recorded is what these calls installed. */
  predicate RecordsTheCalls(r: Round) {
    && (forall slot :: slot in r.installed ==> SlotInstalled(r.calls, slot))
    && forall i :: 0 <= i < |r.calls| && Succeeds(r.calls[i]) ==>
      r.calls[i].Install? && Slot(r.calls[i].entry.name) in r.installed
  }

  lemma RecordsOn(r: Round, e: Entry, env: Env, base: nat)
    requires RecordsTheCalls(r)
    ensures RecordsTheCalls(TryEntry(r, e, env, base))
  {
    var r' := TryEntry(r, e, env, base);
    if |r'.calls| > |r.calls| {
      var call := r'.calls[|r.calls|];
      forall slot | slot in r'.installed ensures SlotInstalled(r'.calls, slot) {
        if slot in r.installed {
          var i :| 0 <= i < |r.calls| && Installs(r.calls[i], slot);
          assert r'.calls[i] == r.calls[i];
        } else {
          assert Installs(call, slot);
        }
      }
      forall i | 0 <= i < |r'.calls| && Succeeds(r'.calls[i])
        ensures r'.calls[i].Install? && Slot(r'.calls[i].entry.name) in r'.installed
      {
        if i < |r.calls| { assert r'.calls[i] == r.calls[i]; }
      }
    }
  }

  lemma {:induction false} TeamRecords(entries: seq<Entry>, env: Env, base: nat)
    ensures RecordsTheCalls(TryTeamAll(entries, map[], env, base))
  {
    if entries != [] {
      var n := |entries| - 1;
      TeamRecords(entries[..n], env, base);
      RecordsOn(TryTeamAll(entries[..n], map[], env, base).(problems := map[]), entries[n], env, base);
    }
  }

  lemma {:induction false} TenantRecords(entries: seq<Entry>, problems: map<string, Problem>, env: Env, base: nat)
    ensures RecordsTheCalls(TryAll(entries, Start(map[], problems), env, base))
  {
    if entries != [] {
      var n := |entries| - 1;
      TenantRecords(entries[..n], problems, env, base);
      RecordsOn(TryAll(entries[..n], Start(map[], problems), env, base), entries[n], env, base);
    }
  }

  /** A tenant round from nothing records exactly what it installed: it withdraws and retires nothing. */
  lemma TenantRoundFromNothing(m: Manifest, problems: map<string, Problem>, plan: Plan, env: Env, base: nat)
    requires Fits(m, map[], problems, plan, env, base)
    ensures var r := TenantRound(m, map[], problems, plan, env, base);
      forall slot :: slot in r.installed <==> SlotInstalled(r.calls, slot)
  {
    var listed := Slots(plan.entries);
    var r0 := TryAll(plan.entries, Start(map[], problems), env, base);
    var r1 := Installing(m, map[], problems, plan, env, base);
    TenantRecords(plan.entries, problems, env, base);
    TryingGrows(plan.entries, map[], problems, env, base);
    PlannedItems(m, plan.entries);
    forall slot | slot in r1.installed ensures !Due(slot, listed, false) && !Due(slot, listed, true) {
      assert Explained(plan.entries, map[], slot, r1.installed[slot]);
      var i :| 0 <= i < |plan.entries| && ListsVersion(plan.entries[i], slot, r1.installed[slot]);
      assert plan.entries[i] in plan.entries;
      TenantSlotsParse(plan.entries[i].name);
    }
    DroppingShrinks(plan.withdrawn, r1, listed, false, env, base);
    DroppingShrinks(plan.legacy, r1, listed, true, env, base);
    assert TenantRound(m, map[], problems, plan, env, base) == r1;
    forall slot | SlotInstalled(r1.calls, slot) ensures slot in r1.installed {
      var i :| 0 <= i < |r1.calls| && Installs(r1.calls[i], slot);
      assert Succeeds(r1.calls[i]);
    }
  }

  /** A per-team round from nothing succeeds in something exactly when some item can be installed, and
      records nothing but what it installed. */
  lemma TeamRoundFromNothing(items: seq<Entry>, complete: bool, order: seq<string>, env: Env, base: nat)
    requires TeamFits(items, complete, map[], order, env, base)
    ensures var r := TeamRound(items, complete, map[], order, env, base);
      && (AnySucceeds(r.calls) <==> SomeInstalls(items, env, base))
      && forall slot :: slot in r.installed ==> SlotInstalled(r.calls, slot)
  {
    var r1 := TryTeamAll(items, map[], env, base);
    var r := TeamRound(items, complete, map[], order, env, base);
    FromNothing(items, env, base);
    TeamRecords(items, env, base);
    KeysDropped(order, r1, items, env, base);
    forall slot | slot in r.installed ensures SlotInstalled(r.calls, slot) {
      var i :| 0 <= i < |r1.calls| && Installs(r1.calls[i], slot);
      assert r.calls[i] == r1.calls[i] by { assert complete || r.calls == r1.calls; }
    }
  }

  ghost predicate AlwaysInstalls(env: Env) { forall e, n :: env.install(e, n) == Installed }

  // ---- the agent ----

  class Agent {
    var disk: Disk
    var problems: map<string, Problem>
    var layout: Layout
    var serverLayout: Layout
    /** Everything asked of the role programs so far. */
    var calls: seq<Call>

    constructor (disk: Disk)
      ensures this.disk == disk && problems == map[] && layout == Unknown && serverLayout == Unknown && calls == []
    {
      this.disk, problems, layout, serverLayout, calls := disk, map[], Unknown, Unknown, [];
    }

    method InstallMaterial(e: Entry, env: Env) returns (outcome: Outcome)
      modifies this`calls
      ensures calls == old(calls) + [Install(e, outcome)] && outcome == env.install(e, |old(calls)|)
    {
      outcome := env.install(e, |calls|);
      calls := calls + [Install(e, outcome)];
    }

    method RemoveMaterial(n: Name, env: Env) returns (done: bool)
      modifies this`calls
      ensures calls == old(calls) + [Remove(n, done)] && done == env.remove(n, |old(calls)|)
    {
      done := env.remove(n, |calls|);
      calls := calls + [Remove(n, done)];
    }

    method ForgetRejectedProfiles(tenant: string, team: string)
      modifies this`problems
      ensures problems == map slot | slot in old(problems) && !ProfileOf(slot, tenant, team) :: old(problems)[slot]
    {
      var rest := problems.Keys;
      while rest != {}
        invariant rest <= problems.Keys <= old(problems).Keys
        invariant forall slot :: slot in problems ==> problems[slot] == old(problems)[slot]
        invariant forall slot :: slot in old(problems) && slot !in rest ==>
          (slot in problems <==> !ProfileOf(slot, tenant, team))
      {
        var slot :| slot in rest;
        rest := rest - {slot};
        if ProfileOf(slot, tenant, team) {
          problems := problems - {slot};
        }
      }
    }

    /** The problems of slots that are no longer listed are forgotten. */
    method ForgetUnlistedProblems(listed: set<string>)
      modifies this`problems
      ensures problems == map slot | slot in old(problems) && slot in listed :: old(problems)[slot]
    {
      var rest := problems.Keys;
      while rest != {}
        invariant rest <= problems.Keys <= old(problems).Keys
        invariant forall slot :: slot in problems ==> problems[slot] == old(problems)[slot]
        invariant forall slot :: slot in old(problems) && slot !in rest ==> (slot in problems <==> slot in listed)
      {
        var slot :| slot in rest;
        rest := rest - {slot};
        if slot !in listed {
          problems := problems - {slot};
        }
      }
    }

    /** One listed entry: skip it when it is current or known to be rejected, or else install it and
        remember what went wrong. */
    method InstallEntry(e: Entry, before: map<string, int>, env: Env, ghost r: Round, ghost prior: seq<Call>)
      returns (installed: map<string, int>, failed: bool, changed: bool)
      requires r.installed == before && r.problems == problems && calls == prior + r.calls
      modifies this`problems, this`calls
      ensures var r' := TryEntry(r, e, env, |prior|);
        installed == r'.installed && problems == r'.problems && calls == prior + r'.calls && r'.all == (r.all && !failed)
      ensures changed <==> installed != before
      ensures changed ==> calls != old(calls)
    {
      installed, failed, changed := before, false, false;
      var slot := Slot(e.name);
      if slot in installed && installed[slot] >= e.version { return; }
      if slot in problems && problems[slot].rejected && problems[slot].version == e.version {
        failed := true;
        return;
      }
      var outcome := InstallMaterial(e, env);
      if outcome != Installed {
        failed := true;
        problems := problems[slot := Problem(e.version, outcome == Rejected)];
        return;
      }
      problems := problems - {slot};
      if e.name.kind == CERTIFICATE {
        ForgetRejectedProfiles(e.name.tenant, e.name.team);
      }
      installed := installed[slot := e.version];
      changed := true;
    }

    /** The loop over the listed entries. */
    method InstallListed(entries: seq<Entry>, before: map<string, int>, env: Env)
      returns (installed: map<string, int>, all: bool, changed: bool)
      modifies this`problems, this`calls
      ensures var r := TryAll(entries, Start(before, old(problems)), env, |old(calls)|);
        installed == r.installed && problems == r.problems && calls == old(calls) + r.calls && all == r.all
      ensures installed != before ==> changed
      ensures changed ==> calls != old(calls)
    {
      installed, all, changed := before, true, false;
      for i := 0 to |entries|
        invariant var r := TryAll(entries[..i], Start(before, old(problems)), env, |old(calls)|);
          installed == r.installed && problems == r.problems && calls == old(calls) + r.calls && all == r.all
        invariant installed != before ==> changed
        invariant changed ==> calls != old(calls)
      {
        TryOneMore(entries, i, Start(before, old(problems)), env, |old(calls)|);
        ghost var r := TryAll(entries[..i], Start(before, old(problems)), env, |old(calls)|);
        var failed, more;
        installed, failed, more := InstallEntry(entries[i], installed, env, r, old(calls));
        all := all && !failed;
        changed := changed || more;
      }
      assert entries[..|entries|] == entries;
    }

    /** The recorded slots, sorted. */
    method RecordedSlots(installed: map<string, int>) returns (slots: seq<string>)
      ensures Enumerates(slots, installed) && SortedSlots(slots)
    {
      slots := [];
      var rest := installed.Keys;
      while rest != {}
        invariant rest <= installed.Keys && SortedSlots(slots)
        invariant forall slot :: slot in slots <==> slot in installed && slot !in rest
      {
        var slot :| slot in rest;
        rest := rest - {slot};
        slots := InsertSlot(slots, slot);
      }
    }

    method RemoveSlot(slot: string, before: map<string, int>, listed: set<string>, legacy: bool, env: Env, ghost r: Round,
                      ghost prior: seq<Call>)
      returns (installed: map<string, int>, changed: bool)
      requires r.installed == before && calls == prior + r.calls
      modifies this`calls
      ensures var r' := DropSlot(r, slot, listed, legacy, env, |prior|);
        installed == r'.installed && calls == prior + r'.calls
      ensures changed <==> installed != before
      ensures installed.Keys <= before.Keys
    {
      installed, changed := before, false;
      if !Due(slot, listed, legacy) { return; }
      var n := ParseSlot(slot).value;
      if !(legacy && n.kind == CERTIFICATE) {
        var done := RemoveMaterial(n, env);
        if !done { return; }
      }
      changed := slot in installed;
      installed := installed - {slot};
    }

    /** The loops that withdraw tenants' slots and retire the per-team ones. */
    method RemoveSlots(before: map<string, int>, listed: set<string>, legacy: bool, env: Env, ghost r: Round,
                       ghost prior: seq<Call>)
      returns (installed: map<string, int>, changed: bool, ghost slots: seq<string>)
      requires r.installed == before && calls == prior + r.calls
      modifies this`calls
      ensures Enumerates(slots, before) && SortedSlots(slots)
      ensures var r' := DropAll(slots, r, listed, legacy, env, |prior|);
        installed == r'.installed && calls == prior + r'.calls
      ensures changed <==> installed != before
    {
      var order := RecordedSlots(before);
      slots := order;
      installed, changed := before, false;
      for i := 0 to |order|
        invariant var r' := DropAll(order[..i], r, listed, legacy, env, |prior|);
          installed == r'.installed && calls == prior + r'.calls
        invariant installed.Keys <= before.Keys
        invariant changed <==> installed != before
      {
        DropOneMore(order, i, r, listed, legacy, env, |prior|);
        ghost var r' := DropAll(order[..i], r, listed, legacy, env, |prior|);
        var more;
        installed, more := RemoveSlot(order[i], installed, listed, legacy, env, r', prior);
        changed := changed || more;
      }
      assert order[..|order|] == order;
    }

    /** The items without a usable tenant id are left alone. */
    method SelectUsable(items: seq<Entry>) returns (entries: seq<Entry>)
      ensures entries == UsableItems(items)
    {
      entries := [];
      for i := 0 to |items|
        invariant entries == UsableItems(items[..i])
      {
        assert items[..i + 1][..i] == items[..i];
        if !ValidTenantID(items[i].name.tenant) { continue; }
        entries := entries + [items[i]];
      }
      assert items[..|items|] == items;
    }

    /** The installing half of a tenant round: the usable items, in order. */
    method InstallUsable(m: Manifest, record: Record, env: Env)
      returns (installed: map<string, int>, entries: seq<Entry>, all: bool, changed: bool)
      modifies this`problems, this`calls
      ensures Sorted(entries) && multiset(entries) == multiset(UsableItems(m.items))
      ensures var r := Installing(m, record.installed, old(problems), Plan(entries, [], []), env, |old(calls)|);
        installed == r.installed && problems == r.problems && calls == old(calls) + r.calls && all == r.all
      ensures installed != record.installed ==> changed
      ensures changed ==> calls != old(calls)
    {
      var usable := SelectUsable(m.items);
      entries := SortEntries(usable);
      installed, all, changed := InstallListed(entries, record.installed, env);
      ForgetUnlistedProblems(Slots(entries));
      all := all && |entries| == |m.items|;
    }

    /** syncTenantMaterial: the whole tenant round, and the record when something changed. */
    method SyncTenantMaterial(m: Manifest, record: Record, env: Env) returns (installed: map<string, int>, ghost plan: Plan)
      modifies this`problems, this`calls, this`disk
      ensures Fits(m, record.installed, old(problems), plan, env, |old(calls)|)
      ensures var r := TenantRound(m, record.installed, old(problems), plan, env, |old(calls)|);
        installed == r.installed && problems == r.problems && calls == old(calls) + r.calls
      ensures disk == old(disk) || (env.saved && disk == NewFormat(Record(TenantLayout, installed)))
      ensures installed != record.installed && env.saved ==> disk == NewFormat(Record(TenantLayout, installed))
      ensures calls == old(calls) && installed == record.installed ==> disk == old(disk)
    {
      var entries, all, changed, more;
      installed, entries, all, changed := InstallUsable(m, record, env);
      var listed := Slots(entries);
      plan := Plan(entries, [], []);
      if m.complete {
        ghost var r1 := Installing(m, record.installed, old(problems), plan, env, |old(calls)|);
        ghost var withdrawn;
        installed, more, withdrawn := RemoveSlots(installed, listed, false, env, r1, old(calls));
        changed := changed || more;
        plan := Plan(entries, withdrawn, []);
        DroppingShrinks(withdrawn, r1, listed, false, env, |old(calls)|);
        assert plan.entries == entries && Withdrawing(m, r1, plan, env, |old(calls)|).all == all;
        if all {
          ghost var r2 := Withdrawing(m, r1, plan, env, |old(calls)|);
          ghost var legacy;
          installed, more, legacy := RemoveSlots(installed, listed, true, env, r2, old(calls));
          changed := changed || more;
          plan := Plan(entries, withdrawn, legacy);
          DroppingShrinks(legacy, r2, listed, true, env, |old(calls)|);
        }
      }
      if changed && env.saved {
        disk := NewFormat(Record(TenantLayout, installed));
      }
    }

    /** One item: skip it when it is current, or else install it and go on when that fails. */
    method InstallTeamItem(e: Entry, before: map<string, int>, env: Env, ghost r: Round, ghost prior: seq<Call>)
      returns (installed: map<string, int>, changed: bool)
      requires r.installed == before && calls == prior + r.calls
      modifies this`calls
      ensures var r' := TryTeamEntry(r, e, env, |prior|);
        installed == r'.installed && calls == prior + r'.calls
        && (AnySucceeds(r'.calls) <==> AnySucceeds(r.calls) || changed)
    {
      installed, changed := before, false;
      var slot := Slot(e.name);
      if slot in installed && installed[slot] >= e.version { return; }
      var outcome := InstallMaterial(e, env);
      OneMoreSucceeds(r.calls, calls[|calls| - 1]);
      if outcome != Installed { return; }
      installed, changed := installed[slot := e.version], true;
    }

    /** The loop over the items of a per-team list. */
    method InstallTeamItems(items: seq<Entry>, before: map<string, int>, env: Env)
      returns (installed: map<string, int>, changed: bool)
      modifies this`calls
      ensures var r := TryTeamAll(items, before, env, |old(calls)|);
        installed == r.installed && calls == old(calls) + r.calls && (changed <==> AnySucceeds(r.calls))
    {
      installed, changed := before, false;
      for i := 0 to |items|
        invariant var r := TryTeamAll(items[..i], before, env, |old(calls)|);
          installed == r.installed && calls == old(calls) + r.calls && (changed <==> AnySucceeds(r.calls))
      {
        assert items[..i + 1][..i] == items[..i];
        ghost var r := TryTeamAll(items[..i], before, env, |old(calls)|);
        var more;
        installed, more := InstallTeamItem(items[i], installed, env, r, old(calls));
        changed := changed || more;
      }
      assert items[..|items|] == items;
    }

    /** syncTeamMaterial: the per-team layout, and the tombstones of upload keys. */
    method SyncTeamMaterial(items: seq<Entry>, complete: bool, before: map<string, int>, env: Env)
      returns (installed: map<string, int>, ghost order: seq<string>)
      modifies this`calls, this`disk
      ensures TeamFits(items, complete, before, order, env, |old(calls)|)
      ensures var r := TeamRound(items, complete, before, order, env, |old(calls)|);
        installed == r.installed && calls == old(calls) + r.calls
        && disk == if AnySucceeds(r.calls) && env.saved then OldFormat(installed) else old(disk)
      ensures forall slot :: slot in before && slot !in installed ==> complete && Withdrawn(slot, items)
      ensures forall slot :: slot in installed ==> Explained(items, before, slot, installed[slot])
      ensures installed != before && env.saved ==> disk == OldFormat(installed)
    {
      var changed;
      installed, changed := InstallTeamItems(items, before, env);
      order := [];
      if complete {
        ghost var r := TryTeamAll(items, before, env, |old(calls)|);
        var more;
        installed, more, order := RemoveWithdrawnUploadKeys(items, installed, env, r, old(calls));
        changed := changed || more;
      }
      OnlyWithdrawnKeysLeave(items, complete, before, order, env, |old(calls)|);
      if changed && env.saved {
        disk := OldFormat(installed);
      }
    }

    method RemoveKey(slot: string, before: map<string, int>, items: seq<Entry>, listed: set<string>, env: Env,
                     ghost r: Round, ghost prior: seq<Call>)
      returns (installed: map<string, int>, changed: bool)
      requires r.installed == before && calls == prior + r.calls
      requires forall team :: team in listed <==> HasUploadKey(items, team)
      modifies this`calls
      ensures var r' := DropKey(r, slot, items, env, |prior|);
        installed == r'.installed && calls == prior + r'.calls
        && (AnySucceeds(r'.calls) <==> AnySucceeds(r.calls) || changed)
    {
      installed, changed := before, false;
      if KindOf(slot) != UPLOAD_KEY || TeamOf(slot) in listed { return; }
      var done := RemoveMaterial(Name("", UPLOAD_KEY, TeamOf(slot), ""), env);
      OneMoreSucceeds(r.calls, calls[|calls| - 1]);
      if !done { return; }
      installed, changed := installed - {slot}, true;
    }

    /** removeWithdrawnUploadKeys: in whatever order the recorded slots come. */
    method RemoveWithdrawnUploadKeys(items: seq<Entry>, before: map<string, int>, env: Env, ghost r: Round,
                                     ghost prior: seq<Call>)
      returns (installed: map<string, int>, changed: bool, ghost order: seq<string>)
      requires r.installed == before && calls == prior + r.calls
      modifies this`calls
      ensures Enumerates(order, before) && Once(order)
      ensures var r' := DropKeys(order, r, items, env, |prior|);
        installed == r'.installed && calls == prior + r'.calls
        && (AnySucceeds(r'.calls) <==> AnySucceeds(r.calls) || changed)
    {
      var listed := UploadKeyTeams(items);
      var rest := before.Keys;
      installed, changed, order := before, false, [];
      while rest != {}
        invariant rest <= before.Keys && Once(order)
        invariant forall slot :: slot in order <==> slot in before && slot !in rest
        invariant var r' := DropKeys(order, r, items, env, |prior|);
          installed == r'.installed && calls == prior + r'.calls
          && (AnySucceeds(r'.calls) <==> AnySucceeds(r.calls) || changed)
      {
        var slot :| slot in rest;
        rest := rest - {slot};
        ghost var r' := DropKeys(order, r, items, env, |prior|);
        assert (order + [slot])[..|order|] == order;
        order := order + [slot];
        var more;
        installed, more := RemoveKey(slot, installed, items, listed, env, r', prior);
        changed := changed || more;
      }
    }

    method UploadKeyTeams(items: seq<Entry>) returns (listed: set<string>)
      ensures forall team :: team in listed <==> HasUploadKey(items, team)
    {
      listed := {};
      for i := 0 to |items|
        invariant listed == set k | 0 <= k < i && items[k].name.kind == UPLOAD_KEY :: items[k].name.team
      {
        if items[i].name.kind == UPLOAD_KEY { listed := listed + {items[i].name.team}; }
      }
    }

    /** syncIOSMaterial: one round. The switch to the tenant layout is recorded before anything is
        installed, and a machine that has switched ignores per-team manifests. */
    method SyncIOSMaterial(manifest: Option<Manifest>, env: Env)
      modifies this
      ensures manifest.None? ==> disk == old(disk) && calls == old(calls) && problems == old(problems)
      ensures manifest.Some? && manifest.value.layout == TenantLayout ==>
        var record := ReadRecord(old(disk), env.readable);
        if record.layout != TenantLayout && !env.switchSaved then disk == old(disk) && calls == old(calls)
        else exists plan :: TenantRoundRan(manifest.value, record.installed, old(problems), plan, env, old(calls))
      ensures manifest.Some? && manifest.value.layout != TenantLayout ==>
        var record := ReadRecord(old(disk), env.readable);
        if record.layout == TenantLayout then disk == old(disk) && calls == old(calls)
        else exists order :: TeamRoundRan(manifest.value, record.installed, order, env, old(calls), old(disk))
      ensures FileFollows(manifest, env, old(disk), disk, |old(calls)|, calls[|old(calls)|..])
    {
      assert calls[|calls|..] == [];
      UntouchedFileFollows(manifest, env, disk, |calls|);
      if manifest.None? { return; }
      var m := manifest.value;
      var record := ReadRecord(disk, env.readable);
      if m.layout == TenantLayout {
        serverLayout := TenantLayout;
        if record.layout != TenantLayout {
          record := record.(layout := TenantLayout);
          if !env.switchSaved { return; }
          disk := NewFormat(record);
        }
        layout := TenantLayout;
        ghost var plan;
        var installed;
        installed, plan := SyncTenantMaterial(m, record, env);
        assert TenantRoundRan(m, record.installed, old(problems), plan, env, old(calls));
        assert calls[|old(calls)|..] == TenantRound(m, record.installed, old(problems), plan, env, |old(calls)|).calls;
        TenantFileFollows(m, env, old(disk), disk, old(problems), plan, |old(calls)|);
      } else if record.layout == TenantLayout {
        serverLayout := TeamLayout;
      } else {
        serverLayout, layout := TeamLayout, TeamLayout;
        ghost var order;
        var installed;
        installed, order := SyncTeamMaterial(m.items, m.complete, record.installed, env);
        assert TeamRoundRan(m, record.installed, order, env, old(calls), old(disk));
        assert calls[|old(calls)|..] == TeamRound(m.items, m.complete, record.installed, order, env, |old(calls)|).calls;
        TeamFileFollows(m, env, old(disk), disk, order, |old(calls)|);
      }
    }

    /** The slots and versions that the file records. */
    function Recorded(): map<string, int>
      reads this`disk
    {
      ReadRecord(disk, true).installed
    }

    /** The layout that the file records. */
    function Layouts(): Layout
      reads this`disk
    {
      ReadRecord(disk, true).layout
    }

    /** A tenant round has run: its calls were made, and its record is on disk, or the old one still
        is (with the new layout) because nothing changed or it could not be written. */
    ghost predicate TenantRoundRan(m: Manifest, before: map<string, int>, problemsBefore: map<string, Problem>, plan: Plan,
                                   env: Env, prior: seq<Call>)
      reads this
    {
      && Fits(m, before, problemsBefore, plan, env, |prior|)
      && var r := TenantRound(m, before, problemsBefore, plan, env, |prior|);
      && problems == r.problems && calls == prior + r.calls && Layouts() == TenantLayout
      && Recorded() == if env.saved then r.installed else before
    }

    /** A per-team round has run: its calls were made, and the file is written in the old format
        exactly when one of them succeeded and it could be written. */
    ghost predicate TeamRoundRan(m: Manifest, before: map<string, int>, order: seq<string>, env: Env, prior: seq<Call>,
                                 diskBefore: Disk)
      reads this
    {
      && TeamFits(m.items, m.complete, before, order, env, |prior|)
      && var r := TeamRound(m.items, m.complete, before, order, env, |prior|);
      && calls == prior + r.calls
      && disk == if AnySucceeds(r.calls) && env.saved then OldFormat(r.installed) else diskBefore
    }
  }

  /** strings.Cut, twice: the text before the first slash, and the text up to the next. */
  function KindOf(slot: string): string { FirstOf(Split(slot, '/')) }

  function TeamOf(slot: string): string { var parts := Split(slot, '/'); if |parts| < 2 then "" else parts[1] }

  function FirstOf(parts: seq<string>): string { if parts == [] then "" else parts[0] }

  /** When a recorded slot may go in a round that could read the record: only for a complete list. A
      tenants' list takes its own slots away that it does not list, and the per-team ones once every
      item is usable and installed; a per-team list takes withdrawn upload keys away. */
  predicate MayLeave(m: Manifest, before: Layout, recorded: map<string, int>, slot: string) {
    && m.complete
    && if m.layout == TenantLayout then
         && ParseSlot(slot).Some?
         && (TenantSlot(slot) ==> !Listed(m, slot))
         && (TeamSlot(slot) ==> AllUsable(m.items) && ItemsCurrent(m, recorded))
       else before != TenantLayout && Withdrawn(slot, m.items)
  }

  /** What a round means for the file: its layout, and
      that a slot which was read leaves the file only when it may.
      Slots that could not be read are lost: the file has those that the round installed and wrote
      (and of a per-team list nothing else), unless nothing was written at all. */
  ghost predicate FileFollows(manifest: Option<Manifest>, env: Env, before: Disk, after: Disk, base: nat, made: seq<Call>) {
    var was, now := ReadRecord(before, true), ReadRecord(after, true);
    && LayoutFollows(manifest, env, before, after, base)
    && (env.readable ==> forall slot :: slot in was.installed && slot !in now.installed ==>
          manifest.Some? && MayLeave(manifest.value, was.layout, now.installed, slot))
    && (!env.readable && manifest.Some? ==> Replaces(manifest.value, env, before, after, base, made))
  }

  /** The tenant layout is taken up exactly when the server's list is per tenant and that could be
      recorded, and given up exactly when the record could not be read, the list is per team, and
      something on it was installed and written. */
  predicate LayoutFollows(manifest: Option<Manifest>, env: Env, before: Disk, after: Disk, base: nat) {
    ReadRecord(after, true).layout == TenantLayout <==>
      if ReadRecord(before, true).layout == TenantLayout then !GivesUp(manifest, env, base) else Switches(manifest, env)
  }

  predicate Switches(manifest: Option<Manifest>, env: Env) {
    manifest.Some? && manifest.value.layout == TenantLayout && env.switchSaved
  }

  predicate GivesUp(manifest: Option<Manifest>, env: Env, base: nat) {
    !env.readable && manifest.Some? && WritesTeam(manifest.value, env, base)
  }

  predicate WritesTeam(m: Manifest, env: Env, base: nat) {
    m.layout != TenantLayout && env.saved && SomeInstalls(m.items, env, base)
  }

  ghost predicate Replaces(m: Manifest, env: Env, before: Disk, after: Disk, base: nat, made: seq<Call>) {
    var now := ReadRecord(after, true).installed;
    if m.layout == TenantLayout then
      if env.switchSaved then forall slot :: slot in now <==> env.saved && SlotInstalled(made, slot) else after == before
    else
      if WritesTeam(m, env, base) then forall slot :: slot in now ==> SlotInstalled(made, slot) else after == before
  }

  predicate LeavesTheFile(manifest: Option<Manifest>, env: Env, record: Record) {
    || manifest.None?
    || (manifest.value.layout == TenantLayout && record.layout != TenantLayout && !env.switchSaved)
    || (manifest.value.layout != TenantLayout && record.layout == TenantLayout)
  }

  lemma UntouchedFileFollows(manifest: Option<Manifest>, env: Env, disk: Disk, base: nat)
    ensures LeavesTheFile(manifest, env, ReadRecord(disk, env.readable)) ==> FileFollows(manifest, env, disk, disk, base, [])
  {
  }

  lemma TenantFileFollows(m: Manifest, env: Env, before: Disk, after: Disk, problems: map<string, Problem>, plan: Plan, base: nat)
    requires m.layout == TenantLayout
    requires var record := ReadRecord(before, env.readable);
      && (record.layout != TenantLayout ==> env.switchSaved) && Fits(m, record.installed, problems, plan, env, base)
      && var r := TenantRound(m, record.installed, problems, plan, env, base);
         ReadRecord(after, true) == Record(TenantLayout, if env.saved then r.installed else record.installed)
    ensures FileFollows(Some(m), env, before, after, base,
      TenantRound(m, ReadRecord(before, env.readable).installed, problems, plan, env, base).calls)
  {
    var record, now := ReadRecord(before, env.readable), ReadRecord(after, true).installed;
    if env.readable {
      forall slot | slot in record.installed && slot !in now ensures MayLeave(m, record.layout, now, slot) {
        SlotsLeaveOnlyWhenTheyMay(m, record.installed, problems, plan, env, base, slot);
      }
    } else {
      TenantRoundFromNothing(m, problems, plan, env, base);
    }
  }

  lemma TeamFileFollows(m: Manifest, env: Env, before: Disk, after: Disk, order: seq<string>, base: nat)
    requires m.layout != TenantLayout && ReadRecord(before, env.readable).layout != TenantLayout
    requires var record := ReadRecord(before, env.readable);
      && TeamFits(m.items, m.complete, record.installed, order, env, base)
      && var r := TeamRound(m.items, m.complete, record.installed, order, env, base);
         after == if AnySucceeds(r.calls) && env.saved then OldFormat(r.installed) else before
    ensures FileFollows(Some(m), env, before, after, base,
      TeamRound(m.items, m.complete, ReadRecord(before, env.readable).installed, order, env, base).calls)
  {
    var installed := ReadRecord(before, env.readable).installed;
    OnlyWithdrawnKeysLeave(m.items, m.complete, installed, order, env, base);
    if !env.readable { TeamRoundFromNothing(m.items, m.complete, order, env, base); }
  }

  predicate HasUploadKey(items: seq<Entry>, team: string) {
    exists i :: 0 <= i < |items| && items[i].name.kind == UPLOAD_KEY && items[i].name.team == team
  }

  // ---- the layout over any number of rounds and restarts ----

  datatype Moment = Restart | Sync(manifest: Option<Manifest>, env: Env)

  /** A restart leaves the file alone. */
  predicate Follows(moment: Moment, before: Disk, after: Disk, base: nat) {
    match moment
    case Restart => after == before
    case Sync(manifest, env) => LayoutFollows(manifest, env, before, after, base)
  }

  predicate SwitchesIn(moment: Moment) { moment.Sync? && Switches(moment.manifest, moment.env) }

  predicate GivesUpIn(moment: Moment, base: nat) { moment.Sync? && GivesUp(moment.manifest, moment.env, base) }

  /** The file from moment to moment, and how many calls had been made before each. */
  predicate History(disks: seq<Disk>, moments: seq<Moment>, bases: seq<nat>) {
    && |disks| == |moments| + 1 && |bases| == |moments|
    && forall i :: 0 <= i < |moments| ==> Follows(moments[i], disks[i], disks[i + 1], bases[i])
  }

  predicate NeverGivesUp(moments: seq<Moment>, bases: seq<nat>, since: nat)
    requires |bases| == |moments|
  {
    forall i :: since <= i < |moments| ==> !GivesUpIn(moments[i], bases[i])
  }

  /** The tenant layout was there or was taken up at some moment, and was never given up since. */
  predicate HasSwitched(start: Disk, moments: seq<Moment>, bases: seq<nat>)
    requires |bases| == |moments|
  {
    || (ReadRecord(start, true).layout == TenantLayout && NeverGivesUp(moments, bases, 0))
    || exists k :: 0 <= k < |moments| && SwitchesIn(moments[k]) && NeverGivesUp(moments, bases, k + 1)
  }

  /** Whatever rounds and restarts there are: that is exactly when the file has the tenant layout. */
  lemma {:induction false} LayoutOverTime(disks: seq<Disk>, moments: seq<Moment>, bases: seq<nat>)
    requires History(disks, moments, bases)
    ensures ReadRecord(disks[|moments|], true).layout == TenantLayout <==> HasSwitched(disks[0], moments, bases)
  {
    if moments != [] {
      var n := |moments| - 1;
      assert History(disks[..n + 1], moments[..n], bases[..n]) by {
        assert forall i :: 0 <= i < n ==> Follows(moments[i], disks[i], disks[i + 1], bases[i]);
      }
      LayoutOverTime(disks[..n + 1], moments[..n], bases[..n]);
      assert Follows(moments[n], disks[n], disks[n + 1], bases[n]);
      SwitchedOneMore(disks[0], moments, bases);
    }
  }

  lemma SwitchedOneMore(start: Disk, moments: seq<Moment>, bases: seq<nat>)
    requires |bases| == |moments| && moments != []
    ensures var n := |moments| - 1;
      HasSwitched(start, moments, bases) <==>
        (SwitchesIn(moments[n]) || (HasSwitched(start, moments[..n], bases[..n]) && !GivesUpIn(moments[n], bases[n])))
  {
    var n := |moments| - 1;
    forall since: nat | since <= n
      ensures NeverGivesUp(moments, bases, since) <==>
        (NeverGivesUp(moments[..n], bases[..n], since) && !GivesUpIn(moments[n], bases[n]))
    {
      assert forall i :: 0 <= i < n ==> moments[..n][i] == moments[i] && bases[..n][i] == bases[i];
    }
    if HasSwitched(start, moments[..n], bases[..n]) && ReadRecord(start, true).layout != TenantLayout {
      var k :| 0 <= k < n && SwitchesIn(moments[..n][k]) && NeverGivesUp(moments[..n], bases[..n], k + 1);
      assert SwitchesIn(moments[k]);
    }
    if k :| 0 <= k < |moments| && SwitchesIn(moments[k]) && NeverGivesUp(moments, bases, k + 1) {
      assert k < n ==> SwitchesIn(moments[..n][k]);
    }
  }

  /** An agent and its successors on one disk. */
  method Live(disk: Disk, moments: seq<Moment>) returns (a: Agent, ghost bases: seq<nat>)
    ensures fresh(a) && |bases| == |moments|
    ensures a.Layouts() == TenantLayout <==> HasSwitched(disk, moments, bases)
  {
    a := new Agent(disk);
    bases := [];
    ghost var disks := [disk];
    for i := 0 to |moments|
      invariant fresh(a) && History(disks, moments[..i], bases) && disks[i] == a.disk && disks[0] == disk
    {
      ghost var base := |a.calls|;
      match moments[i] {
        case Restart => a := new Agent(a.disk);
        case Sync(manifest, env) => a.SyncIOSMaterial(manifest, env);
      }
      HistoryOneMore(disks, moments[..i], bases, moments[i], a.disk, base);
      assert moments[..i + 1] == moments[..i] + [moments[i]];
      disks, bases := disks + [a.disk], bases + [base];
    }
    assert moments[..|moments|] == moments;
    LayoutOverTime(disks, moments, bases);
  }

  lemma HistoryOneMore(disks: seq<Disk>, moments: seq<Moment>, bases: seq<nat>, moment: Moment, after: Disk, base: nat)
    requires History(disks, moments, bases) && Follows(moment, disks[|moments|], after, base)
    ensures History(disks + [after], moments + [moment], bases + [base])
  {
    var ds, ms, bs := disks + [after], moments + [moment], bases + [base];
    forall i | 0 <= i < |ms| ensures Follows(ms[i], ds[i], ds[i + 1], bs[i]) {
      if i < |moments| { assert Follows(moments[i], disks[i], disks[i + 1], bases[i]); }
    }
  }

  // ---- rounds one after the other ----

  predicate NoFailures(env: Env) { env.readable && env.switchSaved && env.saved }

  ghost predicate CallsSucceed(env: Env) {
    AlwaysInstalls(env) && forall name, n :: env.remove(name, n)
  }

  /** When every call succeeds and no listed item was rejected before, nothing is left out. */
  lemma {:induction false} NothingIsSkipped(entries: seq<Entry>, before: map<string, int>, problems: map<string, Problem>,
                                            env: Env, base: nat)
    requires CallsSucceed(env) && forall i :: 0 <= i < |entries| ==> !Blocked(problems, entries[i])
    ensures var r := TryAll(entries, Start(before, problems), env, base);
      !r.skipped && AllSucceed(r.calls) && Forgets(problems, r.problems)
  {
    if entries != [] {
      var n := |entries| - 1;
      assert forall i :: 0 <= i < n ==> entries[..n][i] == entries[i];
      NothingIsSkipped(entries[..n], before, problems, env, base);
      var r := TryAll(entries[..n], Start(before, problems), env, base);
      assert !Blocked(r.problems, entries[n]);
    }
  }

  predicate Forgets(before: map<string, Problem>, after: map<string, Problem>) {
    forall slot :: slot in after ==> slot in before && before[slot] == after[slot]
  }

  lemma {:induction false} RemovingSucceeds(slots: seq<string>, r: Round, listed: set<string>, legacy: bool, env: Env, base: nat)
    requires CallsSucceed(env) && AllSucceed(r.calls)
    ensures AllSucceed(DropAll(slots, r, listed, legacy, env, base).calls)
  {
    if slots != [] { RemovingSucceeds(slots[..|slots| - 1], r, listed, legacy, env, base); }
  }

  lemma GoodRoundConverges(m: Manifest, installed: map<string, int>, problems: map<string, Problem>, plan: Plan, env: Env,
                           base: nat)
    requires Fits(m, installed, problems, plan, env, base) && m.complete && AllUsable(m.items)
    requires CallsSucceed(env) && forall e :: e in m.items ==> !Blocked(problems, e)
    ensures Converged(m, TenantRound(m, installed, problems, plan, env, base).installed)
  {
    var listed := Slots(plan.entries);
    PlannedItems(m, plan.entries);
    forall i | 0 <= i < |plan.entries| ensures !Blocked(problems, plan.entries[i]) {
      assert plan.entries[i] in plan.entries;
    }
    NothingIsSkipped(plan.entries, installed, problems, env, base);
    var r1 := Installing(m, installed, problems, plan, env, base);
    var r2 := Withdrawing(m, r1, plan, env, base);
    RemovingSucceeds(plan.withdrawn, r1, listed, false, env, base);
    RemovingSucceeds(plan.legacy, r2, listed, true, env, base);
    RemovingKeepsTheRest(m, installed, problems, plan, env, base);
    OneRoundConverges(m, installed, problems, plan, env, base);
  }

  /** Two rounds on the same manifest: the first one reaches what is listed, from whatever was
      installed; the second one asks nothing of anybody and leaves the record alone. */
  method SecondRoundIsSilent(a: Agent, m: Manifest, env: Env, env': Env) returns (ghost afterFirst: seq<Call>)
    requires m.layout == TenantLayout && m.complete && AllUsable(m.items)
    requires NoFailures(env) && CallsSucceed(env) && NoFailures(env')
    requires forall e :: e in m.items ==> !Blocked(a.problems, e)
    modifies a
    ensures a.calls == afterFirst && Converged(m, ReadRecord(a.disk, true).installed)
  {
    ghost var before, problems, prior := ReadRecord(a.disk, true).installed, a.problems, a.calls;
    a.SyncIOSMaterial(Some(m), env);
    afterFirst := a.calls;
    ghost var plan :| a.TenantRoundRan(m, before, problems, plan, env, prior);
    GoodRoundConverges(m, before, problems, plan, env, |prior|);
    ghost var reached, memory := ReadRecord(a.disk, true).installed, a.problems;
    a.SyncIOSMaterial(Some(m), env');
    ghost var plan' :| a.TenantRoundRan(m, reached, memory, plan', env', afterFirst);
    ConvergedRoundsAreSilent(m, reached, memory, plan', env', |afterFirst|);
  }

  /** The switch is for good only as long as the record can be read: a round that cannot read it, on
      a per-team list of one item that can be installed, writes the file back to the old layout. */
  method UnreadableRecordFallsBack(a: Agent, item: Entry)
    requires a.disk == NewFormat(Record(TenantLayout, map[]))
    modifies a
    ensures old(a.Layouts()) == TenantLayout && a.Layouts() == TeamLayout
  {
    var env := Env(false, (e, n) => Installed, (name, n) => true, true, true);
    assert SomeInstalls([item], env, |a.calls|) by { assert env.install([item][0], |a.calls| + 0) == Installed; }
    a.SyncIOSMaterial(Some(Manifest(TeamLayout, [item], false)), env);
  }
}

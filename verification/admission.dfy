/** Which iOS jobs a Mac may take: the pairs it reports, the coverage that queueing looks at, the
    dispatch query's condition, and the re-check on the Mac. */
module Admission {
  import opened Wrappers
  import opened Text

  // ---- reports ----

  /** The read-only probe of an upload key. */
  datatype Probe = NotProbed | ProbeOK | ProbeForbidden | ProbeError | ProbeMissing

  /** Material of one Apple team, shared by the tenants of that team. */
  datatype TeamReport = TeamReport(team: string, bundles: seq<string>, probe: Probe)

  /** Material of one tenant in one team; the certificate counts only when it is ready. */
  datatype TenantReport = TenantReport(tenant: string, team: string, bundles: seq<string>, ready: bool, probe: Probe)

  /** A machine's last self-report. A per-tenant report replaces the per-team one. */
  datatype Liveness = Liveness(teams: seq<TeamReport>, tenants: Option<seq<TenantReport>>, ipaCapable: bool, seen: nat)

  datatype Mode = TestFlight | SelfUpload

  /** release.ios as stored: not trimmed, not upper-cased. */
  datatype Identity = Identity(team: string, bundle: string)

  predicate Uploads(p: Probe) { p == ProbeOK || p == ProbeError }

  predicate TenantShape(s: string) { s != "" && forall i :: 0 <= i < |s| ==> '0' <= s[i] <= '9' }

  predicate TeamShape(s: string) { |s| == 10 && forall i :: 0 <= i < |s| ==> '0' <= s[i] <= '9' || 'A' <= s[i] <= 'Z' }

  predicate BundleChar(c: char) { '0' <= c <= '9' || 'A' <= c <= 'Z' || 'a' <= c <= 'z' || c == '-' || c == '.' }

  predicate BundleShape(s: string) { s != "" && forall i :: 0 <= i < |s| ==> BundleChar(s[i]) }

  /** What normalizeAppleTeamReports and normalizeTenantMaterialReports let through. */
  ghost predicate Normalized(l: Liveness) {
    && (forall r :: r in l.teams ==> TeamReportShape(r))
    && (l.tenants.Some? ==> forall r :: r in l.tenants.value ==> TenantReportShape(r))
  }

  // ---- pair keys ----

  function TeamKey(team: string, bundle: string): string { team + "." + bundle }

  function TenantKey(tenant: string, team: string, bundle: string): string { tenant + ":" + TeamKey(team, bundle) }

  function KeysOf(prefix: string, bundles: seq<string>): seq<string> {
    if bundles == [] then [] else
    KeysOf(prefix, bundles[..|bundles| - 1]) + [prefix + Trim(bundles[|bundles| - 1])]
  }

  /** The team that a key starts with, as signingPairs writes it. */
  function TeamPrefix(team: string): string { Upper(Trim(team)) + "." }

  function TenantPrefix(tenant: string, team: string): string { tenant + ":" + TeamPrefix(team) }

  /** The flattened list of the reports that count. */
  function TeamKeys(reports: seq<TeamReport>, uploadOnly: bool): seq<string> {
    if reports == [] then [] else
    TeamKeys(reports[..|reports| - 1], uploadOnly) + TeamKeysOf(reports[|reports| - 1], uploadOnly)
  }

  function TeamKeysOf(r: TeamReport, uploadOnly: bool): seq<string> {
    if uploadOnly && !Uploads(r.probe) then [] else KeysOf(TeamPrefix(r.team), r.bundles)
  }

  function TenantKeys(reports: seq<TenantReport>, uploadOnly: bool): seq<string> {
    if reports == [] then [] else
    TenantKeys(reports[..|reports| - 1], uploadOnly) + TenantKeysOf(reports[|reports| - 1], uploadOnly)
  }

  function TenantKeysOf(r: TenantReport, uploadOnly: bool): seq<string> {
    if !r.ready || (uploadOnly && !Uploads(r.probe)) then [] else KeysOf(TenantPrefix(r.tenant, r.team), r.bundles)
  }

  method AppendKeys(prefix: string, bundles: seq<string>, before: seq<string>) returns (out: seq<string>)
    ensures out == before + KeysOf(prefix, bundles)
  {
    out := before;
    for j := 0 to |bundles|
      invariant out == before + KeysOf(prefix, bundles[..j])
    {
      assert bundles[..j + 1][..j] == bundles[..j];
      out := out + [prefix + Trim(bundles[j])];
    }
    assert bundles[..|bundles|] == bundles;
  }

  method SigningPairs(reports: seq<TeamReport>) returns (out: seq<string>)
    ensures out == TeamKeys(reports, false)
  {
    out := [];
    for i := 0 to |reports|
      invariant out == TeamKeys(reports[..i], false)
    {
      assert reports[..i + 1][..i] == reports[..i];
      var more := AppendKeys(TeamPrefix(reports[i].team), reports[i].bundles, out);
      out := more;
    }
    assert reports[..|reports|] == reports;
  }

  lemma OneTeamReport(r: TeamReport)
    ensures TeamKeys([r], false) == TeamKeysOf(r, false)
  {
    assert [r][..0] == [];
  }

  method UploadablePairs(reports: seq<TeamReport>) returns (out: seq<string>)
    ensures out == TeamKeys(reports, true)
  {
    out := [];
    for i := 0 to |reports|
      invariant out == TeamKeys(reports[..i], true)
    {
      assert reports[..i + 1][..i] == reports[..i];
      if !Uploads(reports[i].probe) { continue; }
      var keys := SigningPairs([reports[i]]);
      OneTeamReport(reports[i]);
      out := out + keys;
    }
    assert reports[..|reports|] == reports;
  }

  method TenantSigningPairs(reports: seq<TenantReport>) returns (out: seq<string>)
    ensures out == TenantKeys(reports, false)
  {
    out := [];
    for i := 0 to |reports|
      invariant out == TenantKeys(reports[..i], false)
    {
      assert reports[..i + 1][..i] == reports[..i];
      var r := reports[i];
      if !r.ready { continue; }
      var more := AppendKeys(TenantPrefix(r.tenant, r.team), r.bundles, out);
      out := more;
    }
    assert reports[..|reports|] == reports;
  }

  lemma OneTenantReport(r: TenantReport)
    ensures TenantKeys([r], false) == TenantKeysOf(r, false)
  {
    assert [r][..0] == [];
  }

  method TenantUploadablePairs(reports: seq<TenantReport>) returns (out: seq<string>)
    ensures out == TenantKeys(reports, true)
  {
    out := [];
    for i := 0 to |reports|
      invariant out == TenantKeys(reports[..i], true)
    {
      assert reports[..i + 1][..i] == reports[..i];
      if !Uploads(reports[i].probe) { continue; }
      var keys := TenantSigningPairs([reports[i]]);
      OneTenantReport(reports[i]);
      out := out + keys;
    }
    assert reports[..|reports|] == reports;
  }

  // ---- queueing ----

  /** machineLiveness.signs and .uploads. */
  predicate Signs(l: Liveness, tenant: string, team: string, bundle: string, uploadOnly: bool) {
    if l.tenants.Some? then
      TenantPrefix(tenant, team) + Trim(bundle) in TenantKeys(l.tenants.value, uploadOnly)
    else
      TeamPrefix(team) + Trim(bundle) in TeamKeys(l.teams, uploadOnly)
  }

  datatype Builder = Builder(id: nat, builds: bool, active: bool, ios: bool)

  predicate IOSBuilder(m: Builder) { m.builds && m.active && m.ios }

  datatype Coverage = Coverage(reported: bool, online: bool, uploadable: bool, uploadableOnline: bool,
                               ipaCapable: bool, ipaCapableOnline: bool)

  const OFFLINE_AFTER := 300

  predicate Online(l: Liveness, now: nat) { now - l.seen <= OFFLINE_AFTER }

  /** What a job needs besides the tenant's signing material. */
  datatype Need = NothingMore | UploadKey | HandBack

  /** This machine signs for the target, has what is needed, and was heard of by then. */
  predicate Serves(l: Liveness, tenant: string, team: string, bundle: string, need: Need, at: Option<nat>) {
    && Signs(l, tenant, team, bundle, false)
    && (need == UploadKey ==> Signs(l, tenant, team, bundle, true))
    && (need == HandBack ==> l.ipaCapable)
    && (at.Some? ==> Online(l, at.value))
  }

  predicate Candidate(m: Builder, rows: map<nat, Liveness>, tenant: string, team: string, bundle: string, need: Need,
                      at: Option<nat>) {
    IOSBuilder(m) && m.id in rows && Serves(rows[m.id], tenant, team, bundle, need, at)
  }

  /** Some registered active iOS builder's last report serves the target. */
  predicate Somebody(registry: seq<Builder>, rows: map<nat, Liveness>, tenant: string, team: string, bundle: string,
                     need: Need, at: Option<nat>) {
    exists i :: 0 <= i < |registry| && Candidate(registry[i], rows, tenant, team, bundle, need, at)
  }

  /** The coverage is exactly what the pool reported. */
  ghost predicate CoverageOf(c: Coverage, registry: seq<Builder>, rows: map<nat, Liveness>, tenant: string,
                             team: string, bundle: string, now: nat) {
    && c.reported == Somebody(registry, rows, tenant, team, bundle, NothingMore, None)
    && c.online == Somebody(registry, rows, tenant, team, bundle, NothingMore, Some(now))
    && c.uploadable == Somebody(registry, rows, tenant, team, bundle, UploadKey, None)
    && c.uploadableOnline == Somebody(registry, rows, tenant, team, bundle, UploadKey, Some(now))
    && c.ipaCapable == Somebody(registry, rows, tenant, team, bundle, HandBack, None)
    && c.ipaCapableOnline == Somebody(registry, rows, tenant, team, bundle, HandBack, Some(now))
  }

  method SigningCoverage(registry: seq<Builder>, rows: map<nat, Liveness>, tenant: string, team: string,
                         bundle: string, now: nat) returns (c: Coverage)
    ensures CoverageOf(c, registry, rows, tenant, team, bundle, now)
  {
    c := Coverage(false, false, false, false, false, false);
    for i := 0 to |registry|
      invariant CoverageOf(c, registry[..i], rows, tenant, team, bundle, now)
    {
      var m := registry[i];
      OneMore(registry, i, rows, tenant, team, bundle, NothingMore, None);
      OneMore(registry, i, rows, tenant, team, bundle, NothingMore, Some(now));
      OneMore(registry, i, rows, tenant, team, bundle, UploadKey, None);
      OneMore(registry, i, rows, tenant, team, bundle, UploadKey, Some(now));
      OneMore(registry, i, rows, tenant, team, bundle, HandBack, None);
      OneMore(registry, i, rows, tenant, team, bundle, HandBack, Some(now));
      if !IOSBuilder(m) { continue; }
      if m.id !in rows || !Signs(rows[m.id], tenant, team, bundle, false) { continue; }
      var live := rows[m.id];
      var online := Online(live, now);
      c := c.(reported := true, online := c.online || online);
      if Signs(live, tenant, team, bundle, true) {
        c := c.(uploadable := true, uploadableOnline := c.uploadableOnline || online);
      }
      if live.ipaCapable {
        c := c.(ipaCapable := true, ipaCapableOnline := c.ipaCapableOnline || online);
      }
    }
    assert registry[..|registry|] == registry;
  }

  lemma OneMore(registry: seq<Builder>, i: nat, rows: map<nat, Liveness>, tenant: string, team: string, bundle: string,
                need: Need, at: Option<nat>)
    requires i < |registry|
    ensures Somebody(registry[..i + 1], rows, tenant, team, bundle, need, at) <==>
      || Somebody(registry[..i], rows, tenant, team, bundle, need, at)
      || Candidate(registry[i], rows, tenant, team, bundle, need, at)
  {
    var longer, shorter := registry[..i + 1], registry[..i];
    if Somebody(shorter, rows, tenant, team, bundle, need, at) {
      var k :| 0 <= k < i && Candidate(shorter[k], rows, tenant, team, bundle, need, at);
      assert longer[k] == shorter[k];
    }
    if Somebody(longer, rows, tenant, team, bundle, need, at) {
      var k :| 0 <= k <= i && Candidate(longer[k], rows, tenant, team, bundle, need, at);
      assert k < i ==> longer[k] == shorter[k];
    }
    assert longer[i] == registry[i];
  }

  datatype Problem = NoProblem | NoBuilderForTeam | NoUploaderForTeam | NoIPABuilderForTeam

  /** iosDeliveryReadiness.problem: what keeps a job of this mode out of the queue. */
  function ReadinessProblem(c: Coverage, mode: Mode): Problem {
    if !c.reported then NoBuilderForTeam
    else if mode == TestFlight && !c.uploadable then NoUploaderForTeam
    else if mode == SelfUpload && !c.ipaCapable then NoIPABuilderForTeam
    else NoProblem
  }

  // ---- dispatch ----

  /** The material and delivery part of the claim query: the key is put together from the stored
      identity by SQL, which upper-cases the team and trims nothing. */
  predicate Dispatches(l: Liveness, tenant: string, id: Identity, mode: Mode) {
    && DispatchKey(l, tenant, id) in Keys(l, false)
    && match mode
       case TestFlight => DispatchKey(l, tenant, id) in Keys(l, true)
       case SelfUpload => l.ipaCapable
  }

  function DispatchKey(l: Liveness, tenant: string, id: Identity): string {
    if l.tenants.Some? then TenantKey(tenant, Upper(id.team), id.bundle) else TeamKey(Upper(id.team), id.bundle)
  }

  function Keys(l: Liveness, uploadOnly: bool): seq<string> {
    if l.tenants.Some? then TenantKeys(l.tenants.value, uploadOnly) else TeamKeys(l.teams, uploadOnly)
  }

  predicate Trimmed(id: Identity) { Trim(id.team) == id.team && Trim(id.bundle) == id.bundle }

  // ---- the three checks agree ----

  /** Queueing finds no problem for a mode exactly when some registered active iOS builder's last
      report would let the claim query hand it such a job. The query is stricter in one way only:
      it never matches an identity that was stored untrimmed, while queueing trims it. */
  lemma AdmissionAgreesWithDispatch(registry: seq<Builder>, rows: map<nat, Liveness>, tenant: string, id: Identity,
                                    mode: Mode, c: Coverage, now: nat)
    requires forall m :: m in rows ==> Normalized(rows[m])
    requires TenantShape(tenant) && CoverageOf(c, registry, rows, tenant, id.team, id.bundle, now)
    ensures SomebodyTakes(registry, rows, tenant, id, mode) <==> Trimmed(id) && ReadinessProblem(c, mode) == NoProblem
  {
    var need := if mode == TestFlight then UploadKey else HandBack;
    forall i | 0 <= i < |registry| && IOSBuilder(registry[i]) && registry[i].id in rows
      ensures Dispatches(rows[registry[i].id], tenant, id, mode)
              <==> Trimmed(id) && Candidate(registry[i], rows, tenant, id.team, id.bundle, need, None)
    {
      DispatchIsSigns(rows[registry[i].id], tenant, id, false);
      DispatchIsSigns(rows[registry[i].id], tenant, id, true);
    }
    assert Somebody(registry, rows, tenant, id.team, id.bundle, need, None) ==>
      Somebody(registry, rows, tenant, id.team, id.bundle, NothingMore, None) by {
      if Somebody(registry, rows, tenant, id.team, id.bundle, need, None) {
        var i :| 0 <= i < |registry| && Candidate(registry[i], rows, tenant, id.team, id.bundle, need, None);
        assert Candidate(registry[i], rows, tenant, id.team, id.bundle, NothingMore, None);
      }
    }
  }

  /** Some registered active iOS builder exists to whom the claim query would hand such a job. */
  predicate SomebodyTakes(registry: seq<Builder>, rows: map<nat, Liveness>, tenant: string, id: Identity, mode: Mode) {
    exists i :: 0 <= i < |registry| && IOSBuilder(registry[i]) && registry[i].id in rows
      && Dispatches(rows[registry[i].id], tenant, id, mode)
  }

  /** One list, two ways of asking: SQL's key is in it iff the trimmed key is and the identity
      needed no trimming. */
  lemma DispatchIsSigns(l: Liveness, tenant: string, id: Identity, uploadOnly: bool)
    requires Normalized(l) && TenantShape(tenant)
    ensures DispatchKey(l, tenant, id) in Keys(l, uploadOnly)
            <==> Trimmed(id) && Signs(l, tenant, id.team, id.bundle, uploadOnly)
  {
    var key := DispatchKey(l, tenant, id);
    if Trimmed(id) {
      assert TenantPrefix(tenant, id.team) + Trim(id.bundle) == TenantKey(tenant, Upper(id.team), id.bundle);
      assert TeamPrefix(id.team) + Trim(id.bundle) == TeamKey(Upper(id.team), id.bundle);
    } else {
      UntrimmedKeyHasSpace(l, tenant, id);
      if key in Keys(l, uploadOnly) { KeyHasNoSpace(l, uploadOnly, key); }
    }
  }

  lemma UntrimmedKeyHasSpace(l: Liveness, tenant: string, id: Identity)
    requires !Trimmed(id)
    ensures !NoSpace(DispatchKey(l, tenant, id))
  {
    var key := DispatchKey(l, tenant, id);
    TrimmedAway(id.team);
    TrimmedAway(id.bundle);
    if !NoSpace(id.bundle) {
      var k :| 0 <= k < |id.bundle| && IsSpace(id.bundle[k]);
      assert key[|key| - |id.bundle| + k] == id.bundle[k];
    } else {
      var k :| 0 <= k < |id.team| && IsSpace(id.team[k]);
      assert Upper(id.team)[k] == id.team[k];
      var at := if l.tenants.Some? then |tenant| + 1 + k else k;
      assert key[at] == Upper(id.team)[k];
    }
  }

  lemma KeyHasNoSpace(l: Liveness, uploadOnly: bool, key: string)
    requires Normalized(l) && key in Keys(l, uploadOnly)
    ensures NoSpace(key)
  {
    if l.tenants.Some? {
      TenantKeysSplit(l.tenants.value, uploadOnly, key);
      var r :| r in l.tenants.value && TenantYields(r, uploadOnly, key);
      var b :| b in r.bundles && key == TenantKey(r.tenant, r.team, b);
      TeamKeyHasNoSpace(r.team, b);
      assert forall i :: 0 <= i < |r.tenant| + 1 ==> !IsSpace((r.tenant + ":")[i]);
    } else {
      TeamKeysSplit(l.teams, uploadOnly, key);
      var r :| r in l.teams && TeamYields(r, uploadOnly, key);
      var b :| b in r.bundles && key == TeamKey(r.team, b);
      TeamKeyHasNoSpace(r.team, b);
    }
  }

  lemma TeamKeyHasNoSpace(team: string, bundle: string)
    requires TeamShape(team) && BundleShape(bundle)
    ensures NoSpace(TeamKey(team, bundle))
  {
  }

  /** This report gives the key: TEAM.bundle for each bundle id. */
  ghost predicate TeamYields(r: TeamReport, uploadOnly: bool, key: string) {
    (uploadOnly ==> Uploads(r.probe)) && exists b :: b in r.bundles && key == TeamKey(r.team, b)
  }

  /** This report gives the key: tenant:TEAM.bundle for each bundle id, when it is ready. */
  ghost predicate TenantYields(r: TenantReport, uploadOnly: bool, key: string) {
    r.ready && (uploadOnly ==> Uploads(r.probe)) && exists b :: b in r.bundles && key == TenantKey(r.tenant, r.team, b)
  }

  predicate TeamReportShape(r: TeamReport) { TeamShape(r.team) && BundleShapes(r.bundles) }

  predicate TenantReportShape(r: TenantReport) {
    TenantShape(r.tenant) && TeamShape(r.team) && BundleShapes(r.bundles)
  }

  predicate BundleShapes(bundles: seq<string>) { forall b :: b in bundles ==> BundleShape(b) }

  lemma {:induction false} KeysOfSplit(prefix: string, bundles: seq<string>, key: string)
    requires BundleShapes(bundles)
    ensures key in KeysOf(prefix, bundles) <==> exists b :: b in bundles && key == prefix + b
  {
    if bundles != [] {
      var n := |bundles| - 1;
      KeysOfSplit(prefix, bundles[..n], key);
      PlainBundle(bundles[n]);
      assert bundles == bundles[..n] + [bundles[n]];
    }
  }

  lemma {:induction false} TeamKeysSplit(reports: seq<TeamReport>, uploadOnly: bool, key: string)
    requires forall r :: r in reports ==> TeamReportShape(r)
    ensures key in TeamKeys(reports, uploadOnly) <==> exists r :: r in reports && TeamYields(r, uploadOnly, key)
  {
    if reports != [] {
      var n := |reports| - 1;
      var r := reports[n];
      assert reports == reports[..n] + [r];
      TeamKeysSplit(reports[..n], uploadOnly, key);
      TeamKeysOfSplit(r, uploadOnly, key);
    }
  }

  lemma TeamKeysOfSplit(r: TeamReport, uploadOnly: bool, key: string)
    requires TeamReportShape(r)
    ensures key in TeamKeysOf(r, uploadOnly) <==> TeamYields(r, uploadOnly, key)
  {
    PlainTeam(r.team);
    KeysOfSplit(TeamPrefix(r.team), r.bundles, key);
    forall b: string ensures TeamKey(r.team, b) == TeamPrefix(r.team) + b {
    }
  }

  lemma {:induction false} TenantKeysSplit(reports: seq<TenantReport>, uploadOnly: bool, key: string)
    requires forall r :: r in reports ==> TenantReportShape(r)
    ensures key in TenantKeys(reports, uploadOnly) <==> exists r :: r in reports && TenantYields(r, uploadOnly, key)
  {
    if reports != [] {
      var n := |reports| - 1;
      var r := reports[n];
      assert reports == reports[..n] + [r];
      TenantKeysSplit(reports[..n], uploadOnly, key);
      TenantKeysOfSplit(r, uploadOnly, key);
    }
  }

  lemma TenantKeysOfSplit(r: TenantReport, uploadOnly: bool, key: string)
    requires TenantReportShape(r)
    ensures key in TenantKeysOf(r, uploadOnly) <==> TenantYields(r, uploadOnly, key)
  {
    PlainTeam(r.team);
    KeysOfSplit(TenantPrefix(r.tenant, r.team), r.bundles, key);
    forall b: string ensures TenantKey(r.tenant, r.team, b) == TenantPrefix(r.tenant, r.team) + b {
    }
  }

  lemma PlainTeam(team: string)
    requires TeamShape(team)
    ensures Upper(Trim(team)) == team && NoSpace(team)
  {
    TrimmedAway(team);
  }

  lemma PlainBundle(bundle: string)
    requires BundleShape(bundle)
    ensures Trim(bundle) == bundle && NoSpace(bundle)
  {
    TrimmedAway(bundle);
  }

  // ---- the re-check on the Mac ----

  /** coversTenant: the agent compares the three parts instead of a joined key. */
  method CoversTenant(tenants: seq<TenantReport>, tenant: string, team: string, bundle: string) returns (ok: bool)
    ensures ok <==> exists r :: r in tenants && Covers(r, tenant, team, bundle)
  {
    for i := 0 to |tenants|
      invariant forall k :: 0 <= k < i ==> !Covers(tenants[k], tenant, team, bundle)
    {
      var r := tenants[i];
      if r.tenant != tenant || r.team != Upper(Trim(team)) || !r.ready { continue; }
      for j := 0 to |r.bundles|
        invariant Trim(bundle) !in r.bundles[..j]
      {
        if r.bundles[j] == Trim(bundle) {
          assert Covers(r, tenant, team, bundle);
          return true;
        }
      }
      assert r.bundles[..|r.bundles|] == r.bundles;
    }
    return false;
  }

  predicate Covers(r: TenantReport, tenant: string, team: string, bundle: string) {
    r.tenant == tenant && r.team == Upper(Trim(team)) && r.ready && Trim(bundle) in r.bundles
  }

  /** The Mac accepts exactly the triples that the server computed from the same inventory: one
      that scanTenants produced, where tenant and team ids have their shape. */
  lemma RecheckAgreesWithServer(l: Liveness, tenant: string, team: string, bundle: string)
    requires l.tenants.Some? && Normalized(l) && TenantShape(tenant) && TeamShape(Upper(Trim(team)))
    ensures Signs(l, tenant, team, bundle, false) <==>
      exists r :: r in l.tenants.value && Covers(r, tenant, team, bundle)
  {
    var reports := l.tenants.value;
    var key := TenantPrefix(tenant, team) + Trim(bundle);
    assert key == TenantKey(tenant, Upper(Trim(team)), Trim(bundle));
    TenantKeysSplit(reports, false, key);
    if r :| r in reports && Covers(r, tenant, team, bundle) {
      assert TenantYields(r, false, key);
    }
    if Signs(l, tenant, team, bundle, false) {
      var r :| r in reports && TenantYields(r, false, key);
      var b :| b in r.bundles && key == TenantKey(r.tenant, r.team, b);
      TenantKeyIsInjective(tenant, Upper(Trim(team)), Trim(bundle), r.tenant, r.team, b);
      assert Covers(r, tenant, team, bundle);
    }
  }

  /** The joined key gives its three parts back. */
  lemma TenantKeyIsInjective(t0: string, team0: string, b0: string, t1: string, team1: string, b1: string)
    requires TenantShape(t0) && TenantShape(t1) && TeamShape(team0) && TeamShape(team1)
    requires TenantKey(t0, team0, b0) == TenantKey(t1, team1, b1)
    ensures t0 == t1 && team0 == team1 && b0 == b1
  {
    var k0, k1 := TenantKey(t0, team0, b0), TenantKey(t1, team1, b1);
    assert k0[|t0|] == ':' && k1[|t1|] == ':';
    assert forall i :: 0 <= i < |t0| ==> k0[i] == t0[i];
    assert forall i :: 0 <= i < |t1| ==> k1[i] == t1[i];
    assert |t0| == |t1|;
    assert t0 == k0[..|t0|] && t1 == k1[..|t1|];
    assert team0 == k0[|t0| + 1..|t0| + 11] && team1 == k1[|t1| + 1..|t1| + 11];
    assert b0 == k0[|t0| + 12..] && b1 == k1[|t1| + 12..];
  }
}

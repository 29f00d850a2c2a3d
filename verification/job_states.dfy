/** The state machine of a build job: its statuses, its events, the table of edges, and the
    status lists that the SQL guards take from that table. */
module JobStates {
  import opened Wrappers

  datatype Status = Queued | Claimed | Running | Built | Signing | Succeeded | Failed | Canceled

  datatype Kind = Apk | Ota

  datatype Event =
    | BuilderClaim | BuilderHeartbeat | BuilderFail | BuilderBuilt | BuilderComplete | BuilderIOSRelease
    | DispatchFail | ReapBuild | AdminCancel | AdminForceFail
    | SignerClaim | SignerHeartbeat | SignerRelease | SignerViolation | SignerTransient | SignerComplete
    | ReapSign | SignOvertaken | SignerUpload | SignerDownload | BuilderUpload | BuilderOTAPayload

  datatype Edge = Edge(event: Event, kinds: seq<Kind>, from: seq<Status>, to: seq<Status>)

  const BOTH := [Apk, Ota]
  const BUILDING := [Claimed, Running]

  const STATUSES := [Queued, Claimed, Running, Built, Signing, Succeeded, Failed, Canceled]

  /** The edges, in the order of the source's table. */
  function EdgeAt(i: nat): Edge
    requires i < EDGES
  {
    match i
    case 0 => Edge(BuilderClaim, BOTH, [Queued], [Claimed])
    case 1 => Edge(BuilderHeartbeat, BOTH, BUILDING, [Running])
    case 2 => Edge(BuilderUpload, [Apk], BUILDING, BUILDING)
    case 3 => Edge(BuilderOTAPayload, [Ota], BUILDING, BUILDING)
    case 4 => Edge(BuilderFail, BOTH, BUILDING, [Failed])
    case 5 => Edge(BuilderBuilt, [Apk], BUILDING, [Built])
    case 6 => Edge(BuilderComplete, [Ota], BUILDING, [Succeeded])
    case 7 => Edge(BuilderIOSRelease, [Apk], BUILDING, [Succeeded])
    case 8 => Edge(DispatchFail, BOTH, [Claimed], [Failed])
    case 9 => Edge(ReapBuild, [Apk], BUILDING, [Queued, Failed])
    case 10 => Edge(ReapBuild, [Ota], BUILDING, [Failed])
    case 11 => Edge(AdminCancel, BOTH, [Queued, Claimed, Running], [Canceled])
    case 12 => Edge(AdminCancel, [Apk], [Built], [Canceled])
    case 13 => Edge(AdminForceFail, [Apk], [Signing], [Failed])
    case 14 => Edge(SignerClaim, [Apk], [Built], [Signing])
    case 15 => Edge(SignerHeartbeat, [Apk], [Signing], [Signing])
    case 16 => Edge(SignerUpload, [Apk], [Signing], [Signing])
    case 17 => Edge(SignerDownload, [Apk], [Signing], [Signing])
    case 18 => Edge(SignerRelease, [Apk], [Signing], [Built])
    case 19 => Edge(SignerViolation, [Apk], [Signing], [Failed])
    case 20 => Edge(SignerTransient, [Apk], [Signing], [Built, Failed])
    case 21 => Edge(SignerComplete, [Apk], [Signing], [Succeeded])
    case 22 => Edge(ReapSign, [Apk], [Signing], [Built, Failed])
    case _ => Edge(SignOvertaken, [Apk], [Built], [Failed])
  }

  const EDGES := 24
  const TRANSITIONS: seq<Edge> := seq(EDGES, i requires 0 <= i < EDGES => EdgeAt(i))

  const IN_FLIGHT := {Queued, Claimed, Running, Built, Signing}
  const TERMINAL := {Succeeded, Failed, Canceled}

  /** Some edge of the table lets this event, for this kind of job (any kind when absent), leave s. */
  predicate CanStart(table: seq<Edge>, event: Event, kind: Option<Kind>, s: Status) {
    exists i :: 0 <= i < |table| && Matches(table[i], event, kind) && s in table[i].from
  }

  predicate Matches(edge: Edge, event: Event, kind: Option<Kind>) {
    edge.event == event && (kind.Some? ==> kind.value in edge.kinds)
  }

  /** The edge set: this event takes a job of this kind from s to t. */
  predicate HasEdge(event: Event, kind: Kind, s: Status, t: Status) {
    exists i :: 0 <= i < EDGES && Matches(EdgeAt(i), event, Some(kind)) && s in EdgeAt(i).from && t in EdgeAt(i).to
  }

  /** The first statuses of an event, in the order in which jobs flow through them. The two
      loops keep a set of statuses already seen and then re-order what they collected. */
  method BuildJobEventFrom(table: seq<Edge>, event: Event, kind: Option<Kind>) returns (out: seq<Status>)
    ensures forall s :: s in out <==> CanStart(table, event, kind, s)
    ensures forall i, j :: 0 <= i < j < |out| ==> Rank(out[i]) < Rank(out[j])
  {
    var seen: set<Status> := {};
    var collected: seq<Status> := [];
    for i := 0 to |table|
      invariant forall s :: s in collected <==> s in seen
      invariant forall s :: s in seen <==>
        exists k :: 0 <= k < i && Matches(table[k], event, kind) && s in table[k].from
    {
      var t := table[i];
      ghost var before := seen;
      if Matches(t, event, kind) {
        for j := 0 to |t.from|
          invariant forall s :: s in collected <==> s in seen
          invariant seen == before + set s | s in t.from[..j]
        {
          if t.from[j] !in seen {
            seen := seen + {t.from[j]};
            collected := collected + [t.from[j]];
          }
        }
      }
    }
    out := OrderedStatuses(collected);
  }

  /** Keeps the listed statuses, each once, in flow order. */
  method OrderedStatuses(statuses: seq<Status>) returns (out: seq<Status>)
    ensures forall s :: s in out <==> s in statuses
    ensures forall i, j :: 0 <= i < j < |out| ==> Rank(out[i]) < Rank(out[j])
  {
    out := [];
    for i := 0 to |STATUSES|
      invariant forall s :: s in out <==> s in statuses && Rank(s) < i
      invariant forall a, b :: 0 <= a < b < |out| ==> Rank(out[a]) < Rank(out[b])
    {
      if STATUSES[i] in statuses {
        out := out + [STATUSES[i]];
      }
    }
  }

  /** The place of a status in STATUSES. */
  function Rank(s: Status): (r: nat)
    ensures r < |STATUSES| && STATUSES[r] == s
  {
    match s
    case Queued => 0 case Claimed => 1 case Running => 2 case Built => 3
    case Signing => 4 case Succeeded => 5 case Failed => 6 case Canceled => 7
  }

  /** The status lists that the SQL guards carry, computed once at start-up. */
  function Starts(event: Event, kind: Kind): set<Status> {
    match event
    case BuilderClaim => {Queued}
    case BuilderHeartbeat => {Claimed, Running}
    case BuilderFail => {Claimed, Running}
    case BuilderUpload => if kind == Apk then {Claimed, Running} else {}
    case BuilderBuilt => if kind == Apk then {Claimed, Running} else {}
    case BuilderIOSRelease => if kind == Apk then {Claimed, Running} else {}
    case BuilderOTAPayload => if kind == Ota then {Claimed, Running} else {}
    case BuilderComplete => if kind == Ota then {Claimed, Running} else {}
    case DispatchFail => {Claimed}
    case ReapBuild => {Claimed, Running}
    case AdminCancel => if kind == Apk then {Queued, Claimed, Running, Built} else {Queued, Claimed, Running}
    case SignerClaim => if kind == Apk then {Built} else {}
    case SignOvertaken => if kind == Apk then {Built} else {}
    case _ => if kind == Apk then {Signing} else {}
  }

  /** The guards use the table and nothing else. */
  lemma StartsAreTheTable(event: Event, kind: Kind, s: Status)
    ensures s in Starts(event, kind) <==> CanStart(TRANSITIONS, event, Some(kind), s)
  {
    if s in Starts(event, kind) {
      StartHasAnEdge(event, kind, s);
      var i := EdgeIndex(event, kind, s);
      assert TRANSITIONS[i] == EdgeAt(i);
    }
    if CanStart(TRANSITIONS, event, Some(kind), s) {
      var i :| 0 <= i < |TRANSITIONS| && Matches(TRANSITIONS[i], event, Some(kind)) && s in TRANSITIONS[i].from;
      EdgeIsAStart(i, kind, s);
    }
  }

  lemma StartHasAnEdge(event: Event, kind: Kind, s: Status)
    requires s in Starts(event, kind)
    ensures Matches(EdgeAt(EdgeIndex(event, kind, s)), event, Some(kind))
    ensures s in EdgeAt(EdgeIndex(event, kind, s)).from
  {
  }

  lemma EdgeIsAStart(i: nat, kind: Kind, s: Status)
    requires i < EDGES && kind in EdgeAt(i).kinds && s in EdgeAt(i).from
    ensures s in Starts(EdgeAt(i).event, kind)
  {
  }

  /** The edge that justifies a start; the table holds at most two edges of one event. */
  function EdgeIndex(event: Event, kind: Kind, s: Status): (i: nat)
    ensures i < EDGES
  {
    match event
    case BuilderClaim => 0 case BuilderHeartbeat => 1 case BuilderUpload => 2 case BuilderOTAPayload => 3
    case BuilderFail => 4 case BuilderBuilt => 5 case BuilderComplete => 6 case BuilderIOSRelease => 7
    case DispatchFail => 8 case ReapBuild => if kind == Apk then 9 else 10
    case AdminCancel => if s == Built then 12 else 11
    case AdminForceFail => 13 case SignerClaim => 14 case SignerHeartbeat => 15 case SignerUpload => 16
    case SignerDownload => 17 case SignerRelease => 18 case SignerViolation => 19 case SignerTransient => 20
    case SignerComplete => 21 case ReapSign => 22 case SignOvertaken => 23
  }

  /** No event leaves a terminal status, and every other status has a way out. */
  lemma TerminalStatusesAbsorb(s: Status)
    ensures s in TERMINAL <==> forall event, kind, t :: HasEdge(event, kind, s, t) ==> t == s
  {
    if s !in TERMINAL {
      var (i, event, t) := match s
        case Queued => (0, BuilderClaim, Claimed)
        case Claimed => (4, BuilderFail, Failed)
        case Running => (4, BuilderFail, Failed)
        case Built => (14, SignerClaim, Signing)
        case _ => (21, SignerComplete, Succeeded);
      assert Matches(EdgeAt(i), event, Some(Apk)) && s in EdgeAt(i).from && t in EdgeAt(i).to;
      assert HasEdge(event, Apk, s, t);
    }
  }
}

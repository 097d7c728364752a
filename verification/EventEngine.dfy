/** `src/lib/event-engine.ts`: security events and their response playbooks. */
module EventEngine {
  import opened SecurityTypes
  import opened Rounding
  import opened Sequences
  import opened RiskEngine

  const SOAR := "SOAR Engine"
  const DETECTION := "Detection Engine"

  function DefaultPlaybook(category: EventCategory): seq<SoarAction> {
    match category
    case AuthFailure | MfaFailure => [RequireMfa, NotifyTeam]
    case LoginSuccess | AdminAccessGranted | ReportGenerated => [NotifyTeam]
    case SettingsChanged | StatusChanged | AccessRequestCreated | ComplianceGap => [CreateTicket]
    case TrapTriggered | DeceptionTriggered => [IsolateIdentity, RevokeToken, NotifyTeam]
    case AdminAccessDenied | RoleChanged | DataAssetRisk | SystemHealthDegraded | MissingEncryption
       | VisibilityGap | SecurityTestFinding => [CreateTicket, NotifyTeam]
    case ZeroTrustDecided | UnauthorizedAccess | ImpossibleTravel | PolicyViolation =>
      [RequireMfa, CreateTicket, NotifyTeam]
    case SuspiciousExport => [RequireMfa, RevokeToken, CreateTicket, NotifyTeam]
    case PublicBucket | Ransomware => [IsolateResource, CreateTicket, NotifyTeam]
    case ApiAbuse => [RevokeToken, IsolateIdentity, CreateTicket]
    case PrivilegeEscalation => [AccountLock, CreateTicket, NotifyTeam]
    case ThirdPartyAnomaly => [RevokeToken, CreateTicket, NotifyTeam]
  }

  function SeverityOf(score: int): Severity {
    if score >= 85 then CriticalSeverity
    else if score >= 60 then HighSeverity
    else if score >= 35 then MediumSeverity
    else LowSeverity
  }

  datatype EventInput = EventInput(
    severity: Option<Severity>, severityScore: Option<int>, category: EventCategory,
    source: string, target: string, recommendation: Note, status: Option<EventStatus>,
    playbookActions: Option<seq<SoarAction>>,
    relatedAssetId: Option<string>, relatedIdentityId: Option<string>)

  function OrElse<T>(option: Option<T>, default: T): T {
    match option case Some(value) => value case None => default
  }

  function CreateSecurityEvent(id: string, timestamp: int, input: EventInput): SecurityEvent {
    SecurityEvent(
      id, OrElse(input.severity, SeverityOf(OrElse(input.severityScore, 50))), input.category,
      input.source, input.target, timestamp, OrElse(input.status, Open), input.recommendation,
      OrElse(input.playbookActions, DefaultPlaybook(input.category)),
      [TimelineEntry(DETECTION, EventCreated)], input.relatedAssetId, input.relatedIdentityId)
  }

  /** An event that comes without a severity is graded by its score, from 35, 60 and 85 points on; without a score it is
      of medium severity. */
  lemma GradedExactly(id: string, timestamp: int, input: EventInput)
    requires input.severity == None
    ensures var severity := CreateSecurityEvent(id, timestamp, input).severity;
            match input.severityScore
            case None => severity == MediumSeverity
            case Some(score) =>
              && (severity == CriticalSeverity <==> score >= 85)
              && (severity == HighSeverity <==> 60 <= score < 85)
              && (severity == MediumSeverity <==> 35 <= score < 60)
              && (severity == LowSeverity <==> score < 35)
  {
  }

  function RecommendedPlaybook(event: SecurityEvent): seq<SoarAction> {
    if event.playbookActions != [] then event.playbookActions else DefaultPlaybook(event.category)
  }

  function AppendTimeline(event: SecurityEvent, actor: string, message: Note): SecurityEvent {
    event.(timeline := [TimelineEntry(actor, message)] + event.timeline)
  }

  function UpdateEventStatus(event: SecurityEvent, status: EventStatus): SecurityEvent {
    AppendTimeline(event.(status := status), SOAR, StatusSetTo(status))
  }

  function StatusAfter(status: EventStatus, action: SoarAction): EventStatus {
    if action == MarkContained then Contained
    else if action == MarkResolved then Resolved
    else if action == IsolateIdentity || action == IsolateResource || action == AccountLock then Contained
    else if status == Open then Investigating
    else status
  }

  function RunSoarPlaybook(event: SecurityEvent, action: SoarAction): SecurityEvent {
    AppendTimeline(
      event.(status := StatusAfter(event.status, action), recommendation := ActionApplied(action)),
      SOAR, ActionRan(action))
  }

  function RunAll(event: SecurityEvent, actions: seq<SoarAction>): SecurityEvent
    decreases |actions|
  {
    if actions == [] then event else RunAll(RunSoarPlaybook(event, actions[0]), actions[1..])
  }

  function ExecutePlaybook(event: SecurityEvent): SecurityEvent {
    RunAll(event, RecommendedPlaybook(event))
  }

  // ---- What a whole playbook does ----

  /** The status an action forces, if it forces one. */
  function Forces(action: SoarAction): Option<EventStatus> {
    match action
    case MarkResolved => Some(Resolved)
    case MarkContained | IsolateIdentity | IsolateResource | AccountLock => Some(Contained)
    case _ => None
  }

  /** The status forced by the last action that forces one. */
  function LastForced(actions: seq<SoarAction>): Option<EventStatus> {
    if actions == [] then None
    else
      var last := actions[|actions| - 1];
      if Forces(last).Some? then Forces(last) else LastForced(actions[..|actions| - 1])
  }

  function FinalStatus(status: EventStatus, actions: seq<SoarAction>): EventStatus {
    match LastForced(actions)
    case Some(forced) => forced
    case None => if status == Open && actions != [] then Investigating else status
  }

  lemma {:induction false} RunAllSnoc(event: SecurityEvent, actions: seq<SoarAction>, last: SoarAction)
    ensures RunAll(event, actions + [last]) == RunSoarPlaybook(RunAll(event, actions), last)
    decreases |actions|
  {
    if actions == [] {
      assert ([] + [last])[1..] == [];
    } else {
      assert (actions + [last])[1..] == actions[1..] + [last];
      RunAllSnoc(RunSoarPlaybook(event, actions[0]), actions[1..], last);
    }
  }

  lemma FinalStatusSnoc(status: EventStatus, actions: seq<SoarAction>, last: SoarAction)
    ensures FinalStatus(status, actions + [last]) == StatusAfter(FinalStatus(status, actions), last)
  {
    assert (actions + [last])[..|actions|] == actions;
    LastForcedStatus(actions);
  }

  function Log(actions: seq<SoarAction>): seq<TimelineEntry> {
    if actions == [] then []
    else [TimelineEntry(SOAR, ActionRan(actions[|actions| - 1]))] + Log(actions[..|actions| - 1])
  }

  /** A playbook leaves the status its last forcing action asks for, or else moves an open event on;
      puts one entry per action, latest first, in front of the old timeline; and leaves everything
      else that scores and decisions read as it was. */
  lemma {:induction false} PlaybookOutcome(event: SecurityEvent, actions: seq<SoarAction>)
    ensures RunAll(event, actions) ==
            event.(status := FinalStatus(event.status, actions),
                   recommendation := if actions == [] then event.recommendation
                                     else ActionApplied(actions[|actions| - 1]),
                   timeline := Log(actions) + event.timeline)
    ensures |Log(actions)| == |actions|
  {
    if actions == [] {
      assert Log(actions) + event.timeline == event.timeline;
    } else {
      var front, last := actions[..|actions| - 1], actions[|actions| - 1];
      assert actions == front + [last];
      PlaybookOutcome(event, front);
      RunAllSnoc(event, front, last);
      FinalStatusSnoc(event.status, front, last);
      var entry := TimelineEntry(SOAR, ActionRan(last));
      assert [entry] + (Log(front) + event.timeline) == ([entry] + Log(front)) + event.timeline;
    }
  }

  /** The actions that contain an event. */
  predicate Contains(action: SoarAction) {
    action in {MarkContained, IsolateIdentity, IsolateResource, AccountLock}
  }

  /** After the action at i there is none that resolves or contains. */
  ghost predicate IsLastWord(actions: seq<SoarAction>, i: int) {
    0 <= i < |actions| && forall j | i < j < |actions| :: actions[j] != MarkResolved && !Contains(actions[j])
  }

  ghost predicate IsSilent(actions: seq<SoarAction>) {
    forall j | 0 <= j < |actions| :: actions[j] != MarkResolved && !Contains(actions[j])
  }

  /** A last action that says nothing leaves the last word where it was. */
  lemma WordKept(actions: seq<SoarAction>, n: nat)
    requires n == |actions| - 1 && Forces(actions[n]) == None
    ensures IsSilent(actions) <==> IsSilent(actions[..n])
    ensures forall i :: IsLastWord(actions, i) && actions[i] == MarkResolved <==>
                        IsLastWord(actions[..n], i) && actions[..n][i] == MarkResolved
    ensures forall i :: IsLastWord(actions, i) && Contains(actions[i]) <==>
                        IsLastWord(actions[..n], i) && Contains(actions[..n][i])
  {
    var front := actions[..n];
    forall i ensures IsLastWord(actions, i) && i != n <==> IsLastWord(front, i) {
      if IsLastWord(front, i) {
        assert forall j | i < j < |actions| :: j < n ==> actions[j] == front[j];
      }
    }
    assert IsSilent(front) ==> IsSilent(actions);
  }

  lemma {:induction false} LastWord(actions: seq<SoarAction>)
    ensures LastForced(actions) == None <==> IsSilent(actions)
    ensures LastForced(actions) == Some(Resolved) <==>
            exists i :: IsLastWord(actions, i) && actions[i] == MarkResolved
    ensures LastForced(actions) == Some(Contained) <==>
            exists i :: IsLastWord(actions, i) && Contains(actions[i])
  {
    if actions != [] {
      var n := |actions| - 1;
      var front := actions[..n];
      LastWord(front);
      LastForcedStatus(actions);
      if Forces(actions[n]).Some? {
        assert IsLastWord(actions, n);
      } else {
        WordKept(actions, n);
      }
    }
  }

  /** A playbook ends resolved if its last word is to resolve, and contained if that is to contain or isolate or lock;
      without a last word an open event is being investigated once anything ran, and any other keeps its status. */
  lemma PlaybookStatus(event: SecurityEvent, actions: seq<SoarAction>)
    ensures var status := RunAll(event, actions).status;
            && (status == Resolved <==>
                  || (exists i :: IsLastWord(actions, i) && actions[i] == MarkResolved)
                  || (IsSilent(actions) && event.status == Resolved))
            && (status == Contained <==>
                  || (exists i :: IsLastWord(actions, i) && Contains(actions[i]))
                  || (IsSilent(actions) && event.status == Contained))
            && (status == Investigating <==>
                  IsSilent(actions)
                  && (event.status == Investigating || (event.status == Open && actions != [])))
            && (status == FalsePositive <==> IsSilent(actions) && event.status == FalsePositive)
            && (status == Open <==> actions == [] && event.status == Open)
  {
    PlaybookOutcome(event, actions);
    LastForcedStatus(actions);
    LastWord(actions);
  }

  /** A trap, a public bucket, ransomware, abuse of an interface, or an escalation of privileges. */
  predicate IsContainedByDefault(category: EventCategory) {
    match category
    case TrapTriggered | DeceptionTriggered | PublicBucket | Ransomware | ApiAbuse | PrivilegeEscalation => true
    case _ => false
  }

  /** Left to the playbook of its category, an event of these kinds ends contained; of any other, an open one is
      being investigated. */
  lemma DefaultPlaybookStatus(event: SecurityEvent)
    requires event.playbookActions == []
    ensures ExecutePlaybook(event).status ==
            if IsContainedByDefault(event.category) then Contained
            else if event.status == Open then Investigating
            else event.status
  {
    var actions := DefaultPlaybook(event.category);
    PlaybookOutcome(event, actions);
    LastWord(actions);
    LastForcedStatus(actions);
    if IsContainedByDefault(event.category) {
      ContainsByDefault(event.category);
    } else {
      SilentByDefault(event.category);
    }
  }

  lemma ContainsByDefault(category: EventCategory)
    requires IsContainedByDefault(category)
    ensures exists i :: IsLastWord(DefaultPlaybook(category), i) && Contains(DefaultPlaybook(category)[i])
  {
    var i := if category == ApiAbuse then 1 else 0;
    assert IsLastWord(DefaultPlaybook(category), i);
  }

  lemma SilentByDefault(category: EventCategory)
    requires !IsContainedByDefault(category)
    ensures IsSilent(DefaultPlaybook(category)) && DefaultPlaybook(category) != []
  {
  }

  // ---- What a playbook does to asset risk ----

  lemma {:induction false} CountReplaced<T>(xs: seq<T>, k: nat, x: T, p: T -> bool)
    requires k < |xs|
    ensures Count(xs[k := x], p) ==
            Count(xs, p) - (if p(xs[k]) then 1 else 0) + (if p(x) then 1 else 0)
  {
    if k == 0 {
      assert xs[0 := x][1..] == xs[1..];
    } else {
      assert xs[k := x][1..] == xs[1..][k - 1 := x];
      CountReplaced(xs[1..], k - 1, x, p);
    }
  }

  /** Running actions on one event changes, for each asset the event concerns, only whether it
      counts as unresolved. */
  lemma PlaybookOnAsset(events: seq<SecurityEvent>, k: nat, actions: seq<SoarAction>, asset: DataAsset)
    requires k < |events|
    ensures var after := events[k := RunAll(events[k], actions)];
            && Criticals(asset, after) == Criticals(asset, events)
            && Unresolved(asset, after) ==
               Unresolved(asset, events)
               - (if Concerns(events[k], asset.id, asset.name, asset.path) && events[k].status != Resolved
                  then 1 else 0)
               + (if Concerns(events[k], asset.id, asset.name, asset.path)
                     && FinalStatus(events[k].status, actions) != Resolved
                  then 1 else 0)
  {
    var updated := RunAll(events[k], actions);
    PlaybookOutcome(events[k], actions);
    CountReplaced(events, k, updated, UnresolvedAbout(asset.id, asset.name, asset.path));
    CountReplaced(events, k, updated, CriticalAbout(asset.id, asset.name, asset.path));
  }

  /** Responding never raises the risk of any asset, unless the event was resolved and the actions take it
      out of that status. */
  lemma PlaybookNeverRaisesRisk(events: seq<SecurityEvent>, k: nat, actions: seq<SoarAction>)
    requires k < |events|
    requires events[k].status != Resolved || FinalStatus(events[k].status, actions) == Resolved
    ensures forall asset :: AssetRisk(asset, events[k := RunAll(events[k], actions)]).score
                            <= AssetRisk(asset, events).score
  {
    forall asset: DataAsset
      ensures AssetRisk(asset, events[k := RunAll(events[k], actions)]).score <= AssetRisk(asset, events).score
    {
      PlaybookOnAsset(events, k, actions, asset);
    }
  }

  /** One more unresolved event about a real asset costs it three points, up to the cap. */
  lemma OneMoreCosts(asset: DataAsset, events: seq<SecurityEvent>, after: seq<SecurityEvent>)
    requires !asset.isDeception
    requires Unresolved(asset, after) == Unresolved(asset, events) + 1
    requires Criticals(asset, after) == Criticals(asset, events)
    ensures AssetRisk(asset, after).score
            == if AssetRisk(asset, events).score + 3 <= 100 then AssetRisk(asset, events).score + 3 else 100
  {
    OneMoreUnresolved(asset, Unresolved(asset, events), Criticals(asset, events));
    ScoreOfReal(asset, events);
    ScoreOfReal(asset, after);
  }

  lemma ScoreOfReal(asset: DataAsset, events: seq<SecurityEvent>)
    requires !asset.isDeception
    ensures AssetRisk(asset, events).score
            == Clamp(AssetScore(asset, Unresolved(asset, events), Criticals(asset, events)), 0, 100)
  {
  }

  /** The other half: containing a resolved event again costs every real asset it concerns three
      points, up to the cap. */
  lemma ReopeningRaisesRisk(events: seq<SecurityEvent>, k: nat, actions: seq<SoarAction>, asset: DataAsset)
    requires k < |events|
    requires events[k].status == Resolved && FinalStatus(events[k].status, actions) != Resolved
    requires !asset.isDeception && Concerns(events[k], asset.id, asset.name, asset.path)
    ensures LastForced(actions) == Some(Contained)
    ensures AssetRisk(asset, events[k := RunAll(events[k], actions)]).score
            == if AssetRisk(asset, events).score + 3 <= 100 then AssetRisk(asset, events).score + 3 else 100
  {
    LastForcedStatus(actions);
    PlaybookOnAsset(events, k, actions, asset);
    OneMoreCosts(asset, events, events[k := RunAll(events[k], actions)]);
  }

  /** A playbook raises the risk of an asset exactly when it takes a resolved event out of that status, the event
      concerns the asset, and the asset is no lure and not at the cap already. */
  lemma PlaybookRaisesExactly(events: seq<SecurityEvent>, k: nat, actions: seq<SoarAction>, asset: DataAsset)
    requires k < |events|
    ensures AssetRisk(asset, events[k := RunAll(events[k], actions)]).score > AssetRisk(asset, events).score <==>
            && !asset.isDeception && Concerns(events[k], asset.id, asset.name, asset.path)
            && events[k].status == Resolved && FinalStatus(events[k].status, actions) != Resolved
            && AssetRisk(asset, events).score < 100
  {
    if events[k].status != Resolved || FinalStatus(events[k].status, actions) == Resolved {
      PlaybookNeverRaisesRisk(events, k, actions);
    } else if !asset.isDeception && Concerns(events[k], asset.id, asset.name, asset.path) {
      ReopeningRaisesRisk(events, k, actions, asset);
      ScoreOfReal(asset, events);
    } else if !asset.isDeception {
      PlaybookOnAsset(events, k, actions, asset);
      ScoreOfReal(asset, events);
      ScoreOfReal(asset, events[k := RunAll(events[k], actions)]);
    }
  }

  const QUIET_ASSET := DataAsset(
    "asset-1", "archive", "/archive", PrivateCloud, PublicData, "ops", true, true, true, false, false, "",
    NotApplicable, 0, 0, RiskAssessment(0, LowRisk, [], [], []), [], false)

  const RESOLVED_EVENT := SecurityEvent(
    "evt-1", LowSeverity, PolicyViolation, "ops", "archive", 0, Resolved, Text(""), [], [], Some("asset-1"), None)

  lemma QuietScore(unresolved: nat, criticals: nat)
    ensures AssetScore(QUIET_ASSET, unresolved, criticals) == 4 + 3 * unresolved + 6 * criticals
  {
  }

  lemma QuietRisk(event: SecurityEvent)
    requires event.relatedAssetId == Some(QUIET_ASSET.id) && event.severity == LowSeverity
    ensures AssetRisk(QUIET_ASSET, [event]).score == if event.status == Resolved then 4 else 7
  {
    ScoreOfReal(QUIET_ASSET, [event]);
    OneEvent(event, UnresolvedAbout(QUIET_ASSET.id, QUIET_ASSET.name, QUIET_ASSET.path));
    OneEvent(event, CriticalAbout(QUIET_ASSET.id, QUIET_ASSET.name, QUIET_ASSET.path));
    QuietScore(Unresolved(QUIET_ASSET, [event]), Criticals(QUIET_ASSET, [event]));
  }

  /** The input that shows it: one resolved event about a quiet asset, and the single action that contains
      the event again. */
  lemma ContainingReopens()
    ensures AssetRisk(QUIET_ASSET, [RESOLVED_EVENT]).score == 4
    ensures AssetRisk(QUIET_ASSET, [RunAll(RESOLVED_EVENT, [MarkContained])]).score == 7
  {
    assert LastForced([MarkContained]) == Some(Contained);
    PlaybookOutcome(RESOLVED_EVENT, [MarkContained]);
    QuietRisk(RESOLVED_EVENT);
    QuietRisk(RunAll(RESOLVED_EVENT, [MarkContained]));
  }

  lemma OneEvent(event: SecurityEvent, p: SecurityEvent -> bool)
    ensures Count([event], p) == if p(event) then 1 else 0
  {
    assert [event][1..] == [];
  }

  lemma {:induction false} LastForcedStatus(actions: seq<SoarAction>)
    ensures LastForced(actions).Some? ==> LastForced(actions).value in {Contained, Resolved}
  {
    if actions != [] {
      LastForcedStatus(actions[..|actions| - 1]);
    }
  }
}

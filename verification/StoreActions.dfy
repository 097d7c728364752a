/** The console store's actions, each as the state it produces: the local branches, which derive what they
    place, and the steps that place an environment directly. They are written over an arbitrary
    derivation: all they do with one is apply it. */
module StoreActions {
  import opened SecurityTypes
  import opened Sequences
  import opened EventEngine
  import opened DeceptionEngine
  import opened ZeroTrustEngine
  import opened Derivation
  import RiskEngine

  type Deriver = Environment -> Environment

  /** The parts of the store that local actions read and write. */
  datatype StoreState = StoreState(
    env: Environment, demoMode: bool, isApiMode: bool, lastRun: Option<SimulationRun>)

  /** What an action draws from the clock and the id generator. */
  datatype Fresh = Fresh(now: int, requestId: string, eventId: string, runId: string, entryId: string)

  datatype RequestPayload = RequestPayload(
    identityId: string, identityType: IdentityType, targetAssetId: string, deviceTrust: DeviceTrust,
    requestTime: int, requestedAction: AccessAction, mfa: bool, anomalyScore: real,
    locationRisk: LocationRisk, timeRisk: TimeRisk, dataSensitivity: Classification)

  /** A single answer of the server, put into the environment when a full load did not follow. */
  datatype ServerPatch =
    | RequestEvaluated(requestId: string, evaluated: AccessRequest)
    | RequestCreated(created: AccessRequest)
    | AssetScored(assetId: string, scored: DataAsset)

  /** What a full load from the server brings; without runs where that request failed. The rules are those of
      the foundation the load starts from. */
  datatype ServerAnswer = ServerAnswer(
    assets: seq<DataAsset>, identities: seq<IdentityProfile>, accessRequests: seq<AccessRequest>,
    policyRules: seq<PolicyRule>, events: seq<SecurityEvent>, deceptions: seq<DeceptionAsset>,
    compliance: ComplianceSnapshot, runs: Option<seq<SimulationRun>>, reports: seq<ReportType>)

  datatype StoreAction =
    | RunSimulation(scenarioId: string)
    | EvaluateRequest(requestId: string)
    | CreateRequest(payload: RequestPayload)
    | DecideRequest(requestId: string, decision: Decision)
    | CreateEvent(input: EventInput, timestamp: Option<int>)
    | SetEventStatus(eventId: string, status: EventStatus)
    | RunPlaybook(eventId: string, action: Option<SoarAction>)
    | TriggerTrap(trapId: Option<string>, identityId: Option<string>)
    | RecalculateAsset(assetId: string)
    | RecalculateAll
    | GenerateReport(kind: Option<ReportType>)
    | ToggleRule(ruleId: string)
    | AddRule
    | CreateTrap
    | NextDemoStep
    | PreviousDemoStep
    | StartDemo(foundation: Environment)
    | Reset(foundation: Environment)
    | Onboard(seeded: Option<Environment>)
    | LogOut(foundation: Environment)
    | LoadFromServer(answer: ServerAnswer)
    | PatchFromServer(patch: ServerPatch)

  // ---- Lookups and point updates ----

  function FindRequest(requests: seq<AccessRequest>, id: string): Option<AccessRequest> {
    Find(requests, (request: AccessRequest) => request.id == id)
  }

  function FindEvent(events: seq<SecurityEvent>, id: string): Option<SecurityEvent> {
    Find(events, (event: SecurityEvent) => event.id == id)
  }

  function FindTrap(traps: seq<DeceptionAsset>, id: string): Option<DeceptionAsset> {
    Find(traps, (trap: DeceptionAsset) => trap.id == id)
  }

  function FindTrapNamed(traps: seq<DeceptionAsset>, name: string): Option<DeceptionAsset> {
    Find(traps, (trap: DeceptionAsset) => trap.name == name)
  }

  function FindIdentityNamed(identities: seq<IdentityProfile>, name: string): Option<IdentityProfile> {
    Find(identities, (identity: IdentityProfile) => identity.name == name)
  }

  function FindAssetNamed(assets: seq<DataAsset>, name: string): Option<DataAsset> {
    Find(assets, (asset: DataAsset) => asset.name == name)
  }

  function PutEvent(events: seq<SecurityEvent>, id: string, updated: SecurityEvent): (r: seq<SecurityEvent>)
    ensures |r| == |events|
    ensures forall i :: 0 <= i < |r| ==> r[i] == if events[i].id == id then updated else events[i]
  {
    seq(|events|, i requires 0 <= i < |events| => if events[i].id == id then updated else events[i])
  }

  function SetStatuses(events: seq<SecurityEvent>, id: string, status: EventStatus): (r: seq<SecurityEvent>)
    ensures |r| == |events|
    ensures forall i :: 0 <= i < |r| ==>
              r[i] == if events[i].id == id then UpdateEventStatus(events[i], status) else events[i]
  {
    seq(|events|, i requires 0 <= i < |events| =>
      if events[i].id == id then UpdateEventStatus(events[i], status) else events[i])
  }

  function PutIdentity(identities: seq<IdentityProfile>, updated: IdentityProfile): (r: seq<IdentityProfile>)
    ensures |r| == |identities|
    ensures forall i :: 0 <= i < |r| ==>
              r[i] == if identities[i].id == updated.id then updated else identities[i]
  {
    seq(|identities|, i requires 0 <= i < |identities| =>
      if identities[i].id == updated.id then updated else identities[i])
  }

  function PutTrap(traps: seq<DeceptionAsset>, updated: DeceptionAsset): seq<DeceptionAsset> {
    seq(|traps|, i requires 0 <= i < |traps| => if traps[i].id == updated.id then updated else traps[i])
  }

  function PutEvaluation(
    requests: seq<AccessRequest>, id: string, evaluation: Evaluation, status: RequestStatus): seq<AccessRequest>
  {
    seq(|requests|, i requires 0 <= i < |requests| =>
      if requests[i].id == id then requests[i].(evaluation := evaluation, status := status) else requests[i])
  }

  function PutDecision(requests: seq<AccessRequest>, id: string, decision: Decision): seq<AccessRequest> {
    seq(|requests|, i requires 0 <= i < |requests| =>
      if requests[i].id == id then
        requests[i].(evaluation := requests[i].evaluation.(decision := decision), status := StatusFor(decision))
      else requests[i])
  }

  function WithoutProtection(assets: seq<DataAsset>, id: string): seq<DataAsset> {
    seq(|assets|, i requires 0 <= i < |assets| =>
      if assets[i].id == id then assets[i].(encryptionEnabled := false, kmsEnabled := false) else assets[i])
  }

  function PutRisk(assets: seq<DataAsset>, id: string, events: seq<SecurityEvent>): seq<DataAsset> {
    seq(|assets|, i requires 0 <= i < |assets| =>
      if assets[i].id == id then assets[i].(risk := RiskEngine.AssetRisk(assets[i], events)) else assets[i])
  }

  function Toggled(rules: seq<PolicyRule>, id: string): seq<PolicyRule> {
    seq(|rules|, i requires 0 <= i < |rules| =>
      if rules[i].id == id then rules[i].(enabled := !rules[i].enabled) else rules[i])
  }

  /** `mapDecisionToStatus`. */
  function StatusFor(decision: Decision): RequestStatus {
    match decision
    case Allow | LimitedAllow => Approved
    case StepUp => StepUpPending
    case Deny => Rejected
    case Isolate => IsolatedRequest
  }

  function Prepend(env: Environment, event: SecurityEvent): Environment {
    env.(events := [event] + env.events)
  }

  // ---- Simulations ----

  function Plain(
    severity: Severity, category: EventCategory, source: string, target: string, asset: Option<string>): EventInput
  {
    EventInput(Some(severity), None, category, source, target, Text(""), None, None, asset, None)
  }

  /** The event each scenario raises. */
  function ScenarioEvent(scenarioId: string): Option<EventInput> {
    if scenarioId == "sim-1" then
      Some(Plain(HighSeverity, PolicyViolation, "Simulation Center", "customer-db", None))
    else if scenarioId == "sim-2" then
      Some(Plain(HighSeverity, SuspiciousExport, "Simulation Center", "analytics-bucket", None))
    else if scenarioId == "sim-3" then
      Some(Plain(CriticalSeverity, MissingEncryption, "Simulation Center", "analytics-bucket", None))
    else if scenarioId == "sim-5" then
      Some(Plain(HighSeverity, ThirdPartyAnomaly, "vendor-integration-api", "crm-export", None))
    else if scenarioId == "sim-6" then
      Some(Plain(CriticalSeverity, Ransomware, "EDR Telemetry", "finance-records", None))
    else if scenarioId == "sim-7" then
      Some(Plain(HighSeverity, UnauthorizedAccess, "Emre Kaya", "finance-records", None))
    else if scenarioId == "sim-8" then
      Some(Plain(MediumSeverity, ApiAbuse, "reporting-export-svc", "raw-ingest-zone", None))
    else if scenarioId == "sim-9" then
      Some(Plain(MediumSeverity, VisibilityGap, "Simulation Center", "ops-telemetry", None))
    else if scenarioId == "sim-10" then
      Some(Plain(HighSeverity, ThirdPartyAnomaly, "Privacy Guard", "crm-export", None))
    else None
  }

  /** `buildDemoRequest`; `None` where the original throws because its actors are missing. */
  function BuildDemoRequest(env: Environment, ids: Fresh): Option<AccessRequest> {
    match (FindIdentityNamed(env.identities, "Emre Kaya"), FindAssetNamed(env.assets, "customer-db"))
    case (Some(identity), Some(asset)) =>
      var evaluation := Evaluate(
        TrustInput(identity.kind, false, identity.mfaEnabled, UnknownDevice, Export, HighLocation,
                   OffHours, identity.anomalyScore, asset.classification, asset.location,
                   asset.isDeception, false, []));
      Some(AccessRequest(
        ids.requestId, identity.id, identity.name, identity.kind, asset.id, asset.name,
        UnknownDevice, ids.now, Export, false, identity.anomalyScore, HighLocation, OffHours,
        asset.classification, evaluation, StatusFor(evaluation.decision)))
    case (_, _) => None
  }

  /** The scenario's changes before its event; `None` where the original throws. */
  function ScenarioBase(derive: Deriver, env: Environment, scenarioId: string, ids: Fresh): Option<Environment> {
    if scenarioId == "sim-1" then
      match BuildDemoRequest(env, ids)
      case Some(request) => Some(derive(env.(accessRequests := [request] + env.accessRequests)))
      case None => None
    else if scenarioId == "sim-3" then
      Some(derive(env.(assets := WithoutProtection(env.assets, "asset-analytics-bucket"))))
    else Some(env)
  }

  function AfterSimulation(derive: Deriver, s: StoreState, scenarioId: string, ids: Fresh): StoreState {
    match ScenarioBase(derive, s.env, scenarioId, ids)
    case None => s
    case Some(base) =>
      var raised := ScenarioEvent(scenarioId);
      var next := match raised
                  case Some(input) => derive(Prepend(base, CreateSecurityEvent(ids.eventId, ids.now, input)))
                  case None => base;
      var run := SimulationRun(ids.runId, scenarioId, ids.now, if raised.Some? then [ids.eventId] else []);
      s.(env := derive(next.(runs := [run] + next.runs)), lastRun := Some(run))
  }

  // ---- Traps ----

  function OrElseFind<T>(first: Option<T>, second: Option<T>): Option<T> {
    if first.Some? then first else second
  }

  function ChosenTrap(env: Environment, trapId: Option<string>): Option<DeceptionAsset> {
    OrElseFind(if trapId.Some? then FindTrap(env.deceptions, trapId.value) else None,
               FindTrapNamed(env.deceptions, "admin-secrets-bucket"))
  }

  function ChosenIdentity(env: Environment, identityId: Option<string>): (r: Option<IdentityProfile>)
    ensures r.Some? ==> r.value in env.identities
  {
    OrElseFind(if identityId.Some? then FindIdentity(env.identities, identityId.value) else None,
               FindIdentityNamed(env.identities, "finance-batch-svc"))
  }

  function WithIncident(env: Environment, incident: Incident): Environment {
    Prepend(env, incident.event).(
      identities := PutIdentity(env.identities, incident.identity),
      deceptions := PutTrap(env.deceptions, incident.deception))
  }

  function AfterTrap(
    derive: Deriver, s: StoreState, trapId: Option<string>, identityId: Option<string>, ids: Fresh): StoreState
  {
    match (ChosenTrap(s.env, trapId), ChosenIdentity(s.env, identityId))
    case (Some(trap), Some(identity)) =>
      var incident := TriggerDeceptionAccess(trap, identity, ids.eventId, ids.now);
      var run := SimulationRun(ids.runId, "sim-4", ids.now, [ids.eventId]);
      s.(env := derive(WithIncident(s.env, incident).(runs := [run] + s.env.runs)), lastRun := Some(run))
    case (_, _) => s
  }

  // ---- Requests ----

  predicate RaisesEvent(decision: Decision) {
    decision == Deny || decision == Isolate || decision == StepUp
  }

  function DecisionEvent(asset: DataAsset, identity: IdentityProfile, evaluation: Evaluation): EventInput {
    EventInput(
      Some(if evaluation.decision == Isolate then CriticalSeverity
           else if evaluation.decision == Deny then HighSeverity else MediumSeverity),
      None, if asset.isDeception then DeceptionTriggered else PolicyViolation,
      identity.name, asset.name, Text(""), None, None, Some(asset.id), Some(identity.id))
  }

  function AfterEvaluation(derive: Deriver, s: StoreState, requestId: string, ids: Fresh): StoreState {
    match FindRequest(s.env.accessRequests, requestId)
    case None => s
    case Some(request) =>
      match (FindIdentity(s.env.identities, request.identityId), FindAsset(s.env.assets, request.targetAssetId))
      case (Some(identity), Some(asset)) =>
        var evaluation := EvaluateFor(request, asset, identity, s.env.events);
        var next := derive(s.env.(accessRequests :=
          PutEvaluation(s.env.accessRequests, requestId, evaluation, StatusFor(evaluation.decision))));
        var noted :=
          if RaisesEvent(evaluation.decision) then
            derive(Prepend(next, CreateSecurityEvent(ids.eventId, ids.now,
                                                     DecisionEvent(asset, identity, evaluation))))
          else next;
        s.(env := derive(noted))
      case (_, _) => s
  }

  function NewRequest(payload: RequestPayload, asset: DataAsset, identity: IdentityProfile, ids: Fresh): AccessRequest {
    var evaluation := Evaluate(
      TrustInput(payload.identityType, payload.mfa, identity.mfaEnabled, payload.deviceTrust,
                 payload.requestedAction, payload.locationRisk, payload.timeRisk, payload.anomalyScore,
                 asset.classification, asset.location, asset.isDeception, asset.isDeception, []));
    AccessRequest(
      ids.requestId, payload.identityId, identity.name, payload.identityType, payload.targetAssetId,
      asset.name, payload.deviceTrust, payload.requestTime, payload.requestedAction, payload.mfa,
      payload.anomalyScore, payload.locationRisk, payload.timeRisk, payload.dataSensitivity,
      evaluation, Pending)
  }

  function AfterRequest(derive: Deriver, s: StoreState, payload: RequestPayload, ids: Fresh): StoreState {
    match (FindIdentity(s.env.identities, payload.identityId), FindAsset(s.env.assets, payload.targetAssetId))
    case (Some(identity), Some(asset)) =>
      s.(env := derive(s.env.(accessRequests :=
        [NewRequest(payload, asset, identity, ids)] + s.env.accessRequests)))
    case (_, _) => s
  }

  // ---- Events ----

  function AfterPlaybook(derive: Deriver, s: StoreState, eventId: string, action: Option<SoarAction>): StoreState {
    match FindEvent(s.env.events, eventId)
    case None => s
    case Some(event) =>
      var updated := match action
                     case Some(one) => RunSoarPlaybook(event, one)
                     case None => ExecutePlaybook(event);
      s.(env := derive(s.env.(events := PutEvent(s.env.events, eventId, updated))))
  }

  // ---- Reports ----

  function ReportsExcept(reports: seq<ReportType>, kind: ReportType): seq<ReportType> {
    if reports == [] then []
    else (if reports[0] == kind then [] else [reports[0]]) + ReportsExcept(reports[1..], kind)
  }

  /** One report made again moves to the front; without a known type all are made. */
  function ReportsAfter(reports: seq<ReportType>, kind: Option<ReportType>): seq<ReportType> {
    match kind
    case Some(one) => [one] + ReportsExcept(reports, one)
    case None => ALL_REPORTS
  }

  // ---- Traps and rules added by hand ----

  function Decimal(n: nat): string {
    if n < 10 then [('0' as int + n) as char] else Decimal(n / 10) + Decimal(n % 10)
  }

  function NewTrap(env: Environment, ids: Fresh): DeceptionAsset {
    DeceptionAsset(
      ids.entryId, "generated-decoy-" + Decimal(|env.deceptions| + 1), 74, 0, None,
      Some(CriticalSeverity), "", Armed, [IsolateIdentity, NotifyTeam])
  }

  // ---- The demo scenario ----

  function StatusAt(index: int, current: int): StepStatus {
    if index < current then StepCompleted else if index == current then StepActive else StepPending
  }

  function AtStep(scenario: DemoScenario, current: int): DemoScenario {
    DemoScenario(
      true, current,
      seq(|scenario.steps|, i requires 0 <= i < |scenario.steps| =>
        scenario.steps[i].(status := StatusAt(i, current))))
  }

  function DemoLureRequest(env: Environment, asset: DataAsset, identity: IdentityProfile, ids: Fresh): AccessRequest {
    AccessRequest(
      ids.requestId, identity.id, identity.name, identity.kind, asset.id, asset.name, UnknownDevice,
      ids.now, Read, false, identity.anomalyScore, HighLocation, OffHours, asset.classification,
      Evaluate(TrustInput(identity.kind, false, identity.mfaEnabled, UnknownDevice, Read, HighLocation,
                          OffHours, identity.anomalyScore, asset.classification, asset.location,
                          asset.isDeception, true, [])),
      IsolatedRequest)
  }

  /** What a demo step does before the steps are marked; `None` where the original throws. */
  function DemoEffect(derive: Deriver, env: Environment, stepId: string, ids: Fresh): Option<Environment> {
    if stepId == "demo-2" then
      match BuildDemoRequest(env, ids)
      case Some(request) => Some(derive(env.(accessRequests := [request] + env.accessRequests)))
      case None => None
    else if stepId == "demo-4" then
      var asset := FindAssetNamed(env.assets, "customer-db");
      var input := Plain(HighSeverity, PolicyViolation, "Zero Trust Policy Engine", "customer-db",
                         if asset.Some? then Some(asset.value.id) else None);
      Some(derive(Prepend(env, CreateSecurityEvent(ids.eventId, ids.now, input))))
    else if stepId == "demo-6" then
      match (FindIdentityNamed(env.identities, "finance-batch-svc"), FindAssetNamed(env.assets, "admin-secrets-bucket"))
      case (Some(identity), Some(asset)) =>
        Some(derive(env.(accessRequests := [DemoLureRequest(env, asset, identity, ids)] + env.accessRequests)))
      case (_, _) => Some(env)
    else if stepId == "demo-7" then
      match (FindTrapNamed(env.deceptions, "admin-secrets-bucket"),
             FindIdentityNamed(env.identities, "finance-batch-svc"))
      case (Some(trap), Some(identity)) =>
        Some(derive(WithIncident(env, TriggerDeceptionAccess(trap, identity, ids.eventId, ids.now))))
      case (_, _) => Some(env)
    else Some(env)
  }

  /** `applyDemoStep`: a step that does not exist, or has no id, changes nothing. */
  function ApplyDemoStep(derive: Deriver, env: Environment, index: int, ids: Fresh): Option<Environment> {
    if !(0 <= index < |env.demoScenario.steps|) || env.demoScenario.steps[index].id == "" then Some(env)
    else
      match DemoEffect(derive, env, env.demoScenario.steps[index].id, ids)
      case None => None
      case Some(next) => Some(next.(demoScenario := AtStep(next.demoScenario, index)))
  }

  function NextIndex(scenario: DemoScenario): int {
    if scenario.currentStep + 1 < |scenario.steps| - 1 then scenario.currentStep + 1 else |scenario.steps| - 1
  }

  function PreviousIndex(scenario: DemoScenario): int {
    if scenario.currentStep - 1 > 0 then scenario.currentStep - 1 else 0
  }

  function AfterNextStep(derive: Deriver, s: StoreState, ids: Fresh): StoreState {
    match ApplyDemoStep(derive, s.env, NextIndex(s.env.demoScenario), ids)
    case Some(next) => s.(env := derive(next), demoMode := true)
    case None => s
  }

  // ---- Environments placed without deriving them ----

  predicate IsDirect(action: StoreAction) {
    action.LogOut? || action.LoadFromServer? || action.PatchFromServer?
  }

  function Patched(env: Environment, patch: ServerPatch): Environment {
    match patch
    case RequestEvaluated(requestId, evaluated) =>
      env.(accessRequests := seq(|env.accessRequests|, i requires 0 <= i < |env.accessRequests| =>
        if env.accessRequests[i].id == requestId then evaluated else env.accessRequests[i]))
    case RequestCreated(created) => env.(accessRequests := [created] + env.accessRequests)
    case AssetScored(assetId, scored) =>
      env.(assets := seq(|env.assets|, i requires 0 <= i < |env.assets| =>
        if env.assets[i].id == assetId then scored else env.assets[i]))
  }

  /** `buildApiEnvironmentBundle`: the demo scenario is carried over, and so are the runs when none came. */
  function Loaded(env: Environment, answer: ServerAnswer): Environment {
    Environment(
      answer.assets, answer.identities, answer.accessRequests, answer.policyRules, answer.events,
      answer.deceptions, answer.compliance, OrElse(answer.runs, env.runs), answer.reports, env.demoScenario)
  }

  /** What a direct step puts in place: the foundation on logout, what a load brings, and the current
      environment with one answer in it otherwise. */
  function PlacedDirectly(env: Environment, action: StoreAction): Environment
    requires IsDirect(action)
  {
    match action
    case LogOut(foundation) => foundation
    case LoadFromServer(answer) => Loaded(env, answer)
    case PatchFromServer(patch) => Patched(env, patch)
  }

  // ---- One action ----

  /** Actions that work on local data only once the demo fallback is allowed. */
  predicate NeedsFallback(action: StoreAction) {
    !(action.CreateEvent? || action.StartDemo? || action.Reset? || action.Onboard? || IsDirect(action))
  }

  function Perform(derive: Deriver, s: StoreState, action: StoreAction, ids: Fresh): StoreState {
    match action
    case RunSimulation(scenarioId) =>
      if scenarioId == "sim-4" then AfterTrap(derive, s, None, Some("id-finance-batch"), ids)
      else AfterSimulation(derive, s, scenarioId, ids)
    case EvaluateRequest(requestId) => AfterEvaluation(derive, s, requestId, ids)
    case CreateRequest(payload) => AfterRequest(derive, s, payload, ids)
    case DecideRequest(requestId, decision) =>
      s.(env := derive(s.env.(accessRequests := PutDecision(s.env.accessRequests, requestId, decision))))
    case CreateEvent(input, timestamp) =>
      s.(env := derive(Prepend(s.env, CreateSecurityEvent(ids.eventId, OrElse(timestamp, ids.now), input))))
    case SetEventStatus(eventId, status) =>
      s.(env := derive(s.env.(events := SetStatuses(s.env.events, eventId, status))))
    case RunPlaybook(eventId, act) => AfterPlaybook(derive, s, eventId, act)
    case TriggerTrap(trapId, identityId) => AfterTrap(derive, s, trapId, identityId, ids)
    case RecalculateAsset(assetId) =>
      (match FindAsset(s.env.assets, assetId)
       case Some(asset) =>
         s.(env := derive(s.env.(assets := PutRisk(s.env.assets, assetId, s.env.events))))
       case None => s)
    case RecalculateAll => s.(env := derive(s.env))
    case GenerateReport(kind) => s.(env := derive(s.env.(reports := ReportsAfter(s.env.reports, kind))))
    case ToggleRule(ruleId) => s.(env := derive(s.env.(policyRules := Toggled(s.env.policyRules, ruleId))))
    case AddRule =>
      s.(env := derive(s.env.(policyRules := [PolicyRule(ids.entryId, true)] + s.env.policyRules)))
    case CreateTrap => s.(env := derive(s.env.(deceptions := [NewTrap(s.env, ids)] + s.env.deceptions)))
    case NextDemoStep => AfterNextStep(derive, s, ids)
    case PreviousDemoStep =>
      s.(env := derive(s.env.(demoScenario := AtStep(s.env.demoScenario, PreviousIndex(s.env.demoScenario)))),
         demoMode := true)
    case StartDemo(foundation) =>
      if s.isApiMode then s
      else s.(env := derive(foundation.(demoScenario := AtStep(foundation.demoScenario, 0))), demoMode := true)
    case Reset(foundation) => StoreState(derive(foundation), false, false, None)
    case Onboard(seeded) =>
      s.(env := derive(match seeded case Some(foundation) => derive(foundation) case None => s.env))
    case LogOut(_) => s.(env := PlacedDirectly(s.env, action), isApiMode := false)
    case LoadFromServer(_) => s.(env := PlacedDirectly(s.env, action), isApiMode := true)
    case PatchFromServer(_) => s.(env := PlacedDirectly(s.env, action))
  }

  /** One local action, behind the guards that decide whether local data may be changed at all. */
  function Step(derive: Deriver, fallback: bool, s: StoreState, action: StoreAction, ids: Fresh): StoreState {
    if NeedsFallback(action) && !(fallback && s.demoMode && !s.isApiMode) then s
    else if (action.StartDemo? || action.Onboard?) && !fallback then s
    else Perform(derive, s, action, ids)
  }
}

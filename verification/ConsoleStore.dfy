/** `src/store/security-console-store.ts`: the store object. Its module variables are the fields
    here, its actions' local branches the methods; each method's effect is one `Step`. */
module ConsoleStore {
  import opened SecurityTypes
  import opened EventEngine
  import opened DeceptionEngine
  import opened ZeroTrustEngine
  import opened Derivation
  import opened StoreActions
  import StoreRuns
  import StoreTheorems

  /** Whether an environment is derived when it is set. */
  datatype Placing = Deriving | Directly

  class Store {
    /** `deriveEnvironment`; the program passes `Derive`. */
    const derive: Deriver
    const fallback: bool
    var environment: Environment
    var demoMode: bool
    var isApiMode: bool
    var lastRun: Option<SimulationRun>

    ghost function State(): StoreState
      reads this
    {
      StoreState(environment, demoMode, isApiMode, lastRun)
    }

    constructor (derive: Deriver, fallback: bool, foundation: Environment)
      ensures this.derive == derive && this.fallback == fallback
      ensures State() == StoreState(derive(foundation), false, false, None)
    {
      this.derive, this.fallback := derive, fallback;
      environment := derive(foundation);
      demoMode, isApiMode, lastRun := false, false, None;
    }

    /** `setEnvironment`. */
    method SetEnvironment(next: Environment, mode: Placing := Deriving)
      modifies this`environment
      ensures environment == if mode == Directly then next else derive(next)
    {
      environment := if mode == Directly then next else derive(next);
    }

    method AllowDemoFallback() returns (allowed: bool)
      ensures allowed == (fallback && demoMode && !isApiMode)
    {
      allowed := fallback && demoMode && !isApiMode;
    }

    method RunSimulation(scenarioId: string, ids: Fresh)
      modifies this
      ensures State() == Step(derive, fallback, old(State()), StoreAction.RunSimulation(scenarioId), ids)
    {
      var allowed := AllowDemoFallback();
      if !allowed { return; }
      if scenarioId == "sim-4" {
        TriggerDeception(None, Some("id-finance-batch"), ids);
        return;
      }
      RunScenario(scenarioId, ids);
    }

    method RunScenario(scenarioId: string, ids: Fresh)
      modifies this
      ensures State() == AfterSimulation(derive, old(State()), scenarioId, ids)
    {
      var next := environment;
      var generated: seq<string> := [];
      if scenarioId == "sim-1" {
        var request := BuildDemoRequest(environment, ids);
        if request.None? { return; }
        next := derive(next.(accessRequests := [request.value] + environment.accessRequests));
      } else if scenarioId == "sim-3" {
        next := derive(next.(assets := WithoutProtection(next.assets, "asset-analytics-bucket")));
      }
      assert ScenarioBase(derive, environment, scenarioId, ids) == Some(next);
      var raised := ScenarioEvent(scenarioId);
      if raised.Some? {
        var event := CreateSecurityEvent(ids.eventId, ids.now, raised.value);
        generated := generated + [event.id];
        next := derive(next.(events := [event] + next.events));
      }
      assert generated == if raised.Some? then [ids.eventId] else [];
      var run := SimulationRun(ids.runId, scenarioId, ids.now, generated);
      SetEnvironment(next.(runs := [run] + next.runs));
      lastRun := Some(run);
    }

    method TriggerDeception(trapId: Option<string>, identityId: Option<string>, ids: Fresh)
      modifies this
      ensures State() == Step(derive, fallback, old(State()), TriggerTrap(trapId, identityId), ids)
    {
      var allowed := AllowDemoFallback();
      if !allowed { return; }
      var trap, identity := ChosenTrap(environment, trapId), ChosenIdentity(environment, identityId);
      if trap.None? || identity.None? { return; }
      var incident := TriggerDeceptionAccess(trap.value, identity.value, ids.eventId, ids.now);
      RecordIncident(incident, SimulationRun(ids.runId, "sim-4", ids.now, [incident.event.id]));
    }

    method RecordIncident(incident: Incident, run: SimulationRun)
      modifies this
      ensures State() == old(State()).(
                env := derive(WithIncident(old(environment), incident).(runs := [run] + old(environment).runs)),
                lastRun := Some(run))
    {
      SetEnvironment(environment.(
        events := [incident.event] + environment.events,
        identities := PutIdentity(environment.identities, incident.identity),
        deceptions := PutTrap(environment.deceptions, incident.deception),
        runs := [run] + environment.runs));
      lastRun := Some(run);
    }

    method EvaluateAccessRequest(requestId: string, ids: Fresh)
      modifies this
      ensures State() == Step(derive, fallback, old(State()), EvaluateRequest(requestId), ids)
    {
      var allowed := AllowDemoFallback();
      if !allowed { return; }
      var request := FindRequest(environment.accessRequests, requestId);
      if request.None? { return; }
      var identity := FindIdentity(environment.identities, request.value.identityId);
      var asset := FindAsset(environment.assets, request.value.targetAssetId);
      if identity.None? || asset.None? { return; }
      var recent := RecentCategories(environment.events, identity.value.id, identity.value.name);
      var evaluation := EvaluateZeroTrustRequest(InputFor(request.value, asset.value, identity.value, recent));
      var next := derive(environment.(accessRequests :=
        PutEvaluation(environment.accessRequests, requestId, evaluation, StatusFor(evaluation.decision))));
      if RaisesEvent(evaluation.decision) {
        var event := CreateSecurityEvent(ids.eventId, ids.now,
                                         DecisionEvent(asset.value, identity.value, evaluation));
        next := derive(next.(events := [event] + next.events));
      }
      SetEnvironment(next);
    }

    method CreateAccessRequest(payload: RequestPayload, ids: Fresh)
      modifies this
      ensures State() == Step(derive, fallback, old(State()), CreateRequest(payload), ids)
    {
      var allowed := AllowDemoFallback();
      if !allowed { return; }
      var identity := FindIdentity(environment.identities, payload.identityId);
      var asset := FindAsset(environment.assets, payload.targetAssetId);
      if identity.None? || asset.None? { return; }
      var request := NewRequest(payload, asset.value, identity.value, ids);
      SetEnvironment(environment.(accessRequests := [request] + environment.accessRequests));
    }

    method UpdateAccessRequestDecision(requestId: string, decision: Decision, ids: Fresh)
      modifies this
      ensures State() == Step(derive, fallback, old(State()), DecideRequest(requestId, decision), ids)
    {
      var allowed := AllowDemoFallback();
      if !allowed { return; }
      var requests := PutDecision(environment.accessRequests, requestId, decision);
      SetEnvironment(environment.(accessRequests := requests));
    }

    method AddEvent(input: EventInput, timestamp: Option<int>, ids: Fresh) returns (event: SecurityEvent)
      modifies this
      ensures State() == Step(derive, fallback, old(State()), CreateEvent(input, timestamp), ids)
      ensures event == CreateSecurityEvent(ids.eventId, OrElse(timestamp, ids.now), input)
    {
      event := CreateSecurityEvent(ids.eventId, OrElse(timestamp, ids.now), input);
      SetEnvironment(environment.(events := [event] + environment.events));
    }

    method SetStatus(eventId: string, status: EventStatus, ids: Fresh)
      modifies this
      ensures State() == Step(derive, fallback, old(State()), SetEventStatus(eventId, status), ids)
    {
      var allowed := AllowDemoFallback();
      if !allowed { return; }
      SetEnvironment(environment.(events := SetStatuses(environment.events, eventId, status)));
    }

    method RunEventPlaybook(eventId: string, action: Option<SoarAction>, ids: Fresh)
      modifies this
      ensures State() == Step(derive, fallback, old(State()), RunPlaybook(eventId, action), ids)
    {
      var allowed := AllowDemoFallback();
      if !allowed { return; }
      var event := FindEvent(environment.events, eventId);
      if event.None? { return; }
      var updated := if action.Some? then RunSoarPlaybook(event.value, action.value) else ExecutePlaybook(event.value);
      SetEnvironment(environment.(events := PutEvent(environment.events, eventId, updated)));
    }

    method CalculateAssetRisk(assetId: string, ids: Fresh)
      modifies this
      ensures State() == Step(derive, fallback, old(State()), RecalculateAsset(assetId), ids)
    {
      var allowed := AllowDemoFallback();
      if !allowed { return; }
      var asset := FindAsset(environment.assets, assetId);
      if asset.None? { return; }
      SetEnvironment(environment.(assets := PutRisk(environment.assets, assetId, environment.events)));
    }

    /** Both the risk and the compliance recalculation set the environment it already holds. */
    method RecalculateEverything(ids: Fresh)
      modifies this
      ensures State() == Step(derive, fallback, old(State()), RecalculateAll, ids)
    {
      var allowed := AllowDemoFallback();
      if !allowed { return; }
      SetEnvironment(environment);
    }

    method GenerateReport(kind: Option<ReportType>, ids: Fresh)
      modifies this
      ensures State() == Step(derive, fallback, old(State()), StoreAction.GenerateReport(kind), ids)
    {
      var allowed := AllowDemoFallback();
      if !allowed { return; }
      SetEnvironment(environment.(reports := ReportsAfter(environment.reports, kind)));
    }

    method TogglePolicyRule(ruleId: string, ids: Fresh)
      modifies this
      ensures State() == Step(derive, fallback, old(State()), ToggleRule(ruleId), ids)
    {
      var allowed := AllowDemoFallback();
      if !allowed { return; }
      SetEnvironment(environment.(policyRules := Toggled(environment.policyRules, ruleId)));
    }

    method AddPolicyRule(ids: Fresh)
      modifies this
      ensures State() == Step(derive, fallback, old(State()), AddRule, ids)
    {
      var allowed := AllowDemoFallback();
      if !allowed { return; }
      SetEnvironment(environment.(policyRules := [PolicyRule(ids.entryId, true)] + environment.policyRules));
    }

    method CreateDeceptionStorage(ids: Fresh)
      modifies this
      ensures State() == Step(derive, fallback, old(State()), CreateTrap, ids)
    {
      var allowed := AllowDemoFallback();
      if !allowed { return; }
      SetEnvironment(environment.(deceptions := [NewTrap(environment, ids)] + environment.deceptions));
    }

    method StartDemoScenario(foundation: Environment, ids: Fresh)
      modifies this
      ensures State() == Step(derive, fallback, old(State()), StartDemo(foundation), ids)
    {
      if !fallback || isApiMode { return; }
      SetEnvironment(foundation.(demoScenario := AtStep(foundation.demoScenario, 0)));
      demoMode := true;
    }

    method AdvanceDemo(ids: Fresh)
      modifies this
      ensures State() == Step(derive, fallback, old(State()), NextDemoStep, ids)
    {
      var allowed := AllowDemoFallback();
      if !allowed { return; }
      var index := NextIndex(environment.demoScenario);
      var applied := ApplyDemoStep(derive, environment, index, ids);
      if applied.None? { return; }
      SetEnvironment(applied.value);
      demoMode := true;
    }

    method RewindDemo(ids: Fresh)
      modifies this
      ensures State() == Step(derive, fallback, old(State()), PreviousDemoStep, ids)
    {
      var allowed := AllowDemoFallback();
      if !allowed { return; }
      var target := PreviousIndex(environment.demoScenario);
      SetEnvironment(environment.(demoScenario := AtStep(environment.demoScenario, target)));
      demoMode := true;
    }

    method ResetDemoData(foundation: Environment, ids: Fresh)
      modifies this
      ensures State() == Step(derive, fallback, old(State()), Reset(foundation), ids)
    {
      demoMode, isApiMode, lastRun := false, false, None;
      SetEnvironment(foundation);
    }

    method CompleteOnboarding(seeded: Option<Environment>, ids: Fresh)
      modifies this
      ensures State() == Step(derive, fallback, old(State()), Onboard(seeded), ids)
    {
      if !fallback { return; }
      var next := environment;
      if seeded.Some? { next := derive(seeded.value); }
      SetEnvironment(next);
    }

    method LogOut(foundation: Environment, ids: Fresh)
      modifies this
      ensures State() == Step(derive, fallback, old(State()), StoreAction.LogOut(foundation), ids)
    {
      isApiMode := false;
      SetEnvironment(foundation, Directly);
    }

    /** The end of `hydrateEnvironmentFromApi`. */
    method LoadFromServer(answer: ServerAnswer, ids: Fresh)
      modifies this
      ensures State() == Step(derive, fallback, old(State()), StoreAction.LoadFromServer(answer), ids)
    {
      isApiMode := true;
      SetEnvironment(Loaded(environment, answer), Directly);
    }

    /** What three actions do with a single answer when no load follows it. */
    method PatchFromServer(patch: ServerPatch, ids: Fresh)
      modifies this
      ensures State() == Step(derive, fallback, old(State()), StoreAction.PatchFromServer(patch), ids)
    {
      SetEnvironment(Patched(environment, patch), Directly);
    }

    // ---- Any action, and any run of them ----

    method Perform(action: StoreAction, ids: Fresh)
      modifies this
      ensures State() == Step(derive, fallback, old(State()), action, ids)
    {
      match action
      case RunSimulation(scenarioId) => RunSimulation(scenarioId, ids);
      case EvaluateRequest(requestId) => EvaluateAccessRequest(requestId, ids);
      case CreateRequest(payload) => CreateAccessRequest(payload, ids);
      case DecideRequest(requestId, decision) => UpdateAccessRequestDecision(requestId, decision, ids);
      case CreateEvent(input, timestamp) => var event := AddEvent(input, timestamp, ids);
      case SetEventStatus(eventId, status) => SetStatus(eventId, status, ids);
      case RunPlaybook(eventId, act) => RunEventPlaybook(eventId, act, ids);
      case TriggerTrap(trapId, identityId) => TriggerDeception(trapId, identityId, ids);
      case RecalculateAsset(assetId) => CalculateAssetRisk(assetId, ids);
      case RecalculateAll => RecalculateEverything(ids);
      case GenerateReport(kind) => GenerateReport(kind, ids);
      case ToggleRule(ruleId) => TogglePolicyRule(ruleId, ids);
      case AddRule => AddPolicyRule(ids);
      case CreateTrap => CreateDeceptionStorage(ids);
      case NextDemoStep => AdvanceDemo(ids);
      case PreviousDemoStep => RewindDemo(ids);
      case StartDemo(foundation) => StartDemoScenario(foundation, ids);
      case Reset(foundation) => ResetDemoData(foundation, ids);
      case Onboard(seeded) => CompleteOnboarding(seeded, ids);
      case LogOut(foundation) => LogOut(foundation, ids);
      case LoadFromServer(answer) => LoadFromServer(answer, ids);
      case PatchFromServer(patch) => PatchFromServer(patch, ids);
    }

    /** A run of actions on the store ends where the run of the specification ends. */
    method PerformAll(steps: seq<(StoreAction, Fresh)>)
      modifies this
      ensures State() == StoreRuns.Run(derive, fallback, old(State()), steps)
    {
      ghost var start := State();
      for i := 0 to |steps|
        invariant StoreRuns.Run(derive, fallback, State(), steps[i..])
                  == StoreRuns.Run(derive, fallback, start, steps)
      {
        assert steps[i..][0] == steps[i] && steps[i..][1..] == steps[i + 1..];
        Perform(steps[i].0, steps[i].1);
      }
      assert steps[|steps|..] == [];
    }
  }

  /** The program's own store keeps, through any run, all that the theorems about runs promise. */
  method RunProgram(fallback: bool, foundation: Environment, steps: seq<(StoreAction, Fresh)>) returns (store: Store)
    ensures fresh(store)
    ensures store.State() == StoreRuns.Run(Derive, fallback, StoreTheorems.Start(foundation), steps)
    ensures StoreTheorems.StoreKeeps(fallback, foundation, steps, store.environment)
  {
    store := new Store(Derive, fallback, foundation);
    store.PerformAll(steps);
    StoreTheorems.StoreKeepsAll(fallback, foundation, steps);
  }
}

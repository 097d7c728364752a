/** What whole runs of local actions keep: consistency of the derived values, the traces of events,
    the references between runs and events, and the order of the demo steps. */
module StoreRuns {
  import opened SecurityTypes
  import opened EventEngine
  import opened DeceptionEngine
  import opened Derivation
  import opened StoreActions

  // ---- Runs ----

  function Run(derive: Deriver, fallback: bool, s: StoreState, steps: seq<(StoreAction, Fresh)>): StoreState
    decreases |steps|
  {
    if steps == [] then s
    else Run(derive, fallback, Step(derive, fallback, s, steps[0].0, steps[0].1), steps[1..])
  }

  /** Actions that put a given environment in place of the current one. */
  predicate Replaces(action: StoreAction) {
    || action.StartDemo? || action.Reset? || (action.Onboard? && action.seeded.Some?)
    || action.LogOut? || action.LoadFromServer?
  }

  // ---- Traces of events ----

  /** What of an event no response changes: its identity, what it is, and whom it is about. */
  datatype Mark = Mark(id: string, category: EventCategory, about: Option<string>)

  function MarkOf(event: SecurityEvent): Mark {
    Mark(event.id, event.category, event.relatedIdentityId)
  }

  ghost function Marks(env: Environment): set<Mark> {
    set e | e in env.events :: MarkOf(e)
  }

  ghost function IdsOf(marks: set<Mark>): set<string> {
    set m | m in marks :: m.id
  }

  ghost function IdentityIds(env: Environment): set<string> {
    set i | i in env.identities :: i.id
  }

  /** Event ids are used for one event only. */
  ghost predicate IdsIdentify(env: Environment) {
    forall m, n :: m in Marks(env) && n in Marks(env) && m.id == n.id ==> m == n
  }

  /** What every derivation leaves alone. */
  ghost predicate Kept(env: Environment, next: Environment) {
    && Marks(next) == Marks(env)
    && IdentityIds(next) == IdentityIds(env)
    && next.runs == env.runs
    && next.demoScenario == env.demoScenario
  }

  ghost predicate KeepsTraces(derive: Deriver) {
    forall e :: Kept(e, derive(e))
  }

  lemma DeriveKeeps()
    ensures KeepsTraces(Derive)
  {
    forall env ensures Kept(env, Derive(env)) {
      DeriveKeepsMarks(env);
      DeriveKeepsIdentities(env);
    }
  }

  lemma DeriveKeepsMarks(env: Environment)
    ensures Marks(Derive(env)) == Marks(env)
  {
    DeriveOrdersEvents(env);
    assert forall e :: e in Derive(env).events <==> e in multiset(Derive(env).events);
    assert forall e :: e in env.events <==> e in multiset(env.events);
  }

  lemma DeriveKeepsIdentities(env: Environment)
    ensures IdentityIds(Derive(env)) == IdentityIds(env)
  {
    DeriveKeepsEntries(env);
    var ids, given := Derive(env).identities, env.identities;
    forall i | 0 <= i < |ids| ensures ids[i].id == given[i].id {
      assert given[i].(riskScore := ids[i].riskScore) == ids[i];
    }
    forall x | x in IdentityIds(env) ensures x in IdentityIds(Derive(env)) {
      var i :| 0 <= i < |given| && given[i].id == x;
      assert ids[i] in ids;
    }
    forall x | x in IdentityIds(Derive(env)) ensures x in IdentityIds(env) {
      var i :| 0 <= i < |ids| && ids[i].id == x;
      assert given[i] in given;
    }
  }

  /** The environment gains at most one trace, under the id drawn for it, and loses none. */
  ghost predicate Grows(env: Environment, next: Environment, newId: string) {
    && IdentityIds(next) == IdentityIds(env)
    && (Marks(next) == Marks(env) || exists m: Mark :: m.id == newId && Marks(next) == Marks(env) + {m})
  }

  lemma PrependMarks(env: Environment, event: SecurityEvent)
    ensures Marks(Prepend(env, event)) == Marks(env) + {MarkOf(event)}
    ensures IdentityIds(Prepend(env, event)) == IdentityIds(env)
  {
    var next := Prepend(env, event);
    assert forall e :: e in next.events <==> e == event || e in env.events;
  }

  lemma SameMarks(env: Environment, next: Environment)
    requires |next.events| == |env.events|
    requires forall i :: 0 <= i < |env.events| ==> MarkOf(next.events[i]) == MarkOf(env.events[i])
    ensures Marks(next) == Marks(env)
  {
    forall m | m in Marks(env) ensures m in Marks(next) {
      var i :| 0 <= i < |env.events| && MarkOf(env.events[i]) == m;
      assert next.events[i] in next.events;
    }
    forall m | m in Marks(next) ensures m in Marks(env) {
      var i :| 0 <= i < |next.events| && MarkOf(next.events[i]) == m;
      assert env.events[i] in env.events;
    }
  }

  lemma PlaybookKeepsMark(event: SecurityEvent, action: Option<SoarAction>)
    ensures MarkOf(match action case Some(one) => RunSoarPlaybook(event, one) case None => ExecutePlaybook(event))
            == MarkOf(event)
  {
    PlaybookOutcome(event, RecommendedPlaybook(event));
  }

  lemma PutEventMarks(env: Environment, id: string, updated: SecurityEvent)
    requires IdsIdentify(env)
    requires exists e :: e in env.events && e.id == id && MarkOf(e) == MarkOf(updated)
    ensures Marks(env.(events := PutEvent(env.events, id, updated))) == Marks(env)
  {
    forall i | 0 <= i < |env.events| && env.events[i].id == id
      ensures MarkOf(env.events[i]) == MarkOf(updated)
    {
      assert env.events[i] in env.events;
      assert MarkOf(env.events[i]) in Marks(env) && MarkOf(updated) in Marks(env);
    }
    SameMarks(env, env.(events := PutEvent(env.events, id, updated)));
  }

  lemma PutIdentityIds(env: Environment, updated: IdentityProfile)
    ensures IdentityIds(env.(identities := PutIdentity(env.identities, updated))) == IdentityIds(env)
  {
    var next := env.(identities := PutIdentity(env.identities, updated));
    forall x | x in IdentityIds(env) ensures x in IdentityIds(next) {
      var i :| 0 <= i < |env.identities| && env.identities[i].id == x;
      assert next.identities[i] in next.identities;
    }
    forall x | x in IdentityIds(next) ensures x in IdentityIds(env) {
      var i :| 0 <= i < |next.identities| && next.identities[i].id == x;
      assert env.identities[i] in env.identities;
    }
  }

  // ---- References and demo steps ----

  /** Every simulation run names events that exist. */
  ghost predicate Referenced(env: Environment) {
    forall run, id :: run in env.runs && id in run.generatedEventIds ==> id in IdsOf(Marks(env))
  }

  /** An active demo has its steps completed before the current one, active at it, pending after. */
  ghost predicate StepsInOrder(scenario: DemoScenario) {
    scenario.active ==>
      forall i :: 0 <= i < |scenario.steps| ==>
        scenario.steps[i].status ==
        if i < scenario.currentStep then StepCompleted
        else if i == scenario.currentStep then StepActive
        else StepPending
  }

  ghost predicate Intact(env: Environment) {
    Referenced(env) && StepsInOrder(env.demoScenario)
  }

  /** What one action may do to the environment. */
  ghost predicate Continues(env: Environment, next: Environment, newId: string) {
    Grows(env, next, newId) && (Intact(env) ==> Intact(next))
  }

  lemma ReferencesSurvive(env: Environment, next: Environment, newRuns: seq<SimulationRun>)
    requires Marks(env) <= Marks(next)
    requires next.runs == newRuns + env.runs
    requires forall run, id :: run in newRuns && id in run.generatedEventIds ==> id in IdsOf(Marks(next))
    ensures Referenced(env) ==> Referenced(next)
  {
    if Referenced(env) {
      forall run, id | run in next.runs && id in run.generatedEventIds
        ensures id in IdsOf(Marks(next))
      {
        if run in env.runs {
          assert id in IdsOf(Marks(env));
        } else {
          assert run in newRuns;
        }
      }
    }
  }

  /** An action that derives a change of neither events, identities, runs nor demo. */
  lemma DerivedContinues(derive: Deriver, env: Environment, changed: Environment, newId: string)
    requires KeepsTraces(derive)
    requires Marks(changed) == Marks(env) && IdentityIds(changed) == IdentityIds(env)
    requires changed.runs == env.runs && changed.demoScenario == env.demoScenario
    ensures Continues(env, derive(changed), newId)
  {
    assert Kept(changed, derive(changed));
    ReferencesSurvive(env, derive(changed), []);
    assert [] + env.runs == env.runs;
  }

  /** An action that derives the environment with one new event. */
  lemma PrependContinues(derive: Deriver, env: Environment, base: Environment, event: SecurityEvent)
    requires KeepsTraces(derive)
    requires Kept(env, base)
    ensures Continues(env, derive(Prepend(base, event)), event.id)
    ensures event.id in IdsOf(Marks(derive(Prepend(base, event))))
    ensures derive(Prepend(base, event)).runs == env.runs
    ensures derive(Prepend(base, event)).demoScenario == env.demoScenario
    ensures Marks(derive(Prepend(base, event))) == Marks(env) + {MarkOf(event)}
  {
    var next := derive(Prepend(base, event));
    PrependMarks(base, event);
    assert Kept(Prepend(base, event), next);
    assert MarkOf(event) in Marks(next);
    assert MarkOf(event).id == event.id;
    ReferencesSurvive(env, next, []);
    assert [] + env.runs == env.runs;
  }

  /** Adding a run that names only existing events. */
  lemma RunContinues(derive: Deriver, env: Environment, next: Environment, run: SimulationRun, newId: string)
    requires KeepsTraces(derive)
    requires Continues(env, next, newId)
    requires next.runs == env.runs && next.demoScenario == env.demoScenario
    requires forall id :: id in run.generatedEventIds ==> id in IdsOf(Marks(next))
    ensures Continues(env, derive(next.(runs := [run] + next.runs)), newId)
  {
    var added := next.(runs := [run] + next.runs);
    assert Kept(added, derive(added));
    assert Marks(added) == Marks(next) && IdentityIds(added) == IdentityIds(next);
    ReferencesSurvive(env, derive(added), [run]);
  }

  lemma SimulationContinues(derive: Deriver, s: StoreState, scenarioId: string, ids: Fresh)
    requires KeepsTraces(derive)
    ensures Continues(s.env, AfterSimulation(derive, s, scenarioId, ids).env, ids.eventId)
  {
    var base := ScenarioBase(derive, s.env, scenarioId, ids);
    if base.Some? {
      ScenarioBaseKept(derive, s.env, scenarioId, ids);
      var raised := ScenarioEvent(scenarioId);
      if raised.Some? {
        var event := CreateSecurityEvent(ids.eventId, ids.now, raised.value);
        PrependContinues(derive, s.env, base.value, event);
        RunContinues(derive, s.env, derive(Prepend(base.value, event)),
                     SimulationRun(ids.runId, scenarioId, ids.now, [ids.eventId]), ids.eventId);
      } else {
        ReferencesSurvive(s.env, base.value, []);
        assert [] + s.env.runs == s.env.runs;
        RunContinues(derive, s.env, base.value, SimulationRun(ids.runId, scenarioId, ids.now, []), ids.eventId);
      }
    }
  }

  lemma ScenarioBaseKept(derive: Deriver, env: Environment, scenarioId: string, ids: Fresh)
    requires KeepsTraces(derive)
    requires ScenarioBase(derive, env, scenarioId, ids).Some?
    ensures Kept(env, ScenarioBase(derive, env, scenarioId, ids).value)
  {
    var base := ScenarioBase(derive, env, scenarioId, ids).value;
    var request := BuildDemoRequest(env, ids);
    if scenarioId == "sim-1" {
      var changed := env.(accessRequests := [request.value] + env.accessRequests);
      assert Kept(changed, derive(changed));
      assert Kept(env, changed);
    } else if scenarioId == "sim-3" {
      var changed := env.(assets := WithoutProtection(env.assets, "asset-analytics-bucket"));
      assert Kept(changed, derive(changed));
      assert Kept(env, changed);
    }
  }

  lemma IncidentMarks(env: Environment, trap: DeceptionAsset, identity: IdentityProfile, ids: Fresh)
    ensures var incident := TriggerDeceptionAccess(trap, identity, ids.eventId, ids.now);
            && Marks(WithIncident(env, incident))
               == Marks(env) + {Mark(ids.eventId, DeceptionTriggered, Some(identity.id))}
            && IdentityIds(WithIncident(env, incident)) == IdentityIds(env)
            && WithIncident(env, incident).runs == env.runs
            && WithIncident(env, incident).demoScenario == env.demoScenario
  {
    var incident := TriggerDeceptionAccess(trap, identity, ids.eventId, ids.now);
    PrependMarks(env, incident.event);
    PutIdentityIds(env, incident.identity);
    assert WithIncident(env, incident).events == Prepend(env, incident.event).events;
    assert WithIncident(env, incident).identities
           == env.(identities := PutIdentity(env.identities, incident.identity)).identities;
  }

  /** Touching a trap leaves a trace that names the identity. */
  lemma TrapContinues(
    derive: Deriver, s: StoreState, trapId: Option<string>, identityId: Option<string>, ids: Fresh)
    requires KeepsTraces(derive)
    ensures Continues(s.env, AfterTrap(derive, s, trapId, identityId, ids).env, ids.eventId)
    ensures ChosenTrap(s.env, trapId).Some? && ChosenIdentity(s.env, identityId).Some? ==>
              Marks(AfterTrap(derive, s, trapId, identityId, ids).env)
              == Marks(s.env)
                 + {Mark(ids.eventId, DeceptionTriggered, Some(ChosenIdentity(s.env, identityId).value.id))}
  {
    var trap, identity := ChosenTrap(s.env, trapId), ChosenIdentity(s.env, identityId);
    if trap.Some? && identity.Some? {
      var incident := TriggerDeceptionAccess(trap.value, identity.value, ids.eventId, ids.now);
      var run := SimulationRun(ids.runId, "sim-4", ids.now, [ids.eventId]);
      var hit := WithIncident(s.env, incident);
      IncidentMarks(s.env, trap.value, identity.value, ids);
      var m := Mark(ids.eventId, DeceptionTriggered, Some(identity.value.id));
      assert m in Marks(hit) && m.id == ids.eventId;
      ReferencesSurvive(s.env, hit, []);
      assert [] + s.env.runs == s.env.runs;
      RunContinues(derive, s.env, hit, run, ids.eventId);
      assert Kept(hit.(runs := [run] + hit.runs), derive(hit.(runs := [run] + hit.runs)));
    }
  }

  lemma EvaluationContinues(derive: Deriver, s: StoreState, requestId: string, ids: Fresh)
    requires KeepsTraces(derive)
    ensures Continues(s.env, AfterEvaluation(derive, s, requestId, ids).env, ids.eventId)
  {
    var request := FindRequest(s.env.accessRequests, requestId);
    if request.Some? {
      var identity := FindIdentity(s.env.identities, request.value.identityId);
      var asset := FindAsset(s.env.assets, request.value.targetAssetId);
      if identity.Some? && asset.Some? {
        var evaluation := EvaluateFor(request.value, asset.value, identity.value, s.env.events);
        var changed := s.env.(accessRequests :=
          PutEvaluation(s.env.accessRequests, requestId, evaluation, StatusFor(evaluation.decision)));
        var next := derive(changed);
        assert Kept(changed, next);
        assert Kept(s.env, next);
        if RaisesEvent(evaluation.decision) {
          var event := CreateSecurityEvent(ids.eventId, ids.now,
                                           DecisionEvent(asset.value, identity.value, evaluation));
          PrependContinues(derive, s.env, next, event);
          DeriveAgain(derive, s.env, derive(Prepend(next, event)), ids.eventId);
        } else {
          DerivedContinues(derive, s.env, next, ids.eventId);
        }
      }
    }
  }

  lemma DeriveAgain(derive: Deriver, env: Environment, next: Environment, newId: string)
    requires KeepsTraces(derive)
    requires Continues(env, next, newId) && next.runs == env.runs && next.demoScenario == env.demoScenario
    ensures Continues(env, derive(next), newId)
  {
    assert Kept(next, derive(next));
    ReferencesSurvive(env, derive(next), []);
    assert [] + env.runs == env.runs;
  }

  lemma PlaybookContinues(derive: Deriver, s: StoreState, eventId: string, action: Option<SoarAction>, newId: string)
    requires KeepsTraces(derive)
    requires IdsIdentify(s.env)
    ensures Continues(s.env, AfterPlaybook(derive, s, eventId, action).env, newId)
  {
    var event := FindEvent(s.env.events, eventId);
    if event.Some? {
      var updated := match action
                     case Some(one) => RunSoarPlaybook(event.value, one)
                     case None => ExecutePlaybook(event.value);
      PlaybookKeepsMark(event.value, action);
      PutEventMarks(s.env, eventId, updated);
      DerivedContinues(derive, s.env, s.env.(events := PutEvent(s.env.events, eventId, updated)), newId);
    }
  }

  lemma StatusContinues(derive: Deriver, env: Environment, eventId: string, status: EventStatus, newId: string)
    requires KeepsTraces(derive)
    ensures Continues(env, derive(env.(events := SetStatuses(env.events, eventId, status))), newId)
  {
    var changed := env.(events := SetStatuses(env.events, eventId, status));
    SameMarks(env, changed);
    DerivedContinues(derive, env, changed, newId);
  }

  // ---- The demo scenario ----

  /** The effect of a demo step continues the environment and leaves runs and demo alone. */
  lemma DemoEffectContinues(derive: Deriver, env: Environment, stepId: string, ids: Fresh)
    requires KeepsTraces(derive)
    requires DemoEffect(derive, env, stepId, ids).Some?
    ensures var next := DemoEffect(derive, env, stepId, ids).value;
            && Grows(env, next, ids.eventId)
            && next.runs == env.runs && next.demoScenario == env.demoScenario
  {
    if stepId == "demo-2" {
      var request := BuildDemoRequest(env, ids).value;
      DerivedContinues(derive, env, env.(accessRequests := [request] + env.accessRequests), ids.eventId);
      assert Kept(env.(accessRequests := [request] + env.accessRequests),
                  derive(env.(accessRequests := [request] + env.accessRequests)));
    } else if stepId == "demo-4" {
      var asset := FindAssetNamed(env.assets, "customer-db");
      var input := Plain(HighSeverity, PolicyViolation, "Zero Trust Policy Engine", "customer-db",
                         if asset.Some? then Some(asset.value.id) else None);
      PrependContinues(derive, env, env, CreateSecurityEvent(ids.eventId, ids.now, input));
    } else if stepId == "demo-6" {
      DemoLureContinues(derive, env, ids);
    } else if stepId == "demo-7" {
      DemoTrapContinues(derive, env, ids);
    }
  }

  lemma DemoLureContinues(derive: Deriver, env: Environment, ids: Fresh)
    requires KeepsTraces(derive)
    ensures var next := DemoEffect(derive, env, "demo-6", ids).value;
            && Grows(env, next, ids.eventId)
            && next.runs == env.runs && next.demoScenario == env.demoScenario
  {
    var identity := FindIdentityNamed(env.identities, "finance-batch-svc");
    var asset := FindAssetNamed(env.assets, "admin-secrets-bucket");
    if identity.Some? && asset.Some? {
      var request := DemoLureRequest(env, asset.value, identity.value, ids);
      var changed := env.(accessRequests := [request] + env.accessRequests);
      assert Kept(changed, derive(changed));
      assert Kept(env, changed);
    }
  }

  lemma DemoTrapContinues(derive: Deriver, env: Environment, ids: Fresh)
    requires KeepsTraces(derive)
    ensures var next := DemoEffect(derive, env, "demo-7", ids).value;
            && Grows(env, next, ids.eventId)
            && next.runs == env.runs && next.demoScenario == env.demoScenario
  {
    var trap := FindTrapNamed(env.deceptions, "admin-secrets-bucket");
    var identity := FindIdentityNamed(env.identities, "finance-batch-svc");
    if trap.Some? && identity.Some? {
      var hit := WithIncident(env, TriggerDeceptionAccess(trap.value, identity.value, ids.eventId, ids.now));
      IncidentMarks(env, trap.value, identity.value, ids);
      assert Mark(ids.eventId, DeceptionTriggered, Some(identity.value.id)).id == ids.eventId;
      assert Kept(hit, derive(hit));
    }
  }

  lemma NextStepContinues(derive: Deriver, s: StoreState, ids: Fresh)
    requires KeepsTraces(derive)
    ensures Continues(s.env, AfterNextStep(derive, s, ids).env, ids.eventId)
  {
    var index := NextIndex(s.env.demoScenario);
    var applied := ApplyDemoStep(derive, s.env, index, ids);
    if applied.Some? {
      var steps := s.env.demoScenario.steps;
      if 0 <= index < |steps| && steps[index].id != "" {
        DemoEffectContinues(derive, s.env, steps[index].id, ids);
        var next := DemoEffect(derive, s.env, steps[index].id, ids).value;
        MarkedContinues(derive, s.env, next, index, ids.eventId);
      } else {
        DerivedContinues(derive, s.env, s.env, ids.eventId);
      }
    }
  }

  /** Marking the steps around a position. */
  lemma MarkedContinues(derive: Deriver, env: Environment, next: Environment, index: int, newId: string)
    requires KeepsTraces(derive)
    requires Grows(env, next, newId) && next.runs == env.runs
    ensures Continues(env, derive(next.(demoScenario := AtStep(next.demoScenario, index))), newId)
  {
    var marked := next.(demoScenario := AtStep(next.demoScenario, index));
    assert Kept(marked, derive(marked));
    assert Marks(marked) == Marks(next) && IdentityIds(marked) == IdentityIds(next);
    ReferencesSurvive(env, derive(marked), []);
    assert [] + env.runs == env.runs;
  }

  // ---- One action, and whole runs ----

  /** Actions that only edit lists no trace depends on, and derive the result. */
  predicate IsEdit(action: StoreAction) {
    || action.DecideRequest? || action.RecalculateAsset? || action.RecalculateAll?
    || action.GenerateReport? || action.ToggleRule? || action.AddRule? || action.CreateTrap?
  }

  lemma EditContinues(derive: Deriver, s: StoreState, action: StoreAction, ids: Fresh)
    requires KeepsTraces(derive)
    requires IsEdit(action)
    ensures Continues(s.env, Perform(derive, s, action, ids).env, ids.eventId)
  {
    match action
    case DecideRequest(requestId, decision) =>
      DerivedContinues(derive, s.env, s.env.(accessRequests :=
        PutDecision(s.env.accessRequests, requestId, decision)), ids.eventId);
    case RecalculateAsset(assetId) =>
      DerivedContinues(derive, s.env, s.env.(assets := PutRisk(s.env.assets, assetId, s.env.events)), ids.eventId);
    case RecalculateAll => DerivedContinues(derive, s.env, s.env, ids.eventId);
    case GenerateReport(kind) =>
      DerivedContinues(derive, s.env, s.env.(reports := ReportsAfter(s.env.reports, kind)), ids.eventId);
    case ToggleRule(ruleId) =>
      DerivedContinues(derive, s.env, s.env.(policyRules := Toggled(s.env.policyRules, ruleId)), ids.eventId);
    case AddRule =>
      DerivedContinues(derive, s.env,
                       s.env.(policyRules := [PolicyRule(ids.entryId, true)] + s.env.policyRules), ids.eventId);
    case CreateTrap =>
      DerivedContinues(derive, s.env, s.env.(deceptions := [NewTrap(s.env, ids)] + s.env.deceptions), ids.eventId);
  }

  lemma RequestContinues(derive: Deriver, s: StoreState, payload: RequestPayload, ids: Fresh)
    requires KeepsTraces(derive)
    ensures Continues(s.env, AfterRequest(derive, s, payload, ids).env, ids.eventId)
  {
    var identity := FindIdentity(s.env.identities, payload.identityId);
    var asset := FindAsset(s.env.assets, payload.targetAssetId);
    if identity.Some? && asset.Some? {
      DerivedContinues(derive, s.env, s.env.(accessRequests :=
        [NewRequest(payload, asset.value, identity.value, ids)] + s.env.accessRequests), ids.eventId);
    }
  }

  lemma PatchContinues(env: Environment, patch: ServerPatch, newId: string)
    ensures Continues(env, Patched(env, patch), newId)
  {
    var next := Patched(env, patch);
    assert next.events == env.events && next.identities == env.identities;
    ReferencesSurvive(env, next, []);
    assert [] + env.runs == env.runs;
  }

  lemma PerformContinues(derive: Deriver, s: StoreState, action: StoreAction, ids: Fresh)
    requires KeepsTraces(derive)
    requires IdsIdentify(s.env) && !Replaces(action)
    ensures Continues(s.env, Perform(derive, s, action, ids).env, ids.eventId)
  {
    if IsEdit(action) {
      EditContinues(derive, s, action, ids);
    } else {
      match action
      case RunSimulation(scenarioId) =>
        TrapContinues(derive, s, None, Some("id-finance-batch"), ids);
        SimulationContinues(derive, s, scenarioId, ids);
      case EvaluateRequest(requestId) => EvaluationContinues(derive, s, requestId, ids);
      case CreateRequest(payload) => RequestContinues(derive, s, payload, ids);
      case CreateEvent(input, timestamp) =>
        PrependContinues(derive, s.env, s.env,
                         CreateSecurityEvent(ids.eventId, OrElse(timestamp, ids.now), input));
      case SetEventStatus(eventId, status) => StatusContinues(derive, s.env, eventId, status, ids.eventId);
      case RunPlaybook(eventId, act) => PlaybookContinues(derive, s, eventId, act, ids.eventId);
      case TriggerTrap(trapId, identityId) => TrapContinues(derive, s, trapId, identityId, ids);
      case NextDemoStep => NextStepContinues(derive, s, ids);
      case PreviousDemoStep =>
        MarkedContinues(derive, s.env, s.env, PreviousIndex(s.env.demoScenario), ids.eventId);
      case Onboard(_) => DerivedContinues(derive, s.env, s.env, ids.eventId);
      case PatchFromServer(patch) => PatchContinues(s.env, patch, ids.eventId);
    }
  }
}

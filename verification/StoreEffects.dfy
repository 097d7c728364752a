/** What single local actions leave behind, in the fields a reader of the console sees: what a scenario does to
    the asset it strips, which requests it refuses, which event it records, and what a new request holds. */
module StoreEffects {
  import opened SecurityTypes
  import opened EventEngine
  import opened DeceptionEngine
  import opened EventOrder
  import opened ZeroTrustEngine
  import opened Derivation
  import opened StoreActions
  import opened StoreRuns
  import opened StoreTheorems
  import RiskEngine
  import Text

  // ---- The scenario that strips protection ----

  /** Every derivation gives an asset the risk that the events given with it call for, and reorders those only. */
  ghost predicate Assesses(derive: Deriver) {
    forall e: Environment :: Assessed(e, derive(e))
  }

  ghost predicate Assessed(env: Environment, next: Environment) {
    && multiset(next.events) == multiset(env.events)
    && |next.assets| == |env.assets|
    && forall i | 0 <= i < |env.assets| ::
         next.assets[i] == env.assets[i].(risk := RiskEngine.AssetRisk(env.assets[i], env.events))
  }

  lemma DeriveAssesses()
    ensures Assesses(Derive)
  {
    forall e: Environment ensures Assessed(e, Derive(e)) {
      DeriveOrdersEvents(e);
      forall i | 0 <= i < |e.assets|
        ensures Derive(e).assets[i] == e.assets[i].(risk := RiskEngine.AssetRisk(e.assets[i], e.events))
      {
        DeriveAssessesAssets(e, i);
      }
      DeriveKeepsEntries(e);
    }
  }

  /** The event of the scenario: critical, open, and about no asset but those its target names. */
  function StrippedEvent(ids: Fresh): SecurityEvent {
    CreateSecurityEvent(ids.eventId, ids.now,
                        Plain(CriticalSeverity, MissingEncryption, "Simulation Center", "analytics-bucket", None))
  }

  function Stripped(asset: DataAsset): DataAsset {
    asset.(encryptionEnabled := false, kmsEnabled := false)
  }

  lemma StrippedRisk(derive: Deriver, s: StoreState, ids: Fresh, k: nat)
    requires Assesses(derive)
    requires k < |s.env.assets| && s.env.assets[k].id == "asset-analytics-bucket"
    ensures var next := AfterSimulation(derive, s, "sim-3", ids).env;
            && k < |next.assets|
            && next.assets[k] == Stripped(s.env.assets[k]).(
                 risk := RiskEngine.AssetRisk(Stripped(s.env.assets[k]), [StrippedEvent(ids)] + s.env.events))
  {
    var asset := s.env.assets[k];
    var bare := s.env.(assets := WithoutProtection(s.env.assets, "asset-analytics-bucket"));
    var base := derive(bare);
    assert Assessed(bare, base);
    var noted := Prepend(base, StrippedEvent(ids));
    var next := derive(noted);
    assert Assessed(noted, next);
    var run := SimulationRun(ids.runId, "sim-3", ids.now, [ids.eventId]);
    var added := next.(runs := [run] + next.runs);
    assert Assessed(added, derive(added));
    assert AfterSimulation(derive, s, "sim-3", ids).env == derive(added);
    assert bare.assets[k] == Stripped(asset);
    assert multiset(added.events) == multiset([StrippedEvent(ids)] + base.events)
        == multiset([StrippedEvent(ids)] + s.env.events);
    SameRisk(Stripped(asset), added.assets[k], added.events, [StrippedEvent(ids)] + s.env.events);
  }

  lemma SameRisk(asset: DataAsset, scored: DataAsset, a: seq<SecurityEvent>, b: seq<SecurityEvent>)
    requires scored == asset.(risk := scored.risk) && multiset(a) == multiset(b)
    ensures RiskEngine.AssetRisk(scored, a) == RiskEngine.AssetRisk(asset, b)
  {
    RiskEngine.AssetRiskIgnoresRisk(asset, scored.risk, a);
    RiskEngine.AssetRiskPermutation(asset, a, b);
  }

  /** The asset without encryption and key management, which its risk says, and scored with 18 points for the one,
      10 for the other, and 9 for an open critical event that names it. */
  ghost predicate Exposed(was: DataAsset, score: int, now: DataAsset) {
    var named := Text.OccursIn(was.name, "analytics-bucket") || Text.OccursIn(was.path, "analytics-bucket");
    var sum := score + (if was.encryptionEnabled then 18 else 0) + (if was.kmsEnabled then 10 else 0)
               + if named then 9 else 0;
    && now.id == was.id && !now.encryptionEnabled && !now.kmsEnabled
    && NotEncrypted in now.risk.reasons && NoKms in now.risk.reasons
    && now.risk.score == if sum < 100 then sum else 100
  }

  lemma StrippedAbout(asset: DataAsset, ids: Fresh)
    ensures RiskEngine.IsAbout(StrippedEvent(ids), asset) <==>
            Text.OccursIn(asset.name, "analytics-bucket") || Text.OccursIn(asset.path, "analytics-bucket")
  {
  }

  lemma StrippingExposes(asset: DataAsset, events: seq<SecurityEvent>, ids: Fresh)
    requires !asset.isDeception
    ensures Exposed(asset, RiskEngine.AssetRisk(asset, events).score,
                    Stripped(asset).(risk := RiskEngine.AssetRisk(Stripped(asset), [StrippedEvent(ids)] + events)))
  {
    RiskEngine.ProtectionCosts(asset, events);
    RiskEngine.EventCosts(Stripped(asset), StrippedEvent(ids), events);
    StrippedAbout(Stripped(asset), ids);
    RiskEngine.AssetReasonsExactly(Stripped(asset), [StrippedEvent(ids)] + events, NotEncrypted);
    RiskEngine.AssetReasonsExactly(Stripped(asset), [StrippedEvent(ids)] + events, NoKms);
  }

  /** Running the third scenario exposes the bucket. */
  lemma StrippingCosts(fallback: bool, s: StoreState, ids: Fresh, k: nat)
    requires fallback && s.demoMode && !s.isApiMode
    requires k < |s.env.assets| && s.env.assets[k].id == "asset-analytics-bucket" && !s.env.assets[k].isDeception
    ensures var next := Step(Derive, fallback, s, RunSimulation("sim-3"), ids).env;
            && k < |next.assets|
            && Exposed(s.env.assets[k], RiskEngine.AssetRisk(s.env.assets[k], s.env.events).score, next.assets[k])
  {
    DeriveAssesses();
    StrippedRisk(Derive, s, ids, k);
    SimulationStep(Derive, fallback, s, "sim-3", ids);
    StrippingExposes(s.env.assets[k], s.env.events, ids);
  }

  lemma SimulationStep(derive: Deriver, fallback: bool, s: StoreState, scenarioId: string, ids: Fresh)
    requires fallback && s.demoMode && !s.isApiMode && scenarioId != "sim-4"
    ensures Step(derive, fallback, s, RunSimulation(scenarioId), ids) == AfterSimulation(derive, s, scenarioId, ids)
  {
  }

  // ---- The scenario that asks for an export ----

  /** A request for a risky export, refused and marked so. */
  predicate Refused(request: AccessRequest) {
    && !request.mfa && request.deviceTrust == UnknownDevice && request.requestedAction == Export
    && request.locationRisk == HighLocation && request.timeRisk == OffHours && request.anomalyScore >= 0.0
    && request.evaluation.decision in {Deny, Isolate} && request.status in {Rejected, IsolatedRequest}
  }

  /** A derivation keeps how many requests there are, and what is refused stays refused. */
  ghost predicate KeepsRefusals(derive: Deriver) {
    forall e: Environment :: RefusalsKept(e.accessRequests, derive(e).accessRequests)
  }

  ghost predicate RefusalsKept(before: seq<AccessRequest>, after: seq<AccessRequest>) {
    |after| == |before| && forall k | 0 <= k < |before| :: Refused(before[k]) ==> StillRefused(before[k], after[k])
  }

  predicate StillRefused(before: AccessRequest, after: AccessRequest) {
    after.id == before.id && after.identityName == before.identityName && Refused(after)
  }

  lemma ReevaluationRefuses(
    request: AccessRequest, identities: seq<IdentityProfile>, assets: seq<DataAsset>, events: seq<SecurityEvent>)
    requires Refused(request)
    ensures StillRefused(request, Reevaluate(request, identities, assets, events))
  {
    var identity, asset := FindIdentity(identities, request.identityId), FindAsset(assets, request.targetAssetId);
    if identity.Some? && asset.Some? {
      RiskyExportRefused(InputFor(request, asset.value, identity.value,
                                  RecentCategories(events, identity.value.id, identity.value.name)));
    }
  }

  lemma DeriveKeepsRefusals()
    ensures KeepsRefusals(Derive)
  {
    forall e: Environment ensures RefusalsKept(e.accessRequests, Derive(e).accessRequests) {
      DeriveRefuses(e);
    }
  }

  lemma DeriveRefuses(e: Environment)
    ensures RefusalsKept(e.accessRequests, Derive(e).accessRequests)
  {
    forall k | 0 <= k < |e.accessRequests| && Refused(e.accessRequests[k])
      ensures StillRefused(e.accessRequests[k], Derive(e).accessRequests[k])
    {
      DeriveEvaluates(e, k);
      ReevaluationRefuses(e.accessRequests[k], e.identities, e.assets, SortNewestFirst(e.events));
    }
  }

  lemma BuiltIsRefused(env: Environment, ids: Fresh)
    requires FindIdentityNamed(env.identities, "Emre Kaya").Some? && FindAssetNamed(env.assets, "customer-db").Some?
    requires FindIdentityNamed(env.identities, "Emre Kaya").value.anomalyScore >= 0.0
    ensures var built := BuildDemoRequest(env, ids);
            built.Some? && built.value.id == ids.requestId && built.value.identityName == "Emre Kaya"
            && Refused(built.value)
  {
    var identity := FindIdentityNamed(env.identities, "Emre Kaya").value;
    var asset := FindAssetNamed(env.assets, "customer-db").value;
    RiskyExportRefused(
      TrustInput(identity.kind, false, identity.mfaEnabled, UnknownDevice, Export, HighLocation,
                 OffHours, identity.anomalyScore, asset.classification, asset.location,
                 asset.isDeception, false, []));
  }

  /** The request the first scenario adds in front. */
  predicate AddsRefused(before: seq<AccessRequest>, after: seq<AccessRequest>, id: string) {
    && |after| == |before| + 1
    && after[0].id == id && after[0].identityName == "Emre Kaya" && Refused(after[0])
  }

  lemma RefusedThroughout(derive: Deriver, s: StoreState, ids: Fresh)
    requires KeepsRefusals(derive)
    requires FindIdentityNamed(s.env.identities, "Emre Kaya").Some?
    requires FindAssetNamed(s.env.assets, "customer-db").Some?
    requires FindIdentityNamed(s.env.identities, "Emre Kaya").value.anomalyScore >= 0.0
    ensures AddsRefused(s.env.accessRequests, AfterSimulation(derive, s, "sim-1", ids).env.accessRequests,
                        ids.requestId)
  {
    BuiltIsRefused(s.env, ids);
    var request := BuildDemoRequest(s.env, ids).value;
    var asked := s.env.(accessRequests := [request] + s.env.accessRequests);
    assert RefusalsKept(asked.accessRequests, derive(asked).accessRequests);
    var noted := Prepend(derive(asked), CreateSecurityEvent(ids.eventId, ids.now, ScenarioEvent("sim-1").value));
    assert RefusalsKept(noted.accessRequests, derive(noted).accessRequests);
    var run := SimulationRun(ids.runId, "sim-1", ids.now, [ids.eventId]);
    var added := derive(noted).(runs := [run] + derive(noted).runs);
    assert RefusalsKept(added.accessRequests, derive(added).accessRequests);
    assert AfterSimulation(derive, s, "sim-1", ids).env == derive(added);
  }

  /** The first scenario's export is never allowed: whatever the data, the identity and the events, the request it adds
      stands denied or isolated, and is marked rejected or isolated. */
  lemma ScenarioExportRefused(fallback: bool, s: StoreState, ids: Fresh)
    requires fallback && s.demoMode && !s.isApiMode
    requires FindIdentityNamed(s.env.identities, "Emre Kaya").Some?
    requires FindAssetNamed(s.env.assets, "customer-db").Some?
    requires FindIdentityNamed(s.env.identities, "Emre Kaya").value.anomalyScore >= 0.0
    ensures AddsRefused(s.env.accessRequests,
                        Step(Derive, fallback, s, RunSimulation("sim-1"), ids).env.accessRequests, ids.requestId)
  {
    DeriveKeepsRefusals();
    RefusedThroughout(Derive, s, ids);
    SimulationStep(Derive, fallback, s, "sim-1", ids);
  }

  // ---- What a scenario records ----

  /** The category of the event each scenario records; the fourth touches a trap instead. */
  predicate Records(scenarioId: string, category: EventCategory) {
    || (scenarioId == "sim-1" && category == PolicyViolation)
    || (scenarioId == "sim-2" && category == SuspiciousExport)
    || (scenarioId == "sim-3" && category == MissingEncryption)
    || (scenarioId == "sim-5" && category == ThirdPartyAnomaly)
    || (scenarioId == "sim-6" && category == Ransomware)
    || (scenarioId == "sim-7" && category == UnauthorizedAccess)
    || (scenarioId == "sim-8" && category == ApiAbuse)
    || (scenarioId == "sim-9" && category == VisibilityGap)
    || (scenarioId == "sim-10" && category == ThirdPartyAnomaly)
  }

  lemma ScenarioCategory(scenarioId: string, category: EventCategory)
    ensures Records(scenarioId, category) <==>
            ScenarioEvent(scenarioId).Some? && ScenarioEvent(scenarioId).value.category == category
  {
  }

  lemma ScenarioAboutNobody(scenarioId: string)
    requires ScenarioEvent(scenarioId).Some?
    ensures ScenarioEvent(scenarioId).value.relatedIdentityId == None
  {
  }

  lemma SimulationRecords(derive: Deriver, s: StoreState, scenarioId: string, category: EventCategory, ids: Fresh)
    requires KeepsTraces(derive)
    requires Records(scenarioId, category) && ScenarioBase(derive, s.env, scenarioId, ids).Some?
    ensures var next := AfterSimulation(derive, s, scenarioId, ids).env;
            && Marks(next) == Marks(s.env) + {Mark(ids.eventId, category, None)}
            && next.runs == [SimulationRun(ids.runId, scenarioId, ids.now, [ids.eventId])] + s.env.runs
  {
    var base := ScenarioBase(derive, s.env, scenarioId, ids).value;
    ScenarioBaseKept(derive, s.env, scenarioId, ids);
    ScenarioCategory(scenarioId, category);
    ScenarioAboutNobody(scenarioId);
    var event := CreateSecurityEvent(ids.eventId, ids.now, ScenarioEvent(scenarioId).value);
    PrependContinues(derive, s.env, base, event);
    var next := derive(Prepend(base, event));
    var added := next.(runs := [SimulationRun(ids.runId, scenarioId, ids.now, [ids.eventId])] + next.runs);
    assert Kept(added, derive(added));
    assert Marks(added) == Marks(next);
  }

  lemma SilentSimulation(derive: Deriver, s: StoreState, scenarioId: string, ids: Fresh)
    requires KeepsTraces(derive)
    requires scenarioId != "sim-4" && forall category :: !Records(scenarioId, category)
    ensures var next := AfterSimulation(derive, s, scenarioId, ids).env;
            && Marks(next) == Marks(s.env)
            && next.runs == [SimulationRun(ids.runId, scenarioId, ids.now, [])] + s.env.runs
  {
    if ScenarioEvent(scenarioId).Some? {
      ScenarioCategory(scenarioId, ScenarioEvent(scenarioId).value.category);
    }
    assert scenarioId != "sim-1" by {
      assert !Records(scenarioId, PolicyViolation);
    }
    assert scenarioId != "sim-3" by {
      assert !Records(scenarioId, MissingEncryption);
    }
    var added := s.env.(runs := [SimulationRun(ids.runId, scenarioId, ids.now, [])] + s.env.runs);
    assert Kept(added, derive(added));
    assert Marks(added) == Marks(s.env);
  }

  /** Every scenario that can run adds one run and, except for an unknown one, one event of its category under the id
      drawn for it, which the run names. */
  lemma ScenarioRecords(fallback: bool, s: StoreState, scenarioId: string, ids: Fresh)
    requires fallback && s.demoMode && !s.isApiMode && scenarioId != "sim-4"
    requires scenarioId == "sim-1" ==> BuildDemoRequest(s.env, ids).Some?
    ensures var next := Step(Derive, fallback, s, RunSimulation(scenarioId), ids).env;
            if exists category :: Records(scenarioId, category) then
              && (forall category :: Records(scenarioId, category) ==>
                    Marks(next) == Marks(s.env) + {Mark(ids.eventId, category, None)})
              && next.runs == [SimulationRun(ids.runId, scenarioId, ids.now, [ids.eventId])] + s.env.runs
            else
              && Marks(next) == Marks(s.env)
              && next.runs == [SimulationRun(ids.runId, scenarioId, ids.now, [])] + s.env.runs
  {
    DeriveKeeps();
    ScenarioRecordsAny(Derive, s, scenarioId, ids);
    SimulationStep(Derive, fallback, s, scenarioId, ids);
  }

  lemma ScenarioRecordsAny(derive: Deriver, s: StoreState, scenarioId: string, ids: Fresh)
    requires KeepsTraces(derive) && scenarioId != "sim-4"
    requires scenarioId == "sim-1" ==> BuildDemoRequest(s.env, ids).Some?
    ensures var next := AfterSimulation(derive, s, scenarioId, ids).env;
            if exists category :: Records(scenarioId, category) then
              && (forall category :: Records(scenarioId, category) ==>
                    Marks(next) == Marks(s.env) + {Mark(ids.eventId, category, None)})
              && next.runs == [SimulationRun(ids.runId, scenarioId, ids.now, [ids.eventId])] + s.env.runs
            else
              && Marks(next) == Marks(s.env)
              && next.runs == [SimulationRun(ids.runId, scenarioId, ids.now, [])] + s.env.runs
  {
    if exists category :: Records(scenarioId, category) {
      forall category | Records(scenarioId, category)
        ensures Marks(AfterSimulation(derive, s, scenarioId, ids).env)
                == Marks(s.env) + {Mark(ids.eventId, category, None)}
        ensures AfterSimulation(derive, s, scenarioId, ids).env.runs
                == [SimulationRun(ids.runId, scenarioId, ids.now, [ids.eventId])] + s.env.runs
      {
        SimulationRecords(derive, s, scenarioId, category, ids);
      }
    } else {
      SilentSimulation(derive, s, scenarioId, ids);
    }
  }

  // ---- A new request ----

  /** A new request stands in front, waiting, with the evaluation of its own signals and those of the identity and the
      asset it names, and no events. */
  ghost predicate Waits(
    request: AccessRequest, payload: RequestPayload, identity: IdentityProfile, asset: DataAsset, id: string)
  {
    && request.id == id && request.status == Pending
    && request.identityId == identity.id && request.targetAssetId == asset.id
    && request.mfa == payload.mfa && request.deviceTrust == payload.deviceTrust
    && request.requestedAction == payload.requestedAction && request.anomalyScore == payload.anomalyScore
    && request.locationRisk == payload.locationRisk && request.timeRisk == payload.timeRisk
    && request.identityType == payload.identityType
    && request.evaluation == Evaluate(Told(request, identity, asset, []))
  }

  ghost predicate KeepsPending(derive: Deriver) {
    forall e: Environment :: PendingKept(e.accessRequests, derive(e).accessRequests)
  }

  ghost predicate PendingKept(before: seq<AccessRequest>, after: seq<AccessRequest>) {
    |after| == |before| && forall k | 0 <= k < |before| :: before[k].status == Pending ==> after[k] == before[k]
  }

  lemma DeriveKeepsPending()
    ensures KeepsPending(Derive)
  {
    forall e: Environment ensures PendingKept(e.accessRequests, Derive(e).accessRequests) {
      DeriveLeavesPending(e);
    }
  }

  lemma DeriveLeavesPending(e: Environment)
    ensures PendingKept(e.accessRequests, Derive(e).accessRequests)
  {
    forall k | 0 <= k < |e.accessRequests| && e.accessRequests[k].status == Pending
      ensures Derive(e).accessRequests[k] == e.accessRequests[k]
    {
      UndecidedIsKept(e, k);
    }
  }

  lemma RequestWaits(
    derive: Deriver, fallback: bool, s: StoreState, payload: RequestPayload, ids: Fresh, identity: IdentityProfile,
    asset: DataAsset)
    requires KeepsPending(derive)
    requires fallback && s.demoMode && !s.isApiMode
    requires FindIdentity(s.env.identities, payload.identityId) == Some(identity)
    requires FindAsset(s.env.assets, payload.targetAssetId) == Some(asset)
    ensures var requests := Step(derive, fallback, s, CreateRequest(payload), ids).env.accessRequests;
            |requests| == |s.env.accessRequests| + 1 && Waits(requests[0], payload, identity, asset, ids.requestId)
  {
    var made := NewRequest(payload, asset, identity, ids);
    var asked := s.env.(accessRequests := [made] + s.env.accessRequests);
    assert PendingKept(asked.accessRequests, derive(asked).accessRequests);
    assert asked.accessRequests[0] == made;
  }

  /** Creating a request whose identity and asset exist puts it in front, waiting. */
  lemma CreatedRequestWaits(fallback: bool, s: StoreState, payload: RequestPayload, ids: Fresh, i: nat, a: nat)
    requires fallback && s.demoMode && !s.isApiMode
    requires i < |s.env.identities| && s.env.identities[i].id == payload.identityId
    requires forall j :: 0 <= j < i ==> s.env.identities[j].id != payload.identityId
    requires a < |s.env.assets| && s.env.assets[a].id == payload.targetAssetId
    requires forall j :: 0 <= j < a ==> s.env.assets[j].id != payload.targetAssetId
    ensures var requests := Step(Derive, fallback, s, CreateRequest(payload), ids).env.accessRequests;
            && |requests| == |s.env.accessRequests| + 1
            && Waits(requests[0], payload, s.env.identities[i], s.env.assets[a], ids.requestId)
  {
    FirstIdentity(s.env.identities, payload.identityId, i);
    FirstAsset(s.env.assets, payload.targetAssetId, a);
    DeriveKeepsPending();
    RequestWaits(Derive, fallback, s, payload, ids, s.env.identities[i], s.env.assets[a]);
  }

  // ---- What an evaluation records ----

  lemma NotedMarks(derive: Deriver, changed: Environment, event: SecurityEvent, raises: bool)
    requires KeepsTraces(derive)
    ensures Marks(Noted(derive, changed, event, raises)) == Marks(changed) + if raises then {MarkOf(event)} else {}
  {
    var next := derive(changed);
    assert Kept(changed, next);
    var noted := if raises then derive(Prepend(next, event)) else next;
    if raises {
      PrependMarks(next, event);
      assert Kept(Prepend(next, event), noted);
    }
    assert Kept(noted, derive(noted));
  }

  /** The trace an evaluation leaves. */
  function Trace(decision: Decision, asset: DataAsset, identity: IdentityProfile, eventId: string): set<Mark> {
    if decision in {Deny, Isolate, StepUp} then
      {Mark(eventId, if asset.isDeception then DeceptionTriggered else PolicyViolation, Some(identity.id))}
    else {}
  }

  lemma EvaluationLeavesTrace(
    derive: Deriver, s: StoreState, requestId: string, ids: Fresh, request: AccessRequest,
    identity: IdentityProfile, asset: DataAsset)
    requires KeepsTraces(derive)
    requires FindRequest(s.env.accessRequests, requestId) == Some(request)
    requires FindIdentity(s.env.identities, request.identityId) == Some(identity)
    requires FindAsset(s.env.assets, request.targetAssetId) == Some(asset)
    ensures Marks(AfterEvaluation(derive, s, requestId, ids).env)
            == Marks(s.env)
               + Trace(EvaluateFor(request, asset, identity, s.env.events).decision, asset, identity, ids.eventId)
  {
    var evaluation := EvaluateFor(request, asset, identity, s.env.events);
    var changed := s.env.(accessRequests :=
      PutEvaluation(s.env.accessRequests, requestId, evaluation, StatusFor(evaluation.decision)));
    var event := CreateSecurityEvent(ids.eventId, ids.now, DecisionEvent(asset, identity, evaluation));
    EvaluationLeaves(derive, s, requestId, ids, request, identity, asset);
    NotedMarks(derive, changed, event, RaisesEvent(evaluation.decision));
    assert Marks(changed) == Marks(s.env);
  }

  /** Evaluating a request records an event about its identity exactly when the decision is to deny, isolate or step up:
      a trap hit if the asset is a lure, and a violation of policy otherwise. */
  lemma EvaluationRecords(fallback: bool, s: StoreState, requestId: string, ids: Fresh, r: nat, i: nat, a: nat)
    returns (recent: seq<EventCategory>)
    requires fallback && s.demoMode && !s.isApiMode
    requires r < |s.env.accessRequests| && s.env.accessRequests[r].id == requestId
    requires forall j :: 0 <= j < r ==> s.env.accessRequests[j].id != requestId
    requires NamesIdentity(s.env, s.env.accessRequests[r], i) && NamesAsset(s.env, s.env.accessRequests[r], a)
    ensures ListsRecent(s.env, s.env.identities[i], recent)
    ensures Marks(Step(Derive, fallback, s, EvaluateRequest(requestId), ids).env)
            == Marks(s.env)
               + Trace(Evaluate(Told(s.env.accessRequests[r], s.env.identities[i], s.env.assets[a], recent)).decision,
                       s.env.assets[a], s.env.identities[i], ids.eventId)
  {
    var request, identity, asset := s.env.accessRequests[r], s.env.identities[i], s.env.assets[a];
    recent := RecentCategories(s.env.events, identity.id, identity.name);
    RecentListed(s.env, identity);
    FirstRequest(s.env.accessRequests, requestId, r);
    FoundByIndex(s.env, request, i, a);
    DeriveKeeps();
    EvaluationLeavesTrace(Derive, s, requestId, ids, request, identity, asset);
    EvaluateStep(Derive, fallback, s, requestId, ids);
  }

  // ---- Which trap and which identity ----

  /** The t-th trap is the first that bears the id, or the first that bears the name. */
  ghost predicate IsTrap(traps: seq<DeceptionAsset>, id: string, t: nat) {
    t < |traps| && traps[t].id == id && forall j | 0 <= j < t :: traps[j].id != id
  }

  ghost predicate IsTrapNamed(traps: seq<DeceptionAsset>, name: string, t: nat) {
    t < |traps| && traps[t].name == name && forall j | 0 <= j < t :: traps[j].name != name
  }

  ghost predicate IsIdentity(identities: seq<IdentityProfile>, id: string, i: nat) {
    i < |identities| && identities[i].id == id && forall j | 0 <= j < i :: identities[j].id != id
  }

  ghost predicate IsIdentityNamed(identities: seq<IdentityProfile>, name: string, i: nat) {
    i < |identities| && identities[i].name == name && forall j | 0 <= j < i :: identities[j].name != name
  }

  lemma {:induction false} FirstTrap(traps: seq<DeceptionAsset>, id: string, t: nat)
    requires IsTrap(traps, id, t)
    ensures FindTrap(traps, id) == Some(traps[t])
  {
    if t > 0 {
      FirstTrap(traps[1..], id, t - 1);
    }
  }

  lemma {:induction false} FirstTrapNamed(traps: seq<DeceptionAsset>, name: string, t: nat)
    requires IsTrapNamed(traps, name, t)
    ensures FindTrapNamed(traps, name) == Some(traps[t])
  {
    if t > 0 {
      FirstTrapNamed(traps[1..], name, t - 1);
    }
  }

  lemma {:induction false} FirstIdentityNamed(identities: seq<IdentityProfile>, name: string, i: nat)
    requires IsIdentityNamed(identities, name, i)
    ensures FindIdentityNamed(identities, name) == Some(identities[i])
  {
    if i > 0 {
      FirstIdentityNamed(identities[1..], name, i - 1);
    }
  }

  /** Naming a trap and an identity, and touching the one by the other, isolates that identity: after any further local
      actions every decided request of it for an existing asset stands isolated. */
  lemma TouchingIsolates(
    fallback: bool, s: StoreState, trapId: string, identityId: string, ids: Fresh,
    steps: seq<(StoreAction, Fresh)>, t: nat, i: nat)
    requires IdsIdentify(s.env) && fallback && s.demoMode && !s.isApiMode
    requires IsTrap(s.env.deceptions, trapId, t) && IsIdentity(s.env.identities, identityId, i)
    requires Ordinary(Derive, fallback, s, [(TriggerTrap(Some(trapId), Some(identityId)), ids)] + steps)
    requires NoneDirect(steps)
    ensures IsolatedEverywhere(
              Run(Derive, fallback, s, [(TriggerTrap(Some(trapId), Some(identityId)), ids)] + steps).env, identityId)
  {
    FirstTrap(s.env.deceptions, trapId, t);
    FirstIdentity(s.env.identities, identityId, i);
    OnceTrappedAlwaysIsolated(fallback, s, Some(trapId), Some(identityId), ids, steps);
  }

  /** The trace of a hit by default: where neither is named, the batch service touches the bucket of administrators'
      secrets. */
  lemma DefaultHit(fallback: bool, s: StoreState, ids: Fresh, t: nat, i: nat)
    requires fallback && s.demoMode && !s.isApiMode
    requires IsTrapNamed(s.env.deceptions, "admin-secrets-bucket", t)
    requires IsIdentityNamed(s.env.identities, "finance-batch-svc", i)
    ensures var hit := Mark(ids.eventId, DeceptionTriggered, Some(s.env.identities[i].id));
            Marks(Step(Derive, fallback, s, TriggerTrap(None, None), ids).env) == Marks(s.env) + {hit}
  {
    FirstTrapNamed(s.env.deceptions, "admin-secrets-bucket", t);
    FirstIdentityNamed(s.env.identities, "finance-batch-svc", i);
    DeriveKeeps();
    TrapContinues(Derive, s, None, None, ids);
    TriggerStep(Derive, fallback, s, None, None, ids);
  }

  // ---- The demo ----

  /** The scenario moved to a step: active, the same steps, completed before it, active at it, pending after. */
  ghost predicate MovedTo(before: DemoScenario, after: DemoScenario, index: int) {
    && after.active && after.currentStep == index && |after.steps| == |before.steps|
    && forall k | 0 <= k < |before.steps| ::
         after.steps[k].id == before.steps[k].id
         && after.steps[k].status
            == if k < index then StepCompleted else if k == index then StepActive else StepPending
  }

  /** A step that the demo can perform: it has an id, and the request of the second finds its actors. */
  ghost predicate CanPerform(env: Environment, index: nat, ids: Fresh) {
    && index < |env.demoScenario.steps| && env.demoScenario.steps[index].id != ""
    && (env.demoScenario.steps[index].id == "demo-2" ==> BuildDemoRequest(env, ids).Some?)
  }

  lemma NextStepMovesAny(derive: Deriver, s: StoreState, ids: Fresh, index: nat)
    requires KeepsTraces(derive)
    requires CanPerform(s.env, index, ids) && index == NextIndex(s.env.demoScenario)
    ensures MovedTo(s.env.demoScenario, AfterNextStep(derive, s, ids).env.demoScenario, index)
  {
    var stepId := s.env.demoScenario.steps[index].id;
    DemoEffectContinues(derive, s.env, stepId, ids);
    var next := DemoEffect(derive, s.env, stepId, ids).value;
    var marked := next.(demoScenario := AtStep(next.demoScenario, index));
    assert Kept(marked, derive(marked));
  }

  /** The demo goes on by one step and stays at its last. */
  lemma NextStepMoves(fallback: bool, s: StoreState, ids: Fresh)
    requires fallback && s.demoMode && !s.isApiMode
    requires var demo := s.env.demoScenario;
             && demo.currentStep >= 0 && |demo.steps| > 0
             && CanPerform(s.env, if demo.currentStep + 1 < |demo.steps| then demo.currentStep + 1
                                  else |demo.steps| - 1, ids)
    ensures var demo := s.env.demoScenario;
            MovedTo(demo, Step(Derive, fallback, s, NextDemoStep, ids).env.demoScenario,
                    if demo.currentStep + 1 < |demo.steps| then demo.currentStep + 1 else |demo.steps| - 1)
  {
    DeriveKeeps();
    NextStepMovesAny(Derive, s, ids, NextIndex(s.env.demoScenario));
    DemoStep(Derive, fallback, s, ids);
  }

  lemma DemoStep(derive: Deriver, fallback: bool, s: StoreState, ids: Fresh)
    requires fallback && s.demoMode && !s.isApiMode
    ensures Step(derive, fallback, s, NextDemoStep, ids) == AfterNextStep(derive, s, ids)
  {
  }

  /** It goes back by one step and stays at its first. */
  lemma PreviousStepMoves(fallback: bool, s: StoreState, ids: Fresh)
    requires fallback && s.demoMode && !s.isApiMode
    ensures var demo := s.env.demoScenario;
            MovedTo(demo, Step(Derive, fallback, s, PreviousDemoStep, ids).env.demoScenario,
                    if demo.currentStep >= 1 then demo.currentStep - 1 else 0)
  {
    DeriveKeeps();
    PreviousStepMovesAny(Derive, fallback, s, ids);
  }

  lemma PreviousStepMovesAny(derive: Deriver, fallback: bool, s: StoreState, ids: Fresh)
    requires KeepsTraces(derive) && fallback && s.demoMode && !s.isApiMode
    ensures var demo := s.env.demoScenario;
            MovedTo(demo, Step(derive, fallback, s, PreviousDemoStep, ids).env.demoScenario,
                    if demo.currentStep >= 1 then demo.currentStep - 1 else 0)
  {
    var marked := s.env.(demoScenario := AtStep(s.env.demoScenario, PreviousIndex(s.env.demoScenario)));
    assert Kept(marked, derive(marked));
  }

  lemma SeventhStepRecords(derive: Deriver, s: StoreState, ids: Fresh, index: nat, t: nat, i: nat)
    requires KeepsTraces(derive)
    requires index < |s.env.demoScenario.steps| && s.env.demoScenario.steps[index].id == "demo-7"
    requires index == NextIndex(s.env.demoScenario)
    requires IsTrapNamed(s.env.deceptions, "admin-secrets-bucket", t)
    requires IsIdentityNamed(s.env.identities, "finance-batch-svc", i)
    ensures var next := AfterNextStep(derive, s, ids).env;
            && Marks(next) == Marks(s.env) + {Mark(ids.eventId, DeceptionTriggered, Some(s.env.identities[i].id))}
            && IdentityIds(next) == IdentityIds(s.env)
  {
    FirstTrapNamed(s.env.deceptions, "admin-secrets-bucket", t);
    FirstIdentityNamed(s.env.identities, "finance-batch-svc", i);
    var trap, identity := s.env.deceptions[t], s.env.identities[i];
    var hit := WithIncident(s.env, TriggerDeceptionAccess(trap, identity, ids.eventId, ids.now));
    IncidentMarks(s.env, trap, identity, ids);
    assert Kept(hit, derive(hit));
    var marked := derive(hit).(demoScenario := AtStep(derive(hit).demoScenario, index));
    assert Kept(marked, derive(marked));
    assert Marks(marked) == Marks(derive(hit)) && IdentityIds(marked) == IdentityIds(derive(hit));
  }

  ghost predicate GivesConsistent(derive: Deriver) {
    forall e: Environment :: Consistent(derive(e))
  }

  lemma DeriveGivesConsistent()
    ensures GivesConsistent(Derive)
  {
    forall e: Environment ensures Consistent(Derive(e)) {
      DeriveConsistent(e);
    }
  }

  lemma NextStepDerives(derive: Deriver, s: StoreState, ids: Fresh)
    requires GivesConsistent(derive)
    requires ApplyDemoStep(derive, s.env, NextIndex(s.env.demoScenario), ids).Some?
    ensures Consistent(AfterNextStep(derive, s, ids).env)
  {
    var next := ApplyDemoStep(derive, s.env, NextIndex(s.env.demoScenario), ids).value;
    assert Consistent(derive(next));
  }

  lemma HitIsTrapped(env: Environment, next: Environment, id: string, eventId: string)
    requires Marks(next) == Marks(env) + {Mark(eventId, DeceptionTriggered, Some(id))}
    requires IdentityIds(next) == IdentityIds(env) && id in IdentityIds(env)
    ensures Trapped(next, id)
  {
    assert Mark(eventId, DeceptionTriggered, Some(id)) in Marks(next);
  }

  lemma SeventhStepIsolatesAny(derive: Deriver, s: StoreState, ids: Fresh, index: nat, t: nat, i: nat)
    requires KeepsTraces(derive) && GivesConsistent(derive)
    requires index < |s.env.demoScenario.steps| && s.env.demoScenario.steps[index].id == "demo-7"
    requires index == NextIndex(s.env.demoScenario)
    requires IsTrapNamed(s.env.deceptions, "admin-secrets-bucket", t)
    requires IsIdentityNamed(s.env.identities, "finance-batch-svc", i)
    ensures IsolatedEverywhere(AfterNextStep(derive, s, ids).env, s.env.identities[i].id)
  {
    var id, next := s.env.identities[i].id, AfterNextStep(derive, s, ids).env;
    SeventhStepRecords(derive, s, ids, index, t, i);
    HitIsTrapped(s.env, next, id, ids.eventId);
    NextStepDerives(derive, s, ids);
    TrappedIsIsolated(next, id);
  }

  /** The demo's seventh step lets the batch service touch the trap, and isolates its decided requests at once. */
  lemma SeventhStepIsolates(fallback: bool, s: StoreState, ids: Fresh, index: nat, t: nat, i: nat)
    requires fallback && s.demoMode && !s.isApiMode
    requires index < |s.env.demoScenario.steps| && s.env.demoScenario.steps[index].id == "demo-7"
    requires s.env.demoScenario.currentStep + 1 == index
    requires IsTrapNamed(s.env.deceptions, "admin-secrets-bucket", t)
    requires IsIdentityNamed(s.env.identities, "finance-batch-svc", i)
    ensures IsolatedEverywhere(Step(Derive, fallback, s, NextDemoStep, ids).env, s.env.identities[i].id)
  {
    DeriveKeeps();
    DeriveGivesConsistent();
    SeventhStepIsolatesAny(Derive, s, ids, index, t, i);
    DemoStep(Derive, fallback, s, ids);
  }

  // ---- Events and rules set by hand ----

  lemma StatusSetAny(derive: Deriver, fallback: bool, s: StoreState, id: string, status: EventStatus, ids: Fresh)
    requires Assesses(derive) && fallback && s.demoMode && !s.isApiMode
    ensures StatusSetTo(s.env.events, Step(derive, fallback, s, SetEventStatus(id, status), ids).env.events, id, status)
  {
    var changed := s.env.(events := SetStatuses(s.env.events, id, status));
    assert Assessed(changed, derive(changed));
    SameEntries(changed.events, derive(changed).events);
    StatusesSet(s.env.events, id, status);
  }

  lemma SameEntries(a: seq<SecurityEvent>, b: seq<SecurityEvent>)
    requires multiset(a) == multiset(b)
    ensures |a| == |b| && forall e :: e in a <==> e in b
  {
    assert |a| == |multiset(a)| == |multiset(b)| == |b|;
    assert forall e :: e in a <==> e in multiset(a);
    assert forall e :: e in b <==> e in multiset(b);
  }

  ghost predicate StatusSetTo(
    before: seq<SecurityEvent>, after: seq<SecurityEvent>, id: string, status: EventStatus)
  {
    && |after| == |before|
    && (forall e :: e in after && e.id == id ==> e.status == status)
    && (forall e: SecurityEvent :: e.id != id ==> (e in after <==> e in before))
    && ((exists e :: e in after && e.id == id) <==> exists e :: e in before && e.id == id)
  }

  lemma StatusesSet(events: seq<SecurityEvent>, id: string, status: EventStatus)
    ensures StatusSetTo(events, SetStatuses(events, id, status), id, status)
  {
    var after := SetStatuses(events, id, status);
    forall e: SecurityEvent | e.id != id && e in events ensures e in after {
      var k :| 0 <= k < |events| && events[k] == e;
      assert after[k] == e;
    }
    if e :| e in events && e.id == id {
      var k :| 0 <= k < |events| && events[k] == e;
      assert after[k] in after && after[k].id == id;
    }
  }

  /** Setting an event's status sets that of every event of the id, and touches no other event. */
  lemma StatusIsSet(fallback: bool, s: StoreState, id: string, status: EventStatus, ids: Fresh)
    requires fallback && s.demoMode && !s.isApiMode
    ensures StatusSetTo(s.env.events, Step(Derive, fallback, s, SetEventStatus(id, status), ids).env.events, id, status)
  {
    DeriveAssesses();
    StatusSetAny(Derive, fallback, s, id, status, ids);
  }

  /** In server mode, or without a demo, a local action changes nothing; only one that creates an event by hand, puts
      another environment in place, or brings what the server said, does. */
  lemma ServerModeIsUntouched(fallback: bool, s: StoreState, action: StoreAction, ids: Fresh)
    requires s.isApiMode || !s.demoMode || !fallback
    requires !action.CreateEvent? && !action.StartDemo? && !action.Reset? && !action.Onboard?
    requires !action.LogOut? && !action.LoadFromServer? && !action.PatchFromServer?
    ensures Step(Derive, fallback, s, action, ids) == s
  {
    UntouchedAny(Derive, fallback, s, action, ids);
  }

  lemma UntouchedAny(derive: Deriver, fallback: bool, s: StoreState, action: StoreAction, ids: Fresh)
    requires s.isApiMode || !s.demoMode || !fallback
    requires !action.CreateEvent? && !action.StartDemo? && !action.Reset? && !action.Onboard?
    requires !action.LogOut? && !action.LoadFromServer? && !action.PatchFromServer?
    ensures Step(derive, fallback, s, action, ids) == s
  {
  }
}

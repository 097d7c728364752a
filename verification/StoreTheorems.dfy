/** The promises of the store over whole runs of local actions. */
module StoreTheorems {
  import opened SecurityTypes
  import opened DeceptionEngine
  import opened Derivation
  import opened EventEngine
  import opened StoreActions
  import opened StoreRuns
  import opened ZeroTrustEngine
  import EventOrder
  import RiskEngine

  // ---- What an action leaves is what was there, or derived, or placed directly ----

  /** The action changed nothing, or what it left has what every derivation gives. */
  ghost predicate LeavesDerived(holds: Environment -> bool, s: StoreState, next: StoreState) {
    next.env == s.env || holds(next.env)
  }

  lemma EditDerives(
    derive: Deriver, holds: Environment -> bool, s: StoreState, action: StoreAction, ids: Fresh)
    requires forall env :: holds(derive(env))
    requires IsEdit(action)
    ensures LeavesDerived(holds, s, Perform(derive, s, action, ids))
  {
  }

  lemma DemoDerives(
    derive: Deriver, holds: Environment -> bool, s: StoreState, action: StoreAction, ids: Fresh)
    requires forall env :: holds(derive(env))
    requires action.NextDemoStep? || action.PreviousDemoStep? || action.StartDemo? || action.Reset?
    ensures LeavesDerived(holds, s, Perform(derive, s, action, ids))
  {
  }

  predicate IsEventAction(action: StoreAction) {
    action.CreateEvent? || action.SetEventStatus? || action.RunPlaybook? || action.TriggerTrap?
  }

  lemma EventDerives(
    derive: Deriver, holds: Environment -> bool, s: StoreState, action: StoreAction, ids: Fresh)
    requires forall env :: holds(derive(env))
    requires IsEventAction(action)
    ensures LeavesDerived(holds, s, Perform(derive, s, action, ids))
  {
  }

  lemma SimulationDerives(
    derive: Deriver, holds: Environment -> bool, s: StoreState, scenarioId: string, ids: Fresh)
    requires forall env :: holds(derive(env))
    ensures LeavesDerived(holds, s, AfterSimulation(derive, s, scenarioId, ids))
    ensures LeavesDerived(holds, s, AfterTrap(derive, s, None, Some("id-finance-batch"), ids))
  {
  }

  lemma RequestDerives(
    derive: Deriver, holds: Environment -> bool, s: StoreState, action: StoreAction, ids: Fresh)
    requires forall env :: holds(derive(env))
    requires action.EvaluateRequest? || action.CreateRequest? || action.Onboard?
    ensures LeavesDerived(holds, s, Perform(derive, s, action, ids))
  {
  }

  lemma PerformDerives(
    derive: Deriver, holds: Environment -> bool, s: StoreState, action: StoreAction, ids: Fresh)
    requires forall env :: holds(derive(env))
    requires !IsDirect(action)
    ensures LeavesDerived(holds, s, Perform(derive, s, action, ids))
  {
    if IsEdit(action) {
      EditDerives(derive, holds, s, action, ids);
    } else if IsEventAction(action) {
      EventDerives(derive, holds, s, action, ids);
    } else if action.NextDemoStep? || action.PreviousDemoStep? || action.StartDemo? || action.Reset? {
      DemoDerives(derive, holds, s, action, ids);
    } else if action.RunSimulation? {
      SimulationDerives(derive, holds, s, action.scenarioId, ids);
    } else {
      RequestDerives(derive, holds, s, action, ids);
    }
  }

  lemma StepDerives(
    derive: Deriver, holds: Environment -> bool, fallback: bool, s: StoreState, action: StoreAction, ids: Fresh)
    requires forall env :: holds(derive(env))
    requires !IsDirect(action)
    ensures LeavesDerived(holds, s, Step(derive, fallback, s, action, ids))
  {
    PerformDerives(derive, holds, s, action, ids);
  }

  lemma StepPlaces(derive: Deriver, fallback: bool, s: StoreState, action: StoreAction, ids: Fresh)
    requires IsDirect(action)
    ensures Step(derive, fallback, s, action, ids).env == PlacedDirectly(s.env, action)
  {
  }

  // ---- Where the environment of a run comes from ----

  /** The last step of a run that placed an environment: none, one that derived it, or one that did not. */
  datatype Origin = Untouched | Derived | Placed(env: Environment)

  ghost function OriginAfter(
    derive: Deriver, fallback: bool, s: StoreState, action: StoreAction, ids: Fresh, origin: Origin): Origin
  {
    if IsDirect(action) then Placed(PlacedDirectly(s.env, action))
    else if Step(derive, fallback, s, action, ids).env == s.env then origin
    else Derived
  }

  ghost function RunOrigin(
    derive: Deriver, fallback: bool, s: StoreState, steps: seq<(StoreAction, Fresh)>, origin: Origin): Origin
    decreases |steps|
  {
    if steps == [] then origin
    else
      var (action, ids) := steps[0];
      RunOrigin(derive, fallback, Step(derive, fallback, s, action, ids), steps[1..],
                OriginAfter(derive, fallback, s, action, ids, origin))
  }

  /** What can be said of an environment from its origin alone. */
  ghost predicate Vouched(holds: Environment -> bool, start: Environment, origin: Origin) {
    match origin
    case Untouched => holds(start)
    case Derived => true
    case Placed(env) => holds(env)
  }

  /** Whatever every derivation gives, a run ends with exactly when its origin vouches for it. */
  lemma {:induction false} RunVouched(
    derive: Deriver, holds: Environment -> bool, fallback: bool, start: Environment,
    s: StoreState, steps: seq<(StoreAction, Fresh)>, origin: Origin)
    requires forall env :: holds(derive(env))
    requires holds(s.env) <==> Vouched(holds, start, origin)
    ensures holds(Run(derive, fallback, s, steps).env) <==>
            Vouched(holds, start, RunOrigin(derive, fallback, s, steps, origin))
    decreases |steps|
  {
    if steps != [] {
      var (action, ids) := steps[0];
      var next := Step(derive, fallback, s, action, ids);
      if IsDirect(action) {
        StepPlaces(derive, fallback, s, action, ids);
      } else {
        StepDerives(derive, holds, fallback, s, action, ids);
      }
      RunVouched(derive, holds, fallback, start, next, steps[1..],
                 OriginAfter(derive, fallback, s, action, ids, origin));
    }
  }

  /** A run ends in agreement with itself exactly when the last step that placed an environment derived it, or
      placed one that agreed with itself already, or there was no such step and the start agreed. */
  lemma RunConsistentExactly(fallback: bool, s: StoreState, steps: seq<(StoreAction, Fresh)>)
    ensures Consistent(Run(Derive, fallback, s, steps).env) <==>
            match RunOrigin(Derive, fallback, s, steps, Untouched)
            case Untouched => Consistent(s.env)
            case Derived => true
            case Placed(env) => Consistent(env)
  {
    ghost var holds := (env: Environment) => Consistent(env);
    forall env ensures holds(Derive(env)) {
      DeriveConsistent(env);
    }
    RunVouched(Derive, holds, fallback, s.env, s, steps, Untouched);
  }

  /** A run whose last environment was placed directly ends with exactly that environment. */
  lemma {:induction false} RunEndsPlaced(
    derive: Deriver, fallback: bool, s: StoreState, steps: seq<(StoreAction, Fresh)>, origin: Origin)
    requires origin.Placed? ==> s.env == origin.env
    ensures var end := RunOrigin(derive, fallback, s, steps, origin);
            end.Placed? ==> Run(derive, fallback, s, steps).env == end.env
    decreases |steps|
  {
    if steps != [] {
      var (action, ids) := steps[0];
      if IsDirect(action) {
        StepPlaces(derive, fallback, s, action, ids);
      }
      RunEndsPlaced(derive, fallback, Step(derive, fallback, s, action, ids), steps[1..],
                    OriginAfter(derive, fallback, s, action, ids, origin));
    }
  }

  ghost predicate NoneDirect(steps: seq<(StoreAction, Fresh)>) {
    forall i | 0 <= i < |steps| :: !IsDirect(steps[i].0)
  }

  lemma {:induction false} DerivedOrigin(
    derive: Deriver, fallback: bool, s: StoreState, steps: seq<(StoreAction, Fresh)>, origin: Origin)
    requires NoneDirect(steps) && !origin.Placed?
    ensures !RunOrigin(derive, fallback, s, steps, origin).Placed?
    ensures origin.Derived? ==> RunOrigin(derive, fallback, s, steps, origin).Derived?
    decreases |steps|
  {
    if steps != [] {
      var (action, ids) := steps[0];
      DerivedOrigin(derive, fallback, Step(derive, fallback, s, action, ids), steps[1..],
                    OriginAfter(derive, fallback, s, action, ids, origin));
    }
  }

  /** In every state that deriving actions reach from a consistent one, the stored risks, evaluations,
      compliance scores and event order are the ones the base values give. */
  lemma RunStaysConsistent(fallback: bool, s: StoreState, steps: seq<(StoreAction, Fresh)>)
    requires Consistent(s.env) && NoneDirect(steps)
    ensures Consistent(Run(Derive, fallback, s, steps).env)
  {
    RunConsistentExactly(fallback, s, steps);
    DerivedOrigin(Derive, fallback, s, steps, Untouched);
  }

  /** The store as it is constructed. */
  function Start(foundation: Environment): StoreState {
    StoreState(Derive(foundation), false, false, None)
  }

  /** From the store's construction on, whatever it was founded on: a run ends in agreement exactly unless the
      last environment placed was placed directly and did not agree with itself. */
  lemma StoreConsistentExactly(fallback: bool, foundation: Environment, steps: seq<(StoreAction, Fresh)>)
    ensures var origin := RunOrigin(Derive, fallback, Start(foundation), steps, Untouched);
            Consistent(Run(Derive, fallback, Start(foundation), steps).env)
            <==> (origin.Placed? ==> Consistent(origin.env))
  {
    DeriveConsistent(foundation);
    RunConsistentExactly(fallback, Start(foundation), steps);
  }

  /** Logging out breaks the agreement whenever the foundation's events are not newest first. */
  lemma LogOutDisagrees(fallback: bool, s: StoreState, foundation: Environment, ids: Fresh)
    requires !EventOrder.NewestFirst(foundation.events)
    ensures !Consistent(Run(Derive, fallback, s, [(LogOut(foundation), ids)]).env)
  {
    RunOfOne(Derive, fallback, s, LogOut(foundation), ids);
    StepPlaces(Derive, fallback, s, LogOut(foundation), ids);
  }

  lemma RunOfOne(derive: Deriver, fallback: bool, s: StoreState, action: StoreAction, ids: Fresh)
    ensures Run(derive, fallback, s, [(action, ids)]) == Step(derive, fallback, s, action, ids)
  {
    assert [(action, ids)][1..] == [];
  }

  function EventAt(id: string, timestamp: int): SecurityEvent {
    SecurityEvent(id, HighSeverity, PolicyViolation, "", "", timestamp, Open, Text(""), [], [], None, None)
  }

  /** A list of events in an order like the demo's, whose first ones are of 03:40, 04:59 and 06:20. */
  function OldestFirst(): seq<SecurityEvent> {
    [EventAt("a", 340), EventAt("b", 459), EventAt("c", 620)]
  }

  lemma NotNewestFirst()
    ensures !EventOrder.NewestFirst(OldestFirst())
  {
    assert OldestFirst()[0].timestamp < OldestFirst()[1].timestamp;
  }

  /** The run that shows it: founded on such events, the store agrees with itself until the user logs out. */
  lemma LogOutRun(fallback: bool, base: Environment, ids: Fresh)
    ensures var foundation := base.(events := OldestFirst());
            && Consistent(Start(foundation).env)
            && !Consistent(Run(Derive, fallback, Start(foundation), [(LogOut(foundation), ids)]).env)
  {
    var foundation := base.(events := OldestFirst());
    DeriveConsistent(foundation);
    NotNewestFirst();
    LogOutDisagrees(fallback, Start(foundation), foundation, ids);
  }

  /** Making reports again leaves the store as recalculating it does: the derivation makes the whole set. */
  lemma ReportIsRecalculation(fallback: bool, s: StoreState, kind: Option<ReportType>, ids: Fresh)
    ensures Step(Derive, fallback, s, GenerateReport(kind), ids) == Step(Derive, fallback, s, RecalculateAll, ids)
  {
    DeriveIgnoresReports(s.env, ReportsAfter(s.env.reports, kind));
    ReportSteps(Derive, fallback, s, kind, ids);
  }

  lemma ReportSteps(derive: Deriver, fallback: bool, s: StoreState, kind: Option<ReportType>, ids: Fresh)
    requires derive(s.env.(reports := ReportsAfter(s.env.reports, kind))) == derive(s.env)
    ensures Step(derive, fallback, s, GenerateReport(kind), ids) == Step(derive, fallback, s, RecalculateAll, ids)
  {
  }

  // ---- What a decision does to a request's status ----

  /** The status that goes with a decision, each exactly. */
  predicate StatusSays(status: RequestStatus, decision: Decision) {
    && (status == Approved <==> decision == Allow || decision == LimitedAllow)
    && (status == StepUpPending <==> decision == StepUp)
    && (status == Rejected <==> decision == Deny)
    && (status == IsolatedRequest <==> decision == Isolate)
    && status != Pending
  }

  /** Derivations change neither the ids nor the statuses of requests. */
  ghost predicate KeepsStatuses(derive: Deriver) {
    forall e: Environment :: SameStatuses(e.accessRequests, derive(e).accessRequests)
  }

  ghost predicate SameStatuses(before: seq<AccessRequest>, after: seq<AccessRequest>) {
    && |after| == |before|
    && forall k | 0 <= k < |before| :: after[k].id == before[k].id && after[k].status == before[k].status
  }

  lemma DeriveKeepsStatuses()
    ensures KeepsStatuses(Derive)
  {
    forall e: Environment ensures SameStatuses(e.accessRequests, Derive(e).accessRequests) {
      StatusesKept(e);
    }
  }

  lemma StatusesKept(e: Environment)
    ensures SameStatuses(e.accessRequests, Derive(e).accessRequests)
  {
    forall k | 0 <= k < |e.accessRequests|
      ensures Derive(e).accessRequests[k].id == e.accessRequests[k].id
      ensures Derive(e).accessRequests[k].status == e.accessRequests[k].status
    {
      DeriveEvaluates(e, k);
    }
  }

  /** The requests of an id have the status that goes with a decision, and all others the one they had. */
  ghost predicate Decided(
    before: seq<AccessRequest>, after: seq<AccessRequest>, requestId: string, decision: Decision)
  {
    && |after| == |before|
    && forall k | 0 <= k < |before| ::
         if before[k].id == requestId then StatusSays(after[k].status, decision)
         else after[k].status == before[k].status
  }

  lemma DecisionTakes(
    derive: Deriver, fallback: bool, s: StoreState, requestId: string, decision: Decision, ids: Fresh)
    requires KeepsStatuses(derive)
    requires fallback && s.demoMode && !s.isApiMode
    ensures Decided(s.env.accessRequests,
                    Step(derive, fallback, s, DecideRequest(requestId, decision), ids).env.accessRequests,
                    requestId, decision)
  {
    var changed := s.env.(accessRequests := PutDecision(s.env.accessRequests, requestId, decision));
    assert SameStatuses(changed.accessRequests, derive(changed).accessRequests);
  }

  lemma EvaluationTakes(
    derive: Deriver, s: StoreState, requestId: string, ids: Fresh, request: AccessRequest,
    identity: IdentityProfile, asset: DataAsset)
    requires KeepsStatuses(derive)
    requires FindRequest(s.env.accessRequests, requestId) == Some(request)
    requires FindIdentity(s.env.identities, request.identityId) == Some(identity)
    requires FindAsset(s.env.assets, request.targetAssetId) == Some(asset)
    ensures Decided(s.env.accessRequests, AfterEvaluation(derive, s, requestId, ids).env.accessRequests,
                    requestId, EvaluateFor(request, asset, identity, s.env.events).decision)
  {
    var evaluation := EvaluateFor(request, asset, identity, s.env.events);
    var changed := s.env.(accessRequests :=
      PutEvaluation(s.env.accessRequests, requestId, evaluation, StatusFor(evaluation.decision)));
    var event := CreateSecurityEvent(ids.eventId, ids.now, DecisionEvent(asset, identity, evaluation));
    PutDecides(s.env.accessRequests, requestId, evaluation);
    NotedKeeps(derive, changed, event, RaisesEvent(evaluation.decision));
    EvaluationLeaves(derive, s, requestId, ids, request, identity, asset);
  }

  /** The environment an evaluation leaves. */
  function Noted(derive: Deriver, changed: Environment, event: SecurityEvent, raises: bool): Environment {
    derive(if raises then derive(Prepend(derive(changed), event)) else derive(changed))
  }

  lemma NotedKeeps(derive: Deriver, changed: Environment, event: SecurityEvent, raises: bool)
    requires KeepsStatuses(derive)
    ensures SameStatuses(changed.accessRequests, Noted(derive, changed, event, raises).accessRequests)
  {
    var next := derive(changed);
    var noted := if raises then derive(Prepend(next, event)) else next;
    assert SameStatuses(changed.accessRequests, next.accessRequests);
    assert SameStatuses(Prepend(next, event).accessRequests, derive(Prepend(next, event)).accessRequests);
    assert SameStatuses(noted.accessRequests, derive(noted).accessRequests);
  }

  lemma PutDecides(requests: seq<AccessRequest>, requestId: string, evaluation: Evaluation)
    ensures Decided(requests, PutEvaluation(requests, requestId, evaluation, StatusFor(evaluation.decision)),
                    requestId, evaluation.decision)
  {
  }

  lemma EvaluationLeaves(
    derive: Deriver, s: StoreState, requestId: string, ids: Fresh, request: AccessRequest,
    identity: IdentityProfile, asset: DataAsset)
    requires FindRequest(s.env.accessRequests, requestId) == Some(request)
    requires FindIdentity(s.env.identities, request.identityId) == Some(identity)
    requires FindAsset(s.env.assets, request.targetAssetId) == Some(asset)
    ensures var evaluation := EvaluateFor(request, asset, identity, s.env.events);
            AfterEvaluation(derive, s, requestId, ids).env
            == Noted(derive,
                     s.env.(accessRequests := PutEvaluation(s.env.accessRequests, requestId, evaluation,
                                                            StatusFor(evaluation.decision))),
                     CreateSecurityEvent(ids.eventId, ids.now, DecisionEvent(asset, identity, evaluation)),
                     RaisesEvent(evaluation.decision))
  {
  }

  /** A decision by hand gives every request of the id the status that goes with it, and leaves the others'. */
  lemma DecisionSetsStatus(fallback: bool, s: StoreState, requestId: string, decision: Decision, ids: Fresh)
    requires fallback && s.demoMode && !s.isApiMode
    ensures Decided(s.env.accessRequests,
                    Step(Derive, fallback, s, DecideRequest(requestId, decision), ids).env.accessRequests,
                    requestId, decision)
  {
    DeriveKeepsStatuses();
    DecisionTakes(Derive, fallback, s, requestId, decision, ids);
  }

  /** Evaluating a request, the first of its id, gives it the status that goes with the engine's decision on its own
      signals, those of the identity and asset it names and the identity's events; others keep theirs. */
  lemma EvaluationSetsStatus(fallback: bool, s: StoreState, requestId: string, ids: Fresh, r: nat, i: nat, a: nat)
    returns (recent: seq<EventCategory>)
    requires fallback && s.demoMode && !s.isApiMode
    requires r < |s.env.accessRequests| && s.env.accessRequests[r].id == requestId
    requires forall j :: 0 <= j < r ==> s.env.accessRequests[j].id != requestId
    requires NamesIdentity(s.env, s.env.accessRequests[r], i) && NamesAsset(s.env, s.env.accessRequests[r], a)
    ensures ListsRecent(s.env, s.env.identities[i], recent)
    ensures Decided(s.env.accessRequests,
                    Step(Derive, fallback, s, EvaluateRequest(requestId), ids).env.accessRequests, requestId,
                    Evaluate(Told(s.env.accessRequests[r], s.env.identities[i], s.env.assets[a], recent)).decision)
  {
    var request, identity, asset := s.env.accessRequests[r], s.env.identities[i], s.env.assets[a];
    recent := RecentCategories(s.env.events, identity.id, identity.name);
    RecentListed(s.env, identity);
    FirstRequest(s.env.accessRequests, requestId, r);
    FoundByIndex(s.env, request, i, a);
    DeriveKeepsStatuses();
    EvaluationTakes(Derive, s, requestId, ids, request, identity, asset);
    EvaluateStep(Derive, fallback, s, requestId, ids);
  }

  lemma RecentListed(env: Environment, identity: IdentityProfile)
    ensures ListsRecent(env, identity, RecentCategories(env.events, identity.id, identity.name))
  {
    forall category
      ensures category in RecentCategories(env.events, identity.id, identity.name)
              <==> HasRecent(env, identity, category)
    {
      RecentExactly(env.events, identity.id, identity.name, category);
    }
  }

  lemma {:induction false} FirstRequest(requests: seq<AccessRequest>, id: string, r: nat)
    requires r < |requests| && requests[r].id == id && forall j :: 0 <= j < r ==> requests[j].id != id
    ensures FindRequest(requests, id) == Some(requests[r])
  {
    if r > 0 {
      FirstRequest(requests[1..], id, r - 1);
    }
  }

  lemma EvaluateStep(derive: Deriver, fallback: bool, s: StoreState, requestId: string, ids: Fresh)
    requires fallback && s.demoMode && !s.isApiMode
    ensures Step(derive, fallback, s, EvaluateRequest(requestId), ids) == AfterEvaluation(derive, s, requestId, ids)
  {
  }

  // ---- Traps ----

  /** Some recorded event says that this identity hit a trap, and the identity is known. */
  ghost predicate Trapped(env: Environment, id: string) {
    id in IdentityIds(env) && exists m :: m in Marks(env) && m.category == DeceptionTriggered && m.about == Some(id)
  }

  predicate MustIsolate(env: Environment, id: string, k: nat)
    requires k < |env.accessRequests|
  {
    var request := env.accessRequests[k];
    request.identityId == id && request.status != Pending && FindAsset(env.assets, request.targetAssetId).Some?
  }

  /** Every decided request of the identity for an asset that exists is evaluated as `Isolate`. */
  ghost predicate IsolatedEverywhere(env: Environment, id: string) {
    forall k | 0 <= k < |env.accessRequests| :: MustIsolate(env, id, k) ==>
      env.accessRequests[k].evaluation.decision == Isolate
  }

  lemma TrappedIsIsolated(env: Environment, id: string)
    requires Consistent(env) && Trapped(env, id)
    ensures IsolatedEverywhere(env, id)
  {
    forall k | 0 <= k < |env.accessRequests| && MustIsolate(env, id, k)
      ensures env.accessRequests[k].evaluation.decision == Isolate
    {
      RequestIsolated(env, id, k);
    }
  }

  lemma RequestIsolated(env: Environment, id: string, k: nat)
    requires Consistent(env) && Trapped(env, id)
    requires k < |env.accessRequests| && MustIsolate(env, id, k)
    ensures env.accessRequests[k].evaluation.decision == Isolate
  {
    TrappedEvaluation(env, id, env.accessRequests[k]);
  }

  lemma TrappedEvaluation(env: Environment, id: string, r: AccessRequest)
    requires Trapped(env, id) && r.identityId == id && r.status != Pending
    requires FindAsset(env.assets, r.targetAssetId).Some?
    ensures Reevaluate(r, env.identities, env.assets, env.events).evaluation.decision == Isolate
  {
    assert exists i :: i in env.identities && i.id == id;
    var identity := FindIdentity(env.identities, id).value;
    var asset := FindAsset(env.assets, r.targetAssetId).value;
    var m :| m in Marks(env) && m.category == DeceptionTriggered && m.about == Some(id);
    var hit :| hit in env.events && MarkOf(hit) == m;
    assert RiskEngine.Involves(hit, identity.id, identity.name);
    RecentExactly(env.events, identity.id, identity.name, DeceptionTriggered);
    IsolatesExactly(InputFor(r, asset, identity, RecentCategories(env.events, identity.id, identity.name)));
  }

  /** Both directions, for every request a consistent environment has decided: it stands isolated
      exactly for a lure, a trap hit on record for its identity, or a score of at least 92. */
  lemma ConsistentIsolatesExactly(env: Environment, k: nat, identity: IdentityProfile, asset: DataAsset)
    requires Consistent(env)
    requires k < |env.accessRequests| && env.accessRequests[k].status != Pending
    requires FindIdentity(env.identities, env.accessRequests[k].identityId) == Some(identity)
    requires FindAsset(env.assets, env.accessRequests[k].targetAssetId) == Some(asset)
    ensures env.accessRequests[k].evaluation.decision == Isolate <==>
            || asset.isDeception || asset.location == DeceptionZone
            || (exists e :: e in env.events && RiskEngine.Involves(e, identity.id, identity.name)
                            && e.category == DeceptionTriggered)
            || env.accessRequests[k].evaluation.riskScore >= 92
  {
    var request := env.accessRequests[k];
    var recent := RecentCategories(env.events, identity.id, identity.name);
    RecentExactly(env.events, identity.id, identity.name, DeceptionTriggered);
    IsolatesExactly(InputFor(request, asset, identity, recent));
    assert request.evaluation == Evaluate(InputFor(request, asset, identity, recent));
  }

  lemma GrowsKeepsTrapped(env: Environment, next: Environment, newId: string, id: string)
    requires Grows(env, next, newId) && Trapped(env, id)
    ensures Trapped(next, id)
  {
    var m :| m in Marks(env) && m.category == DeceptionTriggered && m.about == Some(id);
    assert m in Marks(next);
  }

  lemma GrowsKeepsIds(env: Environment, next: Environment, newId: string)
    requires Grows(env, next, newId) && IdsIdentify(env) && newId !in IdsOf(Marks(env))
    ensures IdsIdentify(next)
  {
    assert forall m :: m in Marks(env) ==> m.id in IdsOf(Marks(env));
    assert forall m :: m in Marks(next) && m !in Marks(env) ==> m.id == newId;
  }

  lemma GrowsNowhere(env: Environment, newId: string)
    ensures Continues(env, env, newId)
  {
  }

  lemma StepContinues(derive: Deriver, fallback: bool, s: StoreState, action: StoreAction, ids: Fresh)
    requires KeepsTraces(derive)
    requires IdsIdentify(s.env) && !Replaces(action)
    ensures Continues(s.env, Step(derive, fallback, s, action, ids).env, ids.eventId)
  {
    GrowsNowhere(s.env, ids.eventId);
    PerformContinues(derive, s, action, ids);
  }

  /** Every event id drawn along the run is new at that moment, and no action puts another
      environment in place. */
  ghost predicate Ordinary(derive: Deriver, fallback: bool, s: StoreState, steps: seq<(StoreAction, Fresh)>)
    decreases |steps|
  {
    steps != [] ==>
      && !Replaces(steps[0].0)
      && steps[0].1.eventId !in IdsOf(Marks(s.env))
      && Ordinary(derive, fallback, Step(derive, fallback, s, steps[0].0, steps[0].1), steps[1..])
  }

  lemma {:induction false} RunKeepsTrapped(
    derive: Deriver, fallback: bool, s: StoreState, steps: seq<(StoreAction, Fresh)>, id: string)
    requires KeepsTraces(derive)
    requires IdsIdentify(s.env) && Trapped(s.env, id) && Ordinary(derive, fallback, s, steps)
    ensures Trapped(Run(derive, fallback, s, steps).env, id)
    ensures IdsIdentify(Run(derive, fallback, s, steps).env)
    decreases |steps|
  {
    if steps != [] {
      var (action, ids) := steps[0];
      var next := Step(derive, fallback, s, action, ids);
      StepContinues(derive, fallback, s, action, ids);
      GrowsKeepsTrapped(s.env, next.env, ids.eventId, id);
      GrowsKeepsIds(s.env, next.env, ids.eventId);
      RunKeepsTrapped(derive, fallback, next, steps[1..], id);
    }
  }

  /** Touching a trap marks the identity. */
  lemma TriggerTraps(
    derive: Deriver, s: StoreState, trapId: Option<string>, identityId: Option<string>, ids: Fresh)
    requires KeepsTraces(derive)
    requires ChosenTrap(s.env, trapId).Some? && ChosenIdentity(s.env, identityId).Some?
    ensures Trapped(AfterTrap(derive, s, trapId, identityId, ids).env, ChosenIdentity(s.env, identityId).value.id)
  {
    TrapContinues(derive, s, trapId, identityId, ids);
    var identity := ChosenIdentity(s.env, identityId).value;
    var hit := Mark(ids.eventId, DeceptionTriggered, Some(identity.id));
    assert hit in Marks(AfterTrap(derive, s, trapId, identityId, ids).env);
    assert identity.id in IdentityIds(s.env);
  }

  /** Once an identity has triggered a trap, then after any further actions but those that replace the whole
      environment, every decided request of that identity for an existing asset stands evaluated as
      `Isolate`, exactly unless the last environment placed is one the server's answer was patched into,
      and it says otherwise itself. */
  lemma OnceTrappedAlwaysIsolated(
    fallback: bool, s: StoreState, trapId: Option<string>, identityId: Option<string>, ids: Fresh,
    steps: seq<(StoreAction, Fresh)>)
    requires IdsIdentify(s.env)
    requires fallback && s.demoMode && !s.isApiMode
    requires ChosenTrap(s.env, trapId).Some? && ChosenIdentity(s.env, identityId).Some?
    requires Ordinary(Derive, fallback, s, [(TriggerTrap(trapId, identityId), ids)] + steps)
    ensures var origin := RunOrigin(Derive, fallback, AfterTrap(Derive, s, trapId, identityId, ids), steps, Derived);
            var id := ChosenIdentity(s.env, identityId).value.id;
            IsolatedEverywhere(Run(Derive, fallback, s, [(TriggerTrap(trapId, identityId), ids)] + steps).env, id)
            <==> (origin.Placed? ==> IsolatedEverywhere(origin.env, id))
    ensures NoneDirect(steps) ==>
              IsolatedEverywhere(
                Run(Derive, fallback, s, [(TriggerTrap(trapId, identityId), ids)] + steps).env,
                ChosenIdentity(s.env, identityId).value.id)
  {
    var all := [(TriggerTrap(trapId, identityId), ids)] + steps;
    var end, id := Run(Derive, fallback, s, all).env, ChosenIdentity(s.env, identityId).value.id;
    DeriveKeeps();
    TrappedThroughout(Derive, fallback, s, trapId, identityId, ids, steps);
    ConsistentAfterTrap(fallback, s, trapId, identityId, ids, steps);
    PlacedAfterTrap(Derive, fallback, s, trapId, identityId, ids, steps);
    if Consistent(end) {
      TrappedIsIsolated(end, id);
    }
  }

  lemma PlacedAfterTrap(
    derive: Deriver, fallback: bool, s: StoreState, trapId: Option<string>, identityId: Option<string>, ids: Fresh,
    steps: seq<(StoreAction, Fresh)>)
    requires fallback && s.demoMode && !s.isApiMode
    ensures var origin := RunOrigin(derive, fallback, AfterTrap(derive, s, trapId, identityId, ids), steps, Derived);
            origin.Placed? ==>
              Run(derive, fallback, s, [(TriggerTrap(trapId, identityId), ids)] + steps).env == origin.env
  {
    RunAfterFirst(derive, fallback, s, TriggerTrap(trapId, identityId), ids, steps);
    TriggerStep(derive, fallback, s, trapId, identityId, ids);
    RunEndsPlaced(derive, fallback, AfterTrap(derive, s, trapId, identityId, ids), steps, Derived);
  }

  /** An answer of the server that allows a request of an identity. */
  function AllowedRequest(id: string, assetId: string): AccessRequest {
    AccessRequest(
      "req", id, "", User, assetId, "", Trusted, 0, Read, true, 0.0, LowLocation, NormalHours, PublicData,
      Evaluation(Allow, 0, [], [], []), Approved)
  }

  /** The run that shows it: after the trap hit, the server creates a request that it allows. */
  lemma PatchUndoesIsolation(
    fallback: bool, s: StoreState, trapId: Option<string>, identityId: Option<string>, ids: Fresh, more: Fresh,
    assetId: string)
    requires fallback && s.demoMode && !s.isApiMode
    requires ChosenTrap(s.env, trapId).Some? && ChosenIdentity(s.env, identityId).Some?
    requires FindAsset(s.env.assets, assetId).Some?
    ensures var id := ChosenIdentity(s.env, identityId).value.id;
            var patch := PatchFromServer(RequestCreated(AllowedRequest(id, assetId)));
            !IsolatedEverywhere(
              Run(Derive, fallback, s, [(TriggerTrap(trapId, identityId), ids)] + [(patch, more)]).env, id)
  {
    var id := ChosenIdentity(s.env, identityId).value.id;
    var patch := PatchFromServer(RequestCreated(AllowedRequest(id, assetId)));
    var hit := AfterTrap(Derive, s, trapId, identityId, ids);
    RunAfterFirst(Derive, fallback, s, TriggerTrap(trapId, identityId), ids, [(patch, more)]);
    TriggerStep(Derive, fallback, s, trapId, identityId, ids);
    RunOfOne(Derive, fallback, hit, patch, more);
    StepPlaces(Derive, fallback, hit, patch, more);
    HitKeepsAsset(s, trapId, identityId, ids, assetId);
    AllowedIsNotIsolated(hit.env, id, assetId);
  }

  lemma HitKeepsAsset(
    s: StoreState, trapId: Option<string>, identityId: Option<string>, ids: Fresh, assetId: string)
    requires FindAsset(s.env.assets, assetId).Some?
    ensures FindAsset(AfterTrap(Derive, s, trapId, identityId, ids).env.assets, assetId).Some?
  {
    var trap, identity := ChosenTrap(s.env, trapId), ChosenIdentity(s.env, identityId);
    if trap.Some? && identity.Some? {
      var base := WithIncident(s.env, TriggerDeceptionAccess(trap.value, identity.value, ids.eventId, ids.now));
      var given := base.(runs := [SimulationRun(ids.runId, "sim-4", ids.now, [ids.eventId])] + s.env.runs);
      DeriveKeepsEntries(given);
      FindSameAsset(given.assets, Derive(given).assets, assetId);
    }
  }

  lemma AllowedIsNotIsolated(env: Environment, id: string, assetId: string)
    requires FindAsset(env.assets, assetId).Some?
    ensures !IsolatedEverywhere(Patched(env, RequestCreated(AllowedRequest(id, assetId))), id)
  {
    var next := Patched(env, RequestCreated(AllowedRequest(id, assetId)));
    assert next.accessRequests[0] == AllowedRequest(id, assetId);
    assert MustIsolate(next, id, 0);
  }

  /** A trap that is touched derives the environment, so the run agrees with itself while nothing is placed
      directly after it. */
  lemma ConsistentAfterTrap(
    fallback: bool, s: StoreState, trapId: Option<string>, identityId: Option<string>, ids: Fresh,
    steps: seq<(StoreAction, Fresh)>)
    requires fallback && s.demoMode && !s.isApiMode
    requires ChosenTrap(s.env, trapId).Some? && ChosenIdentity(s.env, identityId).Some?
    ensures var hit := AfterTrap(Derive, s, trapId, identityId, ids);
            !RunOrigin(Derive, fallback, hit, steps, Derived).Placed? ==>
              Consistent(Run(Derive, fallback, s, [(TriggerTrap(trapId, identityId), ids)] + steps).env)
    ensures NoneDirect(steps) ==>
              Consistent(Run(Derive, fallback, s, [(TriggerTrap(trapId, identityId), ids)] + steps).env)
  {
    ghost var holds := (env: Environment) => Consistent(env);
    forall env ensures holds(Derive(env)) {
      DeriveConsistent(env);
    }
    TrapDerives(Derive, holds, fallback, s, trapId, identityId, ids, steps);
    if NoneDirect(steps) {
      DerivedOrigin(Derive, fallback, AfterTrap(Derive, s, trapId, identityId, ids), steps, Derived);
    }
  }

  lemma TrapDerives(
    derive: Deriver, holds: Environment -> bool, fallback: bool, s: StoreState,
    trapId: Option<string>, identityId: Option<string>, ids: Fresh, steps: seq<(StoreAction, Fresh)>)
    requires forall env :: holds(derive(env))
    requires fallback && s.demoMode && !s.isApiMode
    requires ChosenTrap(s.env, trapId).Some? && ChosenIdentity(s.env, identityId).Some?
    ensures var hit := AfterTrap(derive, s, trapId, identityId, ids);
            !RunOrigin(derive, fallback, hit, steps, Derived).Placed? ==>
              holds(Run(derive, fallback, s, [(TriggerTrap(trapId, identityId), ids)] + steps).env)
  {
    var hit := AfterTrap(derive, s, trapId, identityId, ids);
    RunAfterFirst(derive, fallback, s, TriggerTrap(trapId, identityId), ids, steps);
    TriggerStep(derive, fallback, s, trapId, identityId, ids);
    RunVouched(derive, holds, fallback, hit.env, hit, steps, Derived);
  }

  lemma RunAfterFirst(
    derive: Deriver, fallback: bool, s: StoreState, action: StoreAction, ids: Fresh, steps: seq<(StoreAction, Fresh)>)
    ensures Run(derive, fallback, s, [(action, ids)] + steps)
            == Run(derive, fallback, Step(derive, fallback, s, action, ids), steps)
  {
    var all := [(action, ids)] + steps;
    assert all[0] == (action, ids) && all[1..] == steps;
  }

  lemma TrappedThroughout(
    derive: Deriver, fallback: bool, s: StoreState, trapId: Option<string>, identityId: Option<string>, ids: Fresh,
    steps: seq<(StoreAction, Fresh)>)
    requires KeepsTraces(derive)
    requires IdsIdentify(s.env) && fallback && s.demoMode && !s.isApiMode
    requires ChosenTrap(s.env, trapId).Some? && ChosenIdentity(s.env, identityId).Some?
    requires Ordinary(derive, fallback, s, [(TriggerTrap(trapId, identityId), ids)] + steps)
    ensures Trapped(Run(derive, fallback, s, [(TriggerTrap(trapId, identityId), ids)] + steps).env,
                    ChosenIdentity(s.env, identityId).value.id)
  {
    TriggerTraps(derive, s, trapId, identityId, ids);
    TriggerStep(derive, fallback, s, trapId, identityId, ids);
    RunFrom(derive, fallback, s, TriggerTrap(trapId, identityId), ids, steps,
            ChosenIdentity(s.env, identityId).value.id);
  }

  lemma TriggerStep(
    derive: Deriver, fallback: bool, s: StoreState, trapId: Option<string>, identityId: Option<string>, ids: Fresh)
    requires fallback && s.demoMode && !s.isApiMode
    ensures Step(derive, fallback, s, TriggerTrap(trapId, identityId), ids)
            == AfterTrap(derive, s, trapId, identityId, ids)
  {
  }

  /** A first action that traps the identity keeps it trapped through the rest of the run. */
  lemma RunFrom(
    derive: Deriver, fallback: bool, s: StoreState, action: StoreAction, ids: Fresh,
    steps: seq<(StoreAction, Fresh)>, id: string)
    requires KeepsTraces(derive)
    requires IdsIdentify(s.env)
    requires Ordinary(derive, fallback, s, [(action, ids)] + steps)
    requires Trapped(Step(derive, fallback, s, action, ids).env, id)
    ensures Trapped(Run(derive, fallback, s, [(action, ids)] + steps).env, id)
  {
    var all := [(action, ids)] + steps;
    assert all[0] == (action, ids) && all[1..] == steps;
    var next := Step(derive, fallback, s, action, ids);
    StepContinues(derive, fallback, s, action, ids);
    GrowsKeepsIds(s.env, next.env, ids.eventId);
    RunKeepsTrapped(derive, fallback, next, steps, id);
  }

  lemma TrappedAfterDeriving(env: Environment, k: nat, id: string)
    requires Trapped(env, id)
    requires k < |env.accessRequests| && MustIsolate(env, id, k)
    ensures k < |Derive(env).accessRequests|
    ensures Derive(env).accessRequests[k].status == env.accessRequests[k].status
    ensures Derive(env).accessRequests[k].evaluation.decision == Isolate
  {
    DeriveEvaluates(env, k);
    SortedTrapped(env, id);
    TrappedEvaluation(env.(events := EventOrder.SortNewestFirst(env.events)), id, env.accessRequests[k]);
  }

  lemma SortedTrapped(env: Environment, id: string)
    requires Trapped(env, id)
    ensures Trapped(env.(events := EventOrder.SortNewestFirst(env.events)), id)
  {
    var sorted := env.(events := EventOrder.SortNewestFirst(env.events));
    EventOrder.SortSorts(env.events);
    var m :| m in Marks(env) && m.category == DeceptionTriggered && m.about == Some(id);
    var hit :| hit in env.events && MarkOf(hit) == m;
    assert hit in multiset(sorted.events);
    assert m in Marks(sorted);
  }

  lemma DecideStep(derive: Deriver, s: StoreState, requestId: string, decision: Decision, ids: Fresh)
    requires s.demoMode && !s.isApiMode
    ensures Step(derive, true, s, DecideRequest(requestId, decision), ids).env
            == derive(s.env.(accessRequests := PutDecision(s.env.accessRequests, requestId, decision)))
  {
  }

  lemma SameTrapped(env: Environment, next: Environment, id: string)
    requires Trapped(env, id) && next.events == env.events && next.identities == env.identities
    ensures Trapped(next, id)
  {
  }

  /** Deciding by hand sets the status of a trapped identity's request, but its evaluation goes back
      to `Isolate` in the same step, whatever was decided. */
  lemma HandDecisionOverridden(s: StoreState, requestId: string, decision: Decision, ids: Fresh, k: nat, id: string)
    requires s.demoMode && !s.isApiMode
    requires Trapped(s.env, id)
    requires k < |s.env.accessRequests|
    requires s.env.accessRequests[k].id == requestId && s.env.accessRequests[k].identityId == id
    requires FindAsset(s.env.assets, s.env.accessRequests[k].targetAssetId).Some?
    ensures var after := Step(Derive, true, s, DecideRequest(requestId, decision), ids).env.accessRequests;
            k < |after| && StatusSays(after[k].status, decision) && after[k].evaluation.decision == Isolate
  {
    var changed := s.env.(accessRequests := PutDecision(s.env.accessRequests, requestId, decision));
    DecisionSetsStatus(true, s, requestId, decision, ids);
    DecidedMustIsolate(s.env, requestId, decision, k, id);
    SameTrapped(s.env, changed, id);
    DecideStep(Derive, s, requestId, decision, ids);
    TrappedAfterDeriving(changed, k, id);
  }

  lemma DecidedMustIsolate(env: Environment, requestId: string, decision: Decision, k: nat, id: string)
    requires k < |env.accessRequests|
    requires env.accessRequests[k].id == requestId && env.accessRequests[k].identityId == id
    requires FindAsset(env.assets, env.accessRequests[k].targetAssetId).Some?
    ensures k < |PutDecision(env.accessRequests, requestId, decision)|
    ensures MustIsolate(env.(accessRequests := PutDecision(env.accessRequests, requestId, decision)), id, k)
  {
  }

  // ---- References and demo steps ----

  /** The environments an action may put in place are sound themselves. */
  ghost predicate Sound(env: Environment) {
    IdsIdentify(env) && Intact(env)
  }

  /** A load is asked for its ids and references only: the demo steps are the store's own. */
  ghost predicate BringsSound(env: Environment, action: StoreAction) {
    match action
    case StartDemo(foundation) => Sound(foundation)
    case Reset(foundation) => Sound(foundation)
    case Onboard(Some(foundation)) => Sound(foundation)
    case LogOut(foundation) => Sound(foundation)
    case LoadFromServer(answer) => IdsIdentify(Loaded(env, answer)) && Referenced(Loaded(env, answer))
    case _ => true
  }

  ghost predicate SoundSteps(derive: Deriver, fallback: bool, s: StoreState, steps: seq<(StoreAction, Fresh)>)
    decreases |steps|
  {
    steps != [] ==>
      && BringsSound(s.env, steps[0].0)
      && (Replaces(steps[0].0) || steps[0].1.eventId !in IdsOf(Marks(s.env)))
      && SoundSteps(derive, fallback, Step(derive, fallback, s, steps[0].0, steps[0].1), steps[1..])
  }

  /** A load whose runs did not come keeps the old ones, and is sound exactly if every event they name came
      again. */
  lemma LoadSoundExactly(env: Environment, answer: ServerAnswer)
    requires Sound(env) && IdsIdentify(Loaded(env, answer))
    ensures Sound(Loaded(env, answer)) <==>
            forall run, id :: run in Loaded(env, answer).runs && id in run.generatedEventIds ==>
              IsListed(answer.events, id)
  {
    var next := Loaded(env, answer);
    forall id ensures id in IdsOf(Marks(next)) <==> IsListed(answer.events, id) {
      if e :| e in answer.events && e.id == id {
        assert MarkOf(e) in Marks(next) && MarkOf(e).id == id;
      }
    }
    assert StepsInOrder(next.demoScenario);
  }

  ghost predicate IsListed(events: seq<SecurityEvent>, id: string) {
    exists e :: e in events && e.id == id
  }

  /** The input that shows it: a run that names an event, and a load that brings neither runs nor events. */
  lemma LoadDropsReferences(env: Environment, answer: ServerAnswer)
    requires env.runs == [SimulationRun("run", "sim-4", 0, ["evt"])] && answer.runs == None && answer.events == []
    ensures !Referenced(Loaded(env, answer))
  {
    var next := Loaded(env, answer);
    var run, id := next.runs[0], next.runs[0].generatedEventIds[0];
    assert run in next.runs && id in run.generatedEventIds;
    assert id !in IdsOf(Marks(next));
  }

  lemma KeptIsSound(env: Environment, next: Environment)
    requires Sound(env) && Kept(env, next)
    ensures Sound(next)
  {
    ReferencesSurvive(env, next, []);
    assert [] + env.runs == env.runs;
  }

  lemma ReplacingIsSound(derive: Deriver, s: StoreState, action: StoreAction, ids: Fresh)
    requires KeepsTraces(derive)
    requires Replaces(action) && BringsSound(s.env, action) && Sound(s.env)
    ensures Sound(Perform(derive, s, action, ids).env)
  {
    match action
    case StartDemo(foundation) =>
      var opening := foundation.(demoScenario := AtStep(foundation.demoScenario, 0));
      assert Marks(opening) == Marks(foundation);
      assert Sound(opening);
      assert Kept(opening, derive(opening));
      KeptIsSound(opening, derive(opening));
    case Reset(foundation) =>
      assert Kept(foundation, derive(foundation));
      KeptIsSound(foundation, derive(foundation));
    case Onboard(Some(foundation)) =>
      assert Kept(foundation, derive(foundation));
      KeptIsSound(foundation, derive(foundation));
      assert Kept(derive(foundation), derive(derive(foundation)));
      KeptIsSound(derive(foundation), derive(derive(foundation)));
    case LogOut(foundation) =>
    case LoadFromServer(answer) =>
  }

  /** In every state local actions reach, resets included, simulation runs name only events that
      exist, and an active demo has its steps in order. */
  lemma {:induction false} RunStaysSound(
    derive: Deriver, fallback: bool, s: StoreState, steps: seq<(StoreAction, Fresh)>)
    requires KeepsTraces(derive)
    requires Sound(s.env) && SoundSteps(derive, fallback, s, steps)
    ensures Sound(Run(derive, fallback, s, steps).env)
    decreases |steps|
  {
    if steps != [] {
      var (action, ids) := steps[0];
      var next := Step(derive, fallback, s, action, ids);
      if Replaces(action) {
        ReplacingIsSound(derive, s, action, ids);
      } else {
        StepContinues(derive, fallback, s, action, ids);
        GrowsKeepsIds(s.env, next.env, ids.eventId);
      }
      RunStaysSound(derive, fallback, next, steps[1..]);
    }
  }

  /** From the store's construction on, if it was founded on a sound environment. */
  lemma StoreStaysSound(fallback: bool, foundation: Environment, steps: seq<(StoreAction, Fresh)>)
    requires Sound(foundation)
    requires SoundSteps(Derive, fallback, Start(foundation), steps)
    ensures Sound(Run(Derive, fallback, Start(foundation), steps).env)
  {
    DeriveKeeps();
    assert Kept(foundation, Derive(foundation));
    KeptIsSound(foundation, Derive(foundation));
    RunStaysSound(Derive, fallback, Start(foundation), steps);
  }

  /** What the store ends with after a run: agreement with itself, exactly unless the last environment placed
      was placed directly and did not agree; and sound references and demo steps, as long as it is given
      sound environments. */
  ghost predicate StoreKeeps(
    fallback: bool, foundation: Environment, steps: seq<(StoreAction, Fresh)>, end: Environment)
  {
    var origin := RunOrigin(Derive, fallback, Start(foundation), steps, Untouched);
    && (Consistent(end) <==> (origin.Placed? ==> Consistent(origin.env)))
    && (Sound(foundation) && SoundSteps(Derive, fallback, Start(foundation), steps) ==> Sound(end))
  }

  lemma StoreKeepsAll(fallback: bool, foundation: Environment, steps: seq<(StoreAction, Fresh)>)
    ensures StoreKeeps(fallback, foundation, steps, Run(Derive, fallback, Start(foundation), steps).env)
  {
    StoreConsistentExactly(fallback, foundation, steps);
    if Sound(foundation) && SoundSteps(Derive, fallback, Start(foundation), steps) {
      StoreStaysSound(fallback, foundation, steps);
    }
  }

  /** A foundation of the demo's shape is sound: no two events share an id, the one run names an event of the
      list, and the demo has not been started. */
  lemma FoundationIsSound(env: Environment, run: SimulationRun, hit: SecurityEvent)
    requires forall i, j :: 0 <= i < j < |env.events| ==> env.events[i].id != env.events[j].id
    requires hit in env.events && env.runs == [run] && run.generatedEventIds == [hit.id]
    requires !env.demoScenario.active
    ensures Sound(env)
  {
    assert MarkOf(hit) in Marks(env) && MarkOf(hit).id == hit.id;
    forall m, n | m in Marks(env) && n in Marks(env) && m.id == n.id ensures m == n {
      var i :| 0 <= i < |env.events| && MarkOf(env.events[i]) == m;
      var j :| 0 <= j < |env.events| && MarkOf(env.events[j]) == n;
    }
  }
}

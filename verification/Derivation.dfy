/** `deriveEnvironment` of the console store: every dependent value of an environment recomputed
    from its base values. */
module Derivation {
  import opened SecurityTypes
  import opened Sequences
  import opened EventOrder
  import opened RiskEngine
  import opened ZeroTrustEngine
  import opened ComplianceEngine
  import opened RiskConvergence

  // ---- Lookups: the first entry with the wanted key ----

  function FindIdentity(identities: seq<IdentityProfile>, id: string): Option<IdentityProfile> {
    Find(identities, (identity: IdentityProfile) => identity.id == id)
  }

  function FindAsset(assets: seq<DataAsset>, id: string): Option<DataAsset> {
    Find(assets, (asset: DataAsset) => asset.id == id)
  }

  /** The categories of an identity's events, in list order. */
  function RecentCategories(events: seq<SecurityEvent>, id: string, name: string): seq<EventCategory> {
    if events == [] then []
    else (if Involves(events[0], id, name) then [events[0].category] else [])
         + RecentCategories(events[1..], id, name)
  }

  lemma {:induction false} RecentExactly(events: seq<SecurityEvent>, id: string, name: string, category: EventCategory)
    ensures category in RecentCategories(events, id, name) <==>
            exists e :: e in events && Involves(e, id, name) && e.category == category
  {
    if events != [] {
      RecentExactly(events[1..], id, name, category);
      assert events == [events[0]] + events[1..];
    }
  }

  // ---- The derivation ----

  function InputFor(
    request: AccessRequest, asset: DataAsset, identity: IdentityProfile, recent: seq<EventCategory>): TrustInput
  {
    TrustInput(
      request.identityType, request.mfa, identity.mfaEnabled, request.deviceTrust,
      request.requestedAction, request.locationRisk, request.timeRisk, request.anomalyScore,
      asset.classification, asset.location, asset.isDeception, asset.isDeception, recent)
  }

  function EvaluateFor(
    request: AccessRequest, asset: DataAsset, identity: IdentityProfile, events: seq<SecurityEvent>): Evaluation
  {
    Evaluate(InputFor(request, asset, identity, RecentCategories(events, identity.id, identity.name)))
  }

  function Reevaluate(
    request: AccessRequest, identities: seq<IdentityProfile>, assets: seq<DataAsset>,
    events: seq<SecurityEvent>): AccessRequest
  {
    match (FindIdentity(identities, request.identityId), FindAsset(assets, request.targetAssetId))
    case (Some(identity), Some(asset)) =>
      if request.status == Pending then request
      else request.(evaluation := EvaluateFor(request, asset, identity, events))
    case (_, _) => request
  }

  function WithRisks(assets: seq<DataAsset>, events: seq<SecurityEvent>): (r: seq<DataAsset>)
    ensures |r| == |assets|
  {
    seq(|assets|, i requires 0 <= i < |assets| => assets[i].(risk := AssetRisk(assets[i], events)))
  }

  function WithScores(identities: seq<IdentityProfile>, events: seq<SecurityEvent>): (r: seq<IdentityProfile>)
    ensures |r| == |identities|
  {
    seq(|identities|, i requires 0 <= i < |identities| =>
      identities[i].(riskScore := IdentityRisk(identities[i], events) as real))
  }

  function WithEvaluations(
    requests: seq<AccessRequest>, identities: seq<IdentityProfile>, assets: seq<DataAsset>,
    events: seq<SecurityEvent>): (r: seq<AccessRequest>)
    ensures |r| == |requests|
  {
    seq(|requests|, i requires 0 <= i < |requests| => Reevaluate(requests[i], identities, assets, events))
  }

  const ALL_REPORTS := [General, CriticalDataReport, ZeroTrustReport, DeceptionReport, Nist, Privacy, Demo]

  /** Everything but the snapshot and the reports. */
  function DeriveBase(env: Environment): Environment {
    var events := SortNewestFirst(env.events);
    var assets := WithRisks(env.assets, events);
    var identities := WithScores(env.identities, events);
    env.(assets := assets, identities := identities, events := events,
         accessRequests := WithEvaluations(env.accessRequests, identities, assets, events),
         reports := [])
  }

  function Derive(env: Environment): Environment {
    var base := DeriveBase(env);
    base.(compliance := CalculateSnapshot(base), reports := ALL_REPORTS)
  }

  // ---- What one derivation establishes ----

  /** Events end up newest first, in a permutation that keeps simultaneous ones in order. */
  lemma DeriveOrdersEvents(env: Environment)
    ensures NewestFirst(Derive(env).events)
    ensures multiset(Derive(env).events) == multiset(env.events)
    ensures forall time :: At(Derive(env).events, time) == At(env.events, time)
  {
    SortSorts(env.events);
    forall time ensures At(Derive(env).events, time) == At(env.events, time) {
      SortStable(env.events, time);
    }
  }

  /** Every asset's risk is the one computed from the events as they were given, unsorted. */
  lemma DeriveAssessesAssets(env: Environment, i: nat)
    requires i < |env.assets|
    ensures Derive(env).assets[i] == env.assets[i].(risk := AssetRisk(env.assets[i], env.events))
    ensures |Derive(env).assets| == |env.assets|
  {
    SortSorts(env.events);
    AssetRiskPermutation(env.assets[i], env.events, SortNewestFirst(env.events));
  }

  lemma DeriveScoresIdentities(env: Environment, i: nat)
    requires i < |env.identities|
    ensures Derive(env).identities[i]
            == env.identities[i].(riskScore := IdentityRisk(env.identities[i], env.events) as real)
    ensures |Derive(env).identities| == |env.identities|
  {
    SortSorts(env.events);
    PressurePermutation(env.identities[i], env.events, SortNewestFirst(env.events));
  }

  /** The snapshot is the one of the derived environment with an empty report list, and also the
      one of the environment as given: derivation changes nothing the scores read. */
  lemma DeriveTakesSnapshot(env: Environment)
    ensures Derive(env).compliance == CalculateSnapshot(Derive(env).(reports := []))
    ensures Derive(env).compliance == CalculateSnapshot(env.(reports := []))
  {
    var base, given := DeriveBase(env), env.(reports := []);
    SortSorts(env.events);
    SnapshotDepends(base, Derive(env).(reports := []));
    SnapshotDepends(base, given);
  }

  /** The reports a derivation is given do not matter to what it gives. */
  lemma DeriveIgnoresReports(env: Environment, reports: seq<ReportType>)
    ensures Derive(env.(reports := reports)) == Derive(env)
  {
    assert DeriveBase(env.(reports := reports)) == DeriveBase(env);
  }

  // ---- Lookups see derived entries in the same places ----

  ghost predicate SameAssets(a: seq<DataAsset>, b: seq<DataAsset>) {
    |a| == |b| && forall i :: 0 <= i < |a| ==> a[i].(risk := b[i].risk) == b[i]
  }

  ghost predicate SameIdentities(a: seq<IdentityProfile>, b: seq<IdentityProfile>) {
    |a| == |b| && forall i :: 0 <= i < |a| ==> a[i].(riskScore := b[i].riskScore) == b[i]
  }

  lemma {:induction false} FindSameAsset(a: seq<DataAsset>, b: seq<DataAsset>, id: string)
    requires SameAssets(a, b)
    ensures FindAsset(a, id).Some? == FindAsset(b, id).Some?
    ensures FindAsset(a, id).Some? ==>
              FindAsset(a, id).value.(risk := FindAsset(b, id).value.risk) == FindAsset(b, id).value
  {
    if a != [] {
      assert a[0].(risk := b[0].risk) == b[0];
      FindSameAsset(a[1..], b[1..], id);
    }
  }

  lemma {:induction false} FindSameIdentity(a: seq<IdentityProfile>, b: seq<IdentityProfile>, id: string)
    requires SameIdentities(a, b)
    ensures FindIdentity(a, id).Some? == FindIdentity(b, id).Some?
    ensures FindIdentity(a, id).Some? ==>
              FindIdentity(a, id).value.(riskScore := FindIdentity(b, id).value.riskScore)
              == FindIdentity(b, id).value
  {
    if a != [] {
      assert a[0].(riskScore := b[0].riskScore) == b[0];
      FindSameIdentity(a[1..], b[1..], id);
    }
  }

  /** Evaluations read neither stored asset risks nor identity risk scores. */
  lemma ReevaluateSame(
    request: AccessRequest, i1: seq<IdentityProfile>, i2: seq<IdentityProfile>,
    a1: seq<DataAsset>, a2: seq<DataAsset>, events: seq<SecurityEvent>)
    requires SameIdentities(i1, i2) && SameAssets(a1, a2)
    ensures Reevaluate(request, i1, a1, events) == Reevaluate(request, i2, a2, events)
    ensures Reevaluate(Reevaluate(request, i1, a1, events), i2, a2, events)
            == Reevaluate(request, i1, a1, events)
  {
    FindSameIdentity(i1, i2, request.identityId);
    FindSameAsset(a1, a2, request.targetAssetId);
  }

  lemma DeriveKeepsEntries(env: Environment)
    ensures SameAssets(env.assets, Derive(env).assets)
    ensures SameIdentities(env.identities, Derive(env).identities)
  {
  }

  /** What a derived environment says about a request, in terms of the environment given. */
  lemma DeriveEvaluates(env: Environment, k: nat)
    requires k < |env.accessRequests|
    ensures |Derive(env).accessRequests| == |env.accessRequests|
    ensures Derive(env).accessRequests[k]
            == Reevaluate(env.accessRequests[k], env.identities, env.assets, SortNewestFirst(env.events))
  {
    DeriveKeepsEntries(env);
    ReevaluateSame(env.accessRequests[k], env.identities, Derive(env).identities,
                   env.assets, Derive(env).assets, SortNewestFirst(env.events));
  }

  // ---- What a decided request's evaluation says, from its own fields and those it refers to ----

  /** The i-th identity is the one the request names. */
  ghost predicate NamesIdentity(env: Environment, request: AccessRequest, i: nat) {
    && i < |env.identities| && env.identities[i].id == request.identityId
    && forall j :: 0 <= j < i ==> env.identities[j].id != request.identityId
  }

  ghost predicate NamesAsset(env: Environment, request: AccessRequest, a: nat) {
    && a < |env.assets| && env.assets[a].id == request.targetAssetId
    && forall j :: 0 <= j < a ==> env.assets[j].id != request.targetAssetId
  }

  /** Some event about the identity, by its id or its name, has the category. */
  ghost predicate HasRecent(env: Environment, identity: IdentityProfile, category: EventCategory) {
    exists e :: e in env.events && (e.relatedIdentityId == Some(identity.id) || e.source == identity.name)
                && e.category == category
  }

  ghost predicate ListsRecent(env: Environment, identity: IdentityProfile, recent: seq<EventCategory>) {
    forall category :: category in recent <==> HasRecent(env, identity, category)
  }

  /** What the engine is told: the request's own multi-factor sign and the identity's, the request's device,
      action, place, time, kind and anomaly, the asset's class and place, and the categories of the
      identity's events. */
  function Told(
    request: AccessRequest, identity: IdentityProfile, asset: DataAsset, recent: seq<EventCategory>): TrustInput
  {
    TrustInput(
      identityType := request.identityType, requestMfa := request.mfa, identityMfa := identity.mfaEnabled,
      deviceTrust := request.deviceTrust, requestedAction := request.requestedAction,
      locationRisk := request.locationRisk, timeRisk := request.timeRisk, anomalyScore := request.anomalyScore,
      classification := asset.classification, location := asset.location,
      assetIsDeception := asset.isDeception, contextIsDeception := asset.isDeception, recentEvents := recent)
  }

  /** A decided request keeps everything but its evaluation, which is the engine's on exactly these signals. */
  lemma DecidedEvaluation(env: Environment, k: nat, i: nat, a: nat) returns (recent: seq<EventCategory>)
    requires k < |env.accessRequests| && env.accessRequests[k].status != Pending
    requires NamesIdentity(env, env.accessRequests[k], i) && NamesAsset(env, env.accessRequests[k], a)
    ensures ListsRecent(env, env.identities[i], recent)
    ensures k < |Derive(env).accessRequests|
    ensures Derive(env).accessRequests[k] == env.accessRequests[k].(
              evaluation := Evaluate(Told(env.accessRequests[k], env.identities[i], env.assets[a], recent)))
  {
    var request, identity := env.accessRequests[k], env.identities[i];
    recent := RecentCategories(SortNewestFirst(env.events), identity.id, identity.name);
    FoundByIndex(env, request, i, a);
    DeriveEvaluates(env, k);
    SortedRecent(env, identity);
  }

  lemma FoundByIndex(env: Environment, request: AccessRequest, i: nat, a: nat)
    requires NamesIdentity(env, request, i) && NamesAsset(env, request, a)
    ensures FindIdentity(env.identities, request.identityId) == Some(env.identities[i])
    ensures FindAsset(env.assets, request.targetAssetId) == Some(env.assets[a])
  {
    FirstIdentity(env.identities, request.identityId, i);
    FirstAsset(env.assets, request.targetAssetId, a);
  }

  lemma {:induction false} FirstIdentity(identities: seq<IdentityProfile>, id: string, i: nat)
    requires i < |identities| && identities[i].id == id && forall j :: 0 <= j < i ==> identities[j].id != id
    ensures FindIdentity(identities, id) == Some(identities[i])
  {
    if i > 0 {
      FirstIdentity(identities[1..], id, i - 1);
    }
  }

  lemma {:induction false} FirstAsset(assets: seq<DataAsset>, id: string, a: nat)
    requires a < |assets| && assets[a].id == id && forall j :: 0 <= j < a ==> assets[j].id != id
    ensures FindAsset(assets, id) == Some(assets[a])
  {
    if a > 0 {
      FirstAsset(assets[1..], id, a - 1);
    }
  }

  lemma SortedRecent(env: Environment, identity: IdentityProfile)
    ensures ListsRecent(env, identity, RecentCategories(SortNewestFirst(env.events), identity.id, identity.name))
  {
    var sorted := SortNewestFirst(env.events);
    SortSorts(env.events);
    assert forall e :: e in sorted <==> e in multiset(sorted);
    assert forall e :: e in env.events <==> e in multiset(env.events);
    forall category
      ensures category in RecentCategories(sorted, identity.id, identity.name) <==> HasRecent(env, identity, category)
    {
      RecentExactly(sorted, identity.id, identity.name, category);
      if HasRecent(env, identity, category) {
        var e :| e in env.events && Involves(e, identity.id, identity.name) && e.category == category;
        assert e in sorted;
      }
    }
  }

  /** What each reason says of a request, the identity and the asset it names, and the events. */
  ghost predicate Gives(
    env: Environment, request: AccessRequest, identity: IdentityProfile, asset: DataAsset, reason: TrustReason)
  {
    match reason
    case TargetIsDeception => asset.isDeception || asset.location == DeceptionZone
    case MfaMissing => !request.mfa || !identity.mfaEnabled
    case DeviceUnknown => request.deviceTrust == UnknownDevice
    case DeviceUntrusted => request.deviceTrust == Compromised
    case LocationNeedsCheck => request.locationRisk == MediumLocation
    case LocationHighRisk => request.locationRisk == HighLocation
    case TimeUnusual => request.timeRisk == Elevated
    case TimeOffHours => request.timeRisk == OffHours
    case HighImpactAction => request.requestedAction in {Export, Delete, Admin}
    case CriticalWithoutMfa => asset.classification == CriticalData && (!request.mfa || !identity.mfaEnabled)
    case ThirdPartyAccess => request.identityType == ThirdParty
    case ThirdPartySensitive =>
      request.identityType == ThirdParty && asset.classification in {SensitiveData, CriticalData}
    case ServiceAccount => request.identityType == Service
    case ServiceVolumeSpike => request.identityType == Service && request.anomalyScore >= 72.0
    case RecentTravel => HasRecent(env, identity, ImpossibleTravel)
    case RecentDeception => HasRecent(env, identity, DeceptionTriggered)
    case RecentEscalation => HasRecent(env, identity, PrivilegeEscalation)
    case LowRiskContext =>
      && request.mfa && identity.mfaEnabled && request.deviceTrust in {Trusted, Managed}
      && request.locationRisk == LowLocation && request.timeRisk == NormalHours
      && request.requestedAction in {Read, Write} && request.identityType == User
      && !HasRecent(env, identity, ImpossibleTravel) && !HasRecent(env, identity, DeceptionTriggered)
      && !HasRecent(env, identity, PrivilegeEscalation)
  }

  /** After a derivation a decided request is evaluated for exactly the reasons that hold of it. */
  lemma DecidedReasons(env: Environment, k: nat, i: nat, a: nat, reason: TrustReason)
    requires k < |env.accessRequests| && env.accessRequests[k].status != Pending
    requires NamesIdentity(env, env.accessRequests[k], i) && NamesAsset(env, env.accessRequests[k], a)
    ensures k < |Derive(env).accessRequests|
    ensures reason in Derive(env).accessRequests[k].evaluation.reasons <==>
            if env.assets[a].isDeception || env.assets[a].location == DeceptionZone then reason == TargetIsDeception
            else Gives(env, env.accessRequests[k], env.identities[i], env.assets[a], reason)
  {
    var recent := DecidedEvaluation(env, k, i, a);
    ToldGives(env, env.accessRequests[k], env.identities[i], env.assets[a], recent, reason);
  }

  lemma ToldGives(
    env: Environment, request: AccessRequest, identity: IdentityProfile, asset: DataAsset,
    recent: seq<EventCategory>, reason: TrustReason)
    requires ListsRecent(env, identity, recent)
    ensures reason in Evaluate(Told(request, identity, asset, recent)).reasons <==>
            if asset.isDeception || asset.location == DeceptionZone then reason == TargetIsDeception
            else Gives(env, request, identity, asset, reason)
  {
    ReasonsExactly(Told(request, identity, asset, recent), reason);
  }

  /** A decided request for critical data that lacks a factor, its own or the identity's, stands denied or
      isolated. */
  lemma DecidedWithoutMfa(env: Environment, k: nat, i: nat, a: nat)
    requires k < |env.accessRequests| && env.accessRequests[k].status != Pending
    requires NamesIdentity(env, env.accessRequests[k], i) && NamesAsset(env, env.accessRequests[k], a)
    requires env.assets[a].classification == CriticalData
    requires !env.accessRequests[k].mfa || !env.identities[i].mfaEnabled
    requires env.accessRequests[k].anomalyScore >= 0.0
    ensures k < |Derive(env).accessRequests|
    ensures Derive(env).accessRequests[k].evaluation.decision in {Deny, Isolate}
  {
    var recent := DecidedEvaluation(env, k, i, a);
    CriticalDataNeedsMfa(Told(env.accessRequests[k], env.identities[i], env.assets[a], recent));
  }

  /** A pending request, and one whose identity or asset is unknown, is left as it is. */
  lemma UndecidedIsKept(env: Environment, k: nat)
    requires k < |env.accessRequests|
    requires || env.accessRequests[k].status == Pending
             || (forall i :: i in env.identities ==> i.id != env.accessRequests[k].identityId)
             || (forall a :: a in env.assets ==> a.id != env.accessRequests[k].targetAssetId)
    ensures k < |Derive(env).accessRequests| && Derive(env).accessRequests[k] == env.accessRequests[k]
  {
    DeriveEvaluates(env, k);
  }

  // ---- Deriving again ----

  /** A second derivation changes nothing but the identities' risk scores. */
  lemma DeriveTwice(env: Environment)
    ensures var once, twice := Derive(env), Derive(Derive(env));
            twice == once.(identities := twice.identities)
  {
    var once, twice := Derive(env), Derive(Derive(env));
    SortSorts(env.events);
    SortFixed(once.events);
    assert twice.events == once.events;
    DeriveKeepsEntries(env);
    DeriveKeepsEntries(once);
    RisksStable(env.assets, once.assets, once.events);
    assert twice.assets == once.assets;
    forall k | 0 <= k < |once.accessRequests|
      ensures twice.accessRequests[k] == once.accessRequests[k]
    {
      ReevaluateSame(env.accessRequests[k], once.identities, twice.identities,
                     once.assets, twice.assets, once.events);
    }
    assert twice.accessRequests == once.accessRequests;
    SnapshotDepends(DeriveBase(env), DeriveBase(once));
  }

  lemma RisksStable(assets: seq<DataAsset>, again: seq<DataAsset>, events: seq<SecurityEvent>)
    requires SameAssets(assets, again)
    ensures WithRisks(again, events) == WithRisks(assets, events)
  {
    forall i | 0 <= i < |assets| ensures AssetRisk(again[i], events) == AssetRisk(assets[i], events) {
      assert assets[i].(risk := again[i].risk) == again[i];
      AssetRiskIgnoresRisk(assets[i], again[i].risk, events);
    }
  }

  // ---- The agreement of an environment with itself ----

  /** The dependent values an environment stores are the ones its base values give. */
  ghost predicate Consistent(env: Environment) {
    && NewestFirst(env.events)
    && (forall i :: 0 <= i < |env.assets| ==> env.assets[i].risk == AssetRisk(env.assets[i], env.events))
    && (forall k :: 0 <= k < |env.accessRequests| ==>
          env.accessRequests[k] == Reevaluate(env.accessRequests[k], env.identities, env.assets, env.events))
    && env.compliance == CalculateSnapshot(env.(reports := []))
    && env.reports == ALL_REPORTS
  }

  lemma DeriveConsistent(env: Environment)
    ensures Consistent(Derive(env))
  {
    var derived := Derive(env);
    DeriveOrdersEvents(env);
    forall i | 0 <= i < |env.assets|
      ensures derived.assets[i].risk == AssetRisk(derived.assets[i], derived.events)
    {
      AssetRiskIgnoresRisk(env.assets[i], derived.assets[i].risk, derived.events);
    }
    forall k | 0 <= k < |env.accessRequests|
      ensures derived.accessRequests[k]
              == Reevaluate(derived.accessRequests[k], derived.identities, derived.assets, derived.events)
    {
      ReevaluateSame(env.accessRequests[k], derived.identities, derived.identities,
                     derived.assets, derived.assets, derived.events);
    }
    DeriveTakesSnapshot(env);
  }

  /** An environment is consistent exactly when deriving it changes nothing but risk scores of
      identities: the stored values are a cache that agrees with its source. */
  lemma ConsistentMeansStable(env: Environment)
    ensures Consistent(env) <==> Derive(env) == env.(identities := Derive(env).identities)
  {
    var derived := Derive(env);
    DeriveKeepsEntries(env);
    if Consistent(env) {
      SortFixed(env.events);
      assert derived.events == env.events;
      assert derived.assets == env.assets by {
        forall i | 0 <= i < |env.assets| ensures derived.assets[i] == env.assets[i] {
          DeriveAssessesAssets(env, i);
        }
      }
      forall k | 0 <= k < |env.accessRequests| ensures derived.accessRequests[k] == env.accessRequests[k] {
        DeriveEvaluates(env, k);
      }
      assert derived.accessRequests == env.accessRequests;
      DeriveTakesSnapshot(env);
    }
    if derived == env.(identities := derived.identities) {
      StableIsConsistent(env);
    }
  }

  lemma StableIsConsistent(env: Environment)
    requires Derive(env) == env.(identities := Derive(env).identities)
    ensures Consistent(env)
  {
    var derived := Derive(env);
    DeriveConsistent(env);
    DeriveKeepsEntries(env);
    forall k | 0 <= k < |env.accessRequests|
      ensures env.accessRequests[k]
              == Reevaluate(env.accessRequests[k], env.identities, env.assets, env.events)
    {
      ReevaluateSame(env.accessRequests[k], env.identities, derived.identities, env.assets, env.assets, env.events);
    }
    DeriveTakesSnapshot(env);
  }

  /** What a derivation does to the identities, and to the events as far as scores see them. */
  ghost predicate Rescores(env: Environment, next: Environment) {
    && multiset(next.events) == multiset(env.events)
    && |next.identities| == |env.identities|
    && forall i :: 0 <= i < |env.identities| ==>
         next.identities[i]
         == env.identities[i].(riskScore := IdentityRisk(env.identities[i], env.events) as real)
  }

  lemma DeriveRescores(env: Environment)
    ensures Rescores(env, Derive(env))
  {
    SortSorts(env.events);
    forall i | 0 <= i < |env.identities|
      ensures Derive(env).identities[i]
              == env.identities[i].(riskScore := IdentityRisk(env.identities[i], env.events) as real)
    {
      DeriveScoresIdentities(env, i);
    }
  }

  function Iterate<T>(step: T -> T, start: T, n: nat): T {
    if n == 0 then start else step(Iterate(step, start, n - 1))
  }

  lemma {:induction false} IteratedShape(step: Environment -> Environment, env: Environment, n: nat)
    requires forall e :: Rescores(e, step(e))
    ensures multiset(Iterate(step, env, n).events) == multiset(env.events)
    ensures |Iterate(step, env, n).identities| == |env.identities|
  {
    if n != 0 {
      IteratedShape(step, env, n - 1);
      assert Rescores(Iterate(step, env, n - 1), step(Iterate(step, env, n - 1)));
    }
  }

  /** A step that scores the i-th identity, while it is this one, under this pressure. */
  ghost predicate ScoresUnder(
    step: Environment -> Environment, env: Environment, i: nat, identity: IdentityProfile, pressure: real)
  {
    forall e: Environment ::
      && i < |e.identities| && e.identities[i] == identity.(riskScore := e.identities[i].riskScore)
      && multiset(e.events) == multiset(env.events)
      ==>
        i < |step(e).identities|
        && step(e).identities[i] == identity.(riskScore := NextRisk(pressure, e.identities[i].riskScore) as real)
  }

  lemma RescoringUnderPressure(step: Environment -> Environment, env: Environment, i: nat)
    requires forall e :: Rescores(e, step(e))
    requires i < |env.identities|
    ensures ScoresUnder(step, env, i, env.identities[i], IdentityPressure(env.identities[i], env.events))
  {
    var identity := env.identities[i];
    forall e: Environment |
      && i < |e.identities| && e.identities[i] == identity.(riskScore := e.identities[i].riskScore)
      && multiset(e.events) == multiset(env.events)
      ensures i < |step(e).identities|
      ensures step(e).identities[i] == identity.(
                riskScore := NextRisk(IdentityPressure(identity, env.events), e.identities[i].riskScore) as real)
    {
      assert Rescores(e, step(e));
      RiskUnderPressure(identity, env.events, e.identities[i], e.events);
    }
  }

  lemma {:induction false} IteratedScores(
    step: Environment -> Environment, env: Environment, n: nat, i: nat, pressure: real)
    requires forall m: nat :: multiset(Iterate(step, env, m).events) == multiset(env.events)
    requires i < |env.identities| && ScoresUnder(step, env, i, env.identities[i], pressure)
    ensures i < |Iterate(step, env, n).identities|
    ensures Iterate(step, env, n).identities[i] == env.identities[i].(
              riskScore := RiskAfter(pressure, env.identities[i].riskScore, n))
  {
    if n != 0 {
      IteratedScores(step, env, n - 1, i, pressure);
      var before := Iterate(step, env, n - 1);
      assert before.identities[i] == env.identities[i].(riskScore := before.identities[i].riskScore);
    }
  }

  lemma IteratedEvents(step: Environment -> Environment, env: Environment)
    requires forall e :: Rescores(e, step(e))
    ensures forall m: nat :: multiset(Iterate(step, env, m).events) == multiset(env.events)
  {
    forall m: nat ensures multiset(Iterate(step, env, m).events) == multiset(env.events) {
      IteratedShape(step, env, m);
    }
  }

  lemma ScoreSettles(step: Environment -> Environment, env: Environment, n: nat, i: nat, pressure: real)
    requires forall m: nat :: multiset(Iterate(step, env, m).events) == multiset(env.events)
    requires i < |env.identities| && ScoresUnder(step, env, i, env.identities[i], pressure)
    requires n >= 7
    ensures i < |Iterate(step, env, n).identities| && i < |Iterate(step, env, n + 1).identities|
    ensures Iterate(step, env, n + 1).identities[i] == Iterate(step, env, n).identities[i]
  {
    IteratedScores(step, env, n, i, pressure);
    IteratedScores(step, env, n + 1, i, pressure);
    SettlesFromAnywhere(pressure, env.identities[i].riskScore, n);
    SettlesFromAnywhere(pressure, env.identities[i].riskScore, n + 1);
  }

  lemma IteratedScoresFollow(step: Environment -> Environment, env: Environment, n: nat, i: nat)
    requires forall e :: Rescores(e, step(e))
    requires i < |env.identities|
    ensures i < |Iterate(step, env, n).identities|
    ensures Iterate(step, env, n).identities[i] == env.identities[i].(
              riskScore := RiskAfter(IdentityPressure(env.identities[i], env.events), env.identities[i].riskScore, n))
  {
    IteratedEvents(step, env);
    RescoringUnderPressure(step, env, i);
    IteratedScores(step, env, n, i, IdentityPressure(env.identities[i], env.events));
  }

  lemma ScoresSettle(step: Environment -> Environment, env: Environment, n: nat)
    requires forall e :: Rescores(e, step(e))
    requires n >= 7
    ensures Iterate(step, env, n + 1).identities == Iterate(step, env, n).identities
  {
    IteratedEvents(step, env);
    IteratedShape(step, env, n);
    IteratedShape(step, env, n + 1);
    forall i | 0 <= i < |env.identities|
      ensures Iterate(step, env, n + 1).identities[i] == Iterate(step, env, n).identities[i]
    {
      RescoringUnderPressure(step, env, i);
      ScoreSettles(step, env, n, i, IdentityPressure(env.identities[i], env.events));
    }
  }

  lemma IterationSettles(step: Environment -> Environment, env: Environment, n: nat)
    requires forall e :: step(step(e)) == step(e).(identities := step(step(e)).identities)
    requires n >= 7
    requires Iterate(step, env, n + 1).identities == Iterate(step, env, n).identities
    ensures step(Iterate(step, env, n)) == Iterate(step, env, n)
  {
    assert Iterate(step, env, n) == step(Iterate(step, env, n - 1));
    assert Iterate(step, env, n + 1) == step(Iterate(step, env, n));
  }

  /** The environment after n derivations. */
  function DeriveTimes(env: Environment, n: nat): Environment {
    Iterate(Derive, env, n)
  }

  lemma DeriveSteps()
    ensures forall e :: Rescores(e, Derive(e))
    ensures forall e :: Derive(Derive(e)) == Derive(e).(identities := Derive(Derive(e)).identities)
  {
    forall e ensures Rescores(e, Derive(e)) {
      DeriveRescores(e);
    }
    forall e ensures Derive(Derive(e)) == Derive(e).(identities := Derive(Derive(e)).identities) {
      DeriveTwice(e);
    }
  }

  /** Over n derivations each identity's score follows the feedback sequence of its own pressure,
      and nothing else of it changes. */
  lemma DeriveTimesScores(env: Environment, n: nat, i: nat)
    requires i < |env.identities|
    ensures i < |DeriveTimes(env, n).identities|
    ensures DeriveTimes(env, n).identities[i] == env.identities[i].(
              riskScore := RiskAfter(IdentityPressure(env.identities[i], env.events), env.identities[i].riskScore, n))
  {
    DeriveSteps();
    IteratedScoresFollow(Derive, env, n, i);
  }

  /** Repeated derivation reaches a fixed point: from the seventh on, deriving the environment again
      changes nothing in it at all. */
  lemma DerivationSettles(env: Environment, n: nat)
    requires n >= 7
    ensures Derive(DeriveTimes(env, n)) == DeriveTimes(env, n)
  {
    DeriveSteps();
    ScoresSettle(Derive, env, n);
    IterationSettles(Derive, env, n);
  }

  /** Where it settles: each identity at the settled score of its own pressure nearest to its first derived
      score, and nothing else of it changed. */
  lemma DerivationSettlesAt(env: Environment, n: nat, i: nat)
    requires n >= 7 && i < |env.identities|
    ensures i < |DeriveTimes(env, n).identities|
    ensures DeriveTimes(env, n).identities[i] == env.identities[i].(
              riskScore := Settled(IdentityPressure(env.identities[i], env.events),
                                   IdentityRisk(env.identities[i], env.events)) as real)
  {
    DeriveTimesScores(env, n, i);
    SettlesFromAnywhere(IdentityPressure(env.identities[i], env.events), env.identities[i].riskScore, n);
  }
}

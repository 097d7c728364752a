/** `src/lib/zero-trust-engine.ts`: the decision on an access request. */
module ZeroTrustEngine {
  import opened SecurityTypes
  import opened Rounding
  import opened Sequences

  /** Everything the engine reads of the request, its target, its identity and the context. */
  datatype TrustInput = TrustInput(
    identityType: IdentityType, requestMfa: bool, identityMfa: bool, deviceTrust: DeviceTrust,
    requestedAction: AccessAction, locationRisk: LocationRisk, timeRisk: TimeRisk,
    anomalyScore: real, classification: Classification, location: CloudLocation,
    assetIsDeception: bool, contextIsDeception: bool, recentEvents: seq<EventCategory>)

  predicate TargetsDeception(input: TrustInput) {
    input.assetIsDeception || input.contextIsDeception || input.location == DeceptionZone
  }

  predicate LacksMfa(input: TrustInput) {
    !input.requestMfa || !input.identityMfa
  }

  predicate HasHighImpact(action: AccessAction) {
    action == Export || action == Delete || action == Admin
  }

  function SensitivityBase(classification: Classification): int {
    match classification
    case PublicData => 4
    case InternalData => 10
    case ConfidentialData => 18
    case SensitiveData => 28
    case CriticalData => 38
  }

  function DevicePoints(trust: DeviceTrust): int {
    match trust case UnknownDevice => 12 case Compromised => 26 case _ => 0
  }

  function LocationPoints(risk: LocationRisk): int {
    match risk case MediumLocation => 8 case HighLocation => 16 case LowLocation => 0
  }

  function TimePoints(risk: TimeRisk): int {
    match risk case Elevated => 6 case OffHours => 12 case NormalHours => 0
  }

  predicate SpikesVolume(input: TrustInput) {
    input.identityType == Service && input.anomalyScore >= 72.0
  }

  function TypePoints(input: TrustInput): int {
    match input.identityType
    case ThirdParty => if HighlyClassified(input.classification) then 26 else 14
    case Service => if SpikesVolume(input) then 22 else 8
    case User => 0
  }

  function EventPoints(recentEvents: seq<EventCategory>): int {
    (if ImpossibleTravel in recentEvents then 14 else 0)
    + (if DeceptionTriggered in recentEvents then 18 else 0)
    + (if PrivilegeEscalation in recentEvents then 16 else 0)
  }

  function ContextPoints(input: TrustInput): int {
    SensitivityBase(input.classification)
    + (if LacksMfa(input) then 18 else 0)
    + DevicePoints(input.deviceTrust)
    + LocationPoints(input.locationRisk)
    + TimePoints(input.timeRisk)
    + (if HasHighImpact(input.requestedAction) then 18 else 0)
    + (if input.classification == CriticalData && LacksMfa(input) then 20 else 0)
  }

  /** The unrounded score of a request whose target is no lure: one term for each signal. */
  function TrustScore(input: TrustInput): real {
    input.anomalyScore * 0.35
    + (ContextPoints(input) + TypePoints(input) + EventPoints(input.recentEvents)) as real
  }

  function RiskScore(input: TrustInput): int {
    Clamp(Round(TrustScore(input)), 0, 100)
  }

  function PickDecision(score: int): Decision {
    if score >= 92 then Isolate
    else if score >= 76 then Deny
    else if score >= 56 then StepUp
    else if score >= 34 then LimitedAllow
    else Allow
  }

  /** Which messages hold the word "deception" as the engine spells it. */
  predicate MentionsDeception(reason: TrustReason) {
    reason == RecentDeception
  }

  function NormalizeDecision(score: int, reasons: seq<TrustReason>, targetIsDeception: bool): Decision {
    if targetIsDeception then Isolate
    else if exists i | 0 <= i < |reasons| :: MentionsDeception(reasons[i]) then Isolate
    else PickDecision(score)
  }

  function PlaceReasons(input: TrustInput): seq<TrustReason> {
    []
    + When(LacksMfa(input), [MfaMissing])
    + When(input.deviceTrust == UnknownDevice, [DeviceUnknown])
    + When(input.deviceTrust == Compromised, [DeviceUntrusted])
    + When(input.locationRisk == MediumLocation, [LocationNeedsCheck])
    + When(input.locationRisk == HighLocation, [LocationHighRisk])
  }

  function SignalReasons(input: TrustInput): seq<TrustReason> {
    PlaceReasons(input)
    + When(input.timeRisk == Elevated, [TimeUnusual])
    + When(input.timeRisk == OffHours, [TimeOffHours])
    + When(HasHighImpact(input.requestedAction), [HighImpactAction])
    + When(input.classification == CriticalData && LacksMfa(input), [CriticalWithoutMfa])
  }

  function KindReasons(input: TrustInput): seq<TrustReason> {
    SignalReasons(input)
    + When(input.identityType == ThirdParty, [ThirdPartyAccess])
    + When(input.identityType == ThirdParty && HighlyClassified(input.classification), [ThirdPartySensitive])
    + When(input.identityType == Service, [ServiceAccount])
    + When(SpikesVolume(input), [ServiceVolumeSpike])
  }

  function Reasons(input: TrustInput): seq<TrustReason> {
    KindReasons(input)
    + When(ImpossibleTravel in input.recentEvents, [RecentTravel])
    + When(DeceptionTriggered in input.recentEvents, [RecentDeception])
    + When(PrivilegeEscalation in input.recentEvents, [RecentEscalation])
  }

  function SignalActions(input: TrustInput): seq<TrustAction> {
    []
    + When(LacksMfa(input), [MustRequireMfa])
    + When(input.deviceTrust == Compromised, [MustIsolateIdentity])
    + When(input.locationRisk == HighLocation, [MustCreateTicket])
    + When(SpikesVolume(input), [MustRevokeToken])
    + When(DeceptionTriggered in input.recentEvents, [MustIsolateIdentity])
  }

  function NamedActions(input: TrustInput, decision: Decision): seq<TrustAction> {
    SignalActions(input)
    + When(decision == LimitedAllow, [MustLimit])
    + When(decision == StepUp, [MustStepUp])
    + When(decision == Deny, [MustNotifyTeam])
    + When(decision == Isolate, [MustIsolateIdentity, MustNotifyTeam])
  }

  function SignPolicies(input: TrustInput): seq<PolicyMatch> {
    []
    + When(LacksMfa(input), [MfaRequired])
    + When(input.deviceTrust == Compromised, [UntrustedDeviceBlock])
    + When(input.locationRisk == HighLocation, [HighLocationRiskPolicy])
    + When(input.timeRisk == OffHours, [OffHoursRequest])
    + When(HasHighImpact(input.requestedAction), [HighImpactPolicy])
  }

  function PolicyMatches(input: TrustInput): seq<PolicyMatch> {
    SignPolicies(input)
    + When(input.classification == CriticalData && LacksMfa(input), [CriticalDataRequiresMfa])
    + When(input.identityType == ThirdParty, [ThirdPartyRestriction])
    + When(SpikesVolume(input), [ServiceVolumePolicy])
    + When(ImpossibleTravel in input.recentEvents, [ImpossibleTravelGuard])
  }

  const LURE_EVALUATION := Evaluation(
    Isolate, 99, [TargetIsDeception],
    [MustIsolateIdentity, MustRevokeToken, MustNotifyTeam, MustCreateTicket], [DeceptionAccessIsolate])

  function Evaluate(input: TrustInput): Evaluation {
    if TargetsDeception(input) then LURE_EVALUATION
    else
      var reasons := Reasons(input);
      var decision := NormalizeDecision(RiskScore(input), reasons, false);
      Evaluation(
        decision, RiskScore(input), if reasons == [] then [LowRiskContext] else reasons,
        Unique(NamedActions(input, decision)), PolicyMatches(input))
  }

  // ---- The engine's own computation ----

  method EvaluateZeroTrustRequest(input: TrustInput) returns (result: Evaluation)
    ensures result == Evaluate(input)
  {
    if TargetsDeception(input) {
      return LURE_EVALUATION;
    }
    var score := ScoreSignals(input);
    var reasons := CollectReasons(input);
    var riskScore := Clamp(Round(score), 0, 100);
    var decision := NormalizeDecision(riskScore, reasons, false);
    var actions := CollectActions(input, decision);
    var policies := CollectPolicies(input);
    if |reasons| == 0 { reasons := [LowRiskContext]; }
    result := Evaluation(decision, riskScore, reasons, actions, policies);
  }

  method ScoreSignals(input: TrustInput) returns (score: real)
    ensures score == TrustScore(input)
  {
    score := ScoreContext(input);
    if input.identityType == ThirdParty { score := score + 14.0; }
    if input.identityType == ThirdParty && HighlyClassified(input.classification) { score := score + 12.0; }
    if input.identityType == Service { score := score + 8.0; }
    if input.identityType == Service && input.anomalyScore >= 72.0 { score := score + 14.0; }
    if ImpossibleTravel in input.recentEvents { score := score + 14.0; }
    if DeceptionTriggered in input.recentEvents { score := score + 18.0; }
    if PrivilegeEscalation in input.recentEvents { score := score + 16.0; }
  }

  method ScoreContext(input: TrustInput) returns (score: real)
    ensures score == input.anomalyScore * 0.35 + ContextPoints(input) as real
  {
    score := SensitivityBase(input.classification) as real;
    score := score + input.anomalyScore * 0.35;
    if !input.requestMfa || !input.identityMfa { score := score + 18.0; }
    if input.deviceTrust == UnknownDevice { score := score + 12.0; }
    if input.deviceTrust == Compromised { score := score + 26.0; }
    if input.locationRisk == MediumLocation { score := score + 8.0; }
    if input.locationRisk == HighLocation { score := score + 16.0; }
    if input.timeRisk == Elevated { score := score + 6.0; }
    if input.timeRisk == OffHours { score := score + 12.0; }
    if HasHighImpact(input.requestedAction) { score := score + 18.0; }
    if input.classification == CriticalData && (!input.requestMfa || !input.identityMfa) { score := score + 20.0; }
  }

  method CollectReasons(input: TrustInput) returns (reasons: seq<TrustReason>)
    ensures reasons == Reasons(input)
  {
    reasons := CollectSignalReasons(input);
    reasons := PushIf(reasons, input.identityType == ThirdParty, [ThirdPartyAccess]);
    reasons := PushIf(
      reasons, input.identityType == ThirdParty && HighlyClassified(input.classification), [ThirdPartySensitive]);
    reasons := PushIf(reasons, input.identityType == Service, [ServiceAccount]);
    reasons := PushIf(reasons, SpikesVolume(input), [ServiceVolumeSpike]);
    reasons := PushIf(reasons, ImpossibleTravel in input.recentEvents, [RecentTravel]);
    reasons := PushIf(reasons, DeceptionTriggered in input.recentEvents, [RecentDeception]);
    reasons := PushIf(reasons, PrivilegeEscalation in input.recentEvents, [RecentEscalation]);
  }

  method CollectSignalReasons(input: TrustInput) returns (reasons: seq<TrustReason>)
    ensures reasons == SignalReasons(input)
  {
    reasons := PushIf([], LacksMfa(input), [MfaMissing]);
    reasons := PushIf(reasons, input.deviceTrust == UnknownDevice, [DeviceUnknown]);
    reasons := PushIf(reasons, input.deviceTrust == Compromised, [DeviceUntrusted]);
    reasons := PushIf(reasons, input.locationRisk == MediumLocation, [LocationNeedsCheck]);
    reasons := PushIf(reasons, input.locationRisk == HighLocation, [LocationHighRisk]);
    reasons := PushIf(reasons, input.timeRisk == Elevated, [TimeUnusual]);
    reasons := PushIf(reasons, input.timeRisk == OffHours, [TimeOffHours]);
    reasons := PushIf(reasons, HasHighImpact(input.requestedAction), [HighImpactAction]);
    reasons := PushIf(reasons, input.classification == CriticalData && LacksMfa(input), [CriticalWithoutMfa]);
  }

  method CollectSignalActions(input: TrustInput) returns (actions: seq<TrustAction>)
    ensures actions == Unique(SignalActions(input))
  {
    ghost var named;
    actions, named := AddIf([], [], LacksMfa(input), [MustRequireMfa]);
    actions, named := AddIf(actions, named, input.deviceTrust == Compromised, [MustIsolateIdentity]);
    actions, named := AddIf(actions, named, input.locationRisk == HighLocation, [MustCreateTicket]);
    actions, named := AddIf(actions, named, SpikesVolume(input), [MustRevokeToken]);
    actions, named := AddIf(actions, named, DeceptionTriggered in input.recentEvents, [MustIsolateIdentity]);
  }

  method CollectActions(input: TrustInput, decision: Decision) returns (actions: seq<TrustAction>)
    ensures actions == Unique(NamedActions(input, decision))
  {
    actions := CollectSignalActions(input);
    ghost var named := SignalActions(input);
    actions, named := AddIf(actions, named, decision == LimitedAllow, [MustLimit]);
    actions, named := AddIf(actions, named, decision == StepUp, [MustStepUp]);
    actions, named := AddIf(actions, named, decision == Deny, [MustNotifyTeam]);
    actions, named := AddIf(actions, named, decision == Isolate, [MustIsolateIdentity, MustNotifyTeam]);
  }

  method CollectPolicies(input: TrustInput) returns (policies: seq<PolicyMatch>)
    ensures policies == PolicyMatches(input)
  {
    policies := PushIf([], LacksMfa(input), [MfaRequired]);
    policies := PushIf(policies, input.deviceTrust == Compromised, [UntrustedDeviceBlock]);
    policies := PushIf(policies, input.locationRisk == HighLocation, [HighLocationRiskPolicy]);
    policies := PushIf(policies, input.timeRisk == OffHours, [OffHoursRequest]);
    policies := PushIf(policies, HasHighImpact(input.requestedAction), [HighImpactPolicy]);
    policies := PushIf(policies, input.classification == CriticalData && LacksMfa(input), [CriticalDataRequiresMfa]);
    policies := PushIf(policies, input.identityType == ThirdParty, [ThirdPartyRestriction]);
    policies := PushIf(policies, SpikesVolume(input), [ServiceVolumePolicy]);
    policies := PushIf(policies, ImpossibleTravel in input.recentEvents, [ImpossibleTravelGuard]);
  }

  // ---- What the decisions promise ----

  lemma ReasonsMentionDeception(input: TrustInput)
    ensures (exists i | 0 <= i < |Reasons(input)| :: MentionsDeception(Reasons(input)[i]))
            <==> DeceptionTriggered in input.recentEvents
  {
    var reasons := Reasons(input);
    CollectedExactly(input, RecentDeception);
    if i :| 0 <= i < |reasons| && MentionsDeception(reasons[i]) {
      assert reasons[i] in reasons;
    }
  }

  /** A request is isolated exactly when its target is a lure, its identity has recently hit a
      trap, or its score reaches 92. */
  lemma IsolatesExactly(input: TrustInput)
    ensures Evaluate(input).decision == Isolate <==>
            TargetsDeception(input) || DeceptionTriggered in input.recentEvents || RiskScore(input) >= 92
  {
    ReasonsMentionDeception(input);
  }

  predicate Orders(input: TrustInput, decision: Decision, action: TrustAction) {
    match action
    case MustRequireMfa => LacksMfa(input)
    case MustIsolateIdentity =>
      input.deviceTrust == Compromised || DeceptionTriggered in input.recentEvents || decision == Isolate
    case MustCreateTicket => input.locationRisk == HighLocation
    case MustRevokeToken => SpikesVolume(input)
    case MustLimit => decision == LimitedAllow
    case MustStepUp => decision == StepUp
    case MustNotifyTeam => decision == Deny || decision == Isolate
  }

  lemma SignalsExactly(input: TrustInput, action: TrustAction)
    ensures action in SignalActions(input) <==>
            match action
            case MustRequireMfa => LacksMfa(input)
            case MustIsolateIdentity =>
              input.deviceTrust == Compromised || DeceptionTriggered in input.recentEvents
            case MustCreateTicket => input.locationRisk == HighLocation
            case MustRevokeToken => SpikesVolume(input)
            case _ => false
  {
  }

  lemma NamedExactly(input: TrustInput, decision: Decision, action: TrustAction)
    ensures action in NamedActions(input, decision) <==> Orders(input, decision, action)
  {
    SignalsExactly(input, action);
  }

  /** The actions a lure orders, whatever else is known of the request. */
  predicate LureOrders(action: TrustAction) {
    action in {MustIsolateIdentity, MustRevokeToken, MustNotifyTeam, MustCreateTicket}
  }

  /** Which follow-up actions an evaluation orders, each of them exactly. */
  lemma ActionsExactly(input: TrustInput, action: TrustAction)
    ensures action in Evaluate(input).requiredActions <==>
            if TargetsDeception(input) then LureOrders(action)
            else Orders(input, Evaluate(input).decision, action)
  {
    if !TargetsDeception(input) {
      NamedExactly(input, Evaluate(input).decision, action);
      UniqueKeeps(NamedActions(input, Evaluate(input).decision), action);
    }
  }

  lemma IsolationOrdersIsolation(input: TrustInput)
    ensures MustIsolateIdentity in Evaluate(input).requiredActions <==>
            Evaluate(input).decision == Isolate || input.deviceTrust == Compromised
  {
    IsolatesExactly(input);
    if !TargetsDeception(input) {
      ActionsExactly(input, MustIsolateIdentity);
    }
  }

  /** What each reason says of the request, its identity, its target and the recent events. */
  predicate Says(input: TrustInput, reason: TrustReason) {
    match reason
    case TargetIsDeception => IsLure(input)
    case MfaMissing => !input.requestMfa || !input.identityMfa
    case DeviceUnknown => input.deviceTrust == UnknownDevice
    case DeviceUntrusted => input.deviceTrust == Compromised
    case LocationNeedsCheck => input.locationRisk == MediumLocation
    case LocationHighRisk => input.locationRisk == HighLocation
    case TimeUnusual => input.timeRisk == Elevated
    case TimeOffHours => input.timeRisk == OffHours
    case HighImpactAction => input.requestedAction in {Export, Delete, Admin}
    case CriticalWithoutMfa => input.classification == CriticalData && (!input.requestMfa || !input.identityMfa)
    case ThirdPartyAccess => input.identityType == ThirdParty
    case ThirdPartySensitive =>
      input.identityType == ThirdParty && input.classification in {SensitiveData, CriticalData}
    case ServiceAccount => input.identityType == Service
    case ServiceVolumeSpike => input.identityType == Service && input.anomalyScore >= 72.0
    case RecentTravel => ImpossibleTravel in input.recentEvents
    case RecentDeception => DeceptionTriggered in input.recentEvents
    case RecentEscalation => PrivilegeEscalation in input.recentEvents
    case LowRiskContext => !ShowsRisk(input)
  }

  /** Some signal of a request is not the harmless one. */
  predicate ShowsRisk(input: TrustInput) {
    || !input.requestMfa || !input.identityMfa
    || input.deviceTrust in {UnknownDevice, Compromised}
    || input.locationRisk != LowLocation || input.timeRisk != NormalHours
    || input.requestedAction in {Export, Delete, Admin} || input.identityType != User
    || ImpossibleTravel in input.recentEvents || DeceptionTriggered in input.recentEvents
    || PrivilegeEscalation in input.recentEvents
  }

  lemma PlacesListed(input: TrustInput, reason: TrustReason)
    ensures reason in PlaceReasons(input) <==>
            || (LacksMfa(input) && reason == MfaMissing)
            || (input.deviceTrust == UnknownDevice && reason == DeviceUnknown)
            || (input.deviceTrust == Compromised && reason == DeviceUntrusted)
            || (input.locationRisk == MediumLocation && reason == LocationNeedsCheck)
            || (input.locationRisk == HighLocation && reason == LocationHighRisk)
  {
    var r0: seq<TrustReason> := [];
    WhenAdds(r0, LacksMfa(input), MfaMissing, reason);
    var r1 := r0 + When(LacksMfa(input), [MfaMissing]);
    WhenAdds(r1, input.deviceTrust == UnknownDevice, DeviceUnknown, reason);
    var r2 := r1 + When(input.deviceTrust == UnknownDevice, [DeviceUnknown]);
    WhenAdds(r2, input.deviceTrust == Compromised, DeviceUntrusted, reason);
    var r3 := r2 + When(input.deviceTrust == Compromised, [DeviceUntrusted]);
    WhenAdds(r3, input.locationRisk == MediumLocation, LocationNeedsCheck, reason);
    var r4 := r3 + When(input.locationRisk == MediumLocation, [LocationNeedsCheck]);
    WhenAdds(r4, input.locationRisk == HighLocation, LocationHighRisk, reason);
  }

  lemma SignalsListed(input: TrustInput, reason: TrustReason)
    ensures reason in SignalReasons(input) <==>
            || reason in PlaceReasons(input)
            || (input.timeRisk == Elevated && reason == TimeUnusual)
            || (input.timeRisk == OffHours && reason == TimeOffHours)
            || (HasHighImpact(input.requestedAction) && reason == HighImpactAction)
            || (input.classification == CriticalData && LacksMfa(input) && reason == CriticalWithoutMfa)
  {
    var r0, open := PlaceReasons(input), input.classification == CriticalData && LacksMfa(input);
    WhenAdds(r0, input.timeRisk == Elevated, TimeUnusual, reason);
    var r1 := r0 + When(input.timeRisk == Elevated, [TimeUnusual]);
    WhenAdds(r1, input.timeRisk == OffHours, TimeOffHours, reason);
    var r2 := r1 + When(input.timeRisk == OffHours, [TimeOffHours]);
    WhenAdds(r2, HasHighImpact(input.requestedAction), HighImpactAction, reason);
    var r3 := r2 + When(HasHighImpact(input.requestedAction), [HighImpactAction]);
    WhenAdds(r3, open, CriticalWithoutMfa, reason);
  }

  lemma KindsListed(input: TrustInput, reason: TrustReason)
    ensures reason in KindReasons(input) <==>
            || reason in SignalReasons(input)
            || (input.identityType == ThirdParty && reason == ThirdPartyAccess)
            || (input.identityType == ThirdParty && HighlyClassified(input.classification)
                && reason == ThirdPartySensitive)
            || (input.identityType == Service && reason == ServiceAccount)
            || (SpikesVolume(input) && reason == ServiceVolumeSpike)
  {
    var r0, shared := SignalReasons(input), input.identityType == ThirdParty;
    var exposed := shared && HighlyClassified(input.classification);
    WhenAdds(r0, shared, ThirdPartyAccess, reason);
    var r1 := r0 + When(shared, [ThirdPartyAccess]);
    WhenAdds(r1, exposed, ThirdPartySensitive, reason);
    var r2 := r1 + When(exposed, [ThirdPartySensitive]);
    WhenAdds(r2, input.identityType == Service, ServiceAccount, reason);
    var r3 := r2 + When(input.identityType == Service, [ServiceAccount]);
    WhenAdds(r3, SpikesVolume(input), ServiceVolumeSpike, reason);
  }

  lemma ReasonsListed(input: TrustInput, reason: TrustReason)
    ensures reason in Reasons(input) <==>
            || reason in KindReasons(input)
            || (ImpossibleTravel in input.recentEvents && reason == RecentTravel)
            || (DeceptionTriggered in input.recentEvents && reason == RecentDeception)
            || (PrivilegeEscalation in input.recentEvents && reason == RecentEscalation)
  {
    var r0 := KindReasons(input);
    WhenAdds(r0, ImpossibleTravel in input.recentEvents, RecentTravel, reason);
    var r1 := r0 + When(ImpossibleTravel in input.recentEvents, [RecentTravel]);
    WhenAdds(r1, DeceptionTriggered in input.recentEvents, RecentDeception, reason);
    var r2 := r1 + When(DeceptionTriggered in input.recentEvents, [RecentDeception]);
    WhenAdds(r2, PrivilegeEscalation in input.recentEvents, RecentEscalation, reason);
  }

  lemma CollectedExactly(input: TrustInput, reason: TrustReason)
    ensures reason in Reasons(input) <==>
            Says(input, reason) && reason != TargetIsDeception && reason != LowRiskContext
  {
    PlacesListed(input, reason);
    SignalsListed(input, reason);
    KindsListed(input, reason);
    ReasonsListed(input, reason);
  }

  lemma NothingCollected(input: TrustInput)
    ensures Reasons(input) == [] <==> !ShowsRisk(input)
  {
    if Reasons(input) == [] {
      CollectedExactly(input, MfaMissing);
      CollectedExactly(input, DeviceUnknown);
      CollectedExactly(input, DeviceUntrusted);
      CollectedExactly(input, LocationNeedsCheck);
      CollectedExactly(input, LocationHighRisk);
      CollectedExactly(input, TimeUnusual);
      CollectedExactly(input, TimeOffHours);
      CollectedExactly(input, HighImpactAction);
      CollectedExactly(input, ThirdPartyAccess);
      CollectedExactly(input, ServiceAccount);
      CollectedExactly(input, RecentTravel);
      CollectedExactly(input, RecentDeception);
      CollectedExactly(input, RecentEscalation);
    } else {
      CollectedExactly(input, Reasons(input)[0]);
    }
  }

  /** An evaluation gives exactly the reasons that hold, and a lure the one reason that it is one. */
  lemma ReasonsExactly(input: TrustInput, reason: TrustReason)
    ensures reason in Evaluate(input).reasons <==>
            if IsLure(input) then reason == TargetIsDeception else Says(input, reason)
  {
    if !IsLure(input) {
      CollectedExactly(input, reason);
      NothingCollected(input);
    }
  }

  predicate Applies(input: TrustInput, policy: PolicyMatch) {
    match policy
    case DeceptionAccessIsolate => IsLure(input)
    case MfaRequired => !input.requestMfa || !input.identityMfa
    case UntrustedDeviceBlock => input.deviceTrust == Compromised
    case HighLocationRiskPolicy => input.locationRisk == HighLocation
    case OffHoursRequest => input.timeRisk == OffHours
    case HighImpactPolicy => input.requestedAction in {Export, Delete, Admin}
    case CriticalDataRequiresMfa => input.classification == CriticalData && (!input.requestMfa || !input.identityMfa)
    case ThirdPartyRestriction => input.identityType == ThirdParty
    case ServiceVolumePolicy => input.identityType == Service && input.anomalyScore >= 72.0
    case ImpossibleTravelGuard => ImpossibleTravel in input.recentEvents
  }

  lemma SignPoliciesListed(input: TrustInput, policy: PolicyMatch)
    ensures policy in SignPolicies(input) <==>
            || (LacksMfa(input) && policy == MfaRequired)
            || (input.deviceTrust == Compromised && policy == UntrustedDeviceBlock)
            || (input.locationRisk == HighLocation && policy == HighLocationRiskPolicy)
            || (input.timeRisk == OffHours && policy == OffHoursRequest)
            || (HasHighImpact(input.requestedAction) && policy == HighImpactPolicy)
  {
    var p0: seq<PolicyMatch> := [];
    WhenAdds(p0, LacksMfa(input), MfaRequired, policy);
    var p1 := p0 + When(LacksMfa(input), [MfaRequired]);
    WhenAdds(p1, input.deviceTrust == Compromised, UntrustedDeviceBlock, policy);
    var p2 := p1 + When(input.deviceTrust == Compromised, [UntrustedDeviceBlock]);
    WhenAdds(p2, input.locationRisk == HighLocation, HighLocationRiskPolicy, policy);
    var p3 := p2 + When(input.locationRisk == HighLocation, [HighLocationRiskPolicy]);
    WhenAdds(p3, input.timeRisk == OffHours, OffHoursRequest, policy);
    var p4 := p3 + When(input.timeRisk == OffHours, [OffHoursRequest]);
    WhenAdds(p4, HasHighImpact(input.requestedAction), HighImpactPolicy, policy);
  }

  lemma PoliciesListed(input: TrustInput, policy: PolicyMatch)
    ensures policy in PolicyMatches(input) <==>
            || policy in SignPolicies(input)
            || (input.classification == CriticalData && LacksMfa(input) && policy == CriticalDataRequiresMfa)
            || (input.identityType == ThirdParty && policy == ThirdPartyRestriction)
            || (SpikesVolume(input) && policy == ServiceVolumePolicy)
            || (ImpossibleTravel in input.recentEvents && policy == ImpossibleTravelGuard)
  {
    var p0: seq<PolicyMatch> := SignPolicies(input);
    WhenAdds(p0, input.classification == CriticalData && LacksMfa(input), CriticalDataRequiresMfa, policy);
    var p1 := p0 + When(input.classification == CriticalData && LacksMfa(input), [CriticalDataRequiresMfa]);
    WhenAdds(p1, input.identityType == ThirdParty, ThirdPartyRestriction, policy);
    var p2 := p1 + When(input.identityType == ThirdParty, [ThirdPartyRestriction]);
    WhenAdds(p2, SpikesVolume(input), ServiceVolumePolicy, policy);
    var p3 := p2 + When(SpikesVolume(input), [ServiceVolumePolicy]);
    WhenAdds(p3, ImpossibleTravel in input.recentEvents, ImpossibleTravelGuard, policy);
  }

  /** An evaluation names exactly the policies that apply, and for a lure only its own. */
  lemma PoliciesExactly(input: TrustInput, policy: PolicyMatch)
    ensures policy in Evaluate(input).policyMatches <==>
            if IsLure(input) then policy == DeceptionAccessIsolate else Applies(input, policy)
  {
    SignPoliciesListed(input, policy);
    PoliciesListed(input, policy);
  }

  /** The decision by the reported score: from 34, 56, 76 and 92 points on, less and less is allowed. */
  lemma DecidesExactly(input: TrustInput)
    requires !IsLure(input) && DeceptionTriggered !in input.recentEvents
    ensures var e := Evaluate(input);
            && (e.decision == Allow <==> e.riskScore < 34)
            && (e.decision == LimitedAllow <==> 34 <= e.riskScore < 56)
            && (e.decision == StepUp <==> 56 <= e.riskScore < 76)
            && (e.decision == Deny <==> 76 <= e.riskScore < 92)
            && (e.decision == Isolate <==> 92 <= e.riskScore)
  {
    ReasonsMentionDeception(input);
  }

  /** The reported score is the sum of the signals, rounded half up, inside 0..100; a lure reports 99. */
  lemma ReportsRounded(input: TrustInput)
    ensures var score := Evaluate(input).riskScore;
            && 0 <= score <= 100
            && (IsLure(input) ==> score == 99)
            && (!IsLure(input) ==>
                  && (score == 0 || TrustScore(input) >= score as real - 0.5)
                  && (score == 100 || TrustScore(input) < score as real + 0.5))
  {
  }

  // ---- How far one signal moves the sum ----

  /** The sum of a request without any signal. */
  lemma HarmlessScore(location: CloudLocation, lure: bool, touched: bool)
    ensures TrustScore(TrustInput(User, true, true, Trusted, Read, LowLocation, NormalHours, 0.0, PublicData,
                                  location, lure, touched, [])) == 4.0
  {
  }

  lemma DeviceMoves(input: TrustInput)
    ensures TrustScore(input.(deviceTrust := Managed)) == TrustScore(input.(deviceTrust := Trusted))
    ensures TrustScore(input.(deviceTrust := UnknownDevice)) == TrustScore(input.(deviceTrust := Trusted)) + 12.0
    ensures TrustScore(input.(deviceTrust := Compromised)) == TrustScore(input.(deviceTrust := Trusted)) + 26.0
  {
  }

  lemma PlaceAndTimeMove(input: TrustInput)
    ensures TrustScore(input.(locationRisk := MediumLocation)) == TrustScore(input.(locationRisk := LowLocation)) + 8.0
    ensures TrustScore(input.(locationRisk := HighLocation)) == TrustScore(input.(locationRisk := LowLocation)) + 16.0
    ensures TrustScore(input.(timeRisk := Elevated)) == TrustScore(input.(timeRisk := NormalHours)) + 6.0
    ensures TrustScore(input.(timeRisk := OffHours)) == TrustScore(input.(timeRisk := NormalHours)) + 12.0
  {
  }

  lemma ActionMoves(input: TrustInput, action: AccessAction)
    ensures TrustScore(input.(requestedAction := action)) ==
            TrustScore(input.(requestedAction := Read)) + if action in {Export, Delete, Admin} then 18.0 else 0.0
  {
  }

  /** Either missing factor costs 18 points, and 20 more where the data is critical; a second one nothing. */
  lemma MfaMoves(input: TrustInput, asked: bool, enrolled: bool)
    ensures TrustScore(input.(requestMfa := asked, identityMfa := enrolled)) ==
            TrustScore(input.(requestMfa := true, identityMfa := true))
            + if asked && enrolled then 0.0 else if input.classification == CriticalData then 38.0 else 18.0
  {
  }

  lemma AnomalyMoves(input: TrustInput, anomaly: real)
    ensures TrustScore(input.(anomalyScore := anomaly)) ==
            TrustScore(input.(anomalyScore := 0.0)) + anomaly * 0.35
            + if input.identityType == Service && anomaly >= 72.0 then 14.0 else 0.0
  {
  }

  lemma KindMoves(input: TrustInput)
    ensures TrustScore(input.(identityType := ThirdParty)) == TrustScore(input.(identityType := User)) + 14.0
            + if input.classification in {SensitiveData, CriticalData} then 12.0 else 0.0
    ensures TrustScore(input.(identityType := Service)) == TrustScore(input.(identityType := User)) + 8.0
            + if input.anomalyScore >= 72.0 then 14.0 else 0.0
  {
  }

  lemma DataMoves(input: TrustInput)
    ensures var open, shared := TrustScore(input.(classification := PublicData)), input.identityType == ThirdParty;
            && TrustScore(input.(classification := InternalData)) == open + 6.0
            && TrustScore(input.(classification := ConfidentialData)) == open + 14.0
            && TrustScore(input.(classification := SensitiveData)) == open + 24.0 + (if shared then 12.0 else 0.0)
            && TrustScore(input.(classification := CriticalData)) == open + 34.0 + (if shared then 12.0 else 0.0)
               + if input.requestMfa && input.identityMfa then 0.0 else 20.0
  {
  }

  lemma EventsMove(input: TrustInput)
    ensures TrustScore(input) == TrustScore(input.(recentEvents := []))
            + (if ImpossibleTravel in input.recentEvents then 14.0 else 0.0)
            + (if DeceptionTriggered in input.recentEvents then 18.0 else 0.0)
            + (if PrivilegeEscalation in input.recentEvents then 16.0 else 0.0)
  {
  }

  /** An export without a second factor, from an unknown device, at a risky place and out of hours is refused, whoever
      asks and whatever the data. */
  lemma RiskyExportRefused(input: TrustInput)
    requires !input.requestMfa && input.deviceTrust == UnknownDevice && input.requestedAction == Export
    requires input.locationRisk == HighLocation && input.timeRisk == OffHours && input.anomalyScore >= 0.0
    ensures Evaluate(input).decision in {Deny, Isolate}
  {
    if !IsLure(input) {
      assert TrustScore(input) >= 80.0;
      RoundMonotone(80.0, TrustScore(input));
    }
  }

  // ---- Monotonicity ----

  function Restriction(decision: Decision): nat {
    match decision
    case Allow => 0
    case LimitedAllow => 1
    case StepUp => 2
    case Deny => 3
    case Isolate => 4
  }

  /** The orders of risk, by name: public, internal, confidential, sensitive, critical; trusted or managed, unknown,
      compromised; low, medium, high; normal hours, elevated, off hours. */
  predicate NoMoreSensitive(low: Classification, high: Classification) {
    match low
    case PublicData => true
    case InternalData => high != PublicData
    case ConfidentialData => high in {ConfidentialData, SensitiveData, CriticalData}
    case SensitiveData => high in {SensitiveData, CriticalData}
    case CriticalData => high == CriticalData
  }

  predicate NoLessTrusted(low: DeviceTrust, high: DeviceTrust) {
    match low
    case Trusted => true
    case Managed => true
    case UnknownDevice => high in {UnknownDevice, Compromised}
    case Compromised => high == Compromised
  }

  predicate NoRiskierPlace(low: LocationRisk, high: LocationRisk) {
    match low
    case LowLocation => true
    case MediumLocation => high != LowLocation
    case HighLocation => high == HighLocation
  }

  predicate NoRiskierTime(low: TimeRisk, high: TimeRisk) {
    match low
    case NormalHours => true
    case Elevated => high != NormalHours
    case OffHours => high == OffHours
  }

  /** `high` is at least as risky as `low` in every signal. A plain user is the least risky kind of
      identity; third parties and services are not compared with each other. */
  ghost predicate NoRiskier(low: TrustInput, high: TrustInput) {
    && NoMoreSensitive(low.classification, high.classification)
    && (high.requestMfa && high.identityMfa ==> low.requestMfa && low.identityMfa)
    && NoLessTrusted(low.deviceTrust, high.deviceTrust)
    && NoRiskierPlace(low.locationRisk, high.locationRisk)
    && NoRiskierTime(low.timeRisk, high.timeRisk)
    && (low.requestedAction in {Export, Delete, Admin} ==> high.requestedAction in {Export, Delete, Admin})
    && low.anomalyScore <= high.anomalyScore
    && (low.identityType == User || low.identityType == high.identityType)
    && (forall e :: e in low.recentEvents ==> e in high.recentEvents)
    && (IsLure(low) ==> IsLure(high))
  }

  /** A target that only an intruder would touch: marked as such, or in the deception zone. */
  predicate IsLure(input: TrustInput) {
    input.assetIsDeception || input.contextIsDeception || input.location == DeceptionZone
  }

  /** The score rises with every signal. */
  lemma ScoreMonotone(low: TrustInput, high: TrustInput)
    requires NoRiskier(low, high)
    ensures TrustScore(low) <= TrustScore(high)
    ensures RiskScore(low) <= RiskScore(high)
  {
    PointsMonotone(low, high);
    assert ContextPoints(low) <= ContextPoints(high);
    assert TypePoints(low) <= TypePoints(high);
    assert EventPoints(low.recentEvents) <= EventPoints(high.recentEvents);
    RoundMonotone(TrustScore(low), TrustScore(high));
  }

  lemma PointsMonotone(low: TrustInput, high: TrustInput)
    requires NoRiskier(low, high)
    ensures SensitivityBase(low.classification) <= SensitivityBase(high.classification)
    ensures DevicePoints(low.deviceTrust) <= DevicePoints(high.deviceTrust)
    ensures LocationPoints(low.locationRisk) <= LocationPoints(high.locationRisk)
    ensures TimePoints(low.timeRisk) <= TimePoints(high.timeRisk)
    ensures low.classification == CriticalData ==> high.classification == CriticalData
  {
  }

  /** Making any signals riskier never gives a less restrictive decision. */
  lemma DecisionMonotone(low: TrustInput, high: TrustInput)
    requires NoRiskier(low, high)
    ensures Restriction(Evaluate(low).decision) <= Restriction(Evaluate(high).decision)
  {
    ScoreMonotone(low, high);
    IsolatesExactly(low);
    IsolatesExactly(high);
    ReasonsMentionDeception(low);
    ReasonsMentionDeception(high);
  }

  /** The reported score is monotone too, unless only the riskier request meets a lure: a lure reports 99, so
      the score falls exactly when the signals of the other request round to 100 or more. */
  lemma ReportedScoreMonotone(low: TrustInput, high: TrustInput)
    requires NoRiskier(low, high)
    ensures Evaluate(low).riskScore <= Evaluate(high).riskScore <==>
            !(TargetsDeception(high) && !TargetsDeception(low) && TrustScore(low) >= 99.5)
  {
    ScoreMonotone(low, high);
    FullScore(low);
  }

  lemma FullScore(input: TrustInput)
    ensures RiskScore(input) == 100 <==> TrustScore(input) >= 99.5
  {
  }

  /** An administrator's access to critical data without multi-factor authentication, by a compromised device. */
  const FULL_RISK := TrustInput(
    User, false, false, Compromised, Admin, LowLocation, NormalHours, 0.0, CriticalData, PrivateCloud, false, false, [])

  /** The inputs that show it: the same request, and the same request against a lure. */
  lemma LureReportsLess()
    ensures NoRiskier(FULL_RISK, FULL_RISK.(assetIsDeception := true))
    ensures Evaluate(FULL_RISK).riskScore == 100
    ensures Evaluate(FULL_RISK.(assetIsDeception := true)).riskScore == 99
  {
    assert TrustScore(FULL_RISK) == 120.0;
    FullScore(FULL_RISK);
  }

  /** Critical data is refused to anyone without multi-factor authentication, for every anomaly
      score that is not negative. */
  lemma CriticalDataNeedsMfa(input: TrustInput)
    requires input.classification == CriticalData && LacksMfa(input) && input.anomalyScore >= 0.0
    ensures Evaluate(input).decision in {Deny, Isolate}
    ensures !TargetsDeception(input) ==> CriticalWithoutMfa in Evaluate(input).reasons
  {
    assert TypePoints(input) >= 0 && EventPoints(input.recentEvents) >= 0;
    assert TrustScore(input) >= 76.0;
    RoundMonotone(76.0, TrustScore(input));
    ReasonsMentionDeception(input);
    if !TargetsDeception(input) {
      assert CriticalWithoutMfa in SignalReasons(input);
    }
  }

  // ---- The manual evaluation form ----

  datatype AccessInput = AccessInput(
    identityVerified: bool, deviceTrust: DeviceTrust, identityType: Option<IdentityType>, mfa: bool,
    requestedAction: AccessAction, dataSensitivity: Classification, locationRisk: LocationRisk,
    timeRisk: TimeRisk, isServiceAccount: bool, isThirdParty: bool, anomalyScore: real,
    targetLocation: Option<CloudLocation>, isDeceptionTarget: bool, recentEvents: seq<EventCategory>)

  function KindOf(input: AccessInput): IdentityType {
    match input.identityType
    case Some(kind) => kind
    case None => if input.isThirdParty then ThirdParty else if input.isServiceAccount then Service else User
  }

  function ToTrustInput(input: AccessInput): TrustInput {
    TrustInput(
      KindOf(input), input.mfa, input.mfa, input.deviceTrust, input.requestedAction,
      input.locationRisk, input.timeRisk, input.anomalyScore, input.dataSensitivity,
      if input.targetLocation.Some? then input.targetLocation.value else PrivateCloud,
      input.isDeceptionTarget, input.isDeceptionTarget, input.recentEvents)
  }

  function EvaluateAccess(input: AccessInput): Evaluation {
    Evaluate(ToTrustInput(input))
  }

  /** The form isolates exactly for a lure by flag or by location, a recent trap hit, or a high
      score; verifying the identity never changes the evaluation. */
  lemma AccessIsolatesExactly(input: AccessInput)
    ensures EvaluateAccess(input).decision == Isolate <==>
            || input.isDeceptionTarget
            || input.targetLocation == Some(DeceptionZone)
            || DeceptionTriggered in input.recentEvents
            || RiskScore(ToTrustInput(input)) >= 92
    ensures EvaluateAccess(input.(identityVerified := !input.identityVerified)) == EvaluateAccess(input)
  {
    IsolatesExactly(ToTrustInput(input));
  }
}

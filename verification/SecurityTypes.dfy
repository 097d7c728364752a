/** The values the console works on: the enumerations and records of `src/types/index.ts`,
    with the display-only fields dropped. Timestamps are ranks in a total preorder, and risk and
    anomaly scores are exact numbers. */
module SecurityTypes {

  datatype Option<+T> = None | Some(value: T)

  datatype CloudLocation = PrivateCloud | PublicCloud | Saas | BackupSite | DeceptionZone

  datatype Classification =
    | PublicData | InternalData | ConfidentialData | SensitiveData | CriticalData

  /** The two classes the engines call sensitive. */
  predicate HighlyClassified(classification: Classification) {
    classification == SensitiveData || classification == CriticalData
  }

  datatype Anonymization = Applied | Partial | NotApplicable | Missing

  datatype RiskLevel = LowRisk | MediumRisk | HighRisk | CriticalRisk

  datatype DeviceTrust = Trusted | Managed | UnknownDevice | Compromised

  datatype AccessAction = Read | Write | Export | Delete | Admin

  datatype LocationRisk = LowLocation | MediumLocation | HighLocation

  datatype TimeRisk = NormalHours | Elevated | OffHours

  datatype IdentityType = User | Service | ThirdParty

  datatype IdentityStatus = Active | Watchlist | Suspicious | IsolatedIdentity

  datatype Decision = Allow | LimitedAllow | StepUp | Deny | Isolate

  datatype RequestStatus = Pending | Approved | Rejected | StepUpPending | IsolatedRequest

  datatype Severity = InfoSeverity | LowSeverity | MediumSeverity | HighSeverity | CriticalSeverity

  datatype EventStatus = Open | Investigating | Contained | Resolved | FalsePositive

  datatype EventCategory =
    | AuthFailure | MfaFailure | LoginSuccess | AdminAccessDenied | AdminAccessGranted
    | SettingsChanged | RoleChanged | StatusChanged | TrapTriggered | DataAssetRisk
    | AccessRequestCreated | ZeroTrustDecided | ComplianceGap | SystemHealthDegraded
    | ReportGenerated | UnauthorizedAccess | SuspiciousExport | PublicBucket | MissingEncryption
    | ImpossibleTravel | ApiAbuse | DeceptionTriggered | Ransomware | PrivilegeEscalation
    | PolicyViolation | ThirdPartyAnomaly | VisibilityGap | SecurityTestFinding

  datatype SoarAction =
    | AccountLock | RevokeToken | RequireMfa | IsolateIdentity | IsolateResource
    | CreateTicket | NotifyTeam | MarkContained | MarkResolved

  /** Why an asset got its score; one tag per message of the risk engine. */
  datatype RiskReason =
    | DeceptionAssetHeld | HighlySensitive | SensitiveInPublicCloud | NotEncrypted | NoKms | NoBackup
    | Regulated | VeryBusy | Busy | NotAnonymized | CriticalEventOpen | ManyOpenEvents
    | LureOnly | LureEscalates | ControlsInPlace

  datatype Control =
    | RbacAbac | Dlp | Cspm | Encryption | Kms | Backup | SecureDeletion | Siem | Soar | Deception
    | OtherControl(text: string)

  datatype ControlAction = Apply(control: Control) | KeepLure | IsolateAfterTrigger

  datatype RiskAssessment = RiskAssessment(
    score: int, level: RiskLevel, reasons: seq<RiskReason>,
    controls: seq<Control>, actions: seq<ControlAction>)

  datatype DataAsset = DataAsset(
    id: string, name: string, path: string, location: CloudLocation,
    classification: Classification, owner: string,
    encryptionEnabled: bool, kmsEnabled: bool, backupEnabled: bool,
    kvkkScope: bool, gdprScope: bool, retentionPolicy: string, anonymization: Anonymization,
    accessCount24h: int, accessIntensity: int,
    risk: RiskAssessment, recommendedControls: seq<Control>, isDeception: bool)

  datatype IdentityProfile = IdentityProfile(
    id: string, name: string, kind: IdentityType, mfaEnabled: bool, deviceTrust: DeviceTrust,
    anomalyScore: real, riskScore: real, status: IdentityStatus, notes: seq<Note>)

  /** Messages the engines compose, kept as tags instead of text. */
  datatype Note =
    | Text(text: string)
    | EventCreated
    | StatusSetTo(status: EventStatus)
    | ActionApplied(action: SoarAction)
    | ActionRan(action: SoarAction)
    | TrapHit(trap: string, at: int)

  datatype TimelineEntry = TimelineEntry(actor: string, message: Note)

  datatype SecurityEvent = SecurityEvent(
    id: string, severity: Severity, category: EventCategory, source: string, target: string,
    timestamp: int, status: EventStatus, recommendation: Note,
    playbookActions: seq<SoarAction>, timeline: seq<TimelineEntry>,
    relatedAssetId: Option<string>, relatedIdentityId: Option<string>)

  /** The reasons of a zero-trust evaluation. Only `RecentDeception` and `TargetIsDeception`
      stand for messages about deception; the first holds the word the engine searches for. */
  datatype TrustReason =
    | TargetIsDeception | MfaMissing | DeviceUnknown | DeviceUntrusted | LocationNeedsCheck
    | LocationHighRisk | TimeUnusual | TimeOffHours | HighImpactAction | CriticalWithoutMfa
    | ThirdPartyAccess | ThirdPartySensitive | ServiceAccount | ServiceVolumeSpike
    | RecentTravel | RecentDeception | RecentEscalation | LowRiskContext

  datatype TrustAction =
    | MustIsolateIdentity | MustRevokeToken | MustNotifyTeam | MustCreateTicket
    | MustRequireMfa | MustLimit | MustStepUp

  datatype PolicyMatch =
    | DeceptionAccessIsolate | MfaRequired | UntrustedDeviceBlock | HighLocationRiskPolicy
    | OffHoursRequest | HighImpactPolicy | CriticalDataRequiresMfa | ThirdPartyRestriction
    | ServiceVolumePolicy | ImpossibleTravelGuard

  datatype Evaluation = Evaluation(
    decision: Decision, riskScore: int, reasons: seq<TrustReason>,
    requiredActions: seq<TrustAction>, policyMatches: seq<PolicyMatch>)

  datatype AccessRequest = AccessRequest(
    id: string, identityId: string, identityName: string, identityType: IdentityType,
    targetAssetId: string, targetAssetName: string, deviceTrust: DeviceTrust, requestTime: int,
    requestedAction: AccessAction, mfa: bool, anomalyScore: real,
    locationRisk: LocationRisk, timeRisk: TimeRisk, dataSensitivity: Classification,
    evaluation: Evaluation, status: RequestStatus)

  datatype PolicyRule = PolicyRule(id: string, enabled: bool)

  datatype DeceptionStatus = Armed | Triggered

  datatype DeceptionAsset = DeceptionAsset(
    id: string, name: string, lureScore: int, triggerCount: int, lastTriggeredAt: Option<int>,
    severity: Option<Severity>, recommendedResponse: string, status: DeceptionStatus,
    autoActions: seq<SoarAction>)

  datatype SimulationRun = SimulationRun(
    id: string, scenarioId: string, createdAt: int, generatedEventIds: seq<string>)

  datatype ReportType = General | CriticalDataReport | ZeroTrustReport | DeceptionReport | Nist | Privacy | Demo

  datatype StepStatus = StepPending | StepActive | StepCompleted

  datatype DemoStep = DemoStep(id: string, status: StepStatus)

  datatype DemoScenario = DemoScenario(active: bool, currentStep: int, steps: seq<DemoStep>)

  datatype FunctionScores = FunctionScores(
    govern: int, identify: int, protect: int, detect: int, respond: int, recover: int)

  datatype PrivacyStatus = PrivacyStatus(
    personalAssets: nat, overseasTransferRisk: nat, encryptedCoverage: int,
    anonymizationCoverage: int, retentionCoverage: int, kvkkScore: int, gdprScore: int)

  datatype ComplianceSnapshot = ComplianceSnapshot(
    overallScore: int, iso27001Score: int, kvkkScore: int, gdprScore: int, nist: FunctionScores)

  datatype Environment = Environment(
    assets: seq<DataAsset>, identities: seq<IdentityProfile>, accessRequests: seq<AccessRequest>,
    policyRules: seq<PolicyRule>, events: seq<SecurityEvent>, deceptions: seq<DeceptionAsset>,
    compliance: ComplianceSnapshot, runs: seq<SimulationRun>, reports: seq<ReportType>,
    demoScenario: DemoScenario)
}

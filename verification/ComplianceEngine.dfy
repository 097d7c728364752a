/** `src/lib/compliance-engine.ts`: coverage shares and the scores averaged from them. */
module ComplianceEngine {
  import opened SecurityTypes
  import opened Rounding
  import opened Sequences
  import Text

  // ---- What is counted ----

  function IsReal(): DataAsset -> bool { (a: DataAsset) => !a.isDeception }

  function HasOwner(): DataAsset -> bool { (a: DataAsset) => !a.isDeception && a.owner != "" }

  function HasBackup(): DataAsset -> bool { (a: DataAsset) => !a.isDeception && a.backupEnabled }

  function IsBackupSite(): DataAsset -> bool { (a: DataAsset) => !a.isDeception && a.location == BackupSite }

  function IsSensitive(): DataAsset -> bool {
    (a: DataAsset) => !a.isDeception && HighlyClassified(a.classification)
  }

  function IsProtectedSensitive(): DataAsset -> bool {
    (a: DataAsset) => IsSensitive()(a) && a.encryptionEnabled && a.kmsEnabled
  }

  function IsPersonal(): DataAsset -> bool { (a: DataAsset) => !a.isDeception && (a.kvkkScope || a.gdprScope) }

  function IsEncryptedPersonal(): DataAsset -> bool {
    (a: DataAsset) => IsPersonal()(a) && a.encryptionEnabled && a.kmsEnabled
  }

  function IsAnonymized(): DataAsset -> bool {
    (a: DataAsset) => IsPersonal()(a) && (a.anonymization == Applied || a.anonymization == Partial)
  }

  function HasRetention(): DataAsset -> bool {
    (a: DataAsset) => IsPersonal()(a) && !Text.Contains(Text.ToLower(a.retentionPolicy), "belirsiz")
  }

  function IsAbroad(): DataAsset -> bool {
    (a: DataAsset) => IsPersonal()(a) && (a.location == PublicCloud || a.location == Saas)
  }

  function InKvkk(): DataAsset -> bool { (a: DataAsset) => IsPersonal()(a) && a.kvkkScope }

  function InGdpr(): DataAsset -> bool { (a: DataAsset) => IsPersonal()(a) && a.gdprScope }

  function HasMfa(): IdentityProfile -> bool { (i: IdentityProfile) => i.mfaEnabled }

  function IsEnabled(): PolicyRule -> bool { (r: PolicyRule) => r.enabled }

  function IsLogged(): SecurityEvent -> bool { (e: SecurityEvent) => e.category != VisibilityGap }

  function IsContained(): SecurityEvent -> bool {
    (e: SecurityEvent) => e.status == Contained || e.status == Resolved
  }

  function IsTrapHit(): SecurityEvent -> bool { (e: SecurityEvent) => e.category == DeceptionTriggered }

  function IsHandled(): SecurityEvent -> bool { (e: SecurityEvent) => |e.timeline| > 1 }

  function IsLive(): DeceptionAsset -> bool {
    (d: DeceptionAsset) => d.status == Armed || d.status == Triggered
  }

  // ---- The scores ----

  function CalculatePrivacy(assets: seq<DataAsset>): PrivacyStatus {
    var personal := Count(assets, IsPersonal());
    var encrypted := Percent(Count(assets, IsEncryptedPersonal()), personal);
    var anonymized := Percent(Count(assets, IsAnonymized()), personal);
    var retained := Percent(Count(assets, HasRetention()), personal);
    PrivacyStatus(
      personal, Count(assets, IsAbroad()), encrypted, anonymized, retained,
      RoundedAverage([Percent(Count(assets, InKvkk()), personal), encrypted, retained]),
      RoundedAverage([Percent(Count(assets, InGdpr()), personal), encrypted, anonymized]))
  }

  function BackupCoverage(assets: seq<DataAsset>): int {
    Percent(Count(assets, HasBackup()), Count(assets, IsReal()))
  }

  function ProtectedShare(assets: seq<DataAsset>): int {
    Percent(Count(assets, IsProtectedSensitive()), Count(assets, IsSensitive()))
  }

  function MfaCoverage(identities: seq<IdentityProfile>): int {
    Percent(Count(identities, HasMfa()), |identities|)
  }

  function CalculateFunctions(env: Environment): FunctionScores {
    var realAssets := Count(env.assets, IsReal());
    FunctionScores(
      RoundedAverage([Percent(Count(env.policyRules, IsEnabled()), |env.policyRules|),
                      if |env.reports| >= 6 then 88 else 64, 78]),
      RoundedAverage([Percent(realAssets, realAssets), Percent(Count(env.assets, HasOwner()), realAssets), 84]),
      RoundedAverage([ProtectedShare(env.assets), MfaCoverage(env.identities), BackupCoverage(env.assets)]),
      RoundedAverage([Percent(Count(env.events, IsLogged()), |env.events|),
                      Percent(Count(env.deceptions, IsLive()), |env.deceptions|),
                      if Count(env.events, IsTrapHit()) > 0 then 88 else 72]),
      RoundedAverage([Percent(Count(env.events, IsContained()), |env.events|),
                      if Count(env.events, IsHandled()) > 0 then 84 else 68, 78]),
      RoundedAverage([BackupCoverage(env.assets),
                      if Count(env.assets, IsBackupSite()) > 0 then 82 else 60, 74]))
  }

  function AsList(f: FunctionScores): seq<int> {
    [f.govern, f.identify, f.protect, f.detect, f.respond, f.recover]
  }

  function CalculateSnapshot(env: Environment): ComplianceSnapshot {
    var functions := CalculateFunctions(env);
    var privacy := CalculatePrivacy(env.assets);
    var overall := RoundedAverage(AsList(functions));
    ComplianceSnapshot(
      overall, RoundedAverage([overall, privacy.encryptedCoverage, privacy.retentionCoverage]),
      privacy.kvkkScore, privacy.gdprScore, functions)
  }

  // ---- Bounds ----

  ghost predicate InRange(score: int) { 0 <= score <= 100 }

  lemma ShareInRange<T>(xs: seq<T>, part: T -> bool, whole: T -> bool)
    requires forall x :: part(x) ==> whole(x)
    ensures InRange(Percent(Count(xs, part), Count(xs, whole)))
  {
    CountImplies(xs, xs, part, whole);
    PercentBounds(Count(xs, part), Count(xs, whole));
  }

  lemma AverageInRange(a: int, b: int, c: int)
    requires InRange(a) && InRange(b) && InRange(c)
    ensures InRange(RoundedAverage([a, b, c]))
  {
    RoundedAverageBounds([a, b, c], 0, 100);
  }

  lemma PrivacyInRange(assets: seq<DataAsset>)
    ensures var p := CalculatePrivacy(assets);
            && InRange(p.encryptedCoverage) && InRange(p.anonymizationCoverage)
            && InRange(p.retentionCoverage) && InRange(p.kvkkScore) && InRange(p.gdprScore)
  {
    var p := CalculatePrivacy(assets);
    ShareInRange(assets, IsEncryptedPersonal(), IsPersonal());
    ShareInRange(assets, IsAnonymized(), IsPersonal());
    ShareInRange(assets, HasRetention(), IsPersonal());
    ShareInRange(assets, InKvkk(), IsPersonal());
    ShareInRange(assets, InGdpr(), IsPersonal());
    AverageInRange(Percent(Count(assets, InKvkk()), p.personalAssets), p.encryptedCoverage, p.retentionCoverage);
    AverageInRange(Percent(Count(assets, InGdpr()), p.personalAssets), p.encryptedCoverage, p.anonymizationCoverage);
  }

  lemma FunctionsInRange(env: Environment)
    ensures forall i :: 0 <= i < 6 ==> InRange(AsList(CalculateFunctions(env))[i])
  {
    var realAssets := Count(env.assets, IsReal());
    PercentBounds(Count(env.policyRules, IsEnabled()), |env.policyRules|);
    PercentBounds(realAssets, realAssets);
    ShareInRange(env.assets, HasOwner(), IsReal());
    ShareInRange(env.assets, IsProtectedSensitive(), IsSensitive());
    PercentBounds(Count(env.identities, HasMfa()), |env.identities|);
    ShareInRange(env.assets, HasBackup(), IsReal());
    PercentBounds(Count(env.events, IsLogged()), |env.events|);
    PercentBounds(Count(env.deceptions, IsLive()), |env.deceptions|);
    PercentBounds(Count(env.events, IsContained()), |env.events|);
    AverageInRange(Percent(Count(env.policyRules, IsEnabled()), |env.policyRules|),
                   if |env.reports| >= 6 then 88 else 64, 78);
    AverageInRange(Percent(realAssets, realAssets), Percent(Count(env.assets, HasOwner()), realAssets), 84);
    AverageInRange(ProtectedShare(env.assets), MfaCoverage(env.identities), BackupCoverage(env.assets));
    AverageInRange(Percent(Count(env.events, IsLogged()), |env.events|),
                   Percent(Count(env.deceptions, IsLive()), |env.deceptions|),
                   if Count(env.events, IsTrapHit()) > 0 then 88 else 72);
    AverageInRange(Percent(Count(env.events, IsContained()), |env.events|),
                   if Count(env.events, IsHandled()) > 0 then 84 else 68, 78);
    AverageInRange(BackupCoverage(env.assets), if Count(env.assets, IsBackupSite()) > 0 then 82 else 60, 74);
  }

  /** Every score is a percentage. */
  lemma ScoresInRange(env: Environment)
    ensures var s := CalculateSnapshot(env);
            && InRange(s.overallScore) && InRange(s.iso27001Score)
            && InRange(s.kvkkScore) && InRange(s.gdprScore)
            && (forall i :: 0 <= i < 6 ==> InRange(AsList(s.nist)[i]))
  {
    var s := CalculateSnapshot(env);
    FunctionsInRange(env);
    PrivacyInRange(env.assets);
    RoundedAverageBounds(AsList(s.nist), 0, 100);
    var p := CalculatePrivacy(env.assets);
    AverageInRange(s.overallScore, p.encryptedCoverage, p.retentionCoverage);
  }

  /** The overall score is never below the weakest of the six functions nor above the strongest. */
  lemma OverallBetweenFunctions(env: Environment, low: int, high: int)
    requires forall i :: 0 <= i < 6 ==> low <= AsList(CalculateSnapshot(env).nist)[i] <= high
    ensures low <= CalculateSnapshot(env).overallScore <= high
  {
    RoundedAverageBounds(AsList(CalculateSnapshot(env).nist), low, high);
  }

  // ---- Encrypting an asset ----

  function Encrypted(asset: DataAsset): DataAsset {
    asset.(encryptionEnabled := true, kmsEnabled := true)
  }

  function EncryptAt(env: Environment, k: nat): Environment
    requires k < |env.assets|
  {
    env.(assets := env.assets[k := Encrypted(env.assets[k])])
  }

  lemma CountsAfterEncrypting(assets: seq<DataAsset>, k: nat)
    requires k < |assets|
    ensures var after := assets[k := Encrypted(assets[k])];
            && Count(after, IsReal()) == Count(assets, IsReal())
            && Count(after, HasOwner()) == Count(assets, HasOwner())
            && Count(after, HasBackup()) == Count(assets, HasBackup())
            && Count(after, IsBackupSite()) == Count(assets, IsBackupSite())
            && Count(after, IsSensitive()) == Count(assets, IsSensitive())
            && Count(after, IsPersonal()) == Count(assets, IsPersonal())
            && Count(after, IsAnonymized()) == Count(assets, IsAnonymized())
            && Count(after, HasRetention()) == Count(assets, HasRetention())
            && Count(after, InKvkk()) == Count(assets, InKvkk())
            && Count(after, InGdpr()) == Count(assets, InGdpr())
            && Count(after, IsProtectedSensitive()) >= Count(assets, IsProtectedSensitive())
            && Count(after, IsEncryptedPersonal()) >= Count(assets, IsEncryptedPersonal())
  {
    var after := assets[k := Encrypted(assets[k])];
    CountAgrees(after, assets, IsReal(), IsReal());
    CountAgrees(after, assets, HasOwner(), HasOwner());
    CountAgrees(after, assets, HasBackup(), HasBackup());
    CountAgrees(after, assets, IsBackupSite(), IsBackupSite());
    CountAgrees(after, assets, IsSensitive(), IsSensitive());
    CountAgrees(after, assets, IsPersonal(), IsPersonal());
    CountAgrees(after, assets, IsAnonymized(), IsAnonymized());
    CountAgrees(after, assets, HasRetention(), HasRetention());
    CountAgrees(after, assets, InKvkk(), InKvkk());
    CountAgrees(after, assets, InGdpr(), InGdpr());
    CountImplies(assets, after, IsProtectedSensitive(), IsProtectedSensitive());
    CountImplies(assets, after, IsEncryptedPersonal(), IsEncryptedPersonal());
  }

  lemma PrivacyAfterEncrypting(assets: seq<DataAsset>, k: nat)
    requires k < |assets|
    ensures var before, after := CalculatePrivacy(assets), CalculatePrivacy(assets[k := Encrypted(assets[k])]);
            && before.encryptedCoverage <= after.encryptedCoverage
            && before.retentionCoverage == after.retentionCoverage
            && before.anonymizationCoverage == after.anonymizationCoverage
            && before.kvkkScore <= after.kvkkScore
            && before.gdprScore <= after.gdprScore
  {
    var now := assets[k := Encrypted(assets[k])];
    var before, after := CalculatePrivacy(assets), CalculatePrivacy(now);
    CountsAfterEncrypting(assets, k);
    PercentMonotone(Count(assets, IsEncryptedPersonal()), Count(now, IsEncryptedPersonal()), before.personalAssets);
    var kvkk := Percent(Count(assets, InKvkk()), before.personalAssets);
    var gdpr := Percent(Count(assets, InGdpr()), before.personalAssets);
    RoundedAverageMonotone([kvkk, before.encryptedCoverage, before.retentionCoverage],
                           [kvkk, after.encryptedCoverage, before.retentionCoverage]);
    RoundedAverageMonotone([gdpr, before.encryptedCoverage, before.anonymizationCoverage],
                           [gdpr, after.encryptedCoverage, before.anonymizationCoverage]);
  }

  lemma FunctionsAfterEncrypting(env: Environment, k: nat)
    requires k < |env.assets|
    ensures var before, after := CalculateFunctions(env), CalculateFunctions(EncryptAt(env, k));
            after == before.(protect := after.protect) && before.protect <= after.protect
  {
    var now := EncryptAt(env, k);
    CountsAfterEncrypting(env.assets, k);
    PercentMonotone(Count(env.assets, IsProtectedSensitive()), Count(now.assets, IsProtectedSensitive()),
                    Count(env.assets, IsSensitive()));
    RoundedAverageMonotone(
      [ProtectedShare(env.assets), MfaCoverage(env.identities), BackupCoverage(env.assets)],
      [ProtectedShare(now.assets), MfaCoverage(env.identities), BackupCoverage(env.assets)]);
  }

  /** Turning on encryption and key management for any asset lowers no score, through all three
      layers of rounded averages, and changes no function other than Protect. */
  lemma EncryptingNeverHurts(env: Environment, k: nat)
    requires k < |env.assets|
    ensures var before, after := CalculateSnapshot(env), CalculateSnapshot(EncryptAt(env, k));
            && after.nist == before.nist.(protect := after.nist.protect)
            && before.nist.protect <= after.nist.protect
            && before.overallScore <= after.overallScore
            && before.iso27001Score <= after.iso27001Score
            && before.kvkkScore <= after.kvkkScore
            && before.gdprScore <= after.gdprScore
  {
    var before, after := CalculateSnapshot(env), CalculateSnapshot(EncryptAt(env, k));
    FunctionsAfterEncrypting(env, k);
    PrivacyAfterEncrypting(env.assets, k);
    RoundedAverageMonotone(AsList(before.nist), AsList(after.nist));
    var p, q := CalculatePrivacy(env.assets), CalculatePrivacy(EncryptAt(env, k).assets);
    RoundedAverageMonotone([before.overallScore, p.encryptedCoverage, p.retentionCoverage],
                           [after.overallScore, q.encryptedCoverage, q.retentionCoverage]);
  }

  // ---- What the snapshot depends on ----

  /** The snapshot sees neither the order of the events, nor stored risks, nor which reports
      there are beyond whether there are six. */
  lemma SnapshotDepends(env: Environment, other: Environment)
    requires |env.assets| == |other.assets|
    requires forall i :: 0 <= i < |env.assets| ==>
               env.assets[i].(risk := other.assets[i].risk) == other.assets[i]
    requires |env.identities| == |other.identities|
    requires forall i :: 0 <= i < |env.identities| ==>
               env.identities[i].mfaEnabled == other.identities[i].mfaEnabled
    requires env.policyRules == other.policyRules && env.deceptions == other.deceptions
    requires |env.reports| >= 6 <==> |other.reports| >= 6
    requires multiset(env.events) == multiset(other.events)
    ensures CalculateSnapshot(env) == CalculateSnapshot(other)
  {
    var a, b := env.assets, other.assets;
    CountAgrees(a, b, IsReal(), IsReal());
    CountAgrees(a, b, HasOwner(), HasOwner());
    CountAgrees(a, b, HasBackup(), HasBackup());
    CountAgrees(a, b, IsBackupSite(), IsBackupSite());
    CountAgrees(a, b, IsSensitive(), IsSensitive());
    CountAgrees(a, b, IsProtectedSensitive(), IsProtectedSensitive());
    CountAgrees(env.identities, other.identities, HasMfa(), HasMfa());
    EventCountsAgree(env.events, other.events);
    PrivacyDepends(a, b);
    assert CalculateFunctions(env) == CalculateFunctions(other);
  }

  lemma PrivacyDepends(a: seq<DataAsset>, b: seq<DataAsset>)
    requires |a| == |b|
    requires forall i :: 0 <= i < |a| ==> a[i].(risk := b[i].risk) == b[i]
    ensures CalculatePrivacy(a) == CalculatePrivacy(b)
  {
    CountAgrees(a, b, IsPersonal(), IsPersonal());
    CountAgrees(a, b, IsEncryptedPersonal(), IsEncryptedPersonal());
    CountAgrees(a, b, IsAnonymized(), IsAnonymized());
    CountAgrees(a, b, HasRetention(), HasRetention());
    CountAgrees(a, b, IsAbroad(), IsAbroad());
    CountAgrees(a, b, InKvkk(), InKvkk());
    CountAgrees(a, b, InGdpr(), InGdpr());
  }

  lemma EventCountsAgree(a: seq<SecurityEvent>, b: seq<SecurityEvent>)
    requires multiset(a) == multiset(b)
    ensures |a| == |b|
    ensures Count(a, IsLogged()) == Count(b, IsLogged())
    ensures Count(a, IsContained()) == Count(b, IsContained())
    ensures Count(a, IsTrapHit()) == Count(b, IsTrapHit())
    ensures Count(a, IsHandled()) == Count(b, IsHandled())
  {
    assert |a| == |multiset(a)| == |multiset(b)| == |b|;
    CountPermutation(a, b, IsLogged());
    CountPermutation(a, b, IsContained());
    CountPermutation(a, b, IsTrapHit());
    CountPermutation(a, b, IsHandled());
  }

  // ---- What each score says, by the fields of what it counts ----

  lemma ShareOf<T>(xs: seq<T>, part: T -> bool, whole: T -> bool, parts: set<int>, wholes: set<int>, share: int)
    requires forall k :: k in parts <==> 0 <= k < |xs| && part(xs[k])
    requires forall k :: k in wholes <==> 0 <= k < |xs| && whole(xs[k])
    requires IsShare(share, |parts|, |wholes|)
    ensures Percent(Count(xs, part), Count(xs, whole)) == share
  {
    CountsPositions(xs, part, parts);
    CountsPositions(xs, whole, wholes);
    PercentExactly(|parts|, |wholes|, share);
  }

  lemma ShareOfAll<T>(xs: seq<T>, part: T -> bool, parts: set<int>, share: int)
    requires forall k :: k in parts <==> 0 <= k < |xs| && part(xs[k])
    requires IsShare(share, |parts|, |xs|)
    ensures Percent(Count(xs, part), |xs|) == share
  {
    CountsPositions(xs, part, parts);
    PercentExactly(|parts|, |xs|, share);
  }

  lemma FullShare(n: nat)
    ensures Percent(n, n) == 100
  {
    PercentExactly(n, n, 100);
  }

  lemma MeanOfThree(a: int, b: int, c: int)
    ensures IsMean(RoundedAverage([a, b, c]), a + b + c, 3)
  {
    AverageExactly([a, b, c], RoundedAverage([a, b, c]));
    assert Sum([a, b, c]) == a + Sum([b, c]) == a + b + Sum([c]) == a + b + c;
  }

  /** Govern averages the share of enabled rules with two constants. */
  lemma GovernExactly(env: Environment, enabled: set<int>, share: int)
    requires forall k :: k in enabled <==> 0 <= k < |env.policyRules| && env.policyRules[k].enabled
    requires IsShare(share, |enabled|, |env.policyRules|)
    ensures IsMean(CalculateSnapshot(env).nist.govern, share + (if |env.reports| >= 6 then 88 else 64) + 78, 3)
  {
    ShareOfAll(env.policyRules, IsEnabled(), enabled, share);
    MeanOfThree(share, if |env.reports| >= 6 then 88 else 64, 78);
  }

  /** Identify averages a full share and the share of real assets with an owner. */
  lemma IdentifyExactly(env: Environment, genuine: set<int>, owned: set<int>, share: int)
    requires forall k :: k in genuine <==> 0 <= k < |env.assets| && !env.assets[k].isDeception
    requires forall k :: k in owned <==> k in genuine && env.assets[k].owner != ""
    requires IsShare(share, |owned|, |genuine|)
    ensures IsMean(CalculateSnapshot(env).nist.identify, 100 + share + 84, 3)
  {
    ShareOf(env.assets, HasOwner(), IsReal(), owned, genuine, share);
    FullShare(Count(env.assets, IsReal()));
    MeanOfThree(100, share, 84);
  }

  /** Protect averages the encrypted share of sensitive data, the identities with MFA and the assets with backup. */
  lemma ProtectExactly(
    env: Environment, sensitive: set<int>, encrypted: set<int>, withMfa: set<int>, genuine: set<int>,
    backedUp: set<int>, encryptedShare: int, mfaShare: int, backupShare: int)
    requires forall k :: k in sensitive <==>
               && 0 <= k < |env.assets| && !env.assets[k].isDeception
               && (env.assets[k].classification == SensitiveData || env.assets[k].classification == CriticalData)
    requires forall k :: k in encrypted <==>
               k in sensitive && env.assets[k].encryptionEnabled && env.assets[k].kmsEnabled
    requires forall k :: k in withMfa <==> 0 <= k < |env.identities| && env.identities[k].mfaEnabled
    requires forall k :: k in genuine <==> 0 <= k < |env.assets| && !env.assets[k].isDeception
    requires forall k :: k in backedUp <==> k in genuine && env.assets[k].backupEnabled
    requires IsShare(encryptedShare, |encrypted|, |sensitive|)
    requires IsShare(mfaShare, |withMfa|, |env.identities|)
    requires IsShare(backupShare, |backedUp|, |genuine|)
    ensures IsMean(CalculateSnapshot(env).nist.protect, encryptedShare + mfaShare + backupShare, 3)
  {
    ShareOf(env.assets, IsProtectedSensitive(), IsSensitive(), encrypted, sensitive, encryptedShare);
    ShareOfAll(env.identities, HasMfa(), withMfa, mfaShare);
    ShareOf(env.assets, HasBackup(), IsReal(), backedUp, genuine, backupShare);
    MeanOfThree(encryptedShare, mfaShare, backupShare);
  }

  /** Detect averages the events that are no visibility gap, the live traps, and whether any trap was hit. */
  lemma DetectExactly(env: Environment, logged: set<int>, live: set<int>, loggedShare: int, liveShare: int)
    requires forall k :: k in logged <==> 0 <= k < |env.events| && env.events[k].category != VisibilityGap
    requires forall k :: k in live <==>
               0 <= k < |env.deceptions| && (env.deceptions[k].status == Armed || env.deceptions[k].status == Triggered)
    requires IsShare(loggedShare, |logged|, |env.events|)
    requires IsShare(liveShare, |live|, |env.deceptions|)
    ensures var hit := exists k :: 0 <= k < |env.events| && env.events[k].category == DeceptionTriggered;
            IsMean(CalculateSnapshot(env).nist.detect, loggedShare + liveShare + (if hit then 88 else 72), 3)
  {
    ShareOfAll(env.events, IsLogged(), logged, loggedShare);
    ShareOfAll(env.deceptions, IsLive(), live, liveShare);
    CountPositive(env.events, IsTrapHit());
    MeanOfThree(loggedShare, liveShare, if Count(env.events, IsTrapHit()) > 0 then 88 else 72);
  }

  /** Respond averages the contained or resolved events and whether any event has a second entry. */
  lemma RespondExactly(env: Environment, contained: set<int>, share: int)
    requires forall k :: k in contained <==>
               0 <= k < |env.events| && (env.events[k].status == Contained || env.events[k].status == Resolved)
    requires IsShare(share, |contained|, |env.events|)
    ensures var handled := exists k :: 0 <= k < |env.events| && |env.events[k].timeline| > 1;
            IsMean(CalculateSnapshot(env).nist.respond, share + (if handled then 84 else 68) + 78, 3)
  {
    ShareOfAll(env.events, IsContained(), contained, share);
    CountPositive(env.events, IsHandled());
    MeanOfThree(share, if Count(env.events, IsHandled()) > 0 then 84 else 68, 78);
  }

  /** Recover averages the assets with backup and whether any real asset is at the backup site. */
  lemma RecoverExactly(env: Environment, genuine: set<int>, backedUp: set<int>, share: int)
    requires forall k :: k in genuine <==> 0 <= k < |env.assets| && !env.assets[k].isDeception
    requires forall k :: k in backedUp <==> k in genuine && env.assets[k].backupEnabled
    requires IsShare(share, |backedUp|, |genuine|)
    ensures var site := exists k :: k in genuine && env.assets[k].location == BackupSite;
            IsMean(CalculateSnapshot(env).nist.recover, share + (if site then 82 else 60) + 74, 3)
  {
    ShareOf(env.assets, HasBackup(), IsReal(), backedUp, genuine, share);
    CountPositive(env.assets, IsBackupSite());
    MeanOfThree(share, if Count(env.assets, IsBackupSite()) > 0 then 82 else 60, 74);
  }

  /** The privacy shares and the two scores made of them, over the real assets in the scope of either regulation. */
  lemma PrivacyExactly(
    assets: seq<DataAsset>, personal: set<int>, encrypted: set<int>, anonymized: set<int>, retained: set<int>,
    kvkk: set<int>, gdpr: set<int>, abroad: set<int>, kvkkShare: int, gdprShare: int)
    requires forall k :: k in personal <==>
               0 <= k < |assets| && !assets[k].isDeception && (assets[k].kvkkScope || assets[k].gdprScope)
    requires forall k :: k in encrypted <==> k in personal && assets[k].encryptionEnabled && assets[k].kmsEnabled
    requires forall k :: k in anonymized <==>
               k in personal && (assets[k].anonymization == Applied || assets[k].anonymization == Partial)
    requires forall k :: k in retained <==>
               k in personal && !Text.OccursIn("belirsiz", Text.ToLower(assets[k].retentionPolicy))
    requires forall k :: k in kvkk <==> k in personal && assets[k].kvkkScope
    requires forall k :: k in gdpr <==> k in personal && assets[k].gdprScope
    requires forall k :: k in abroad <==>
               k in personal && (assets[k].location == PublicCloud || assets[k].location == Saas)
    requires IsShare(kvkkShare, |kvkk|, |personal|) && IsShare(gdprShare, |gdpr|, |personal|)
    ensures var p := CalculatePrivacy(assets);
            && p.personalAssets == |personal| && p.overseasTransferRisk == |abroad|
            && IsShare(p.encryptedCoverage, |encrypted|, |personal|)
            && IsShare(p.anonymizationCoverage, |anonymized|, |personal|)
            && IsShare(p.retentionCoverage, |retained|, |personal|)
            && IsMean(p.kvkkScore, kvkkShare + p.encryptedCoverage + p.retentionCoverage, 3)
            && IsMean(p.gdprScore, gdprShare + p.encryptedCoverage + p.anonymizationCoverage, 3)
  {
    var p := CalculatePrivacy(assets);
    CountsPositions(assets, IsPersonal(), personal);
    CountsPositions(assets, IsAbroad(), abroad);
    CountsPositions(assets, IsEncryptedPersonal(), encrypted);
    CountsPositions(assets, IsAnonymized(), anonymized);
    Retained(assets, personal, retained);
    PercentExactly(|encrypted|, |personal|, p.encryptedCoverage);
    PercentExactly(|anonymized|, |personal|, p.anonymizationCoverage);
    PercentExactly(|retained|, |personal|, p.retentionCoverage);
    ShareOf(assets, InKvkk(), IsPersonal(), kvkk, personal, kvkkShare);
    ShareOf(assets, InGdpr(), IsPersonal(), gdpr, personal, gdprShare);
    MeanOfThree(kvkkShare, p.encryptedCoverage, p.retentionCoverage);
    MeanOfThree(gdprShare, p.encryptedCoverage, p.anonymizationCoverage);
  }

  lemma Retained(assets: seq<DataAsset>, personal: set<int>, retained: set<int>)
    requires forall k :: k in personal <==> 0 <= k < |assets| && IsPersonal()(assets[k])
    requires forall k :: k in retained <==>
               k in personal && !Text.OccursIn("belirsiz", Text.ToLower(assets[k].retentionPolicy))
    ensures Count(assets, HasRetention()) == |retained|
  {
    forall k ensures k in retained <==> 0 <= k < |assets| && HasRetention()(assets[k]) {
      if 0 <= k < |assets| {
        Text.ContainsExactly(Text.ToLower(assets[k].retentionPolicy), "belirsiz");
      }
    }
    CountsPositions(assets, HasRetention(), retained);
  }

  lemma SixTerms(a: int, b: int, c: int, d: int, e: int, f: int)
    ensures Sum([a, b, c, d, e, f]) == a + b + c + d + e + f
  {
    assert Sum([d, e, f]) == d + Sum([e, f]) == d + e + Sum([f]) == d + e + f;
    assert Sum([a, b, c, d, e, f]) == a + Sum([b, c, d, e, f]) == a + b + Sum([c, d, e, f]);
    assert Sum([c, d, e, f]) == c + Sum([d, e, f]);
  }

  /** The overall score is the mean of the six functions, and the ISO score that of it and two privacy shares. */
  lemma OverallExactly(env: Environment)
    ensures var s, p := CalculateSnapshot(env), CalculatePrivacy(env.assets);
            var n := s.nist;
            && IsMean(s.overallScore, n.govern + n.identify + n.protect + n.detect + n.respond + n.recover, 6)
            && IsMean(s.iso27001Score, s.overallScore + p.encryptedCoverage + p.retentionCoverage, 3)
            && s.kvkkScore == p.kvkkScore && s.gdprScore == p.gdprScore
  {
    var s, p := CalculateSnapshot(env), CalculatePrivacy(env.assets);
    var n := s.nist;
    SixTerms(n.govern, n.identify, n.protect, n.detect, n.respond, n.recover);
    AverageExactly(AsList(n), s.overallScore);
    MeanOfThree(s.overallScore, p.encryptedCoverage, p.retentionCoverage);
  }
}

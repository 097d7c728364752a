/** `src/lib/risk-engine.ts`: the risk of assets and identities. */
module RiskEngine {
  import opened SecurityTypes
  import opened Rounding
  import opened Sequences
  import Text

  function RiskLevelOf(score: real): RiskLevel {
    if score >= 80.0 then CriticalRisk
    else if score >= 60.0 then HighRisk
    else if score >= 35.0 then MediumRisk
    else LowRisk
  }

  function ClassificationWeight(classification: Classification): int {
    match classification
    case PublicData => 4
    case InternalData => 12
    case ConfidentialData => 26
    case SensitiveData => 42
    case CriticalData => 58
  }

  predicate Regulates(asset: DataAsset) {
    asset.kvkkScope || asset.gdprScope
  }

  // ---- Assets ----

  predicate Concerns(event: SecurityEvent, id: string, name: string, path: string) {
    || event.relatedAssetId == Some(id)
    || event.target == name
    || Text.Contains(event.target, name)
    || Text.Contains(event.target, path)
  }

  function UnresolvedAbout(id: string, name: string, path: string): SecurityEvent -> bool {
    (e: SecurityEvent) => Concerns(e, id, name, path) && e.status != Resolved
  }

  function CriticalAbout(id: string, name: string, path: string): SecurityEvent -> bool {
    (e: SecurityEvent) => Concerns(e, id, name, path) && e.severity == CriticalSeverity
  }

  function Unresolved(asset: DataAsset, events: seq<SecurityEvent>): nat {
    Count(events, UnresolvedAbout(asset.id, asset.name, asset.path))
  }

  function Criticals(asset: DataAsset, events: seq<SecurityEvent>): nat {
    Count(events, CriticalAbout(asset.id, asset.name, asset.path))
  }

  function Points(condition: bool, points: int): int {
    if condition then points else 0
  }

  /** The unclamped score: one term for each signal. */
  function AssetScore(asset: DataAsset, unresolved: nat, criticals: nat): int {
    ClassificationWeight(asset.classification)
    + Points(asset.location == PublicCloud && HighlyClassified(asset.classification), 14)
    + Points(asset.location == Saas && Regulates(asset), 10)
    + Points(!asset.encryptionEnabled, 18)
    + Points(!asset.kmsEnabled, 10)
    + Points(!asset.backupEnabled, 10)
    + Points(Regulates(asset), 8)
    + (if asset.accessCount24h >= 100 then 12 else Points(asset.accessCount24h >= 50, 6))
    + (if asset.accessIntensity >= 85 then 8 else Points(asset.accessIntensity >= 55, 4))
    + Points(asset.anonymization == Missing, 6)
    + 3 * unresolved
    + 6 * criticals
  }

  predicate IsVeryBusy(asset: DataAsset) {
    asset.accessCount24h >= 100 || asset.accessIntensity >= 85
  }

  predicate IsBusy(asset: DataAsset) {
    !IsVeryBusy(asset) && (asset.accessCount24h >= 50 || asset.accessIntensity >= 55)
  }

  function PostureReasons(asset: DataAsset): seq<RiskReason> {
    []
    + When(HighlyClassified(asset.classification), [HighlySensitive])
    + When(asset.location == PublicCloud && HighlyClassified(asset.classification), [SensitiveInPublicCloud])
    + When(!asset.encryptionEnabled, [NotEncrypted])
    + When(!asset.kmsEnabled, [NoKms])
    + When(!asset.backupEnabled, [NoBackup])
  }

  function AssetReasons(asset: DataAsset, unresolved: nat, criticals: nat): seq<RiskReason> {
    PostureReasons(asset)
    + When(Regulates(asset), [Regulated])
    + When(IsVeryBusy(asset), [VeryBusy])
    + When(IsBusy(asset), [Busy])
    + When(asset.anonymization == Missing, [NotAnonymized])
    + When(criticals > 0, [CriticalEventOpen])
    + When(criticals == 0 && unresolved >= 2, [ManyOpenEvents])
  }

  /** The controls named on the way, with repetitions; the engine keeps each once. */
  function PostureControls(asset: DataAsset): seq<Control> {
    []
    + When(HighlyClassified(asset.classification), [RbacAbac, Dlp])
    + When(asset.location == PublicCloud && HighlyClassified(asset.classification), [Cspm, Encryption])
    + When(!asset.encryptionEnabled, [Encryption])
    + When(!asset.kmsEnabled, [Kms])
    + When(!asset.backupEnabled, [Backup])
    + When(Regulates(asset), [SecureDeletion, Dlp])
  }

  function AssetControls(asset: DataAsset, unresolved: nat, criticals: nat): seq<Control> {
    PostureControls(asset)
    + When(IsVeryBusy(asset), [Siem])
    + When(asset.anonymization == Missing, [SecureDeletion])
    + When(criticals > 0, [Soar, Siem])
    + When(criticals == 0 && unresolved >= 2, [Soar])
  }

  function Take(controls: seq<Control>, n: nat): seq<ControlAction> {
    seq(if |controls| < n then |controls| else n, i requires 0 <= i < |controls| => Apply(controls[i]))
  }

  const LURE_RISK := RiskAssessment(
    18, LowRisk, [LureOnly, LureEscalates], [Deception, Siem, Soar], [KeepLure, IsolateAfterTrigger])

  function AssetRisk(asset: DataAsset, events: seq<SecurityEvent>): RiskAssessment {
    if asset.isDeception then LURE_RISK
    else
      var unresolved, criticals := Unresolved(asset, events), Criticals(asset, events);
      var score := AssetScore(asset, unresolved, criticals);
      var reasons := AssetReasons(asset, unresolved, criticals);
      var named := Unique(AssetControls(asset, unresolved, criticals));
      var controls := if named == [] then asset.recommendedControls else named;
      RiskAssessment(
        Clamp(score, 0, 100), RiskLevelOf(score as real),
        if reasons == [] then [ControlsInPlace] else reasons,
        controls, Take(controls, 6))
  }

  /** The engine's own computation: a score and two lists built up signal by signal. */
  method CalculateAssetRisk(asset: DataAsset, events: seq<SecurityEvent>) returns (risk: RiskAssessment)
    ensures risk == AssetRisk(asset, events)
  {
    if asset.isDeception {
      return LURE_RISK;
    }
    var unresolved, criticals := Unresolved(asset, events), Criticals(asset, events);
    var score := ScoreAsset(asset);
    score := score + unresolved * 3;
    score := score + criticals * 6;
    var reasons := CollectReasons(asset, unresolved, criticals);
    var named := CollectControls(asset, unresolved, criticals);
    if |reasons| == 0 { reasons := [ControlsInPlace]; }
    var controls := if |named| != 0 then named else asset.recommendedControls;
    risk := RiskAssessment(
      Clamp(score, 0, 100), RiskLevelOf(score as real), reasons, controls, Take(controls, 6));
  }

  method ScoreAsset(asset: DataAsset) returns (score: int)
    ensures score == AssetScore(asset, 0, 0)
  {
    score := ClassificationWeight(asset.classification);
    if asset.location == PublicCloud && HighlyClassified(asset.classification) { score := score + 14; }
    if asset.location == Saas && Regulates(asset) { score := score + 10; }
    if !asset.encryptionEnabled { score := score + 18; }
    if !asset.kmsEnabled { score := score + 10; }
    if !asset.backupEnabled { score := score + 10; }
    if Regulates(asset) { score := score + 8; }
    if asset.accessCount24h >= 100 {
      score := score + 12;
    } else if asset.accessCount24h >= 50 {
      score := score + 6;
    }
    if asset.accessIntensity >= 85 {
      score := score + 8;
    } else if asset.accessIntensity >= 55 {
      score := score + 4;
    }
    if asset.anonymization == Missing { score := score + 6; }
  }

  method CollectReasons(asset: DataAsset, unresolved: nat, criticals: nat) returns (reasons: seq<RiskReason>)
    ensures reasons == AssetReasons(asset, unresolved, criticals)
  {
    var high := HighlyClassified(asset.classification);
    reasons := PushIf([], high, [HighlySensitive]);
    reasons := PushIf(reasons, asset.location == PublicCloud && high, [SensitiveInPublicCloud]);
    reasons := PushIf(reasons, !asset.encryptionEnabled, [NotEncrypted]);
    reasons := PushIf(reasons, !asset.kmsEnabled, [NoKms]);
    reasons := PushIf(reasons, !asset.backupEnabled, [NoBackup]);
    reasons := PushIf(reasons, Regulates(asset), [Regulated]);
    reasons := PushIf(reasons, IsVeryBusy(asset), [VeryBusy]);
    reasons := PushIf(reasons, IsBusy(asset), [Busy]);
    reasons := PushIf(reasons, asset.anonymization == Missing, [NotAnonymized]);
    reasons := PushIf(reasons, criticals > 0, [CriticalEventOpen]);
    reasons := PushIf(reasons, criticals == 0 && unresolved >= 2, [ManyOpenEvents]);
  }

  method CollectControls(asset: DataAsset, unresolved: nat, criticals: nat) returns (controls: seq<Control>)
    ensures controls == Unique(AssetControls(asset, unresolved, criticals))
  {
    controls := CollectPostureControls(asset);
    ghost var named := PostureControls(asset);
    controls, named := AddIf(controls, named, IsVeryBusy(asset), [Siem]);
    controls, named := AddIf(controls, named, asset.anonymization == Missing, [SecureDeletion]);
    controls, named := AddIf(controls, named, criticals > 0, [Soar, Siem]);
    controls, named := AddIf(controls, named, criticals == 0 && unresolved >= 2, [Soar]);
  }

  method CollectPostureControls(asset: DataAsset) returns (controls: seq<Control>)
    ensures controls == Unique(PostureControls(asset))
  {
    var high := HighlyClassified(asset.classification);
    ghost var named;
    controls, named := AddIf([], [], high, [RbacAbac, Dlp]);
    controls, named := AddIf(controls, named, asset.location == PublicCloud && high, [Cspm, Encryption]);
    controls, named := AddIf(controls, named, !asset.encryptionEnabled, [Encryption]);
    controls, named := AddIf(controls, named, !asset.kmsEnabled, [Kms]);
    controls, named := AddIf(controls, named, !asset.backupEnabled, [Backup]);
    controls, named := AddIf(controls, named, Regulates(asset), [SecureDeletion, Dlp]);
  }

  lemma OneMoreUnresolved(asset: DataAsset, unresolved: nat, criticals: nat)
    ensures AssetScore(asset, unresolved + 1, criticals) == AssetScore(asset, unresolved, criticals) + 3
    ensures AssetScore(asset, unresolved, criticals) >= 0
  {
  }

  /** The level the engine takes from the unclamped score is the level of the score it reports. */
  lemma {:induction false} LevelOfClamped(score: int)
    ensures RiskLevelOf(score as real) == RiskLevelOf(Clamp(score, 0, 100) as real)
  {
  }

  /** Asset risk does not see the order of the event list. */
  lemma AssetRiskPermutation(asset: DataAsset, events: seq<SecurityEvent>, shuffled: seq<SecurityEvent>)
    requires multiset(events) == multiset(shuffled)
    ensures AssetRisk(asset, events) == AssetRisk(asset, shuffled)
  {
    CountPermutation(events, shuffled, UnresolvedAbout(asset.id, asset.name, asset.path));
    CountPermutation(events, shuffled, CriticalAbout(asset.id, asset.name, asset.path));
  }

  lemma AssetRiskIgnoresRisk(asset: DataAsset, stored: RiskAssessment, events: seq<SecurityEvent>)
    ensures AssetRisk(asset.(risk := stored), events) == AssetRisk(asset, events)
  {
    var unresolved, criticals := Unresolved(asset, events), Criticals(asset, events);
    ScoreIgnoresRisk(asset, stored, unresolved, criticals);
    ReasonsIgnoreRisk(asset, stored, unresolved, criticals);
    ControlsIgnoreRisk(asset, stored, unresolved, criticals);
  }

  lemma ScoreIgnoresRisk(asset: DataAsset, stored: RiskAssessment, unresolved: nat, criticals: nat)
    ensures AssetScore(asset.(risk := stored), unresolved, criticals) == AssetScore(asset, unresolved, criticals)
  {
  }

  lemma ReasonsIgnoreRisk(asset: DataAsset, stored: RiskAssessment, unresolved: nat, criticals: nat)
    ensures AssetReasons(asset.(risk := stored), unresolved, criticals) == AssetReasons(asset, unresolved, criticals)
  {
  }

  lemma ControlsIgnoreRisk(asset: DataAsset, stored: RiskAssessment, unresolved: nat, criticals: nat)
    ensures AssetControls(asset.(risk := stored), unresolved, criticals) == AssetControls(asset, unresolved, criticals)
  {
    assert PostureControls(asset.(risk := stored)) == PostureControls(asset);
  }

  // ---- What an asset's own fields do to its risk ----

  /** The event is about the asset: it names its id, or its target holds the asset's name or path. */
  ghost predicate IsAbout(event: SecurityEvent, asset: DataAsset) {
    || event.relatedAssetId == Some(asset.id)
    || Text.OccursIn(asset.name, event.target) || Text.OccursIn(asset.path, event.target)
  }

  lemma AboutExactly(event: SecurityEvent, asset: DataAsset)
    ensures Concerns(event, asset.id, asset.name, asset.path) <==> IsAbout(event, asset)
  {
    Text.ContainsExactly(event.target, asset.name);
    Text.ContainsExactly(event.target, asset.path);
    if event.target == asset.name {
      assert event.target == [] + asset.name + [];
    }
  }

  /** A score with points added, up to the cap. */
  function Plus(score: int, points: int): int {
    if score + points > 100 then 100 else score + points
  }

  lemma CapAdds(score: int, points: int)
    requires score >= 0 && points >= 0
    ensures Clamp(score + points, 0, 100) == Plus(Clamp(score, 0, 100), points)
  {
  }

  /** Two real assets whose sums differ by some points. */
  lemma SumsDiffer(low: DataAsset, high: DataAsset, events: seq<SecurityEvent>, points: nat)
    requires !low.isDeception && !high.isDeception
    requires low.id == high.id && low.name == high.name && low.path == high.path
    requires AssetScore(high, Unresolved(low, events), Criticals(low, events))
             == AssetScore(low, Unresolved(low, events), Criticals(low, events)) + points
    ensures AssetRisk(high, events).score == Plus(AssetRisk(low, events).score, points)
  {
    var unresolved, criticals := Unresolved(low, events), Criticals(low, events);
    OneMoreUnresolved(low, unresolved, criticals);
    CapAdds(AssetScore(low, unresolved, criticals), points);
  }

  /** Losing encryption costs a real asset 18 points. */
  lemma EncryptionCosts(asset: DataAsset, events: seq<SecurityEvent>)
    requires !asset.isDeception
    ensures AssetRisk(asset.(encryptionEnabled := false), events).score
            == Plus(AssetRisk(asset.(encryptionEnabled := true), events).score, 18)
  {
    SumsDiffer(asset.(encryptionEnabled := true), asset.(encryptionEnabled := false), events, 18);
  }

  /** Losing key management costs 10. */
  lemma KmsCosts(asset: DataAsset, events: seq<SecurityEvent>)
    requires !asset.isDeception
    ensures AssetRisk(asset.(kmsEnabled := false), events).score
            == Plus(AssetRisk(asset.(kmsEnabled := true), events).score, 10)
  {
    SumsDiffer(asset.(kmsEnabled := true), asset.(kmsEnabled := false), events, 10);
  }

  /** Losing both costs 28, as far as the asset had them. */
  lemma ProtectionCosts(asset: DataAsset, events: seq<SecurityEvent>)
    requires !asset.isDeception
    ensures AssetRisk(asset.(encryptionEnabled := false, kmsEnabled := false), events).score
            == Plus(AssetRisk(asset, events).score,
                    (if asset.encryptionEnabled then 18 else 0) + if asset.kmsEnabled then 10 else 0)
  {
    SumsDiffer(asset, asset.(encryptionEnabled := false, kmsEnabled := false), events,
               (if asset.encryptionEnabled then 18 else 0) + if asset.kmsEnabled then 10 else 0);
  }

  /** Losing the backup costs 10. */
  lemma BackupCosts(asset: DataAsset, events: seq<SecurityEvent>)
    requires !asset.isDeception
    ensures AssetRisk(asset.(backupEnabled := false), events).score
            == Plus(AssetRisk(asset.(backupEnabled := true), events).score, 10)
  {
    SumsDiffer(asset.(backupEnabled := true), asset.(backupEnabled := false), events, 10);
  }

  lemma AnonymizationCosts(asset: DataAsset, events: seq<SecurityEvent>, state: Anonymization)
    requires !asset.isDeception
    ensures AssetRisk(asset.(anonymization := state), events).score
            == Plus(AssetRisk(asset.(anonymization := Applied), events).score, if state == Missing then 6 else 0)
  {
    SumsDiffer(asset.(anonymization := Applied), asset.(anonymization := state), events,
               if state == Missing then 6 else 0);
  }

  /** Being in the scope of either law costs 8 points, and 10 more in a SaaS. */
  lemma ScopeCosts(asset: DataAsset, events: seq<SecurityEvent>, kvkk: bool, gdpr: bool)
    requires !asset.isDeception
    ensures AssetRisk(asset.(kvkkScope := kvkk, gdprScope := gdpr), events).score
            == Plus(AssetRisk(asset.(kvkkScope := false, gdprScope := false), events).score,
                    if !kvkk && !gdpr then 0 else if asset.location == Saas then 18 else 8)
  {
    SumsDiffer(asset.(kvkkScope := false, gdprScope := false), asset.(kvkkScope := kvkk, gdprScope := gdpr), events,
               if !kvkk && !gdpr then 0 else if asset.location == Saas then 18 else 8);
  }

  /** The classes in their order: 8, 22, 38 and 54 points above public data, and 14 more for sensitive and critical
      data in a public cloud. */
  function ClassPoints(classification: Classification, location: CloudLocation): nat {
    match classification
    case PublicData => 0
    case InternalData => 8
    case ConfidentialData => 22
    case SensitiveData => if location == PublicCloud then 52 else 38
    case CriticalData => if location == PublicCloud then 68 else 54
  }

  lemma ClassCosts(asset: DataAsset, events: seq<SecurityEvent>, classification: Classification)
    requires !asset.isDeception
    ensures AssetRisk(asset.(classification := classification), events).score
            == Plus(AssetRisk(asset.(classification := PublicData), events).score,
                    ClassPoints(classification, asset.location))
  {
    var low := asset.(classification := PublicData);
    ClassSum(asset, Unresolved(low, events), Criticals(low, events), classification);
    SumsDiffer(low, asset.(classification := classification), events, ClassPoints(classification, asset.location));
  }

  lemma ClassSum(asset: DataAsset, unresolved: nat, criticals: nat, classification: Classification)
    ensures AssetScore(asset.(classification := classification), unresolved, criticals)
            == AssetScore(asset.(classification := PublicData), unresolved, criticals)
               + ClassPoints(classification, asset.location)
  {
  }

  /** Where an asset lies costs something for sensitive data in a public cloud and for regulated data in a
      SaaS only. */
  lemma PlaceCosts(asset: DataAsset, events: seq<SecurityEvent>, location: CloudLocation)
    requires !asset.isDeception
    ensures AssetRisk(asset.(location := location), events).score
            == Plus(AssetRisk(asset.(location := PrivateCloud), events).score,
                    if location == PublicCloud && asset.classification in {SensitiveData, CriticalData} then 14
                    else if location == Saas && (asset.kvkkScope || asset.gdprScope) then 10 else 0)
  {
    SumsDiffer(asset.(location := PrivateCloud), asset.(location := location), events,
               if location == PublicCloud && asset.classification in {SensitiveData, CriticalData} then 14
               else if location == Saas && (asset.kvkkScope || asset.gdprScope) then 10 else 0);
  }

  /** From 50 and from 100 accesses a day, and from an intensity of 55 and of 85. */
  lemma UseCosts(asset: DataAsset, events: seq<SecurityEvent>, accesses: int, intensity: int)
    requires !asset.isDeception
    ensures AssetRisk(asset.(accessCount24h := accesses, accessIntensity := intensity), events).score
            == Plus(AssetRisk(asset.(accessCount24h := 0, accessIntensity := 0), events).score,
                    (if accesses >= 100 then 12 else if accesses >= 50 then 6 else 0)
                    + if intensity >= 85 then 8 else if intensity >= 55 then 4 else 0)
  {
    SumsDiffer(asset.(accessCount24h := 0, accessIntensity := 0),
               asset.(accessCount24h := accesses, accessIntensity := intensity), events,
               (if accesses >= 100 then 12 else if accesses >= 50 then 6 else 0)
               + if intensity >= 85 then 8 else if intensity >= 55 then 4 else 0);
  }

  /** An event about a real asset costs it three points while unresolved, and six if critical, resolved or not. */
  lemma EventCosts(asset: DataAsset, event: SecurityEvent, events: seq<SecurityEvent>)
    requires !asset.isDeception
    ensures AssetRisk(asset, [event] + events).score
            == Plus(AssetRisk(asset, events).score,
                    (if IsAbout(event, asset) && event.status != Resolved then 3 else 0)
                    + if IsAbout(event, asset) && event.severity == CriticalSeverity then 6 else 0)
  {
    var all := [event] + events;
    assert all[1..] == events;
    AboutExactly(event, asset);
    var more := if IsAbout(event, asset) && event.status != Resolved then 1 else 0;
    var worse := if IsAbout(event, asset) && event.severity == CriticalSeverity then 1 else 0;
    assert Unresolved(asset, all) == Unresolved(asset, events) + more;
    assert Criticals(asset, all) == Criticals(asset, events) + worse;
    OneMoreUnresolved(asset, Unresolved(asset, events), Criticals(asset, events));
    CapAdds(AssetScore(asset, Unresolved(asset, events), Criticals(asset, events)), 3 * more + 6 * worse);
  }

  /** A real asset without any signal scores 4, and a lure always 18. */
  lemma HarmlessAsset(asset: DataAsset)
    requires asset.classification == PublicData && asset.encryptionEnabled && asset.kmsEnabled && asset.backupEnabled
    requires !asset.kvkkScope && !asset.gdprScope && asset.anonymization != Missing
    requires asset.accessCount24h < 50 && asset.accessIntensity < 55
    ensures AssetRisk(asset, []).score == if asset.isDeception then 18 else 4
  {
  }

  /** The level by the score: from 35, 60 and 80 points on. */
  lemma AssetLevel(asset: DataAsset, events: seq<SecurityEvent>)
    ensures var risk := AssetRisk(asset, events);
            && 0 <= risk.score <= 100
            && (risk.level == LowRisk <==> risk.score < 35)
            && (risk.level == MediumRisk <==> 35 <= risk.score < 60)
            && (risk.level == HighRisk <==> 60 <= risk.score < 80)
            && (risk.level == CriticalRisk <==> 80 <= risk.score)
  {
    if !asset.isDeception {
      LevelOfClamped(AssetScore(asset, Unresolved(asset, events), Criticals(asset, events)));
    }
  }

  lemma PostureReasonsListed(asset: DataAsset, reason: RiskReason)
    ensures reason in PostureReasons(asset) <==>
            || (HighlyClassified(asset.classification) && reason == HighlySensitive)
            || (asset.location == PublicCloud && HighlyClassified(asset.classification)
                && reason == SensitiveInPublicCloud)
            || (!asset.encryptionEnabled && reason == NotEncrypted)
            || (!asset.kmsEnabled && reason == NoKms)
            || (!asset.backupEnabled && reason == NoBackup)
  {
    var l0: seq<RiskReason> := [];
    WhenAdds(l0, HighlyClassified(asset.classification), HighlySensitive, reason);
    var l1 := l0 + When(HighlyClassified(asset.classification), [HighlySensitive]);
    var exposed := asset.location == PublicCloud && HighlyClassified(asset.classification);
    WhenAdds(l1, exposed, SensitiveInPublicCloud, reason);
    var l2 := l1 + When(exposed, [SensitiveInPublicCloud]);
    WhenAdds(l2, !asset.encryptionEnabled, NotEncrypted, reason);
    var l3 := l2 + When(!asset.encryptionEnabled, [NotEncrypted]);
    WhenAdds(l3, !asset.kmsEnabled, NoKms, reason);
    var l4 := l3 + When(!asset.kmsEnabled, [NoKms]);
    WhenAdds(l4, !asset.backupEnabled, NoBackup, reason);
  }

  lemma AssetReasonsListed(asset: DataAsset, unresolved: nat, criticals: nat, reason: RiskReason)
    ensures reason in AssetReasons(asset, unresolved, criticals) <==>
            || reason in PostureReasons(asset)
            || (Regulates(asset) && reason == Regulated)
            || (IsVeryBusy(asset) && reason == VeryBusy)
            || (IsBusy(asset) && reason == Busy)
            || (asset.anonymization == Missing && reason == NotAnonymized)
            || (criticals > 0 && reason == CriticalEventOpen)
            || (criticals == 0 && unresolved >= 2 && reason == ManyOpenEvents)
  {
    var l0: seq<RiskReason> := PostureReasons(asset);
    WhenAdds(l0, Regulates(asset), Regulated, reason);
    var l1 := l0 + When(Regulates(asset), [Regulated]);
    WhenAdds(l1, IsVeryBusy(asset), VeryBusy, reason);
    var l2 := l1 + When(IsVeryBusy(asset), [VeryBusy]);
    WhenAdds(l2, IsBusy(asset), Busy, reason);
    var l3 := l2 + When(IsBusy(asset), [Busy]);
    WhenAdds(l3, asset.anonymization == Missing, NotAnonymized, reason);
    var l4 := l3 + When(asset.anonymization == Missing, [NotAnonymized]);
    WhenAdds(l4, criticals > 0, CriticalEventOpen, reason);
    var l5 := l4 + When(criticals > 0, [CriticalEventOpen]);
    WhenAdds(l5, criticals == 0 && unresolved >= 2, ManyOpenEvents, reason);
  }

  ghost predicate HasCritical(asset: DataAsset, events: seq<SecurityEvent>) {
    exists i :: 0 <= i < |events| && IsAbout(events[i], asset) && events[i].severity == CriticalSeverity
  }

  ghost predicate IsOpenAbout(asset: DataAsset, event: SecurityEvent) {
    IsAbout(event, asset) && event.status != Resolved
  }

  ghost predicate HasTwoOpen(asset: DataAsset, events: seq<SecurityEvent>) {
    exists i, j :: 0 <= i < j < |events| && IsOpenAbout(asset, events[i]) && IsOpenAbout(asset, events[j])
  }

  /** What each reason says of a real asset and the events. */
  ghost predicate Says(asset: DataAsset, events: seq<SecurityEvent>, reason: RiskReason) {
    match reason
    case DeceptionAssetHeld => false
    case LureOnly => false
    case LureEscalates => false
    case HighlySensitive => asset.classification in {SensitiveData, CriticalData}
    case SensitiveInPublicCloud =>
      asset.location == PublicCloud && asset.classification in {SensitiveData, CriticalData}
    case NotEncrypted => !asset.encryptionEnabled
    case NoKms => !asset.kmsEnabled
    case NoBackup => !asset.backupEnabled
    case Regulated => asset.kvkkScope || asset.gdprScope
    case VeryBusy => asset.accessCount24h >= 100 || asset.accessIntensity >= 85
    case Busy =>
      && asset.accessCount24h < 100 && asset.accessIntensity < 85
      && (asset.accessCount24h >= 50 || asset.accessIntensity >= 55)
    case NotAnonymized => asset.anonymization == Missing
    case CriticalEventOpen => HasCritical(asset, events)
    case ManyOpenEvents => !HasCritical(asset, events) && HasTwoOpen(asset, events)
    case ControlsInPlace =>
      && asset.classification !in {SensitiveData, CriticalData}
      && asset.encryptionEnabled && asset.kmsEnabled && asset.backupEnabled
      && !asset.kvkkScope && !asset.gdprScope && asset.accessCount24h < 50 && asset.accessIntensity < 55
      && asset.anonymization != Missing && !HasCritical(asset, events) && !HasTwoOpen(asset, events)
  }

  lemma CriticalsCounted(asset: DataAsset, events: seq<SecurityEvent>)
    ensures Criticals(asset, events) > 0 <==> HasCritical(asset, events)
  {
    CountPositive(events, CriticalAbout(asset.id, asset.name, asset.path));
    forall i | 0 <= i < |events|
      ensures Concerns(events[i], asset.id, asset.name, asset.path) <==> IsAbout(events[i], asset)
    {
      AboutExactly(events[i], asset);
    }
  }

  lemma OpenCounted(asset: DataAsset, events: seq<SecurityEvent>)
    ensures Unresolved(asset, events) >= 2 <==> HasTwoOpen(asset, events)
  {
    var p := UnresolvedAbout(asset.id, asset.name, asset.path);
    CountTwo(events, p);
    forall i | 0 <= i < |events| ensures p(events[i]) <==> IsOpenAbout(asset, events[i]) {
      AboutExactly(events[i], asset);
    }
  }

  /** A real asset's risk gives exactly the reasons that hold, and a lure's the two of its own. */
  lemma AssetReasonsExactly(asset: DataAsset, events: seq<SecurityEvent>, reason: RiskReason)
    ensures reason in AssetRisk(asset, events).reasons <==>
            if asset.isDeception then reason in {LureOnly, LureEscalates} else Says(asset, events, reason)
  {
    if !asset.isDeception {
      CriticalsCounted(asset, events);
      OpenCounted(asset, events);
      NoAssetReason(asset, Unresolved(asset, events), Criticals(asset, events));
      if reason == ControlsInPlace {
        OnlyInPlace(asset, events);
      } else {
        GivenReason(asset, events, reason);
      }
    }
  }

  lemma GivenReason(asset: DataAsset, events: seq<SecurityEvent>, reason: RiskReason)
    requires !asset.isDeception && reason != ControlsInPlace
    requires Criticals(asset, events) > 0 <==> HasCritical(asset, events)
    requires Unresolved(asset, events) >= 2 <==> HasTwoOpen(asset, events)
    ensures reason in AssetRisk(asset, events).reasons <==> Says(asset, events, reason)
  {
    PostureReasonsListed(asset, reason);
    AssetReasonsListed(asset, Unresolved(asset, events), Criticals(asset, events), reason);
  }

  lemma OnlyInPlace(asset: DataAsset, events: seq<SecurityEvent>)
    requires !asset.isDeception
    ensures ControlsInPlace in AssetRisk(asset, events).reasons <==>
            AssetReasons(asset, Unresolved(asset, events), Criticals(asset, events)) == []
  {
    PostureReasonsListed(asset, ControlsInPlace);
    AssetReasonsListed(asset, Unresolved(asset, events), Criticals(asset, events), ControlsInPlace);
  }

  lemma NoAssetReason(asset: DataAsset, unresolved: nat, criticals: nat)
    ensures AssetReasons(asset, unresolved, criticals) == [] <==>
            && !HighlyClassified(asset.classification) && asset.encryptionEnabled && asset.kmsEnabled
            && asset.backupEnabled && !Regulates(asset) && !IsVeryBusy(asset) && !IsBusy(asset)
            && asset.anonymization != Missing && criticals == 0 && unresolved < 2
  {
    assert PostureReasons(asset) == [] <==>
           && !HighlyClassified(asset.classification) && asset.encryptionEnabled && asset.kmsEnabled
           && asset.backupEnabled;
  }

  lemma PostureControlsListed(asset: DataAsset, control: Control)
    ensures control in PostureControls(asset) <==>
            || (HighlyClassified(asset.classification) && control in [RbacAbac, Dlp])
            || (asset.location == PublicCloud && HighlyClassified(asset.classification)
                && control in [Cspm, Encryption])
            || (!asset.encryptionEnabled && control in [Encryption])
            || (!asset.kmsEnabled && control in [Kms])
            || (!asset.backupEnabled && control in [Backup])
            || (Regulates(asset) && control in [SecureDeletion, Dlp])
  {
    var l0: seq<Control> := [];
    WhenAddsAll(l0, HighlyClassified(asset.classification), [RbacAbac, Dlp], control);
    var l1 := l0 + When(HighlyClassified(asset.classification), [RbacAbac, Dlp]);
    var exposed := asset.location == PublicCloud && HighlyClassified(asset.classification);
    WhenAddsAll(l1, exposed, [Cspm, Encryption], control);
    var l2 := l1 + When(exposed, [Cspm, Encryption]);
    WhenAddsAll(l2, !asset.encryptionEnabled, [Encryption], control);
    var l3 := l2 + When(!asset.encryptionEnabled, [Encryption]);
    WhenAddsAll(l3, !asset.kmsEnabled, [Kms], control);
    var l4 := l3 + When(!asset.kmsEnabled, [Kms]);
    WhenAddsAll(l4, !asset.backupEnabled, [Backup], control);
    var l5 := l4 + When(!asset.backupEnabled, [Backup]);
    WhenAddsAll(l5, Regulates(asset), [SecureDeletion, Dlp], control);
  }

  lemma AssetControlsListed(asset: DataAsset, unresolved: nat, criticals: nat, control: Control)
    ensures control in AssetControls(asset, unresolved, criticals) <==>
            || control in PostureControls(asset)
            || (IsVeryBusy(asset) && control in [Siem])
            || (asset.anonymization == Missing && control in [SecureDeletion])
            || (criticals > 0 && control in [Soar, Siem])
            || (criticals == 0 && unresolved >= 2 && control in [Soar])
  {
    var l0: seq<Control> := PostureControls(asset);
    WhenAddsAll(l0, IsVeryBusy(asset), [Siem], control);
    var l1 := l0 + When(IsVeryBusy(asset), [Siem]);
    WhenAddsAll(l1, asset.anonymization == Missing, [SecureDeletion], control);
    var l2 := l1 + When(asset.anonymization == Missing, [SecureDeletion]);
    WhenAddsAll(l2, criticals > 0, [Soar, Siem], control);
    var l3 := l2 + When(criticals > 0, [Soar, Siem]);
    WhenAddsAll(l3, criticals == 0 && unresolved >= 2, [Soar], control);
  }

  /** What calls for each control. */
  ghost predicate CallsFor(asset: DataAsset, events: seq<SecurityEvent>, control: Control) {
    var sensitive := asset.classification in {SensitiveData, CriticalData};
    var regulated := asset.kvkkScope || asset.gdprScope;
    match control
    case RbacAbac => sensitive
    case Dlp => sensitive || regulated
    case Cspm => sensitive && asset.location == PublicCloud
    case Encryption => !asset.encryptionEnabled || (sensitive && asset.location == PublicCloud)
    case Kms => !asset.kmsEnabled
    case Backup => !asset.backupEnabled
    case SecureDeletion => regulated || asset.anonymization == Missing
    case Siem => asset.accessCount24h >= 100 || asset.accessIntensity >= 85 || HasCritical(asset, events)
    case Soar => HasCritical(asset, events) || HasTwoOpen(asset, events)
    case Deception => false
    case OtherControl(_) => false
  }

  lemma NamedControl(asset: DataAsset, events: seq<SecurityEvent>, control: Control)
    ensures control in AssetControls(asset, Unresolved(asset, events), Criticals(asset, events))
            <==> CallsFor(asset, events, control)
  {
    CriticalsCounted(asset, events);
    OpenCounted(asset, events);
    PostureControlsListed(asset, control);
    AssetControlsListed(asset, Unresolved(asset, events), Criticals(asset, events), control);
  }

  /** A real asset's risk recommends exactly the controls called for, each once, or else those noted with the asset;
      and orders the first six. */
  lemma AssetControlsExactly(asset: DataAsset, events: seq<SecurityEvent>, control: Control)
    requires !asset.isDeception
    requires exists called :: CallsFor(asset, events, called)
    ensures control in AssetRisk(asset, events).controls <==> CallsFor(asset, events, control)
  {
    var named := AssetControls(asset, Unresolved(asset, events), Criticals(asset, events));
    NamedControl(asset, events, control);
    UniqueKeeps(named, control);
    var called :| CallsFor(asset, events, called);
    NamedControl(asset, events, called);
    UniqueKeeps(named, called);
  }

  lemma AssetControlsElse(asset: DataAsset, events: seq<SecurityEvent>)
    requires !asset.isDeception
    requires forall called :: !CallsFor(asset, events, called)
    ensures AssetRisk(asset, events).controls == asset.recommendedControls
  {
    var named := AssetControls(asset, Unresolved(asset, events), Criticals(asset, events));
    if named != [] {
      NamedControl(asset, events, named[0]);
    }
  }

  lemma AssetActions(asset: DataAsset, events: seq<SecurityEvent>, n: nat)
    requires !asset.isDeception
    ensures var risk := AssetRisk(asset, events);
            && |risk.actions| == (if |risk.controls| < 6 then |risk.controls| else 6)
            && (n < |risk.actions| ==> risk.actions[n] == Apply(risk.controls[n]))
  {
  }

  // ---- Identities ----

  predicate Involves(event: SecurityEvent, id: string, name: string) {
    event.relatedIdentityId == Some(id) || event.source == name
  }

  function UnresolvedOf(id: string, name: string): SecurityEvent -> bool {
    (e: SecurityEvent) => Involves(e, id, name) && e.status != Resolved
  }

  function CriticalOf(id: string, name: string): SecurityEvent -> bool {
    (e: SecurityEvent) => Involves(e, id, name) && e.severity == CriticalSeverity
  }

  function IdentityPoints(identity: IdentityProfile): int {
    Points(!identity.mfaEnabled, 14)
    + (match identity.deviceTrust case UnknownDevice => 10 case Compromised => 24 case _ => 0)
    + (match identity.kind case ThirdParty => 12 case Service => 6 case User => 0)
    + (match identity.status
       case Watchlist => 10 case Suspicious => 18 case IsolatedIdentity => 28 case Active => 0)
  }

  /** The part of identity risk that earlier risk does not feed. */
  function IdentityPressure(identity: IdentityProfile, events: seq<SecurityEvent>): real {
    identity.anomalyScore * 0.6
    + (IdentityPoints(identity)
       + 3 * Count(events, UnresolvedOf(identity.id, identity.name))
       + 5 * Count(events, CriticalOf(identity.id, identity.name))) as real
  }

  /** One derivation of a risk score from the previous one under a given pressure. */
  function NextRisk(pressure: real, risk: real): int {
    Clamp(Round(risk * 0.4 + pressure), 0, 100)
  }

  function IdentityRisk(identity: IdentityProfile, events: seq<SecurityEvent>): int {
    NextRisk(IdentityPressure(identity, events), identity.riskScore)
  }

  /** The engine's own computation of the identity score. */
  method CalculateIdentityRisk(identity: IdentityProfile, events: seq<SecurityEvent>) returns (risk: int)
    ensures risk == IdentityRisk(identity, events)
  {
    var score := identity.anomalyScore * 0.6 + identity.riskScore * 0.4;
    var points := ScoreIdentity(identity);
    score := score + points as real;
    score := score + (Count(events, UnresolvedOf(identity.id, identity.name)) * 3) as real;
    score := score + (Count(events, CriticalOf(identity.id, identity.name)) * 5) as real;
    risk := Clamp(Round(score), 0, 100);
  }

  method ScoreIdentity(identity: IdentityProfile) returns (points: int)
    ensures points == IdentityPoints(identity)
  {
    points := 0;
    if !identity.mfaEnabled { points := points + 14; }
    if identity.deviceTrust == UnknownDevice { points := points + 10; }
    if identity.deviceTrust == Compromised { points := points + 24; }
    if identity.kind == ThirdParty { points := points + 12; }
    if identity.kind == Service { points := points + 6; }
    if identity.status == Watchlist { points := points + 10; }
    if identity.status == Suspicious { points := points + 18; }
    if identity.status == IsolatedIdentity { points := points + 28; }
  }

  lemma PressurePermutation(identity: IdentityProfile, events: seq<SecurityEvent>, shuffled: seq<SecurityEvent>)
    requires multiset(events) == multiset(shuffled)
    ensures IdentityPressure(identity, events) == IdentityPressure(identity, shuffled)
  {
    CountPermutation(events, shuffled, UnresolvedOf(identity.id, identity.name));
    CountPermutation(events, shuffled, CriticalOf(identity.id, identity.name));
  }

  /** A rescored copy of an identity is scored under the pressure of the original, whatever the
      order of the events. */
  lemma RiskUnderPressure(
    identity: IdentityProfile, events: seq<SecurityEvent>, scored: IdentityProfile, shuffled: seq<SecurityEvent>)
    requires identity.(riskScore := scored.riskScore) == scored
    requires multiset(events) == multiset(shuffled)
    ensures IdentityRisk(scored, shuffled) == NextRisk(IdentityPressure(identity, events), scored.riskScore)
  {
    PressurePermutation(identity, events, shuffled);
  }

  // ---- What an identity's own fields do to its risk ----

  /** The event is about the identity: it names its id, or comes from its name. */
  predicate IsBy(event: SecurityEvent, identity: IdentityProfile) {
    event.relatedIdentityId == Some(identity.id) || event.source == identity.name
  }

  /** A missing factor presses with 14 points. */
  lemma MfaPresses(identity: IdentityProfile, events: seq<SecurityEvent>)
    ensures IdentityPressure(identity.(mfaEnabled := false), events)
            == IdentityPressure(identity.(mfaEnabled := true), events) + 14.0
  {
  }

  /** A managed device presses no more than a trusted one, an unknown one with 10 points, a compromised one with 24. */
  lemma DevicePresses(identity: IdentityProfile, events: seq<SecurityEvent>, trust: DeviceTrust)
    ensures IdentityPressure(identity.(deviceTrust := trust), events)
            == IdentityPressure(identity.(deviceTrust := Trusted), events)
               + if trust == Compromised then 24.0 else if trust == UnknownDevice then 10.0 else 0.0
  {
  }

  lemma KindPresses(identity: IdentityProfile, events: seq<SecurityEvent>, kind: IdentityType)
    ensures IdentityPressure(identity.(kind := kind), events)
            == IdentityPressure(identity.(kind := User), events)
               + if kind == ThirdParty then 12.0 else if kind == Service then 6.0 else 0.0
  {
  }

  lemma StatusPresses(identity: IdentityProfile, events: seq<SecurityEvent>, status: IdentityStatus)
    ensures IdentityPressure(identity.(status := status), events)
            == IdentityPressure(identity.(status := Active), events)
               + if status == IsolatedIdentity then 28.0 else if status == Suspicious then 18.0
                 else if status == Watchlist then 10.0 else 0.0
  {
  }

  lemma AnomalyPresses(identity: IdentityProfile, events: seq<SecurityEvent>, anomaly: real)
    ensures IdentityPressure(identity.(anomalyScore := anomaly), events)
            == IdentityPressure(identity.(anomalyScore := 0.0), events) + anomaly * 0.6
  {
  }

  /** An event about the identity presses with three points while unresolved, and five if critical. */
  lemma IdentityEventCosts(identity: IdentityProfile, event: SecurityEvent, events: seq<SecurityEvent>)
    ensures IdentityPressure(identity, [event] + events) == IdentityPressure(identity, events)
            + (if IsBy(event, identity) && event.status != Resolved then 3.0 else 0.0)
            + (if IsBy(event, identity) && event.severity == CriticalSeverity then 5.0 else 0.0)
  {
    assert ([event] + events)[1..] == events;
  }

  lemma HarmlessIdentity(identity: IdentityProfile)
    requires identity.mfaEnabled && identity.deviceTrust == Trusted && identity.kind == User
    requires identity.status == Active && identity.anomalyScore == 0.0
    ensures IdentityPressure(identity, []) == 0.0
  {
  }

  /** The score of an identity is two fifths of its last one and the pressure, rounded half up inside 0..100. */
  lemma IdentityRounded(identity: IdentityProfile, events: seq<SecurityEvent>)
    ensures var score := IdentityRisk(identity, events);
            var sum := identity.riskScore * 0.4 + IdentityPressure(identity, events);
            && 0 <= score <= 100
            && (score == 0 || sum >= score as real - 0.5) && (score == 100 || sum < score as real + 0.5)
  {
  }
}

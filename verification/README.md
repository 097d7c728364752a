# HCSC: a model of the security console and proofs about it

HCSC is a security console for a hybrid cloud. Its browser store and the engines in `src/lib` decide which
asset and which identity is risky, whether an access request is allowed, what a touched trap leads to, and
how compliant the whole is. This project models that decision system in Dafny, with the normalisers, the
storage helpers and the one operator command around it, and proves what they promise.

Code that computes a value from a value is written as functions. Code that builds its result up step by step
or changes fields is written as methods and classes, each proved against a function that says what it must
leave behind: the store object (`ConsoleStore.Store`), the demo accounts (`DemoAuthStorage.DemoAuthStorage`),
the tutorial's storage (`GuidedRun.GuidedRunStorage`), the database of the two-factor reset
(`TwoFactorReset.Client`), and the loops of the risk, zero-trust and isolation engines. What the source
promises is then proved about those functions, over every input and every run.

| file | models |
|---|---|
| `SecurityTypes`, `Rounding`, `Sequences`, `Text`, `KeyedLists` | the records, `Math.round` and averages, JavaScript arrays, sets, strings and maps |
| `EventOrder`, `RiskEngine`, `RiskConvergence` | the event order, asset and identity risk, the feedback loop of identity risk |
| `ZeroTrustEngine`, `EventEngine`, `DeceptionEngine`, `ComplianceEngine` | the other engines |
| `Derivation` | `deriveEnvironment`, the cache of every dependent value |
| `StoreActions`, `StoreRuns`, `StoreTheorems`, `StoreEffects`, `ConsoleStore` | the store's actions, whole runs of them, what single ones leave, the store object |
| `Hydration` | the asynchronous hydration of session and environment |
| `SecurityMetadata` | the metadata sanitizer |
| `PercentEncoding`, `GuidedRun` | percent-encoding over UTF-8, the tutorial and its storage key |
| `DatabaseIsolation`, `Regex`, `DomainPolicy`, `SecurityTestScope` | target names and the isolation guard, the domain recogniser, scope lists |
| `DemoAuthStorage`, `TwoFactorReset` | the demo accounts, the operator's reset |

## What the proofs found

- Re-deriving an unchanged environment settles sooner than its feedback factor suggests: from a score in
  0..100 after six derivations, from any score after seven, at the nearest score of an interval that the
  pressure fixes, and neither number can be lowered
  (`RiskConvergence.SixAreNeeded`, `RiskConvergence.SevenAreNeeded`).
- A hand decision on a request of an identity that touched a trap changes the request's status only; its
  evaluation is `isolate` again in the same step (`StoreTheorems.HandDecisionOverridden`).
- Evaluating a request for a lure records a trap hit of its identity, which then isolates all its requests
  (`StoreEffects.EvaluationRecords`, `StoreTheorems.TrappedIsIsolated`).
- Decisions are monotone in every signal, but the reported score is not: a lure reports 99, so it falls
  against a request that scored 100 without one (`ZeroTrustEngine.ReportedScoreMonotone`,
  `ZeroTrustEngine.LureReportsLess`).
- A playbook that contains an event again after it was resolved raises the risk of every asset the event
  concerns that is no lure and not at the cap, and no other playbook raises any
  (`EventEngine.PlaybookRaisesExactly`, `EventEngine.ContainingReopens`).
- Regenerating one report is undone by the derivation that follows it: every derived environment holds the
  whole report set (`StoreTheorems.ReportIsRecalculation`).
- A server load whose request for runs failed keeps the old runs beside the new events, so a run can name an
  event that is gone (`StoreTheorems.LoadSoundExactly`, `StoreTheorems.LoadDropsReferences`).
- Logging out and loading from the server place an environment without deriving it. The store agrees with
  itself exactly unless such a step was the last to place one and what it placed did not agree; the demo
  foundation does not, because its events are not newest first (`StoreTheorems.StoreConsistentExactly`,
  `StoreTheorems.LogOutRun`).
- The loading flags do not count loads. They are on exactly when a load has started since the last one
  finished and the last reset (`Hydration.FlagsExactly`), so two overlapping loads, or a reset during one,
  leave them off while a load runs (`Hydration.FlagsHideExactly`, `Hydration.OverlappingLoadsHide`).
- The store is hydrated exactly when a session has been applied since the last reset, so a reset during a
  hydration, or a stored record without its `auth` part, lets the hydration end with the store not hydrated
  (`Hydration.HydratedExactly`, `Hydration.ResetUnhydrates`, `Hydration.BrokenRecordUnhydrates`).
- The sanitizer is idempotent on JSON-like values but not on all: values of other kinds are shown by an
  uncut text, which a second pass would cut (`SecurityMetadata.IdempotentExactly`).
- The pooled spelling of a Neon host means the direct host only if no label of the direct host ends in
  "-pooler" itself (`DatabaseIsolation.PooledSpellingExactly`).
- A scope list given as an array may hold entries with a comma or line break inside; exactly those lists do
  not survive being written as text (`SecurityTestScope.RoundTripExactly`).
- Where `localStorage` can be read but not written, an older stored value hides the tutorial's actions
  (`GuidedRun.DispatchShowsExactly`).
- `identityVerified` of the access form is never read (`ZeroTrustEngine.AccessIsolatesExactly`).

## Model

| member | source | states |
|---|---|---|
| Derivation.DerivationSettles | src/store/security-console-store.ts:510-565 | from the seventh derivation on, deriving an environment again changes nothing at all in it, for any environment |
| Derivation.DerivationSettlesAt | src/store/security-console-store.ts:510-565 | where it settles: each identity at the settled score of its own pressure nearest to its first derived score, nothing else of it changed |
| Derivation.DeriveTimesScores | src/store/security-console-store.ts:516-522 | over n derivations the score of each identity follows the feedback sequence of its own pressure, computed from the events as given, and nothing else of it changes |
| RiskConvergence.SettlesFromRange | src/lib/risk-engine.ts:204-237 | from a whole score in 0..100 the feedback sequence is settled after six steps, at the nearest settled score |
| RiskConvergence.SettlesFromAnywhere | src/lib/risk-engine.ts:204-237 | from any real score, in range or not, it is settled after seven, at the settled score nearest to the first derived one |
| RiskConvergence.SettledExactly | src/lib/risk-engine.ts:204-237 | a score is settled exactly when it lies between two ends that the pressure alone fixes |
| RiskConvergence.RiskMovesOneWay | src/lib/risk-engine.ts:204-237 | the sequence only rises or only falls, as its first step does, and is in 0..100 after it |
| RiskConvergence.StepContracts | src/lib/risk-engine.ts:204-237 | one step leaves at most two fifths of the distance to the interval of settled scores, and changes nothing inside it |
| RiskConvergence.SixAreNeeded | src/lib/risk-engine.ts:204-237 | five steps do not always settle a score in range |
| RiskConvergence.SevenAreNeeded | src/lib/risk-engine.ts:204-237 | six steps do not always settle a score out of range |
| Derivation.DeriveConsistent | src/store/security-console-store.ts:510-565 | after a derivation the stored risks, evaluations, compliance scores, reports and event order agree with the base values |
| Derivation.ConsistentMeansStable | src/store/security-console-store.ts:510-565 | an environment agrees with itself exactly when deriving it changes nothing but identity scores |
| Derivation.DeriveTwice | src/store/security-console-store.ts:510-565 | a second derivation changes no asset, event, request, snapshot or report |
| Derivation.DeriveOrdersEvents | src/store/security-console-store.ts:511 | the events become a newest-first permutation that keeps simultaneous events in order |
| Derivation.DeriveAssessesAssets | src/store/security-console-store.ts:512-515 | each asset's risk is the one computed from the unsorted events |
| Derivation.DeriveScoresIdentities | src/store/security-console-store.ts:516-522 | each identity's score is the one computed from the unsorted events, and nothing else of it changes |
| Derivation.DeriveEvaluates | src/store/security-console-store.ts:524-544 | the evaluation of each request is computed from the base values as given, not from derived ones: the lookups see the same identities and assets; what is passed on, `Derivation.DecidedEvaluation` says |
| Derivation.DecidedReasons | src/store/security-console-store.ts:524-544 | by the fields of a decided request, the identity and asset it names and the events: each reason its evaluation holds, in both directions; a missing factor exactly if the request or the identity lacks it |
| Derivation.DecidedEvaluation | src/store/security-console-store.ts:524-544 | a decided request keeps all but its evaluation, which is the engine's on its own factor, device, action, place, time, kind and anomaly, the identity's factor, the asset's class, place and lure mark, and exactly the categories of the identity's events |
| Derivation.DecidedWithoutMfa | src/store/security-console-store.ts:538-542 | a decided request for critical data that lacks a factor, its own or the identity's, stands denied or isolated |
| Derivation.UndecidedIsKept | src/store/security-console-store.ts:524-537 | a pending request, and one whose identity or asset is unknown, is kept as it is |
| Derivation.DeriveTakesSnapshot | src/store/security-console-store.ts:546-565 | compliance is the snapshot taken with an empty report list, of the derived and of the given environment alike |
| Derivation.RecentExactly | src/store/security-console-store.ts:524-544 | the categories passed on as recent are exactly those of events about the identity, by id or by name |
| EventOrder.StableSortUnique | src/store/security-console-store.ts:511 | any newest-first list that keeps the order inside each moment is the list the store keeps |
| EventOrder.SortSorts | src/store/security-console-store.ts:511 | sorting gives a newest-first permutation |
| EventOrder.SortStable | src/store/security-console-store.ts:511 | sorting keeps the given order of simultaneous events |
| StoreTheorems.RunStaysConsistent | src/store/security-console-store.ts:708-721 | every state that deriving actions reach from a consistent one is consistent, for any run of them |
| StoreTheorems.RunConsistentExactly | src/store/security-console-store.ts:708-721 | any run ends consistent exactly when its last step that placed an environment derived it, or placed directly one that was consistent, or there was no such step and the start was consistent |
| StoreTheorems.StoreConsistentExactly | src/store/security-console-store.ts:705-721 | from its construction on, whatever its foundation, the store ends a run consistent exactly unless the last environment placed was placed directly and was not |
| StoreTheorems.LogOutRun | src/store/security-console-store.ts:2442-2462 | a run that breaks it: the store agrees with itself until a user logs out, which places a foundation that is not newest first without deriving it |
| StoreTheorems.ReportIsRecalculation | src/store/security-console-store.ts:1738-1748 | making one report or all again leaves the store exactly as recalculating it does |
| StoreTheorems.OnceTrappedAlwaysIsolated | src/store/security-console-store.ts:1583-1606 | once an identity triggers a trap, after any further actions but those that replace the environment (start, reset, seeded onboarding, logout, server load), every decided request of that identity for an existing asset is evaluated `isolate`, exactly unless the last environment placed is one a server answer was patched into and it says otherwise; event ids drawn on the way are new |
| StoreTheorems.PatchUndoesIsolation | src/store/security-console-store.ts:1393-1402 | a run that shows it: after the hit the server creates a request that it allows |
| StoreTheorems.HandDecisionOverridden | src/store/security-console-store.ts:1440-1455 | deciding such a request by hand gives it the status that goes with that decision, constructor by constructor, and leaves its evaluation at `isolate` whatever was decided |
| StoreTheorems.DecisionSetsStatus | src/store/security-console-store.ts:1440-1455 | deciding by hand: every request of the id ends approved exactly for allow and limited allow, waiting for step-up, rejected or isolated exactly for those decisions, and every other request keeps its status |
| StoreTheorems.EvaluationSetsStatus | src/store/security-console-store.ts:1293-1317 | the same for an evaluation, by the engine's decision on the request's own fields, those of its identity and asset, and the identity's events |
| StoreEffects.EvaluationRecords | src/store/security-console-store.ts:1299-1337 | an evaluation records an event about the identity exactly for deny, isolate and step-up: a trap hit if the asset is a lure, a violation of policy otherwise |
| StoreEffects.CreatedRequestWaits | src/store/security-console-store.ts:1373-1438 | a created request stands in front, pending, with the engine's evaluation of its own fields and those of the identity and asset it names, without events |
| StoreEffects.ScenarioExportRefused | src/store/security-console-store.ts:1096-1111 | the export that the first scenario adds is denied or isolated and marked so, whatever the data, the identity and the events |
| StoreEffects.StrippingCosts | src/store/security-console-store.ts:1124-1145 | the third scenario leaves the bucket without encryption and key management, with both reasons, and raises its risk by 18, 10 and 9 points as far as it had them and its event names it, up to the cap |
| StoreEffects.ScenarioRecords | src/store/security-console-store.ts:1066-1235 | each scenario adds one run and, unless it is unknown, one event of its own category, which the run names |
| StoreEffects.TouchingIsolates | src/store/security-console-store.ts:1541-1606 | naming a trap and an identity and touching the one by the other isolates that identity over any further local actions |
| StoreEffects.DefaultHit | src/store/security-console-store.ts:1541-1606 | where nothing is named the batch service touches the bucket of secrets |
| StoreEffects.SeventhStepIsolates | src/store/security-console-store.ts:870-886 | the demo's seventh step isolates the decided requests of the batch service at once |
| StoreEffects.NextStepMoves | src/store/security-console-store.ts:1968-1975 | the demo goes on by one step and stays at its last; the steps are marked completed before it, active at it, pending after |
| StoreEffects.PreviousStepMoves | src/store/security-console-store.ts:1977-1997 | it goes back by one and stays at its first |
| StoreEffects.StatusIsSet | src/store/security-console-store.ts:1466-1490 | setting a status sets it for every event of the id, touches no other event, and loses none |
| StoreEffects.ServerModeIsUntouched | src/store/security-console-store.ts:255-259 | in server mode, or without a demo, no local action changes anything but those that create an event by hand, replace the environment or bring an answer |
| StoreTheorems.ConsistentIsolatesExactly | src/store/security-console-store.ts:524-544 | in a consistent environment a decided request stands isolated exactly for a lure, a trap hit on record, or a score of at least 92 |
| StoreTheorems.TrappedIsIsolated | src/store/security-console-store.ts:524-544 | consistency and one recorded trap hit isolate every decided request of the identity |
| StoreTheorems.RunKeepsTrapped | src/store/security-console-store.ts:1066-1997 | no run of actions that replace no environment and draw new event ids loses the record of a trap hit, or uses an event id twice |
| StoreTheorems.TriggerTraps | src/store/security-console-store.ts:1583-1606 | touching a trap leaves a record that names the identity |
| StoreTheorems.StoreStaysSound | src/store/security-console-store.ts:787-902 | from a sound foundation on, in every state actions reach, each run names only events that exist, and an active demo has its steps completed below the current one, active at it and pending above; foundations placed on the way are sound, a server load brings distinct ids and events for its runs, and event ids drawn are new |
| StoreTheorems.LoadSoundExactly | src/store/security-console-store.ts:475-501 | after a server load the demo steps, which it carries over, stay in order; the whole is sound exactly if every event that its runs name came |
| StoreTheorems.LoadDropsReferences | src/store/security-console-store.ts:943-968 | a load whose runs did not come keeps the old ones, and so names an event that is gone |
| StoreTheorems.FoundationIsSound | src/lib/mock-data.ts:1925-1965 | a foundation of the demo's shape is sound: distinct event ids, one run that names a listed event, the demo not started |
| StoreRuns.DeriveKeeps | src/store/security-console-store.ts:510-565 | a derivation keeps the traces of events, the known identities, the runs and the demo |
| StoreRuns.PerformContinues | src/store/security-console-store.ts:1066-1997 | where event ids identify events, each action that does not replace the environment adds at most one trace, under the id drawn for it, loses none, and keeps references and demo steps intact |
| StoreRuns.TrapContinues | src/store/security-console-store.ts:1583-1606 | triggering a trap adds exactly the trace of that identity's hit |
| StoreRuns.PutEventMarks | src/store/security-console-store.ts:1492-1539 | responding to an event leaves every trace as it was |
| ConsoleStore.Store.constructor | src/store/security-console-store.ts:705-706 | the store starts from the derived foundation, outside demo and server mode |
| ConsoleStore.Store.RunSimulation | src/store/security-console-store.ts:1066-1235 | a simulation, which derives up to three times on the way, leaves exactly the state its specification gives |
| ConsoleStore.Store.TriggerDeception | src/store/security-console-store.ts:1541-1606 | touching a trap leaves the event, the suspicious identity, the triggered trap and the run, derived |
| ConsoleStore.Store.EvaluateAccessRequest | src/store/security-console-store.ts:1293-1371 | evaluating a request leaves its evaluation and status, and the event it may raise, derived in that order; which status and event, `StoreTheorems.EvaluationSetsStatus` and `StoreEffects.EvaluationRecords` say |
| ConsoleStore.Store.AdvanceDemo | src/store/security-console-store.ts:1968-1975 | the next demo step leaves its effect and the steps marked around it |
| ConsoleStore.Store.PerformAll | src/store/security-console-store.ts:1066-2636 | a run of any actions on the store object, its fields updated one action after another, ends where the run of the specification ends |
| ConsoleStore.RunProgram | src/store/security-console-store.ts:705-2636 | the store the program builds, after any run: its values agree with its base values exactly unless the last environment placed was placed directly and did not agree, and references and demo steps are sound as long as it is given sound environments |
| RiskEngine.CalculateAssetRisk | src/lib/risk-engine.ts:149-202 | the loop over the signals computes the specified assessment, whose every signal the rows below state by its own field |
| RiskEngine.CalculateIdentityRisk | src/lib/risk-engine.ts:204-237 | the accumulated identity score is 0.4 of the previous one plus a pressure it does not feed, rounded and clamped |
| RiskEngine.EncryptionCosts | src/lib/risk-engine.ts:167 | losing encryption costs a real asset 18 points of the reported score, up to the cap |
| RiskEngine.KmsCosts | src/lib/risk-engine.ts:168 | losing key management costs 10 |
| RiskEngine.BackupCosts | src/lib/risk-engine.ts:169 | losing the backup costs 10 |
| RiskEngine.ProtectionCosts | src/lib/risk-engine.ts:167-168 | losing encryption and key management together costs 28, as far as the asset had them |
| RiskEngine.AnonymizationCosts | src/lib/risk-engine.ts:175 | a missing anonymisation costs 6, the other states nothing |
| RiskEngine.ScopeCosts | src/lib/risk-engine.ts:166-170 | the scope of either regulation costs 8, and 10 more in a SaaS |
| RiskEngine.ClassCosts | src/lib/risk-engine.ts:11-17 | each class against public data, by name, with the public cloud's surcharge for the two highest |
| RiskEngine.PlaceCosts | src/lib/risk-engine.ts:165-166 | each place against the private cloud |
| RiskEngine.UseCosts | src/lib/risk-engine.ts:171-174 | accesses from 50 and 100 a day, intensity from 55 and 85 |
| RiskEngine.EventCosts | src/lib/risk-engine.ts:177-186 | one more event about the asset, by id or with its name or path in the target: 3 points unresolved, 6 critical |
| RiskEngine.HarmlessAsset | src/lib/risk-engine.ts:149-163 | an asset without a signal scores 4, a lure always 18 |
| RiskEngine.AssetLevel | src/lib/risk-engine.ts:19-24 | the level by the reported score, each in both directions |
| RiskEngine.AssetReasonsExactly | src/lib/risk-engine.ts:33-147 | each reason of a real asset's risk, by its fields and the events about it, in both directions |
| RiskEngine.AssetControlsExactly | src/lib/risk-engine.ts:33-147 | each control its risk names, in both directions, where anything calls for one |
| RiskEngine.AssetControlsElse | src/lib/risk-engine.ts:199 | where nothing does, the asset's own recommended controls stand |
| RiskEngine.AssetActions | src/lib/risk-engine.ts:200 | the actions are the first six controls |
| RiskEngine.MfaPresses | src/lib/risk-engine.ts:207 | a missing factor presses an identity with 14 points |
| RiskEngine.DevicePresses | src/lib/risk-engine.ts:208-209 | an unknown device with 10, a compromised one with 24, a managed one no more than a trusted one |
| RiskEngine.KindPresses | src/lib/risk-engine.ts:210-211 | a third party with 12, a service with 6 |
| RiskEngine.StatusPresses | src/lib/risk-engine.ts:212-214 | watched, suspicious and isolated identities with 10, 18 and 28 |
| RiskEngine.AnomalyPresses | src/lib/risk-engine.ts:205 | each point of anomaly with three fifths |
| RiskEngine.IdentityEventCosts | src/lib/risk-engine.ts:216-221 | an event about the identity, by id or from its name, with 3 points unresolved and 5 critical |
| RiskEngine.HarmlessIdentity | src/lib/risk-engine.ts:204-214 | an identity without a signal is under no pressure |
| RiskEngine.IdentityRounded | src/lib/risk-engine.ts:231 | the score is two fifths of the last one and the pressure, rounded half up in 0..100 |
| RiskEngine.AssetRiskPermutation | src/lib/risk-engine.ts:149-202 | asset risk does not see the order of the events |
| RiskEngine.AssetRiskIgnoresRisk | src/lib/risk-engine.ts:149-202 | asset risk does not read the stored risk |
| RiskEngine.LevelOfClamped | src/lib/risk-engine.ts:19-24 | the level taken from the unclamped score is the level of the reported one |
| RiskEngine.RiskUnderPressure | src/lib/risk-engine.ts:204-237 | a rescored copy of an identity is scored under the pressure of the original, whatever the event order |
| ZeroTrustEngine.EvaluateZeroTrustRequest | src/lib/zero-trust-engine.ts:32-197 | the engine's loop over the signals gives the specified evaluation, whose reasons, policies, actions, decision and sum the rows below state signal by signal |
| ZeroTrustEngine.DecisionMonotone | src/lib/zero-trust-engine.ts:12-30 | in the same orders, making any signals riskier never gives a less restrictive decision |
| ZeroTrustEngine.IsolatesExactly | src/lib/zero-trust-engine.ts:12-66 | `isolate` holds exactly for a deception target, a recent `deception_triggered`, or a score of at least 92 |
| ZeroTrustEngine.IsolationOrdersIsolation | src/lib/zero-trust-engine.ts:46-197 | `isolate_identity` is ordered exactly with an `isolate` decision or a compromised device |
| ZeroTrustEngine.ActionsExactly | src/lib/zero-trust-engine.ts:51-186 | which follow-up actions are ordered, in both directions, for every action and every target, lures included |
| ZeroTrustEngine.ScoreMonotone | src/lib/zero-trust-engine.ts:68-173 | the sum rises with every signal, the orders named by constructor: public, internal, confidential, sensitive, critical; trusted or managed, unknown, compromised; low, medium, high; normal, elevated, off hours |
| ZeroTrustEngine.ReportedScoreMonotone | src/lib/zero-trust-engine.ts:46-178 | the reported score rises with every signal, exactly unless only the riskier request meets a lure and the signals of the other add up to 99.5 or more |
| ZeroTrustEngine.ReasonsExactly | src/lib/zero-trust-engine.ts:79-188 | each reason of an evaluation by the fields of the request, in both directions; a lure has its own reason alone |
| ZeroTrustEngine.PoliciesExactly | src/lib/zero-trust-engine.ts:51-160 | each policy it names, in both directions |
| ZeroTrustEngine.DecidesExactly | src/lib/zero-trust-engine.ts:12-18 | the decision by the reported score, each in both directions, with the thresholds 34, 56, 76 and 92 |
| ZeroTrustEngine.ReportsRounded | src/lib/zero-trust-engine.ts:173 | the reported score is the sum of the signals rounded half up in 0..100; a lure reports 99 |
| ZeroTrustEngine.HarmlessScore | src/lib/zero-trust-engine.ts:68-77 | a request without a signal sums to 4 |
| ZeroTrustEngine.DeviceMoves | src/lib/zero-trust-engine.ts:86-96 | changing the device alone moves the sum: unknown by 12, compromised by 26, managed not at all |
| ZeroTrustEngine.PlaceAndTimeMove | src/lib/zero-trust-engine.ts:98-119 | place by 8 and 16, time by 6 and 12 |
| ZeroTrustEngine.ActionMoves | src/lib/zero-trust-engine.ts:121-125 | export, deletion and administration by 18 |
| ZeroTrustEngine.MfaMoves | src/lib/zero-trust-engine.ts:79-131 | a missing factor by 18, and by 38 for critical data, whichever of the two is missing |
| ZeroTrustEngine.AnomalyMoves | src/lib/zero-trust-engine.ts:77-154 | the anomaly by its weight, and by 14 more for a service from 72 on |
| ZeroTrustEngine.KindMoves | src/lib/zero-trust-engine.ts:133-154 | third parties and services, alone and with what they add |
| ZeroTrustEngine.DataMoves | src/lib/zero-trust-engine.ts:68-142 | each class by name |
| ZeroTrustEngine.EventsMove | src/lib/zero-trust-engine.ts:156-171 | each recent event by its category |
| ZeroTrustEngine.RiskyExportRefused | src/lib/zero-trust-engine.ts:79-131 | an export without a factor, from an unknown device, at a risky place and out of hours is denied or isolated, whoever asks and whatever the data |
| ZeroTrustEngine.LureReportsLess | src/lib/zero-trust-engine.ts:46-178 | such a pair: a request that scores 100, and the same against a lure, which scores 99 |
| ZeroTrustEngine.CriticalDataNeedsMfa | src/lib/zero-trust-engine.ts:68-178 | critical data without multi-factor authentication is denied or isolated, for every anomaly score that is not negative |
| ZeroTrustEngine.AccessIsolatesExactly | src/lib/zero-trust-engine.ts:199-228 | the form isolates exactly for a lure by flag or location, a recent trap hit or a high score, whether or not the identity is verified |
| EventEngine.PlaybookOutcome | src/lib/event-engine.ts:143-167 | the last status-setting action decides the final status, or else open becomes investigating; the old timeline stays as a suffix and grows by one entry an action; everything else but the recommendation is unchanged |
| EventEngine.PlaybookStatus | src/lib/event-engine.ts:143-160 | the status a playbook ends with, each in both directions: the last action that resolves or contains decides, and without one an open event is investigated |
| EventEngine.DefaultPlaybookStatus | src/lib/event-engine.ts:10-58 | left to its category's playbook, an event of a trap, a public bucket, ransomware, interface abuse or privilege escalation ends contained, any other open one investigated |
| EventEngine.GradedExactly | src/lib/event-engine.ts:49-54 | the severity of an event by its score, each in both directions, and medium without one |
| EventEngine.PlaybookNeverRaisesRisk | src/lib/event-engine.ts:143-167 | a playbook that does not take a resolved event out of that status raises no asset's risk |
| EventEngine.PlaybookRaisesExactly | src/lib/risk-engine.ts:149-202 | a playbook raises an asset's risk exactly when it takes a resolved event out of that status, the event concerns the asset, and the asset is no lure and not at the cap |
| EventEngine.ReopeningRaisesRisk | src/lib/risk-engine.ts:177-186 | a resolved event taken out of that status costs each real asset it concerns three points, up to the cap |
| EventEngine.ContainingReopens | src/lib/event-engine.ts:143-167 | such an event: containing it again takes a quiet asset from 4 to 7 points |
| EventEngine.PlaybookOnAsset | src/lib/risk-engine.ts:177-186 | what a playbook changes of the counts an asset's risk reads |
| DeceptionEngine.HitRaisesRisk | src/lib/deception-engine.ts:4-88 | touching a trap raises the derived risk of the identity by at least three points, up to the cap, from any scores in 0..100 |
| DeceptionEngine.HitAddsPressure | src/lib/deception-engine.ts:11-55 | a hit adds at least three points to the pressure on the identity: an unresolved event, and no milder anomaly or status |
| DeceptionEngine.HitAddsExactly | src/lib/deception-engine.ts:11-88 | how much pressure a hit adds: 3 points and 5 if critical for its event, what the status lacks of suspicious, and three fifths of 24 points of anomaly, up to 100 |
| ComplianceEngine.ScoresInRange | src/lib/compliance-engine.ts:191-195 | all compliance scores lie in 0..100 |
| ComplianceEngine.OverallBetweenFunctions | src/lib/compliance-engine.ts:191-195 | the overall score lies between the least and the greatest of the six functions |
| ComplianceEngine.EncryptingNeverHurts | src/lib/compliance-engine.ts:21-163 | enabling encryption and key management on any asset lowers no score, through all three layers of rounded averages, and moves no function but Protect |
| ComplianceEngine.SnapshotDepends | src/lib/compliance-engine.ts:56-195 | the snapshot sees neither event order nor stored risks nor, of the reports, more than whether there are six |
| ComplianceEngine.PrivacyInRange | src/lib/compliance-engine.ts:21-54 | the privacy shares and scores lie in 0..100 |
| ComplianceEngine.GovernExactly | src/lib/compliance-engine.ts:77-87 | the mean, in whole numbers, of the share of enabled rules and two constants |
| ComplianceEngine.IdentifyExactly | src/lib/compliance-engine.ts:91-102 | of 100, the share of real assets with an owner, and 84 |
| ComplianceEngine.ProtectExactly | src/lib/compliance-engine.ts:103-117 | of the shares, each of a set given by the fields of its members: encrypted sensitive data, identities with MFA, assets with backup |
| ComplianceEngine.DetectExactly | src/lib/compliance-engine.ts:118-132 | of the events that are no visibility gap, the live traps, and whether a trap was hit |
| ComplianceEngine.RespondExactly | src/lib/compliance-engine.ts:133-147 | of the events contained or resolved, whether one was handled, and 78 |
| ComplianceEngine.RecoverExactly | src/lib/compliance-engine.ts:148-156 | of the assets with backup, whether one is at the backup site, and 74 |
| ComplianceEngine.PrivacyExactly | src/lib/compliance-engine.ts:21-54 | every privacy share and score, over the real assets in the scope of either regulation |
| ComplianceEngine.OverallExactly | src/lib/compliance-engine.ts:184-188 | the overall score is the mean of the six, the ISO score that of it and two privacy shares |
| Rounding.RoundedAverageMonotone | src/lib/utils.ts:24-30 | a rounded average does not fall when its entries rise |
| Rounding.RoundedAverageBounds | src/lib/utils.ts:24-30 | a rounded average lies between any bounds of its entries |
| Rounding.PercentMonotone | src/lib/compliance-engine.ts:10-13 | a share does not fall when its part grows |
| Rounding.PercentExactly | src/lib/compliance-engine.ts:10-13 | a share is the integer nearest to the hundredfold quotient, ties going up, stated without division; nothing out of nothing is 100 |
| Rounding.AverageExactly | src/lib/utils.ts:25-31 | a rounded average is the integer nearest to the quotient, likewise |
| Hydration.RunKeepsInv | src/store/security-console-store.ts:2013-2080 | the invariant of the protocol holds after any interleaving of hydrations, loads, failures and user actions |
| Hydration.FlagsSettle | src/store/security-console-store.ts:904-1006 | at most one authentication hydration is in flight, and with no environment load in flight both loading flags are off |
| Hydration.SettledIsHydrated | src/store/security-console-store.ts:2013-2080 | a hydration that settles leaves `auth.hydrated` true if its session was applied and the store not reset since |
| Hydration.SettlesHydratedExactly | src/store/security-console-store.ts:2013-2080 | a hydration that settles leaves `auth.hydrated` true exactly when, since the last reset, a session has been applied by itself or by anyone else |
| Hydration.HydratedExactly | src/store/security-console-store.ts:2013-2080 | after every run the store is hydrated exactly when a session has been applied since the last reset |
| Hydration.FlagsExactly | src/store/security-console-store.ts:904-1006 | after every run the loading flags are on exactly when a load has started since the last load finished and the last reset |
| Hydration.LoadsCounted | src/store/security-console-store.ts:904-1006 | the loads in flight are those started less those finished, over any run |
| Hydration.FlagsHideExactly | src/store/security-console-store.ts:904-1006 | flags and loads disagree exactly when more loads have started than finished and, since the last start, one has finished or the store was reset; the flags are then off |
| Hydration.OverlappingLoadsHide | src/store/security-console-store.ts:904-1006 | two such runs: one of two overlapping loads finishes, and a single load meets a reset |
| Hydration.ResetUnhydrates | src/store/security-console-store.ts:1815-1823 | a run in which a reset while the environment loads leaves the settled hydration not hydrated, and one in which signing in before it settles makes it hydrated again |
| Hydration.BrokenRecordUnhydrates | src/store/security-console-store.ts:2013-2080 | a run in which a stored record without `auth` does |
| Hydration.ServerSession | src/store/security-console-store.ts:404-438 | an arriving user payload leaves a session exactly if it is authenticated and complete, cleared exactly if also verified or exempt |
| Hydration.StoredSession | src/store/security-console-store.ts:2013-2080 | without a server the stored session counts as it is, and none leaves things as they were |
| Hydration.CustomSession | src/store/security-console-store.ts:2013-2080 | a stored session of a custom demo account counts at once, exactly where local accounts are allowed |
| Hydration.SessionEnds | src/store/security-console-store.ts:2428-2462 | logging out and resetting end session and server mode; only the reset forgets the hydration |
| Hydration.LoadKeepsSession | src/store/security-console-store.ts:904-1000 | a finished load changes no session and turns server mode on exactly if it succeeded |
| Hydration.LoadsNeedASession | src/store/security-console-store.ts:904-906 | a load starts only into a session that is signed in and cleared |
| SecurityMetadata.SecretsDoNotInterfere | src/lib/security-metadata.ts:3-26 | values that differ only in entries whose keys hold one of the twelve words in any case, at any depth, are stored alike |
| SecurityMetadata.SecretExactly | src/lib/security-metadata.ts:3 | a key is sensitive exactly if one of the twelve words, spelled out, stands somewhere in it in any case of ASCII letters |
| SecurityMetadata.EntryStored | src/lib/security-metadata.ts:14-24 | at every shown depth, an entry is stored under its key as "[redacted]" if the key holds such a word, and as its sanitized value if it holds none |
| SecurityMetadata.AccessTokenIsRedacted | src/lib/security-metadata.ts:3-26 | the value of "accessToken" is never stored in clear |
| SecurityMetadata.StoredAlikeExactly | src/lib/security-metadata.ts:5-26 | exactly when two values are stored alike, kind by kind: the kernel of the sanitizer |
| SecurityMetadata.SanitizedIsPresentable | src/lib/security-metadata.ts:5-26 | the output nests at most five levels, arrays hold at most 25 and objects at most 50 entries, and every entry whose key holds one of the words is "[redacted]" |
| SecurityMetadata.FixedExactly | src/lib/security-metadata.ts:5-26 | sanitizing leaves a value alone exactly when it is in stored form |
| SecurityMetadata.IdempotentExactly | src/lib/security-metadata.ts:5-30 | sanitizing twice is sanitizing once, exactly unless a value of another kind is shown by a text longer than the cut |
| SecurityMetadata.LongFunctionIsCutTwice | src/lib/security-metadata.ts:25 | such a value: a function shown by a text of 513 characters, which only a second pass cuts |
| SecurityMetadata.IdempotentOnJson | src/lib/security-metadata.ts:5-30 | it is idempotent on JSON-like values with dates and `undefined` |
| SecurityMetadata.SanitizedIsCleanExactly | src/lib/security-metadata.ts:5-26 | the output is in stored form, exactly unless such a text is shown |
| SecurityMetadata.CutExactly | src/lib/security-metadata.ts:9 | the 512-character cut gives at most 515 characters and leaves its own results alone |
| PercentEncoding.ComponentRoundTrip | src/lib/guided-run.ts:23-25 | decoding a percent-encoded component gives the string back, for every encodable string (sections 19.2.6.2 and 19.2.6.4 of ECMA-262) |
| PercentEncoding.ComponentIsPlain | src/lib/guided-run.ts:23-25 | an encoded component holds unreserved characters and escapes only, so no separator (section 2.1 of RFC 3986) |
| PercentEncoding.EncodesTwoBytes | src/lib/guided-run.ts:23-25 | a letter of two bytes in capital hexadecimal digits |
| PercentEncoding.EncodesThreeBytes | src/lib/guided-run.ts:23-25 | a sign of three |
| PercentEncoding.Utf8RoundTrip | src/lib/guided-run.ts:23-25 | the UTF-8 bytes of every code point read back as it |
| GuidedRun.StorageKeyInjective | src/lib/guided-run.ts:23-25 | two storage keys are equal exactly when user and workspace are |
| GuidedRun.TutorialsAreSeparate | src/components/dashboard/use-guided-run.ts:15-30 | whoever else uses the browser, each user's tutorial in each workspace is where that user's own actions there have brought it, exactly if the storage can be written, cannot be read or holds nothing of that tutorial, or the actions lead back to its start |
| GuidedRun.DispatchShowsExactly | src/components/dashboard/use-guided-run.ts:15-30 | an action's effect is shown, exactly unless a readable, unwritable storage holds an older value and the action changes something |
| GuidedRun.FullStorageHides | src/components/dashboard/use-guided-run.ts:15-30 | such a storage: full, and holding the beginning of a tutorial that has moved on |
| GuidedRun.CompletesAtItsLength | src/lib/guided-run.ts:15-21 | the tutorial completes with exactly as many `next` actions as it has steps, and more change nothing |
| GuidedRun.PreviousUndoesExactly | src/lib/guided-run.ts:15-21 | going back undoes going on, exactly if there was a step to go on to or the tutorial of one step had been completed |
| GuidedRun.NextUndoesExactly | src/lib/guided-run.ts:15-21 | going on undoes going back, exactly from a later step that the tutorial has, or in the same completed case |
| GuidedRun.ShowsAndCompletesExactly | src/lib/guided-run.ts:15-21 | which actions show, hide and complete a tutorial, in both directions |
| GuidedRun.WrittenReads | src/lib/guided-run.ts:5-13 | a written state reads back, exactly for steps that are safe integers |
| GuidedRun.GuidedRunStorage.Dispatch | src/components/dashboard/use-guided-run.ts:26-30 | the storage after one action: the new state in memory, and in `localStorage` if it can be written |
| GuidedRun.GuidedRunStorage.Read | src/components/dashboard/use-guided-run.ts:15-17 | `localStorage` first, then the tab's memory |
| DatabaseIsolation.AssertDatabaseIsolation | src/lib/database-isolation.ts:30-55 | the guard's verdict or error, error by error, for every configuration |
| DatabaseIsolation.FindTarget | src/lib/database-isolation.ts:9-28 | the normalised target of a URL, or why it has none |
| DatabaseIsolation.TargetExactly | src/lib/database-isolation.ts:9-28 | a URL has a target exactly if its protocol, host, fragment, parameters and database name are allowed, each spelled out |
| DatabaseIsolation.AcceptedExactly | src/lib/database-isolation.ts:30-55 | a configuration is accepted with a target and scope exactly if both connections reach it, the scope is the first one set, and the pins are there, well formed and fitting |
| DatabaseIsolation.ProductionIsSeparate | src/lib/database-isolation.ts:30-55 | once a configuration is accepted for production, none is accepted for anything else under the same production pin if its runtime or direct connection reaches a host, port and database that one of production's reaches |
| DatabaseIsolation.EverySpellingIsRefused | src/lib/database-isolation.ts:9-55 | outside production no URL of the production database gets past the guard, in either connection: any host joined to production's by a chain of changes of case, final dot and pooled form in either direction, the same port after the default, the same database name, any protocol and query |
| DatabaseIsolation.ChainSame | src/lib/database-isolation.ts:21-22 | hosts at the ends of any chain of respellings are the same host |
| DatabaseIsolation.RespelledTarget | src/lib/database-isolation.ts:9-28 | a URL for the same database in another spelling has the same target, unless it is refused as a URL |
| DatabaseIsolation.ChainsCombine | src/lib/database-isolation.ts:21-22 | chains go both ways and combine: a pooled host, and a pooled host with a final dot, are joined to the direct one |
| DatabaseIsolation.RemoteNeedsPins | src/lib/database-isolation.ts:30-55 | without both pins only localhost, 127.0.0.1 or [::1] outside production is accepted |
| DatabaseIsolation.PooledSpellingExactly | src/lib/database-isolation.ts:21-22 | adding "-pooler" to the first label of a Neon host keeps the target, exactly when no label of the host ends in "-pooler" already |
| DatabaseIsolation.PooledLabelFails | src/lib/database-isolation.ts:22 | such a host: "a-pooler.neon.tech", whose pooled spelling is another host |
| DatabaseIsolation.FinalDotExactly | src/lib/database-isolation.ts:21 | a final dot keeps the host, exactly when there is none already |
| DomainPolicy.DomainMatchesExactly | src/lib/domain-policy.ts:1-8 | the regular expression matches exactly the names of at least two labels, each of 1 to 63 letters, digits and inner hyphens, the last of 2 to 63 letters (sections 2.3.1 and 2.3.4 of RFC 1035) |
| DomainPolicy.AcceptsExactly | src/lib/domain-policy.ts:1-8 | accepted are exactly the prepared names of at most 253 characters in that grammar that end in none of the six reserved endings |
| DomainPolicy.NormalizeIsStable | src/lib/domain-policy.ts:1-8 | an accepted name is normalised to itself |
| DomainPolicy.SpellingsAreAccepted | src/lib/domain-policy.ts:1-8 | however it is capitalised, with spaces around it and a final dot or not, an unreserved name of the grammar is accepted as its lower-case self |
| SecurityTestScope.RoundTripExactly | src/lib/security-test-policy.ts:47-50 | a scope list survives being written line by line and read back, exactly when no entry holds a line feed or a comma |
| SecurityTestScope.CommaEntrySplits | src/lib/security-test-policy.ts:47-50 | such a list: one entry with a comma inside |
| SecurityTestScope.TextRoundTrip | src/lib/security-test-policy.ts:47-50 | every list read from a text survives |
| SecurityTestScope.FormAgreesWithPolicy | src/components/adversary-validation/adversary-validation-view.tsx:161-163 | normalising the form's list is normalising the raw text, although they split by different rules |
| SecurityTestScope.NormalizedShape | src/lib/security-test-policy.ts:47-50 | a normalised list holds at most fifty trimmed entries, each once, in first-occurrence order |
| SecurityTestScope.DistinctKeeps | src/lib/security-test-policy.ts:47-50 | before the limit a value is in the list exactly when it is the trimmed, non-empty form of some entry |
| Text.TrimTrims | src/lib/security-test-policy.ts:47-50 | a trimmed string has no white space at either end, and only such strings are fixed |
| Text.TrimExactly | src/lib/demo-auth-storage.ts:8-10 | trimming takes the white space around a text and nothing of the text |
| DemoAuthStorage.RunOfSignUps | src/lib/demo-auth-storage.ts:68-84 | after any run of sign-ups at most 25 accounts are stored, one per normalised address; the last one is found; all are found in their latest form exactly when there were at most 25 addresses |
| DemoAuthStorage.SpellingsShareExactly | src/lib/demo-auth-storage.ts:8-10 | two spellings are one account's address if, and for ASCII addresses only if, they differ in case and surrounding white space alone |
| DemoAuthStorage.AvailableExactly | src/lib/demo-auth-storage.ts:52-66 | the merged listing has one account per address: the latest stored one, or the seeded one where none is stored |
| DemoAuthStorage.DemoAuthStorage.UpsertAccount | src/lib/demo-auth-storage.ts:68-84 | the stored item after one upsert, in every environment |
| DemoAuthStorage.DemoAuthStorage.AvailableAccounts | src/lib/demo-auth-storage.ts:52-66 | the listing is the insertion-ordered merge of seeded and stored accounts |
| DemoAuthStorage.DemoAuthStorage.IsCustomAccount | src/lib/demo-auth-storage.ts:86-99 | an account is custom exactly when its address is stored and not seeded |
| DemoAuthStorage.FindAccount | src/lib/demo-auth-storage.ts:73-75 | the first position of a normalised address, or -1 |
| KeyedLists.UpsertsRefineMap | src/lib/demo-auth-storage.ts:68-84 | over any run of upserts the list is a bounded map that evicts the key inserted longest ago |
| KeyedLists.UpsertRefinesPut | src/lib/demo-auth-storage.ts:68-84 | one upsert on any such list is one put into the map |
| KeyedLists.UpsertedIsFoundExactly | src/lib/demo-auth-storage.ts:68-84 | on any list, even a foreign one, an upserted record is found exactly when its key was new or lay within the capacity |
| KeyedLists.RemembersAllExactly | src/lib/demo-auth-storage.ts:68-84 | a run remembers the latest record of every key exactly when it was given no more keys than the capacity |
| KeyedLists.MergedExactly | src/lib/demo-auth-storage.ts:57-65 | filling a `Map` gives one value per key, in first-occurrence order, each the last record of its key |
| KeyedLists.ListingExactly | src/lib/demo-auth-storage.ts:57-65 | of two lists filled in one after the other, the second hides the first under its keys |
| KeyedLists.SetAll | src/lib/demo-auth-storage.ts:57-63 | the loop that fills the map |
| TwoFactorReset.AtMostOnce | scripts/reset-user-two-factor.ts:30-74 | in any run a request id takes effect at most once, and does exactly when the run leaves a reset row under it that was not there before |
| TwoFactorReset.ReplaysChangeNothing | scripts/reset-user-two-factor.ts:40-60 | once a request id has been used, the run without its commands ends in the same database: no replay removes a newer enrolment |
| TwoFactorReset.UsedIdAnswers | scripts/reset-user-two-factor.ts:40-61 | a used request id answers `already_applied` at most, and is refused for any other user or action, for ever after |
| TwoFactorReset.ResetClearsOneUser | scripts/reset-user-two-factor.ts:47-60 | a reset leaves its user without secrets, codes and live sessions, keeps password, role, memberships and session history, changes no other user's rows, and adds exactly one audit row |
| TwoFactorReset.ReportIsTrue | scripts/reset-user-two-factor.ts:61-67 | the report's mode, counts and `resetRecorded` are what the database holds afterwards |
| TwoFactorReset.TakesEffectExactly | scripts/reset-user-two-factor.ts:31-47 | a command takes effect exactly if it applies, passes the guards, names by id and mail an active ADMIN with a membership as security admin, and its request id is new |
| TwoFactorReset.AnsweredExactly | scripts/reset-user-two-factor.ts:15-67 | a command is answered exactly if its arguments and target are right, it names such an account, and its request id is new or of a reset of that account |
| TwoFactorReset.ResetLeaves | scripts/reset-user-two-factor.ts:47-60 | what taking effect leaves, row by row |
| TwoFactorReset.CheckForetellsApply | scripts/reset-user-two-factor.ts:69-73 | a dry run changes nothing and tells what applying would do |
| TwoFactorReset.ResetsCommute | scripts/reset-user-two-factor.ts:70-73 | commands for different users under different request ids give the same database in either order |
| TwoFactorReset.Client.Execute | scripts/reset-user-two-factor.ts:15-75 | the whole command, with its refusals, leaves exactly the specified database and result |
| TwoFactorReset.Client.InspectOrReset | scripts/reset-user-two-factor.ts:30-68 | the transaction does |

## Left out

- Floating point: scores are exact numbers, weights are tenths and hundredths, and `Math.round(x)` is the
  floor of x + 1/2.
- Strings: a `char` is one well-formed character. The sanitizer's cut counts UTF-16 units and may split a
  pair; lone surrogates cannot be percent-encoded at all.
- Text.ToLower: lowers only the characters whose lower case is or starts with an ASCII letter. Domain names,
  host names and the retention policy are then compared with ASCII, so no other capital matters there; this
  includes "BELİRSİZ", whose lower case is not "belirsiz" here or in the original. Mail addresses that differ
  in another capital are one key in the original and two here; the results of `KeyedLists` hold for any key.
- Timestamps are ranks in a total preorder; the original compares ISO texts.
- SecurityMetadata.IdempotentExactly: dates are valid ones; sanitizing an invalid date throws.
- Texts shown to the user: reasons, recommendations and timeline messages are tags, including which one
  holds the word "deception"; report texts are left out and only the kinds of reports kept.
- Records keep the fields that some decision reads; timeline entries have no ids and times.
- Request and identity reason lists, `calculateRequestRisk`, findings and recommendations of the compliance
  engine, and the dashboard summary: they would add easy members.
- `src/lib/security-risk-scoring.ts`: the same shape as the risk engine. The run transition table of
  `src/lib/security-test-policy.ts` and the small permission and readiness tables: settled by reading them.
- Server branches of the store's actions: an action that reaches the server ends in a server load or a server
  patch, whose answers are arbitrary, or does nothing; the local branches are modelled behind their guards.
  When no runs come, those kept are the ones at the end of the load. The server's own demo also turns demo
  mode on. Toasts, notifications, audit rows, selections and the session's fields are left out of the
  store's state.
- The initial scan that onboarding may start is a separate `RecalculateAll` action.
- ConsoleStore.Store.RunSimulation: where the original throws because a demo actor is missing, the model
  leaves the state as it is.
- StoreTheorems.OnceTrappedAlwaysIsolated: event ids drawn along a run are new, as random ids are; actions
  that replace the whole environment drop the record of the hit with everything else. The demo environment
  the store falls back to is a parameter.
- Hydration: what an API load brings is outside the protocol; only its start, finish and failure are steps.
- `new URL`, SHA-256, clocks and random ids: URLs come parsed, a hash is any function, ids and times are
  parameters.
- DemoAuthStorage.FindAccount: addresses that differ in a capital outside ASCII are told apart here, as said
  of lower-casing above.
- TwoFactorReset.AtMostOnce: the rest of the program is any change of the database that neither drops nor
  rewrites audit rows nor writes rows of the reset's action; deleting a user or an organisation would.
- TwoFactorReset.Client.Execute: the database's hash is a parameter, and a dry run, which the original
  reads without a transaction, is one step.
- Array.from, JSON and `localStorage` themselves: a stored text is what parsing makes of it.

/** `src/lib/deception-engine.ts`: what happens when an identity touches a trap. */
module DeceptionEngine {
  import opened SecurityTypes
  import opened EventEngine
  import opened RiskEngine
  import opened Rounding
  import opened Sequences

  datatype Incident = Incident(event: SecurityEvent, identity: IdentityProfile, deception: DeceptionAsset)

  function AtMost100(x: real): real {
    if x < 100.0 then x else 100.0
  }

  function IncreaseLureScore(trap: DeceptionAsset, amount: int): DeceptionAsset {
    trap.(lureScore := if trap.lureScore + amount < 100 then trap.lureScore + amount else 100)
  }

  function MarkIdentitySuspicious(identity: IdentityProfile, note: Note): IdentityProfile {
    identity.(
      anomalyScore := AtMost100(identity.anomalyScore + 24.0),
      riskScore := AtMost100(identity.riskScore + 22.0),
      status := if identity.status == IsolatedIdentity then IsolatedIdentity else Suspicious,
      notes := [note] + identity.notes)
  }

  function CreateDeceptionEvent(
    trap: DeceptionAsset, identity: IdentityProfile, eventId: string, timestamp: int): SecurityEvent
  {
    CreateSecurityEvent(
      eventId, timestamp,
      EventInput(
        Some(OrElse(trap.severity, CriticalSeverity)), None, DeceptionTriggered, identity.name, trap.name,
        Text(trap.recommendedResponse), None, None, None, Some(identity.id)))
  }

  function TriggerDeceptionAccess(
    trap: DeceptionAsset, identity: IdentityProfile, eventId: string, timestamp: int): Incident
  {
    Incident(
      CreateDeceptionEvent(trap, identity, eventId, timestamp),
      MarkIdentitySuspicious(identity, TrapHit(trap.name, timestamp)),
      IncreaseLureScore(
        trap.(status := Triggered, triggerCount := trap.triggerCount + 1,
              lastTriggeredAt := Some(timestamp),
              severity := Some(OrElse(trap.severity, CriticalSeverity))),
        3))
  }

  /** What a hit adds to the pressure: three points for its open event and five if that is critical, as it is for a trap
      without a severity; what the identity lacks of a suspicious status; and 24 points of anomaly, up to 100. */
  lemma HitAddsExactly(
    trap: DeceptionAsset, identity: IdentityProfile, eventId: string, timestamp: int, events: seq<SecurityEvent>)
    ensures var incident := TriggerDeceptionAccess(trap, identity, eventId, timestamp);
            var anomaly := if identity.anomalyScore + 24.0 > 100.0 then 100.0 else identity.anomalyScore + 24.0;
            IdentityPressure(incident.identity, [incident.event] + events)
            == IdentityPressure(identity, events) + 3.0
               + (if trap.severity == None || trap.severity == Some(CriticalSeverity) then 5.0 else 0.0)
               + (if identity.status == Active then 18.0 else if identity.status == Watchlist then 8.0 else 0.0)
               + (anomaly - identity.anomalyScore) * 0.6
  {
    var incident := TriggerDeceptionAccess(trap, identity, eventId, timestamp);
    IdentityEventCosts(incident.identity, incident.event, events);
    StatusPresses(identity, events, identity.status);
    StatusPresses(identity, events, incident.identity.status);
    var marked := identity.(status := incident.identity.status);
    AnomalyPresses(marked, events, marked.anomalyScore);
    AnomalyPresses(marked, events, incident.identity.anomalyScore);
    assert identity == identity.(status := identity.status);
    assert marked == marked.(anomalyScore := marked.anomalyScore);
    assert IdentityPressure(incident.identity, events)
           == IdentityPressure(marked.(anomalyScore := incident.identity.anomalyScore), events);
  }

  /** A hit adds at least three points to the pressure on the identity that hit the trap: its new event
      is unresolved, and neither its anomaly nor its status becomes milder. */
  lemma HitAddsPressure(
    trap: DeceptionAsset, identity: IdentityProfile, eventId: string, timestamp: int, events: seq<SecurityEvent>)
    requires identity.anomalyScore <= 100.0
    ensures var incident := TriggerDeceptionAccess(trap, identity, eventId, timestamp);
            IdentityPressure(incident.identity, [incident.event] + events) >= IdentityPressure(identity, events) + 3.0
  {
    HitAddsExactly(trap, identity, eventId, timestamp, events);
  }

  /** Touching a trap raises the derived risk of the identity by at least three points, up to the cap. */
  lemma HitRaisesRisk(
    trap: DeceptionAsset, identity: IdentityProfile, eventId: string, timestamp: int, events: seq<SecurityEvent>)
    requires 0.0 <= identity.anomalyScore <= 100.0 && 0.0 <= identity.riskScore <= 100.0
    ensures var incident := TriggerDeceptionAccess(trap, identity, eventId, timestamp);
            var before, after :=
              IdentityRisk(identity, events), IdentityRisk(incident.identity, [incident.event] + events);
            after >= before + 3 || after == 100
  {
    var incident := TriggerDeceptionAccess(trap, identity, eventId, timestamp);
    HitAddsPressure(trap, identity, eventId, timestamp, events);
    NextRiskRises(IdentityPressure(identity, events),
                  IdentityPressure(incident.identity, [incident.event] + events),
                  identity.riskScore, incident.identity.riskScore);
  }

  lemma NextRiskRises(pressure: real, more: real, risk: real, higher: real)
    requires 0.0 <= pressure <= more - 3.0 && 0.0 <= risk <= higher
    ensures NextRisk(more, higher) >= NextRisk(pressure, risk) + 3 || NextRisk(more, higher) == 100
  {
    RoundMonotone(risk * 0.4 + pressure + 3.0, higher * 0.4 + more);
  }
}

/** The feedback loop of identity risk: every derivation feeds 0.4 of the previous score back in,
    rounds and clamps. Repeated derivation moves one way and stops after at most seven steps. */
module RiskConvergence {
  import opened Rounding
  import opened RiskEngine

  /** The score after n derivations under an unchanged pressure. */
  function RiskAfter(pressure: real, start: real, n: nat): real {
    if n == 0 then start else NextRisk(pressure, RiskAfter(pressure, start, n - 1)) as real
  }

  /** The same step on integers: 0.4 r + p + 1/2 is (2 r + c) / 5 for c the floor of 5 p + 5/2. */
  function FifthsStep(c: int, risk: int): int {
    Clamp((2 * risk + c) / 5, 0, 100)
  }

  function Fifths(pressure: real): int {
    (5.0 * pressure + 2.5).Floor
  }

  lemma StepInFifths(pressure: real, risk: int)
    ensures NextRisk(pressure, risk as real) == FifthsStep(Fifths(pressure), risk)
  {
    var c, x := Fifths(pressure), risk as real * 0.4 + pressure + 0.5;
    var q := (2 * risk + c) / 5;
    assert 5 * q <= 2 * risk + c <= 5 * q + 4;
    assert 5.0 * x == (2 * risk) as real + (5.0 * pressure + 2.5);
    assert q as real <= x < (q + 1) as real;
  }

  function StepFrom(c: int, risk: int, n: nat): int
    decreases n
  {
    if n == 0 then risk else FifthsStep(c, StepFrom(c, risk, n - 1))
  }

  /** The settled scores form an interval, from the least to the greatest fixed point. */
  function Lowest(c: int): int {
    Clamp((c - 2) / 3, 0, 100)
  }

  function Highest(c: int): int {
    Clamp(c / 3, 0, 100)
  }

  function Distance(c: int, risk: int): nat {
    if risk > Highest(c) then risk - Highest(c)
    else if risk < Lowest(c) then Lowest(c) - risk
    else 0
  }

  /** One step leaves at most two fifths of the distance to the interval, rounded. */
  lemma StepContracts(c: int, risk: int)
    requires 0 <= risk <= 100
    ensures Distance(c, FifthsStep(c, risk)) <= (2 * Distance(c, risk) + 2) / 5
    ensures Distance(c, risk) == 0 ==> FifthsStep(c, risk) == risk
  {
  }

  lemma DistanceAfter(c: int, risk: int, n: nat, bound: int)
    requires 0 <= StepFrom(c, risk, n) <= 100
    requires Distance(c, StepFrom(c, risk, n)) <= bound
    ensures 0 <= StepFrom(c, risk, n + 1) <= 100
    ensures Distance(c, StepFrom(c, risk, n + 1)) <= (2 * bound + 2) / 5
  {
    StepContracts(c, StepFrom(c, risk, n));
  }

  /** The settled score nearest to a score. */
  function Nearest(c: int, risk: int): int {
    Clamp(risk, Lowest(c), Highest(c))
  }

  lemma StepKeepsNearest(c: int, risk: int)
    requires 0 <= risk <= 100
    ensures 0 <= FifthsStep(c, risk) <= 100
    ensures Nearest(c, FifthsStep(c, risk)) == Nearest(c, risk)
  {
  }

  lemma {:induction false} AfterKeepsNearest(c: int, risk: int, n: nat)
    requires 0 <= risk <= 100
    ensures 0 <= StepFrom(c, risk, n) <= 100
    ensures Nearest(c, StepFrom(c, risk, n)) == Nearest(c, risk)
  {
    if n != 0 {
      AfterKeepsNearest(c, risk, n - 1);
      StepKeepsNearest(c, StepFrom(c, risk, n - 1));
    }
  }

  /** Six steps close the distance: it is at most 100, 40, 16, 6, 2, 1, 0. */
  lemma SixStepsArrive(c: int, risk: int)
    requires 0 <= risk <= 100
    ensures 0 <= StepFrom(c, risk, 6) <= 100 && Distance(c, StepFrom(c, risk, 6)) == 0
  {
    DistanceAfter(c, risk, 0, 100);
    DistanceAfter(c, risk, 1, 40);
    DistanceAfter(c, risk, 2, 16);
    DistanceAfter(c, risk, 3, 6);
    DistanceAfter(c, risk, 4, 2);
    DistanceAfter(c, risk, 5, 1);
  }

  lemma NearestToItself(c: int, risk: int)
    requires 0 <= risk <= 100 && Distance(c, risk) == 0
    ensures Nearest(c, risk) == risk
  {
  }

  /** From a score in range, six steps reach the settled score nearest to it, and the seventh changes nothing. */
  lemma SettlesInSix(c: int, risk: int)
    requires 0 <= risk <= 100
    ensures StepFrom(c, risk, 6) == Nearest(c, risk)
    ensures FifthsStep(c, StepFrom(c, risk, 6)) == StepFrom(c, risk, 6)
  {
    SixStepsArrive(c, risk);
    AfterKeepsNearest(c, risk, 6);
    NearestToItself(c, StepFrom(c, risk, 6));
    StepContracts(c, StepFrom(c, risk, 6));
  }

  lemma {:induction false} AfterInFifths(pressure: real, risk: int, n: nat)
    ensures RiskAfter(pressure, risk as real, n) == StepFrom(Fifths(pressure), risk, n) as real
  {
    if n != 0 {
      AfterInFifths(pressure, risk, n - 1);
      StepInFifths(pressure, StepFrom(Fifths(pressure), risk, n - 1));
    }
  }

  lemma {:induction false} AfterShift(pressure: real, start: real, n: nat)
    ensures RiskAfter(pressure, start, n + 1) == RiskAfter(pressure, NextRisk(pressure, start) as real, n)
  {
    if n == 0 {
      assert RiskAfter(pressure, start, 1) == NextRisk(pressure, RiskAfter(pressure, start, 0)) as real;
    } else {
      AfterShift(pressure, start, n - 1);
    }
  }

  /** Once a step changes nothing, no later step does. */
  lemma {:induction false} FixedStaysFixed(pressure: real, start: real, n: nat, m: nat)
    requires n <= m
    requires NextRisk(pressure, RiskAfter(pressure, start, n)) as real == RiskAfter(pressure, start, n)
    ensures RiskAfter(pressure, start, m) == RiskAfter(pressure, start, n)
  {
    if n < m {
      FixedStaysFixed(pressure, start, n, m - 1);
    }
  }

  /** The score at which a whole score in range settles under a pressure: unchanged inside an interval that the
      pressure alone fixes, and at its near end from outside. */
  function Settled(pressure: real, risk: int): int {
    Nearest(Fifths(pressure), risk)
  }

  /** From a whole score in 0..100 the score is settled after six derivations, at the nearest settled score. */
  lemma SettlesFromRange(pressure: real, risk: int, n: nat)
    requires 0 <= risk <= 100 && 6 <= n
    ensures RiskAfter(pressure, risk as real, n) == Settled(pressure, risk) as real
    ensures NextRisk(pressure, RiskAfter(pressure, risk as real, n)) as real == RiskAfter(pressure, risk as real, n)
  {
    var c := Fifths(pressure);
    AfterInFifths(pressure, risk, 6);
    SettlesInSix(c, risk);
    StepInFifths(pressure, StepFrom(c, risk, 6));
    FixedStaysFixed(pressure, risk as real, 6, n);
  }

  /** From any score at all, in or out of range, it is settled after seven, at the settled score nearest to the
      one after the first. */
  lemma SettlesFromAnywhere(pressure: real, start: real, n: nat)
    requires 7 <= n
    ensures RiskAfter(pressure, start, n) == Settled(pressure, NextRisk(pressure, start)) as real
    ensures NextRisk(pressure, RiskAfter(pressure, start, n)) as real == RiskAfter(pressure, start, n)
  {
    var first := NextRisk(pressure, start);
    AfterShift(pressure, start, n - 1);
    SettlesFromRange(pressure, first, n - 1);
  }

  /** A whole score is settled exactly when it lies between the two ends the pressure fixes. */
  lemma SettledExactly(pressure: real, risk: int)
    requires 0 <= risk <= 100
    ensures NextRisk(pressure, risk as real) == risk <==>
            Lowest(Fifths(pressure)) <= risk <= Highest(Fifths(pressure))
  {
    StepInFifths(pressure, risk);
  }

  lemma NextRiskMonotone(pressure: real, low: real, high: real)
    requires low <= high
    ensures NextRisk(pressure, low) <= NextRisk(pressure, high)
  {
    RoundMonotone(low * 0.4 + pressure, high * 0.4 + pressure);
  }

  /** The scores only rise or only fall, whichever the first derivation does. */
  lemma {:induction false} RiskMovesOneWay(pressure: real, start: real, n: nat)
    ensures start <= NextRisk(pressure, start) as real ==>
              RiskAfter(pressure, start, n) <= RiskAfter(pressure, start, n + 1)
    ensures start >= NextRisk(pressure, start) as real ==>
              RiskAfter(pressure, start, n) >= RiskAfter(pressure, start, n + 1)
    ensures n > 0 ==> 0.0 <= RiskAfter(pressure, start, n) <= 100.0
  {
    if n == 0 {
      assert RiskAfter(pressure, start, 1) == NextRisk(pressure, RiskAfter(pressure, start, 0)) as real;
    } else {
      RiskMovesOneWay(pressure, start, n - 1);
      var before, now := RiskAfter(pressure, start, n - 1), RiskAfter(pressure, start, n);
      if before <= now {
        NextRiskMonotone(pressure, before, now);
      }
      if now <= before {
        NextRiskMonotone(pressure, now, before);
      }
    }
  }

  /** A quiet identity falls 100, 40, 16, 6, 2, 1, 0: five steps are not always enough. */
  lemma SixAreNeeded()
    ensures RiskAfter(0.0, 100.0, 5) != RiskAfter(0.0, 100.0, 6)
  {
    var fall := [100, 40, 16, 6, 2, 1, 0];
    Follows(2, 100, fall, 5);
    Follows(2, 100, fall, 6);
    AfterInFifths(0.0, 100, 5);
    AfterInFifths(0.0, 100, 6);
  }

  /** A score far out of range under slightly negative pressure needs the seventh step. */
  lemma SevenAreNeeded()
    ensures RiskAfter(-0.3, 188.25, 6) != RiskAfter(-0.3, 188.25, 7)
  {
    var fall := [75, 30, 12, 5, 2, 1, 0];
    Follows(1, 75, fall, 5);
    Follows(1, 75, fall, 6);
    AfterInFifths(-0.3, 75, 5);
    AfterInFifths(-0.3, 75, 6);
    FirstFall();
    AfterShift(-0.3, 188.25, 5);
    AfterShift(-0.3, 188.25, 6);
  }

  lemma FirstFall()
    ensures NextRisk(-0.3, 188.25) == 75 && Fifths(-0.3) == 1
  {
  }

  lemma {:induction false} Follows(c: int, start: int, path: seq<int>, n: nat)
    requires n < |path| && path[0] == start
    requires forall i :: 0 < i < |path| ==> path[i] == FifthsStep(c, path[i - 1])
    ensures StepFrom(c, start, n) == path[n]
  {
    if n != 0 {
      Follows(c, start, path, n - 1);
    }
  }
}

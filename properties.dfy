/** Properties that relate the rules of MaizeRules to each other and to the
    input domain: the rules partition their inputs, every branch is reachable
    from the widget ranges, and the cards of one report never contradict
    each other. */
module MaizeProperties {
  import opened MaizeRules

  // ---------------------------------------------------------------------
  // Growth phase
  // ---------------------------------------------------------------------

  /** The four day bands partition the integers: exactly one phase holds on each day. */
  lemma PhaseIsTheUniqueBand(days: int, q: Phase)
    ensures InBand(q, days) <==> q == GrowthPhase(days)
  {
  }

  /** Phases only advance as days go by. */
  lemma PhaseMonotone(d1: int, d2: int)
    requires d1 <= d2
    ensures PhaseRank(GrowthPhase(d1)) <= PhaseRank(GrowthPhase(d2))
  {
  }

  /** Every phase occurs for some day the widget accepts. */
  lemma EveryPhaseReachable(p: Phase)
    ensures exists s: Scenario :: InWidgetRange(s) && GrowthPhase(s.days) == p
  {
    var days := match p
      case Emergence => 0
      case VegetativeGrowth => 16
      case Flowering => 46
      case FillingMaturity => 66;
    var s := Scenario(120.0, 25.0, Franco, days);
    assert InWidgetRange(s) && GrowthPhase(s.days) == p;
  }

  // ---------------------------------------------------------------------
  // Pest alert, composed with the phase as the button handler does
  // ---------------------------------------------------------------------

  /** High pest risk exactly on days 16 to 45 at 20 degrees or more; otherwise no risk. */
  lemma PestRiskOverSeason(days: int, temp: real)
    ensures PestAlertFor(GrowthPhase(days), temp) ==
      if 16 <= days <= 45 && temp >= 20.0 then PestAdvice(HighPestRisk, Bad)
      else PestAdvice(NoSignificantRisk, Good)
  {
  }

  /** Both pest alerts occur inside the widget ranges. */
  lemma EveryPestAlertReachable(a: PestAlert)
    ensures exists s: Scenario :: InWidgetRange(s) && PestAlertFor(GrowthPhase(s.days), s.temp).alert == a
  {
    var s := if a == HighPestRisk then Scenario(120.0, 25.0, Franco, 20)
             else Scenario(120.0, 25.0, Franco, 0);
    assert InWidgetRange(s) && PestAlertFor(GrowthPhase(s.days), s.temp).alert == a;
  }

  // ---------------------------------------------------------------------
  // Planting decision
  // ---------------------------------------------------------------------

  /** Every decision is taken for some input the widgets accept. */
  lemma EveryDecisionReachable(d: Decision)
    ensures exists s: Scenario :: InWidgetRange(s) && EvaluatePlanting(s.rain, s.temp, s.soil).decision == d
  {
    var s := match d
      case CanPlant => Scenario(120.0, 25.0, Franco, 20)
      case SoilLimiting => Scenario(120.0, 25.0, Arenoso, 20)
      case DoNotPlant => Scenario(40.0, 35.0, Franco, 20);
    assert InWidgetRange(s) && EvaluatePlanting(s.rain, s.temp, s.soil).decision == d;
  }

  /** The planting decision is determined by the productivity score alone:
      5 points means plant, 4 points means the soil is limiting, 3 or fewer means do not plant. */
  lemma DecisionFollowsScore(rain: real, temp: real, soil: Soil)
    ensures EvaluatePlanting(rain, temp, soil).decision == CanPlant <==> ProductivityScore(rain, temp, soil) == 5
    ensures EvaluatePlanting(rain, temp, soil).decision == SoilLimiting <==> ProductivityScore(rain, temp, soil) == 4
    ensures EvaluatePlanting(rain, temp, soil).decision == DoNotPlant <==> ProductivityScore(rain, temp, soil) <= 3
  {
  }

  /** "Can plant" and the top of the gauge coincide; "soil limiting" shows 60;
      "do not plant" never shows more than 60. */
  lemma DecisionAgreesWithGauge(rain: real, temp: real, soil: Soil)
    ensures EvaluatePlanting(rain, temp, soil).decision == CanPlant
        <==> Bucket(ProductivityScore(rain, temp, soil)).value == 90
    ensures EvaluatePlanting(rain, temp, soil).decision == SoilLimiting
        ==> Bucket(ProductivityScore(rain, temp, soil)) == ProductivityAdvice(MediumProductivity, 60, Warning)
    ensures EvaluatePlanting(rain, temp, soil).decision == DoNotPlant
        ==> Bucket(ProductivityScore(rain, temp, soil)).value <= 60
  {
  }

  /** A plantable field never needs irrigation; a soil-limited one always does. */
  lemma DecisionAgreesWithWater(rain: real, temp: real, soil: Soil)
    ensures EvaluatePlanting(rain, temp, soil).decision == CanPlant
        ==> WaterAlertFor(rain, soil) == WaterAdvice(WaterAdequate, Good)
    ensures EvaluatePlanting(rain, temp, soil).decision == SoilLimiting
        ==> WaterAlertFor(rain, soil) == WaterAdvice(HighWaterNeed, Bad)
    ensures rain < 50.0 ==> EvaluatePlanting(rain, temp, soil).decision == DoNotPlant
  {
  }

  // ---------------------------------------------------------------------
  // Water alert
  // ---------------------------------------------------------------------

  /** More rain never raises the need for irrigation. */
  lemma WaterNeedAntitoneInRain(r1: real, r2: real, soil: Soil)
    requires r1 <= r2
    ensures WaterAlertFor(r2, soil).alert == HighWaterNeed ==> WaterAlertFor(r1, soil).alert == HighWaterNeed
  {
  }

  /** Both water alerts occur inside the widget ranges. */
  lemma EveryWaterAlertReachable(a: WaterAlert)
    ensures exists s: Scenario :: InWidgetRange(s) && WaterAlertFor(s.rain, s.soil).alert == a
  {
    var s := if a == HighWaterNeed then Scenario(30.0, 25.0, Franco, 20)
             else Scenario(80.0, 25.0, Franco, 20);
    assert InWidgetRange(s) && WaterAlertFor(s.rain, s.soil).alert == a;
  }

  // ---------------------------------------------------------------------
  // Productivity
  // ---------------------------------------------------------------------

  /** A higher score never shows a lower gauge value or a worse severity. */
  lemma BucketMonotone(s1: int, s2: int)
    requires s1 <= s2
    ensures Bucket(s1).value <= Bucket(s2).value
    ensures Bucket(s2).severity == Bad ==> Bucket(s1).severity == Bad
  {
  }

  /** More rain, at the same temperature and soil, never lowers the gauge. */
  lemma GaugeMonotoneInRain(r1: real, r2: real, temp: real, soil: Soil)
    requires r1 <= r2
    ensures Bucket(ProductivityScore(r1, temp, soil)).value <= Bucket(ProductivityScore(r2, temp, soil)).value
  {
  }

  /** The gauge shows exactly the values 30, 60 and 90 over the widget ranges:
      each is shown for some input and nothing else is ever shown. */
  lemma GaugeImage(v: int)
    ensures (exists s: Scenario :: InWidgetRange(s) && Bucket(ProductivityScore(s.rain, s.temp, s.soil)).value == v)
        <==> v in {30, 60, 90}
  {
    if v in {30, 60, 90} {
      var s := if v == 90 then Scenario(120.0, 25.0, Franco, 20)
               else if v == 60 then Scenario(60.0, 25.0, Arenoso, 20)
               else Scenario(40.0, 35.0, Arenoso, 20);
      assert InWidgetRange(s) && Bucket(ProductivityScore(s.rain, s.temp, s.soil)).value == v;
    }
  }

  /** Every score from 0 to 5 is attained, so no score branch of the bucketing is dead. */
  lemma EveryScoreReachable(n: int)
    requires 0 <= n <= 5
    ensures exists s: Scenario :: InWidgetRange(s) && ProductivityScore(s.rain, s.temp, s.soil) == n
  {
    var temp := if n >= 4 || n == 2 || n == 3 then 25.0 else 35.0;
    var rain := if n >= 4 then 120.0 else 40.0;
    var soil := if n % 2 == 1 then Franco else Arenoso;
    var s := Scenario(rain, temp, soil, 20);
    assert InWidgetRange(s) && ProductivityScore(s.rain, s.temp, s.soil) == n;
  }

  // ---------------------------------------------------------------------
  // Worked scenarios
  // ---------------------------------------------------------------------

  /** Boundary and sample scenarios: the pest threshold at exactly 20 degrees,
      the three productivity tiers, and the two causes of a high water need. */
  lemma WorkedScenarios()
    ensures PestAlertFor(VegetativeGrowth, 20.0) == PestAdvice(HighPestRisk, Bad)
    ensures PestAlertFor(VegetativeGrowth, 19.0) == PestAdvice(NoSignificantRisk, Good)
    ensures ProductivityScore(120.0, 25.0, Franco) == 5
    ensures Bucket(5) == ProductivityAdvice(HighProductivity, 90, Good)
    ensures ProductivityScore(40.0, 35.0, Arenoso) == 0
    ensures Bucket(0) == ProductivityAdvice(LowProductivity, 30, Bad)
    ensures ProductivityScore(60.0, 25.0, Arenoso) == 4
    ensures Bucket(4) == ProductivityAdvice(MediumProductivity, 60, Warning)
    ensures WaterAlertFor(30.0, Franco) == WaterAdvice(HighWaterNeed, Bad)
    ensures WaterAlertFor(80.0, Arenoso) == WaterAdvice(HighWaterNeed, Bad)
    ensures GrowthPhase(15) == Emergence && GrowthPhase(16) == VegetativeGrowth
    ensures GrowthPhase(45) == VegetativeGrowth && GrowthPhase(46) == Flowering
    ensures GrowthPhase(65) == Flowering && GrowthPhase(66) == FillingMaturity
  {
  }
}

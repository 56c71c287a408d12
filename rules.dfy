/** The agronomic rule engine of Smart Maize: five threshold-and-branch rules
    over rainfall (mm), mean temperature (degrees C), soil type and days since
    planting, and the evaluation that runs all five on one scenario.

    Every rule returns an abstract label together with a severity; the
    presentation layer turns labels into translated text and severities into
    colours (Good = #1E7F4E, Warning = #D4A017, Bad = #B3261E). */
module MaizeRules {

  datatype Soil = Franco | Argiloso | Arenoso
  datatype Severity = Good | Warning | Bad

  datatype Decision = CanPlant | SoilLimiting | DoNotPlant
  datatype Phase = Emergence | VegetativeGrowth | Flowering | FillingMaturity
  datatype PestAlert = HighPestRisk | NoSignificantRisk
  datatype WaterAlert = HighWaterNeed | WaterAdequate
  datatype Tier = HighProductivity | MediumProductivity | LowProductivity

  datatype PlantingAdvice = PlantingAdvice(decision: Decision, severity: Severity)
  datatype PestAdvice = PestAdvice(alert: PestAlert, severity: Severity)
  datatype WaterAdvice = WaterAdvice(alert: WaterAlert, severity: Severity)
  /** `value` is the number shown on the 0-100 gauge. */
  datatype ProductivityAdvice = ProductivityAdvice(tier: Tier, value: int, severity: Severity)

  /** The four inputs of one scenario, as the widgets deliver them. */
  datatype Scenario = Scenario(rain: real, temp: real, soil: Soil, days: int)

  /** Everything one press of the analyse button computes. */
  datatype Report = Report(
    planting: PlantingAdvice,
    phase: Phase,
    pests: PestAdvice,
    water: WaterAdvice,
    productivity: ProductivityAdvice)

  // ---------------------------------------------------------------------
  // Thresholds and the colour each label is shown in
  // ---------------------------------------------------------------------

  const MinPlantingRain: real := 60.0
  const MinPlantingTemp: real := 18.0
  const MaxPlantingTemp: real := 30.0
  const MinPestTemp: real := 20.0
  const MinWaterRain: real := 50.0
  const LastEmergenceDay: int := 15
  const LastVegetativeDay: int := 45
  const LastFloweringDay: int := 65

  /** The ranges the input widgets clamp to. The rules themselves accept any value. */
  predicate InWidgetRange(s: Scenario) {
    0.0 <= s.rain <= 1000.0 && -10.0 <= s.temp <= 50.0 && 0 <= s.days <= 120
  }

  function DecisionSeverity(d: Decision): Severity {
    match d
    case CanPlant => Good
    case SoilLimiting => Warning
    case DoNotPlant => Bad
  }

  function PestSeverity(a: PestAlert): Severity {
    match a
    case HighPestRisk => Bad
    case NoSignificantRisk => Good
  }

  function WaterSeverity(a: WaterAlert): Severity {
    match a
    case HighWaterNeed => Bad
    case WaterAdequate => Good
  }

  function TierSeverity(t: Tier): Severity {
    match t
    case HighProductivity => Good
    case MediumProductivity => Warning
    case LowProductivity => Bad
  }

  /** The fixed gauge value of each productivity tier. */
  function TierValue(t: Tier): int {
    match t
    case HighProductivity => 90
    case MediumProductivity => 60
    case LowProductivity => 30
  }

  /** Position of a phase in the season, for stating that phases only advance. */
  function PhaseRank(p: Phase): nat {
    match p
    case Emergence => 0
    case VegetativeGrowth => 1
    case Flowering => 2
    case FillingMaturity => 3
  }

  /** The band of days each phase covers, written independently of GrowthPhase. */
  predicate InBand(p: Phase, days: int) {
    match p
    case Emergence => days <= 15
    case VegetativeGrowth => 16 <= days <= 45
    case Flowering => 46 <= days <= 65
    case FillingMaturity => 66 <= days
  }

  // ---------------------------------------------------------------------
  // The factors shared by the planting and productivity rules
  // ---------------------------------------------------------------------

  predicate TempInWindow(temp: real) {
    MinPlantingTemp <= temp <= MaxPlantingTemp
  }

  predicate RainSufficient(rain: real) {
    rain >= MinPlantingRain
  }

  /** `solo in ["franco", "argiloso"]`. */
  predicate FertileSoil(soil: Soil) {
    soil == Franco || soil == Argiloso
  }

  // ---------------------------------------------------------------------
  // The five rules
  // ---------------------------------------------------------------------

  /** avaliar_plantio: plant only when both rain and temperature are in the
      window; a sandy soil then turns the advice into "soil limiting". */
  function EvaluatePlanting(rain: real, temp: real, soil: Soil): (a: PlantingAdvice)
    ensures a.severity == DecisionSeverity(a.decision)
    ensures a.decision == CanPlant <==> rain >= 60.0 && 18.0 <= temp <= 30.0 && soil != Arenoso
    ensures a.decision == SoilLimiting <==> rain >= 60.0 && 18.0 <= temp <= 30.0 && soil == Arenoso
    ensures a.decision == DoNotPlant <==> rain < 60.0 || temp < 18.0 || temp > 30.0
  {
    if RainSufficient(rain) && TempInWindow(temp) then
      if FertileSoil(soil) then PlantingAdvice(CanPlant, Good)
      else PlantingAdvice(SoilLimiting, Warning)
    else
      PlantingAdvice(DoNotPlant, Bad)
  }

  /** fase_milho: the growth phase reached after `days` days. */
  function GrowthPhase(days: int): (p: Phase)
    ensures InBand(p, days)
  {
    if days <= LastEmergenceDay then Emergence
    else if days <= LastVegetativeDay then VegetativeGrowth
    else if days <= LastFloweringDay then Flowering
    else FillingMaturity
  }

  /** alerta_pragas: fall armyworm risk in the vegetative phase when it is warm. */
  function PestAlertFor(phase: Phase, temp: real): (a: PestAdvice)
    ensures a.severity == PestSeverity(a.alert)
    ensures a.alert == HighPestRisk <==> phase == VegetativeGrowth && temp >= 20.0
  {
    if phase == VegetativeGrowth && temp >= MinPestTemp then PestAdvice(HighPestRisk, Bad)
    else PestAdvice(NoSignificantRisk, Good)
  }

  /** alerta_agua: irrigation is needed when rain is short or the soil is sandy. */
  function WaterAlertFor(rain: real, soil: Soil): (a: WaterAdvice)
    ensures a.severity == WaterSeverity(a.alert)
    ensures a.alert == HighWaterNeed <==> rain < 50.0 || soil == Arenoso
  {
    if rain < MinWaterRain || soil == Arenoso then WaterAdvice(HighWaterNeed, Bad)
    else WaterAdvice(WaterAdequate, Good)
  }

  /** The score produtividade accumulates: an odd point for a fertile soil and
      two points for each climate factor, so it lies in 0..5. */
  function ProductivityScore(rain: real, temp: real, soil: Soil): (s: int)
    ensures 0 <= s <= 5
    ensures s % 2 == 1 <==> FertileSoil(soil)
    ensures s / 2 == (if TempInWindow(temp) then 1 else 0) + (if RainSufficient(rain) then 1 else 0)
  {
    (if TempInWindow(temp) then 2 else 0)
    + (if RainSufficient(rain) then 2 else 0)
    + (if FertileSoil(soil) then 1 else 0)
  }

  /** The three-tier bucketing of a score; the gauge never shows anything but 30, 60 or 90. */
  function Bucket(score: int): (a: ProductivityAdvice)
    ensures a.value in {30, 60, 90}
    ensures a.value == TierValue(a.tier) && a.severity == TierSeverity(a.tier)
    ensures a.tier == HighProductivity <==> score >= 5
    ensures a.tier == MediumProductivity <==> 3 <= score < 5
    ensures a.tier == LowProductivity <==> score < 3
  {
    if score >= 5 then ProductivityAdvice(HighProductivity, 90, Good)
    else if score >= 3 then ProductivityAdvice(MediumProductivity, 60, Warning)
    else ProductivityAdvice(LowProductivity, 30, Bad)
  }

  /** produtividade: tallies the score in a local accumulator, then buckets it. */
  method Productivity(rain: real, temp: real, soil: Soil) returns (tier: Tier, value: int, severity: Severity)
    ensures ProductivityAdvice(tier, value, severity) == Bucket(ProductivityScore(rain, temp, soil))
    ensures value in {30, 60, 90}
    ensures value == TierValue(tier) && severity == TierSeverity(tier)
    ensures tier == HighProductivity <==> TempInWindow(temp) && RainSufficient(rain) && FertileSoil(soil)
  {
    var score := 0;
    if MinPlantingTemp <= temp <= MaxPlantingTemp {
      score := score + 2;
    }
    if rain >= MinPlantingRain {
      score := score + 2;
    }
    if soil == Franco || soil == Argiloso {
      score := score + 1;
    }
    assert score == ProductivityScore(rain, temp, soil);

    if score >= 5 {
      tier, value, severity := HighProductivity, 90, Good;
    } else if score >= 3 {
      tier, value, severity := MediumProductivity, 60, Warning;
    } else {
      tier, value, severity := LowProductivity, 30, Bad;
    }
  }

  /** The button handler: the phase is computed first and fed to the pest rule;
      the other rules read the raw inputs. The report is internally consistent. */
  method Analyse(s: Scenario) returns (r: Report)
    ensures r.planting == EvaluatePlanting(s.rain, s.temp, s.soil)
    ensures r.phase == GrowthPhase(s.days)
    ensures r.pests == PestAlertFor(GrowthPhase(s.days), s.temp)
    ensures r.water == WaterAlertFor(s.rain, s.soil)
    ensures r.productivity == Bucket(ProductivityScore(s.rain, s.temp, s.soil))
    ensures r.pests.alert == HighPestRisk <==> 16 <= s.days <= 45 && s.temp >= 20.0
    ensures r.planting.decision == CanPlant ==> r.productivity.value == 90 && r.water.alert == WaterAdequate
    ensures r.planting.decision == SoilLimiting ==> r.productivity.value == 60 && r.water.alert == HighWaterNeed
    ensures r.planting.decision == DoNotPlant ==> r.productivity.value <= 60
  {
    var planting := EvaluatePlanting(s.rain, s.temp, s.soil);
    var phase := GrowthPhase(s.days);
    var pests := PestAlertFor(phase, s.temp);
    var water := WaterAlertFor(s.rain, s.soil);
    var tier, value, severity := Productivity(s.rain, s.temp, s.soil);
    r := Report(planting, phase, pests, water, ProductivityAdvice(tier, value, severity));
  }
}

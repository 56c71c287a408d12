# Smart Maize rule engine in Dafny

Smart Maize is a one-page assistant for maize growers. The user enters the
expected rainfall (mm), the mean temperature (degrees C), the soil type
(franco, argiloso or arenoso) and the days since planting. The page then shows
five cards: a planting recommendation, the growth phase, a fall-armyworm pest
alert, an irrigation alert and a productivity gauge. Each card is a label
shown in a colour. The colour works as a severity: `#1E7F4E` is Good,
`#D4A017` is Warning and `#B3261E` is Bad.

This project models the rule engine behind those cards (`milho_app.py`
lines 122-173) and proves how its rules behave and how they relate:

- `rules.dfy`, module `MaizeRules`, holds the categories and the five rules.
  `avaliar_plantio`, `fase_milho`, `alerta_pragas` and `alerta_agua` are
  single if/elif/else chains, so they become functions. `produtividade`
  builds its score in a local accumulator, so it becomes a method,
  `Productivity`. It is specified by the score function `ProductivityScore`
  and the three-tier bucketing `Bucket`. The button handler (lines 169-173)
  is the method `Analyse`.
- `properties.dfy`, module `MaizeProperties`, holds the lemmas that relate
  the rules to each other and to the input ranges of the widgets.

Labels are enums, not translated strings. Colours are the `Severity` enum.
Rainfall and temperature are `real`. The source uses floats for them, but
only ever compares them with constants. Days are `int`, since the widget takes
integer bounds. The rules take any value, as the Python functions do. The
widget ranges (rainfall 0-1000, temperature -10 to 50, days 0-120; lines
116-119) appear only in `InWidgetRange`. The reachability lemmas use it so
that every witness they give is an input a user could actually enter.

One difference from the code: the pest rule at line 142 tests whether the
translated vegetative-growth label is a *substring* of the phase label. The
model compares phase enums for equality instead. In all three languages of
the label table, that label is not a substring of any other phase label. So
for every phase `fase_milho` can return, the two tests agree.

## Model

| member | source | states |
|---|---|---|
| MaizeRules.EvaluatePlanting | milho_app.py:122-129 | can plant exactly when rain >= 60, 18 <= temp <= 30 and soil is not sandy; soil limiting exactly when the climate is in that window but soil is sandy; do not plant exactly when rain < 60 or temp is outside [18, 30], whatever the soil; the severity is Good/Warning/Bad to match |
| MaizeRules.GrowthPhase | milho_app.py:131-139 | the phase returned is the one whose day band (<=15, 16-45, 46-65, >=66) contains the day |
| MaizeRules.PestAlertFor | milho_app.py:141-144 | high risk (Bad) exactly in the vegetative phase at temp >= 20, otherwise no significant risk (Good) |
| MaizeRules.WaterAlertFor | milho_app.py:146-149 | high water need (Bad) exactly when rain < 50 or soil is sandy, otherwise adequate (Good) |
| MaizeRules.ProductivityScore | milho_app.py:151-158 | the tally lies in 0..5; it is odd exactly when the soil is franco or argiloso; half of it is the number of climate factors in range (temperature window, rain >= 60) |
| MaizeRules.Bucket | milho_app.py:160-165 | the gauge value is always 30, 60 or 90; high tier (90, Good) exactly for score >= 5, medium (60, Warning) for 3-4, low (30, Bad) for <= 2 |
| MaizeRules.Productivity | milho_app.py:151-165 | the tally built in the local accumulator equals the score function and the result is its bucket; value in {30, 60, 90}; high tier exactly when all three factors hold |
| MaizeRules.Analyse | milho_app.py:168-173 | each card is computed from the scenario as the handler does, with the phase fed to the pest rule; pest risk exactly on days 16-45 at temp >= 20; can plant implies gauge 90 and adequate water; soil limiting implies gauge 60 and high water need; do not plant implies gauge <= 60 |
| MaizeProperties.PhaseIsTheUniqueBand | milho_app.py:131-139 | the four day bands partition the integers: a phase's band holds on a day exactly when it is the phase of that day |
| MaizeProperties.PhaseMonotone | milho_app.py:131-139 | later days never give an earlier phase |
| MaizeProperties.EveryPhaseReachable | milho_app.py:131-139 | each of the four phases occurs on some day in the widget range 0-120 |
| MaizeProperties.PestRiskOverSeason | milho_app.py:141-144 | composed with the phase: high risk/Bad exactly for days 16-45 and temp >= 20, no significant risk/Good otherwise |
| MaizeProperties.EveryPestAlertReachable | milho_app.py:141-144 | both pest alerts occur for some scenario inside the widget ranges |
| MaizeProperties.EveryDecisionReachable | milho_app.py:122-129 | each of the three planting decisions is taken for some scenario inside the widget ranges |
| MaizeProperties.DecisionFollowsScore | milho_app.py:122-158 | the decision is a function of the productivity score: can plant iff score 5, soil limiting iff score 4, do not plant iff score <= 3 |
| MaizeProperties.DecisionAgreesWithGauge | milho_app.py:122-165 | can plant iff the gauge shows 90; soil limiting implies the medium tier (60, Warning); do not plant implies a gauge of at most 60 |
| MaizeProperties.DecisionAgreesWithWater | milho_app.py:122-149 | can plant implies adequate water (Good); soil limiting implies high water need (Bad); rain < 50 implies do not plant |
| MaizeProperties.WaterNeedAntitoneInRain | milho_app.py:146-149 | if more rain still needs irrigation, less rain on the same soil does too |
| MaizeProperties.EveryWaterAlertReachable | milho_app.py:146-149 | both water alerts occur for some scenario inside the widget ranges |
| MaizeProperties.BucketMonotone | milho_app.py:160-165 | a higher score never shows a lower gauge value, and a Bad tier at a higher score means Bad at every lower one |
| MaizeProperties.GaugeMonotoneInRain | milho_app.py:151-165 | more rain at the same temperature and soil never lowers the gauge |
| MaizeProperties.GaugeImage | milho_app.py:151-165 | over the widget ranges, the gauge shows exactly the values 30, 60 and 90: each occurs, and nothing else ever does |
| MaizeProperties.EveryScoreReachable | milho_app.py:151-158 | every score 0..5 is attained inside the widget ranges, so no bucketing branch is dead |
| MaizeProperties.WorkedScenarios | milho_app.py:122-165 | sample cases: the pest threshold at 20 versus 19 degrees; scores 5, 0 and 4 with their tiers; rain-driven and soil-driven water need; the phase changes at days 15/16, 45/46 and 65/66 |

The rules are functions of their arguments and nothing else, so calling one
twice on the same inputs gives the same result. In Dafny this holds by
construction and needs no lemma.

## Left out

- Page setup, CSS, input widgets, the button and the HTML cards (lines 1-22, 105-119, 168-200, 216-224): these are presentation and I/O. The handler's computations are modelled as `Analyse`; rendering them is not.
- The Plotly gauge (lines 202-214): a display library. Only the value it is given is modelled.
- The translation table `TEXTOS` and the module-level language choice `idioma`/`txt` (lines 24-106): presentation strings and global state. Every label is an enum constructor, so the active language plays no part in any rule.
- Colours: the hex strings are the `Severity` enum, following the mapping in the first section.
- Input clamping by `st.number_input`/`st.selectbox` (lines 116-119): the rules are modelled as total over `real`/`int`, and the ranges appear only in `InWidgetRange`.
- Soil values other than the three options: the select box cannot produce them, so `Soil` has exactly three constructors. (In the Python, an unknown string would count as "not franco/argiloso" in the planting and productivity rules but as "not arenoso" in the water rule.)
- Floating point: rainfall and temperature are exact reals. NaN and infinities cannot come from the widgets and are not modelled.

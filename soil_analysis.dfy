// `analyzeSoil` of lib/services/soil-analysis.ts: a pH class from five
// half-open ranges, a low/optimal/high status for four nutrients with
// inclusive optimal ranges, and a health score from the optimal count.
module SoilAnalysis {
  import opened Wrappers
  import opened Numbers
  import opened SoilSample

  datatype Status = Low | Optimal | High

  datatype ElementStatus = ElementStatus(name: string, value: real, status: Status, unit: string)

  datatype Result = Result(
    fieldName: string,
    ph: real,
    phClassification: string,
    elements: seq<ElementStatus>,
    overallHealth: int)

  /** The if-chain on `ph`: the first bound the value is below decides the class. */
  function PhClass(ph: real): string {
    if ph < 5.5 then "Very Acidic"
    else if ph < 6.5 then "Acidic"
    else if ph < 7.5 then "Neutral"
    else if ph < 8.5 then "Alkaline"
    else "Very Alkaline"
  }

  /** The ternary `v < low ? "low" : v > high ? "high" : "optimal"`. */
  function Rate(value: real, low: real, high: real): Status {
    if value < low then Low else if value > high then High else Optimal
  }

  /** The four element records, in the fixed order nitrogen, phosphorus, potassium, organic matter. */
  function Elements(n: real, p: real, k: real, om: real): seq<ElementStatus> {
    [
      ElementStatus("Nitrogen (N)", n, Rate(n, 30.0, 60.0), "mg/kg"),
      ElementStatus("Phosphorus (P)", p, Rate(p, 15.0, 30.0), "mg/kg"),
      ElementStatus("Potassium (K)", k, Rate(k, 150.0, 250.0), "mg/kg"),
      ElementStatus("Organic Matter", om, Rate(om, 2.0, 4.0), "%")
    ]
  }

  /** `elements.filter((e) => e.status === "optimal").length` */
  function OptimalCount(elements: seq<ElementStatus>): (c: nat)
    ensures c <= |elements|
  {
    if elements == [] then 0
    else OptimalCount(elements[..|elements| - 1]) + (if elements[|elements| - 1].status == Optimal then 1 else 0)
  }

  /** `Math.round((optimalCount / elements.length) * 100)` */
  function Health(elements: seq<ElementStatus>): int
    requires |elements| > 0
  {
    Round((OptimalCount(elements) as real / |elements| as real) * 100.0)
  }

  /** `soilData.field_name || "Field"`: a missing or empty name is `"Field"`. */
  function FieldName(soil: Sample): string {
    if soil.fieldName.Some? && soil.fieldName.value != "" then soil.fieldName.value else "Field"
  }

  /** `analyzeSoil(soilData)` */
  function AnalyzeSoil(soil: Sample): Result {
    var ph := OrElse(soil.ph, 6.5);
    var elements := Elements(
      OrElse(soil.nitrogen, 40.0), OrElse(soil.phosphorus, 20.0),
      OrElse(soil.potassium, 180.0), OrElse(soil.organicMatter, 3.0));
    Result(FieldName(soil), ph, PhClass(ph), elements, Health(elements))
  }

  // ---------------------------------------------------------------------------
  // Properties

  /** The five pH classes partition the line into half-open ranges, each value in exactly one. */
  lemma PhClassRanges(ph: real)
    ensures PhClass(ph) == "Very Acidic" <==> ph < 5.5
    ensures PhClass(ph) == "Acidic" <==> 5.5 <= ph < 6.5
    ensures PhClass(ph) == "Neutral" <==> 6.5 <= ph < 7.5
    ensures PhClass(ph) == "Alkaline" <==> 7.5 <= ph < 8.5
    ensures PhClass(ph) == "Very Alkaline" <==> 8.5 <= ph
  {
  }

  /** Low below the range, high above it, optimal on the range with both bounds included. */
  lemma RateRanges(value: real, low: real, high: real)
    requires low <= high
    ensures Rate(value, low, high) == Low <==> value < low
    ensures Rate(value, low, high) == High <==> value > high
    ensures Rate(value, low, high) == Optimal <==> low <= value <= high
  {
  }

  /** Four elements, fixed names and units, each rated on its own range. */
  lemma ElementsShape(soil: Sample)
    ensures var e := AnalyzeSoil(soil).elements;
      && |e| == 4
      && e[0].name == "Nitrogen (N)" && e[1].name == "Phosphorus (P)"
      && e[2].name == "Potassium (K)" && e[3].name == "Organic Matter"
      && e[0].unit == "mg/kg" && e[1].unit == "mg/kg" && e[2].unit == "mg/kg" && e[3].unit == "%"
      && (e[0].status == Optimal <==> 30.0 <= e[0].value <= 60.0)
      && (e[1].status == Optimal <==> 15.0 <= e[1].value <= 30.0)
      && (e[2].status == Optimal <==> 150.0 <= e[2].value <= 250.0)
      && (e[3].status == Optimal <==> 2.0 <= e[3].value <= 4.0)
  {
  }

  /** The health of four elements is 25 per optimal element: one of 0, 25, 50, 75, 100. */
  lemma HealthSteps(elements: seq<ElementStatus>)
    requires |elements| == 4
    ensures Health(elements) == 25 * OptimalCount(elements)
    ensures Health(elements) in {0, 25, 50, 75, 100}
  {
    var c := OptimalCount(elements);
    assert (c as real / 4.0) * 100.0 == (25 * c) as real;
    RoundInt(25 * c);
  }

  /** The health score of any record is a multiple of 25 between 0 and 100. */
  lemma AnalyzeSoilHealth(soil: Sample)
    ensures AnalyzeSoil(soil).overallHealth in {0, 25, 50, 75, 100}
  {
    HealthSteps(AnalyzeSoil(soil).elements);
  }

  /** A missing pH counts as 6.5, which is neutral. */
  lemma MissingPhIsNeutral(soil: Sample)
    requires soil.ph.None? || soil.ph == Some(0.0)
    ensures AnalyzeSoil(soil).ph == 6.5 && AnalyzeSoil(soil).phClassification == "Neutral"
  {
  }

  /** An empty record: every element optimal, health 100, neutral pH, field name `"Field"`. */
  lemma EmptyRecord()
    ensures var r := AnalyzeSoil(Empty);
      && r.fieldName == "Field" && r.ph == 6.5 && r.phClassification == "Neutral"
      && (forall i :: 0 <= i < |r.elements| ==> r.elements[i].status == Optimal)
      && r.overallHealth == 100
  {
    var e := AnalyzeSoil(Empty).elements;
    HealthSteps(e);
    AllOptimalCount(e);
  }

  /** When every element is optimal, all of them are counted. */
  lemma {:induction false} AllOptimalCount(elements: seq<ElementStatus>)
    requires forall i :: 0 <= i < |elements| ==> elements[i].status == Optimal
    ensures OptimalCount(elements) == |elements|
    decreases |elements|
  {
    if elements != [] {
      AllOptimalCount(elements[..|elements| - 1]);
    }
  }
}

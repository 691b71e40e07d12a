// lib/soil-analysis-service.ts: `calculateElementStatus` averages each
// nutrient over the samples (missing or zero readings take the defaults) and
// rates the averages; `analyzeSoil` is the same analysis as the services copy.
module SoilAnalysisService {
  import opened Wrappers
  import opened Numbers
  import opened SoilSample
  import SoilAnalysis

  /** The four nutrients the status map is keyed by. */
  datatype Nutrient = Nitrogen | Phosphorus | Potassium | OrganicMatter

  const Nutrients: seq<Nutrient> := [Nitrogen, Phosphorus, Potassium, OrganicMatter]

  /** The result key of each nutrient. */
  function Key(nu: Nutrient): string {
    match nu
    case Nitrogen => "Nitrogen"
    case Phosphorus => "Phosphorus"
    case Potassium => "Potassium"
    case OrganicMatter => "Organic Matter"
  }

  /** The default a missing or zero reading stands for. */
  function Default(nu: Nutrient): real {
    match nu
    case Nitrogen => 40.0
    case Phosphorus => 20.0
    case Potassium => 180.0
    case OrganicMatter => 3.0
  }

  /** The optimal range `[Low(nu), High(nu)]` passed to `getStatus`. */
  function Low(nu: Nutrient): real {
    match nu
    case Nitrogen => 30.0
    case Phosphorus => 15.0
    case Potassium => 150.0
    case OrganicMatter => 2.0
  }

  function High(nu: Nutrient): real {
    match nu
    case Nitrogen => 60.0
    case Phosphorus => 30.0
    case Potassium => 250.0
    case OrganicMatter => 4.0
  }

  /** `s.nitrogen || 40` and the like: one sample's reading for `nu`. */
  function Reading(s: Sample, nu: Nutrient): real {
    match nu
    case Nitrogen => OrElse(s.nitrogen, Default(nu))
    case Phosphorus => OrElse(s.phosphorus, Default(nu))
    case Potassium => OrElse(s.potassium, Default(nu))
    case OrganicMatter => OrElse(s.organicMatter, Default(nu))
  }

  /** The `reduce` sum of the readings, starting from 0. */
  function Total(soils: seq<Sample>, nu: Nutrient): real {
    if soils == [] then 0.0
    else Total(soils[..|soils| - 1], nu) + Reading(soils[|soils| - 1], nu)
  }

  /** The sum divided by `soils.length`. */
  function Average(soils: seq<Sample>, nu: Nutrient): real
    requires |soils| > 0
  {
    Total(soils, nu) / |soils| as real
  }

  /** `getStatus(value, low, high)` */
  function GetStatus(value: real, low: real, high: real): string {
    if value < low then "Low"
    else if value > high then "High"
    else "Optimal"
  }

  /** `calculateElementStatus(soils)`; `None` is a `null` or `undefined` list. */
  function CalculateElementStatus(soils: Option<seq<Sample>>): map<string, string> {
    if soils.None? || |soils.value| == 0 then
      map["Nitrogen" := "Unknown", "Phosphorus" := "Unknown", "Potassium" := "Unknown", "Organic Matter" := "Unknown"]
    else
      var s := soils.value;
      map[
        "Nitrogen" := GetStatus(Average(s, Nitrogen), 30.0, 60.0),
        "Phosphorus" := GetStatus(Average(s, Phosphorus), 15.0, 30.0),
        "Potassium" := GetStatus(Average(s, Potassium), 150.0, 250.0),
        "Organic Matter" := GetStatus(Average(s, OrganicMatter), 2.0, 4.0)]
  }

  /** The status of one nutrient in the map. */
  function StatusOf(soils: Option<seq<Sample>>, nu: Nutrient): string {
    CalculateElementStatus(soils)[Key(nu)]
  }

  /**
   * `analyzeSoil(soilData)` of this file, written as its source is: the pH
   * class chain, the element records with their inline ternaries, and the
   * rounded health. It is the same analysis as the services copy.
   */
  function AnalyzeSoil(soilData: Sample): SoilAnalysis.Result {
    var ph := OrElse(soilData.ph, 6.5);
    var phClassification :=
      if ph < 5.5 then "Very Acidic"
      else if ph < 6.5 then "Acidic"
      else if ph < 7.5 then "Neutral"
      else if ph < 8.5 then "Alkaline"
      else "Very Alkaline";
    var nitrogen := OrElse(soilData.nitrogen, 40.0);
    var phosphorus := OrElse(soilData.phosphorus, 20.0);
    var potassium := OrElse(soilData.potassium, 180.0);
    var organicMatter := OrElse(soilData.organicMatter, 3.0);
    var elements := [
      SoilAnalysis.ElementStatus("Nitrogen (N)", nitrogen,
        if nitrogen < 30.0 then SoilAnalysis.Low else if nitrogen > 60.0 then SoilAnalysis.High else SoilAnalysis.Optimal, "mg/kg"),
      SoilAnalysis.ElementStatus("Phosphorus (P)", phosphorus,
        if phosphorus < 15.0 then SoilAnalysis.Low else if phosphorus > 30.0 then SoilAnalysis.High else SoilAnalysis.Optimal, "mg/kg"),
      SoilAnalysis.ElementStatus("Potassium (K)", potassium,
        if potassium < 150.0 then SoilAnalysis.Low else if potassium > 250.0 then SoilAnalysis.High else SoilAnalysis.Optimal, "mg/kg"),
      SoilAnalysis.ElementStatus("Organic Matter", organicMatter,
        if organicMatter < 2.0 then SoilAnalysis.Low else if organicMatter > 4.0 then SoilAnalysis.High else SoilAnalysis.Optimal, "%")
    ];
    var optimalCount := SoilAnalysis.OptimalCount(elements);
    SoilAnalysis.Result(
      if soilData.fieldName.Some? && soilData.fieldName.value != "" then soilData.fieldName.value else "Field",
      ph, phClassification, elements, Round((optimalCount as real / 4.0) * 100.0))
  }

  // ---------------------------------------------------------------------------
  // Properties

  /** The two `analyzeSoil` copies compute the same result on every record. */
  lemma SameAnalysis(soilData: Sample)
    ensures AnalyzeSoil(soilData) == SoilAnalysis.AnalyzeSoil(soilData)
  {
    var r, q := AnalyzeSoil(soilData), SoilAnalysis.AnalyzeSoil(soilData);
    assert r.phClassification == q.phClassification;
    assert r.elements == q.elements;
    assert r.overallHealth == q.overallHealth;
  }

  /** Low below `low`, High above `high`, Optimal on the range with both bounds included. */
  lemma GetStatusRanges(value: real, low: real, high: real)
    requires low <= high
    ensures GetStatus(value, low, high) == "Low" <==> value < low
    ensures GetStatus(value, low, high) == "High" <==> value > high
    ensures GetStatus(value, low, high) == "Optimal" <==> low <= value <= high
  {
  }

  /** `getStatus` is the services copy's rating, capitalised. */
  lemma GetStatusIsRate(value: real, low: real, high: real)
    ensures GetStatus(value, low, high) == match SoilAnalysis.Rate(value, low, high)
      case Low => "Low"
      case Optimal => "Optimal"
      case High => "High"
  {
  }

  /** The map always has exactly the four nutrient keys; with no samples every one is "Unknown". */
  lemma ResultKeys(soils: Option<seq<Sample>>)
    ensures CalculateElementStatus(soils).Keys == {"Nitrogen", "Phosphorus", "Potassium", "Organic Matter"}
    ensures soils.None? || soils.value == [] <==>
      forall nu: Nutrient :: StatusOf(soils, nu) == "Unknown"
  {
    if soils.Some? && soils.value != [] {
      var s := soils.value;
      var v := Average(s, Nitrogen);
      assert StatusOf(soils, Nitrogen) == GetStatus(v, 30.0, 60.0);
    }
  }

  /** With samples, each key holds the status of its nutrient's average on its own range. */
  lemma StatusRule(soils: seq<Sample>, nu: Nutrient)
    requires |soils| > 0
    ensures StatusOf(Some(soils), nu) == GetStatus(Average(soils, nu), Low(nu), High(nu))
  {
  }

  /** If every sample's reading of `nu` lies in `[lo, hi]`, so does the sum divided by the count's bounds. */
  lemma {:induction false} TotalBounds(soils: seq<Sample>, nu: Nutrient, lo: real, hi: real)
    requires forall i :: 0 <= i < |soils| ==> lo <= Reading(soils[i], nu) <= hi
    ensures lo * |soils| as real <= Total(soils, nu) <= hi * |soils| as real
    decreases |soils|
  {
    if soils != [] {
      var init := soils[..|soils| - 1];
      forall i | 0 <= i < |init| ensures lo <= Reading(init[i], nu) <= hi {
        assert init[i] == soils[i];
      }
      TotalBounds(init, nu, lo, hi);
      assert lo <= Reading(soils[|soils| - 1], nu) <= hi;
      SumStep(Total(init, nu), Reading(soils[|soils| - 1], nu), |init| as real, lo, hi);
    }
  }

  /** One more summand within `[lo, hi]` keeps a sum of `m` such summands within bounds. */
  lemma SumStep(t: real, x: real, m: real, lo: real, hi: real)
    requires lo * m <= t <= hi * m && lo <= x <= hi
    ensures lo * (m + 1.0) <= t + x <= hi * (m + 1.0)
  {
    assert lo * (m + 1.0) == lo * m + lo;
    assert hi * (m + 1.0) == hi * m + hi;
  }

  /** The average of readings within `[lo, hi]` is within `[lo, hi]`. */
  lemma AverageBounds(soils: seq<Sample>, nu: Nutrient, lo: real, hi: real)
    requires |soils| > 0
    requires forall i :: 0 <= i < |soils| ==> lo <= Reading(soils[i], nu) <= hi
    ensures lo <= Average(soils, nu) <= hi
  {
    TotalBounds(soils, nu, lo, hi);
    var n := |soils| as real;
    var t := Total(soils, nu);
    assert t / n * n == t;
  }

  /** When every sample's reading is optimal, the nutrient is "Optimal". */
  lemma AllOptimalSamples(soils: seq<Sample>, nu: Nutrient)
    requires |soils| > 0
    requires forall i :: 0 <= i < |soils| ==> Low(nu) <= Reading(soils[i], nu) <= High(nu)
    ensures StatusOf(Some(soils), nu) == "Optimal"
  {
    AverageBounds(soils, nu, Low(nu), High(nu));
  }

  /** Samples that all lack a nutrient (or hold 0) average to its default, which is optimal. */
  lemma MissingAveragesToDefault(soils: seq<Sample>, nu: Nutrient)
    requires |soils| > 0
    requires forall i :: 0 <= i < |soils| ==> Reading(soils[i], nu) == Default(nu)
    ensures Average(soils, nu) == Default(nu)
    ensures StatusOf(Some(soils), nu) == "Optimal"
  {
    AverageBounds(soils, nu, Default(nu), Default(nu));
  }

  /** For one sample the map agrees with that sample's `analyzeSoil` element statuses. */
  lemma OneSampleAgrees(s: Sample)
    ensures forall i :: 0 <= i < 4 ==>
      StatusOf(Some([s]), Nutrients[i]) == match AnalyzeSoil(s).elements[i].status
        case Low => "Low"
        case Optimal => "Optimal"
        case High => "High"
  {
    forall nu: Nutrient ensures Average([s], nu) == Reading(s, nu) {
      assert [s][..0] == [];
      assert Total([s], nu) == Total([], nu) + Reading(s, nu);
    }
  }
}

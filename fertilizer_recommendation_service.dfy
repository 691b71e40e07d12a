// lib/fertilizer-recommendation-service.ts: `getRecommendations` walks every
// analysis and pushes its deficiency fertilizers (no balanced entry), with a
// maintenance fallback for no analyses or no deficiency; `calculateAmounts`
// does the same for one record, without any fallback, and adds the totals and
// the cost.
module FertilizerRecommendationService {
  import opened Wrappers
  import opened Numbers
  import opened SoilSample
  import opened FertilizerRecommendation

  const NoAnalyses := Recommendation("Maintenance", "Standard NPK 10-10-10", false, 100,
    "Maintenance nutrition", "No analyses available")
  const GoodCondition := Recommendation("Maintenance", "Standard NPK 10-10-10", false, 100,
    "Maintenance nutrition", "Soil is in good condition")

  /** What the `forEach` body pushes for one analysis: the same fertilizers and texts as `recommendFertilizers`, no balanced one. */
  function Deficiencies(analysis: Sample): (r: seq<Recommendation>)
    ensures |r| <= 3
  {
    var (n, p, k) := Levels(analysis);
    (if n < NitrogenThreshold then [Urea] else [])
    + (if p < PhosphorusThreshold then [Superphosphate] else [])
    + (if k < PotassiumThreshold then [PotassiumChloride] else [])
  }

  /** The pushes for `analyses`, in analysis order. */
  function AllDeficiencies(analyses: seq<Sample>): seq<Recommendation> {
    if analyses == [] then []
    else AllDeficiencies(analyses[..|analyses| - 1]) + Deficiencies(analyses[|analyses| - 1])
  }

  /** `getRecommendations(analyses)`; `None` is a `null` or `undefined` list. */
  function GetRecommendations(analyses: Option<seq<Sample>>): seq<Recommendation> {
    if analyses.None? || |analyses.value| == 0 then [NoAnalyses]
    else
      var recs := AllDeficiencies(analyses.value);
      if |recs| > 0 then recs else [GoodCondition]
  }

  /** `getRecommendations` as written: the fallback check, the `forEach` pushes, the final fallback. */
  method GetRecommendationsLoop(analyses: Option<seq<Sample>>) returns (r: seq<Recommendation>)
    ensures r == GetRecommendations(analyses)
  {
    if analyses.None? || |analyses.value| == 0 {
      return [NoAnalyses];
    }
    var list := analyses.value;
    var recommendations: seq<Recommendation> := [];
    var i := 0;
    while i < |list|
      invariant 0 <= i <= |list|
      invariant recommendations == AllDeficiencies(list[..i])
    {
      var n := OrElse(list[i].nitrogen, 40.0);
      var p := OrElse(list[i].phosphorus, 20.0);
      var k := OrElse(list[i].potassium, 180.0);
      ghost var before := recommendations;
      if n < NitrogenThreshold {
        recommendations := recommendations + [Urea];
      }
      if p < PhosphorusThreshold {
        recommendations := recommendations + [Superphosphate];
      }
      if k < PotassiumThreshold {
        recommendations := recommendations + [PotassiumChloride];
      }
      assert recommendations == before + Deficiencies(list[i]);
      assert list[..i + 1][..i] == list[..i];
      i := i + 1;
    }
    assert list[..|list|] == list;
    r := if |recommendations| > 0 then recommendations else [GoodCondition];
  }

  /** `calculateAmounts`' fertilizers: same thresholds, shorter texts. */
  const UreaShort := Recommendation("Nitrogen", "Urea (46-0-0)", true, 100, "Increases yield", "Low nitrogen")
  const SuperphosphateShort := Recommendation("Phosphorus", "Superphosphate (0-18-0)", true, 80, "Root development", "Low phosphorus")
  const PotassiumChlorideShort := Recommendation("Potassium", "Potassium Chloride (0-0-60)", true, 60, "Disease resistance", "Low potassium")

  /** `calculateAmounts(soilData, fieldAreaHa)`: the deficiency pushes, the totals and the cost, with no fallback. */
  function CalculateAmounts(soil: Sample, fieldAreaHa: Option<real>): Result {
    var (n, p, k) := Levels(soil);
    var recs :=
      (if n < NitrogenThreshold then [UreaShort] else [])
      + (if p < PhosphorusThreshold then [SuperphosphateShort] else [])
      + (if k < PotassiumThreshold then [PotassiumChlorideShort] else []);
    var area := if fieldAreaHa.None? then 10.0 else fieldAreaHa.value;
    var totalN := IntOr(KindTotal(recs, "Nitrogen"), 80);
    var totalP := IntOr(KindTotal(recs, "Phosphorus"), 50);
    var totalK := IntOr(KindTotal(recs, "Potassium"), 40);
    Result(recs, totalN, totalP, totalK, Cost(totalN, totalP, totalK, area))
  }

  // ---------------------------------------------------------------------------
  // Properties

  /** Each analysis adds at most three entries, so the list is at most three per analysis. */
  lemma {:induction false} AllDeficienciesBound(analyses: seq<Sample>)
    ensures |AllDeficiencies(analyses)| <= 3 * |analyses|
    decreases |analyses|
  {
    if analyses != [] {
      AllDeficienciesBound(analyses[..|analyses| - 1]);
    }
  }

  /** Every pushed entry is a recommended deficiency fertilizer. */
  lemma {:induction false} AllDeficienciesRecommended(analyses: seq<Sample>)
    ensures forall i :: 0 <= i < |AllDeficiencies(analyses)| ==>
      AllDeficiencies(analyses)[i] in {Urea, Superphosphate, PotassiumChloride}
    decreases |analyses|
  {
    if analyses != [] {
      var init := analyses[..|analyses| - 1];
      AllDeficienciesRecommended(init);
      var a, b := AllDeficiencies(init), Deficiencies(analyses[|analyses| - 1]);
      forall i | 0 <= i < |a + b| ensures (a + b)[i] in {Urea, Superphosphate, PotassiumChloride} {
        if i >= |a| {
          assert (a + b)[i] == b[i - |a|];
        }
      }
    }
  }

  /** No deficiency anywhere exactly when every analysis is at or above every threshold. */
  lemma {:induction false} NoDeficiencyIff(analyses: seq<Sample>)
    ensures AllDeficiencies(analyses) == [] <==>
      forall i :: 0 <= i < |analyses| ==>
        Levels(analyses[i]).0 >= 35.0 && Levels(analyses[i]).1 >= 20.0 && Levels(analyses[i]).2 >= 180.0
    decreases |analyses|
  {
    if analyses != [] {
      var init := analyses[..|analyses| - 1];
      NoDeficiencyIff(init);
      forall i | 0 <= i < |init| ensures init[i] == analyses[i] {
      }
    }
  }

  /**
   * The result: the "No analyses available" entry for no analyses, the
   * "Soil is in good condition" entry when nothing is deficient, otherwise
   * only recommended deficiency entries, at most three per analysis.
   */
  lemma GetRecommendationsShape(analyses: Option<seq<Sample>>)
    ensures analyses.None? || analyses.value == [] ==> GetRecommendations(analyses) == [NoAnalyses]
    ensures analyses.Some? && analyses.value != [] && AllDeficiencies(analyses.value) == [] ==>
      GetRecommendations(analyses) == [GoodCondition]
    ensures analyses.Some? && AllDeficiencies(analyses.value) != [] ==>
      && |GetRecommendations(analyses)| <= 3 * |analyses.value|
      && forall i :: 0 <= i < |GetRecommendations(analyses)| ==> GetRecommendations(analyses)[i].recommended
  {
    if analyses.Some? {
      AllDeficienciesBound(analyses.value);
      AllDeficienciesRecommended(analyses.value);
    }
  }

  /** `calculateAmounts` returns no entry at all for soil with no deficiency, and its totals are 100/80, 80/50, 60/40. */
  lemma CalculateAmountsRules(soil: Sample, fieldAreaHa: Option<real>)
    ensures var r := CalculateAmounts(soil, fieldAreaHa);
      var (n, p, k) := Levels(soil);
      && (r.recommendations == [] <==> n >= 35.0 && p >= 20.0 && k >= 180.0)
      && r.totalNitrogenKgHa == (if n < 35.0 then 100 else 80)
      && r.totalPhosphorusKgHa == (if p < 20.0 then 80 else 50)
      && r.totalPotassiumKgHa == (if k < 180.0 then 60 else 40)
      && r.estimatedCost == Cost(r.totalNitrogenKgHa, r.totalPhosphorusKgHa, r.totalPotassiumKgHa,
           if fieldAreaHa.None? then 10.0 else fieldAreaHa.value)
  {
    var (n, p, k) := Levels(soil);
    var recs := CalculateAmounts(soil, fieldAreaHa).recommendations;
    ShortTotals(recs, n, p, k);
  }

  lemma ShortTotals(recs: seq<Recommendation>, n: real, p: real, k: real)
    requires recs ==
      (if n < NitrogenThreshold then [UreaShort] else [])
      + (if p < PhosphorusThreshold then [SuperphosphateShort] else [])
      + (if k < PotassiumThreshold then [PotassiumChlorideShort] else [])
    ensures KindTotal(recs, "Nitrogen") == (if n < 35.0 then 100 else 0)
    ensures KindTotal(recs, "Phosphorus") == (if p < 20.0 then 80 else 0)
    ensures KindTotal(recs, "Potassium") == (if k < 180.0 then 60 else 0)
  {
    var a := if n < NitrogenThreshold then [UreaShort] else [];
    var b := if p < PhosphorusThreshold then [SuperphosphateShort] else [];
    var c := if k < PotassiumThreshold then [PotassiumChlorideShort] else [];
    ThreeParts(a, b, c, "Nitrogen");
    ThreeParts(a, b, c, "Phosphorus");
    ThreeParts(a, b, c, "Potassium");
  }

  /** The total of a kind over three concatenated lists is the sum of their totals. */
  lemma ThreeParts(a: seq<Recommendation>, b: seq<Recommendation>, c: seq<Recommendation>, kind: string)
    ensures KindTotal(a + b + c, kind) == KindTotal(a, kind) + KindTotal(b, kind) + KindTotal(c, kind)
  {
    KindTotalAppend(a + b, c, kind);
    KindTotalAppend(a, b, kind);
  }

  /** `getRecommendations` and `recommendFertilizers` agree on one deficient record, except that only the latter can add the balanced entry. */
  lemma AgreesWithRecommendFertilizers(analysis: Sample)
    requires AllDeficiencies([analysis]) != []
    ensures GetRecommendations(Some([analysis])) == RecommendFertilizers(analysis, None).recommendations
  {
    assert [analysis][..0] == [];
  }
}

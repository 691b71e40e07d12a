// `recommendFertilizers` of lib/services/fertilizer-recommendation.ts: one
// fertilizer per deficient nutrient (nitrogen, phosphorus, potassium, in that
// order), a balanced NPK when none is deficient, per-nutrient totals with
// defaults, and a rounded cost estimate for the field area.
module FertilizerRecommendation {
  import opened Wrappers
  import opened Numbers
  import opened SoilSample

  /** One recommended fertilizer; `kind` is the source's `type` field. */
  datatype Recommendation = Recommendation(
    kind: string,
    name: string,
    recommended: bool,
    amountKgHa: int,
    benefit: string,
    reason: string)

  datatype Result = Result(
    recommendations: seq<Recommendation>,
    totalNitrogenKgHa: int,
    totalPhosphorusKgHa: int,
    totalPotassiumKgHa: int,
    estimatedCost: int)

  const Urea := Recommendation("Nitrogen", "Urea (46-0-0)", true, 100,
    "Increases yield and protein content", "Low nitrogen levels detected")
  const Superphosphate := Recommendation("Phosphorus", "Superphosphate (0-18-0)", true, 80,
    "Improves root development", "Low phosphorus levels detected")
  const PotassiumChloride := Recommendation("Potassium", "Potassium Chloride (0-0-60)", true, 60,
    "Enhances disease resistance", "Suboptimal potassium levels")
  const Balanced := Recommendation("Balanced", "NPK 15-15-15", true, 200,
    "Maintains optimal nutrient balance", "Well-balanced soil profile")
  const Maintenance := Recommendation("Maintenance", "Standard NPK 10-10-10", false, 100,
    "Maintenance nutrition", "Soil is in good condition")

  /** Nutrient levels below these are deficient. */
  const NitrogenThreshold := 35.0
  const PhosphorusThreshold := 20.0
  const PotassiumThreshold := 180.0

  /** `soilData.nitrogen || 40` and the like: missing or zero levels take the defaults. */
  function Levels(soil: Sample): (real, real, real) {
    (OrElse(soil.nitrogen, 40.0), OrElse(soil.phosphorus, 20.0), OrElse(soil.potassium, 180.0))
  }

  /** The recommendations pushed for levels `n`, `p`, `k`, in push order. */
  function Recommendations(n: real, p: real, k: real): seq<Recommendation> {
    (if n < NitrogenThreshold then [Urea] else [])
    + (if p < PhosphorusThreshold then [Superphosphate] else [])
    + (if k < PotassiumThreshold then [PotassiumChloride] else [])
    + (if n >= NitrogenThreshold && p >= PhosphorusThreshold && k >= PotassiumThreshold then [Balanced] else [])
  }

  /** The sum of the amounts of the recommendations of kind `kind`: the `filter` and `reduce`. */
  function KindTotal(recs: seq<Recommendation>, kind: string): int {
    if recs == [] then 0
    else KindTotal(recs[..|recs| - 1], kind) + (if recs[|recs| - 1].kind == kind then recs[|recs| - 1].amountKgHa else 0)
  }

  /** `(totalN * 40 + totalP * 45 + totalK * 35) * fieldAreaHa`, rounded. */
  function Cost(totalN: int, totalP: int, totalK: int, area: real): int {
    Round((totalN * 40 + totalP * 45 + totalK * 35) as real * area)
  }

  /** The result `recommendFertilizers` builds from the recommendation list. */
  function Summarize(recs: seq<Recommendation>, area: real): Result {
    var totalN := IntOr(KindTotal(recs, "Nitrogen"), 80);
    var totalP := IntOr(KindTotal(recs, "Phosphorus"), 50);
    var totalK := IntOr(KindTotal(recs, "Potassium"), 40);
    Result(if |recs| > 0 then recs else [Maintenance], totalN, totalP, totalK, Cost(totalN, totalP, totalK, area))
  }

  /** `recommendFertilizers(soilData, fieldAreaHa)`; an absent area is the default 10 ha. */
  function RecommendFertilizers(soil: Sample, fieldAreaHa: Option<real>): Result {
    var (n, p, k) := Levels(soil);
    Summarize(Recommendations(n, p, k), if fieldAreaHa.None? then 10.0 else fieldAreaHa.value)
  }

  /** The conditional pushes as written. */
  method PushRecommendations(n: real, p: real, k: real) returns (recs: seq<Recommendation>)
    ensures recs == Recommendations(n, p, k)
  {
    recs := [];
    if n < NitrogenThreshold {
      recs := recs + [Urea];
    }
    if p < PhosphorusThreshold {
      recs := recs + [Superphosphate];
    }
    if k < PotassiumThreshold {
      recs := recs + [PotassiumChloride];
    }
    if n >= NitrogenThreshold && p >= PhosphorusThreshold && k >= PotassiumThreshold {
      recs := recs + [Balanced];
    }
  }

  /** `recommendFertilizers` as written: defaults, pushes, totals, cost. */
  method Recommend(soil: Sample, fieldAreaHa: Option<real>) returns (r: Result)
    ensures r == RecommendFertilizers(soil, fieldAreaHa)
  {
    var area := if fieldAreaHa.None? then 10.0 else fieldAreaHa.value;
    var nitrogen := OrElse(soil.nitrogen, 40.0);
    var phosphorus := OrElse(soil.phosphorus, 20.0);
    var potassium := OrElse(soil.potassium, 180.0);
    var recs := PushRecommendations(nitrogen, phosphorus, potassium);
    r := Summarize(recs, area);
  }

  // ---------------------------------------------------------------------------
  // Properties

  /** Each deficiency fertilizer is recommended exactly when its nutrient is below its threshold. */
  lemma DeficiencyRules(n: real, p: real, k: real)
    ensures Urea in Recommendations(n, p, k) <==> n < 35.0
    ensures Superphosphate in Recommendations(n, p, k) <==> p < 20.0
    ensures PotassiumChloride in Recommendations(n, p, k) <==> k < 180.0
    ensures Balanced in Recommendations(n, p, k) <==> n >= 35.0 && p >= 20.0 && k >= 180.0
  {
    var recs := Recommendations(n, p, k);
    KindsOf(n, p, k);
    if Urea in recs {
      var i :| 0 <= i < |recs| && recs[i] == Urea;
    }
    if Superphosphate in recs {
      var i :| 0 <= i < |recs| && recs[i] == Superphosphate;
    }
    if PotassiumChloride in recs {
      var i :| 0 <= i < |recs| && recs[i] == PotassiumChloride;
    }
    if Balanced in recs {
      var i :| 0 <= i < |recs| && recs[i] == Balanced;
    }
  }

  /** The list holds only these four fertilizers, at most three of them, no kind twice, and never nothing. */
  lemma KindsOf(n: real, p: real, k: real)
    ensures var recs := Recommendations(n, p, k);
      && 1 <= |recs| <= 3
      && (forall i :: 0 <= i < |recs| ==> recs[i] in {Urea, Superphosphate, PotassiumChloride, Balanced})
      && (forall i, j :: 0 <= i < j < |recs| ==> recs[i].kind != recs[j].kind)
      && (forall i :: 0 <= i < |recs| ==> recs[i].recommended)
  {
  }

  /** The list is never empty, so the maintenance fallback is never returned. */
  lemma NoMaintenance(soil: Sample, fieldAreaHa: Option<real>)
    ensures Maintenance !in RecommendFertilizers(soil, fieldAreaHa).recommendations
    ensures RecommendFertilizers(soil, fieldAreaHa).recommendations == Recommendations(Levels(soil).0, Levels(soil).1, Levels(soil).2)
  {
    var (n, p, k) := Levels(soil);
    KindsOf(n, p, k);
  }

  /** The amount of kind `kind` in a list where no kind repeats is that entry's amount, or 0. */
  lemma {:induction false} KindTotalSingle(recs: seq<Recommendation>, kind: string, a: int)
    requires forall i :: 0 <= i < |recs| ==> recs[i].kind == kind ==> recs[i].amountKgHa == a
    requires forall i, j :: 0 <= i < j < |recs| ==> recs[i].kind != recs[j].kind
    ensures KindTotal(recs, kind) == if exists i :: 0 <= i < |recs| && recs[i].kind == kind then a else 0
    decreases |recs|
  {
    if recs != [] {
      var init := recs[..|recs| - 1];
      KindTotalSingle(init, kind, a);
      if exists i :: 0 <= i < |init| && init[i].kind == kind {
        var i :| 0 <= i < |init| && init[i].kind == kind;
        assert recs[i] == init[i];
      }
      if exists i :: 0 <= i < |recs| && recs[i].kind == kind {
        var i :| 0 <= i < |recs| && recs[i].kind == kind;
        if i < |init| {
          assert init[i] == recs[i];
        }
      }
    }
  }

  /** The total of a kind over two lists is the sum of their totals. */
  lemma {:induction false} KindTotalAppend(a: seq<Recommendation>, b: seq<Recommendation>, kind: string)
    ensures KindTotal(a + b, kind) == KindTotal(a, kind) + KindTotal(b, kind)
    decreases |b|
  {
    if b == [] {
      assert a + b == a;
    } else {
      var init := b[..|b| - 1];
      KindTotalAppend(a, init, kind);
      assert (a + b)[..|a + b| - 1] == a + init;
      assert (a + b)[|a + b| - 1] == b[|b| - 1];
    }
  }

  /** Totals: 100 kg/ha of nitrogen with urea, else 80; phosphorus 80 or 50; potassium 60 or 40. */
  lemma Totals(soil: Sample, fieldAreaHa: Option<real>)
    ensures var r := RecommendFertilizers(soil, fieldAreaHa);
      var (n, p, k) := Levels(soil);
      && r.totalNitrogenKgHa == (if n < 35.0 then 100 else 80)
      && r.totalPhosphorusKgHa == (if p < 20.0 then 80 else 50)
      && r.totalPotassiumKgHa == (if k < 180.0 then 60 else 40)
  {
    var (n, p, k) := Levels(soil);
    var recs := Recommendations(n, p, k);
    KindsOf(n, p, k);
    KindTotalSingle(recs, "Nitrogen", 100);
    KindTotalSingle(recs, "Phosphorus", 80);
    KindTotalSingle(recs, "Potassium", 60);
    KindPresence(n, p, k);
  }

  /** A nutrient's kind appears in the list exactly when the nutrient is deficient. */
  lemma KindPresence(n: real, p: real, k: real)
    ensures var recs := Recommendations(n, p, k);
      && ((exists i :: 0 <= i < |recs| && recs[i].kind == "Nitrogen") <==> n < 35.0)
      && ((exists i :: 0 <= i < |recs| && recs[i].kind == "Phosphorus") <==> p < 20.0)
      && ((exists i :: 0 <= i < |recs| && recs[i].kind == "Potassium") <==> k < 180.0)
  {
    var recs := Recommendations(n, p, k);
    DeficiencyRules(n, p, k);
    KindsOf(n, p, k);
    if n < 35.0 {
      assert recs[0] == Urea;
    }
    if p < 20.0 {
      assert recs[if n < 35.0 then 1 else 0] == Superphosphate;
    }
    if k < 180.0 {
      assert recs[|recs| - 1] == PotassiumChloride;
    }
  }

  /** Balanced soil on the default 10 ha costs `(80·40 + 50·45 + 40·35)·10 = 68500`. */
  lemma BalancedCost(soil: Sample)
    requires Levels(soil).0 >= 35.0 && Levels(soil).1 >= 20.0 && Levels(soil).2 >= 180.0
    ensures RecommendFertilizers(soil, None).recommendations == [Balanced]
    ensures RecommendFertilizers(soil, None).estimatedCost == 68500
  {
    Totals(soil, None);
    RoundInt(685000 / 10);
    assert (80 * 40 + 50 * 45 + 40 * 35) as real * 10.0 == 68500 as real;
  }

  /** An empty soil record takes the defaults 40/20/180 and gets the balanced fertilizer. */
  lemma EmptySoilIsBalanced()
    ensures Levels(Empty) == (40.0, 20.0, 180.0)
    ensures RecommendFertilizers(Empty, None).recommendations == [Balanced]
    ensures RecommendFertilizers(Empty, None).estimatedCost == 68500
  {
    BalancedCost(Empty);
  }
}

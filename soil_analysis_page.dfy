// The logic of components/pages/soil-analysis-page.tsx: the pH badge, the
// element-code map and the element list built for an automatic analysis, the
// form's number parsing, and the pH and humus averages of the summary cards.
module SoilAnalysisPage {
  import opened Wrappers
  import opened Numbers
  import opened Text

  // ---------------------------------------------------------------------------
  // pH badge

  datatype Variant = Default | Destructive | Secondary | Outline

  datatype Badge = Badge(text: string, variant: Variant)

  /** `getPhRecommendation(ph)`; `None` is `null`. */
  function PhRecommendation(ph: Option<real>): Badge {
    if ph.None? then Badge("Ma'lumot yo'q", Outline)
    else if ph.value < 5.5 then Badge("Juda kislotali - ohak kerak", Destructive)
    else if ph.value > 7.5 then Badge("Ishqoriy - organik modda kerak", Secondary)
    else Badge("Maqbul", Default)
  }

  // ---------------------------------------------------------------------------
  // Element-code map

  /** An entry of the elements list; a `None` or empty code and a `None` or 0 id are falsy. */
  datatype ElementInfo = ElementInfo(code: Option<string>, id: Option<int>)

  predicate Usable(el: ElementInfo) {
    el.code.Some? && el.code.value != "" && el.id.Some? && el.id.value != 0
  }

  /** The key an usable entry is stored under: its upper-cased code. */
  function KeyOf(el: ElementInfo): string
    requires el.code.Some?
  {
    Upper(el.code.value)
  }

  /** `elementMap` after the `forEach` over `elementsData`: later entries overwrite earlier ones. */
  function ElementMap(elementsData: seq<ElementInfo>): map<string, int> {
    if elementsData == [] then map[]
    else
      var m := ElementMap(elementsData[..|elementsData| - 1]);
      var el := elementsData[|elementsData| - 1];
      if Usable(el) then m[KeyOf(el) := el.id.value] else m
  }

  /** The `forEach` as written. */
  method BuildElementMap(elementsData: seq<ElementInfo>) returns (elementMap: map<string, int>)
    ensures elementMap == ElementMap(elementsData)
  {
    elementMap := map[];
    var i := 0;
    while i < |elementsData|
      invariant 0 <= i <= |elementsData|
      invariant elementMap == ElementMap(elementsData[..i])
    {
      var el := elementsData[i];
      if el.code.Some? && el.code.value != "" && el.id.Some? && el.id.value != 0 {
        elementMap := elementMap[Upper(el.code.value) := el.id.value];
      }
      assert elementsData[..i + 1][..i] == elementsData[..i];
      i := i + 1;
    }
    assert elementsData[..|elementsData|] == elementsData;
  }

  // ---------------------------------------------------------------------------
  // Element list

  /** The soil record the page reads: every measurement may be `null`. */
  datatype Soil = Soil(
    id: int,
    humus: Option<real>,
    nitrogen: Option<real>, phosphorus: Option<real>, potassium: Option<real>,
    magnesium: Option<real>, calcium: Option<real>, sulfur: Option<real>, sodium: Option<real>,
    boron: Option<real>, copper: Option<real>, iron: Option<real>, molybdenum: Option<real>,
    manganese: Option<real>, cobalt: Option<real>, zinc: Option<real>, chromium: Option<real>,
    ph: Option<real>,
    lead: Option<real>, mercury: Option<real>, cadmium: Option<real>, silver: Option<real>)

  /** One `{ element_id, value }` entry of the analysis request. */
  datatype Element = Element(elementId: int, value: real)

  /** The number of element codes the page pushes. */
  const CodeCount := 15

  /** The `i`-th element code, in the order the pushes are written: seven macro, then eight micro elements. */
  function CodeAt(i: nat): string
    requires i < CodeCount
  {
    if i < 7 then
      match i
      case 0 => "N" case 1 => "P" case 2 => "K" case 3 => "MG" case 4 => "CA" case 5 => "S" case _ => "NA"
    else
      match i - 7
      case 0 => "B" case 1 => "CU" case 2 => "FE" case 3 => "MO" case 4 => "MN" case 5 => "CO" case 6 => "ZN"
      case _ => "CR"
  }

  /** The soil measurement the `i`-th push reads. */
  function ValueAt(soil: Soil, i: nat): Option<real>
    requires i < CodeCount
  {
    if i < 7 then
      match i
      case 0 => soil.nitrogen case 1 => soil.phosphorus case 2 => soil.potassium case 3 => soil.magnesium
      case 4 => soil.calcium case 5 => soil.sulfur case _ => soil.sodium
    else
      match i - 7
      case 0 => soil.boron case 1 => soil.copper case 2 => soil.iron case 3 => soil.molybdenum
      case 4 => soil.manganese case 5 => soil.cobalt case 6 => soil.zinc
      case _ => soil.chromium
  }

  /** `elementMap[code]` is truthy: present and not 0. */
  predicate Mapped(elementMap: map<string, int>, code: string) {
    code in elementMap && elementMap[code] != 0
  }

  /** What one guarded `push` adds: the entry when the value is not `null` and the code is mapped. */
  function Slot(value: Option<real>, code: string, elementMap: map<string, int>): seq<Element> {
    if value.Some? && Mapped(elementMap, code) then [Element(elementMap[code], value.value)] else []
  }

  /** The entries pushed by the first `k` guarded pushes, in order. */
  function Pushed(soil: Soil, elementMap: map<string, int>, k: nat): seq<Element>
    requires k <= CodeCount
  {
    if k == 0 then []
    else Pushed(soil, elementMap, k - 1) + Slot(ValueAt(soil, k - 1), CodeAt(k - 1), elementMap)
  }

  /** The `elements` array `createAnalysisFromSoil` builds. */
  function Elements(soil: Soil, elementMap: map<string, int>): seq<Element> {
    Pushed(soil, elementMap, CodeCount)
  }

  /** One guarded push: `if (value !== null && elementMap[code]) elements.push({ element_id, value })`, the `k`-th of them. */
  method PushIfPresent(elements: seq<Element>, value: Option<real>, code: string, elementMap: map<string, int>,
                       ghost soil: Soil, ghost k: nat)
    returns (out: seq<Element>)
    requires k < CodeCount && value == ValueAt(soil, k) && code == CodeAt(k)
    requires elements == Pushed(soil, elementMap, k)
    ensures out == Pushed(soil, elementMap, k + 1)
  {
    out := elements;
    if value.Some? && Mapped(elementMap, code) {
      out := out + [Element(elementMap[code], value.value)];
    }
  }

  /** The macro-element pushes as written (nitrogen to sodium). */
  method PushMacro(soil: Soil, elementMap: map<string, int>) returns (elements: seq<Element>)
    ensures elements == Pushed(soil, elementMap, 7)
  {
    elements := [];
    elements := PushIfPresent(elements, soil.nitrogen, "N", elementMap, soil, 0);
    elements := PushIfPresent(elements, soil.phosphorus, "P", elementMap, soil, 1);
    elements := PushIfPresent(elements, soil.potassium, "K", elementMap, soil, 2);
    elements := PushIfPresent(elements, soil.magnesium, "MG", elementMap, soil, 3);
    elements := PushIfPresent(elements, soil.calcium, "CA", elementMap, soil, 4);
    elements := PushIfPresent(elements, soil.sulfur, "S", elementMap, soil, 5);
    elements := PushIfPresent(elements, soil.sodium, "NA", elementMap, soil, 6);
  }

  /** The micro-element pushes as written (boron to chromium), after the macro ones. */
  method PushMicro(soil: Soil, elementMap: map<string, int>, macro: seq<Element>) returns (elements: seq<Element>)
    requires macro == Pushed(soil, elementMap, 7)
    ensures elements == Pushed(soil, elementMap, 15)
  {
    elements := macro;
    elements := PushIfPresent(elements, soil.boron, "B", elementMap, soil, 7);
    elements := PushIfPresent(elements, soil.copper, "CU", elementMap, soil, 8);
    elements := PushIfPresent(elements, soil.iron, "FE", elementMap, soil, 9);
    elements := PushIfPresent(elements, soil.molybdenum, "MO", elementMap, soil, 10);
    elements := PushIfPresent(elements, soil.manganese, "MN", elementMap, soil, 11);
    elements := PushIfPresent(elements, soil.cobalt, "CO", elementMap, soil, 12);
    elements := PushIfPresent(elements, soil.zinc, "ZN", elementMap, soil, 13);
    elements := PushIfPresent(elements, soil.chromium, "CR", elementMap, soil, 14);
  }

  /** What `createAnalysisFromSoil` does before asking for a report: stop on an empty list, or go on with it. */
  datatype Step = NoElements | RequestReport(elements: seq<Element>)

  method CreateAnalysisElements(soil: Soil, elementsData: seq<ElementInfo>) returns (r: Step)
    ensures r == (if Elements(soil, ElementMap(elementsData)) == [] then NoElements
                  else RequestReport(Elements(soil, ElementMap(elementsData))))
  {
    var elementMap := BuildElementMap(elementsData);
    var macro := PushMacro(soil, elementMap);
    var elements := PushMicro(soil, elementMap, macro);
    if |elements| == 0 {
      return NoElements;
    }
    r := RequestReport(elements);
  }

  // ---------------------------------------------------------------------------
  // Form parsing and summary averages

  /** `parseNumber(value)`; `parseFloat` gives `None` where it would give `NaN`. */
  function ParseNumber(value: string, parseFloat: string -> Option<real>): Option<real> {
    if value == "" || Trim(value) == "" then None else parseFloat(value)
  }

  /** The `reduce` sum of `s.ph || 0`. */
  function SumPh(soils: seq<Soil>): real {
    if soils == [] then 0.0 else SumPh(soils[..|soils| - 1]) + OrElse(soils[|soils| - 1].ph, 0.0)
  }

  function SumHumus(soils: seq<Soil>): real {
    if soils == [] then 0.0 else SumHumus(soils[..|soils| - 1]) + OrElse(soils[|soils| - 1].humus, 0.0)
  }

  /** `avgPh` before `toFixed(2)`; `None` is the "—" shown for no soils. */
  function AvgPh(soils: seq<Soil>): Option<real> {
    if |soils| > 0 then Some(SumPh(soils) / |soils| as real) else None
  }

  function AvgHumus(soils: seq<Soil>): Option<real> {
    if |soils| > 0 then Some(SumHumus(soils) / |soils| as real) else None
  }

  // ---------------------------------------------------------------------------
  // Properties

  /**
   * The badge partitions the readings: none is outline "Ma'lumot yo'q",
   * below 5.5 destructive, above 7.5 secondary, and 5.5 to 7.5 with both
   * bounds is the default "Maqbul".
   */
  lemma PhRecommendationRanges(ph: Option<real>)
    ensures PhRecommendation(ph).variant == Outline <==> ph.None?
    ensures PhRecommendation(ph).variant == Destructive <==> ph.Some? && ph.value < 5.5
    ensures PhRecommendation(ph).variant == Secondary <==> ph.Some? && ph.value > 7.5
    ensures PhRecommendation(ph).variant == Default <==> ph.Some? && 5.5 <= ph.value <= 7.5
    ensures PhRecommendation(ph).text == "Maqbul" <==> PhRecommendation(ph).variant == Default
  {
  }

  /** A key is in the map exactly when some usable entry's upper-cased code is that key. */
  lemma {:induction false} ElementMapKeys(elementsData: seq<ElementInfo>, key: string)
    ensures key in ElementMap(elementsData) <==>
      exists i :: 0 <= i < |elementsData| && Usable(elementsData[i]) && KeyOf(elementsData[i]) == key
    decreases |elementsData|
  {
    if elementsData != [] {
      var init := elementsData[..|elementsData| - 1];
      ElementMapKeys(init, key);
      if exists i :: 0 <= i < |init| && Usable(init[i]) && KeyOf(init[i]) == key {
        var i :| 0 <= i < |init| && Usable(init[i]) && KeyOf(init[i]) == key;
        assert elementsData[i] == init[i];
      }
      if exists i :: 0 <= i < |elementsData| && Usable(elementsData[i]) && KeyOf(elementsData[i]) == key {
        var i :| 0 <= i < |elementsData| && Usable(elementsData[i]) && KeyOf(elementsData[i]) == key;
        if i < |init| {
          assert init[i] == elementsData[i];
        }
      }
    }
  }

  /** The last usable entry with a key decides its id: later entries overwrite earlier ones. */
  lemma {:induction false} ElementMapLastWins(elementsData: seq<ElementInfo>, i: nat)
    requires i < |elementsData| && Usable(elementsData[i])
    requires forall j :: i < j < |elementsData| && Usable(elementsData[j]) ==> KeyOf(elementsData[j]) != KeyOf(elementsData[i])
    ensures KeyOf(elementsData[i]) in ElementMap(elementsData)
    ensures ElementMap(elementsData)[KeyOf(elementsData[i])] == elementsData[i].id.value
    decreases |elementsData|
  {
    var last := |elementsData| - 1;
    if i < last {
      var init := elementsData[..last];
      assert init[i] == elementsData[i];
      forall j | i < j < |init| && Usable(init[j]) ensures KeyOf(init[j]) != KeyOf(init[i]) {
        assert init[j] == elementsData[j];
      }
      ElementMapLastWins(init, i);
    }
  }

  /** Every stored id is non-zero, so a present key is always truthy. */
  lemma {:induction false} ElementMapIdsTruthy(elementsData: seq<ElementInfo>)
    ensures forall k :: k in ElementMap(elementsData) ==> ElementMap(elementsData)[k] != 0
    decreases |elementsData|
  {
    if elementsData != [] {
      ElementMapIdsTruthy(elementsData[..|elementsData| - 1]);
    }
  }

  /** At most one entry per push. */
  lemma {:induction false} PushedLength(soil: Soil, elementMap: map<string, int>, k: nat)
    requires k <= CodeCount
    ensures |Pushed(soil, elementMap, k)| <= k
    decreases k
  {
    if k > 0 {
      PushedLength(soil, elementMap, k - 1);
    }
  }

  /** Every pushed entry is a present value of a mapped code, with that code's id. */
  lemma {:induction false} PushedFrom(soil: Soil, elementMap: map<string, int>, k: nat, e: Element)
    requires k <= CodeCount && e in Pushed(soil, elementMap, k)
    ensures exists i ::
      0 <= i < k && ValueAt(soil, i) == Some(e.value) && Mapped(elementMap, CodeAt(i)) && e.elementId == elementMap[CodeAt(i)]
    decreases k
  {
    if e in Pushed(soil, elementMap, k - 1) {
      PushedFrom(soil, elementMap, k - 1, e);
    } else {
      assert e in Slot(ValueAt(soil, k - 1), CodeAt(k - 1), elementMap);
    }
  }

  /** Every present value of a mapped code among the first `k` is pushed. */
  lemma {:induction false} PushedHas(soil: Soil, elementMap: map<string, int>, k: nat, i: nat)
    requires i < k <= CodeCount && ValueAt(soil, i).Some? && Mapped(elementMap, CodeAt(i))
    ensures Element(elementMap[CodeAt(i)], ValueAt(soil, i).value) in Pushed(soil, elementMap, k)
    decreases k
  {
    if i < k - 1 {
      PushedHas(soil, elementMap, k - 1, i);
    }
  }

  /**
   * The element list holds at most 15 entries; each is a present measurement
   * of one of the 15 codes with that code's id, and every present, mapped
   * measurement (0 included) is in it.
   */
  lemma ElementsRule(soil: Soil, elementMap: map<string, int>)
    ensures |Elements(soil, elementMap)| <= 15
    ensures forall e :: e in Elements(soil, elementMap) ==>
      exists i :: 0 <= i < CodeCount && ValueAt(soil, i) == Some(e.value) && Mapped(elementMap, CodeAt(i))
        && e.elementId == elementMap[CodeAt(i)]
    ensures forall i :: 0 <= i < CodeCount && ValueAt(soil, i).Some? && Mapped(elementMap, CodeAt(i)) ==>
      Element(elementMap[CodeAt(i)], ValueAt(soil, i).value) in Elements(soil, elementMap)
  {
    PushedLength(soil, elementMap, CodeCount);
    forall e | e in Elements(soil, elementMap)
      ensures exists i ::
        0 <= i < CodeCount && ValueAt(soil, i) == Some(e.value) && Mapped(elementMap, CodeAt(i)) && e.elementId == elementMap[CodeAt(i)]
    {
      PushedFrom(soil, elementMap, CodeCount, e);
    }
    forall i | 0 <= i < CodeCount && ValueAt(soil, i).Some? && Mapped(elementMap, CodeAt(i))
      ensures Element(elementMap[CodeAt(i)], ValueAt(soil, i).value) in Elements(soil, elementMap)
    {
      PushedHas(soil, elementMap, CodeCount, i);
    }
  }

  /** pH, humus, the heavy metals and the id never reach the element list: records with the same 15 readings give the same list. */
  lemma {:induction false} IgnoresOtherMeasurements(soil: Soil, other: Soil, elementMap: map<string, int>, k: nat)
    requires k <= CodeCount
    requires forall i :: 0 <= i < k ==> ValueAt(soil, i) == ValueAt(other, i)
    ensures Pushed(soil, elementMap, k) == Pushed(other, elementMap, k)
    decreases k
  {
    if k > 0 {
      IgnoresOtherMeasurements(soil, other, elementMap, k - 1);
    }
  }

  /** The list is empty exactly when no code has both a value and a mapped id. */
  lemma {:induction false} PushedEmpty(soil: Soil, elementMap: map<string, int>, k: nat)
    requires k <= CodeCount
    ensures Pushed(soil, elementMap, k) == [] <==>
      forall i :: 0 <= i < k ==> ValueAt(soil, i).None? || !Mapped(elementMap, CodeAt(i))
    decreases k
  {
    if k > 0 {
      PushedEmpty(soil, elementMap, k - 1);
    }
  }

  /** `createAnalysisFromSoil` stops before any report request exactly when no code has both a value and a mapped id. */
  lemma NoElementsRule(soil: Soil, elementsData: seq<ElementInfo>)
    ensures Elements(soil, ElementMap(elementsData)) == [] <==>
      forall i :: 0 <= i < CodeCount ==> ValueAt(soil, i).None? || !Mapped(ElementMap(elementsData), CodeAt(i))
  {
    PushedEmpty(soil, ElementMap(elementsData), CodeCount);
  }

  /** An empty or whitespace-only field parses to `null`; anything else is `parseFloat`'s answer. */
  lemma ParseNumberRule(value: string, parseFloat: string -> Option<real>)
    ensures (forall j :: 0 <= j < |value| ==> IsSpace(value[j])) ==> ParseNumber(value, parseFloat).None?
    ensures (exists j :: 0 <= j < |value| && !IsSpace(value[j])) ==> ParseNumber(value, parseFloat) == parseFloat(value)
  {
    TrimEmpty(value);
  }

  /** A `null` reading counts as 0 in the sum. */
  lemma {:induction false} SumPhNullIsZero(soils: seq<Soil>, i: nat)
    requires i < |soils| && soils[i].ph.None?
    ensures SumPh(soils) == SumPh(soils[i := soils[i].(ph := Some(0.0))])
    decreases |soils|
  {
    var last := |soils| - 1;
    var t := soils[i := soils[i].(ph := Some(0.0))];
    assert t[..last] == if i < last then soils[..last][i := soils[i].(ph := Some(0.0))] else soils[..last];
    if i < last {
      SumPhNullIsZero(soils[..last], i);
    }
  }

  /** With no soils both cards show "—"; with soils both show an average. */
  lemma AveragesShown(soils: seq<Soil>)
    ensures AvgPh(soils).None? <==> soils == []
    ensures AvgHumus(soils).None? <==> soils == []
  {
  }

  /** If every reading (a `null` as 0) lies in `[lo, hi]`, so does the average pH. */
  lemma {:induction false} SumPhBounds(soils: seq<Soil>, lo: real, hi: real)
    requires forall i :: 0 <= i < |soils| ==> lo <= OrElse(soils[i].ph, 0.0) <= hi
    ensures lo * |soils| as real <= SumPh(soils) <= hi * |soils| as real
    decreases |soils|
  {
    if soils != [] {
      var init := soils[..|soils| - 1];
      forall i | 0 <= i < |init| ensures lo <= OrElse(init[i].ph, 0.0) <= hi {
        assert init[i] == soils[i];
      }
      SumPhBounds(init, lo, hi);
      var m := |init| as real;
      assert lo * (m + 1.0) == lo * m + lo && hi * (m + 1.0) == hi * m + hi;
    }
  }

  lemma AvgPhBounds(soils: seq<Soil>, lo: real, hi: real)
    requires soils != []
    requires forall i :: 0 <= i < |soils| ==> lo <= OrElse(soils[i].ph, 0.0) <= hi
    ensures lo <= AvgPh(soils).value <= hi
  {
    SumPhBounds(soils, lo, hi);
    var n := |soils| as real;
    assert SumPh(soils) / n * n == SumPh(soils);
  }

  /** A `null` humus reading counts as 0 in the sum. */
  lemma {:induction false} SumHumusNullIsZero(soils: seq<Soil>, i: nat)
    requires i < |soils| && soils[i].humus.None?
    ensures SumHumus(soils) == SumHumus(soils[i := soils[i].(humus := Some(0.0))])
    decreases |soils|
  {
    var last := |soils| - 1;
    var t := soils[i := soils[i].(humus := Some(0.0))];
    assert t[..last] == if i < last then soils[..last][i := soils[i].(humus := Some(0.0))] else soils[..last];
    if i < last {
      SumHumusNullIsZero(soils[..last], i);
    }
  }

  /** If every humus reading (a `null` as 0) lies in `[lo, hi]`, so does the sum, scaled by the count. */
  lemma {:induction false} SumHumusBounds(soils: seq<Soil>, lo: real, hi: real)
    requires forall i :: 0 <= i < |soils| ==> lo <= OrElse(soils[i].humus, 0.0) <= hi
    ensures lo * |soils| as real <= SumHumus(soils) <= hi * |soils| as real
    decreases |soils|
  {
    if soils != [] {
      var init := soils[..|soils| - 1];
      forall i | 0 <= i < |init| ensures lo <= OrElse(init[i].humus, 0.0) <= hi {
        assert init[i] == soils[i];
      }
      SumHumusBounds(init, lo, hi);
      var m := |init| as real;
      assert lo * (m + 1.0) == lo * m + lo && hi * (m + 1.0) == hi * m + hi;
    }
  }

  lemma AvgHumusBounds(soils: seq<Soil>, lo: real, hi: real)
    requires soils != []
    requires forall i :: 0 <= i < |soils| ==> lo <= OrElse(soils[i].humus, 0.0) <= hi
    ensures lo <= AvgHumus(soils).value <= hi
  {
    SumHumusBounds(soils, lo, hi);
    var n := |soils| as real;
    assert SumHumus(soils) / n * n == SumHumus(soils);
  }
}

/** The post-inference half of the waste classifier: the per-category
    confidence filter, label normalisation, the built-in environmental
    database, disposal instructions, tips, and the lookup behind the
    environmental-impact endpoint. */
module Classifier {
  import opened Wrappers

  // ---------------------------------------------------------------------------
  // Data model
  // ---------------------------------------------------------------------------

  /** A value stored under one key of an item's environmental facts. */
  datatype FactValue =
    | Number(x: real)
    | Text(s: string)
    | TextList(items: seq<string>)

  /** The environmental facts known about one kind of item, keyed by fact name. */
  type Facts = map<string, FactValue>

  /** A detection as the predictor reports it (pass-through fields such as the
      segmentation mask and material composition are not modelled). */
  datatype RawDetection = RawDetection(itemLabel: string, category: string, confidence: real, bbox: seq<real>)

  /** A tip, tagged by which sentence the service emits and carrying the
      values that sentence interpolates. */
  datatype Tip =
    | RecyclingSavesEnergy(item: string)
    | EnergySavedPercent(percent: int)
    | CompostingReducesMethane
    | DecomposesInApproximately(time: FactValue)
    | ConsiderReusableAlternatives
    | TakesToDecompose(time: FactValue)

  /** A disposal instruction, tagged by its template and carrying the
      lower-cased label it interpolates. */
  datatype Instruction =
    | RecyclingBin(item: string)
    | CompostBin(item: string)
    | RegularWasteBin(item: string)
    | HazardousWasteFacility(item: string)
    | FollowLocalGuidelines

  /** A detection after enrichment (the random id is not modelled). */
  datatype EnrichedDetection = EnrichedDetection(
    itemLabel: string,
    category: string,
    confidence: real,
    bbox: seq<real>,
    instructions: Instruction,
    tips: seq<Tip>,
    environmentalImpact: Facts)

  // ---------------------------------------------------------------------------
  // Confidence policy and the detection filter
  // ---------------------------------------------------------------------------

  /** Per-category acceptance thresholds of the classifier. */
  const ConfidenceThresholds: map<string, real> :=
    map["recycle" := 0.7, "compost" := 0.8, "trash" := 0.6, "hazardous" := 0.9]

  /** Threshold used for a category missing from the table. */
  const DefaultThreshold: real := 0.5

  /** The threshold a detection of `category` must reach. */
  function Threshold(category: string): (t: real)
    ensures DefaultThreshold <= t <= 0.9
    ensures t == DefaultThreshold <==> category !in ConfidenceThresholds
  {
    if category in ConfidenceThresholds then ConfidenceThresholds[category] else DefaultThreshold
  }

  /** A detection survives validation when it reaches its category's threshold. */
  predicate Accepted(d: RawDetection) {
    d.confidence >= Threshold(d.category)
  }

  /** Reference definition of validation: the accepted detections, in input order. */
  function Filter(ds: seq<RawDetection>): (r: seq<RawDetection>)
    ensures |r| <= |ds|
    ensures forall d :: d in r ==> d in ds && Accepted(d)
  {
    if ds == [] then []
    else Filter(ds[..|ds| - 1]) + (if Accepted(ds[|ds| - 1]) then [ds[|ds| - 1]] else [])
  }

  /** `a` is obtained from `b` by deleting elements, keeping the order of the rest. */
  ghost predicate Subsequence<T>(a: seq<T>, b: seq<T>)
    decreases |b|
  {
    if a == [] then true
    else if b == [] then false
    else (a[|a| - 1] == b[|b| - 1] && Subsequence(a[..|a| - 1], b[..|b| - 1]))
         || Subsequence(a, b[..|b| - 1])
  }

  /** Every accepted detection of the input is kept. */
  lemma {:induction false} FilterKeepsAccepted(ds: seq<RawDetection>, d: RawDetection)
    requires d in ds && Accepted(d)
    ensures d in Filter(ds)
  {
    var last := ds[|ds| - 1];
    if d != last {
      assert d in ds[..|ds| - 1] by {
        var i :| 0 <= i < |ds| && ds[i] == d;
        assert i < |ds| - 1;
        assert ds[..|ds| - 1][i] == d;
      }
      FilterKeepsAccepted(ds[..|ds| - 1], d);
    }
  }

  /** The filter keeps exactly the accepted detections. */
  lemma FilterMembers(ds: seq<RawDetection>)
    ensures forall d :: d in Filter(ds) <==> d in ds && Accepted(d)
  {
  }

  /** Occurrences are kept one for one: an accepted detection appears in the
      output as often as in the input, a rejected one never. */
  lemma {:induction false} FilterCounts(ds: seq<RawDetection>, d: RawDetection)
    ensures multiset(Filter(ds))[d] == if Accepted(d) then multiset(ds)[d] else 0
  {
    if ds != [] {
      var init, last := ds[..|ds| - 1], ds[|ds| - 1];
      assert ds == init + [last];
      FilterCounts(init, d);
    }
  }

  /** The filter keeps the surviving detections in their original relative order. */
  lemma {:induction false} FilterIsSubsequence(ds: seq<RawDetection>)
    ensures Subsequence(Filter(ds), ds)
  {
    if ds != [] {
      var init, last := ds[..|ds| - 1], ds[|ds| - 1];
      FilterIsSubsequence(init);
      var r := Filter(ds);
      if Accepted(last) {
        assert r[..|r| - 1] == Filter(init);
      } else if r != [] {
        assert r == Filter(init);
      }
    }
  }

  /** `validate_detections`: a stable filter over the raw detections. */
  method ValidateDetections(detections: seq<RawDetection>) returns (validated: seq<RawDetection>)
    ensures validated == Filter(detections)
    ensures forall d :: d in validated <==> d in detections && Accepted(d)
    ensures Subsequence(validated, detections)
  {
    validated := [];
    for i := 0 to |detections|
      invariant validated == Filter(detections[..i])
    {
      assert detections[..i + 1][..i] == detections[..i];
      var detection := detections[i];
      var threshold := Threshold(detection.category);
      if detection.confidence >= threshold {
        validated := validated + [detection];
      }
    }
    assert detections[..|detections|] == detections;
    FilterMembers(detections);
    FilterIsSubsequence(detections);
  }

  // ---------------------------------------------------------------------------
  // Label normalisation
  // ---------------------------------------------------------------------------

  predicate IsUpper(c: char) {
    'A' <= c <= 'Z'
  }

  function LowerChar(c: char): char {
    if IsUpper(c) then (c as int - 'A' as int + 'a' as int) as char else c
  }

  /** `str.lower()`, on ASCII letters. */
  function Lower(s: string): (r: string)
    ensures |r| == |s|
    ensures forall i :: 0 <= i < |r| ==> !IsUpper(r[i])
    ensures forall i :: 0 <= i < |s| && !IsUpper(s[i]) ==> r[i] == s[i]
    ensures forall i :: 0 <= i < |s| && IsUpper(s[i]) ==> r[i] as int == s[i] as int + 32
  {
    seq(|s|, i requires 0 <= i < |s| => LowerChar(s[i]))
  }

  /** The database key of a label: lower-cased, each space turned into `_`. */
  function LabelKey(itemLabel: string): (key: string)
    ensures |key| == |itemLabel|
    ensures ' ' !in key
    ensures forall i :: 0 <= i < |key| ==> !IsUpper(key[i])
    ensures forall i :: 0 <= i < |itemLabel| ==> (key[i] == '_' <==> itemLabel[i] == ' ' || itemLabel[i] == '_')
    ensures forall i :: 0 <= i < |itemLabel| && itemLabel[i] != ' ' ==> key[i] == LowerChar(itemLabel[i])
  {
    var lowered := Lower(itemLabel);
    seq(|lowered|, i requires 0 <= i < |lowered| => if lowered[i] == ' ' then '_' else lowered[i])
  }

  /** A string that is already a key. */
  predicate IsKey(s: string) {
    forall i :: 0 <= i < |s| ==> s[i] != ' ' && !IsUpper(s[i])
  }

  /** Keys are exactly the fixed points of normalisation. */
  lemma KeyIsFixedPoint(s: string)
    ensures LabelKey(s) == s <==> IsKey(s)
  {
  }

  /** Normalising twice is normalising once: a key looks itself up. */
  lemma LabelKeyIdempotent(s: string)
    ensures LabelKey(LabelKey(s)) == LabelKey(s)
  {
  }

  /** Labels that differ only in letter case share a key. */
  lemma LabelKeyIgnoresCase(s: string)
    ensures LabelKey(Lower(s)) == LabelKey(s)
  {
  }

  // ---------------------------------------------------------------------------
  // The environmental database
  // ---------------------------------------------------------------------------

  /** The energy fraction saved by recycling is a number, whenever present. */
  predicate EnergyIsNumber(facts: Facts) {
    "energy_saved_recycling" in facts ==> facts["energy_saved_recycling"].Number?
  }

  /** `load_environmental_database`: the built-in table of facts, keyed by item key. */
  function LoadEnvironmentalDatabase(): (db: map<string, Facts>)
    ensures db.Keys == {"plastic_bottle", "aluminum_can", "food_waste"}
    ensures forall k :: k in db ==> db[k] != map[] && EnergyIsNumber(db[k])
  {
    var plasticBottle := map[
      "co2_footprint" := Number(2.3),
      "recycling_rate" := Number(0.29),
      "decomposition_time" := Text("450 years"),
      "recycled_uses" := TextList(["clothing", "carpets", "park benches"])];
    var aluminumCan := map[
      "co2_footprint" := Number(3.2),
      "recycling_rate" := Number(0.75),
      "decomposition_time" := Text("200-500 years"),
      "energy_saved_recycling" := Number(0.95)];
    var foodWaste := map[
      "methane_production" := Number(1.1),
      "compost_time" := Text("3-6 months"),
      "soil_improvement" := Text("rich nutrients")];
    assert "co2_footprint" in plasticBottle && "co2_footprint" in aluminumCan;
    assert "compost_time" in foodWaste;
    map["plastic_bottle" := plasticBottle, "aluminum_can" := aluminumCan, "food_waste" := foodWaste]
  }

  /** Every database key is reachable from a label: each is its own normal form. */
  lemma DatabaseKeysAreKeys()
    ensures forall k :: k in LoadEnvironmentalDatabase() ==> LabelKey(k) == k
  {
  }

  /** The facts for a label: the database entry for its key, or no facts. */
  function ImpactFor(itemLabel: string): (facts: Facts)
    ensures EnergyIsNumber(facts)
  {
    var db := LoadEnvironmentalDatabase();
    var key := LabelKey(itemLabel);
    if key in db then db[key] else map[]
  }

  // ---------------------------------------------------------------------------
  // Disposal instructions
  // ---------------------------------------------------------------------------

  /** Categories with a dedicated disposal template. */
  const DisposalCategories: set<string> := {"recycle", "compost", "trash", "hazardous"}

  /** The category a disposal instruction was written for (`None` for the fallback). */
  function InstructionCategory(r: Instruction): Option<string> {
    match r
    case RecyclingBin(_) => Some("recycle")
    case CompostBin(_) => Some("compost")
    case RegularWasteBin(_) => Some("trash")
    case HazardousWasteFacility(_) => Some("hazardous")
    case FollowLocalGuidelines => None
  }

  /** `generate_disposal_instructions`: the category's template, filled with
      the lower-cased label, or the generic fallback. */
  function GenerateDisposalInstructions(category: string, itemLabel: string): (r: Instruction)
    ensures InstructionCategory(r) == if category in DisposalCategories then Some(category) else None
    ensures r.FollowLocalGuidelines? <==> category !in DisposalCategories
    ensures !r.FollowLocalGuidelines? ==> r.item == Lower(itemLabel)
  {
    if category == "recycle" then RecyclingBin(Lower(itemLabel))
    else if category == "compost" then CompostBin(Lower(itemLabel))
    else if category == "trash" then RegularWasteBin(Lower(itemLabel))
    else if category == "hazardous" then HazardousWasteFacility(Lower(itemLabel))
    else FollowLocalGuidelines
  }

  /** The categories with a template are the categories with a threshold of
      their own, so the fallback instruction goes exactly to the detections
      judged at the default threshold. */
  lemma DisposalCategoriesHaveThresholds(category: string, itemLabel: string)
    ensures DisposalCategories == ConfidenceThresholds.Keys
    ensures GenerateDisposalInstructions(category, itemLabel).FollowLocalGuidelines?
      <==> Threshold(category) == DefaultThreshold
  {
  }

  // ---------------------------------------------------------------------------
  // Tips
  // ---------------------------------------------------------------------------

  /** Python's `int()` on a float: truncation toward zero. */
  function Trunc(x: real): (n: int)
    ensures 0.0 <= x ==> n as real <= x < n as real + 1.0
    ensures x < 0.0 ==> n as real - 1.0 < x <= n as real
  {
    if x >= 0.0 then x.Floor else -((-x).Floor)
  }

  /** Categories that receive tips. */
  const TipCategories: set<string> := {"recycle", "compost", "trash"}

  /** The fact whose presence adds a second tip, per category. */
  function TipFactKey(category: string): (k: Option<string>)
    ensures k.Some? <==> category in TipCategories
  {
    if category == "recycle" then Some("energy_saved_recycling")
    else if category == "compost" then Some("compost_time")
    else if category == "trash" then Some("decomposition_time")
    else None
  }

  /** Facts the tip rules can be applied to: the source multiplies the energy
      fraction by 100 and truncates it, which needs a number. */
  predicate TipsDefined(category: string, facts: Facts) {
    category == "recycle" ==> EnergyIsNumber(facts)
  }

  /** The tip every item of the category receives. */
  function CategoryTip(category: string, itemLabel: string): seq<Tip> {
    if category == "recycle" then [RecyclingSavesEnergy(Lower(itemLabel))]
    else if category == "compost" then [CompostingReducesMethane]
    else if category == "trash" then [ConsiderReusableAlternatives]
    else []
  }

  /** The tip that reports the category's fact. */
  function FactTip(category: string, value: FactValue): Tip
    requires category == "recycle" ==> value.Number?
  {
    if category == "recycle" then EnergySavedPercent(Trunc(value.x * 100.0))
    else if category == "compost" then DecomposesInApproximately(value)
    else TakesToDecompose(value)
  }

  /** Reference definition of the tip rules: the category's tip, then the
      fact tip when the category's fact is present. */
  function Tips(category: string, itemLabel: string, facts: Facts): seq<Tip>
    requires TipsDefined(category, facts)
  {
    CategoryTip(category, itemLabel) +
      match TipFactKey(category)
      case Some(k) => if k in facts then [FactTip(category, facts[k])] else []
      case None => []
  }

  /** How many tips each category gets: none outside recycle, compost and
      trash (so none for hazardous), otherwise one plus one more exactly when
      the category's fact is present. */
  lemma TipsShape(category: string, itemLabel: string, facts: Facts)
    requires TipsDefined(category, facts)
    ensures Tips(category, itemLabel, facts) == [] <==> category !in TipCategories
    ensures category in TipCategories ==>
      (|Tips(category, itemLabel, facts)| == 2 <==> TipFactKey(category).value in facts)
    ensures |Tips(category, itemLabel, facts)| <= 2
  {
  }

  /** Facts only add tips: with more facts the earlier tips stay in front. */
  lemma TipsGrowWithFacts(category: string, itemLabel: string, facts: Facts, more: Facts)
    requires TipsDefined(category, facts) && TipsDefined(category, more)
    requires forall k :: k in facts ==> k in more && more[k] == facts[k]
    ensures Tips(category, itemLabel, facts) <= Tips(category, itemLabel, more)
    ensures Tips(category, itemLabel, map[]) <= Tips(category, itemLabel, facts)
  {
  }

  /** The recycling tip for an energy fraction reports its truncated percentage. */
  lemma EnergyTipTruncates(itemLabel: string, fraction: real)
    requires 0.0 <= fraction
    ensures var tips := Tips("recycle", itemLabel, map["energy_saved_recycling" := Number(fraction)]);
      |tips| == 2 && tips[1].EnergySavedPercent? &&
      tips[1].percent as real <= fraction * 100.0 < tips[1].percent as real + 1.0
  {
  }

  /** `generate_tips`: appends the category-gated tips. */
  method GenerateTips(category: string, itemLabel: string, facts: Facts) returns (tips: seq<Tip>)
    requires TipsDefined(category, facts)
    ensures tips == Tips(category, itemLabel, facts)
  {
    tips := [];
    if category == "recycle" {
      tips := tips + [RecyclingSavesEnergy(Lower(itemLabel))];
      if "energy_saved_recycling" in facts {
        tips := tips + [EnergySavedPercent(Trunc(facts["energy_saved_recycling"].x * 100.0))];
      }
    } else if category == "compost" {
      tips := tips + [CompostingReducesMethane];
      if "compost_time" in facts {
        tips := tips + [DecomposesInApproximately(facts["compost_time"])];
      }
    } else if category == "trash" {
      tips := tips + [ConsiderReusableAlternatives];
      if "decomposition_time" in facts {
        tips := tips + [TakesToDecompose(facts["decomposition_time"])];
      }
    }
  }

  // ---------------------------------------------------------------------------
  // Enrichment
  // ---------------------------------------------------------------------------

  /** `e` is the enrichment of `d`: the detection's own fields unchanged, the
      facts of its label's key, and instructions and tips generated from them. */
  ghost predicate EnrichedFrom(e: EnrichedDetection, d: RawDetection) {
    && e.itemLabel == d.itemLabel
    && e.category == d.category
    && e.confidence == d.confidence
    && e.bbox == d.bbox
    && e.environmentalImpact == ImpactFor(d.itemLabel)
    && e.instructions == GenerateDisposalInstructions(d.category, d.itemLabel)
    && e.tips == Tips(d.category, d.itemLabel, e.environmentalImpact)
  }

  /** `enrich_with_environmental_data`: one enriched result per detection, in order. */
  method EnrichWithEnvironmentalData(detections: seq<RawDetection>) returns (enriched: seq<EnrichedDetection>)
    ensures |enriched| == |detections|
    ensures forall i :: 0 <= i < |detections| ==> EnrichedFrom(enriched[i], detections[i])
  {
    enriched := [];
    for i := 0 to |detections|
      invariant |enriched| == i
      invariant forall j :: 0 <= j < i ==> EnrichedFrom(enriched[j], detections[j])
    {
      var detection := detections[i];
      var envData := ImpactFor(detection.itemLabel);
      var instructions := GenerateDisposalInstructions(detection.category, detection.itemLabel);
      var tips := GenerateTips(detection.category, detection.itemLabel, envData);
      var result := EnrichedDetection(
        detection.itemLabel, detection.category, detection.confidence, detection.bbox,
        instructions, tips, envData);
      enriched := enriched + [result];
    }
  }

  /** The impact attached to a detection is the database entry of its key, and
      an empty mapping exactly when the key has no entry. */
  lemma ImpactIsDatabaseEntry(itemLabel: string)
    ensures LabelKey(itemLabel) in LoadEnvironmentalDatabase() ==>
      ImpactFor(itemLabel) == LoadEnvironmentalDatabase()[LabelKey(itemLabel)]
    ensures ImpactFor(itemLabel) == map[] <==> LabelKey(itemLabel) !in LoadEnvironmentalDatabase()
  {
  }

  /** The post-inference stages of `classify_image`: validate, then enrich. */
  method ClassifyDetections(detections: seq<RawDetection>) returns (enriched: seq<EnrichedDetection>)
    ensures |enriched| == |Filter(detections)| <= |detections|
    ensures forall i :: 0 <= i < |enriched| ==> EnrichedFrom(enriched[i], Filter(detections)[i])
  {
    var validated := ValidateDetections(detections);
    enriched := EnrichWithEnvironmentalData(validated);
  }

  // ---------------------------------------------------------------------------
  // The environmental-impact lookup
  // ---------------------------------------------------------------------------

  datatype ImpactReport = ImpactReport(
    itemType: string,
    environmentalImpact: Facts,
    disposalInstructions: Instruction,
    tips: seq<Tip>)

  datatype LookupError = NotFound

  /** `get_environmental_impact`: the facts for an item type, reported with the
      recycling instructions and tips, or "not found". */
  function GetEnvironmentalImpact(itemType: string): (r: Result<ImpactReport, LookupError>)
    ensures r.Failure? <==> LabelKey(itemType) !in LoadEnvironmentalDatabase()
    ensures r.Success? ==>
      && r.value.itemType == itemType
      && r.value.environmentalImpact == LoadEnvironmentalDatabase()[LabelKey(itemType)]
      && r.value.disposalInstructions == RecyclingBin(Lower(itemType))
      && r.value.tips == Tips("recycle", itemType, r.value.environmentalImpact)
  {
    var impactData := ImpactFor(itemType);
    if impactData == map[] then Failure(NotFound)
    else Success(ImpactReport(
      itemType, impactData,
      GenerateDisposalInstructions("recycle", itemType),
      Tips("recycle", itemType, impactData)))
  }

  /** Asking by label or by its key gives the same answer. */
  lemma LookupByKeyOrLabel(itemType: string)
    ensures GetEnvironmentalImpact(LabelKey(itemType)).Success? <==> GetEnvironmentalImpact(itemType).Success?
    ensures GetEnvironmentalImpact(itemType).Success? ==>
      GetEnvironmentalImpact(LabelKey(itemType)).value.environmentalImpact
        == GetEnvironmentalImpact(itemType).value.environmentalImpact
  {
    LabelKeyIdempotent(itemType);
  }

  // ---------------------------------------------------------------------------
  // Scenarios
  // ---------------------------------------------------------------------------

  /** One recyclable at 0.92 and one compostable at 0.3: only the first survives. */
  lemma FilterScenario(b1: seq<real>, b2: seq<real>)
    ensures var bottle := RawDetection("Plastic Bottle", "recycle", 0.92, b1);
      Filter([bottle, RawDetection("Apple Core", "compost", 0.3, b2)]) == [bottle]
  {
  }

  /** A label of unknown category with no database entry still enriches: no
      facts, the generic instruction, no tips. */
  lemma UnknownItemScenario(e: EnrichedDetection, bbox: seq<real>)
    requires EnrichedFrom(e, RawDetection("Widget", "misc", 0.6, bbox))
    ensures e.environmentalImpact == map[]
    ensures e.instructions == FollowLocalGuidelines
    ensures e.tips == []
  {
  }

  /** The aluminum can's recycling tips report 95 per cent energy saved. */
  lemma AluminumCanTips(e: EnrichedDetection, confidence: real, bbox: seq<real>)
    requires EnrichedFrom(e, RawDetection("Aluminum Can", "recycle", confidence, bbox))
    ensures e.tips == [RecyclingSavesEnergy(Lower("Aluminum Can")), EnergySavedPercent(95)]
  {
    assert LabelKey("Aluminum Can") == "aluminum_can" by {
      assert forall i :: 0 <= i < 12 ==> LabelKey("Aluminum Can")[i] == "aluminum_can"[i];
    }
  }
}

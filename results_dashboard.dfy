/**
 * `generateCropRecommendations`: the four-crop base list, each crop's
 * suitability adjusted for rainfall, sunlight and irrigation and clamped to
 * 0..100, then the list sorted by suitability, best first.
 */
module ResultsDashboard {
  import opened CropRecommendation
  import StableSort

  const BaseRecommendations: seq<CropRecord> := [
    CropRecord("1", "Rice (Paddy)", "\U{1F33E}", Medium, 6.0, 1200.0, 80.0, 45000.0, 35.0, 2040.0, "NPK 20:20:0", 85.0),
    CropRecord("2", "Wheat", "\U{1F33E}", Medium, 7.0, 600.0, 50.0, 38000.0, 28.0, 2125.0, "Urea + DAP", 78.0),
    CropRecord("3", "Sugarcane", "\U{1F38B}", High, 8.0, 1500.0, 70.0, 65000.0, 700.0, 315.0, "NPK 15:15:15", 72.0),
    CropRecord("4", "Cotton", "\U{1F338}", Medium, 8.0, 800.0, 40.0, 55000.0, 18.0, 6080.0, "NPK 17:17:17", 68.0)
  ]

  /** The scorer divides by both requirements. */
  predicate Scorable(crop: CropRecord)
  {
    crop.rainfallRequirement > 0.0 && crop.sunlightRequirement > 0.0
  }

  function Abs(x: real): real
  {
    if x < 0.0 then -x else x
  }

  /** `Math.max(0, Math.min(100, x))`. */
  function Clamp(x: real): (r: real)
    ensures 0.0 <= r <= 100.0
    ensures 0.0 <= x <= 100.0 ==> r == x
    ensures x < 0.0 ==> r == 0.0
    ensures x > 100.0 ==> r == 100.0
  {
    if x < 0.0 then 0.0 else if x > 100.0 then 100.0 else x
  }

  /** 20 points per unit of relative deviation from the crop's rainfall requirement. */
  function RainfallPenalty(crop: CropRecord, env: EnvironmentalData): (p: real)
    requires crop.rainfallRequirement > 0.0
    ensures p >= 0.0
    ensures p == 0.0 <==> env.rainfall == crop.rainfallRequirement
  {
    Abs(crop.rainfallRequirement - env.rainfall) / crop.rainfallRequirement * 20.0
  }

  /** 15 points per unit of relative deviation from the crop's sunlight requirement. */
  function SunlightPenalty(crop: CropRecord, env: EnvironmentalData): (p: real)
    requires crop.sunlightRequirement > 0.0
    ensures p >= 0.0
    ensures p == 0.0 <==> env.sunlight == crop.sunlightRequirement
  {
    Abs(crop.sunlightRequirement - env.sunlight) / crop.sunlightRequirement * 15.0
  }

  /** Irrigation helps only crops needing more than 1000 mm of rain. */
  function IrrigationBonus(crop: CropRecord, env: EnvironmentalData): (r: real)
    ensures r == 10.0 <==> env.irrigationAvailable && crop.rainfallRequirement > 1000.0
    ensures r == 0.0 || r == 10.0
  {
    if env.irrigationAvailable && crop.rainfallRequirement > 1000.0 then 10.0 else 0.0
  }

  function AdjustedSuitability(crop: CropRecord, env: EnvironmentalData): (s: real)
    requires Scorable(crop)
    ensures 0.0 <= s <= 100.0
  {
    Clamp(crop.suitability - RainfallPenalty(crop, env) - SunlightPenalty(crop, env) + IrrigationBonus(crop, env))
  }

  /** The `map` callback: a copy of the crop with its suitability replaced. */
  function Adjust(crop: CropRecord, env: EnvironmentalData): (r: CropRecord)
    requires Scorable(crop)
    ensures r.(suitability := crop.suitability) == crop
    ensures 0.0 <= r.suitability <= 100.0
  {
    crop.(suitability := AdjustedSuitability(crop, env))
  }

  function AdjustAll(crops: seq<CropRecord>, env: EnvironmentalData): (r: seq<CropRecord>)
    requires forall c :: c in crops ==> Scorable(c)
    ensures |r| == |crops|
    ensures forall i :: 0 <= i < |r| ==> r[i].(suitability := crops[i].suitability) == crops[i]
    ensures forall i :: 0 <= i < |r| ==> 0.0 <= r[i].suitability <= 100.0
  {
    seq(|crops|, i requires 0 <= i < |crops| => Adjust(crops[i], env))
  }

  /** The sort comparator `(a, b) => b.suitability - a.suitability` is at most 0. */
  predicate BySuitability(a: CropRecord, b: CropRecord)
  {
    b.suitability - a.suitability <= 0.0
  }

  lemma BySuitabilityIsTotalPreorder()
    ensures StableSort.TotalPreorder(BySuitability)
  {
  }

  function GenerateCropRecommendations(location: LocationData, envData: EnvironmentalData): (r: seq<CropRecord>)
    ensures |r| == |BaseRecommendations|
    ensures multiset(r) == multiset(AdjustAll(BaseRecommendations, envData))
    ensures forall c :: c in r ==> exists i :: 0 <= i < |BaseRecommendations| && c == Adjust(BaseRecommendations[i], envData)
    ensures forall c :: c in r ==> 0.0 <= c.suitability <= 100.0
    ensures forall i, j :: 0 <= i < j < |r| ==> r[i].suitability >= r[j].suitability
  {
    var adjusted := AdjustAll(BaseRecommendations, envData);
    BySuitabilityIsTotalPreorder();
    StableSort.SortSorted(adjusted, BySuitability);
    var r := StableSort.Sort(adjusted, BySuitability);
    assert forall c :: c in r ==> c in adjusted by {
      forall c | c in r ensures c in adjusted {
        assert c in multiset(r);
      }
    }
    r
  }

  /** Crops with equal adjusted suitability keep their base-list order. */
  lemma {:induction false} TiesKeepBaseOrder(location: LocationData, envData: EnvironmentalData, x: CropRecord)
    ensures StableSort.Ties(GenerateCropRecommendations(location, envData), x, BySuitability)
         == StableSort.Ties(AdjustAll(BaseRecommendations, envData), x, BySuitability)
  {
    BySuitabilityIsTotalPreorder();
    StableSort.SortStable(AdjustAll(BaseRecommendations, envData), x, BySuitability);
  }

  /** The top pick (element 0) is at least as suitable as every recommendation. */
  lemma TopPickIsBest(location: LocationData, envData: EnvironmentalData)
    ensures forall c :: c in GenerateCropRecommendations(location, envData) ==>
      GenerateCropRecommendations(location, envData)[0].suitability >= c.suitability
  {
  }

  /** The location is passed in but does not influence the result. */
  lemma LocationIsIgnored(l1: LocationData, l2: LocationData, envData: EnvironmentalData)
    ensures GenerateCropRecommendations(l1, envData) == GenerateCropRecommendations(l2, envData)
  {
  }

  /** Of the base crops only Rice (1200 mm) and Sugarcane (1500 mm) can get the irrigation bonus. */
  lemma BonusEligibility(envData: EnvironmentalData)
    ensures forall i :: 0 <= i < |BaseRecommendations| ==>
      (IrrigationBonus(BaseRecommendations[i], envData) == 10.0 <==>
       envData.irrigationAvailable && BaseRecommendations[i].id in {"1", "3"})
    ensures forall i :: 0 <= i < |BaseRecommendations| ==>
      (IrrigationBonus(BaseRecommendations[i], envData) == 0.0 ||
       IrrigationBonus(BaseRecommendations[i], envData) == 10.0)
  {
  }

  /** Without the bonus a crop never scores above its base suitability. */
  lemma NoBonusNoGain(crop: CropRecord, envData: EnvironmentalData)
    requires Scorable(crop) && 0.0 <= crop.suitability
    requires IrrigationBonus(crop, envData) == 0.0
    ensures AdjustedSuitability(crop, envData) <= crop.suitability
  {
  }

  /** Conditions that meet the requirements exactly cost nothing. */
  lemma ExactConditionsNoPenalty(crop: CropRecord, envData: EnvironmentalData)
    requires Scorable(crop)
    requires envData.rainfall == crop.rainfallRequirement && envData.sunlight == crop.sunlightRequirement
    ensures AdjustedSuitability(crop, envData) == Clamp(crop.suitability + IrrigationBonus(crop, envData))
  {
  }

  /** Rice at 800 mm and 7 h with irrigation: 85 - 20/3 - 5/2 + 10. */
  lemma RiceScores()
    ensures AdjustedSuitability(BaseRecommendations[0], DefaultEnvironment.(irrigationAvailable := true)) == 515.0 / 6.0
  {
  }

  /** The ids of a list of crops, in order. */
  function Ids(crops: seq<CropRecord>): (ids: seq<string>)
    ensures |ids| == |crops|
  {
    seq(|crops|, i requires 0 <= i < |crops| => crops[i].id)
  }

  /** The scores behind the ranking for the page's initial inputs. */
  lemma DefaultScores()
    ensures AdjustedSuitability(BaseRecommendations[0], DefaultEnvironment) == 455.0 / 6.0
    ensures AdjustedSuitability(BaseRecommendations[1], DefaultEnvironment) == 214.0 / 3.0
    ensures AdjustedSuitability(BaseRecommendations[2], DefaultEnvironment) == 1459.0 / 24.0
    ensures AdjustedSuitability(BaseRecommendations[3], DefaultEnvironment) == 529.0 / 8.0
  {
  }

  /** How the stable sort orders four crops whose scores compare as Rice, Wheat, Cotton, Sugarcane do. */
  lemma {:induction false} SortFour(a: seq<CropRecord>)
    requires |a| == 4
    requires BySuitability(a[0], a[1]) && BySuitability(a[1], a[3]) && !BySuitability(a[2], a[3])
    ensures StableSort.Sort(a, BySuitability) == [a[0], a[1], a[3], a[2]]
  {
    assert a[3..][1..] == [];
    var s3 := StableSort.Sort(a[3..], BySuitability);
    assert s3 == [a[3]];
    assert a[2..][1..] == a[3..];
    var s2 := StableSort.Sort(a[2..], BySuitability);
    assert s2 == StableSort.Insert(a[2], s3, BySuitability);
    assert StableSort.Insert(a[2], [], BySuitability) == [a[2]];
    assert s2 == [a[3], a[2]];
    assert a[1..][1..] == a[2..];
    var s1 := StableSort.Sort(a[1..], BySuitability);
    assert s1 == StableSort.Insert(a[1], s2, BySuitability);
    assert s1 == [a[1], a[3], a[2]];
    assert StableSort.Sort(a, BySuitability) == StableSort.Insert(a[0], s1, BySuitability);
  }

  /** For the page's initial inputs the ranking is Rice, Wheat, Cotton, Sugarcane. */
  lemma {:induction false} DefaultRanking(location: LocationData)
    ensures Ids(GenerateCropRecommendations(location, DefaultEnvironment)) == ["1", "2", "4", "3"]
  {
    var adjusted := AdjustAll(BaseRecommendations, DefaultEnvironment);
    DefaultScores();
    SortFour(adjusted);
  }
}

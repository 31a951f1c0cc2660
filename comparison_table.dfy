/**
 * The comparison table: its own five-crop list (the dashboard's four plus
 * Maize), a sort state (key and direction) toggled by the column headers,
 * the set of expanded rows, and the sorted copy of the list it renders.
 */
module Comparison {
  import opened CropRecommendation
  import opened Text
  import StableSort

  const MockCrops: seq<CropRecord> := [
    CropRecord("1", "Rice (Paddy)", "\U{1F33E}", Medium, 6.0, 1200.0, 80.0, 45000.0, 35.0, 2040.0, "NPK 20:20:0", 85.0),
    CropRecord("2", "Wheat", "\U{1F33E}", Medium, 7.0, 600.0, 50.0, 38000.0, 28.0, 2125.0, "Urea + DAP", 78.0),
    CropRecord("3", "Sugarcane", "\U{1F38B}", High, 8.0, 1500.0, 70.0, 65000.0, 700.0, 315.0, "NPK 15:15:15", 72.0),
    CropRecord("4", "Cotton", "\U{1F338}", Medium, 8.0, 800.0, 40.0, 55000.0, 18.0, 6080.0, "NPK 17:17:17", 68.0),
    CropRecord("5", "Maize", "\U{1F33D}", Medium, 7.0, 700.0, 60.0, 42000.0, 25.0, 1870.0, "NPK 12:32:16", 75.0)
  ]

  /** The keys of a crop record, any of which the table can sort by. */
  datatype SortKey =
    | Id | Name | Image | FertilizerNeed | SunlightRequirement | RainfallRequirement
    | SoilHumidity | ProfitForecast | Yield | Msp | FertilizerType | Suitability

  datatype SortOrder = Asc | Desc

  datatype SortState = SortState(sortBy: SortKey, sortOrder: SortOrder)

  const InitialSort := SortState(Suitability, Desc)

  /** The keys that have a sort button in the table header. */
  const HeaderKeys: set<SortKey> :=
    {Name, FertilizerType, FertilizerNeed, RainfallRequirement, SunlightRequirement, Yield, ProfitForecast}

  /** The keys whose values are numbers; the others hold strings. */
  predicate IsNumeric(key: SortKey)
  {
    key in {SunlightRequirement, RainfallRequirement, SoilHumidity, ProfitForecast, Yield, Msp, Suitability}
  }

  function NumberField(c: CropRecord, key: SortKey): real
    requires IsNumeric(key)
  {
    match key
    case SunlightRequirement => c.sunlightRequirement
    case RainfallRequirement => c.rainfallRequirement
    case SoilHumidity => c.soilHumidity
    case ProfitForecast => c.profitForecast
    case Yield => c.cropYield
    case Msp => c.msp
    case Suitability => c.suitability
  }

  function TextField(c: CropRecord, key: SortKey): string
    requires !IsNumeric(key)
  {
    match key
    case Id => c.id
    case Name => c.name
    case Image => c.image
    case FertilizerNeed => NeedName(c.fertilizerNeed)
    case FertilizerType => c.fertilizerType
  }

  /**
   * The comparator given to `sort`: the difference of the numbers for a
   * numeric key, a string comparison otherwise, with the arguments swapped
   * for descending order.
   */
  function Compare(a: CropRecord, b: CropRecord, key: SortKey, order: SortOrder): (r: real)
    ensures IsNumeric(key) ==> (r == 0.0 <==> NumberField(a, key) == NumberField(b, key))
    ensures !IsNumeric(key) ==> (r == 0.0 <==> TextField(a, key) == TextField(b, key))
    ensures !IsNumeric(key) ==> -1.0 <= r <= 1.0
  {
    if IsNumeric(key) then
      if order == Asc then NumberField(a, key) - NumberField(b, key)
      else NumberField(b, key) - NumberField(a, key)
    else
      if order == Asc then LexCompare(TextField(a, key), TextField(b, key)) as real
      else LexCompare(TextField(b, key), TextField(a, key)) as real
  }

  /** For a numeric key the sign says which value is smaller, reversed for descending order. */
  lemma CompareNumericSign(a: CropRecord, b: CropRecord, key: SortKey, order: SortOrder)
    requires IsNumeric(key)
    ensures order == Asc ==> (Compare(a, b, key, order) < 0.0 <==> NumberField(a, key) < NumberField(b, key))
    ensures order == Desc ==> (Compare(a, b, key, order) < 0.0 <==> NumberField(a, key) > NumberField(b, key))
  {
  }

  /** Swapping the rows negates the comparator, for every key and direction. */
  lemma CompareAntisymmetric(a: CropRecord, b: CropRecord, key: SortKey, order: SortOrder)
    ensures Compare(b, a, key, order) == -Compare(a, b, key, order)
  {
    if !IsNumeric(key) {
      LexCompareAntisymmetric(TextField(a, key), TextField(b, key));
    }
  }

  /** `a` may stand before `b`: the comparator is at most 0. */
  function Precedes(key: SortKey, order: SortOrder): (CropRecord, CropRecord) -> bool
  {
    (a, b) => Compare(a, b, key, order) <= 0.0
  }

  /** A numeric column's comparator orders rows by a real number, so it is consistent. */
  lemma NumberComparatorIsTotalPreorder(key: SortKey, order: SortOrder)
    requires IsNumeric(key)
    ensures StableSort.TotalPreorder(Precedes(key, order))
  {
  }

  /** A text column's comparator is consistent because string comparison is. */
  lemma TextComparatorIsTotalPreorder(key: SortKey, order: SortOrder)
    requires !IsNumeric(key)
    ensures StableSort.TotalPreorder(Precedes(key, order))
  {
    var le := Precedes(key, order);
    forall a, b ensures le(a, b) || le(b, a) {
      LexCompareAntisymmetric(TextField(a, key), TextField(b, key));
    }
    forall a, b, c | le(a, b) && le(b, c) ensures le(a, c) {
      if order == Asc {
        LexCompareTransitive(TextField(a, key), TextField(b, key), TextField(c, key));
      } else {
        LexCompareTransitive(TextField(c, key), TextField(b, key), TextField(a, key));
      }
    }
  }

  /** Every comparator the table builds is consistent. */
  lemma PrecedesIsTotalPreorder(key: SortKey, order: SortOrder)
    ensures StableSort.TotalPreorder(Precedes(key, order))
  {
    if IsNumeric(key) {
      NumberComparatorIsTotalPreorder(key, order);
    } else {
      TextComparatorIsTotalPreorder(key, order);
    }
  }

  /** `[...crops].sort(comparator)` for the given key and direction. */
  function SortCrops(crops: seq<CropRecord>, key: SortKey, order: SortOrder): (r: seq<CropRecord>)
    ensures multiset(r) == multiset(crops) && |r| == |crops|
    ensures forall i, j :: 0 <= i < j < |r| ==> Compare(r[i], r[j], key, order) <= 0.0
    ensures IsNumeric(key) && order == Asc ==>
      forall i, j :: 0 <= i < j < |r| ==> NumberField(r[i], key) <= NumberField(r[j], key)
    ensures IsNumeric(key) && order == Desc ==>
      forall i, j :: 0 <= i < j < |r| ==> NumberField(r[i], key) >= NumberField(r[j], key)
    ensures !IsNumeric(key) && order == Asc ==>
      forall i, j :: 0 <= i < j < |r| ==> LexCompare(TextField(r[i], key), TextField(r[j], key)) <= 0
    ensures !IsNumeric(key) && order == Desc ==>
      forall i, j :: 0 <= i < j < |r| ==> LexCompare(TextField(r[i], key), TextField(r[j], key)) >= 0
  {
    PrecedesIsTotalPreorder(key, order);
    StableSort.SortSorted(crops, Precedes(key, order));
    var r := StableSort.Sort(crops, Precedes(key, order));
    assert forall i, j :: 0 <= i < j < |r| ==> Compare(r[i], r[j], key, order) <= 0.0;
    assert !IsNumeric(key) && order == Desc ==>
      forall i, j :: 0 <= i < j < |r| ==> LexCompare(TextField(r[i], key), TextField(r[j], key)) >= 0 by {
      if !IsNumeric(key) && order == Desc {
        forall i, j | 0 <= i < j < |r| ensures LexCompare(TextField(r[i], key), TextField(r[j], key)) >= 0 {
          LexCompareAntisymmetric(TextField(r[i], key), TextField(r[j], key));
        }
      }
    }
    r
  }

  /** Rows whose keys compare equal keep the order they have in the list. */
  lemma {:induction false} SortCropsStable(crops: seq<CropRecord>, key: SortKey, order: SortOrder, x: CropRecord)
    ensures StableSort.Ties(SortCrops(crops, key, order), x, Precedes(key, order))
         == StableSort.Ties(crops, x, Precedes(key, order))
  {
    PrecedesIsTotalPreorder(key, order);
    StableSort.SortStable(crops, x, Precedes(key, order));
  }

  function Flip(order: SortOrder): SortOrder
  {
    if order == Asc then Desc else Asc
  }

  /** `handleSort`: the same key flips the direction, a new key starts descending. */
  function NextSort(s: SortState, key: SortKey): (t: SortState)
    ensures t.sortBy == key
  {
    if s.sortBy == key then s.(sortOrder := Flip(s.sortOrder)) else SortState(key, Desc)
  }

  lemma SameKeyTwiceRestores(s: SortState)
    ensures NextSort(s, s.sortBy).sortOrder != s.sortOrder
    ensures NextSort(NextSort(s, s.sortBy), s.sortBy) == s
  {
  }

  lemma NewKeyStartsDescending(s: SortState, key: SortKey)
    requires key != s.sortBy
    ensures NextSort(s, key) == SortState(key, Desc)
  {
  }

  /** The sort state after the header buttons are clicked in the given order. */
  function AfterClicks(clicks: seq<SortKey>): SortState
  {
    if clicks == [] then InitialSort
    else NextSort(AfterClicks(clicks[..|clicks| - 1]), clicks[|clicks| - 1])
  }

  /** Suitability has no header button: once any header is clicked it is never the sort key again. */
  lemma {:induction false} SuitabilityOnlyInitially(clicks: seq<SortKey>)
    requires forall k :: k in clicks ==> k in HeaderKeys
    ensures AfterClicks(clicks).sortBy == Suitability <==> clicks == []
    ensures AfterClicks(clicks).sortBy in HeaderKeys + {Suitability}
  {
    if clicks != [] {
      assert clicks[|clicks| - 1] in clicks;
    }
  }

  /** `toggleRowExpansion`: the id flips membership, every other id is untouched. */
  function Toggled(rows: set<string>, id: string): (r: set<string>)
    ensures id in r <==> id !in rows
    ensures forall other :: other != id ==> (other in r <==> other in rows)
  {
    if id in rows then rows - {id} else rows + {id}
  }

  lemma ToggleTwiceRestores(rows: set<string>, id: string)
    ensures Toggled(Toggled(rows, id), id) == rows
  {
  }

  class ComparisonTable {
    var sortBy: SortKey
    var sortOrder: SortOrder
    var expandedRows: set<string>

    constructor ()
      ensures sortBy == Suitability && sortOrder == Desc
      ensures expandedRows == {}
    {
      sortBy := Suitability;
      sortOrder := Desc;
      expandedRows := {};
    }

    function State(): SortState
      reads this
    {
      SortState(sortBy, sortOrder)
    }

    /** The rows as rendered: a sorted copy of the table's list. */
    function SortedCrops(): (r: seq<CropRecord>)
      reads this
      ensures r == SortCrops(MockCrops, sortBy, sortOrder)
      ensures multiset(r) == multiset(MockCrops) && |r| == |MockCrops|
      ensures forall i, j :: 0 <= i < j < |r| ==> Compare(r[i], r[j], sortBy, sortOrder) <= 0.0
    {
      SortCrops(MockCrops, sortBy, sortOrder)
    }

    method HandleSort(key: SortKey)
      modifies this
      ensures State() == NextSort(old(State()), key)
      ensures expandedRows == old(expandedRows)
    {
      if sortBy == key {
        sortOrder := if sortOrder == Asc then Desc else Asc;
      } else {
        sortBy := key;
        sortOrder := Desc;
      }
    }

    method ToggleRowExpansion(cropId: string)
      modifies this
      ensures expandedRows == Toggled(old(expandedRows), cropId)
      ensures State() == old(State())
    {
      var newExpanded := expandedRows;
      if cropId in newExpanded {
        newExpanded := newExpanded - {cropId};
      } else {
        newExpanded := newExpanded + {cropId};
      }
      expandedRows := newExpanded;
    }
  }

  /** The fertilizer levels compare as strings: High < Low < Medium. */
  lemma NeedNamesOrder()
    ensures LexCompare(NeedName(High), NeedName(Low)) < 0
    ensures LexCompare(NeedName(Low), NeedName(Medium)) < 0
  {
  }

  /** How the stable sort orders four rows when only the second one belongs first. */
  lemma {:induction false} SortFourSecondFirst(t: seq<CropRecord>, le: (CropRecord, CropRecord) -> bool)
    requires |t| == 4
    requires le(t[1], t[2]) && le(t[2], t[3]) && !le(t[0], t[1]) && le(t[0], t[2])
    ensures StableSort.Sort(t, le) == [t[1], t[0]] + t[2..]
  {
    StableSort.SortKeepsOrderedList(t[1..], le);
    assert t[1..] == [t[1]] + t[2..];
    StableSort.InsertAfterFirst(t[0], t[1], t[2..], le);
  }

  /** How the stable sort orders five rows when only the third one belongs first. */
  lemma {:induction false} SortFiveThirdFirst(m: seq<CropRecord>, le: (CropRecord, CropRecord) -> bool)
    requires |m| == 5
    requires le(m[2], m[3]) && le(m[3], m[4]) && !le(m[1], m[2]) && le(m[1], m[3]) && !le(m[0], m[2]) && le(m[0], m[1])
    ensures StableSort.Sort(m, le) == [m[2], m[0], m[1], m[3], m[4]]
  {
    var t := m[1..];
    SortFourSecondFirst(t, le);
    var rest := [t[0]] + t[2..];
    assert StableSort.Sort(t, le) == [t[1]] + rest;
    StableSort.InsertAfterFirst(m[0], t[1], rest, le);
    assert [t[1], m[0]] + rest == [m[2], m[0], m[1], m[3], m[4]];
  }

  /**
   * Sorting by fertilizer level, ascending: Sugarcane ("High") first, then the
   * four "Medium" crops in the order of the list.
   */
  lemma {:induction false} FertilizerNeedAscending()
    ensures SortCrops(MockCrops, FertilizerNeed, Asc) ==
      [MockCrops[2], MockCrops[0], MockCrops[1], MockCrops[3], MockCrops[4]]
  {
    var le := Precedes(FertilizerNeed, Asc);
    var m := MockCrops;
    NeedNamesOrder();
    LexCompareAntisymmetric(NeedName(High), NeedName(Medium));
    assert LexCompare(NeedName(Medium), NeedName(Medium)) == 0;
    assert le(m[2], m[3]) && le(m[3], m[4]) && !le(m[1], m[2]) && le(m[1], m[3]) && !le(m[0], m[2]) && le(m[0], m[1]);
    SortFiveThirdFirst(m, le);
  }
}

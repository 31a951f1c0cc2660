/**
 * The state picker: a fixed table of 26 Indian states with their
 * coordinates, a search box that filters the table case-insensitively, and
 * a dropdown from which a state is chosen as the location.
 */
module IndiaMap {
  import opened CropRecommendation
  import opened Text

  /** A state's name and its (latitude, longitude). */
  datatype StateEntry = StateEntry(name: string, coordinates: (real, real))

  const IndianStates: seq<StateEntry> := [
    StateEntry("Andhra Pradesh", (15.9129, 79.7400)),
    StateEntry("Assam", (26.2006, 92.9376)),
    StateEntry("Bihar", (25.0961, 85.3131)),
    StateEntry("Chhattisgarh", (21.2787, 81.8661)),
    StateEntry("Gujarat", (22.2587, 71.1924)),
    StateEntry("Haryana", (29.0588, 76.0856)),
    StateEntry("Himachal Pradesh", (31.1048, 77.1734)),
    StateEntry("Jharkhand", (23.6102, 85.2799)),
    StateEntry("Karnataka", (15.3173, 75.7139)),
    StateEntry("Kerala", (10.8505, 76.2711)),
    StateEntry("Madhya Pradesh", (22.9734, 78.6569)),
    StateEntry("Maharashtra", (19.7515, 75.7139)),
    StateEntry("Manipur", (24.6637, 93.9063)),
    StateEntry("Meghalaya", (25.4670, 91.3662)),
    StateEntry("Mizoram", (23.1645, 92.9376)),
    StateEntry("Nagaland", (26.1584, 94.5624)),
    StateEntry("Odisha", (20.9517, 85.0985)),
    StateEntry("Punjab", (31.1471, 75.3412)),
    StateEntry("Rajasthan", (27.0238, 74.2179)),
    StateEntry("Sikkim", (27.5330, 88.5122)),
    StateEntry("Tamil Nadu", (11.1271, 78.6569)),
    StateEntry("Telangana", (18.1124, 79.0193)),
    StateEntry("Tripura", (23.9408, 91.9882)),
    StateEntry("Uttar Pradesh", (26.8467, 80.9462)),
    StateEntry("Uttarakhand", (30.0668, 79.0193)),
    StateEntry("West Bengal", (22.9868, 87.8550))
  ]

  predicate ValidCoordinates(c: (real, real))
  {
    -90.0 <= c.0 <= 90.0 && -180.0 <= c.1 <= 180.0
  }

  lemma StatesHaveValidCoordinates()
    ensures |IndianStates| == 26
    ensures forall i :: 0 <= i < |IndianStates| ==> ValidCoordinates(IndianStates[i].coordinates)
  {
  }

  /** No state is listed twice, so a filtered list names each match once. */
  lemma StateNamesDistinct()
    ensures forall i, j :: 0 <= i < j < |IndianStates| ==> IndianStates[i].name != IndianStates[j].name
  {
  }

  /** The lower-cased name contains the lower-cased search term. */
  predicate Matches(s: StateEntry, term: string)
    ensures Matches(s, term) <==> exists i :: OccursAt(ToLower(s.name), ToLower(term), i)
    ensures term == [] ==> Matches(s, term)
  {
    IncludesIffOccurs(ToLower(s.name), ToLower(term));
    Includes(ToLower(s.name), ToLower(term))
  }

  /** `a` is `b` with some elements left out. */
  ghost predicate IsSubsequence<T>(a: seq<T>, b: seq<T>)
  {
    a == [] || (b != [] && ((a[0] == b[0] && IsSubsequence(a[1..], b[1..])) || IsSubsequence(a, b[1..])))
  }

  /** `states.filter(s => s.name.toLowerCase().includes(term.toLowerCase()))`. */
  function FilterStates(states: seq<StateEntry>, term: string): (r: seq<StateEntry>)
    ensures forall s :: s in r <==> s in states && Matches(s, term)
    ensures IsSubsequence(r, states)
  {
    if states == [] then []
    else
      var rest := FilterStates(states[1..], term);
      assert states == [states[0]] + states[1..];
      if Matches(states[0], term) then
        assert ([states[0]] + rest)[1..] == rest;
        [states[0]] + rest
      else rest
  }

  /** The filter sees the term only through its lower-cased form. */
  lemma {:induction false} FilterByLowerTerm(states: seq<StateEntry>, t1: string, t2: string)
    requires ToLower(t1) == ToLower(t2)
    ensures FilterStates(states, t1) == FilterStates(states, t2)
  {
    if states != [] {
      FilterByLowerTerm(states[1..], t1, t2);
    }
  }

  /** The search ignores the case of the term. */
  lemma {:induction false} FilterIgnoresCase(term: string, variant: string)
    requires CaseVariants(term, variant)
    ensures FilterStates(IndianStates, term) == FilterStates(IndianStates, variant)
  {
    CaseVariantsLowerEqual(term, variant);
    FilterByLowerTerm(IndianStates, term, variant);
  }

  /** Typing the term in capitals lists the same states. */
  lemma {:induction false} FilterUpperCase(term: string)
    ensures FilterStates(IndianStates, ToUpper(term)) == FilterStates(IndianStates, term)
  {
    UpperIsCaseVariant(term);
    FilterIgnoresCase(term, ToUpper(term));
  }

  class IndiaMapSection {
    var searchTerm: string
    var filteredStates: seq<StateEntry>
    var showDropdown: bool

    /** The listed states come from the table, and an open dropdown lists exactly the matches of the term. */
    ghost predicate Valid()
      reads this
    {
      && IsSubsequence(filteredStates, IndianStates)
      && (showDropdown ==> |searchTerm| > 0 && filteredStates == FilterStates(IndianStates, searchTerm))
    }

    constructor ()
      ensures Valid()
      ensures searchTerm == "" && filteredStates == [] && !showDropdown
    {
      searchTerm := "";
      filteredStates := [];
      showDropdown := false;
    }

    /** The dropdown is rendered: it is open and has something to list. */
    predicate DropdownVisible()
      reads this
      ensures Valid() && DropdownVisible() ==> |searchTerm| > 0
      ensures Valid() && DropdownVisible() ==> exists s :: s in IndianStates && Matches(s, searchTerm)
    {
      assert |filteredStates| > 0 ==> filteredStates[0] in filteredStates;
      showDropdown && |filteredStates| > 0
    }

    /** The states the dropdown offers: each one matches what was typed. */
    function DropdownStates(): (r: seq<StateEntry>)
      reads this
      requires Valid()
      ensures r != [] <==> DropdownVisible()
      ensures DropdownVisible() ==> r == FilterStates(IndianStates, searchTerm)
      ensures forall s :: s in r ==> s in IndianStates && Matches(s, searchTerm)
    {
      if DropdownVisible() then filteredStates else []
    }

    method HandleSearch(value: string)
      requires Valid()
      modifies this
      ensures Valid()
      ensures searchTerm == value
      ensures |value| > 0 ==> filteredStates == FilterStates(IndianStates, value) && showDropdown
      ensures |value| == 0 ==> filteredStates == old(filteredStates) && !showDropdown
    {
      searchTerm := value;
      if |value| > 0 {
        var filtered := FilterStates(IndianStates, value);
        filteredStates := filtered;
        showDropdown := true;
      } else {
        showDropdown := false;
      }
    }

    /** Reports the chosen state as a location, shows its name in the box and closes the dropdown. */
    method HandleStateSelect(state: StateEntry) returns (location: LocationData)
      requires Valid()
      modifies this
      ensures Valid()
      ensures location == LocationData(state.name, "District Center", state.coordinates)
      ensures searchTerm == state.name
      ensures !showDropdown && !DropdownVisible()
      ensures filteredStates == old(filteredStates)
    {
      location := LocationData(state.name, "District Center", state.coordinates);
      searchTerm := state.name;
      showDropdown := false;
    }
  }

  /** One of the quick buttons under the map, which offer the first six states of the table. */
  method QuickStateButton(section: IndiaMapSection, k: nat) returns (location: LocationData)
    requires section.Valid() && k < 6
    modifies section
    ensures section.Valid()
    ensures location == LocationData(IndianStates[k].name, "District Center", IndianStates[k].coordinates)
    ensures ValidCoordinates(location.coordinates)
    ensures section.searchTerm == IndianStates[k].name && !section.showDropdown
    ensures section.filteredStates == old(section.filteredStates)
  {
    StatesHaveValidCoordinates();
    location := section.HandleStateSelect(IndianStates[k]);
  }

  /** Choosing a state in the picker hands the page its location through `onLocationSelect`. */
  method SelectStateOnPage(section: IndiaMapSection, page: Page, state: StateEntry)
    requires section.Valid() && page.Valid()
    modifies section, page
    ensures section.Valid() && page.Valid()
    ensures section.searchTerm == state.name && !section.showDropdown
    ensures section.filteredStates == old(section.filteredStates)
    ensures page.selectedLocation == Some(LocationData(state.name, "District Center", state.coordinates))
    ensures page.InputsShown()
    ensures page.environmentalData == old(page.environmentalData) && page.showResults == old(page.showResults)
  {
    var location := section.HandleStateSelect(state);
    page.HandleLocationSelect(location);
  }
}

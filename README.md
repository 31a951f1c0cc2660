# Crop recommendation: a verified model

This project models the crop-recommendation flow of the agro-vista-spark web
app in Dafny. The flow has five parts:

- **The page** (`CropRecommendation`) holds the chosen location, the environmental
  inputs and whether results are shown. The inputs form appears once a location
  is chosen. The results appear once the "Get Crop Recommendations" button has been
  pressed with a location chosen.
- **The state picker** (`IndiaMap`) holds a table of 26 Indian states. It filters
  the table case-insensitively by the text typed in its search box. Choosing a
  state from the dropdown, or from one of the six quick buttons, reports it to
  the page as the location.
- **The inputs form** (`EnvironmentalInputs`) has a soil select, three sliders and an
  irrigation switch. Each control reports a copy of the record with one field
  replaced.
- **The results dashboard** (`ResultsDashboard`) scores four fixed crops.
  Each crop loses 20 points per unit of relative rainfall deviation and 15 per
  unit of relative sunlight deviation. With irrigation, crops that need more than
  1000 mm of rain gain 10 points. Each score is clamped to 0..100, and the list is
  sorted best first.
- **The comparison table** (`Comparison`) shows its own five crops. Clicking a
  column header sorts by that column: the same header flips the direction, and a
  new header starts descending. Rows can be expanded and collapsed.

Two shared modules support the rest:

- `StableSort` models `Array.prototype.sort`, which ECMAScript requires to be
  stable. It is an insertion sort driven by the comparator.
- `Text` models `localeCompare`, `toLowerCase` and `includes`.

JavaScript numbers are modelled as exact `real`s.

Component state is modelled as classes. `Page`, `IndiaMapSection` and
`ComparisonTable` have one field per `useState` hook, and the handlers are
methods that update those fields. The pure computations are functions. These are
the scorer, the comparator, the filter, the sort-state transition and the
`{ ...data, [key]: value }` update.

Four behaviours one might expect from a recommendation engine are not in the
code, so the model does not have them either:

- **No tie-break.** The code never breaks ties by a second key. Tied crops keep
  their list order because the sort is stable (`ResultsDashboard.TiesKeepBaseOrder`,
  `Comparison.SortCropsStable`).
- **No guard on the requirements.** The scorer divides by the rainfall and
  sunlight requirements unguarded; no crop is skipped or reported. The model
  makes positive requirements a precondition of the scorer (`Scorable`), and
  every built-in crop meets it.
- **No input validation.** Any numbers are accepted; only the final score is clamped.
- **Two crop lists.** The dashboard scores four crops and the table shows five.
  The table ignores the environment and sorts on unadjusted suitability.

## Model

| member | source | states |
|---|---|---|
| CropRecommendation.Page.constructor | src/pages/CropRecommendation.tsx:42-50 | no location, inputs Alluvial / 30 / 800 / 7 / no irrigation, results hidden |
| CropRecommendation.Page.InputsShown | src/pages/CropRecommendation.tsx:93 | under the page invariant, the inputs form is rendered whenever results are switched on |
| CropRecommendation.Page.ResultsShown | src/pages/CropRecommendation.tsx:93-103 | whenever the results are rendered, the inputs form is rendered too |
| CropRecommendation.Page.HandleLocationSelect | src/pages/CropRecommendation.tsx:52-54 | the reported location becomes the selection; inputs and results flag unchanged |
| CropRecommendation.Page.HandleGetRecommendations | src/pages/CropRecommendation.tsx:56-60 | results become shown exactly when a location is selected; never switched off; "results ⇒ location" is kept |
| CropRecommendation.Page.SetEnvironmentalData | src/pages/CropRecommendation.tsx:96 | the page takes the record the form reports; nothing else changes |
| CropRecommendation.SelectThenRequest | src/pages/CropRecommendation.tsx:52-60 | calling the handler without a location leaves the results flag off (`!before`); after a location is chosen it shows the results, and they stay shown after an input change (`after`) |
| ResultsDashboard.Clamp | src/components/crop-recommendation/ResultsDashboard.tsx:93 | the result lies in 0..100; values inside are kept, values below become 0, values above become 100 |
| ResultsDashboard.RainfallPenalty | src/components/crop-recommendation/ResultsDashboard.tsx:79-80 | the penalty is non-negative, and it is zero exactly when rainfall equals the requirement |
| ResultsDashboard.SunlightPenalty | src/components/crop-recommendation/ResultsDashboard.tsx:83-84 | the penalty is non-negative, and it is zero exactly when sunlight equals the requirement |
| ResultsDashboard.IrrigationBonus | src/components/crop-recommendation/ResultsDashboard.tsx:87-89 | the bonus is 0 or 10, and it is 10 exactly when irrigation is available and the crop needs more than 1000 mm of rain |
| ResultsDashboard.AdjustedSuitability | src/components/crop-recommendation/ResultsDashboard.tsx:76-93 | the adjusted score is within 0..100 for every input |
| ResultsDashboard.Adjust | src/components/crop-recommendation/ResultsDashboard.tsx:91-94 | the copy equals the crop in every field but suitability, which is within 0..100 |
| ResultsDashboard.AdjustAll | src/components/crop-recommendation/ResultsDashboard.tsx:75-94 | one result per crop, in list order; each equals its crop in every field but suitability, which is within 0..100 |
| ResultsDashboard.GenerateCropRecommendations | src/components/crop-recommendation/ResultsDashboard.tsx:14-96 | four results; a permutation of the adjusted base crops; each one is the adjustment of a base crop; scores in 0..100; scores non-increasing |
| ResultsDashboard.BySuitabilityIsTotalPreorder | src/components/crop-recommendation/ResultsDashboard.tsx:95 | the comparator `b.suitability - a.suitability` is total and transitive |
| ResultsDashboard.TiesKeepBaseOrder | src/components/crop-recommendation/ResultsDashboard.tsx:95 | crops with equal adjusted scores appear in base-list order |
| ResultsDashboard.TopPickIsBest | src/components/crop-recommendation/ResultsDashboard.tsx:95 | the first recommendation scores at least as high as every other |
| ResultsDashboard.LocationIsIgnored | src/components/crop-recommendation/ResultsDashboard.tsx:14-96 | the result does not depend on the location argument |
| ResultsDashboard.BonusEligibility | src/components/crop-recommendation/ResultsDashboard.tsx:87-89 | the bonus is 0 or 10; it is 10 exactly when irrigation is available and the crop is Rice or Sugarcane |
| ResultsDashboard.NoBonusNoGain | src/components/crop-recommendation/ResultsDashboard.tsx:76-93 | without the bonus, a crop never scores above its base suitability |
| ResultsDashboard.ExactConditionsNoPenalty | src/components/crop-recommendation/ResultsDashboard.tsx:79-84 | when rainfall and sunlight match the requirements, the score is the clamped base plus the bonus |
| ResultsDashboard.RiceScores | src/components/crop-recommendation/ResultsDashboard.tsx:15-93 | Rice under the initial inputs with irrigation scores 515/6 |
| ResultsDashboard.DefaultScores | src/components/crop-recommendation/ResultsDashboard.tsx:15-93 | under the initial inputs the four crops score 455/6, 214/3, 1459/24 and 529/8 |
| ResultsDashboard.DefaultRanking | src/components/crop-recommendation/ResultsDashboard.tsx:14-96 | under the initial inputs the ranking is Rice, Wheat, Cotton, Sugarcane |
| Comparison.PrecedesIsTotalPreorder | src/components/crop-recommendation/ComparisonTable.tsx:95-106 | for every key and direction the table's comparator is total and transitive |
| Comparison.Compare | src/components/crop-recommendation/ComparisonTable.tsx:95-106 | the comparator is 0 exactly when the two rows' key fields are equal; for a text key it is -1, 0 or 1 |
| Comparison.CompareNumericSign | src/components/crop-recommendation/ComparisonTable.tsx:99-100 | for a numeric key the comparator is negative exactly when the first value is smaller (ascending) or larger (descending) |
| Comparison.CompareAntisymmetric | src/components/crop-recommendation/ComparisonTable.tsx:95-106 | swapping the two rows negates the comparator, for every key and direction |
| Comparison.NumberComparatorIsTotalPreorder | src/components/crop-recommendation/ComparisonTable.tsx:99-100 | the comparator of a numeric column is total and transitive |
| Comparison.TextComparatorIsTotalPreorder | src/components/crop-recommendation/ComparisonTable.tsx:103-105 | the comparator of a text column is total and transitive |
| Comparison.SortCrops | src/components/crop-recommendation/ComparisonTable.tsx:95-106 | the result is a permutation; every pair compares at most 0; numeric keys are ordered by value and string keys by string order, ascending or descending as requested |
| Comparison.SortCropsStable | src/components/crop-recommendation/ComparisonTable.tsx:95-106 | rows whose keys compare equal keep their list order |
| Comparison.NextSort | src/components/crop-recommendation/ComparisonTable.tsx:108-115 | after a click the table sorts by the clicked key |
| Comparison.SameKeyTwiceRestores | src/components/crop-recommendation/ComparisonTable.tsx:109-110 | clicking the current key flips the direction; clicking it twice restores the state |
| Comparison.NewKeyStartsDescending | src/components/crop-recommendation/ComparisonTable.tsx:111-114 | clicking another key sorts by it in descending order |
| Comparison.SuitabilityOnlyInitially | src/components/crop-recommendation/ComparisonTable.tsx:145-214 | with only the header buttons, suitability is the key exactly when nothing has been clicked; the key is always a header key or suitability |
| Comparison.Toggled | src/components/crop-recommendation/ComparisonTable.tsx:117-125 | the clicked id flips membership; every other id keeps it |
| Comparison.ToggleTwiceRestores | src/components/crop-recommendation/ComparisonTable.tsx:117-125 | toggling the same row twice restores the expanded set |
| Comparison.ComparisonTable.constructor | src/components/crop-recommendation/ComparisonTable.tsx:91-93 | starts sorted by suitability, descending, with no row expanded |
| Comparison.ComparisonTable.SortedCrops | src/components/crop-recommendation/ComparisonTable.tsx:95-106 | the rendered rows are `SortCrops` of the five crops under the current key and direction: a permutation, each pair compares at most 0, and tied rows keep list order (`SortCropsStable`) |
| Comparison.ComparisonTable.HandleSort | src/components/crop-recommendation/ComparisonTable.tsx:108-115 | the sort state moves by the header transition; expanded rows unchanged |
| Comparison.ComparisonTable.ToggleRowExpansion | src/components/crop-recommendation/ComparisonTable.tsx:117-125 | the expanded set is toggled at the id; sort state unchanged |
| Comparison.NeedNamesOrder | src/components/crop-recommendation/ComparisonTable.tsx:103-105 | fertilizer levels sort as text: High before Low before Medium |
| Comparison.FertilizerNeedAscending | src/components/crop-recommendation/ComparisonTable.tsx:14-106 | sorting the five crops by fertilizer need ascending gives Sugarcane, Rice, Wheat, Cotton, Maize |
| StableSort.Sort | src/components/crop-recommendation/ComparisonTable.tsx:95 | the sorted list is a permutation of the input |
| StableSort.SortSorted | src/components/crop-recommendation/ComparisonTable.tsx:95 | with a consistent comparator every element may stand before every later one |
| StableSort.SortStable | src/components/crop-recommendation/ComparisonTable.tsx:95 | elements the comparator ties keep their input order |
| Text.LexCompare | src/components/crop-recommendation/ComparisonTable.tsx:103-105 | the result is -1, 0 or 1, and it is 0 exactly when the strings are equal |
| Text.LexCompareAntisymmetric | src/components/crop-recommendation/ComparisonTable.tsx:103-105 | swapping the strings negates the comparison |
| Text.LexCompareTransitive | src/components/crop-recommendation/ComparisonTable.tsx:103-105 | "not after" is transitive |
| Text.LowerChar | src/components/crop-recommendation/IndiaMapSection.tsx:54 | ASCII capitals map to their lower-case letters; every other character is kept |
| Text.ToLower | src/components/crop-recommendation/IndiaMapSection.tsx:54 | same length; each ASCII capital becomes its small letter, every other character is kept, and no ASCII capital remains |
| Text.Includes | src/components/crop-recommendation/IndiaMapSection.tsx:54 | a match at the start is found; the empty needle is always found; a needle longer than the text never is |
| Text.CaseVariantsLowerEqual | src/components/crop-recommendation/IndiaMapSection.tsx:54 | strings that differ only in letter case lower-case to the same string |
| Text.IncludesIffOccurs | src/components/crop-recommendation/IndiaMapSection.tsx:54 | `includes` holds exactly when the needle occurs at some position |
| IndiaMap.StatesHaveValidCoordinates | src/components/crop-recommendation/IndiaMapSection.tsx:13-40 | there are 26 states, each with a valid latitude and longitude |
| IndiaMap.StateNamesDistinct | src/components/crop-recommendation/IndiaMapSection.tsx:13-40 | no two entries of the table share a name, so the filter's "kept iff it matches, in table order" fixes its result |
| IndiaMap.Matches | src/components/crop-recommendation/IndiaMapSection.tsx:54 | a state matches exactly when the lower-cased term occurs somewhere in its lower-cased name; the empty term matches every state |
| IndiaMap.FilterStates | src/components/crop-recommendation/IndiaMapSection.tsx:53-55 | a state is kept exactly when its lower-cased name contains the lower-cased term; table order is kept |
| IndiaMap.FilterByLowerTerm | src/components/crop-recommendation/IndiaMapSection.tsx:53-55 | terms with the same lower-case form filter alike |
| IndiaMap.FilterIgnoresCase | src/components/crop-recommendation/IndiaMapSection.tsx:53-55 | terms that differ only in letter case list the same states |
| IndiaMap.FilterUpperCase | src/components/crop-recommendation/IndiaMapSection.tsx:53-55 | an upper-cased term lists the same states as the term |
| IndiaMap.IndiaMapSection.constructor | src/components/crop-recommendation/IndiaMapSection.tsx:46-48 | empty term, empty list, dropdown closed |
| IndiaMap.IndiaMapSection.DropdownVisible | src/components/crop-recommendation/IndiaMapSection.tsx:95 | a visible dropdown means a non-empty term that some state of the table matches |
| IndiaMap.IndiaMapSection.DropdownStates | src/components/crop-recommendation/IndiaMapSection.tsx:95-101 | the dropdown lists something exactly when it is visible; when visible it lists exactly the states matching the term, in table order; every listed state is in the table and matches the term |
| IndiaMap.IndiaMapSection.HandleSearch | src/components/crop-recommendation/IndiaMapSection.tsx:50-61 | the term is stored; a non-empty term lists its matches and opens the dropdown; an empty term closes it and keeps the old list |
| IndiaMap.IndiaMapSection.HandleStateSelect | src/components/crop-recommendation/IndiaMapSection.tsx:63-71 | reports the state as a location at "District Center", shows its name and closes the dropdown |
| IndiaMap.QuickStateButton | src/components/crop-recommendation/IndiaMapSection.tsx:171-176 | button k (k < 6) reports the k-th state of the table at "District Center" with that state's own coordinates, which are valid; the box shows its name, the dropdown closes and the list is kept |
| IndiaMap.SelectStateOnPage | src/components/crop-recommendation/IndiaMapSection.tsx:63-71 | choosing a state makes it the page's location and brings up the inputs form; the box shows its name, the dropdown closes and the list is kept; the page's inputs and results flag are unchanged |
| EnvironmentalInputs.HandleChange | src/components/crop-recommendation/EnvironmentalInputs.tsx:23-25 | the reported field holds the new value and every other field is unchanged |
| EnvironmentalInputs.ChangeIsDetermined | src/components/crop-recommendation/EnvironmentalInputs.tsx:23-25 | those two properties determine the new record uniquely |
| EnvironmentalInputs.LastChangeWins | src/components/crop-recommendation/EnvironmentalInputs.tsx:23-25 | a later report on the same field overrides an earlier one |
| EnvironmentalInputs.ChangesOnDifferentFieldsCommute | src/components/crop-recommendation/EnvironmentalInputs.tsx:23-25 | reports on different fields commute |
| EnvironmentalInputs.DefaultIsInDomain | src/pages/CropRecommendation.tsx:43-49 | the initial inputs are values the controls can produce |
| EnvironmentalInputs.ChangePreservesDomain | src/components/crop-recommendation/EnvironmentalInputs.tsx:47-138 | a report within its control's range keeps every field within range |
| EnvironmentalInputs.ChangeOnPage | src/components/crop-recommendation/EnvironmentalInputs.tsx:23-25 | the page ends up with the reported copy; its location and results flag are unchanged |

## Left out

- Rendering, animations, icons, toasts, the map graphics and the action buttons (PDF, print, share) are not part of this model. They do not change the modelled state.
- `ResultsDashboard` computes its list once, in a `useState` initialiser, on mount. The model gives the list as a function of the inputs. It does not capture that later input changes leave an already-mounted dashboard's list as it was.
- JavaScript numbers are modelled as exact reals. IEEE-754 rounding, and the `Math.round`/`toFixed` used only for display, are not modelled.
- Text.LexCompare: compares strings by code point. `localeCompare` uses locale collation, which can order letter case, punctuation and digits differently. For the fertilizer levels (High, Low, Medium) the two orders agree.
- Text.LowerChar: lowers only the ASCII letters A-Z. `toLowerCase` follows full Unicode case mapping, and every state name and the search terms that matter here are ASCII.
- EnvironmentalInputs.HandleChange: `handleChange` takes any key with a value of type `any`. The model accepts only the five well-typed field reports the controls send.
- EnvironmentalInputs.ChangePreservesDomain: the slider ranges and steps are properties of the widgets. The page does not check them; the model states them as a domain rather than enforcing them.
- The scorer's division by zero for a non-positive requirement cannot occur with the built-in crops. The model requires positive requirements instead of modelling `Infinity`/`NaN`.
- The `location` and `environmentalData` props of the comparison table are unused by its code and are not modelled.
- The other pages and components of the app (dashboard, impact, farm map, navigation and the rest) are not part of this model.

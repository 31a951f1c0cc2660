/**
 * The crop-recommendation page: the records the flow passes around and the
 * page's own state (the chosen location, the environmental inputs and
 * whether the results are shown).
 */
module CropRecommendation {

  datatype Option<T> = None | Some(value: T)

  /** A place picked on the map; coordinates are (latitude, longitude). */
  datatype LocationData = LocationData(state: string, district: string, coordinates: (real, real))

  datatype EnvironmentalData = EnvironmentalData(
    soilType: string,
    soilMoisture: real,
    rainfall: real,
    sunlight: real,
    irrigationAvailable: bool)

  /** The three fertilizer levels a crop record may carry. */
  datatype NeedLevel = Low | Medium | High

  /** The text of a fertilizer level, which is what the comparison table sorts on. */
  function NeedName(n: NeedLevel): string
  {
    match n
    case Low => "Low"
    case Medium => "Medium"
    case High => "High"
  }

  /** One crop with its requirements, economics and suitability (0-100). */
  datatype CropRecord = CropRecord(
    id: string,
    name: string,
    image: string,
    fertilizerNeed: NeedLevel,
    sunlightRequirement: real,
    rainfallRequirement: real,
    soilHumidity: real,
    profitForecast: real,
    cropYield: real,
    msp: real,
    fertilizerType: string,
    suitability: real)

  /** The environmental inputs the page starts with. */
  const DefaultEnvironment := EnvironmentalData("Alluvial", 30.0, 800.0, 7.0, false)

  class Page {
    var selectedLocation: Option<LocationData>
    var environmentalData: EnvironmentalData
    var showResults: bool

    /** Results are only ever switched on once a location is chosen. */
    ghost predicate Valid()
      reads this
    {
      showResults ==> selectedLocation.Some?
    }

    constructor ()
      ensures Valid()
      ensures selectedLocation == None
      ensures environmentalData == DefaultEnvironment
      ensures !showResults
    {
      selectedLocation := None;
      environmentalData := DefaultEnvironment;
      showResults := false;
    }

    /** The environmental inputs section is rendered. */
    predicate InputsShown()
      reads this
      ensures Valid() && showResults ==> InputsShown()
    {
      selectedLocation.Some?
    }

    /** The results dashboard, comparison table and actions are rendered. */
    predicate ResultsShown()
      reads this
      ensures ResultsShown() ==> InputsShown()
    {
      showResults && selectedLocation.Some?
    }

    /** What the location picker reports replaces the chosen location. */
    method HandleLocationSelect(location: LocationData)
      requires Valid()
      modifies this
      ensures Valid()
      ensures selectedLocation == Some(location)
      ensures environmentalData == old(environmentalData)
      ensures showResults == old(showResults)
    {
      selectedLocation := Some(location);
    }

    /** The "Get Crop Recommendations" button: shows the results once a location is chosen. */
    method HandleGetRecommendations()
      requires Valid()
      modifies this
      ensures Valid()
      ensures showResults == (old(showResults) || old(selectedLocation).Some?)
      ensures selectedLocation == old(selectedLocation)
      ensures environmentalData == old(environmentalData)
    {
      if selectedLocation.Some? {
        showResults := true;
      }
    }

    /** The inputs form's `onChange`: the page takes the record it is given. */
    method SetEnvironmentalData(data: EnvironmentalData)
      requires Valid()
      modifies this
      ensures Valid()
      ensures environmentalData == data
      ensures selectedLocation == old(selectedLocation)
      ensures showResults == old(showResults)
    {
      environmentalData := data;
    }
  }

  /**
   * The "Get Crop Recommendations" handler called with no location changes
   * nothing; once a location is chosen it shows the results, and a later
   * input change keeps them shown.
   */
  method SelectThenRequest(location: LocationData) returns (before: bool, after: bool)
    ensures !before && after
  {
    var page := new Page();
    page.HandleGetRecommendations();
    before := page.showResults;
    page.HandleLocationSelect(location);
    page.HandleGetRecommendations();
    page.SetEnvironmentalData(DefaultEnvironment.(irrigationAvailable := true));
    after := page.ResultsShown();
  }
}

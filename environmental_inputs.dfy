/**
 * The environmental inputs form: a soil-type select, three sliders and an
 * irrigation switch. Each control reports one field, and the form hands the
 * page a copy of the record with that field replaced.
 */
module EnvironmentalInputs {
  import opened CropRecommendation

  /** A control's report: the field it edits together with the new value. */
  datatype Change =
    | SoilType(soilType: string)
    | SoilMoisture(moisture: real)
    | Rainfall(rainfall: real)
    | Sunlight(hours: real)
    | IrrigationAvailable(available: bool)

  /** The record holds the value `c` reports, in the field `c` names. */
  predicate Holds(d: EnvironmentalData, c: Change)
  {
    match c
    case SoilType(v) => d.soilType == v
    case SoilMoisture(v) => d.soilMoisture == v
    case Rainfall(v) => d.rainfall == v
    case Sunlight(v) => d.sunlight == v
    case IrrigationAvailable(v) => d.irrigationAvailable == v
  }

  /** `a` and `b` agree on every field except, possibly, the one `c` names. */
  predicate AgreeElsewhere(a: EnvironmentalData, b: EnvironmentalData, c: Change)
  {
    && (c.SoilType? || a.soilType == b.soilType)
    && (c.SoilMoisture? || a.soilMoisture == b.soilMoisture)
    && (c.Rainfall? || a.rainfall == b.rainfall)
    && (c.Sunlight? || a.sunlight == b.sunlight)
    && (c.IrrigationAvailable? || a.irrigationAvailable == b.irrigationAvailable)
  }

  /** `{ ...data, [key]: value }`: a new record; `data` itself is a value and stays as it was. */
  function HandleChange(data: EnvironmentalData, c: Change): (r: EnvironmentalData)
    ensures Holds(r, c)
    ensures AgreeElsewhere(data, r, c)
  {
    match c
    case SoilType(v) => data.(soilType := v)
    case SoilMoisture(v) => data.(soilMoisture := v)
    case Rainfall(v) => data.(rainfall := v)
    case Sunlight(v) => data.(sunlight := v)
    case IrrigationAvailable(v) => data.(irrigationAvailable := v)
  }

  /** The two properties above leave exactly one possible record. */
  lemma ChangeIsDetermined(data: EnvironmentalData, c: Change, r: EnvironmentalData)
    requires Holds(r, c) && AgreeElsewhere(data, r, c)
    ensures r == HandleChange(data, c)
  {
  }

  /** A later report on the same field overrides an earlier one. */
  lemma LastChangeWins(data: EnvironmentalData, c1: Change, c2: Change)
    requires c1.SoilType? == c2.SoilType? && c1.SoilMoisture? == c2.SoilMoisture?
    requires c1.Rainfall? == c2.Rainfall? && c1.Sunlight? == c2.Sunlight?
    ensures HandleChange(HandleChange(data, c1), c2) == HandleChange(data, c2)
  {
  }

  /** Reports on different fields can be applied in either order. */
  lemma ChangesOnDifferentFieldsCommute(data: EnvironmentalData, c1: Change, c2: Change)
    requires !(c1.SoilType? && c2.SoilType?) && !(c1.SoilMoisture? && c2.SoilMoisture?)
    requires !(c1.Rainfall? && c2.Rainfall?) && !(c1.Sunlight? && c2.Sunlight?)
    requires !(c1.IrrigationAvailable? && c2.IrrigationAvailable?)
    ensures HandleChange(HandleChange(data, c1), c2) == HandleChange(HandleChange(data, c2), c1)
  {
  }

  const SoilTypes: seq<string> := ["Alluvial", "Black", "Red", "Sandy", "Loamy"]

  /** `x` is a whole number of `step`s. */
  predicate OnStep(x: real, step: real)
    requires step > 0.0
  {
    (x / step).Floor as real == x / step
  }

  /** A value the control for `c` can produce. */
  predicate ChangeInDomain(c: Change)
  {
    match c
    case SoilType(v) => v in SoilTypes
    case SoilMoisture(v) => 0.0 <= v <= 100.0 && OnStep(v, 1.0)
    case Rainfall(v) => 100.0 <= v <= 2000.0 && OnStep(v, 10.0)
    case Sunlight(v) => 3.0 <= v <= 12.0 && OnStep(v, 0.5)
    case IrrigationAvailable(v) => true
  }

  /** Every field holds a value its control can produce. */
  predicate InDomain(d: EnvironmentalData)
  {
    && ChangeInDomain(SoilType(d.soilType))
    && ChangeInDomain(SoilMoisture(d.soilMoisture))
    && ChangeInDomain(Rainfall(d.rainfall))
    && ChangeInDomain(Sunlight(d.sunlight))
  }

  lemma DefaultIsInDomain()
    ensures InDomain(DefaultEnvironment)
  {
  }

  /** Using the controls never leaves their domain. */
  lemma ChangePreservesDomain(data: EnvironmentalData, c: Change)
    requires InDomain(data) && ChangeInDomain(c)
    ensures InDomain(HandleChange(data, c))
  {
  }

  /** A control on the form reports a value: the page receives the updated copy through `onChange`. */
  method ChangeOnPage(page: Page, c: Change)
    requires page.Valid()
    modifies page
    ensures page.Valid()
    ensures page.environmentalData == HandleChange(old(page.environmentalData), c)
    ensures page.selectedLocation == old(page.selectedLocation) && page.showResults == old(page.showResults)
  {
    page.SetEnvironmentalData(HandleChange(page.environmentalData, c));
  }
}

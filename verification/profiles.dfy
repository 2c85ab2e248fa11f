/** The saved brewing configuration and the bounds of the form's sliders. */
module Profiles {
  import opened Wrappers

  /** Bounds of the temperature slider (degrees Celsius). */
  const TemperatureMin: int := 70
  const TemperatureMax: int := 100

  /** Bounds of the grind-size slider. */
  const GrindSizeMin: int := 0
  const GrindSizeMax: int := 30

  /** The values offered by the taste selector: the placeholder and three verdicts. */
  const TasteOptions: set<string> := {"", "good", "bitter", "sour"}

  /** One saved profile. The name is optional because the record type lets it
      be missing from data read back from the store; a profile built by the
      form always carries one, possibly empty. There is no suggestion field. */
  datatype CoffeeProfile = CoffeeProfile(
    temperature: int,
    grindSize: int,
    taste: string,
    coffeeName: Option<string>
  )

  predicate TemperatureInRange(t: int) {
    TemperatureMin <= t <= TemperatureMax
  }

  predicate GrindSizeInRange(g: int) {
    GrindSizeMin <= g <= GrindSizeMax
  }
}

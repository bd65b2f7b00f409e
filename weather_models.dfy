/**
 * The result shape the weather service hands to its clients
 * (iasset.services.weather/Models/DataModel.cs).
 */
module WeatherModels {

  /** A .NET reference that may be null: a string parameter, a property, an XML node value. */
  datatype Nullable<+T> = Null | NonNull(value: T)

  /**
   * WeatherInfo: thirteen string properties, each of which may be null in .NET.
   * The constructor lists them in the order DataModel.cs declares them.
   */
  datatype WeatherInfo = WeatherInfo(
    weather: Nullable<string>,
    dataSource: Nullable<string>,
    location: Nullable<string>,
    time: Nullable<string>,
    wind: Nullable<string>,
    visibility: Nullable<string>,
    skyConditions: Nullable<string>,
    temperature: Nullable<string>,
    dewPoint: Nullable<string>,
    relativeHumidity: Nullable<string>,
    pressure: Nullable<string>,
    iconUri: Nullable<string>,
    precipitation: Nullable<string>)
}

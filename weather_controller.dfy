/**
 * The request-handling core of the weather web API
 * (iasset.services.weather/Controllers/WeatherController.cs).
 *
 * The two external services are inputs: the city directory and the primary
 * forecast source (GlobalWeather) and the secondary one (OpenWeatherMap) are
 * given as the replies they produced; the clock is given as the text
 * DateTime.UtcNow renders to; the comparer of SortedList as `less`.
 * An HttpResponseException that an action throws is its Failed result.
 */
module WeatherController {
  import opened WeatherModels
  import opened SortedLists

  // ---------------------------------------------------------------------------
  // Responses and errors
  // ---------------------------------------------------------------------------

  /** The HttpResponseException thrown for a 400 Bad Request: its content and reason phrase. */
  datatype HttpError = BadRequest(content: string, reasonPhrase: string)

  /** What an action produces: Ok(value) (HTTP 200) or the Bad Request it throws. */
  datatype Response<T> = Ok(value: T) | Failed(error: HttpError)

  /** The outcome of a check that returns nothing or throws. */
  datatype Check = Pass | Reject(error: HttpError)

  /** Code inside a try block either returns a value or throws. */
  datatype Outcome<T> = Returned(value: T) | Threw

  const MaxNameLength := 100
  const GenericMessage := "An error occured while processing your request"

  /** The catch blocks' response: a fixed message, never the exception's detail. */
  function GenericError(): HttpError {
    BadRequest(GenericMessage, GenericMessage)
  }

  function EmptyNameError(entity: string): HttpError {
    BadRequest("Cannot search for " + entity + " using empty string input", "Empty string value is not permitted")
  }

  function LongNameError(entity: string): HttpError {
    BadRequest(entity + "'s name exceeds more than 100 characters", "Input string was out of range")
  }

  /** string.Format renders a null argument as the empty string. */
  function FormatArg(s: Nullable<string>): string {
    if s.Null? then "" else s.value
  }

  function NotInCountryError(cityName: Nullable<string>, countryName: Nullable<string>): HttpError {
    BadRequest("The city " + FormatArg(cityName) + " does not belong to country " + FormatArg(countryName),
               "Invalid input query")
  }

  // ---------------------------------------------------------------------------
  // Input filter
  // ---------------------------------------------------------------------------

  /** The server's input rule: present, not empty, at most 100 characters. */
  predicate ValidName(name: Nullable<string>) {
    name.NonNull? && 0 < |name.value| <= MaxNameLength
  }

  /**
   * FilterCountryOrCityName: a null or empty name is refused first, then one
   * longer than 100 characters; each refusal names the entity in its message.
   */
  function FilterCountryOrCityName(name: Nullable<string>, entity: string): (c: Check)
    ensures c.Pass? <==> ValidName(name)
    ensures name.Null? || name.value == "" ==> c == Reject(EmptyNameError(entity))
    ensures name.NonNull? && |name.value| > MaxNameLength ==> c == Reject(LongNameError(entity))
  {
    if name.Null? || name.value == "" then Reject(EmptyNameError(entity))
    else if |name.value| > MaxNameLength then Reject(LongNameError(entity))
    else Pass
  }

  // ---------------------------------------------------------------------------
  // City list
  // ---------------------------------------------------------------------------

  /**
   * What the directory call and the walk over its XML reply yield: the city of
   * each Table node in document order, or a failure when the proxy call,
   * LoadXml or the walk to a node's city text throws.
   */
  datatype DirectoryReply = DirectoryFailure | Cities(cities: seq<string>)

  /** A reply the city list can be built from: SortedList.Add throws on a repeated city. */
  predicate DirectoryUsable(directory: DirectoryReply) {
    directory.Cities? && Distinct(directory.cities)
  }

  /** Appending a string not yet present keeps a sequence free of repeats. */
  lemma DistinctSnoc(s: seq<string>, x: string)
    requires Distinct(s) && x !in s
    ensures Distinct(s + [x])
  {
  }

  /**
   * GetCitiesByCountryName: filter the country, then add every city of the
   * reply to a SortedList and return its keys. A repeated city or a failing
   * directory gives the generic error; otherwise the result holds exactly the
   * reply's cities in strictly ascending order (an empty reply gives Ok([])).
   */
  method GetCitiesByCountryName(countryName: Nullable<string>, directory: DirectoryReply,
                                less: (string, string) -> bool)
    returns (r: Response<seq<string>>)
    requires StrictTotalOrder(less)
    ensures !ValidName(countryName) ==> r == Failed(FilterCountryOrCityName(countryName, "Country").error)
    ensures ValidName(countryName) && !DirectoryUsable(directory) ==> r == Failed(GenericError())
    ensures ValidName(countryName) && DirectoryUsable(directory) ==>
              r.Ok? && StrictlyAscending(r.value, less) && multiset(r.value) == multiset(directory.cities)
  {
    var filter := FilterCountryOrCityName(countryName, "Country");
    if filter.Reject? {
      return Failed(filter.error);
    }
    var cities := new SortedList(less);
    match directory
    case DirectoryFailure =>
      return Failed(GenericError());
    case Cities(replyCities) =>
      var i := 0;
      while i < |replyCities|
        invariant 0 <= i <= |replyCities|
        invariant cities.Valid() && cities.less == less
        invariant multiset(cities.keys) == multiset(replyCities[..i])
        invariant Distinct(replyCities[..i])
      {
        var added := cities.Add(replyCities[i]);
        if !added {
          assert replyCities[i] in multiset(replyCities[..i]);
          var j :| 0 <= j < i && replyCities[j] == replyCities[i];
          assert !Distinct(replyCities);
          return Failed(GenericError());
        }
        assert replyCities[i] !in multiset(replyCities[..i]);
        DistinctSnoc(replyCities[..i], replyCities[i]);
        assert replyCities[..i + 1] == replyCities[..i] + [replyCities[i]];
        i := i + 1;
      }
      assert replyCities[..i] == replyCities;
      return Ok(cities.keys);
  }

  /**
   * Two calls with the same country against an unchanged directory return the
   * same response: the sorted list depends only on the set of cities.
   */
  method CityListIsRepeatable(countryName: Nullable<string>, directory: DirectoryReply,
                              less: (string, string) -> bool)
    returns (first: Response<seq<string>>, second: Response<seq<string>>)
    requires StrictTotalOrder(less)
    ensures first == second
  {
    first := GetCitiesByCountryName(countryName, directory, less);
    second := GetCitiesByCountryName(countryName, directory, less);
    if first.Ok? {
      forall x ensures x in first.value <==> x in second.value {
        assert x in first.value <==> x in multiset(first.value);
        assert x in second.value <==> x in multiset(second.value);
      }
      AscendingUnique(first.value, second.value, less);
    }
  }

  /**
   * ValidateCityCountry: fetch the country's city list (its failure propagates
   * unchanged, as this check runs outside any try) and accept only a city
   * that is exactly one of the listed names.
   */
  method ValidateCityCountry(cityName: Nullable<string>, countryName: Nullable<string>,
                             directory: DirectoryReply, less: (string, string) -> bool)
    returns (c: Check)
    requires StrictTotalOrder(less)
    ensures !ValidName(countryName) ==> c == Reject(FilterCountryOrCityName(countryName, "Country").error)
    ensures ValidName(countryName) && !DirectoryUsable(directory) ==> c == Reject(GenericError())
    ensures ValidName(countryName) && DirectoryUsable(directory) ==>
              (c.Pass? <==> cityName.NonNull? && cityName.value in directory.cities)
    ensures ValidName(countryName) && DirectoryUsable(directory) && c.Reject? ==>
              c.error == NotInCountryError(cityName, countryName)
  {
    var cities := GetCitiesByCountryName(countryName, directory, less);
    if cities.Failed? {
      return Reject(cities.error);
    }
    if cityName.Null? || cityName.value !in cities.value {
      assert cityName.NonNull? ==> (cityName.value in cities.value <==> cityName.value in multiset(cities.value));
      return Reject(NotInCountryError(cityName, countryName));
    }
    assert cityName.value in multiset(directory.cities);
    return Pass;
  }

  // ---------------------------------------------------------------------------
  // Forecast sources and the WeatherInfo they are turned into
  // ---------------------------------------------------------------------------

  /**
   * The Table node of the primary source's XML reply: for each child element
   * name, the Value XmlNode reports for that element (which may be null).
   */
  type WeatherTable = map<string, Nullable<string>>

  /**
   * What GlobalWeather.GetWeather yields: the call threw, or it returned a
   * (possibly null) text together with the Table node LoadXml and
   * SelectSingleNode find in it (Null when the text is not XML or has none).
   */
  datatype SourceAReply =
    | SourceAThrew
    | SourceAResult(text: Nullable<string>, table: Nullable<WeatherTable>)

  /**
   * The CurrentWeatherResponse values WeatherInfoFromOWM reads, each as the
   * text ToString() renders it to (the time already converted to UTC and
   * formatted as yyyy-MM-dd HH:mm:ss).
   */
  datatype OwmResponse = OwmResponse(
    cityName: string,
    pressureValue: string, pressureUnit: string,
    temperatureValue: string,
    lastUpdateUtc: string,
    cloudsName: string,
    precipitationValue: string, precipitationUnit: string,
    weatherValue: string, weatherIcon: string,
    humidityValue: string, humidityUnit: string,
    windSpeedName: string, windSpeedValue: string, windDirectionName: string)

  /** What OpenWeatherMapClient.CurrentWeather.GetByName yields. */
  datatype OwmReply = OwmThrew | OwmNull | OwmResult(response: OwmResponse)

  const NotFoundSentinel := "Data Not Found"
  const IassetSource := "iasset Weather API"
  const OwmSource := "Open Weather Map"
  const FakeSource := "Fake Weather Service"
  const NoData := "No Data"
  const OwmIconBase := "http://openweathermap.org/img/w/"

  /** The primary source has nothing for the query: a null reply or the sentinel text. */
  predicate SourceAHasNoData(a: SourceAReply) {
    a.SourceAResult? && (a.text.Null? || a.text.value == NotFoundSentinel)
  }

  /** Every one of the thirteen properties is set. */
  predicate NoNullProperty(info: WeatherInfo) {
    && info.weather.NonNull? && info.dataSource.NonNull? && info.location.NonNull?
    && info.time.NonNull? && info.wind.NonNull? && info.visibility.NonNull?
    && info.skyConditions.NonNull? && info.temperature.NonNull? && info.dewPoint.NonNull?
    && info.relativeHumidity.NonNull? && info.pressure.NonNull? && info.iconUri.NonNull?
    && info.precipitation.NonNull?
  }

  /** The property of WeatherInfo called `name`; Null for a name that is not one. */
  function Property(info: WeatherInfo, name: string): Nullable<string> {
    if name == "Weather" then info.weather
    else if name == "DataSource" then info.dataSource
    else if name == "Location" then info.location
    else if name == "Time" then info.time
    else if name == "Wind" then info.wind
    else if name == "Visibility" then info.visibility
    else if name == "SkyConditions" then info.skyConditions
    else if name == "Temperature" then info.temperature
    else if name == "DewPoint" then info.dewPoint
    else if name == "RelativeHumidity" then info.relativeHumidity
    else if name == "Pressure" then info.pressure
    else if name == "IconUri" then info.iconUri
    else if name == "Precipitation" then info.precipitation
    else Null
  }

  /** The elements WeatherInfoFromIasset reads from the Table node. */
  const IassetElements: set<string> :=
    {"Location", "Pressure", "Temperature", "Time", "SkyConditions", "Precipitation",
     "Weather", "IconUri", "DewPoint", "RelativeHumidity", "Visibility", "Wind"}

  /**
   * FakeWeatherInfo: the placeholder used when neither source has data. Every
   * property is set, it is tagged so that it cannot pass for a measurement,
   * and it names the requested city.
   */
  function FakeWeatherInfo(cityName: string, now: string): (info: WeatherInfo)
    ensures NoNullProperty(info)
    ensures info.dataSource == NonNull(FakeSource)
    ensures info.location == NonNull(cityName) && info.time == NonNull(now)
    ensures info.dewPoint == NonNull(NoData) && info.visibility == NonNull(NoData)
    ensures info.pressure == NonNull("1014 hpa") && info.temperature == NonNull("23 C")
    ensures info.skyConditions == NonNull("Sunny") && info.weather == NonNull("Sunny")
    ensures info.precipitation == NonNull("0") && info.relativeHumidity == NonNull("70%")
    ensures info.wind == NonNull("1.5 m/s")
  {
    WeatherInfo(
      weather := NonNull("Sunny"),
      dataSource := NonNull(FakeSource),
      location := NonNull(cityName),
      time := NonNull(now),
      wind := NonNull("1.5 m/s"),
      visibility := NonNull(NoData),
      skyConditions := NonNull("Sunny"),
      temperature := NonNull("23 C"),
      dewPoint := NonNull(NoData),
      relativeHumidity := NonNull("70%"),
      pressure := NonNull("1014 hpa"),
      iconUri := NonNull(OwmIconBase + "01d.png"),
      precipitation := NonNull("0"))
  }

  /** The placeholder's readings are fixed: two placeholders differ only in Location and Time. */
  lemma FakeReadingsAreFixed(city1: string, city2: string, now1: string, now2: string)
    ensures FakeWeatherInfo(city1, now1).(location := NonNull(city2), time := NonNull(now2))
            == FakeWeatherInfo(city2, now2)
  {
  }

  /**
   * WeatherInfoFromOWM: every property set, tagged Open Weather Map, the
   * location taken from the response's city, "No Data" for the dew point and
   * visibility OpenWeatherMap does not report, the icon under its image path.
   */
  function WeatherInfoFromOWM(w: OwmResponse): (info: WeatherInfo)
    ensures NoNullProperty(info)
    ensures info.dataSource == NonNull(OwmSource)
    ensures info.location == NonNull(w.cityName) && info.time == NonNull(w.lastUpdateUtc)
    ensures info.dewPoint == NonNull(NoData) && info.visibility == NonNull(NoData)
    ensures OwmIconBase <= info.iconUri.value
  {
    WeatherInfo(
      weather := NonNull(w.weatherValue),
      dataSource := NonNull(OwmSource),
      location := NonNull(w.cityName),
      time := NonNull(w.lastUpdateUtc),
      wind := NonNull(w.windSpeedName + " " + w.windSpeedValue + "m/s, " + w.windDirectionName),
      visibility := NonNull(NoData),
      skyConditions := NonNull(w.cloudsName),
      temperature := NonNull(w.temperatureValue + " C"),
      dewPoint := NonNull(NoData),
      relativeHumidity := NonNull(w.humidityValue + w.humidityUnit),
      pressure := NonNull(w.pressureValue + " " + w.pressureUnit),
      iconUri := NonNull(OwmIconBase + w.weatherIcon + ".png"),
      precipitation := NonNull(w.precipitationValue + " " + w.precipitationUnit))
  }

  /**
   * WeatherInfoFromIasset: reading an element the Table node lacks (or the
   * Table node itself missing) throws; otherwise each property is the value
   * of the element of the same name, and the result is tagged iasset.
   */
  function WeatherInfoFromIasset(table: Nullable<WeatherTable>): (r: Outcome<WeatherInfo>)
    ensures r.Returned? <==> table.NonNull? && IassetElements <= table.value.Keys
    ensures r.Returned? ==> r.value.dataSource == NonNull(IassetSource)
    ensures r.Returned? ==> forall name :: name in IassetElements ==> Property(r.value, name) == table.value[name]
  {
    if table.Null? || !(IassetElements <= table.value.Keys) then Threw
    else
      var t := table.value;
      Returned(WeatherInfo(
        weather := t["Weather"],
        dataSource := NonNull(IassetSource),
        location := t["Location"],
        time := t["Time"],
        wind := t["Wind"],
        visibility := t["Visibility"],
        skyConditions := t["SkyConditions"],
        temperature := t["Temperature"],
        dewPoint := t["DewPoint"],
        relativeHumidity := t["RelativeHumidity"],
        pressure := t["Pressure"],
        iconUri := t["IconUri"],
        precipitation := t["Precipitation"]))
  }

  // ---------------------------------------------------------------------------
  // Fallback policy
  // ---------------------------------------------------------------------------

  /**
   * The try block of GetWeatherByCityAndCountry with its catch. OpenWeatherMap
   * is consulted only when the primary source has no data; the placeholder is
   * used only when OpenWeatherMap then returns null; anything thrown on the
   * way, OpenWeatherMap's failure included, is the generic error.
   */
  function FallbackForecast(cityName: string, a: SourceAReply, owm: OwmReply, now: string)
    : (r: Response<WeatherInfo>)
    ensures r.Failed? ==> r.error == GenericError()
    ensures SourceAHasNoData(a) ==> (r.Ok? <==> !owm.OwmThrew?)
    ensures SourceAHasNoData(a) && owm.OwmResult? ==>
              r.Ok? && r.value.dataSource == NonNull(OwmSource)
    ensures SourceAHasNoData(a) && owm.OwmNull? ==>
              r.Ok? && r.value.dataSource == NonNull(FakeSource) && r.value.location == NonNull(cityName)
    ensures !SourceAHasNoData(a) ==>
              (r.Ok? <==> a.SourceAResult? && WeatherInfoFromIasset(a.table).Returned?)
    ensures !SourceAHasNoData(a) && r.Ok? ==> r.value.dataSource == NonNull(IassetSource)
  {
    match a
    case SourceAThrew => Failed(GenericError())
    case SourceAResult(text, table) =>
      if text.Null? || text.value == NotFoundSentinel then
        match owm
        case OwmThrew => Failed(GenericError())
        case OwmNull => Ok(FakeWeatherInfo(cityName, now))
        case OwmResult(w) => Ok(WeatherInfoFromOWM(w))
      else
        match WeatherInfoFromIasset(table)
        case Threw => Failed(GenericError())
        case Returned(info) => Ok(info)
  }

  /**
   * The placeholder is returned exactly when the primary source had no data
   * and OpenWeatherMap returned null; when the primary source answered,
   * OpenWeatherMap's reply does not matter.
   */
  lemma FallbackPolicy(cityName: string, a: SourceAReply, owm: OwmReply, other: OwmReply, now: string)
    ensures var r := FallbackForecast(cityName, a, owm, now);
            (r.Ok? && r.value.dataSource == NonNull(FakeSource)) <==> SourceAHasNoData(a) && owm.OwmNull?
    ensures !SourceAHasNoData(a) ==> FallbackForecast(cityName, a, owm, now) == FallbackForecast(cityName, a, other, now)
  {
  }

  /** One forecast source tried in turn: it found a forecast, had none, or failed. */
  datatype Attempt = Found(info: WeatherInfo) | NoForecast | Failure

  /**
   * A chain of sources tried in order: stop at the first forecast or the first
   * failure, go past a source with none, and fall back to the placeholder when
   * every source had none.
   */
  function RunChain(attempts: seq<Attempt>, placeholder: WeatherInfo): Response<WeatherInfo>
  {
    if attempts == [] then Ok(placeholder)
    else match attempts[0]
      case Found(info) => Ok(info)
      case Failure => Failed(GenericError())
      case NoForecast => RunChain(attempts[1..], placeholder)
  }

  /** The primary source as one link of the chain. */
  function SourceAAttempt(a: SourceAReply): Attempt {
    if a.SourceAThrew? then Failure
    else if SourceAHasNoData(a) then NoForecast
    else match WeatherInfoFromIasset(a.table)
      case Threw => Failure
      case Returned(info) => Found(info)
  }

  /** OpenWeatherMap as one link of the chain. */
  function OwmAttempt(owm: OwmReply): Attempt {
    match owm
    case OwmThrew => Failure
    case OwmNull => NoForecast
    case OwmResult(w) => Found(WeatherInfoFromOWM(w))
  }

  /** The chain stops at its first link that is not NoForecast. */
  lemma {:induction false} ChainStopsAtFirstAnswer(attempts: seq<Attempt>, placeholder: WeatherInfo, k: nat)
    requires k < |attempts| && !attempts[k].NoForecast?
    requires forall i :: 0 <= i < k ==> attempts[i].NoForecast?
    ensures RunChain(attempts, placeholder) ==
            if attempts[k].Found? then Ok(attempts[k].info) else Failed(GenericError())
  {
    if k > 0 {
      ChainStopsAtFirstAnswer(attempts[1..], placeholder, k - 1);
    }
  }

  /** A chain in which no link answers yields the placeholder. */
  lemma {:induction false} ChainFallsBackToPlaceholder(attempts: seq<Attempt>, placeholder: WeatherInfo)
    requires forall i :: 0 <= i < |attempts| ==> attempts[i].NoForecast?
    ensures RunChain(attempts, placeholder) == Ok(placeholder)
  {
    if attempts != [] {
      ChainFallsBackToPlaceholder(attempts[1..], placeholder);
    }
  }

  /**
   * The controller's nested conditionals are the two-link chain: primary
   * source, then OpenWeatherMap, then the placeholder.
   */
  lemma FallbackIsChain(cityName: string, a: SourceAReply, owm: OwmReply, now: string)
    ensures FallbackForecast(cityName, a, owm, now)
            == RunChain([SourceAAttempt(a), OwmAttempt(owm)], FakeWeatherInfo(cityName, now))
  {
    var chain := [SourceAAttempt(a), OwmAttempt(owm)];
    var placeholder := FakeWeatherInfo(cityName, now);
    if !chain[0].NoForecast? {
      ChainStopsAtFirstAnswer(chain, placeholder, 0);
    } else if !chain[1].NoForecast? {
      ChainStopsAtFirstAnswer(chain, placeholder, 1);
    } else {
      ChainFallsBackToPlaceholder(chain, placeholder);
    }
  }

  // ---------------------------------------------------------------------------
  // Forecast action
  // ---------------------------------------------------------------------------

  /**
   * GetWeatherByCityAndCountry: the country is filtered before the city, then
   * the city must belong to the country, all outside the try, so each of
   * these keeps its own message; only then are the sources consulted.
   */
  method GetWeatherByCityAndCountry(cityName: Nullable<string>, countryName: Nullable<string>,
                                    directory: DirectoryReply, sourceA: SourceAReply, owm: OwmReply,
                                    now: string, less: (string, string) -> bool)
    returns (r: Response<WeatherInfo>)
    requires StrictTotalOrder(less)
    ensures !ValidName(countryName) ==>
              r == Failed(FilterCountryOrCityName(countryName, "Country").error)
    ensures ValidName(countryName) && !ValidName(cityName) ==>
              r == Failed(FilterCountryOrCityName(cityName, "City").error)
    ensures ValidName(countryName) && ValidName(cityName) && !DirectoryUsable(directory) ==>
              r == Failed(GenericError())
    ensures ValidName(countryName) && ValidName(cityName) && DirectoryUsable(directory)
              && cityName.value !in directory.cities ==>
              r == Failed(NotInCountryError(cityName, countryName))
    ensures ValidName(countryName) && ValidName(cityName) && DirectoryUsable(directory)
              && cityName.value in directory.cities ==>
              r == FallbackForecast(cityName.value, sourceA, owm, now)
  {
    var countryCheck := FilterCountryOrCityName(countryName, "Country");
    if countryCheck.Reject? {
      return Failed(countryCheck.error);
    }
    var cityCheck := FilterCountryOrCityName(cityName, "City");
    if cityCheck.Reject? {
      return Failed(cityCheck.error);
    }
    var pairCheck := ValidateCityCountry(cityName, countryName, directory, less);
    if pairCheck.Reject? {
      return Failed(pairCheck.error);
    }
    r := FallbackForecast(cityName.value, sourceA, owm, now);
  }
}

/**
 * The expectations of the repository's unit tests
 * (iasset.services.weather.Tests/WeatherApiTests.cs and
 * iasset.clients.weather/app/weather/weather_test.js), stated against the
 * model. Where a test reaches a live service, the service's reply is a
 * parameter constrained to what the test relies on; the comparer is the
 * ordinal one.
 */
module WeatherApiTests {
  import opened WeatherModels
  import opened SortedLists
  import opened WeatherController
  import WeatherClient

  /**
   * The tests' long-string helper: appends "a" while the length is at most
   * `length`, so it yields length + 1 characters (102 for an argument of 101).
   */
  method GenerateLongString(length: int) returns (s: string)
    ensures |s| == if length < 0 then 0 else length + 1
    ensures forall i :: 0 <= i < |s| ==> s[i] == 'a'
  {
    s := "";
    while |s| <= length
      invariant |s| <= if length < 0 then 0 else length + 1
      invariant forall i :: 0 <= i < |s| ==> s[i] == 'a'
      decreases length - |s|
    {
      s := s + "a";
    }
  }

  /** TestEmptyCountryInput: an empty country is refused, naming the country. */
  method TestEmptyCountryInput(directory: DirectoryReply) returns (r: Response<seq<string>>)
    ensures r == Failed(EmptyNameError("Country"))
  {
    OrdinalIsStrictTotalOrder();
    r := GetCitiesByCountryName(NonNull(""), directory, OrdinalLess);
  }

  /** TestEmptyLargeInput: an over-long country is refused, naming the country. */
  method TestEmptyLargeInput(directory: DirectoryReply) returns (r: Response<seq<string>>)
    ensures r == Failed(LongNameError("Country"))
  {
    var largeCountryName := GenerateLongString(101);
    OrdinalIsStrictTotalOrder();
    r := GetCitiesByCountryName(NonNull(largeCountryName), directory, OrdinalLess);
  }

  /** TestInvalidCountry: a reply without any Table node is an empty list, not an error. */
  method TestInvalidCountry() returns (r: Response<seq<string>>)
    ensures r == Ok([])
  {
    OrdinalIsStrictTotalOrder();
    r := GetCitiesByCountryName(NonNull("123"), Cities([]), OrdinalLess);
    assert |r.value| == |multiset(r.value)| == 0;
  }

  /** TestValidCountry: 66 distinct cities in the reply give 66 cities, in order. */
  method TestValidCountry(australia: seq<string>) returns (r: Response<seq<string>>)
    requires |australia| == 66 && Distinct(australia)
    ensures r.Ok? && |r.value| == 66 && StrictlyAscending(r.value, OrdinalLess)
  {
    OrdinalIsStrictTotalOrder();
    r := GetCitiesByCountryName(NonNull("Australia"), Cities(australia), OrdinalLess);
    assert |r.value| == |multiset(r.value)| == |multiset(australia)|;
  }

  /** TestEmptyWeatherForeCastQueryInput: with both names empty the country's error wins. */
  method TestEmptyWeatherForeCastQueryInput(directory: DirectoryReply, sourceA: SourceAReply,
                                            owm: OwmReply, now: string)
    returns (r: Response<WeatherInfo>)
    ensures r == Failed(EmptyNameError("Country"))
  {
    OrdinalIsStrictTotalOrder();
    r := GetWeatherByCityAndCountry(NonNull(""), NonNull(""), directory, sourceA, owm, now, OrdinalLess);
  }

  /** TestLongWeatherForeCastQueryInput: with both names too long the country's error wins. */
  method TestLongWeatherForeCastQueryInput(directory: DirectoryReply, sourceA: SourceAReply,
                                           owm: OwmReply, now: string)
    returns (r: Response<WeatherInfo>)
    ensures r == Failed(LongNameError("Country"))
  {
    var largeCountryName := GenerateLongString(101);
    var largeCityName := GenerateLongString(101);
    OrdinalIsStrictTotalOrder();
    r := GetWeatherByCityAndCountry(NonNull(largeCityName), NonNull(largeCountryName),
                                    directory, sourceA, owm, now, OrdinalLess);
  }

  /** TestInvalidCityCountryWeatherForeCastQueryInput: Auckland is not listed for Australia. */
  method TestInvalidCityCountry(australia: seq<string>, sourceA: SourceAReply, owm: OwmReply, now: string)
    returns (r: Response<WeatherInfo>)
    requires Distinct(australia) && "Auckland" !in australia
    ensures r == Failed(NotInCountryError(NonNull("Auckland"), NonNull("Australia")))
  {
    OrdinalIsStrictTotalOrder();
    r := GetWeatherByCityAndCountry(NonNull("Auckland"), NonNull("Australia"),
                                    Cities(australia), sourceA, owm, now, OrdinalLess);
  }

  /**
   * TestValidWeatherForeCastQueryInput: Canberra is listed for Australia; the
   * primary source has no data and OpenWeatherMap answers, so the forecast
   * is OpenWeatherMap's.
   */
  method TestValidWeatherForeCastQueryInput(australia: seq<string>, sourceA: SourceAReply,
                                            response: OwmResponse, now: string)
    returns (r: Response<WeatherInfo>)
    requires Distinct(australia) && "Canberra" in australia
    requires SourceAHasNoData(sourceA)
    ensures r.Ok? && r.value.dataSource == NonNull(OwmSource) && NoNullProperty(r.value)
  {
    OrdinalIsStrictTotalOrder();
    r := GetWeatherByCityAndCountry(NonNull("Canberra"), NonNull("Australia"),
                                    Cities(australia), sourceA, OwmResult(response), now, OrdinalLess);
  }

  /**
   * TestNonMatchingWeatherForeCastQueryInput: an OpenWeatherMap forecast names
   * the city OpenWeatherMap matched, which need not be the one asked for.
   */
  method TestNonMatchingWeatherForeCastQueryInput(australia: seq<string>, sourceA: SourceAReply,
                                                  response: OwmResponse, now: string)
    returns (r: Response<WeatherInfo>)
    requires Distinct(australia) && "Adelaide Airport" in australia
    requires SourceAHasNoData(sourceA) && response.cityName != "Adelaide Airport"
    ensures r.Ok? && r.value.location != NonNull("Adelaide Airport")
  {
    OrdinalIsStrictTotalOrder();
    r := GetWeatherByCityAndCountry(NonNull("Adelaide Airport"), NonNull("Australia"),
                                    Cities(australia), sourceA, OwmResult(response), now, OrdinalLess);
  }

  /**
   * TestExceptionCityCountryWeatherForeCastQueryInput: a listed city for
   * which OpenWeatherMap throws gives the generic error, not the placeholder.
   */
  method TestExceptionCityCountry(australia: seq<string>, sourceA: SourceAReply, now: string)
    returns (r: Response<WeatherInfo>)
    requires Distinct(australia) && "Bullsbrook Pearce Amo" in australia
    requires SourceAHasNoData(sourceA)
    ensures r == Failed(GenericError())
  {
    OrdinalIsStrictTotalOrder();
    r := GetWeatherByCityAndCountry(NonNull("Bullsbrook Pearce Amo"), NonNull("Australia"),
                                    Cities(australia), sourceA, OwmThrew, now, OrdinalLess);
  }

  /**
   * The client's validator suite: null and the empty string are rejected,
   * "test" is accepted, and a 101-character input is rejected
   * (the suite builds it by appending while the length is at most 100).
   */
  method TestValidateInput() returns (rejectsNull: bool, rejectsEmpty: bool, rejectsLong: bool, acceptsTest: bool)
    ensures rejectsNull && rejectsEmpty && rejectsLong && acceptsTest
  {
    var longInput := GenerateLongString(100);
    rejectsNull := !WeatherClient.ValidateInput(WeatherClient.JsNull);
    rejectsEmpty := !WeatherClient.ValidateInput(WeatherClient.Value(""));
    rejectsLong := !WeatherClient.ValidateInput(WeatherClient.Value(longInput));
    acceptsTest := WeatherClient.ValidateInput(WeatherClient.Value("test"));
  }
}

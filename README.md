# Weather forecast API and form — a Dafny model

This project models the decision logic of a small weather service and of its browser form.

The service is an ASP.NET Web API controller, `WeatherController`. It has two actions:

- **List cities for a country.** The country name is filtered: not null, not empty, at most 100 characters. The cities in the GlobalWeather directory's reply are added to a `SortedList`, and its keys are returned. A city that appears twice makes `SortedList.Add` throw. Any failure inside the `try` becomes a Bad Request with a fixed message that carries no exception detail.
- **Forecast for a city and country.** The country is filtered, then the city. The city must be one of the country's cities. The primary source (GlobalWeather.GetWeather) is asked first. A null reply or the text `Data Not Found` sends the request on to OpenWeatherMap. A null from OpenWeatherMap yields a fixed placeholder forecast tagged `Fake Weather Service`. Anything thrown inside the `try` is the generic Bad Request. This includes an OpenWeatherMap failure, which does not fall back to the placeholder.

The form is an AngularJS controller, `WeatherCtrl`. It applies the same input rule on the client (`validateInput`). Its handlers update the scope fields `Country`, `CountryCities`, `SelectedCity`, `weather` and `error_msg`.

Files:

- `weather_models.dfy` (module `WeatherModels`): the `WeatherInfo` result type, whose thirteen string properties may each be null, and `Nullable`.
- `sorted_list.dfy` (module `SortedLists`): the `SortedList` class and its `Add`. Also the comparer as an abstract strict total order, the uniqueness of a strictly ascending sequence, and ordinal comparison as one such order.
- `weather_controller.dfy` (module `WeatherController`): the filter, the city-list method, the city-belongs-to-country check, the three `WeatherInfo` builders, the fallback policy, and the forecast action. The fallback policy is also stated a second way, as a chain of sources tried in order, and the lemma `FallbackIsChain` proves the two agree.
- `weather_client.dfy` (module `WeatherClient`): `validateInput`, its agreement with the server filter, and the `WeatherCtrl` class. Each click handler returns the request it issued. Each asynchronous callback is a separate method.
- `weather_api_tests.dfy` (module `WeatherApiTests`): the expectations of the repository's unit tests, stated against the model.

External services are inputs, not calls:

- `DirectoryReply`: the directory's reply, as a list of city strings or a failure.
- `SourceAReply`: the primary source's reply, as its text and the `Table` node parsed from it, or a failure.
- `OwmReply`: OpenWeatherMap's reply, as null, a response, or a failure.
- `now`: the clock reading `DateTime.UtcNow` renders to.
- `less`: the comparer.

## Model

| member | source | states |
|---|---|---|
| `WeatherController.FilterCountryOrCityName` | iasset.services.weather/Controllers/WeatherController.cs:83-104 | passes exactly when the name is non-null, non-empty and at most 100 long (100 passes, 101 fails); null or empty gives "Cannot search for {entity} using empty string input"; over-long gives "{entity}'s name exceeds more than 100 characters" |
| `WeatherController.GetCitiesByCountryName` | iasset.services.weather/Controllers/WeatherController.cs:34-71 | a refused country returns the filter's own error (so the directory is never consulted); a directory failure or a repeated city gives the generic error; otherwise Ok with a strictly ascending list that is a permutation of the reply's cities (an empty reply gives Ok of an empty list) |
| `WeatherController.CityListIsRepeatable` | iasset.services.weather/Controllers/WeatherController.cs:34-71 | two requests for the same country against the same directory reply give the same response |
| `WeatherController.ValidateCityCountry` | iasset.services.weather/Controllers/WeatherController.cs:165-177 | the city list's failure propagates unchanged; with a usable list the check passes if and only if the city is exactly one of the reply's cities, and otherwise fails with "The city {0} does not belong to country {1}" |
| `WeatherController.FakeWeatherInfo` | iasset.services.weather/Controllers/WeatherController.cs:211-230 | every property set; tagged "Fake Weather Service"; Location is the requested city, Time the clock; fixed readings "1014 hpa", "23 C", "Sunny", "0", "70%", "1.5 m/s"; DewPoint and Visibility "No Data" |
| `WeatherController.FakeReadingsAreFixed` | iasset.services.weather/Controllers/WeatherController.cs:215-227 | two placeholders differ only in Location and Time |
| `WeatherController.WeatherInfoFromOWM` | iasset.services.weather/Controllers/WeatherController.cs:184-204 | every property set; tagged "Open Weather Map"; Location is the city OpenWeatherMap reports; DewPoint and Visibility "No Data"; the icon lies under OpenWeatherMap's image path |
| `WeatherController.WeatherInfoFromIasset` | iasset.services.weather/Controllers/WeatherController.cs:238-262 | throws if and only if the Table node or one of the twelve elements it reads is missing; otherwise tagged "iasset Weather API" and each property is the value of the element of the same name (possibly null) |
| `WeatherController.FallbackForecast` | iasset.services.weather/Controllers/WeatherController.cs:123-157 | every failure is the generic error; with no primary data the result is Ok if and only if OpenWeatherMap did not throw, tagged "Open Weather Map" for a response and "Fake Weather Service" with Location = city for null; with primary data the result is Ok if and only if the payload parses, and it is then tagged "iasset Weather API" |
| `WeatherController.FallbackPolicy` | iasset.services.weather/Controllers/WeatherController.cs:128-144 | the placeholder comes back if and only if the primary source had no data and OpenWeatherMap returned null; when the primary source answered, OpenWeatherMap's reply has no effect |
| `WeatherController.ChainStopsAtFirstAnswer` | iasset.services.weather/Controllers/WeatherController.cs:128-155 | a chain of sources stops at its first source that found a forecast or failed |
| `WeatherController.ChainFallsBackToPlaceholder` | iasset.services.weather/Controllers/WeatherController.cs:138-141 | a chain in which no source has data yields the placeholder |
| `WeatherController.FallbackIsChain` | iasset.services.weather/Controllers/WeatherController.cs:123-157 | the controller's nested fallback equals the two-source chain (primary, then OpenWeatherMap, then the placeholder) |
| `WeatherController.GetWeatherByCityAndCountry` | iasset.services.weather/Controllers/WeatherController.cs:113-158 | the checks come in order, each with its own message: the country's filter, then the city's filter, then the directory, then city membership; only after all pass is the result that of the fallback policy |
| `SortedLists.SortedList.constructor` | iasset.services.weather/Controllers/WeatherController.cs:39 | a new list is empty and ordered by the given comparer |
| `SortedLists.SortedList.Add` | iasset.services.weather/Controllers/WeatherController.cs:55 | a key already present fails and leaves the list unchanged; otherwise the key is added and the keys stay strictly ascending |
| `SortedLists.AscendingIsDistinct` | iasset.services.weather/Controllers/WeatherController.cs:70 | the returned keys contain no repeats |
| `SortedLists.AscendingUnique` | iasset.services.weather/Controllers/WeatherController.cs:39-70 | two strictly ascending sequences with the same elements are equal, so the city list depends only on which cities the reply holds |
| `SortedLists.OrdinalIsStrictTotalOrder` | iasset.services.weather/Controllers/WeatherController.cs:39 | ordinal string comparison satisfies what the model assumes of the comparer |
| `WeatherClient.ValidateInput` | iasset.clients.weather/app/weather/weather.js:56-63 | true if and only if the input is neither null nor undefined and its length is between 1 and 100 |
| `WeatherClient.ValidatorsAgree` | iasset.clients.weather/app/weather/weather.js:56-63 | the client's check accepts exactly what the server's filter lets through |
| `WeatherClient.WeatherCtrl.constructor` | iasset.clients.weather/app/weather/weather.js:77-83 | Country '', no cities, no selected city, no weather, no error |
| `WeatherClient.WeatherCtrl.ClearCountryCities` | iasset.clients.weather/app/weather/weather.js:86-89 | empties the cities and the selection and changes nothing else |
| `WeatherClient.WeatherCtrl.GetCitiesForCountry` | iasset.clients.weather/app/weather/weather.js:92-119 | always clears the weather; a valid country issues the request and leaves the error as it was; an invalid one issues none and sets "Input for country name is invalid" |
| `WeatherClient.WeatherCtrl.OnCitiesReceived` | iasset.clients.weather/app/weather/weather.js:98-108 | a non-empty list replaces the cities, selects its first city and clears the error; an empty or missing list only sets "No cities found for country X"; the selected city stays one of the listed cities |
| `WeatherClient.WeatherCtrl.OnServiceError` | iasset.clients.weather/app/weather/weather.js:109-114 | the error becomes the response body if present, else the generic message; nothing else changes (the same for both handlers) |
| `WeatherClient.WeatherCtrl.GetWeatherForecast` | iasset.clients.weather/app/weather/weather.js:121-143 | the request is issued only when both the country and the selected city are valid; otherwise only the error changes, to "Input for country name and/or city is invalid" |
| `WeatherClient.WeatherCtrl.OnForecastReceived` | iasset.clients.weather/app/weather/weather.js:125-131 | a forecast is stored and the error cleared; a missing one leaves the weather as it was and copies the response's error property |
| `WeatherClient.SearchThenForecast` | iasset.clients.weather/app/weather/weather.js:92-143 | after a valid search that returns a non-empty list whose first city passes `validateInput`, the forecast request is for that first city and no error is shown; later cities are never validated |
| `WeatherApiTests.GenerateLongString` | iasset.services.weather.Tests/WeatherApiTests.cs:165-171 | yields length + 1 characters, all 'a' (102 for the tests' 101) |
| `WeatherApiTests.TestEmptyCountryInput` | iasset.services.weather.Tests/WeatherApiTests.cs:18-24 | an empty country is refused with the country's empty-input error |
| `WeatherApiTests.TestEmptyLargeInput` | iasset.services.weather.Tests/WeatherApiTests.cs:29-38 | an over-long country is refused with the country's length error |
| `WeatherApiTests.TestInvalidCountry` | iasset.services.weather.Tests/WeatherApiTests.cs:43-53 | a reply with no cities gives Ok of an empty list |
| `WeatherApiTests.TestValidCountry` | iasset.services.weather.Tests/WeatherApiTests.cs:58-67 | 66 distinct cities give 66 cities in ascending order |
| `WeatherApiTests.TestEmptyWeatherForeCastQueryInput` | iasset.services.weather.Tests/WeatherApiTests.cs:73-79 | with both names empty, the country's error is the one returned |
| `WeatherApiTests.TestLongWeatherForeCastQueryInput` | iasset.services.weather.Tests/WeatherApiTests.cs:85-94 | with both names too long, the country's error is the one returned |
| `WeatherApiTests.TestInvalidCityCountry` | iasset.services.weather.Tests/WeatherApiTests.cs:101-110 | a city missing from the country's list gives "The city Auckland does not belong to country Australia" |
| `WeatherApiTests.TestValidWeatherForeCastQueryInput` | iasset.services.weather.Tests/WeatherApiTests.cs:117-125 | a listed city with no primary data and an OpenWeatherMap answer gives a complete forecast from OpenWeatherMap |
| `WeatherApiTests.TestNonMatchingWeatherForeCastQueryInput` | iasset.services.weather.Tests/WeatherApiTests.cs:134-145 | the forecast's Location is the city OpenWeatherMap reports, not the query |
| `WeatherApiTests.TestExceptionCityCountry` | iasset.services.weather.Tests/WeatherApiTests.cs:152-161 | OpenWeatherMap throwing for a listed city gives the generic error, not the placeholder |
| `WeatherApiTests.TestValidateInput` | iasset.clients.weather/app/weather/weather_test.js:18-41 | null and the empty string are rejected, a 101-character input is rejected, "test" is accepted |

## Left out

- The SOAP proxy calls and the XML navigation (`LoadXml`, `SelectNodes`, `LastChild.LastChild.Value`, `SelectSingleNode`) are not modelled. Their results are inputs. Every exception they raise is `DirectoryFailure` or `SourceAThrew`, or, for a text that is not XML or has no `Table` node, a null `table`.
- A `Table` node whose city text is null makes `SortedList.Add` throw `ArgumentNullException`. The model folds this into `DirectoryFailure`.
- The comparer of `SortedList` is culture-sensitive. It is modelled as any strict total order on strings. A comparer that ranks two distinct strings as equal would make `Add` throw; the model does not capture that.
- `SortedList` stores each city as both key and value. Only the keys are modelled. `Add` finds its place by a linear scan rather than .NET's binary search; only the resulting order matters.
- String lengths: C# and JavaScript count UTF-16 code units. The model counts Dafny characters (Unicode scalar values), so a name with characters outside the Basic Multilingual Plane is measured differently.
- The OpenWeatherMap client is asynchronous and foreign. Its numbers are formatted by `ToString()`. The model takes its response as already-rendered strings. A null sub-object of the response raises `NullReferenceException`; the model counts that as `OwmThrew`. Null string properties inside the response are not modelled.
- `WeatherController.WeatherInfoFromOWM`: the contract does not state how pressure, temperature, precipitation, humidity and wind are composed from value and unit. The function body builds them as the source does, from opaque inputs.
- `WeatherController.WeatherInfoFromIasset`: the contract does not claim its properties are non-null. The value .NET reports for an element node may be null, and the model carries whatever value the `Table` node gives.
- The clock (`DateTime.UtcNow`), time-zone conversion and `yyyy-MM-dd HH:mm:ss` formatting are not modelled. They appear only as already-formatted strings. `ConfigurationManager.AppSettings` (the OpenWeatherMap key) is not modelled.
- HTTP plumbing is not modelled: response and exception construction, the 400 status, and routing attributes. A Bad Request is kept as its content and reason phrase. `Global.asax.cs` is not part of this model.
- `ValidateCityCountry` checks whether the city-list result is not `Ok` or has null content. That check is not modelled: `GetCitiesByCountryName` either returns `Ok` with an array or throws.
- Angular plumbing is not modelled: routing, `$http` request construction (the URLs) and promises. The scope is updated only by the handlers and callbacks modelled here. The model does not constrain when a callback arrives relative to later user edits. The `ng-model` bindings in the view are not part of this model.
- `error.data` in the error callbacks is modelled as a string, null or undefined. Other response body types are not modelled.
- The end-to-end browser scenarios in `iasset.clients.weather/e2e-tests/scenarios.js` are not modelled.

## Behaviour of the code the model keeps

- Repeated cities are not removed. They make the request fail.
- Sorting uses the list's default comparer.
- `WeatherInfo` has thirteen properties.
- An OpenWeatherMap failure is the generic error.

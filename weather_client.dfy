/**
 * The browser form (iasset.clients.weather/app/weather/weather.js): the input
 * validator and the WeatherCtrl controller whose handlers update the scope.
 *
 * The HTTP calls are asynchronous: a handler issues a request and returns,
 * and a later callback applies the service's answer. Here a handler returns
 * the Request it issued (NoRequest when it sent none), and each callback is a
 * method applied to the answer it is given.
 */
module WeatherClient {
  import opened WeatherModels
  import WeatherController

  /** A JavaScript value that may be undefined or null. */
  datatype JsValue<+T> = Undefined | JsNull | Value(v: T) {
    /** `x == null` in JavaScript: true for both null and undefined. */
    predicate IsNullish() {
      Undefined? || JsNull?
    }
  }

  /** What string concatenation renders a value as. */
  function JsText(s: JsValue<string>): string {
    match s
    case Undefined => "undefined"
    case JsNull => "null"
    case Value(text) => text
  }

  const MaxInputLength := 100

  /**
   * validator.validateInput: false for null or undefined, for the empty
   * string and for one longer than 100 characters; true otherwise.
   */
  function ValidateInput(strInput: JsValue<string>): (valid: bool)
    ensures valid <==> strInput.Value? && 0 < |strInput.v| <= MaxInputLength
  {
    if strInput.IsNullish() then false
    else if |strInput.v| == 0 || |strInput.v| > MaxInputLength then false
    else true
  }

  /** A missing JavaScript value reaches the server as a null parameter. */
  function ToNullable(s: JsValue<string>): Nullable<string> {
    if s.Value? then NonNull(s.v) else Null
  }

  /**
   * The client and the server enforce the same rule: a value passes
   * validateInput exactly when FilterCountryOrCityName lets it through.
   */
  lemma ValidatorsAgree(s: JsValue<string>, entity: string)
    ensures ValidateInput(s) <==> WeatherController.FilterCountryOrCityName(ToNullable(s), entity).Pass?
  {
  }

  /** The service call a handler issued. */
  datatype Request =
    | NoRequest
    | CitiesRequest(countryName: string)
    | ForecastRequest(cityName: string, countryName: string)

  const InvalidCountryMessage := "Input for country name is invalid"
  const InvalidInputMessage := "Input for country name and/or city is invalid"
  const ServiceErrorMessage := "An error occured during the processing of your request"
  const NoCitiesPrefix := "No cities found for country "

  /**
   * The scope of WeatherCtrl: params.Country, params.CountryCities,
   * params.SelectedCity, weather and error_msg.
   */
  class WeatherCtrl {
    var country: JsValue<string>
    var countryCities: seq<string>
    var selectedCity: JsValue<string>
    var weather: JsValue<WeatherInfo>
    var errorMsg: JsValue<string>

    /** The selected city, when there is one, is one of the listed cities. */
    ghost predicate Valid()
      reads this
    {
      selectedCity.Value? ==> selectedCity.v in countryCities
    }

    /** The scope as the controller sets it up. */
    constructor ()
      ensures Valid()
      ensures country == Value("") && countryCities == [] && selectedCity == JsNull
      ensures weather == JsNull && errorMsg == JsNull
    {
      country := Value("");
      countryCities := [];
      selectedCity := JsNull;
      weather := JsNull;
      errorMsg := JsNull;
    }

    /** clearCountryCities: empties the city list and the selection, and nothing else. */
    method ClearCountryCities()
      modifies this
      ensures Valid()
      ensures countryCities == [] && selectedCity == JsNull
      ensures country == old(country) && weather == old(weather) && errorMsg == old(errorMsg)
    {
      countryCities := [];
      selectedCity := JsNull;
    }

    /**
     * getCitiesForCountry: always clears the weather; asks the service for
     * the country's cities only when the country passes validation, and
     * otherwise reports the invalid country.
     */
    method GetCitiesForCountry() returns (request: Request)
      requires Valid()
      modifies this
      ensures Valid()
      ensures weather == JsNull
      ensures ValidateInput(country) ==>
                request == CitiesRequest(country.v) && errorMsg == old(errorMsg)
      ensures !ValidateInput(country) ==>
                request == NoRequest && errorMsg == Value(InvalidCountryMessage)
      ensures country == old(country) && countryCities == old(countryCities)
      ensures selectedCity == old(selectedCity)
    {
      weather := JsNull;
      if ValidateInput(country) {
        request := CitiesRequest(country.v);
      } else {
        request := NoRequest;
        errorMsg := Value(InvalidCountryMessage);
      }
    }

    /**
     * The success callback of getCitiesForCountry. A non-empty list replaces
     * the cities, selects the first one and clears the error; an empty or
     * missing list only sets the error, naming the country as it reads now.
     */
    method OnCitiesReceived(data: JsValue<seq<string>>)
      requires Valid()
      modifies this
      ensures Valid()
      ensures data.Value? && |data.v| > 0 ==>
                countryCities == data.v && selectedCity == Value(data.v[0]) && errorMsg == JsNull
      ensures !(data.Value? && |data.v| > 0) ==>
                errorMsg == Value(NoCitiesPrefix + JsText(country))
                && countryCities == old(countryCities) && selectedCity == old(selectedCity)
      ensures country == old(country) && weather == old(weather)
    {
      if data.Value? && |data.v| > 0 {
        countryCities := data.v;
        errorMsg := JsNull;
        selectedCity := Value(countryCities[0]);
      } else {
        errorMsg := Value(NoCitiesPrefix + JsText(country));
      }
    }

    /**
     * The error callback of both handlers: the response body when there is
     * one, the generic message otherwise; nothing else changes.
     */
    method OnServiceError(errorData: JsValue<string>)
      requires Valid()
      modifies this
      ensures Valid()
      ensures errorMsg == if errorData.IsNullish() then Value(ServiceErrorMessage) else errorData
      ensures country == old(country) && countryCities == old(countryCities)
      ensures selectedCity == old(selectedCity) && weather == old(weather)
    {
      if !errorData.IsNullish() {
        errorMsg := errorData;
      } else {
        errorMsg := Value(ServiceErrorMessage);
      }
    }

    /**
     * getWeatherForecast: asks for the selected city's forecast only when
     * both the country and the selected city pass validation, and otherwise
     * reports invalid input. It leaves the previous forecast in place.
     */
    method GetWeatherForecast() returns (request: Request)
      requires Valid()
      modifies this
      ensures Valid()
      ensures ValidateInput(country) && ValidateInput(selectedCity) ==>
                request == ForecastRequest(selectedCity.v, country.v) && errorMsg == old(errorMsg)
      ensures !(ValidateInput(country) && ValidateInput(selectedCity)) ==>
                request == NoRequest && errorMsg == Value(InvalidInputMessage)
      ensures country == old(country) && countryCities == old(countryCities)
      ensures selectedCity == old(selectedCity) && weather == old(weather)
    {
      if ValidateInput(country) && ValidateInput(selectedCity) {
        request := ForecastRequest(selectedCity.v, country.v);
      } else {
        request := NoRequest;
        errorMsg := Value(InvalidInputMessage);
      }
    }

    /**
     * The success callback of getWeatherForecast: a forecast is shown and the
     * error cleared; a missing one sets the error to the response's `error`
     * property (an $http response has none, so in practice undefined).
     */
    method OnForecastReceived(data: JsValue<WeatherInfo>, responseError: JsValue<string>)
      requires Valid()
      modifies this
      ensures Valid()
      ensures !data.IsNullish() ==> weather == data && errorMsg == JsNull
      ensures data.IsNullish() ==> weather == old(weather) && errorMsg == responseError
      ensures country == old(country) && countryCities == old(countryCities)
      ensures selectedCity == old(selectedCity)
    {
      if !data.IsNullish() {
        weather := data;
        errorMsg := JsNull;
      } else {
        errorMsg := responseError;
      }
    }
  }

  /**
   * A form session: search for a country's cities, apply the service's
   * answer, then ask for the forecast of the city selected for it.
   * A successful non-empty city list whose first city passes validation
   * leads to a forecast request for that city; the other cities are never
   * validated.
   */
  method SearchThenForecast(ctrl: WeatherCtrl, cities: seq<string>) returns (forecast: Request)
    requires ctrl.Valid() && ValidateInput(ctrl.country)
    requires |cities| > 0 && ValidateInput(Value(cities[0]))
    modifies ctrl
    ensures ctrl.Valid()
    ensures forecast == ForecastRequest(cities[0], old(ctrl.country).v)
    ensures ctrl.errorMsg == JsNull && ctrl.weather == JsNull
  {
    var search := ctrl.GetCitiesForCountry();
    assert search == CitiesRequest(ctrl.country.v);
    ctrl.OnCitiesReceived(Value(cities));
    assert cities[0] in cities;
    forecast := ctrl.GetWeatherForecast();
  }
}

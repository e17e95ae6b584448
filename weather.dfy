/**
 * `WeatherWidget.js`: the five-day forecast card. The sky code of each day chooses
 * an icon by integer range; one request, made only with a token, fills the forecast.
 */
module Weather {
  import opened Wrappers
  import opened JsString
  import opened JsArray
  import opened Api

  /** The icons `getWeatherIcon` returns; the two rain icons differ in their shade. */
  datatype Icon = Sun | CloudSnow | CloudRain(shade: nat) | Cloud

  /**
   * The range test on a parsed sky code, where `None` is `NaN` (every comparison
   * with it is false): 0-12 and 31-34 sun, 13-18 snow, 19-30 and 35-43 rain, else cloud.
   */
  function IconForCode(code: Option<int>): (icon: Icon)
    ensures icon == Sun <==> code.Some? && (0 <= code.value <= 12 || 31 <= code.value <= 34)
    ensures icon == CloudSnow <==> code.Some? && 13 <= code.value <= 18
    ensures icon == CloudRain(400) <==> code.Some? && 19 <= code.value <= 30
    ensures icon == CloudRain(500) <==> code.Some? && 35 <= code.value <= 43
    ensures icon == Cloud <==> code.None? || code.value < 0 || code.value > 43
  {
    match code
    case None => Cloud
    case Some(c) =>
      if 0 <= c <= 12 then Sun
      else if 13 <= c <= 18 then CloudSnow
      else if 19 <= c <= 30 then CloudRain(400)
      else if 31 <= c <= 34 then Sun
      else if 35 <= c <= 43 then CloudRain(500)
      else Cloud
  }

  /** `getWeatherIcon(skycodeday)`: `parseInt`, then the range test. */
  function WeatherIcon(skycodeday: string): Icon {
    IconForCode(ParseInt(skycodeday))
  }

  /**
   * A sky code written as an integer, followed by anything that does not continue
   * the number, gets the icon of that integer's range.
   */
  lemma WeatherIconOfNumber(code: int, rest: string)
    requires rest == [] || !IsDecimalDigit(rest[0])
    requires rest != [] && code == 0 ==> rest[0] != 'x' && rest[0] != 'X'
    ensures WeatherIcon(IntString(code) + rest) == IconForCode(Some(code))
  {
    ParseIntString(code, rest);
  }

  /** A sky code with no leading number, such as an empty one, shows a cloud. */
  lemma WeatherIconWithoutNumber(skycodeday: string)
    requires ParseInt(skycodeday).None?
    ensures WeatherIcon(skycodeday) == Cloud
  {
  }

  /** One day of the forecast as the API sends it; a falsy `precip` is `None`. */
  datatype Day = Day(shortday: string, skycodeday: string, high: string, low: string, precip: Option<string>)

  /** What one day's card shows. */
  datatype DayCard = DayCard(shortday: string, icon: Icon, high: string, low: string, precip: string)

  /** `day.precip || '0'`. */
  function PrecipText(precip: Option<string>): (t: string)
    ensures Truthy(precip) ==> t == precip.value
    ensures !Truthy(precip) ==> t == "0"
  {
    if Truthy(precip) then precip.value else "0"
  }

  function Card(day: Day): DayCard {
    DayCard(day.shortday, WeatherIcon(day.skycodeday), day.high, day.low, PrecipText(day.precip))
  }

  const ForecastDays := 5

  /** What the widget renders. */
  datatype WeatherView = LoadingWeather | WeatherError(message: string) | NoWeatherData | Forecast(cards: seq<DayCard>)

  /**
   * The render priority: loading, then a truthy error, then the missing or empty
   * array, and otherwise one card for each of the first five days.
   */
  function RenderWeather(loading: bool, error: Option<string>, weatherData: Body<Day>): (v: WeatherView)
    ensures v.LoadingWeather? <==> loading
    ensures v.WeatherError? <==> !loading && Truthy(error)
    ensures v.WeatherError? ==> v.message == error.value
    ensures v.NoWeatherData? <==> !loading && !Truthy(error) && (weatherData.JsonOther? || weatherData.items == [])
    ensures v.Forecast? ==> weatherData.JsonArray?
    ensures v.Forecast? ==> |v.cards| == Min(ForecastDays, |weatherData.items|) && 1 <= |v.cards| <= ForecastDays
    ensures v.Forecast? ==>
      forall k :: 0 <= k < |v.cards| ==> v.cards[k] == Card(weatherData.items[k])
  {
    if loading then LoadingWeather
    else if Truthy(error) then WeatherError(error.value)
    else if weatherData.JsonOther? || weatherData.items == [] then NoWeatherData
    else
      var shown := Slice(weatherData.items, 0, ForecastDays);
      Forecast(seq(|shown|, k requires 0 <= k < |shown| => Card(shown[k])))
  }

  const WeatherErrorPrefix := "Error fetching weather data: "

  /** The widget's state: its `token` prop and its three state hooks. */
  class WeatherWidget {
    var token: string
    var weatherData: Body<Day>
    var loading: bool
    var error: Option<string>

    /** The first render: an empty forecast, loading, no error. */
    constructor (token: string)
      ensures this.token == token && weatherData == JsonArray([]) && loading && error == None
    {
      this.token := token;
      weatherData := JsonArray([]);
      loading := true;
      error := None;
    }

    /**
     * The `fetchWeather` effect. Without a token it records the missing-token error and
     * makes no request. Otherwise an ok response replaces the data, a non-ok status or a
     * rejected request records its message after the weather prefix, and in each case
     * loading ends.
     */
    method FetchWeather(response: Response<Body<Day>>)
      modifies this`weatherData, this`loading, this`error
      ensures !loading
      ensures token == "" ==> error == Some(NoTokenMessage) && weatherData == old(weatherData)
      ensures token != "" && response.Ok? ==> weatherData == response.payload && error == old(error)
      ensures token != "" && response.NonOk? ==>
        error == Some(WeatherErrorPrefix + HttpError(response.status)) && weatherData == old(weatherData)
      ensures token != "" && response.Threw? ==>
        error == Some(WeatherErrorPrefix + response.reason) && weatherData == old(weatherData)
    {
      if token == "" {
        error := Some(NoTokenMessage);
        loading := false;
        return;
      }
      match response {
        case Ok(data) =>
          weatherData := data;
        case NonOk(status, _) =>
          error := Some(WeatherErrorPrefix + HttpError(status));
        case Threw(reason) =>
          error := Some(WeatherErrorPrefix + reason);
      }
      loading := false;
    }

    /** A new `token` prop reruns the effect; the same token does nothing. */
    method ChangeToken(newToken: string, response: Response<Body<Day>>)
      modifies this
      ensures token == newToken
      ensures newToken == old(token) ==>
        weatherData == old(weatherData) && loading == old(loading) && error == old(error)
      ensures newToken != old(token) ==> !loading
      ensures newToken != old(token) && newToken == "" ==>
        error == Some(NoTokenMessage) && weatherData == old(weatherData)
      ensures newToken != old(token) && newToken != "" && response.Ok? ==>
        weatherData == response.payload && error == old(error)
      ensures newToken != old(token) && newToken != "" && response.NonOk? ==>
        error == Some(WeatherErrorPrefix + HttpError(response.status)) && weatherData == old(weatherData)
      ensures newToken != old(token) && newToken != "" && response.Threw? ==>
        error == Some(WeatherErrorPrefix + response.reason) && weatherData == old(weatherData)
    {
      if newToken != token {
        token := newToken;
        FetchWeather(response);
      }
    }

    function View(): WeatherView
      reads this
    {
      RenderWeather(loading, error, weatherData)
    }
  }

  /**
   * Mounting without a token shows the missing-token error whatever the network
   * would have answered.
   */
  method WithoutToken(response: Response<Body<Day>>) returns (v: WeatherView)
    ensures v == WeatherError(NoTokenMessage)
  {
    var widget := new WeatherWidget("");
    widget.FetchWeather(response);
    v := widget.View();
  }

  /**
   * Mounting with a token and a non-ok answer shows the status in the error, and the
   * status can be read back from the message.
   */
  method FailedRequest(token: string, status: nat, message: string) returns (v: WeatherView)
    requires token != ""
    ensures v.WeatherError? && v.message == WeatherErrorPrefix + HttpError(status)
    ensures ParseInt(v.message[|WeatherErrorPrefix| + |HttpErrorPrefix|..]) == Some(status)
  {
    var widget := new WeatherWidget(token);
    widget.FetchWeather(NonOk(status, message));
    v := widget.View();
    assert v.message[|WeatherErrorPrefix|..] == HttpError(status);
    assert v.message[|WeatherErrorPrefix| + |HttpErrorPrefix|..] == HttpError(status)[|HttpErrorPrefix|..];
  }
}

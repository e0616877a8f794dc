/**
 * The weather tool of the procurement agent (main.py:165-197): current readings for
 * a city and a shipping assessment from fixed thresholds on wind and temperature.
 *
 * The provider's answer is an input: either the request raised, or it returned a
 * status code and a body that did or did not decode into the four readings.
 */
module Weather {

  /** The three shipping assessments (main.py:187-191). */
  datatype Assessment = Suitable | RiskyHighWinds | ChallengingTemperature

  /** Wind speed (m/s) above which shipping is risky. */
  const WindLimit: real := 15.0
  /** Temperatures (degrees Celsius) outside [ColdLimit, HeatLimit] are extreme. */
  const ColdLimit: real := 0.0
  const HeatLimit: real := 45.0

  /**
   * The shipping assessment: high wind decides first, whatever the temperature; then
   * an extreme temperature; otherwise conditions are suitable.
   */
  function Assess(temp: real, wind: real): (a: Assessment)
    ensures a == RiskyHighWinds <==> wind > WindLimit
    ensures a == ChallengingTemperature <==> wind <= WindLimit && (temp < ColdLimit || temp > HeatLimit)
    ensures a == Suitable <==> wind <= WindLimit && ColdLimit <= temp <= HeatLimit
  {
    if wind > WindLimit then RiskyHighWinds
    else if temp < ColdLimit || temp > HeatLimit then ChallengingTemperature
    else Suitable
  }

  /** The words the tool uses for an assessment in its sentence. */
  function Phrase(a: Assessment): string
  {
    match a
    case Suitable => "suitable"
    case RiskyHighWinds => "risky due to high winds"
    case ChallengingTemperature => "challenging due to extreme temperature"
  }

  /** What the decoded body holds. */
  datatype Body =
    | Unparsable(error: string)           // `response.json()` raised
    | Incomplete(error: string)           // a reading is missing from the JSON
    | Readings(temp: real, description: string, humidity: real, wind: real)

  /** What the HTTP request produced. */
  datatype Response =
    | Raised(error: string)               // the request itself raised
    | Responded(status: int, body: Body)

  /** What the tool reports. */
  datatype Report =
    | Conditions(city: string, temp: real, description: string, humidity: real, wind: real,
                 assessment: Assessment)
      // "Weather in {city}: ... Conditions are {assessment} for shipping."
    | Unavailable(city: string)
      // "Weather data unavailable for {city}. Assuming normal conditions."
    | CheckFailed(city: string, error: string)
      // "Weather check failed for {city}. Assuming moderate conditions. Error: {error}"

  function City(r: Report): string
  {
    match r
    case Conditions(city, _, _, _, _, _) => city
    case Unavailable(city) => city
    case CheckFailed(city, _) => city
  }

  /**
   * `get_weather` on the provider's answer: the body is decoded before the status is
   * looked at, so an undecodable body fails the check whatever the status; the
   * readings are read only on status 200.
   */
  function GetWeather(city: string, response: Response): (r: Report)
    ensures City(r) == city
    ensures r.Conditions? <==> response.Responded? && response.status == 200 && response.body.Readings?
    ensures r.Unavailable? <==>
      response.Responded? && response.status != 200 && !response.body.Unparsable?
    ensures r.Conditions? ==>
      && r.temp == response.body.temp && r.wind == response.body.wind
      && r.humidity == response.body.humidity && r.description == response.body.description
      && r.assessment == Assess(r.temp, r.wind)
    ensures r.CheckFailed? ==>
      r.error == (if response.Raised? then response.error else response.body.error)
  {
    match response
    case Raised(e) => CheckFailed(city, e)
    case Responded(status, body) =>
      match body
      case Unparsable(e) => CheckFailed(city, e)
      case Incomplete(e) => if status == 200 then CheckFailed(city, e) else Unavailable(city)
      case Readings(temp, description, humidity, wind) =>
        if status == 200 then Conditions(city, temp, description, humidity, wind, Assess(temp, wind))
        else Unavailable(city)
  }

  /** High wind makes shipping risky whatever the temperature, in every report that has readings. */
  lemma WindDominates(city: string, temp: real, description: string, humidity: real, wind: real)
    requires wind > WindLimit
    ensures GetWeather(city, Responded(200, Readings(temp, description, humidity, wind))).assessment
      == RiskyHighWinds
  {
  }

  /**
   * The words a report with readings uses for its assessment, in terms of the thresholds:
   * the high-wind phrase above 15 m/s, the extreme-temperature phrase outside [0, 45] °C
   * at lower wind, and "suitable" otherwise.
   */
  lemma ConditionsPhrase(city: string, temp: real, description: string, humidity: real, wind: real)
    ensures var r := GetWeather(city, Responded(200, Readings(temp, description, humidity, wind)));
      && r.Conditions?
      && (Phrase(r.assessment) == "risky due to high winds" <==> wind > WindLimit)
      && (Phrase(r.assessment) == "challenging due to extreme temperature" <==>
            wind <= WindLimit && (temp < ColdLimit || temp > HeatLimit))
      && (Phrase(r.assessment) == "suitable" <==> wind <= WindLimit && ColdLimit <= temp <= HeatLimit)
  {
  }

  /** The assessment only grows more cautious as the wind rises. */
  lemma AssessMonotoneInWind(temp: real, w1: real, w2: real)
    requires w1 <= w2
    ensures Assess(temp, w2) == Suitable ==> Assess(temp, w1) == Suitable
    ensures Assess(temp, w1) == RiskyHighWinds ==> Assess(temp, w2) == RiskyHighWinds
  {
  }
}

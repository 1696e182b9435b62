/**
 * The weather widget's `fetchWeather`: where the location comes from (the `district` prop,
 * else the user's profile), which requests are made, and the `(weather, location, loading,
 * error)` state each outcome leaves. The replies of the profile route and of the weather
 * route are parameters; the requests made are returned in order.
 */
module WeatherWidget {
  import opened Common
  import opened Json
  import opened LocalStorage

  const WEATHER_FAILED := "Failed to fetch weather data"
  const PROFILE_FAILED := "Failed to fetch user profile"
  const LOCATION_NOT_SET := "Location not set. Please update your profile."

  /** A request the widget makes: the profile with its authorization header, or the weather of a location. */
  datatype Request = ProfileRequest(authorization: string) | WeatherRequest(location: string)

  /** The header `Bearer ${token}`: a missing token is interpolated as "null". */
  function Authorization(token: Option<string>): (h: string)
    ensures token.Some? ==> h == "Bearer " + token.value
    ensures token.None? ==> h == "Bearer null"
  {
    "Bearer " + if token.Some? then token.value else "null"
  }

  /**
   * The weather request's outcome: the weather data, or the message of what was thrown —
   * the rejection, `errorData.message || "Failed to fetch weather data"` for a response that
   * is not OK, or the failure of reading the body.
   */
  function WeatherOutcome(reply: HttpReply): (r: Result<Json, string>)
    ensures r.Ok? <==> reply.Answered? && reply.ok && reply.body.Ok?
    ensures r.Ok? ==> r.value == reply.body.value
    ensures reply.Unreachable? ==> r == Err(reply.message)
    ensures reply.Answered? && !reply.ok ==> r == Err(ErrorMessage(reply.body, "message", WEATHER_FAILED))
    ensures reply.Answered? && reply.ok && reply.body.Err? ==> r == Err(reply.body.error)
  {
    match reply
    case Unreachable(message) => Err(message)
    case Answered(ok, body) =>
      if !ok then Err(ErrorMessage(body, "message", WEATHER_FAILED))
      else body
  }

  /**
   * The profile request's outcome: `profile.district || profile.location`, or the message of
   * what was thrown — the rejection, "Failed to fetch user profile" for a response that is not
   * OK (its body is not read), the failure of reading the body, or the TypeError of reading
   * `district` on a null profile.
   */
  function LocationOutcome(reply: HttpReply): (r: Result<Js, string>)
    ensures reply.Unreachable? ==> r == Err(reply.message)
    ensures reply.Answered? && !reply.ok ==> r == Err(PROFILE_FAILED)
    ensures reply.Answered? && reply.ok && reply.body.Err? ==> r == Err(reply.body.error)
    ensures reply.Answered? && reply.ok && reply.body == Ok(JNull) ==> r == Err(NullRead("district"))
    ensures reply.Answered? && reply.ok && reply.body.Ok? && reply.body.value != JNull ==>
              var profile := reply.body.value;
              && r.Ok?
              && (Truthy(Member(profile, "district")) ==> r.value == Member(profile, "district"))
              && (!Truthy(Member(profile, "district")) ==> r.value == Member(profile, "location"))
  {
    match reply
    case Unreachable(message) => Err(message)
    case Answered(ok, body) =>
      if !ok then Err(PROFILE_FAILED)
      else
        match body
        case Err(message) => Err(message)
        case Ok(profile) =>
          if profile == JNull then Err(NullRead("district"))
          else
            var district := Member(profile, "district");
            Ok(if Truthy(district) then district else Member(profile, "location"))
  }

  /** A profile's location is usable exactly when it is truthy; a district wins over the location. */
  lemma DistrictBeforeLocation(profile: map<string, Json>)
    ensures var r := LocationOutcome(Answered(true, Ok(JObj(profile))));
            && ("district" in profile && Truthy(Value(profile["district"])) ==> r == Ok(Value(profile["district"])))
            && ("district" !in profile && "location" in profile ==> r == Ok(Value(profile["location"])))
            && ("district" !in profile && "location" !in profile ==> r == Ok(Undefined) && !Truthy(r.value))
  {
  }

  class Widget {
    var weather: Json
    var location: Json
    var loading: bool
    var error: Option<string>

    /** No weather, no location, loading, no error. */
    constructor ()
      ensures weather == JNull && location == JNull && loading && error == None
    {
      weather := JNull;
      location := JNull;
      loading := true;
      error := None;
    }

    /** The end of both branches: the weather request's outcome becomes the weather or the error. */
    method ShowWeather(reply: HttpReply)
      modifies this
      ensures WeatherOutcome(reply).Ok? ==> weather == WeatherOutcome(reply).value && error == old(error)
      ensures WeatherOutcome(reply).Err? ==> weather == old(weather) && error == Some(WeatherOutcome(reply).error)
      ensures location == old(location) && loading == old(loading)
    {
      var outcome := WeatherOutcome(reply);
      match outcome {
        case Ok(data) => weather := data;
        case Err(message) => error := Some(message);
      }
    }

    /**
     * `fetchWeather`. A truthy `district` prop becomes the location and is the only request.
     * Otherwise the profile is requested with the stored token; a failure there, or a profile
     * with neither district nor location, sets the error and requests no weather; else the
     * profile's location is shown and its weather requested. Loading ends on every path.
     */
    method FetchWeather(districtProp: Option<string>, store: Store, profileReply: HttpReply, weatherReply: HttpReply)
      returns (requests: seq<Request>)
      modifies this
      ensures !loading
      ensures Given(districtProp) ==>
                && requests == [WeatherRequest(districtProp.value)]
                && location == JStr(districtProp.value)
      ensures !Given(districtProp) ==>
                |requests| >= 1 && requests[0] == ProfileRequest(Authorization(store.GetItem(TOKEN_KEY)))
      ensures !Given(districtProp) && LocationOutcome(profileReply).Err? ==>
                && requests == [ProfileRequest(Authorization(store.GetItem(TOKEN_KEY)))]
                && error == Some(LocationOutcome(profileReply).error)
                && weather == old(weather) && location == old(location)
      ensures !Given(districtProp) && LocationOutcome(profileReply).Ok? && !Truthy(LocationOutcome(profileReply).value) ==>
                && requests == [ProfileRequest(Authorization(store.GetItem(TOKEN_KEY)))]
                && error == Some(LOCATION_NOT_SET)
                && weather == old(weather) && location == old(location)
      ensures !Given(districtProp) && LocationOutcome(profileReply).Ok? && Truthy(LocationOutcome(profileReply).value) ==>
                var found := LocationOutcome(profileReply).value.v;
                && requests == [ProfileRequest(Authorization(store.GetItem(TOKEN_KEY))), WeatherRequest(ToText(found))]
                && location == found
      ensures (Given(districtProp) || (LocationOutcome(profileReply).Ok? && Truthy(LocationOutcome(profileReply).value))) ==>
                && (WeatherOutcome(weatherReply).Ok? ==> weather == WeatherOutcome(weatherReply).value && error == None)
                && (WeatherOutcome(weatherReply).Err? ==>
                      weather == old(weather) && error == Some(WeatherOutcome(weatherReply).error))
    {
      loading := true;
      error := None;
      if Given(districtProp) {
        location := JStr(districtProp.value);
        requests := [WeatherRequest(districtProp.value)];
        ShowWeather(weatherReply);
        loading := false;
        return;
      }
      requests := [ProfileRequest(Authorization(store.GetItem(TOKEN_KEY)))];
      var found := LocationOutcome(profileReply);
      if found.Err? {
        error := Some(found.error);
      } else if !Truthy(found.value) {
        error := Some(LOCATION_NOT_SET);
      } else {
        location := found.value.v;
        requests := requests + [WeatherRequest(ToText(found.value.v))];
        ShowWeather(weatherReply);
      }
      loading := false;
    }
  }
}

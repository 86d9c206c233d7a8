/** How the handler finds out which device is calling: the `x-device-id`
    header, or else a `device_id` field in a JSON body. The value is only a
    bearer string; nothing verifies it. */
module Identity {
  import opened Wrappers
  import opened Text
  import opened Notes

  /** The only two spellings of the header the handler looks up. */
  const LowerHeader := "x-device-id"
  const MixedHeader := "X-Device-Id"

  /** The header is present with a non-empty (truthy) value. */
  predicate Given(headers: map<string, string>, name: string) {
    name in headers && headers[name] != ""
  }

  /** The body gets in the way of the identity lookup with a Python type
      error: it is not a JSON object, or its `device_id` is a truthy value
      that is not a string. */
  predicate IdTypeError(body: Body) {
    || body.NonObject?
    || (body.Object? && "device_id" in body.fields && body.fields["device_id"] == NonString(true))
  }

  /** What a `device_id` field of the body yields. A field that is missing or
      falsy counts as no identity; a truthy non-string value cannot be
      stripped, which Python reports as an unexpected error; a non-object
      body has no `.get`, with the same outcome. A body that is absent,
      `None` or not valid JSON is ignored. */
  function BodyDeviceId(body: Body): (r: Result<string, Failure>)
    ensures r.Ok? <==> body.Object? && "device_id" in body.fields
                       && body.fields["device_id"].Str? && body.fields["device_id"].text != ""
    ensures r.Ok? ==> r.value == Strip(body.fields["device_id"].text)
    ensures r.Err? ==> r.error in {MissingDeviceId, Unexpected}
    ensures r == Err(Unexpected) <==> IdTypeError(body)
  {
    match body
    case Object(fields) =>
      if "device_id" !in fields then Err(MissingDeviceId)
      else (
        match fields["device_id"]
        case Str(s) => if s == "" then Err(MissingDeviceId) else Ok(Strip(s))
        case NonString(truthy) => if truthy then Err(Unexpected) else Err(MissingDeviceId)
      )
    case NonObject => Err(Unexpected)
    case _ => Err(MissingDeviceId)
  }

  /** The caller's device id. A non-empty header wins, lower-case spelling
      first; the body is consulted only when neither header gives a value.
      The emptiness test comes before the trim, so the result is the trim of
      a non-empty raw string and may itself be empty. */
  function DeviceIdOf(ev: Event): (r: Result<string, Failure>)
    ensures Given(ev.headers, LowerHeader) ==> r == Ok(Strip(ev.headers[LowerHeader]))
    ensures (!Given(ev.headers, LowerHeader) && Given(ev.headers, MixedHeader)) ==>
              r == Ok(Strip(ev.headers[MixedHeader]))
    ensures (!Given(ev.headers, LowerHeader) && !Given(ev.headers, MixedHeader)) ==> r == BodyDeviceId(ev.body)
    ensures r.Ok? ==> Stripped(r.value)
    ensures r.Err? ==> r.error in {MissingDeviceId, Unexpected}
  {
    if Given(ev.headers, LowerHeader) then Ok(Strip(ev.headers[LowerHeader]))
    else if Given(ev.headers, MixedHeader) then Ok(Strip(ev.headers[MixedHeader]))
    else BodyDeviceId(ev.body)
  }

  /** The header value as a JSON-ish value, or `None` when the header is absent. */
  function HeaderValue(headers: map<string, string>, name: string): Option<JsonValue> {
    if name in headers then Some(Str(headers[name])) else None
  }

  /** Python truthiness of a looked-up value. */
  predicate Truthy(v: Option<JsonValue>) {
    v.Some? && match v.value
               case Str(s) => s != ""
               case NonString(truthy) => truthy
  }

  /** `get_device_id`, step by step: the local `device_id` is reassigned
      from the first header, the second header and the body in turn. */
  method GetDeviceId(ev: Event) returns (r: Result<string, Failure>)
    ensures r == DeviceIdOf(ev)
  {
    var deviceId := HeaderValue(ev.headers, LowerHeader);
    if !Truthy(deviceId) {
      deviceId := HeaderValue(ev.headers, MixedHeader);
    }
    if !Truthy(deviceId) {
      match ev.body {
        case Object(fields) =>
          deviceId := if "device_id" in fields then Some(fields["device_id"]) else None;
        case NonObject =>
          return Err(Unexpected);
        case _ =>
      }
    }
    if !Truthy(deviceId) {
      return Err(MissingDeviceId);
    }
    match deviceId.value {
      case Str(s) => r := Ok(Strip(s));
      case NonString(_) => r := Err(Unexpected);
    }
  }
}

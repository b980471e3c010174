/** The `Inverter` client of the ZCS Azzurro portal API: one device identity
    (client token, thing serial, display name), the request envelopes it sends
    for realtime data and for alarms, and the way it turns the answer into
    either the device's data record or an error. The HTTP POST is a
    `Transport` given by the caller. */
module ZcsInverter {
  import opened Wrappers
  import opened PyJson
  import opened Errors
  import opened Http
  import opened Strings

  // Transport settings of the portal.
  const Endpoint := "https://third.zcsazzurroportal.com:19003"
  const AuthKey := "Authorization"
  const AuthValue := "Zcs eHWAeEq0aYO0"
  const ClientAuthKey := "client"
  const ContentTypeKey := "Content-Type"
  const ContentType := "application/json"
  const RequestTimeout: nat := 5

  // Keys of the request and response envelopes.
  const CommandKey := "command"
  const ParamsKey := "params"
  const ThingKey := "thingKey"
  const RequiredValuesKey := "requiredValues"
  const SuccessKey := "success"
  const ValuesKey := "value"

  // The wildcard asking for every field, and the separator of a field list.
  const RequiredValuesAll := "*"
  const RequiredValuesSep := ","

  /** The two operations in use. Each has a top-level envelope key and a
      command value; the portal uses the same word for both. */
  datatype Operation = RealtimeData | DeviceAlarm {
    function Key(): string {
      match this
      case RealtimeData => "realtimeData"
      case DeviceAlarm => "deviceAlarm"
    }

    function Command(): string {
      match this
      case RealtimeData => "realtimeData"
      case DeviceAlarm => "deviceAlarm"
    }
  }

  /** The `requiredValues` parameter: the requested field names joined with
      commas, or the wildcard when no list or an empty list is given. */
  function RequiredValues(fields: Option<seq<string>>): (r: string)
    ensures r == RequiredValuesAll <==> fields.None? || fields.value == [] || fields.value == [RequiredValuesAll]
  {
    var requested := if fields.None? || fields.value == [] then [RequiredValuesAll] else fields.value;
    assert |requested| > 1 ==> Join(RequiredValuesSep, requested)[|requested[0]|] == ',';
    Join(RequiredValuesSep, requested)
  }

  /** The request body for one operation, as the portal expects it:
      `{op: {"command": op, "params": {"thingKey": serial, "requiredValues": rv}}}`. */
  function Envelope(op: Operation, serial: string, requiredValues: string): (r: Json)
    ensures r.Object? && r.fields.Keys == {op.Key()}
    ensures var inner := r.fields[op.Key()];
      && inner.Object? && inner.fields.Keys == {CommandKey, ParamsKey}
      && inner.fields[CommandKey] == String(op.Command())
      && var params := inner.fields[ParamsKey];
      && params.Object? && params.fields.Keys == {ThingKey, RequiredValuesKey}
      && params.fields[ThingKey] == String(serial)
      && params.fields[RequiredValuesKey] == String(requiredValues)
  {
    Object(map[op.Key() := Object(map[
      CommandKey := String(op.Command()),
      ParamsKey := Object(map[
        ThingKey := String(serial),
        RequiredValuesKey := String(requiredValues)])])])
  }

  /** Reference reading of a response body, independent of how the client
      walks it: the `success` flag under the operation key, when present. */
  predicate HasFlag(body: Json, op: Operation) {
    && body.Object? && op.Key() in body.fields
    && body.fields[op.Key()].Object?
    && SuccessKey in body.fields[op.Key()].fields
  }

  function Flag(body: Json, op: Operation): Json
    requires HasFlag(body, op)
  {
    body.fields[op.Key()].fields[SuccessKey]
  }

  /** Reference reading of a response body: the device record sits at
      `body[op]["params"]["value"][0][serial]`, every step a dict key or the
      head of a non-empty list. */
  predicate HasPayload(body: Json, op: Operation, serial: string) {
    && body.Object? && op.Key() in body.fields
    && var data := body.fields[op.Key()];
    && data.Object? && ParamsKey in data.fields
    && var params := data.fields[ParamsKey];
    && params.Object? && ValuesKey in params.fields
    && var values := params.fields[ValuesKey];
    && values.Array? && values.items != []
    && values.items[0].Object? && serial in values.items[0].fields
  }

  function Payload(body: Json, op: Operation, serial: string): Json
    requires HasPayload(body, op, serial)
  {
    body.fields[op.Key()].fields[ParamsKey].fields[ValuesKey].items[0].fields[serial]
  }

  /** The response body the portal sends back for one device, per its
      documented schema `{op: {"success": flag, "params": {"value": [{serial: data}]}}}`. */
  function ResponseBody(op: Operation, serial: string, data: Json, success: bool): Json {
    Object(map[op.Key() := Object(map[
      SuccessKey := Bool(success),
      ParamsKey := Object(map[ValuesKey := Array([Object(map[serial := data])])])])])
  }

  /** One inverter as the client knows it. The three fields are set when the
      client is created and never change afterwards. */
  datatype Inverter = Inverter(client: string, thingSerial: string, name: string) {

    /** The identifier `"{client}_{serial}"`. */
    function Identifier(): (r: string)
      ensures |r| == |client| + 1 + |thingSerial|
      ensures r[..|client|] == client && r[|client|] == '_' && r[|client| + 1..] == thingSerial
    {
      client + "_" + thingSerial
    }

    /** The headers of every POST: the portal's fixed authorization value,
        this client's token, and the JSON content type. */
    function Headers(): (h: map<string, string>)
      ensures h.Keys == {AuthKey, ClientAuthKey, ContentTypeKey}
      ensures h[ClientAuthKey] == client
      ensures h[AuthKey] == AuthValue && h[ContentTypeKey] == ContentType
    {
      map[AuthKey := AuthValue, ClientAuthKey := client, ContentTypeKey := ContentType]
    }

    /** The POST that sends `data` to the portal. */
    function HttpPost(data: Json): (r: Request)
      ensures r.json == data && ClientAuthKey in r.headers && AuthKey in r.headers && r.headers[ClientAuthKey] == client && r.headers[AuthKey] == AuthValue
      ensures r.url == Endpoint && r.timeoutSeconds == 5
    {
      Request(Endpoint, Headers(), data, RequestTimeout)
    }

    /** Issues the POST; a 401 answer is refused at once, before anything
        looks at its body. Every other answer is handed back. */
    function PostRequest(data: Json, transport: Transport): (r: Result<Response>)
      ensures var response := transport(HttpPost(data));
        && (r.Err? <==> response.status == 401)
        && (r.Err? ==> r.error == HttpRequestError(AuthenticationError))
        && (r.Ok? ==> r.value == response)
    {
      var response := transport(HttpPost(data));
      if response.status == 401 then Err(HttpRequestError(AuthenticationError))
      else Ok(response)
    }

    /** Reads the answer to `op` once the status was accepted: the operation's
        sub-object, its `success` flag (falsy means the device is offline),
        then the record `[params][value][0][serial]`. A missing key, an empty
        list or a value of the wrong kind raises Python's own lookup error. */
    function Unwrap(op: Operation, body: Json): (r: Result<Json>)
      ensures r.Ok? <==> HasFlag(body, op) && Truthy(Flag(body, op)) && HasPayload(body, op, thingSerial)
      ensures r.Ok? ==> r.value == Payload(body, op, thingSerial)
      ensures r == Err(DeviceOfflineError) <==> HasFlag(body, op) && !Truthy(Flag(body, op))
      ensures r.Err? ==> !r.error.HttpRequestError?
    {
      match GetItem(body, op.Key())
      case Raised(e) => Err(Uncaught(e))
      case Found(data) =>
        match GetItem(data, SuccessKey)
        case Raised(e) => Err(Uncaught(e))
        case Found(flag) =>
          if !Truthy(flag) then Err(DeviceOfflineError)
          else
            match GetItem(data, ParamsKey).Item(ValuesKey).First().Item(thingSerial)
            case Found(record) => Ok(record)
            case Raised(e) => Err(Uncaught(e))
    }

    /** The body of a realtime-data request for the given field list. */
    function RealtimeDataEnvelope(fields: Option<seq<string>>): (r: Json)
      ensures Found(r).Item(RealtimeData.Key()).Item(CommandKey) == Found(String("realtimeData"))
      ensures Found(r).Item(RealtimeData.Key()).Item(ParamsKey).Item(ThingKey) == Found(String(thingSerial))
      ensures Found(r).Item(RealtimeData.Key()).Item(ParamsKey).Item(RequiredValuesKey)
              == Found(String(RequiredValues(fields)))
    {
      Envelope(RealtimeData, thingSerial, RequiredValues(fields))
    }

    /** Fetches realtime data. A non-ok status (other than 401, refused
        earlier) raises HttpRequestError reporting the status code. */
    function RealtimeDataRequest(fields: Option<seq<string>>, transport: Transport): (r: Result<Json>)
      ensures var response := transport(HttpPost(RealtimeDataEnvelope(fields)));
        && (response.status == 401 ==> r == Err(HttpRequestError(AuthenticationError)))
        && (response.status != 401 && !response.Ok() ==>
              r == Err(HttpRequestError(BadStatus(Some(response.status)))))
        && (response.Ok() ==> r == Unwrap(RealtimeData, response.body))
    {
      match PostRequest(RealtimeDataEnvelope(fields), transport)
      case Err(e) => Err(e)
      case Ok(response) =>
        if !response.Ok() then Err(HttpRequestError(BadStatus(Some(response.status))))
        else Unwrap(RealtimeData, response.body)
    }

    /** The body of an alarms request: always every field. */
    function AlarmsEnvelope(): (r: Json)
      ensures Found(r).Item(DeviceAlarm.Key()).Item(ParamsKey).Item(RequiredValuesKey) == Found(String(RequiredValuesAll))
    {
      Envelope(DeviceAlarm, thingSerial, Join(RequiredValuesSep, [RequiredValuesAll]))
    }

    /** Fetches the alarm list. A non-ok status (other than 401) raises
        HttpRequestError whose message carries no status code. */
    function AlarmsRequest(transport: Transport): (r: Result<Json>)
      ensures var response := transport(HttpPost(AlarmsEnvelope()));
        && (response.status == 401 ==> r == Err(HttpRequestError(AuthenticationError)))
        && (response.status != 401 && !response.Ok() ==> r == Err(HttpRequestError(BadStatus(None))))
        && (response.Ok() ==> r == Unwrap(DeviceAlarm, response.body))
    {
      match PostRequest(AlarmsEnvelope(), transport)
      case Err(e) => Err(e)
      case Ok(response) =>
        if !response.Ok() then Err(HttpRequestError(BadStatus(None)))
        else Unwrap(DeviceAlarm, response.body)
    }

    /** Asks for realtime data with an empty field list and reports whether
        that worked. HttpRequestError and DeviceOfflineError become `false`;
        any other exception propagates. */
    function CheckConnection(transport: Transport): (r: Result<bool>)
      ensures var outcome := RealtimeDataRequest(Some([]), transport);
        && (r == Ok(true) <==> outcome.Ok?)
        && (r == Ok(false) <==> outcome.Err? && (outcome.error.HttpRequestError? || outcome.error.DeviceOfflineError?))
        && (r.Err? <==> outcome.Err? && outcome.error.Uncaught?)
        && (r.Err? ==> r.error == outcome.error)
    {
      match RealtimeDataRequest(Some([]), transport)
      case Ok(_) => Ok(true)
      case Err(HttpRequestError(_)) => Ok(false)
      case Err(DeviceOfflineError) => Ok(false)
      case Err(Uncaught(e)) => Err(Uncaught(e))
    }
  }

  /** Creates the client: the name defaults to the serial when it is missing
      or empty (Python's `name or serial`). */
  function New(client: string, thingSerial: string, name: Option<string>): (r: Inverter)
    ensures r.client == client && r.thingSerial == thingSerial
    ensures name.Some? && name.value != "" ==> r.name == name.value
    ensures name.None? || name == Some("") ==> r.name == thingSerial
    ensures r.name == "" ==> thingSerial == ""
  {
    var given := if name.Some? then name.value else "";
    Inverter(client, thingSerial, if given != "" then given else thingSerial)
  }
}

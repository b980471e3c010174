/** Properties of the client that relate several calls, several inputs or
    several responses: what the request envelopes carry, that the outcome of
    a refused status never depends on the body, that a well-formed answer
    round-trips its record unchanged, and what `CheckConnection` reports. */
module InverterProperties {
  import opened Wrappers
  import opened PyJson
  import opened Errors
  import opened Http
  import opened Strings
  import opened ZcsInverter

  /** No field list and an empty field list both ask for every field. */
  lemma RequiredValuesWildcard(fields: Option<seq<string>>)
    requires fields.None? || fields == Some([])
    ensures RequiredValues(fields) == "*"
  {
  }

  /** A single requested field is sent verbatim, even an empty name or one
      containing a comma: only a missing or empty list means the wildcard. */
  lemma RequiredValuesSingle(field: string)
    ensures RequiredValues(Some([field])) == field
  {
  }

  /** A non-empty list of field names without commas is sent so that the
      portal can split it back into exactly the same names, in order. */
  lemma RequiredValuesRoundTrip(fields: seq<string>)
    requires fields != []
    requires forall k :: 0 <= k < |fields| ==> ',' !in fields[k]
    ensures Split(RequiredValues(Some(fields)), ',') == fields
  {
    assert RequiredValuesSep == [','];
    SplitJoin(fields, ',');
  }

  /** Omitting the field list and passing `[]` give the same request, hence
      the same outcome against any portal. */
  lemma EmptyFieldListIsNoFieldList(inv: Inverter, transport: Transport)
    ensures inv.RealtimeDataEnvelope(None) == inv.RealtimeDataEnvelope(Some([]))
    ensures inv.RealtimeDataRequest(None, transport) == inv.RealtimeDataRequest(Some([]), transport)
  {
  }

  /** Every envelope has one top-level key, equal to its `command` value,
      and names the device by its serial under `params.thingKey`. */
  lemma EnvelopeNamesItsCommand(op: Operation, serial: string, requiredValues: string)
    ensures var r := Envelope(op, serial, requiredValues);
      && |r.fields| == 1
      && forall k :: k in r.fields ==>
           Found(r).Item(k).Item(CommandKey) == Found(String(k))
           && Found(r).Item(k).Item(ParamsKey).Item(ThingKey) == Found(String(serial))
  {
  }

  /** Both requests of an inverter are addressed to its own serial. */
  lemma RequestsNameTheDevice(inv: Inverter, fields: Option<seq<string>>)
    ensures Found(inv.RealtimeDataEnvelope(fields)).Item(RealtimeData.Key()).Item(ParamsKey).Item(ThingKey)
            == Found(String(inv.thingSerial))
    ensures Found(inv.AlarmsEnvelope()).Item(DeviceAlarm.Key()).Item(ParamsKey).Item(ThingKey)
            == Found(String(inv.thingSerial))
  {
  }

  /** When the status is refused (401 or any other non-ok code) the outcome
      of a realtime request is decided by the status alone: two portals that
      answer with the same status and different bodies give the same error. */
  lemma RealtimeRefusedStatusIgnoresBody(inv: Inverter, fields: Option<seq<string>>, t1: Transport, t2: Transport)
    requires var req := inv.HttpPost(inv.RealtimeDataEnvelope(fields));
      t1(req).status == t2(req).status && !t1(req).Ok()
    ensures inv.RealtimeDataRequest(fields, t1) == inv.RealtimeDataRequest(fields, t2)
    ensures inv.RealtimeDataRequest(fields, t1).Err? && inv.RealtimeDataRequest(fields, t1).error.HttpRequestError?
  {
  }

  /** The same for an alarms request. */
  lemma AlarmsRefusedStatusIgnoresBody(inv: Inverter, t1: Transport, t2: Transport)
    requires var req := inv.HttpPost(inv.AlarmsEnvelope());
      t1(req).status == t2(req).status && !t1(req).Ok()
    ensures inv.AlarmsRequest(t1) == inv.AlarmsRequest(t2)
    ensures inv.AlarmsRequest(t1).Err? && inv.AlarmsRequest(t1).error.HttpRequestError?
  {
  }

  /** An answer in the portal's documented shape round-trips: with `success`
      true the record for this serial comes back unchanged, with `success`
      false the device is reported offline. */
  lemma RealtimeResponseRoundTrip(inv: Inverter, fields: Option<seq<string>>, transport: Transport,
                                  status: int, data: Json, success: bool)
    requires Response(status, ResponseBody(RealtimeData, inv.thingSerial, data, success)).Ok()
    requires transport(inv.HttpPost(inv.RealtimeDataEnvelope(fields)))
             == Response(status, ResponseBody(RealtimeData, inv.thingSerial, data, success))
    ensures inv.RealtimeDataRequest(fields, transport) == if success then Ok(data) else Err(DeviceOfflineError)
  {
  }

  lemma AlarmsResponseRoundTrip(inv: Inverter, transport: Transport, status: int, data: Json, success: bool)
    requires Response(status, ResponseBody(DeviceAlarm, inv.thingSerial, data, success)).Ok()
    requires transport(inv.HttpPost(inv.AlarmsEnvelope()))
             == Response(status, ResponseBody(DeviceAlarm, inv.thingSerial, data, success))
    ensures inv.AlarmsRequest(transport) == if success then Ok(data) else Err(DeviceOfflineError)
  {
  }

  /** Conversely, a realtime request only succeeds on an accepted status, a
      truthy `success` flag and a record present at the documented path, and
      what it returns is that record. */
  lemma RealtimeOkOnlyWithRecord(inv: Inverter, fields: Option<seq<string>>, transport: Transport)
    requires inv.RealtimeDataRequest(fields, transport).Ok?
    ensures var response := transport(inv.HttpPost(inv.RealtimeDataEnvelope(fields)));
      && response.Ok()
      && HasFlag(response.body, RealtimeData) && Truthy(Flag(response.body, RealtimeData))
      && HasPayload(response.body, RealtimeData, inv.thingSerial)
      && inv.RealtimeDataRequest(fields, transport).value == Payload(response.body, RealtimeData, inv.thingSerial)
  {
  }

  /** `CheckConnection` is true exactly when a realtime request without a
      field list succeeds; false exactly for the library's two errors. */
  lemma CheckConnectionMeansRealtimeWorks(inv: Inverter, transport: Transport)
    ensures inv.CheckConnection(transport) == Ok(true) <==> inv.RealtimeDataRequest(None, transport).Ok?
    ensures inv.CheckConnection(transport) == Ok(false) <==>
      var outcome := inv.RealtimeDataRequest(None, transport);
      outcome.Err? && !outcome.error.Uncaught?
  {
  }

  /** An accepted answer with a truthy flag but no record at the documented
      path is not reported as "not connected": the lookup error escapes. */
  lemma CheckConnectionPropagatesMalformed(inv: Inverter, transport: Transport)
    requires var response := transport(inv.HttpPost(inv.RealtimeDataEnvelope(Some([]))));
      && response.Ok()
      && HasFlag(response.body, RealtimeData) && Truthy(Flag(response.body, RealtimeData))
      && !HasPayload(response.body, RealtimeData, inv.thingSerial)
    ensures inv.CheckConnection(transport).Err?
    ensures inv.CheckConnection(transport).error.Uncaught?
  {
  }

  /** For one client token the identifier determines the serial, and for one
      serial it determines the client token. */
  lemma IdentifierDeterminesSerial(a: Inverter, b: Inverter)
    requires a.Identifier() == b.Identifier()
    ensures a.client == b.client ==> a.thingSerial == b.thingSerial
    ensures a.thingSerial == b.thingSerial ==> a.client == b.client
  {
  }

  /** Across different client tokens the identifier is ambiguous when a
      token or a serial contains `_`. */
  lemma IdentifierCollides()
    ensures New("a_b", "c", None).Identifier() == New("a", "b_c", None).Identifier()
  {
  }
}

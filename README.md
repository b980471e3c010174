# ZCS Azzurro inverter client — a Dafny model

This project models the `Inverter` client of the ZCS Azzurro portal API
(`zcs_azzurro_api/inverter.py`). An inverter is known by a client token, a thing
serial and a display name. The client builds the JSON envelope for two portal
operations, `realtimeData` and `deviceAlarm`, POSTs it with fixed headers, and
reads the answer. A 401 status raises `HttpRequestError`. Any other non-ok status
raises `HttpRequestError` too. A falsy `success` flag raises `DeviceOfflineError`.
Otherwise the client returns the record found at `[op]["params"]["value"][0][serial]`.
`check_connection` turns the two library errors into `False`.

The model is pure, like the source: the inverter is an immutable datatype and every
operation is a function.
- The HTTP round trip is a `Transport`, a function from the `Request` the client
  builds (endpoint, header map, JSON body, timeout) to a `Response` (status code and
  decoded JSON body).
- Python's exceptions become a `Result`. `HttpRequestError` carries its cause: the
  401 refusal, or a bad status with the status code for realtime data and without
  it for alarms, following the two messages in the source.
- A body that lacks a key, has an empty list or has a value of the wrong kind makes
  Python raise `KeyError`, `IndexError` or `TypeError`. These are modelled step by
  step (`PyJson.GetItem`, `PyJson.GetFirst`) as `Uncaught` errors, which
  `check_connection` does not catch.
- `response.ok` is taken as the `requests` library defines it: false exactly for
  statuses 400 to 599. That library is not part of this model.

Files: `wrappers.dfy` (an optional value), `pyjson.dfy` (JSON values, Python subscripts and truthiness), `strings.dfy`
(`str.join` and the split that undoes it), `errors.dfy` (the outcome types,
`zcs_azzurro_api/errors.py`), `http.dfy` (request, response, transport),
`inverter.dfy` (the client), `properties.dfy` (lemmas relating several calls).

## Notes on the code

- The code has one `HttpRequestError` class for a 401 and for other bad statuses.
  There is no authentication error class and no timeout error class.
- The alarms error for a bad status does not report the status code.
- `check_connection` catches `HttpRequestError` and `DeviceOfflineError` and nothing else.

## Model

| member | source | states |
|---|---|---|
| ZcsInverter.New | zcs_azzurro_api/inverter.py:46-50 | client and serial are stored verbatim; the name is the given one when it is non-empty, otherwise the serial; the name is empty only when the serial is |
| ZcsInverter.Inverter.Identifier | zcs_azzurro_api/inverter.py:136-139 | the identifier is the client token, then `_`, then the serial, with nothing else |
| InverterProperties.IdentifierDeterminesSerial | zcs_azzurro_api/inverter.py:136-139 | for a fixed client token the identifier determines the serial, and for a fixed serial it determines the token |
| InverterProperties.IdentifierCollides | zcs_azzurro_api/inverter.py:136-139 | two inverters with different tokens and serials can share an identifier when `_` occurs in them |
| ZcsInverter.Inverter.Headers | zcs_azzurro_api/inverter.py:58-62 | the header dict handed to the POST has exactly three entries: the fixed authorization value, the client token under `client`, and the JSON content type |
| ZcsInverter.Inverter.HttpPost | zcs_azzurro_api/inverter.py:70-75 | the POST sends the given envelope as its JSON body, with the client token and the authorization value among its headers, to the portal endpoint with a 5-second timeout |
| ZcsInverter.Inverter.PostRequest | zcs_azzurro_api/inverter.py:70-78 | a 401 answer is refused with HttpRequestError before its body is looked at; every other answer is passed on unchanged |
| Strings.Join | zcs_azzurro_api/inverter.py:92-94 | `sep.join(parts)` is as long as the parts plus one separator between each pair of neighbours, begins with the first part, and puts the separator right after it |
| ZcsInverter.RequiredValues | zcs_azzurro_api/inverter.py:85-94 | `requiredValues` is the wildcard `*` exactly when the field list is missing, empty or just `["*"]`; RequiredValuesWildcard, RequiredValuesSingle and RequiredValuesRoundTrip state the rest |
| Strings.SplitJoin | zcs_azzurro_api/inverter.py:92-94 | joining parts on a one-character separator that no part contains, then splitting, gives back the same parts in order |
| InverterProperties.RequiredValuesRoundTrip | zcs_azzurro_api/inverter.py:85-94 | a non-empty field list without commas is sent as a `requiredValues` string that splits back into the same names in order |
| InverterProperties.RequiredValuesWildcard | zcs_azzurro_api/inverter.py:85-86 | a missing or empty field list is sent as the wildcard `*` |
| InverterProperties.RequiredValuesSingle | zcs_azzurro_api/inverter.py:85-94 | a one-element list is sent verbatim, even an empty name or one with a comma |
| InverterProperties.EmptyFieldListIsNoFieldList | zcs_azzurro_api/inverter.py:85-86 | no field list and `[]` give the same envelope and therefore the same outcome for any portal |
| ZcsInverter.Envelope | zcs_azzurro_api/inverter.py:87-97 | the envelope has the operation key as its only key; under it exactly `command` (the operation's command) and `params`, which holds exactly `thingKey` (the serial) and `requiredValues` |
| InverterProperties.EnvelopeNamesItsCommand | zcs_azzurro_api/inverter.py:87-97 | an envelope has one top-level key, its `command` equals that key, and its `thingKey` is the serial |
| ZcsInverter.Inverter.RealtimeDataEnvelope | zcs_azzurro_api/inverter.py:85-97 | the realtime envelope carries the command `realtimeData`, the inverter's serial as `thingKey` and the field list's `requiredValues` |
| InverterProperties.RequestsNameTheDevice | zcs_azzurro_api/inverter.py:112-122 | both the realtime and the alarms envelope of an inverter carry its own serial as `thingKey` |
| ZcsInverter.Inverter.AlarmsEnvelope | zcs_azzurro_api/inverter.py:109-122 | the alarms envelope always asks for `requiredValues` `*` |
| ZcsInverter.Inverter.Unwrap | zcs_azzurro_api/inverter.py:101-107 | success exactly when the `success` flag under the operation key is truthy and a record sits at `params.value[0][serial]`, and then it returns that record; DeviceOfflineError exactly when the flag is present and falsy; never HttpRequestError |
| ZcsInverter.Inverter.RealtimeDataRequest | zcs_azzurro_api/inverter.py:80-107 | status 401 gives the authentication HttpRequestError; any other non-ok status gives HttpRequestError reporting the status; an ok status hands the body to the unwrapping step |
| ZcsInverter.Inverter.AlarmsRequest | zcs_azzurro_api/inverter.py:109-134 | status 401 gives the authentication HttpRequestError; any other non-ok status gives HttpRequestError without a status; an ok status hands the body to the unwrapping step |
| InverterProperties.RealtimeRefusedStatusIgnoresBody | zcs_azzurro_api/inverter.py:98-100 | for a refused status (401 or other non-ok), the realtime outcome is an HttpRequestError that depends on the status alone, never on the body |
| InverterProperties.AlarmsRefusedStatusIgnoresBody | zcs_azzurro_api/inverter.py:123-125 | for a refused status, the alarms outcome is an HttpRequestError that depends on the status alone |
| InverterProperties.RealtimeResponseRoundTrip | zcs_azzurro_api/inverter.py:101-107 | an answer in the documented shape yields exactly the record it carries when `success` is true, and DeviceOfflineError when it is false |
| InverterProperties.AlarmsResponseRoundTrip | zcs_azzurro_api/inverter.py:126-134 | the same round trip for the alarms answer |
| InverterProperties.RealtimeOkOnlyWithRecord | zcs_azzurro_api/inverter.py:99-107 | a successful realtime request implies an ok status, a truthy flag and a record at the documented path, and it returns that record unchanged |
| ZcsInverter.Inverter.CheckConnection | zcs_azzurro_api/inverter.py:141-146 | true exactly when the realtime request with `[]` succeeds; false exactly when it raises HttpRequestError or DeviceOfflineError; any other error propagates unchanged |
| InverterProperties.CheckConnectionMeansRealtimeWorks | zcs_azzurro_api/inverter.py:141-146 | check_connection is true exactly when a realtime request without a field list succeeds, and false exactly for the library's two errors |
| InverterProperties.CheckConnectionPropagatesMalformed | zcs_azzurro_api/inverter.py:141-146 | an ok answer with a truthy flag but no record at the documented path makes check_connection raise a lookup error rather than return false |
| PyJson.Truthy | zcs_azzurro_api/inverter.py:103-104 | a value is falsy exactly when it is `None`, `False`, zero, `""`, `[]` or `{}`, as Python's `if not x` decides |
| PyJson.GetItem | zcs_azzurro_api/inverter.py:101 | a string subscript finds a value only in a dict that has the key; a dict without it raises KeyError |
| PyJson.GetFirst | zcs_azzurro_api/inverter.py:105-107 | `[0]` of a non-empty list is its first element; an empty list or string raises IndexError |

## Left out

- The network call of `requests.post`: the model hands the request to a caller-supplied transport. Timeouts and connection errors of `requests` are not modelled; no code in the repository handles them.
- JSON decoding of the answer (`response.json()`): the transport returns an already decoded body. A body that is not JSON is not modelled.
- Debug logging: it has no effect on results.
- Headers that the `requests` library adds to every POST (User-Agent, Accept-Encoding, Accept, Connection, Content-Length): the model records only the header dict the client builds.
- Exception messages: only the error kind is kept, plus the status code where a message reports it.
- `historicData` and the `start`/`end` parameter keys: no operation uses them.
- `zcs_azzurro_api/const.py` repeats the class constants and has no logic. `setup.py` is packaging metadata.
- PyJson.Truthy: a float NaN is truthy in Python but has no counterpart among Dafny reals, so it is not modelled.

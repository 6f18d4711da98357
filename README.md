# ZONAR-Connector: the `/tools/call` decision path

ZONAR-Connector is a small Fastify server that bridges a tool-calling protocol to the
Zonar vehicle-tracking feed. A client lists the tools (`GET /tools/list`) and calls one
(`POST /tools/call` with `{ name, arguments }`). Only `get_bus_location` does anything.
It fetches the vendor's current-positions XML, parses it with xml2js, finds the bus whose
`fleet` attribute equals `arguments.bus_id`, and answers with its latest GPS fix.

This project models, as pure Dafny functions:

- the static tool list and the listing body (`Tools`);
- the parsed vendor document, in the shapes xml2js produces with its default options
  (`Feed`): every child element is a list, attributes sit under `$`, and the text of an
  element with attributes sits under `_`. An element with neither attributes nor children
  is a plain string, and an empty one is the falsy empty string;
- the handler (`CallHandler.HandleCall`): the name gate, then the fetch-and-parse outcome,
  then the checks in source order. These are the error envelope (502), the missing
  container or asset list (404), the lookup (404 "Bus not found"), and the projection
  (200). Any TypeError on the way becomes a 500;
- the properties of that handler (`CallProperties`) and worked examples (`Scenarios`).

JavaScript details the model keeps:

- `undefined[0]` throws (500), but `[][0]` is `undefined`;
- `+undefined` and `+object` are NaN, which `JSON.stringify` writes as `null`;
- a property whose value is `undefined` is left out of the JSON body;
- `arguments` defaults to `{}` only when it is absent, so `arguments: null` makes
  `args.bus_id` throw;
- `===` on `fleet` and `bus_id` is strict, so an absent `bus_id` equals an absent
  `fleet` attribute.

`HandleCall` is built from small helpers, each one a piece of that JavaScript behaviour:

- `CallArguments` applies the `{}` default;
- `BusIdOf` reads `args.bus_id`;
- `First`, `CharContent` and `FirstMessage` model `list[0]`, `field._` and `error.message[0]`;
- `NumberOfField` models unary `+`, and `FieldValue` models how `JSON.stringify` writes a parsed element.

Their behaviour is stated through the handler lemmas below.

Responses are `Response(status, body)` with the body as a JSON value. The message of a
TypeError is the one V8 gives: `Cannot read properties of undefined (reading '0')`.

Behaviours of the code worth knowing, since a reader might expect otherwise:

- The code does not exclude malformed entries from the lookup. The lookup reads only `$`. A matched
  entry missing `lat`, `long`, `speed` or `time` makes the call fail with 500.
- There is no substring search, no `fetch` tool output and no readable timestamp. `search`
  and `fetch` are stubs answered with `{ ok: true }`, like every other name.
- The success body's keys are `lat`, `lon`, `speed` and `timestamp`.
- The "no assets" 404 does not echo the requested id.
- A non-2xx HTTP answer is not a transport error. Its text is parsed like any other.

## Model

| member | source | states |
|---|---|---|
| `Tools.Descriptors` | server.js:10-26 | exactly three tools, `search`, `fetch`, `get_bus_location`, in that order; the two stubs take a bare object schema; the location tool requires `bus_id` and limits `id_type` to fleet/dbid/vin/tag with default `fleet` |
| `Tools.ListBody` | server.js:8-28 | the listing body has the single key `tools`, holding three objects, which are the three descriptors rendered in order with their `name`, `description`, `parameters` and `result_schema` |
| `Tools.LocationToolListed` | server.js:13-25 | in the body sent, the third tool is `get_bus_location`; its `parameters` has exactly `type`, `properties` and `required`; `required` is `["bus_id"]`; `properties` has exactly `bus_id` and `id_type`, both of type `string`; `id_type` has enum fleet/dbid/vin/tag and default `fleet` |
| `CallHandler.HandleCall` | server.js:31-74 | the status is always 200, 404, 500 or 502; a name other than `get_bus_location` (or none) gets `{ ok: true }` with 200 whatever the feed; a failed fetch or parse gets 500 with the thrown message |
| `CallHandler.FindAsset` | server.js:57 | the result, when there is one, is a matching entry with no match before it; no result means that no entry matches |
| `CallHandler.Project` | server.js:64-69 | the projection succeeds exactly when the entry has `lat`, `long`, `time` and a non-empty `speed` list; its keys are `lat`, `lon`, `speed`, plus `timestamp` when `time` is non-empty; the values come from the first `lat`, `long`, `speed._` and `time`; a failure carries the TypeError of the first read that fails |
| `CallProperties.FindAssetSelects` | server.js:57 | the lookup returns position `i` exactly when `i` is the first entry in document order that matches, and nothing exactly when no entry matches |
| `CallProperties.SelectedIsUnique` | server.js:57 | at most one position is the first match |
| `CallProperties.MatchIsStrictEquality` | server.js:57 | an entry matches a given `bus_id` exactly when the id is a string, the entry has attributes, and its `fleet` attribute is that same string (case-sensitive, no substring); an id that is not a string never matches |
| `CallProperties.AbsentIdMatchesEntryWithoutFleet` | server.js:57 | with no `bus_id`, exactly the entries that have attributes but no `fleet` attribute match |
| `CallProperties.FindAssetAppend` | server.js:57 | the first match in `a + b` is the first match in `a`, or failing that the first match in `b` shifted past `a` |
| `CallProperties.ErrorEnvelopeDecides` | server.js:43-46 | a truthy `error` root decides the response whatever the arguments: 502 with the first vendor message when there is a `message` list, 500 with the TypeError when there is none |
| `CallProperties.MissingAssetsIsNotFound` | server.js:49-52 | with no truthy error and no `currentlocations.asset` list, the response is the fixed 404 "No assets found" body |
| `CallProperties.NoMatchEchoesBusId` | server.js:59-61 | when no entry matches, the response is 404 "Bus not found" carrying `bus_id` unchanged, and no `bus_id` key when the call had none |
| `CallProperties.MatchProjectsFirstValues` | server.js:63-69 | a readable selected entry gives 200 whose body has exactly `lat`, `lon`, `speed` and `timestamp`, from the first `lat`, `long` and `speed._` values and the first `time` value passed through |
| `CallProperties.MalformedMatchIsInternalError` | server.js:64-73 | a selected entry lacking a field the projection reads gives 500 "Internal Server Error" with the TypeError's message, instead of being skipped |
| `CallProperties.NullArgumentsIsInternalError` | server.js:57-73 | `arguments: null` with an asset list gives 500 with the TypeError for reading `bus_id` of null |
| `CallProperties.SuccessExactly` | server.js:43-69 | a location call answers 200 exactly when there is no truthy error, there is an asset list, `bus_id` is readable, and the first matching entry has every field the projection reads |
| `CallProperties.LaterEntriesIgnored` | server.js:57 | once an entry matches, appending further entries (duplicates included) does not change the response |
| `CallProperties.NonMatchingPrefixIgnored` | server.js:57 | entries that do not match, such as entries without attributes, can be dropped from the front of the list without changing the response |
| `CallProperties.IdTypeIgnored` | server.js:57-61 | the value of `id_type` never changes the response |
| `CallProperties.AbsentArgumentsIsEmptyObject` | server.js:32 | a call without `arguments` gets the same response as a call with `arguments: {}`, for every name and feed |
| `CallProperties.NoArgumentsSelectsFirstEntryWithoutFleet` | server.js:32-73 | a location call without `arguments` selects the first entry that has attributes but no `fleet` attribute; it answers 200 with that entry's projection exactly when the entry is readable, and 500 otherwise |
| `Scenarios.KnownBusIsLocated` | server.js:54-69 | fleet `101` in a two-bus feed gives 200 with its lat, lon, speed and timestamp |
| `Scenarios.UnknownBusEchoesId` | server.js:59-61 | fleet `999` in the same feed gives 404 `{ error: "Bus not found", bus_id: "999" }` |
| `Scenarios.LookupIsCaseSensitive` | server.js:57 | `a12` does not find fleet `A12` |
| `Scenarios.SpeedWithoutAttributesIsNull` | server.js:67 | a `<speed>` without attributes gives speed `null` |
| `Scenarios.VendorRejectionIsBadGateway` | server.js:43-46 | an error envelope with a message gives 502 forwarding that message |
| `Scenarios.EmptyErrorElementIsNoAssets` | server.js:43-52 | an empty `<error/>` root is falsy and ends in the "No assets" 404 |
| `Scenarios.EmptyContainerIsNoAssets` | server.js:49-52 | an empty `<currentlocations/>` gives the "No assets" 404 |
| `Scenarios.EmptyReplyIsInternalError` | server.js:40-73 | an empty vendor answer, which parses to `null`, gives 500 with the TypeError for reading `error` of null |
| `Scenarios.StubToolIsAcknowledged` | server.js:33 | calling `search` gives 200 `{ ok: true }` whatever the feed |

## Left out

- Fastify setup, route registration and `listen` (server.js:3, 76-79) are I/O plumbing.
- dotenv and the request URL built from credential environment variables (server.js:2, 36) are configuration. The fetch always asks for every asset.
- The network fetch and the xml2js parse (server.js:39-40) are not modelled. Their outcome is an input, `FeedResult`: a parsed document, or the message of the error either one threw.
- Field elements (`lat`, `long`, `speed`, `time`, `message`) with child elements are not modelled, since xml2js does not produce them for this feed.
- xml2js resolves to `null` for empty or whitespace-only text, for instance an empty error answer. Reading `json.error` then throws. That case is `Failed(ReadFailure("null", "error"))`, which gets 500 with that message.
- Unary `+` (server.js:65-67) is floating point. `JNumber(text)` stands for the number `+text` without interpreting the text. So two spellings of one number stay distinct, and a non-numeric text is not reduced to `null`.
- `console.error` logging is left out because it has no behavioural content.
- A `null` or absent request body is left out. Destructuring it throws outside the `try`, so Fastify's default error handler answers. A body that is a number, string, boolean or array does not throw. Its `name` is undefined, so it is `Request(None, None)` and gets `{ ok: true }`.
- Properties inherited through an object's prototype are left out. An `arguments` object is read only for its own `bus_id`.
- JSON property order is left out, because bodies are maps.
- TypeError messages follow V8's wording. Other JavaScript engines word them differently.
- `CallHandler.Respond` reads `args.bus_id` once, before the lookup. The source reads it inside the `find` callback and again on a miss. The outcome is the same, because every path past the container check reads it and a `null` argument throws the same TypeError at whichever read comes first.

/** The decision path of `POST /tools/call` (server.js:31-74), once the vendor's XML has
    been fetched and parsed: the result is the status and the JSON body the reply sends. */
module CallHandler {

  import opened Wrappers
  import opened Json
  import opened Feed
  import Tools

  /** The request body `{ name, arguments }`; either member may be absent. */
  datatype Request = Request(name: Option<Json>, arguments: Option<Json>)

  datatype Response = Response(status: nat, body: Json)

  const UpstreamFailure := "Failed to fetch data from Zonar"
  const NoAssets := "No assets found in Zonar response (expected <currentlocations> tag)"
  const BusNotFound := "Bus not found"
  const InternalFailure := "Internal Server Error"

  /** The call names the location tool: `name === 'get_bus_location'`. */
  predicate IsLocationCall(req: Request)
  {
    req.name == Some(JString(Tools.LocationTool))
  }

  /** `args`: the `arguments` member, `{}` when it is absent (a default does not apply to `null`). */
  function CallArguments(req: Request): (args: Json)
    ensures req.arguments.Some? ==> args == req.arguments.value
    ensures req.arguments.None? ==> args == JObject(map[])
  {
    if req.arguments.Some? then req.arguments.value else JObject(map[])
  }

  /** `args.bus_id`: `undefined` unless `args` is an object holding it; a TypeError on `null`. */
  function BusIdOf(args: Json): (r: Result<Option<Json>>)
    ensures r.Err? <==> args.JNull?
    ensures r.Err? ==> r.message == ReadFailure("null", "bus_id")
    ensures r.Ok? ==> (r.value.Some? <==> args.JObject? && "bus_id" in args.fields)
    ensures r.Ok? && r.value.Some? ==> r.value.value == args.fields["bus_id"]
  {
    match args
    case JNull => Err(ReadFailure("null", "bus_id"))
    case JObject(fields) => Ok(if "bus_id" in fields then Some(fields["bus_id"]) else None)
    case _ => Ok(None)
  }

  /** `allAssets.find(...)`, as the position of the entry it returns. */
  function FindAsset(assets: seq<AssetEntry>, busId: Option<Json>): (r: Option<nat>)
    ensures r.Some? ==> r.value < |assets| && Matches(assets[r.value], busId)
    ensures r.Some? ==> forall j :: 0 <= j < r.value ==> !Matches(assets[j], busId)
    ensures r.None? ==> forall j :: 0 <= j < |assets| ==> !Matches(assets[j], busId)
  {
    if |assets| == 0 then None
    else if Matches(assets[0], busId) then Some(0)
    else match FindAsset(assets[1..], busId)
      case None => None
      case Some(i) => Some(i + 1)
  }

  /** The fields an entry must carry for the projection to read them without a TypeError:
      `lat`, `long` and `time` lists, and a non-empty `speed` list. */
  predicate Readable(entry: AssetEntry)
  {
    entry.AssetObj? && "lat" in entry.children && "long" in entry.children
    && "time" in entry.children && "speed" in entry.children && |entry.children["speed"]| > 0
  }

  /** The object literal `{ lat, lon, speed, timestamp }` built from the matched entry;
      its members are read in that order, so the first failing read gives the message. */
  function Project(entry: AssetEntry): (r: Result<map<string, Json>>)
    ensures r.Ok? <==> Readable(entry)
    ensures r.Ok? ==>
              var ch := entry.children;
              && r.value.Keys == {"lat", "lon", "speed"} + (if |ch["time"]| > 0 then {"timestamp"} else {})
              && r.value["lat"] == NumberOfField(if |ch["lat"]| > 0 then Some(ch["lat"][0]) else None)
              && r.value["lon"] == NumberOfField(if |ch["long"]| > 0 then Some(ch["long"][0]) else None)
              && r.value["speed"] == NumberOfText(if ch["speed"][0].Tagged? then ch["speed"][0].content else None)
              && (|ch["time"]| > 0 ==> r.value["timestamp"] == FieldValue(ch["time"][0]))
    ensures r.Err? ==>
              r.message == ReadFailure("undefined",
                             if && entry.AssetObj? && "lat" in entry.children && "long" in entry.children
                                && "speed" in entry.children && |entry.children["speed"]| == 0
                             then "_" else "0")
  {
    var lat :- First(Member(entry, "lat"));
    var lon :- First(Member(entry, "long"));
    var speedField :- First(Member(entry, "speed"));
    var speed :- CharContent(speedField);
    var time :- First(Member(entry, "time"));
    Ok(WithOptional(map["lat" := NumberOfField(lat), "lon" := NumberOfField(lon), "speed" := NumberOfText(speed)],
                    "timestamp", if time.Some? then Some(FieldValue(time.value)) else None).fields)
  }

  function Acknowledge(): Response
  {
    Response(200, JObject(map["ok" := JBool(true)]))
  }

  function InternalError(message: string): Response
  {
    Response(500, JObject(map["error" := JString(InternalFailure), "message" := JString(message)]))
  }

  /** The checks of the `try` block, in source order, on the parsed document. */
  function Respond(doc: Document, args: Json): (r: Response)
    ensures r.status in {404, 500, 502} || (r.status == 200 && HasAssetList(doc))
  {
    if IsErrorEnvelope(doc) then
      match FirstMessage(doc.error)
      case Err(m) => InternalError(m)
      case Ok(message) => Response(502, WithOptional(map["error" := JString(UpstreamFailure)], "message", message))
    else if !HasAssetList(doc) then
      Response(404, JObject(map["error" := JString(NoAssets)]))
    else
      // In the source `args.bus_id` is read inside the `find` callback for every entry that
      // has attributes, and again when nothing matched: every path from here reads it, and
      // a `null` args throws the same TypeError wherever it is first read.
      match BusIdOf(args)
      case Err(m) => InternalError(m)
      case Ok(busId) =>
        var assets := Assets(doc);
        match FindAsset(assets, busId)
        case None => Response(404, WithOptional(map["error" := JString(BusNotFound)], "bus_id", busId))
        case Some(i) =>
          match Project(assets[i])
          case Err(m) => InternalError(m)
          case Ok(fields) => Response(200, JObject(fields))
  }

  /** The whole handler: the name gate, then the fetch-and-parse outcome, then `Respond`. */
  function HandleCall(req: Request, feed: FeedResult): (r: Response)
    ensures r.status in {200, 404, 500, 502}
    ensures !IsLocationCall(req) ==> r == Acknowledge()
    ensures IsLocationCall(req) && feed.Failed? ==> r == InternalError(feed.message)
  {
    if !IsLocationCall(req) then Acknowledge()
    else match feed
      case Failed(message) => InternalError(message)
      case Received(doc) => Respond(doc, CallArguments(req))
  }
}

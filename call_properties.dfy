/** What the `/tools/call` handler promises, stated over the model in `CallHandler`. */
module CallProperties {

  import opened Wrappers
  import opened Json
  import opened Feed
  import opened CallHandler
  import Tools

  /** A call of the location tool with the given `arguments`. */
  function LocationCall(args: Json): (req: Request)
    ensures IsLocationCall(req) && CallArguments(req) == args
  {
    Request(Some(JString(Tools.LocationTool)), Some(args))
  }

  /** A `<currentlocations>` document with the given asset entries. */
  function Listing(assets: seq<AssetEntry>): (doc: Document)
    ensures HasAssetList(doc) && Assets(doc) == assets && !IsErrorEnvelope(doc)
  {
    LocationsDoc(LocationsObj(Some(assets)))
  }

  /** Position `i` holds the entry the lookup must select: the first entry, in document
      order, whose `fleet` attribute strictly equals the requested id. */
  ghost predicate Selected(assets: seq<AssetEntry>, busId: Option<Json>, i: int)
  {
    0 <= i < |assets| && Matches(assets[i], busId)
    && forall j :: 0 <= j < i ==> !Matches(assets[j], busId)
  }

  lemma SelectedIsUnique(assets: seq<AssetEntry>, busId: Option<Json>, i: int, k: int)
    requires Selected(assets, busId, i) && Selected(assets, busId, k)
    ensures i == k
  {
  }

  /** `find` returns exactly the selected entry, and nothing when no entry matches. */
  lemma FindAssetSelects(assets: seq<AssetEntry>, busId: Option<Json>, i: int)
    ensures FindAsset(assets, busId) == Some(i) <==> Selected(assets, busId, i)
    ensures FindAsset(assets, busId).None? <==> forall j :: 0 <= j < |assets| ==> !Matches(assets[j], busId)
  {
  }

  /** Strict equality on the attribute: a string id selects only an entry whose `fleet`
      attribute is that very string (no case folding, no substring), and an id that is
      not a string never matches. */
  lemma MatchIsStrictEquality(entry: AssetEntry, busId: Json)
    ensures Matches(entry, Some(busId)) <==>
              && busId.JString? && entry.AssetObj? && entry.attrs.Some?
              && "fleet" in entry.attrs.value && entry.attrs.value["fleet"] == busId.s
  {
  }

  /** `undefined === undefined`: a call without `bus_id` matches every entry that has
      attributes but no `fleet` attribute, and no other entry. */
  lemma AbsentIdMatchesEntryWithoutFleet(entry: AssetEntry)
    ensures Matches(entry, None) <==> entry.AssetObj? && entry.attrs.Some? && "fleet" !in entry.attrs.value
  {
  }

  /** Splitting the entry list: the first match of `a + b` is the first match of `a`,
      or failing that the first match of `b`, shifted past `a`. */
  lemma {:induction false} FindAssetAppend(a: seq<AssetEntry>, b: seq<AssetEntry>, busId: Option<Json>)
    ensures FindAsset(a + b, busId) ==
              match FindAsset(a, busId)
              case Some(i) => Some(i)
              case None => match FindAsset(b, busId) case Some(k) => Some(|a| + k) case None => None
  {
    if |a| > 0 {
      assert (a + b)[0] == a[0];
      assert (a + b)[1..] == a[1..] + b;
      FindAssetAppend(a[1..], b, busId);
    } else {
      assert a + b == b;
    }
  }

  /** The top-level `error` check comes first: a truthy envelope decides the response
      whatever the call's arguments, as 502 with the first vendor message, or as 500
      when the envelope has no `message` list to index. */
  lemma ErrorEnvelopeDecides(req: Request, other: Request, error: ErrorElement)
    requires IsLocationCall(req) && IsLocationCall(other)
    requires IsErrorEnvelope(ErrorDoc(error))
    ensures var r := HandleCall(req, Received(ErrorDoc(error)));
      && r == HandleCall(other, Received(ErrorDoc(error)))
      && (r.status == 502 <==> error.ErrorObj? && error.message.Some?)
      && (r.status != 502 ==> r == InternalError(ReadFailure("undefined", "0")))
      && (r.status == 502 ==>
            && HasField(r.body, "error", JString(UpstreamFailure))
            && r.body.fields.Keys <= {"error", "message"}
            && ("message" in r.body.fields <==> |error.message.value| > 0)
            && ("message" in r.body.fields ==> r.body.fields["message"] == FieldValue(error.message.value[0])))
  {
  }

  /** No truthy `error`, and no `currentlocations` holding an `asset` list: the fixed 404,
      whatever the arguments. */
  lemma MissingAssetsIsNotFound(req: Request, doc: Document)
    requires IsLocationCall(req)
    requires !IsErrorEnvelope(doc) && !HasAssetList(doc)
    ensures HandleCall(req, Received(doc)) == Response(404, JObject(map["error" := JString(NoAssets)]))
  {
  }

  /** No entry matches: 404 `Bus not found`, echoing `bus_id` unchanged (and leaving the
      key out when the call had no `bus_id`). */
  lemma NoMatchEchoesBusId(args: Json, assets: seq<AssetEntry>)
    requires BusIdOf(args).Ok?
    requires forall j :: 0 <= j < |assets| ==> !Matches(assets[j], BusIdOf(args).value)
    ensures var r := HandleCall(LocationCall(args), Received(Listing(assets)));
      var busId := BusIdOf(args).value;
      && r.status == 404
      && HasField(r.body, "error", JString(BusNotFound))
      && r.body.fields.Keys <= {"error", "bus_id"}
      && ("bus_id" in r.body.fields <==> busId.Some?)
      && (busId.Some? ==> r.body.fields["bus_id"] == busId.value)
  {
  }

  /** A matched, readable entry: 200 with exactly `lat`, `lon`, `speed` and `timestamp`,
      the first `lat`, `long` and `speed._` values as numbers and the first `time` value
      passed through as parsed. */
  lemma MatchProjectsFirstValues(args: Json, assets: seq<AssetEntry>, i: int)
    requires BusIdOf(args).Ok? && Selected(assets, BusIdOf(args).value, i)
    requires Readable(assets[i]) && |assets[i].children["time"]| > 0
    ensures var r := HandleCall(LocationCall(args), Received(Listing(assets)));
      var ch := assets[i].children;
      && r.status == 200 && r.body.JObject?
      && r.body.fields.Keys == {"lat", "lon", "speed", "timestamp"}
      && r.body.fields["lat"] == NumberOfField(if |ch["lat"]| > 0 then Some(ch["lat"][0]) else None)
      && r.body.fields["lon"] == NumberOfField(if |ch["long"]| > 0 then Some(ch["long"][0]) else None)
      && r.body.fields["speed"] == NumberOfText(if ch["speed"][0].Tagged? then ch["speed"][0].content else None)
      && r.body.fields["timestamp"] == FieldValue(ch["time"][0])
  {
  }

  /** A matched entry that lacks a field the projection reads is not skipped: the call
      fails with 500 and the TypeError's message. */
  lemma MalformedMatchIsInternalError(args: Json, assets: seq<AssetEntry>, i: int)
    requires BusIdOf(args).Ok? && Selected(assets, BusIdOf(args).value, i)
    requires !Readable(assets[i])
    ensures var r := HandleCall(LocationCall(args), Received(Listing(assets)));
      && r.status == 500 && HasField(r.body, "error", JString(InternalFailure))
      && (HasField(r.body, "message", JString(ReadFailure("undefined", "0")))
          || HasField(r.body, "message", JString(ReadFailure("undefined", "_"))))
  {
  }

  /** `arguments: null` gets no `{}` default: reading `bus_id` throws once the document
      has an asset list. */
  lemma NullArgumentsIsInternalError(assets: seq<AssetEntry>)
    ensures HandleCall(LocationCall(JNull), Received(Listing(assets)))
            == InternalError(ReadFailure("null", "bus_id"))
  {
  }

  /** Exactly when a location call succeeds. */
  lemma SuccessExactly(args: Json, doc: Document)
    ensures HandleCall(LocationCall(args), Received(doc)).status == 200 <==>
              && !IsErrorEnvelope(doc) && HasAssetList(doc) && BusIdOf(args).Ok?
              && exists i :: Selected(Assets(doc), BusIdOf(args).value, i) && Readable(Assets(doc)[i])
  {
  }

  /** Entries after the first match play no part: duplicates of a fleet number are
      resolved in favour of the first one in document order. */
  lemma LaterEntriesIgnored(args: Json, a: seq<AssetEntry>, b: seq<AssetEntry>)
    requires BusIdOf(args).Ok? && exists i :: 0 <= i < |a| && Matches(a[i], BusIdOf(args).value)
    ensures HandleCall(LocationCall(args), Received(Listing(a + b)))
            == HandleCall(LocationCall(args), Received(Listing(a)))
  {
    var busId := BusIdOf(args).value;
    FindAssetAppend(a, b, busId);
    var k := FindAsset(a, busId).value;
    assert (a + b)[k] == a[k];
  }

  /** Entries before the first match that do not match (for instance those without
      attributes) are skipped: dropping them changes nothing. */
  lemma NonMatchingPrefixIgnored(args: Json, skipped: seq<AssetEntry>, rest: seq<AssetEntry>)
    requires BusIdOf(args).Ok?
    requires forall j :: 0 <= j < |skipped| ==> !Matches(skipped[j], BusIdOf(args).value)
    ensures HandleCall(LocationCall(args), Received(Listing(skipped + rest)))
            == HandleCall(LocationCall(args), Received(Listing(rest)))
  {
    var busId := BusIdOf(args).value;
    FindAssetAppend(skipped, rest, busId);
    if FindAsset(rest, busId).Some? {
      var k := FindAsset(rest, busId).value;
      assert (skipped + rest)[|skipped| + k] == rest[k];
    }
  }

  /** `id_type` is never read: whatever it holds, the response is the same. */
  lemma IdTypeIgnored(name: Option<Json>, fields: map<string, Json>, idType: Json, feed: FeedResult)
    ensures HandleCall(Request(name, Some(JObject(fields))), feed)
            == HandleCall(Request(name, Some(JObject(fields["id_type" := idType]))), feed)
  {
  }

  /** A call without `arguments` behaves as one with `arguments: {}`. */
  lemma AbsentArgumentsIsEmptyObject(name: Option<Json>, feed: FeedResult)
    ensures HandleCall(Request(name, None), feed) == HandleCall(Request(name, Some(JObject(map[]))), feed)
  {
  }

  /** A location call without `arguments` has no `bus_id`, so it selects the first entry
      that has attributes but no `fleet` attribute, and reports it like any match. */
  lemma NoArgumentsSelectsFirstEntryWithoutFleet(assets: seq<AssetEntry>, i: int)
    requires 0 <= i < |assets| && assets[i].AssetObj? && assets[i].attrs.Some?
    requires "fleet" !in assets[i].attrs.value
    requires forall j :: 0 <= j < i ==>
               !(assets[j].AssetObj? && assets[j].attrs.Some? && "fleet" !in assets[j].attrs.value)
    ensures var r := HandleCall(Request(Some(JString(Tools.LocationTool)), None), Received(Listing(assets)));
      && (r.status == 200 <==> Readable(assets[i]))
      && (Readable(assets[i]) ==> r.body == JObject(Project(assets[i]).value))
      && (!Readable(assets[i]) ==> r.status == 500)
  {
  }
}

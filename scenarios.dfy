/** Worked examples of the `/tools/call` handler on small vendor documents. */
module Scenarios {

  import opened Wrappers
  import opened Json
  import opened Feed
  import opened CallHandler
  import opened CallProperties

  /** An `<asset fleet="...">` entry with one value per field; `speed` carries a unit
      attribute, as the vendor sends it. */
  function Bus(fleet: string, lat: string, long: string, speed: string, time: string): AssetEntry
  {
    AssetObj(Some(map["fleet" := fleet]),
             map["lat" := [Text(lat)], "long" := [Text(long)],
                 "speed" := [Tagged(map["unit" := "Mile/Hour"], Some(speed))],
                 "time" := [Text(time)]])
  }

  function TwoBuses(): seq<AssetEntry>
  {
    [Bus("101", "10.0", "20.0", "5", "1700000000"), Bus("102", "11.0", "21.0", "0", "1700000060")]
  }

  function Ask(busId: string): Request
  {
    LocationCall(JObject(map["bus_id" := JString(busId), "id_type" := JString("fleet")]))
  }

  lemma KnownBusIsLocated()
    ensures HandleCall(Ask("101"), Received(Listing(TwoBuses())))
            == Response(200, JObject(map["lat" := JNumber("10.0"), "lon" := JNumber("20.0"),
                                         "speed" := JNumber("5"), "timestamp" := JString("1700000000")]))
  {
  }

  lemma UnknownBusEchoesId()
    ensures HandleCall(Ask("999"), Received(Listing(TwoBuses())))
            == Response(404, JObject(map["error" := JString(BusNotFound), "bus_id" := JString("999")]))
  {
  }

  lemma LookupIsCaseSensitive()
    ensures HandleCall(Ask("a12"), Received(Listing([Bus("A12", "1", "2", "3", "4")]))).status == 404
  {
  }

  /** A `<speed>` element without attributes parses to a plain string, whose `_` is
      `undefined`: the speed comes out as NaN, written `null`. */
  lemma SpeedWithoutAttributesIsNull()
    ensures var bus := AssetObj(Some(map["fleet" := "7"]),
                                map["lat" := [Text("1")], "long" := [Text("2")],
                                    "speed" := [Text("30")], "time" := [Text("4")]]);
            HandleCall(Ask("7"), Received(Listing([bus])))
            == Response(200, JObject(map["lat" := JNumber("1"), "lon" := JNumber("2"),
                                         "speed" := JNull, "timestamp" := JString("4")]))
  {
  }

  lemma VendorRejectionIsBadGateway()
    ensures HandleCall(Ask("101"), Received(ErrorDoc(ErrorObj(Some([Text("Invalid login")])))))
            == Response(502, JObject(map["error" := JString(UpstreamFailure), "message" := JString("Invalid login")]))
  {
  }

  /** `<error/>` parses to the falsy empty string, so the envelope check lets it through
      and the container check answers. */
  lemma EmptyErrorElementIsNoAssets()
    ensures HandleCall(Ask("101"), Received(ErrorDoc(ErrorText("")))).status == 404
  {
  }

  lemma EmptyContainerIsNoAssets()
    ensures HandleCall(Ask("101"), Received(LocationsDoc(LocationsText(""))))
            == Response(404, JObject(map["error" := JString(NoAssets)]))
  {
  }

  lemma StubToolIsAcknowledged(feed: FeedResult)
    ensures HandleCall(Request(Some(JString("search")), None), feed)
            == Response(200, JObject(map["ok" := JBool(true)]))
  {
  }

  /** An empty answer parses to `null`, so reading `json.error` throws. */
  lemma EmptyReplyIsInternalError()
    ensures HandleCall(Ask("101"), Failed(ReadFailure("null", "error")))
            == Response(500, JObject(map["error" := JString("Internal Server Error"),
                                         "message" := JString("Cannot read properties of null (reading 'error')")]))
  {
    assert ReadFailure("null", "error") == "Cannot read properties of null (reading 'error')";
  }
}

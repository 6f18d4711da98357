/** The vendor's location document after `parseStringPromise` (xml2js with its default
    options: every child element arrives as a list, attributes sit under `$`, the text
    of an element that also has attributes sits under `_`, and an element with neither
    attributes nor children is a plain string). */
module Feed {

  import opened Wrappers
  import opened Json

  /** A leaf element such as `<lat>`, `<speed unit="...">` or `<message>`. */
  datatype Field =
    | Text(text: string)                                          // no attributes: a plain string
    | Tagged(attrs: map<string, string>, content: Option<string>) // `{ $: attrs, _: content }`

  /** One `<asset>` entry of the `<currentlocations>` container. */
  datatype AssetEntry =
    | AssetText(text: string)                    // neither attributes nor children: a plain string
    | AssetObj(attrs: Option<map<string, string>>, children: map<string, seq<Field>>)

  /** The `<error>` root of a rejection envelope. */
  datatype ErrorElement =
    | ErrorText(text: string)                    // `<error/>` is the falsy empty string
    | ErrorObj(message: Option<seq<Field>>)      // the `message` children, when there are any

  /** The `<currentlocations>` root. */
  datatype LocationsElement =
    | LocationsText(text: string)                // no children: a string, which has no `asset`
    | LocationsObj(asset: Option<seq<AssetEntry>>)

  /** The parsed document; xml2js keys it by the name of its single root element. */
  datatype Document =
    | ErrorDoc(error: ErrorElement)
    | LocationsDoc(locations: LocationsElement)
    | OtherDoc(rootName: string)

  /** What the fetch and the parse produced: a document, or the message of the error
      that `fetch`, `text()` or `parseStringPromise` threw. */
  datatype FeedResult = Received(doc: Document) | Failed(message: string)

  /** The message V8 gives the TypeError thrown by reading property `key` of `base`
      (`undefined` or `null`). */
  function ReadFailure(base: string, key: string): string
  {
    "Cannot read properties of " + base + " (reading '" + key + "')"
  }

  /** How `JSON.stringify` writes a leaf element: a string, or an object holding its
      attributes under `$` and its text under `_`. */
  function FieldValue(f: Field): (r: Json)
    ensures f.Text? ==> r == JString(f.text)
    ensures f.Tagged? ==>
              && r.JObject? && "$" in r.fields
              && r.fields["$"] == JObject(map k | k in f.attrs :: JString(f.attrs[k]))
              && ("_" in r.fields <==> f.content.Some?)
              && (f.content.Some? ==> r.fields["_"] == JString(f.content.value))
  {
    match f
    case Text(t) => JString(t)
    case Tagged(attrs, content) =>
      WithOptional(map["$" := JObject(map k | k in attrs :: JString(attrs[k]))], "_",
                   if content.Some? then Some(JString(content.value)) else None)
  }

  /** `json.error` is truthy. */
  predicate IsErrorEnvelope(doc: Document)
  {
    doc.ErrorDoc? && (doc.error.ErrorText? ==> doc.error.text != "")
  }

  /** `json.currentlocations && json.currentlocations.asset` is truthy (a list always is). */
  predicate HasAssetList(doc: Document)
  {
    doc.LocationsDoc? && doc.locations.LocationsObj? && doc.locations.asset.Some?
  }

  /** `json.currentlocations.asset`. */
  function Assets(doc: Document): seq<AssetEntry>
    requires HasAssetList(doc)
  {
    doc.locations.asset.value
  }

  /** `error.message[0]`: the first message, `undefined` for an empty list, and a
      TypeError when the envelope carries no `message` list at all. */
  function FirstMessage(error: ErrorElement): (r: Result<Option<Json>>)
    ensures r.Err? <==> error.ErrorText? || error.message.None?
    ensures r.Err? ==> r.message == ReadFailure("undefined", "0")
    ensures r.Ok? ==> (r.value.Some? <==> |error.message.value| > 0)
    ensures r.Ok? && r.value.Some? ==> r.value.value == FieldValue(error.message.value[0])
  {
    match error
    case ErrorText(_) => Err(ReadFailure("undefined", "0"))
    case ErrorObj(None) => Err(ReadFailure("undefined", "0"))
    case ErrorObj(Some(ms)) => Ok(if |ms| == 0 then None else Some(FieldValue(ms[0])))
  }

  /** `entry.$ && entry.$.fleet === busId`, with `busId` the value of `args.bus_id`
      (`None` when it is `undefined`). Strict equality: a string only equals the same
      string, and an absent `fleet` attribute only equals an absent `bus_id`. */
  predicate Matches(entry: AssetEntry, busId: Option<Json>)
  {
    entry.AssetObj? && entry.attrs.Some? &&
    if "fleet" in entry.attrs.value then busId == Some(JString(entry.attrs.value["fleet"]))
    else busId.None?
  }

  /** `entry[key]`: the list of `key` children, `undefined` when there are none. */
  function Member(entry: AssetEntry, key: string): (r: Option<seq<Field>>)
    ensures r.Some? <==> entry.AssetObj? && key in entry.children
    ensures r.Some? ==> r.value == entry.children[key]
  {
    match entry
    case AssetText(_) => None
    case AssetObj(_, children) => if key in children then Some(children[key]) else None
  }

  /** `list[0]`: a TypeError when the list itself is `undefined`. */
  function First(list: Option<seq<Field>>): (r: Result<Option<Field>>)
    ensures r.Err? <==> list.None?
    ensures r.Err? ==> r.message == ReadFailure("undefined", "0")
    ensures r.Ok? ==> (r.value.Some? <==> |list.value| > 0)
    ensures r.Ok? && r.value.Some? ==> r.value.value == list.value[0]
  {
    match list
    case None => Err(ReadFailure("undefined", "0"))
    case Some(fs) => Ok(if |fs| == 0 then None else Some(fs[0]))
  }

  /** `field._`: a TypeError on `undefined`; a plain string has no `_` property. */
  function CharContent(field: Option<Field>): (r: Result<Option<string>>)
    ensures r.Err? <==> field.None?
    ensures r.Err? ==> r.message == ReadFailure("undefined", "_")
    ensures r.Ok? ==> (r.value.Some? <==> field.value.Tagged? && field.value.content.Some?)
    ensures r.Ok? && r.value.Some? ==> r.value.value == field.value.content.value
  {
    match field
    case None => Err(ReadFailure("undefined", "_"))
    case Some(Text(_)) => Ok(None)
    case Some(Tagged(_, content)) => Ok(content)
  }

  /** `+value` for a value that is a string or `undefined`, as JSON. */
  function NumberOfText(value: Option<string>): (r: Json)
    ensures value.None? ==> r == JNull
    ensures value.Some? ==> r == JNumber(value.value)
  {
    match value
    case None => JNull
    case Some(t) => JNumber(t)
  }

  /** `+field`: only a plain string converts to a number; `+undefined` and `+object`
      are NaN, which serialises as `null`. */
  function NumberOfField(field: Option<Field>): (r: Json)
    ensures r.JNumber? <==> field.Some? && field.value.Text?
    ensures r.JNumber? ==> r.source == field.value.text
    ensures !r.JNumber? ==> r == JNull
  {
    NumberOfText(if field.Some? && field.value.Text? then Some(field.value.text) else None)
  }
}

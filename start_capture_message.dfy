/** The AASB `SpeechRecognizer.StartCapture` message and its JSON
    conversions. `to_json` builds an object with fixed keys; `from_json`
    reads the keys it needs with `at(...)`, which throws when a key is
    missing or the value has the wrong type: here that is a `None` result. */
module StartCaptureMessage {
  import opened JsonDoc

  // Static members of the message struct.
  const Topic := "SpeechRecognizer"
  const Action := "StartCapture"
  const Version := "3.0"
  const MessageType := "Publish"

  // Static members of `Header` and `Header::MessageDescription`.
  const HeaderVersion := "3.0"
  const HeaderMessageType := "Publish"
  const DescriptionTopic := "SpeechRecognizer"
  const DescriptionAction := "StartCapture"

  /** `Header::MessageDescription` has no data members, only statics. */
  datatype MessageDescription = MessageDescription

  /** `Header`: `id` is a UUID chosen at construction, here any string. */
  datatype Header = Header(id: string, messageDescription: MessageDescription)

  /** `Payload`; its `Initiator` type and converters live in a header that is
      not part of this model, so the payload is generic in it. */
  datatype Payload<Initiator> = Payload(initiator: Initiator, keywordBegin: Int32, keywordEnd: Int32, keyword: string)

  datatype Message<Initiator> = Message(header: Header, payload: Payload<Initiator>)

  /** The `to_json`/`from_json` pair of a type whose converters are not
      modelled; `decode` returns None where `from_json` throws. */
  datatype Codec<!T> = Codec(encode: T -> Json, decode: Json -> Option<T>)

  /** `j.at(key)`: the member, or failure when `j` is not an object or lacks it. */
  function At(j: Json, key: string): (r: Option<Json>)
    ensures r.Some? <==> j.JObject? && key in j.fields
    ensures r.Some? ==> r.value == j.fields[key]
  {
    if j.JObject? && key in j.fields then Some(j.fields[key]) else None
  }

  /** `get_to` into a `std::string`. */
  function GetString(j: Json): Option<string>
  {
    if j.JString? then Some(j.s) else None
  }

  /** `get_to` into an `int`; only integers an `int` can hold are accepted. */
  function GetInt(j: Json): Option<Int32>
  {
    if j.JInt? && -0x8000_0000 <= j.n < 0x8000_0000 then Some(j.n) else None
  }

  // ------------------------------------------------------------------
  // Header::MessageDescription

  function MessageDescriptionToJson(d: MessageDescription): (r: Json)
    ensures r.JObject? && r.fields.Keys == {"topic", "action"}
    ensures r.fields["topic"] == JString("SpeechRecognizer")
    ensures r.fields["action"] == JString("StartCapture")
  {
    JObject(map["topic" := JString(DescriptionTopic), "action" := JString(DescriptionAction)])
  }

  /** `from_json` for the description reads nothing and leaves the struct as it was. */
  function MessageDescriptionFromJson(j: Json, d: MessageDescription): MessageDescription
  {
    d
  }

  /** Reading a description never fails and never looks at the document:
      any two documents, objects or not, leave the struct as it was. */
  lemma MessageDescriptionFromJsonReadsNothing(j1: Json, j2: Json, d: MessageDescription)
    ensures MessageDescriptionFromJson(j1, d) == MessageDescriptionFromJson(j2, d) == d
  {
  }

  // ------------------------------------------------------------------
  // Header

  function HeaderToJson(h: Header): (r: Json)
    ensures r.JObject? && r.fields.Keys == {"version", "messageType", "id", "messageDescription"}
    ensures r.fields["version"] == JString("3.0")
    ensures r.fields["messageType"] == JString("Publish")
    ensures r.fields["id"] == JString(h.id)
    ensures r.fields["messageDescription"] == MessageDescriptionToJson(h.messageDescription)
  {
    JObject(map[
      "version" := JString(HeaderVersion),
      "messageType" := JString(HeaderMessageType),
      "id" := JString(h.id),
      "messageDescription" := MessageDescriptionToJson(h.messageDescription)])
  }

  /** `from_json` into `h`: reads `id` and `messageDescription` only. */
  function HeaderFromJson(j: Json, h: Header): (r: Option<Header>)
    ensures r.Some? <==>
      j.JObject? && "id" in j.fields && j.fields["id"].JString? && "messageDescription" in j.fields
    ensures r.Some? ==> r.value.id == j.fields["id"].s
    ensures r.Some? ==> r.value.messageDescription == h.messageDescription
  {
    match At(j, "id")
    case None => None
    case Some(idJson) =>
      match GetString(idJson)
      case None => None
      case Some(id) =>
        match At(j, "messageDescription")
        case None => None
        case Some(d) => Some(Header(id, MessageDescriptionFromJson(d, h.messageDescription)))
  }

  /** A header survives serialisation and deserialisation, whatever it is read into. */
  lemma HeaderRoundTrip(h: Header, into: Header)
    ensures HeaderFromJson(HeaderToJson(h), into) == Some(h)
  {
    assert into.messageDescription == MessageDescription == h.messageDescription;
  }

  /** `version` and `messageType` are never read: changing or removing
      either key changes nothing. */
  lemma HeaderIgnoresVersionAndType(fields: map<string, Json>, key: string, v: Json, h: Header)
    requires key == "version" || key == "messageType"
    ensures HeaderFromJson(JObject(fields[key := v]), h) == HeaderFromJson(JObject(fields), h)
    ensures HeaderFromJson(JObject(fields - {key}), h) == HeaderFromJson(JObject(fields), h)
  {
    assert key != "id" && key != "messageDescription";
  }

  // ------------------------------------------------------------------
  // Payload

  const PayloadKeys: set<string> := {"initiator", "keywordBegin", "keywordEnd", "keyword"}

  function PayloadToJson<Initiator>(p: Payload<Initiator>, initiatorCodec: Codec<Initiator>): (r: Json)
    ensures r.JObject? && r.fields.Keys == PayloadKeys
    ensures r.fields["initiator"] == initiatorCodec.encode(p.initiator)
    ensures r.fields["keywordBegin"] == JInt(p.keywordBegin)
    ensures r.fields["keywordEnd"] == JInt(p.keywordEnd)
    ensures r.fields["keyword"] == JString(p.keyword)
  {
    JObject(map[
      "initiator" := initiatorCodec.encode(p.initiator),
      "keywordBegin" := JInt(p.keywordBegin),
      "keywordEnd" := JInt(p.keywordEnd),
      "keyword" := JString(p.keyword)])
  }

  /** `from_json` for the payload: each field from its key, in declaration order. */
  function PayloadFromJson<Initiator>(j: Json, initiatorCodec: Codec<Initiator>): (r: Option<Payload<Initiator>>)
    ensures r.Some? <==>
      j.JObject? && PayloadKeys <= j.fields.Keys &&
      initiatorCodec.decode(j.fields["initiator"]).Some? &&
      GetInt(j.fields["keywordBegin"]).Some? && GetInt(j.fields["keywordEnd"]).Some? &&
      j.fields["keyword"].JString?
    ensures r.Some? ==>
      r.value.initiator == initiatorCodec.decode(j.fields["initiator"]).value &&
      r.value.keywordBegin == j.fields["keywordBegin"].n &&
      r.value.keywordEnd == j.fields["keywordEnd"].n &&
      r.value.keyword == j.fields["keyword"].s
  {
    match At(j, "initiator")
    case None => None
    case Some(initiatorJson) =>
      match initiatorCodec.decode(initiatorJson)
      case None => None
      case Some(initiator) =>
        match At(j, "keywordBegin")
        case None => None
        case Some(beginJson) =>
          match GetInt(beginJson)
          case None => None
          case Some(keywordBegin) =>
            match At(j, "keywordEnd")
            case None => None
            case Some(endJson) =>
              match GetInt(endJson)
              case None => None
              case Some(keywordEnd) =>
                match At(j, "keyword")
                case None => None
                case Some(keywordJson) =>
                  match GetString(keywordJson)
                  case None => None
                  case Some(keyword) => Some(Payload(initiator, keywordBegin, keywordEnd, keyword))
  }

  /** A payload survives serialisation and deserialisation when its
      initiator does. */
  lemma PayloadRoundTrip<Initiator>(p: Payload<Initiator>, initiatorCodec: Codec<Initiator>)
    requires initiatorCodec.decode(initiatorCodec.encode(p.initiator)) == Some(p.initiator)
    ensures PayloadFromJson(PayloadToJson(p, initiatorCodec), initiatorCodec) == Some(p)
  {
  }

  // ------------------------------------------------------------------
  // The whole message

  function MessageToJson<Initiator>(m: Message<Initiator>, initiatorCodec: Codec<Initiator>): (r: Json)
    ensures r.JObject? && r.fields.Keys == {"header", "payload"}
    ensures r.fields["header"] == HeaderToJson(m.header)
    ensures r.fields["payload"] == PayloadToJson(m.payload, initiatorCodec)
    ensures Lookup(r, ["header", "version"]) == Some(JString(Version))
    ensures Lookup(r, ["header", "messageType"]) == Some(JString(MessageType))
    ensures Lookup(r, ["header", "messageDescription", "topic"]) == Some(JString(Topic))
    ensures Lookup(r, ["header", "messageDescription", "action"]) == Some(JString(Action))
  {
    JObject(map["header" := HeaderToJson(m.header), "payload" := PayloadToJson(m.payload, initiatorCodec)])
  }

  /** `from_json` into `m`: the header, then the payload. */
  function MessageFromJson<Initiator>(j: Json, m: Message<Initiator>, initiatorCodec: Codec<Initiator>)
    : (r: Option<Message<Initiator>>)
    ensures r.Some? <==>
      j.JObject? && "header" in j.fields && "payload" in j.fields &&
      HeaderFromJson(j.fields["header"], m.header).Some? &&
      PayloadFromJson(j.fields["payload"], initiatorCodec).Some?
    ensures r.Some? ==>
      r.value.header == HeaderFromJson(j.fields["header"], m.header).value &&
      r.value.payload == PayloadFromJson(j.fields["payload"], initiatorCodec).value
  {
    match At(j, "header")
    case None => None
    case Some(headerJson) =>
      match HeaderFromJson(headerJson, m.header)
      case None => None
      case Some(header) =>
        match At(j, "payload")
        case None => None
        case Some(payloadJson) =>
          match PayloadFromJson(payloadJson, initiatorCodec)
          case None => None
          case Some(payload) => Some(Message(header, payload))
  }

  /** A message survives serialisation and deserialisation when its
      initiator does: the header id and the payload come back unchanged. */
  lemma MessageRoundTrip<Initiator>(m: Message<Initiator>, into: Message<Initiator>, initiatorCodec: Codec<Initiator>)
    requires initiatorCodec.decode(initiatorCodec.encode(m.payload.initiator)) == Some(m.payload.initiator)
    ensures MessageFromJson(MessageToJson(m, initiatorCodec), into, initiatorCodec) == Some(m)
  {
    HeaderRoundTrip(m.header, into.header);
    PayloadRoundTrip(m.payload, initiatorCodec);
  }

  /** The keys `from_json` reads with `at`, as paths from the message object. */
  const RequiredPaths: set<seq<string>> := {
    ["header"], ["payload"],
    ["header", "id"], ["header", "messageDescription"],
    ["payload", "initiator"], ["payload", "keywordBegin"], ["payload", "keywordEnd"], ["payload", "keyword"]
  }

  /** Deserialisation fails whenever one of the required keys is missing. */
  lemma MissingRequiredKeyFails<Initiator>(j: Json, path: seq<string>, m: Message<Initiator>,
                                           initiatorCodec: Codec<Initiator>)
    requires path in RequiredPaths && Lookup(j, path).None?
    ensures MessageFromJson(j, m, initiatorCodec).None?
  {
    if |path| == 2 && j.JObject? && path[0] in j.fields && j.fields[path[0]].JObject? &&
       path[1] in j.fields[path[0]].fields {
      LookupTwo(j, path[0], path[1]);
    }
  }
}

/**
 * The backend message client and the local persistence adapter.
 * `fetch`, `JSON.parse` and `localStorage` are foreign: the outcome of the
 * request and the failure of a storage call are inputs of the model.
 */
module ChatService {
  import opened Types

  // ---------------------------------------------------------------------------
  // Decoded JSON values and JavaScript property access on them
  // ---------------------------------------------------------------------------

  datatype Json =
    | JNull
    | JBool(b: bool)
    | JNumber(n: real)
    | JString(s: string)
    | JArray(items: seq<Json>)
    | JObject(fields: map<string, Json>)

  /** JavaScript truthiness of a decoded value. */
  predicate Truthy(data: Json) {
    match data
    case JNull => false
    case JBool(b) => b
    case JNumber(n) => n != 0.0
    case JString(s) => s != ""
    case JArray(_) => true
    case JObject(_) => true
  }

  /**
   * `typeof data[name] === 'string'` as a value: only an object owns the
   * property names used here, every other value yields `undefined`.
   */
  function StringProperty(data: Json, name: string): Option<string> {
    match data
    case JObject(fields) =>
      if name in fields && fields[name].JString? then Some(fields[name].s) else None
    case _ => None
  }

  const FallbackReply := "I heard you, but I'm not sure what to say back! (Response format error)"

  /** The field names tried for the reply text, highest priority first. */
  const ReplyFields := ["reply", "response", "message"]

  /**
   * The reply extraction chain of `sendMessageToBackend`, written as the
   * source writes it: `reply`, `response`, `message` (each only when it holds
   * a string, and only when the body is truthy), then a bare string body,
   * otherwise the fixed fallback text.
   */
  function ExtractReply(data: Json): (r: string)
    // a string `reply` wins whatever else the object holds
    ensures data.JObject? && "reply" in data.fields && data.fields["reply"].JString?
      ==> r == data.fields["reply"].s
    // `response` wins over `message` when `reply` is not a string
    ensures data.JObject? && StringProperty(data, "reply").None?
            && "response" in data.fields && data.fields["response"].JString?
      ==> r == data.fields["response"].s
    ensures data.JObject? && StringProperty(data, "reply").None? && StringProperty(data, "response").None?
            && "message" in data.fields && data.fields["message"].JString?
      ==> r == data.fields["message"].s
    // an object without any of the three string fields falls back
    ensures data.JObject? && StringProperty(data, "reply").None? && StringProperty(data, "response").None?
            && StringProperty(data, "message").None?
      ==> r == FallbackReply
    // a bare string body is its own reply, the empty string included
    ensures data.JString? ==> r == data.s
    // null, booleans, numbers and arrays fall back
    ensures !data.JObject? && !data.JString? ==> r == FallbackReply
  {
    if Truthy(data) && StringProperty(data, "reply").Some? then StringProperty(data, "reply").value
    else if Truthy(data) && StringProperty(data, "response").Some? then StringProperty(data, "response").value
    else if Truthy(data) && StringProperty(data, "message").Some? then StringProperty(data, "message").value
    else if data.JString? then data.s
    else FallbackReply
  }

  /** Reference definition: the first of `names` that holds a string field of `data`. */
  function FirstStringField(data: Json, names: seq<string>): (r: Option<string>)
    ensures r.Some? ==> exists k :: 0 <= k < |names| && StringProperty(data, names[k]) == r &&
                                    forall j :: 0 <= j < k ==> StringProperty(data, names[j]).None?
    ensures r.None? <==> forall k :: 0 <= k < |names| ==> StringProperty(data, names[k]).None?
  {
    if |names| == 0 then None
    else if StringProperty(data, names[0]).Some? then StringProperty(data, names[0])
    else
      var rest := FirstStringField(data, names[1..]);
      assert forall k :: 1 <= k < |names| ==> names[k] == names[1..][k - 1];
      if rest.Some? then
        var k :| 0 <= k < |names| - 1 && StringProperty(data, names[1..][k]) == rest
          && forall j :: 0 <= j < k ==> StringProperty(data, names[1..][j]).None?;
        assert StringProperty(data, names[k + 1]) == rest;
        rest
      else rest
  }

  /** The if-chain agrees with a scan of the ordered list `ReplyFields`. */
  lemma {:induction false} ExtractReplyIsOrderedScan(data: Json)
    ensures ExtractReply(data) ==
      match FirstStringField(data, ReplyFields)
      case Some(text) => text
      case None => if data.JString? then data.s else FallbackReply
  {
    assert ReplyFields[1..] == ["response", "message"];
    assert ReplyFields[1..][1..] == ["message"];
    assert ReplyFields[1..][1..][1..] == [];
    assert FirstStringField(data, ["message"]) == StringProperty(data, "message");
    assert FirstStringField(data, ["response", "message"]) ==
      if StringProperty(data, "response").Some? then StringProperty(data, "response")
      else StringProperty(data, "message");
    if data.JObject? {
      assert Truthy(data);
    }
  }

  /** The reply shapes accepted by the client, one example each. */
  lemma ExtractReplyExamples()
    ensures ExtractReply(JObject(map["reply" := JString("a")])) == "a"
    ensures ExtractReply(JObject(map["response" := JString("b")])) == "b"
    ensures ExtractReply(JObject(map["message" := JString("c")])) == "c"
    ensures ExtractReply(JString("d")) == "d"
    ensures ExtractReply(JObject(map["foo" := JString("bar")])) == FallbackReply
    ensures ExtractReply(JObject(map["reply" := JNumber(1.0), "message" := JString("c")])) == "c"
  {
  }

  // ---------------------------------------------------------------------------
  // The request and its outcome
  // ---------------------------------------------------------------------------

  /** What is handed to `fetch`: verb, url, headers and the JSON body before serialisation. */
  datatype Request = Request(verb: string, url: string, headers: seq<(string, string)>, body: Json)

  /** The request `sendMessageToBackend(endpoint, message)` issues. */
  function BackendRequest(endpoint: string, message: string): (r: Request)
    ensures r.verb == "POST" && r.url == endpoint
    ensures r.headers == [("Content-Type", "application/json")]
    ensures r.body.JObject? && r.body.fields.Keys == {"message"} && r.body.fields["message"] == JString(message)
  {
    Request("POST", endpoint, [("Content-Type", "application/json")], JObject(map["message" := JString(message)]))
  }

  /**
   * How `fetch` settled: it rejected (network failure), or a response
   * arrived with a status and a body that JSON decoding accepted (`Some`)
   * or rejected (`None`).
   */
  datatype FetchOutcome =
    | Rejected
    | Responded(status: int, statusText: string, body: Option<Json>)

  /** The errors `sendMessageToBackend` rethrows to its caller. */
  datatype ServiceError =
    | ConnectionError
    | ServerError(status: int, statusText: string)
    | BodyNotJson

  /** `response.ok`: an "ok status" in the range 200 to 299, section 2.2.3 of the WHATWG Fetch Standard. */
  predicate IsOkStatus(status: int) {
    200 <= status <= 299
  }

  /**
   * `sendMessageToBackend(endpoint, message)` once the request
   * `BackendRequest(endpoint, message)` has settled as `outcome`.
   */
  function SendMessageToBackend(endpoint: string, message: string, outcome: FetchOutcome): (r: Result<string, ServiceError>)
    // a reply exists only for an ok status with a decodable body
    ensures r.Ok? <==> outcome.Responded? && IsOkStatus(outcome.status) && outcome.body.Some?
    ensures r.Ok? ==> r.value == ExtractReply(outcome.body.value)
    // a non-ok status is always an error carrying that status, never a reply
    ensures outcome.Responded? && !IsOkStatus(outcome.status)
      ==> r == Err(ServerError(outcome.status, outcome.statusText))
    ensures outcome.Rejected? ==> r == Err(ConnectionError)
  {
    match outcome
    case Rejected => Err(ConnectionError)
    case Responded(status, statusText, body) =>
      if !IsOkStatus(status) then Err(ServerError(status, statusText))
      else
        match body
        case None => Err(BodyNotJson)
        case Some(data) => Ok(ExtractReply(data))
  }

  // ---------------------------------------------------------------------------
  // The persistence adapter: one storage cell under a fixed key
  // ---------------------------------------------------------------------------

  const StorageKey := "emotional_companion_chats_kids_v1"

  /**
   * What the cell under `StorageKey` holds: a document this program wrote,
   * or text that does not decode (the empty string among them).
   */
  datatype StoredItem = Document(sessions: seq<ChatSession>) | Unparsable(text: string)

  class ChatStorage {
    /** The cell's content; `None` when the key is absent. */
    var item: Option<StoredItem>

    constructor (initial: Option<StoredItem>)
      ensures item == initial
    {
      item := initial;
    }

    /**
     * `saveChatToStorage`: overwrites the cell with the whole collection.
     * A failing write (`writeFails`, e.g. the quota is exceeded) is caught and
     * leaves the cell as it was; nothing reaches the caller.
     */
    method Save(sessions: seq<ChatSession>, writeFails: bool)
      modifies this
      ensures item == if writeFails then old(item) else Some(Document(sessions))
    {
      if !writeFails {
        item := Some(Document(sessions));
      }
    }

    /**
     * `loadChatsFromStorage`: the stored collection, or the empty sequence
     * when the key is absent, its text is empty or does not decode, or the
     * read itself fails (`readFails`).
     */
    method Load(readFails: bool) returns (sessions: seq<ChatSession>)
      ensures !readFails && item.Some? && item.value.Document? ==> sessions == item.value.sessions
      ensures readFails || item.None? || item.value.Unparsable? ==> sessions == []
    {
      if readFails {
        return [];
      }
      match item
      case None => sessions := [];
      case Some(Unparsable(_)) => sessions := [];
      case Some(Document(stored)) => sessions := stored;
    }
  }

  /** A successful save followed by a successful load gives back what was saved. */
  method SaveThenLoad(storage: ChatStorage, sessions: seq<ChatSession>) returns (loaded: seq<ChatSession>)
    modifies storage
    ensures loaded == sessions
    ensures storage.item == Some(Document(sessions))
  {
    storage.Save(sessions, false);
    loaded := storage.Load(false);
  }
}

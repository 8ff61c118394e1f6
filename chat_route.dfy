/**
 * The POST handler of the chat endpoint: it reads `messages` from the JSON
 * body, maps each to a model-facing entry (`user` becomes `human`, every
 * other role `assistant`), puts the fixed system directive in front with
 * `unshift`, and asks the model for a stream. Whatever throws on the way
 * ends in one fixed 500 response.
 */
module ChatRoute {
  import opened Wrappers
  import opened JsValues

  /** The directive sent ahead of every conversation. */
  const SYSTEM_PROMPT: string :=
    "You are LawGPT, an AI legal assistant designed to provide information and guidance on legal matters.\n"
    + "Your responses should be:\n"
    + "- Professional and clear\n"
    + "- Based on legal principles and precedents\n"
    + "- Educational in nature\n"
    + "- Properly disclaiming that you're not providing legal advice\n"
    + "- Focused on providing general legal information\n"
    + "\n"
    + "Always begin your responses with a brief summary of the key points, followed by more detailed information.\n"
    + "When discussing legal concepts, provide context and explain terminology.\n"
    + "If a question is outside your knowledge or requires specific legal advice, clarify your limitations."

  const ERROR_STATUS: int := 500
  /** `JSON.stringify({ error: "There was an error processing your request" })` */
  const ERROR_BODY: string := "{\"error\":\"There was an error processing your request\"}"

  /** The roles the model sees. */
  datatype ModelRole = System | Human | Assistant

  /** A model-facing entry; `content` is `None` where the client sent no `content` (undefined). */
  datatype Entry = Entry(role: ModelRole, content: Option<Value>)

  /** What the foreign model code does: the client constructor throws, `model.stream` throws, or a stream opens. */
  datatype Upstream = ClientThrows | StreamThrows | StreamOpens

  datatype Response =
    | DataStream(request: seq<Entry>)        // the streamed model answer for this request
    | Failure(status: int, body: string)

  /** The response, and the list `model.stream` was called with (`None` if it was not called). */
  datatype Outcome = Outcome(response: Response, streamed: Option<seq<Entry>>)

  const SystemEntry: Entry := Entry(System, Some(Str(SYSTEM_PROMPT)))
  const ErrorResponse: Response := Failure(ERROR_STATUS, ERROR_BODY)

  /** `message.role === "user" ? "human" : "assistant"` */
  function RoleFor(role: Access): (r: ModelRole)
    requires !role.TypeError?
    ensures r == Human <==> role == Defined(Str("user"))
    ensures r == Assistant <==> role != Defined(Str("user"))
    ensures r != System
  {
    if role == Defined(Str("user")) then Human else Assistant
  }

  /** `message.content`, with `undefined` as `None` */
  function ContentOf(message: Value): (c: Option<Value>)
    ensures c.Some? <==> message.Object? && "content" in message.fields
    ensures c.Some? ==> c.value == message.fields["content"]
  {
    match Property(message, "content")
    case Defined(v) => Some(v)
    case _ => None
  }

  /** The object the map callback builds for one non-null message. */
  function Format(message: Value): (e: Entry)
    requires !message.Null?
    ensures e.role != System
    ensures e.role == Human <==> message.Object? && "role" in message.fields && message.fields["role"] == Str("user")
    ensures e.content.Some? <==> message.Object? && "content" in message.fields
    ensures e.content.Some? ==> e.content.value == message.fields["content"]
  {
    Entry(RoleFor(Property(message, "role")), ContentOf(message))
  }

  /**
   * `messages.map(callback)`: the callback reads `message.role`, which throws
   * on a null element, so the map yields `None` exactly when some element is null.
   */
  function FormatAll(messages: seq<Value>): (r: Option<seq<Entry>>)
    ensures r.None? <==> exists i :: 0 <= i < |messages| && messages[i].Null?
    ensures r.Some? ==> |r.value| == |messages|
  {
    if messages == [] then Some([])
    else if messages[0].Null? then None
    else
      match FormatAll(messages[1..])
      case None => None
      case Some(rest) => Some([Format(messages[0])] + rest)
  }

  /**
   * The list handed to the model when the body is usable: `None` when the
   * body does not parse, destructuring `messages` throws, `messages` has no
   * `map`, or the map throws.
   */
  function Formatted(body: Option<Value>): (r: Option<seq<Entry>>)
    ensures r.Some? ==> body.Some? && HasMap(Property(body.value, "messages"))
    ensures r.Some? ==> |r.value| == |body.value.fields["messages"].elements| + 1
    ensures r.Some? ==> r.value[0] == SystemEntry
  {
    if body.None? then None
    else
      var messages := Property(body.value, "messages");
      if !HasMap(messages) then None
      else
        match FormatAll(messages.value.elements)
        case None => None
        case Some(mapped) => Some([SystemEntry] + mapped)
  }

  /** The whole handler as a function of the parsed body and of the foreign calls. */
  function Respond(body: Option<Value>, upstream: Upstream): (o: Outcome)
    ensures o.response.Failure? ==> o.response == ErrorResponse
    ensures o.streamed.Some? <==> !upstream.ClientThrows? && Formatted(body).Some?
    ensures o.response.DataStream? <==> upstream.StreamOpens? && Formatted(body).Some?
    ensures o.response.DataStream? ==> o.streamed == Some(o.response.request)
    ensures o.streamed.Some? ==> o.streamed.value == Formatted(body).value
  {
    if upstream.ClientThrows? then Outcome(ErrorResponse, None)
    else
      match Formatted(body)
      case None => Outcome(ErrorResponse, None)
      case Some(request) =>
        if upstream.StreamThrows? then Outcome(ErrorResponse, Some(request))
        else Outcome(DataStream(request), Some(request))
  }

  /** The array `map` returned, which the handler then grows in place with `unshift`. */
  class EntryList {
    var entries: seq<Entry>

    constructor (mapped: seq<Entry>)
      ensures entries == mapped
    {
      entries := mapped;
    }

    /** `Array.prototype.unshift` with one argument: insert at the front, return the new length. */
    method Unshift(e: Entry) returns (length: nat)
      modifies this
      ensures entries == [e] + old(entries)
      ensures length == |entries|
    {
      entries := [e] + entries;
      length := |entries|;
    }
  }

  /**
   * The handler, step by step in the order of the `POST` handler. The body is a value and
   * the method modifies no existing object, so the client's `messages` are
   * left as they were; the list given to the model is a new object.
   */
  method Post(body: Option<Value>, upstream: Upstream) returns (outcome: Outcome)
    ensures outcome == Respond(body, upstream)
  {
    if body.None? {
      return Outcome(ErrorResponse, None);            // req.json() rejects
    }
    var messages := Property(body.value, "messages");
    if messages.TypeError? {
      return Outcome(ErrorResponse, None);            // destructuring null
    }
    if upstream.ClientThrows? {
      return Outcome(ErrorResponse, None);            // new ChatGoogleGenerativeAI(...)
    }
    if !HasMap(messages) {
      return Outcome(ErrorResponse, None);            // messages.map is not a function
    }
    var mapped := FormatAll(messages.value.elements);
    if mapped.None? {
      return Outcome(ErrorResponse, None);            // null message inside the map
    }
    var formatted := new EntryList(mapped.value);
    var _ := formatted.Unshift(SystemEntry);
    if upstream.StreamThrows? {
      return Outcome(ErrorResponse, Some(formatted.entries));
    }
    return Outcome(DataStream(formatted.entries), Some(formatted.entries));
  }

  // ---------------------------------------------------------------------------
  // Properties of the formatted request

  /** Entry i of the map is the callback applied to message i. */
  lemma {:induction false} FormatAllAt(messages: seq<Value>, i: int)
    requires FormatAll(messages).Some?
    requires 0 <= i < |messages|
    ensures !messages[i].Null?
    ensures FormatAll(messages).value[i] == Format(messages[i])
  {
    if i > 0 {
      FormatAllAt(messages[1..], i - 1);
    }
  }

  /** The handler succeeds in formatting exactly when the body is an object whose `messages` is an array without null elements. */
  lemma FormattedDefinedIff(body: Option<Value>)
    ensures Formatted(body).Some? <==>
      body.Some? && body.value.Object? && "messages" in body.value.fields
      && body.value.fields["messages"].Array?
      && forall i :: 0 <= i < |body.value.fields["messages"].elements| ==> !body.value.fields["messages"].elements[i].Null?
  {
  }

  /** Entry i + 1 carries message i: its content, and `human` exactly when its role was "user". */
  lemma {:induction false} RequestPreservesMessages(body: Option<Value>, i: int)
    requires Formatted(body).Some?
    requires 0 <= i < |body.value.fields["messages"].elements|
    ensures var m := body.value.fields["messages"].elements[i];
      var e := Formatted(body).value[i + 1];
      e.content == ContentOf(m) && (e.role == Human <==> Property(m, "role") == Defined(Str("user")))
  {
    var messages := body.value.fields["messages"].elements;
    FormatAllAt(messages, i);
  }

  /** The only `system` entry is the directive at index 0, whatever roles the client sent. */
  lemma {:induction false} SingleSystemEntry(body: Option<Value>, i: int)
    requires Formatted(body).Some?
    requires 0 <= i < |Formatted(body).value|
    ensures Formatted(body).value[i].role == System <==> i == 0
  {
    if i > 0 {
      FormatAllAt(body.value.fields["messages"].elements, i - 1);
    }
  }

  /** A client-supplied "system" role is sent to the model as `assistant`. */
  lemma ClientSystemRoleIsAssistant(message: Value)
    requires message.Object? && "role" in message.fields && message.fields["role"] == Str("system")
    ensures Format(message).role == Assistant
  {
  }
}

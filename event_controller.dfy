/**
 * The push-message endpoint: it checks the envelope (body, then `message`,
 * then `data`, then non-blank decoded text), parses the payload, and routes
 * on the event's `type`. Only `OrderCreated` reaches the order handler;
 * every other type is acknowledged with an empty 204. An error thrown by
 * the handler comes back as a 400 whose message starts with `Bad request: `.
 */
module EventController {
  import opened Wrappers
  import opened Text
  import opened OrderController

  /** The push message inside the body; `data` is its base64 payload. */
  datatype PubSubMessage = PubSubMessage(data: Option<string>)

  /** The request body; a body without a `message` is `RequestBody(None)`. */
  datatype RequestBody = RequestBody(message: Option<PubSubMessage>)

  /** What the JSON parser makes of the decoded text. */
  datatype ParseResult =
    | SyntaxError(message: string)   // the text is not JSON
    | JsonNull                       // the text is `null`
    | JsonEvent(event: EventData)    // any other value, read as an event

  /**
   * The library code the endpoint calls: base64 decoding of the payload to
   * text (section 4 of RFC 4648; Node's decoder skips characters outside the
   * alphabet, so it never fails), JSON parsing (which may fail), and the
   * rendering of a thrown error as text inside a template string.
   */
  datatype Codec = Codec(
    decodeBase64: string -> string,
    parseJson: string -> ParseResult,
    describe: Fault -> string)

  /**
   * The endpoint's answer: an empty response with a status, a 400 error
   * carrying a message, or the parser's error escaping unwrapped.
   */
  datatype Reply =
    | Status(code: int)
    | BadRequest(message: string)
    | ParseFailure(message: string)

  datatype PostRun = PostRun(reply: Reply, calls: seq<Call>)

  const NoMessageReceived: string := "Bad request: No Pub/Sub message was received"
  const WrongMessageFormat: string := "Bad request: Wrong No Pub/Sub message format"
  const NoDataInMessage: string := "Bad request: No data in the Pub/Sub message"
  const OrderCreatedType: string := "OrderCreated"

  /**
   * The 400 error the endpoint throws for an error caught from the handler:
   * the prefix `Bad request: ` followed by the error's own text.
   */
  function Rewrapped(codec: Codec, fault: Fault): (r: Reply)
    ensures r.BadRequest? && |r.message| == 13 + |codec.describe(fault)|
    ensures r.message[..13] == "Bad request: " && r.message[13..] == codec.describe(fault)
  {
    BadRequest("Bad request: " + codec.describe(fault))
  }

  /** The endpoint's reply for a handler run: its status, or its error re-wrapped. */
  function ReplyOf(codec: Codec, outcome: Outcome): Reply
  {
    match outcome
    case Respond(code) => Status(code)
    case Throw(fault) => Rewrapped(codec, fault)
  }

  /**
   * The payload's text: decoded and trimmed, or `None` when `data` is missing
   * or empty. The text is empty exactly when the decoded payload is blank,
   * and otherwise neither starts nor ends with whitespace.
   */
  function DecodedData(codec: Codec, message: PubSubMessage): (text: Option<string>)
    ensures text.Some? <==> Truthy(message.data)
    ensures text.Some? ==> (text.value == "" <==> IsBlank(codec.decodeBase64(message.data.value)))
    ensures text.Some? && text.value != "" ==>
      !IsWhitespace(text.value[0]) && !IsWhitespace(text.value[|text.value| - 1])
  {
    if Truthy(message.data) then
      var decoded := codec.decodeBase64(message.data.value);
      TrimEmptyIffBlank(decoded);
      Some(Trim(decoded))
    else
      None
  }

  /**
   * The endpoint. Its checks run in source order and each rejection comes
   * before any later step; only a recognised event makes outside calls.
   */
  function Post(body: Option<RequestBody>, codec: Codec, env: Env): (r: PostRun)
    ensures body.None? ==> r == PostRun(BadRequest(NoMessageReceived), [])
    ensures r.calls != [] ==>
      && body.Some? && body.value.message.Some?
      && DecodedData(codec, body.value.message.value).Some?
      && codec.parseJson(DecodedData(codec, body.value.message.value).value).JsonEvent?
      && codec.parseJson(DecodedData(codec, body.value.message.value).value).event.eventType == Some(OrderCreatedType)
    ensures |r.calls| <= 2
    ensures r.reply.Status? ==> r.reply.code == 200 || r.reply.code == 204
    ensures r.reply.ParseFailure? ==> r.calls == []
  {
    match body
    case None => PostRun(BadRequest(NoMessageReceived), [])
    case Some(RequestBody(message)) =>
      match message
      case None => PostRun(BadRequest(WrongMessageFormat), [])
      case Some(pubSubMessage) =>
        var decoded := DecodedData(codec, pubSubMessage);
        if decoded.None? || decoded.value == "" then PostRun(BadRequest(NoDataInMessage), [])
        else Route(codec, env, decoded.value)
  }

  /**
   * Parsing the decoded text and routing on the event's type. The parse
   * happens before the error-catching region, so its failure escapes as it
   * is; inside the region, `OrderCreated` goes to the order handler and any
   * other type is acknowledged with an empty 204.
   */
  function Route(codec: Codec, env: Env, text: string): (r: PostRun)
    ensures r.calls != [] ==>
      codec.parseJson(text).JsonEvent? && codec.parseJson(text).event.eventType == Some(OrderCreatedType)
    ensures |r.calls| <= 2
    ensures r.reply.Status? ==> r.reply.code == 200 || r.reply.code == 204
    ensures r.reply.ParseFailure? <==> codec.parseJson(text).SyntaxError?
    ensures r.reply.ParseFailure? ==> r.calls == []
  {
    match codec.parseJson(text)
    case SyntaxError(error) => PostRun(ParseFailure(error), [])
    case JsonNull => PostRun(Rewrapped(codec, NullEvent), [])
    case JsonEvent(event) =>
      if event.eventType == Some(OrderCreatedType) then
        var run := HandleOrderCreated(env, event);
        PostRun(ReplyOf(codec, run.outcome), run.calls)
      else
        PostRun(Status(204), [])
  }

  // ---------------------------------------------------------------------------
  // Properties of the endpoint
  // ---------------------------------------------------------------------------

  /**
   * A body without `message` is rejected with the message-format error,
   * whatever the decoder, parser and collaborators would do: the decoder is
   * never reached.
   */
  lemma MissingMessageRejectedBeforeDecoding(codec1: Codec, codec2: Codec, env1: Env, env2: Env)
    ensures Post(Some(RequestBody(None)), codec1, env1) == Post(Some(RequestBody(None)), codec2, env2)
    ensures Post(Some(RequestBody(None)), codec1, env1) == PostRun(BadRequest(WrongMessageFormat), [])
  {
  }

  /**
   * A missing or empty `data`, or one that decodes to blank text, is
   * rejected with the no-data error before anything is parsed; data that
   * decodes to non-blank text goes on to be parsed and routed with its text
   * trimmed.
   */
  lemma BlankDataRejected(message: PubSubMessage, codec: Codec, env: Env)
    ensures !Truthy(message.data) || IsBlank(codec.decodeBase64(message.data.value)) ==>
      Post(Some(RequestBody(Some(message))), codec, env) == PostRun(BadRequest(NoDataInMessage), [])
    ensures Truthy(message.data) && !IsBlank(codec.decodeBase64(message.data.value)) ==>
      Post(Some(RequestBody(Some(message))), codec, env) ==
      Route(codec, env, Trim(codec.decodeBase64(message.data.value)))
  {
    if Truthy(message.data) {
      TrimEmptyIffBlank(codec.decodeBase64(message.data.value));
    }
  }

  /**
   * A text that is not JSON makes the parser's error escape unwrapped, with
   * no routing and no outside call, whatever the collaborators.
   */
  lemma ParseFailureEscapesUnwrapped(codec: Codec, env: Env, text: string)
    requires codec.parseJson(text).SyntaxError?
    ensures Route(codec, env, text) == PostRun(ParseFailure(codec.parseJson(text).message), [])
  {
  }

  /**
   * An event of any type other than `OrderCreated` (or of no type) is
   * acknowledged with an empty 204, the handler is not run and nothing is
   * called, whatever the collaborators.
   */
  lemma UnrecognisedTypeAcknowledged(codec: Codec, env: Env, text: string)
    requires codec.parseJson(text).JsonEvent?
    requires codec.parseJson(text).event.eventType != Some(OrderCreatedType)
    ensures Route(codec, env, text) == PostRun(Status(204), [])
  {
  }

  /**
   * An `OrderCreated` event runs the order handler once: the endpoint makes
   * exactly the handler's calls and answers with the handler's status, or
   * with its error re-wrapped as a 400 prefixed `Bad request: `.
   */
  lemma RecognisedTypeDelegates(codec: Codec, env: Env, text: string)
    requires codec.parseJson(text).JsonEvent?
    requires codec.parseJson(text).event.eventType == Some(OrderCreatedType)
    ensures var run := HandleOrderCreated(env, codec.parseJson(text).event);
      && Route(codec, env, text).calls == run.calls
      && (run.outcome.Respond? ==> Route(codec, env, text).reply == Status(run.outcome.status))
      && (run.outcome.Throw? ==>
            Route(codec, env, text).reply == BadRequest("Bad request: " + codec.describe(run.outcome.fault)))
  {
  }

  /**
   * Every error thrown inside the routing region becomes a 400: the failure
   * to read `type` of a `null` payload, the handler's own missing-order
   * error, and every other error the handler throws (a rejected channel
   * read, a rejected delivery); conversely every 400 out of the routing step
   * is some re-wrapped error.
   */
  lemma HandlerErrorsRewrapped(codec: Codec, env: Env, text: string)
    ensures codec.parseJson(text) == JsonNull ==>
      Route(codec, env, text) == PostRun(BadRequest("Bad request: " + codec.describe(NullEvent)), [])
    ensures (&& codec.parseJson(text).JsonEvent?
             && codec.parseJson(text).event.eventType == Some(OrderCreatedType)
             && codec.parseJson(text).event.order.None?) ==>
      Route(codec, env, text) ==
      PostRun(BadRequest("Bad request: " + codec.describe(CustomError(400, MissingOrderMessage))), [])
    ensures (&& codec.parseJson(text).JsonEvent?
             && codec.parseJson(text).event.eventType == Some(OrderCreatedType)
             && HandleOrderCreated(env, codec.parseJson(text).event).outcome.Throw?) ==>
      Route(codec, env, text).reply ==
      BadRequest("Bad request: " + codec.describe(HandleOrderCreated(env, codec.parseJson(text).event).outcome.fault))
    ensures Route(codec, env, text).reply.BadRequest? ==>
      exists fault :: Route(codec, env, text).reply.message == "Bad request: " + codec.describe(fault)
  {
    var r := Route(codec, env, text);
    if r.reply.BadRequest? {
      match codec.parseJson(text)
      case JsonNull =>
        assert r.reply.message == "Bad request: " + codec.describe(NullEvent);
      case JsonEvent(event) =>
        var run := HandleOrderCreated(env, event);
        assert r.reply.message == "Bad request: " + codec.describe(run.outcome.fault);
    }
  }
}

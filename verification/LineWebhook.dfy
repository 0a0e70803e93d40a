/** The LINE webhook route (`POST`): configuration and signature guards,
    then one generated reply per text-message event. Everything the route
    calls outside this model is an input: reading the body, the signature
    check, JSON parsing of the event list, the cached knowledge context, the
    answer generator and the reply call (whether LINE accepted the reply). */
module LineWebhook {
  import opened Wrappers

  datatype Message = TextMessage(text: string) | OtherMessage(kind: string)

  /** A webhook event: a message event, or any other event type. */
  datatype WebhookEvent =
    | MessageEvent(replyToken: string, userId: Option<string>, message: Message)
    | OtherEvent(kind: string)

  /** One call to the reply API. */
  datatype Reply = Reply(replyToken: string, text: string)

  /** A reply that was attempted, and whether LINE accepted it. */
  datatype ReplyAttempt = ReplyAttempt(reply: Reply, delivered: bool)

  /** The JSON body of the HTTP response. */
  datatype ResponseBody = Success | Failure(error: string)

  datatype WebhookResult = WebhookResult(status: int, body: ResponseBody, attempts: seq<ReplyAttempt>)

  predicate IsTextEvent(e: WebhookEvent) {
    e.MessageEvent? && e.message.TextMessage?
  }

  /** The replies one event produces: none for anything but a text message;
      for a text message, one reply to its own token with the generated
      answer. A reply LINE refuses is swallowed. */
  function HandleEvent(e: WebhookEvent, context: string, generate: (string, string) -> string,
                       deliver: Reply -> bool): (r: seq<ReplyAttempt>)
    ensures !IsTextEvent(e) ==> r == []
    ensures IsTextEvent(e) ==>
              |r| == 1 && r[0].reply == Reply(e.replyToken, generate(e.message.text, context))
  {
    if !IsTextEvent(e) then []
    else
      var reply := Reply(e.replyToken, generate(e.message.text, context));
      [ReplyAttempt(reply, deliver(reply))]
  }

  /** The events handled one after another, in order. */
  function HandleEvents(events: seq<WebhookEvent>, context: string, generate: (string, string) -> string,
                        deliver: Reply -> bool): (attempts: seq<ReplyAttempt>)
    ensures |attempts| <= |events|
  {
    if events == [] then []
    else HandleEvent(events[0], context, generate, deliver) + HandleEvents(events[1..], context, generate, deliver)
  }

  /** The route. `bodyRead` is the request text or the error reading it;
      `channelSecret` is `None` when unset. */
  function Post(bodyRead: Result<string>, signature: Option<string>, channelSecret: Option<string>,
                signatureValid: (string, string, Option<string>) -> bool,
                parseEvents: string -> Result<seq<WebhookEvent>>,
                context: string, generate: (string, string) -> string, deliver: Reply -> bool): (r: WebhookResult)
    ensures r.status == 200 <==> r.body == Success
    ensures r.status in {200, 401, 500}
  {
    match bodyRead
    case Err(_) => WebhookResult(500, Failure("Internal Server Error"), [])
    case Ok(body) =>
      if channelSecret.None? || channelSecret.value == "" then
        WebhookResult(500, Failure("Server configuration error"), [])
      else if !signatureValid(body, channelSecret.value, signature) then
        WebhookResult(401, Failure("Invalid signature"), [])
      else
        match parseEvents(body)
        case Err(_) => WebhookResult(500, Failure("Internal Server Error"), [])
        case Ok(events) => WebhookResult(200, Success, HandleEvents(events, context, generate, deliver))
  }

  // ---------------------------------------------------------------------
  // Properties
  // ---------------------------------------------------------------------

  /** A missing channel secret is a 500 before any signature check: the
      answer is the same whatever the signature check would say. */
  lemma MissingSecretIs500(body: string, signature: Option<string>, channelSecret: Option<string>,
                           valid1: (string, string, Option<string>) -> bool,
                           valid2: (string, string, Option<string>) -> bool,
                           parseEvents: string -> Result<seq<WebhookEvent>>,
                           context: string, generate: (string, string) -> string, deliver: Reply -> bool)
    requires channelSecret.None? || channelSecret == Some("")
    ensures Post(Ok(body), signature, channelSecret, valid1, parseEvents, context, generate, deliver) ==
            Post(Ok(body), signature, channelSecret, valid2, parseEvents, context, generate, deliver)
    ensures Post(Ok(body), signature, channelSecret, valid1, parseEvents, context, generate, deliver) ==
            WebhookResult(500, Failure("Server configuration error"), [])
  {
  }

  /** An invalid signature is a 401 and no event is looked at. */
  lemma InvalidSignatureIs401(body: string, signature: Option<string>, secret: string,
                              signatureValid: (string, string, Option<string>) -> bool,
                              parse1: string -> Result<seq<WebhookEvent>>,
                              parse2: string -> Result<seq<WebhookEvent>>,
                              context: string, generate: (string, string) -> string, deliver: Reply -> bool)
    requires secret != "" && !signatureValid(body, secret, signature)
    ensures Post(Ok(body), signature, Some(secret), signatureValid, parse1, context, generate, deliver) ==
            Post(Ok(body), signature, Some(secret), signatureValid, parse2, context, generate, deliver)
    ensures Post(Ok(body), signature, Some(secret), signatureValid, parse1, context, generate, deliver) ==
            WebhookResult(401, Failure("Invalid signature"), [])
  {
  }

  /** A body that cannot be read is a 500 with no reply whatever the
      configuration, since it is read before the secret is checked; an
      accepted body whose event list cannot be parsed is a 500 too. */
  lemma BadBodyIs500(bodyRead: Result<string>, signature: Option<string>, channelSecret: Option<string>,
                     signatureValid: (string, string, Option<string>) -> bool,
                     parseEvents: string -> Result<seq<WebhookEvent>>,
                     context: string, generate: (string, string) -> string, deliver: Reply -> bool)
    requires bodyRead.Err? ||
             (channelSecret.Some? && channelSecret.value != "" &&
              signatureValid(bodyRead.value, channelSecret.value, signature) && parseEvents(bodyRead.value).Err?)
    ensures Post(bodyRead, signature, channelSecret, signatureValid, parseEvents, context, generate, deliver) ==
            WebhookResult(500, Failure("Internal Server Error"), [])
  {
  }

  /** An accepted request is a success whatever LINE does with the replies:
      refused replies are swallowed. */
  lemma AcceptedIsSuccess(body: string, signature: Option<string>, secret: string,
                          signatureValid: (string, string, Option<string>) -> bool,
                          parseEvents: string -> Result<seq<WebhookEvent>>,
                          context: string, generate: (string, string) -> string, deliver: Reply -> bool)
    requires secret != "" && signatureValid(body, secret, signature) && parseEvents(body).Ok?
    ensures var r := Post(Ok(body), signature, Some(secret), signatureValid, parseEvents, context, generate, deliver);
            r.status == 200 && r.body == Success &&
            r.attempts == HandleEvents(parseEvents(body).value, context, generate, deliver)
  {
  }

  /** Handling consecutive event lists gives consecutive replies. */
  lemma {:induction false} HandleEventsAppend(a: seq<WebhookEvent>, b: seq<WebhookEvent>, context: string,
                                              generate: (string, string) -> string, deliver: Reply -> bool)
    ensures HandleEvents(a + b, context, generate, deliver) ==
            HandleEvents(a, context, generate, deliver) + HandleEvents(b, context, generate, deliver)
  {
    if a == [] {
      assert a + b == b;
    } else {
      assert (a + b)[0] == a[0];
      assert (a + b)[1..] == a[1..] + b;
      HandleEventsAppend(a[1..], b, context, generate, deliver);
    }
  }

  /** The number of text-message events. */
  function TextEventCount(events: seq<WebhookEvent>): nat {
    if events == [] then 0 else (if IsTextEvent(events[0]) then 1 else 0) + TextEventCount(events[1..])
  }

  /** Exactly one reply per text-message event, whatever else arrives. */
  lemma {:induction false} OneReplyPerTextEvent(events: seq<WebhookEvent>, context: string,
                                                generate: (string, string) -> string, deliver: Reply -> bool)
    ensures |HandleEvents(events, context, generate, deliver)| == TextEventCount(events)
  {
    if events != [] {
      OneReplyPerTextEvent(events[1..], context, generate, deliver);
    }
  }

  /** Every reply answers a text-message event of the request with the
      generated text for that event's message. */
  lemma {:induction false} RepliesAnswerTextEvents(events: seq<WebhookEvent>, context: string,
                                                   generate: (string, string) -> string, deliver: Reply -> bool,
                                                   i: nat)
    requires i < |HandleEvents(events, context, generate, deliver)|
    ensures exists j :: 0 <= j < |events| && IsTextEvent(events[j]) &&
              HandleEvents(events, context, generate, deliver)[i].reply ==
                Reply(events[j].replyToken, generate(events[j].message.text, context))
  {
    var head := HandleEvent(events[0], context, generate, deliver);
    if i < |head| {
      assert IsTextEvent(events[0]);
    } else {
      RepliesAnswerTextEvents(events[1..], context, generate, deliver, i - |head|);
      var j :| 0 <= j < |events[1..]| && IsTextEvent(events[1..][j]) &&
               HandleEvents(events[1..], context, generate, deliver)[i - |head|].reply ==
                 Reply(events[1..][j].replyToken, generate(events[1..][j].message.text, context));
      assert events[j + 1] == events[1..][j];
    }
  }

  /** Only text messages reach the generator: generators that agree on the
      text messages of the request produce the same replies. */
  lemma {:induction false} GeneratorOnlyForText(events: seq<WebhookEvent>, context: string,
                                                gen1: (string, string) -> string, gen2: (string, string) -> string,
                                                deliver: Reply -> bool)
    requires forall e :: e in events && IsTextEvent(e) ==> gen1(e.message.text, context) == gen2(e.message.text, context)
    ensures HandleEvents(events, context, gen1, deliver) == HandleEvents(events, context, gen2, deliver)
  {
    if events != [] {
      assert events[0] in events;
      GeneratorOnlyForText(events[1..], context, gen1, gen2, deliver);
    }
  }
}

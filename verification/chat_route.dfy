/** The `/api/chat` route: checks the server configuration and the posted
    message, forwards the message to the language model and answers with
    its reply. The model call is outside the model: it is the parameter
    `generate`, whose result says what the call produced or that it threw.
    Reading `GEMINI_API_KEY` from the environment is the parameter `apiKey`. */
module ChatRoute {
  import opened Wrappers
  import opened Http

  const MissingConfiguration := "API configuratie ontbreekt. Check Netlify Environment Variables."
  const MessageRequired := "Bericht is vereist"
  const MessageInvalid := "Bericht moet een string zijn van maximaal 4000 karakters"
  const HandlingFailed := "Er is een fout opgetreden bij het verwerken van je bericht"

  /** The longest message, in characters, the route forwards. */
  const MaxMessageLength: nat := 4000

  /** A parsed JSON value. JSON has no NaN, so a number is falsy only when zero. */
  datatype Json =
    | JNull
    | JBool(b: bool)
    | JNumber(n: real)
    | JString(s: string)
    | JArray(items: seq<Json>)
    | JObject(fields: map<string, Json>)

  /** The value of a property read: `undefined`, or a JSON value. */
  datatype Property = Undefined | Defined(value: Json)

  /** What `request.json()` does: throws on a malformed body, or parses it. */
  datatype Request = Unparsable | Parsed(body: Json)

  /** What the model call does: returns the reply text, or throws. */
  datatype Generation = Generated(text: string) | GenerationFailed(reason: string)

  /** `const { message } = body`: `None` when destructuring throws (a `null`
      body); otherwise the property, `undefined` unless the body is an object
      holding a `message` key. */
  function MessageOf(body: Json): (m: Option<Property>)
    ensures m.None? <==> body.JNull?
    ensures m.Some? && m.value.Defined? <==> body.JObject? && "message" in body.fields
  {
    match body
    case JNull => None
    case JObject(fields) =>
      if "message" in fields then Some(Defined(fields["message"])) else Some(Undefined)
    case _ => Some(Undefined)
  }

  /** JavaScript truthiness of a property value. */
  predicate Truthy(p: Property) {
    match p
    case Undefined => false
    case Defined(JNull) => false
    case Defined(JBool(b)) => b
    case Defined(JNumber(n)) => n != 0.0
    case Defined(JString(s)) => s != ""
    case Defined(_) => true
  }

  /** The request carries the string `m` as its message, and `m` passes every
      check of the route. */
  predicate CarriesValidMessage(request: Request, m: string) {
    && request.Parsed?
    && MessageOf(request.body) == Some(Defined(JString(m)))
    && 0 < |m| <= MaxMessageLength
  }

  predicate HasKey(apiKey: Option<string>) {
    apiKey.Some? && apiKey.value != ""
  }

  /** `POST`: the API key, then the message's presence, then its type and
      length; a message that passes is given unchanged to the model. Any
      exception — an unparsable body, destructuring `null`, a failed model
      call — is caught and answered with 500. */
  function Post(apiKey: Option<string>, request: Request, generate: string -> Generation)
    : (resp: Response)
    ensures !HasKey(apiKey) ==> resp.status == 500 && resp.body == ErrorBody(MissingConfiguration)
    ensures resp.status == 200 <==>
              HasKey(apiKey) && exists m :: CarriesValidMessage(request, m) && generate(m).Generated?
    ensures forall m :: HasKey(apiKey) && CarriesValidMessage(request, m) ==>
              resp == (match generate(m)
                       case Generated(text) => Response(200, Reply(text))
                       case GenerationFailed(_) => Response(500, ErrorBody(HandlingFailed)))
    ensures HasKey(apiKey) && (request.Unparsable? || (request.Parsed? && request.body.JNull?))
            ==> resp == Response(500, ErrorBody(HandlingFailed))
    ensures HasKey(apiKey) && request.Parsed? && MessageOf(request.body).Some?
            && !Truthy(MessageOf(request.body).value)
            ==> resp == Response(400, ErrorBody(MessageRequired))
    ensures HasKey(apiKey) && request.Parsed? && MessageOf(request.body).Some?
            && Truthy(MessageOf(request.body).value)
            ==> var m := MessageOf(request.body).value.value;
                (resp == Response(400, ErrorBody(MessageInvalid)) <==>
                   !m.JString? || |m.s| > MaxMessageLength)
    ensures resp.status in {200, 400, 500}
  {
    if !HasKey(apiKey) then Response(500, ErrorBody(MissingConfiguration))
    else match request
      case Unparsable => Response(500, ErrorBody(HandlingFailed))
      case Parsed(body) =>
        match MessageOf(body)
        case None => Response(500, ErrorBody(HandlingFailed))
        case Some(message) =>
          if !Truthy(message) then Response(400, ErrorBody(MessageRequired))
          else if !message.value.JString? || |message.value.s| > MaxMessageLength then
            Response(400, ErrorBody(MessageInvalid))
          else match generate(message.value.s)
            case Generated(text) => Response(200, Reply(text))
            case GenerationFailed(_) => Response(500, ErrorBody(HandlingFailed))
  }

  /** Without an API key the request body is never looked at. */
  lemma KeyCheckComesFirst(apiKey: Option<string>, r1: Request, r2: Request,
                           generate: string -> Generation)
    requires !HasKey(apiKey)
    ensures Post(apiKey, r1, generate) == Post(apiKey, r2, generate)
  {
  }

  /** A falsy message (absent, `null`, `false`, `0`, the empty string) in any
      body that is not `null` is answered with 400 "Bericht is vereist". */
  lemma FalsyMessageRejected(apiKey: Option<string>, request: Request, generate: string -> Generation)
    requires HasKey(apiKey) && request.Parsed?
    requires MessageOf(request.body).Some? && !Truthy(MessageOf(request.body).value)
    ensures Post(apiKey, request, generate) == Response(400, ErrorBody(MessageRequired))
  {
  }

  /** A truthy message that is not a string, or a string longer than 4000
      characters, is answered with 400 whatever else the body holds; exactly
      4000 characters is forwarded. */
  lemma MessageTypeAndLength(apiKey: Option<string>, body: Json, m: Json, generate: string -> Generation)
    requires HasKey(apiKey) && MessageOf(body) == Some(Defined(m)) && Truthy(Defined(m))
    ensures var resp := Post(apiKey, Parsed(body), generate);
            (resp == Response(400, ErrorBody(MessageInvalid)) <==>
               !m.JString? || |m.s| > MaxMessageLength)
  {
  }
}

/** The server-side relay: one request in, one response out. It checks the
    method and the prompt, forwards the prompt to the AI provider, and turns
    the provider's answer or exception into a JSON reply. */
module Relay {
  import opened Types

  /** A JSON-like JavaScript value, as found in a parsed request body. */
  datatype JsValue =
    | Undefined
    | Null
    | Bool(b: bool)
    | Num(n: real)
    | NaN
    | Str(s: string)
    | Arr(items: seq<JsValue>)
    | Obj(fields: map<string, JsValue>)

  /** JavaScript truthiness: `undefined`, `null`, `false`, `0`, `NaN` and
      `""` are falsy; every other value, including every object and array,
      is truthy. */
  function Truthy(v: JsValue): (r: bool)
    ensures !r <==> v in {Undefined, Null, Bool(false), Num(0.0), NaN, Str("")}
  {
    match v
    case Undefined => false
    case Null => false
    case Bool(b) => b
    case Num(n) => n != 0.0
    case NaN => false
    case Str(s) => s != []
    case Arr(_) => true
    case Obj(_) => true
  }

  /** Reading property `key` from a destructured value: an object's field,
      or `undefined` when the object lacks it or the value is a primitive. */
  function Property(v: JsValue, key: string): (r: JsValue)
  {
    if v.Obj? && key in v.fields then v.fields[key] else Undefined
  }

  /** The model used when the request names none. */
  const DefaultModel: string := "gemini-2.5-flash"

  /** An incoming request: its HTTP method (absent when the platform gives
      none) and its parsed body. */
  datatype Request = Request(httpMethod: Option<string>, body: JsValue)

  /** The arguments of the provider's content-generation call. */
  datatype GenerateCall = GenerateCall(model: JsValue, contents: JsValue, config: JsValue)

  /** The provider's answer, reduced to what the handler reads: the first
      part of the first candidate, if there is one, and the `text` accessor. */
  datatype InlineData = InlineData(data: Option<string>)
  datatype Part = Part(inlineData: Option<InlineData>)
  datatype GenerateResponse = GenerateResponse(firstPart: Option<Part>, text: Option<string>)

  /** What the provider call does: answer, or throw an error whose `message`
      may be missing. */
  datatype ProviderOutcome = Answered(response: GenerateResponse) | Threw(message: Option<string>)

  /** The JSON bodies the handler writes. A `None` field is `undefined` and
      is left out when serialised. */
  datatype ReplyBody =
    | ErrorBody(error: string)
    | TextBody(text: Option<string>)
    | FailureBody(error: string, message: Option<string>)

  datatype Reply = Reply(status: int, body: ReplyBody)

  /** A handled request: the provider call made, if any, and the reply. When
      the body is `null` or `undefined`, destructuring it throws before the
      `try` block and the handler itself writes no reply. */
  datatype Handled = Replied(call: Option<GenerateCall>, reply: Reply) | BodyUnreadable

  /** The single `contents` entry that carries the prompt as text. */
  function PromptContents(prompt: JsValue): (contents: JsValue)
  {
    Arr([Obj(map["parts" := Arr([Obj(map["text" := prompt])])])])
  }

  /** The provider call for a request: the requested model or the default,
      the prompt wrapped as contents, the requested config or `{}`. */
  function CallFor(body: JsValue): (c: GenerateCall)
    ensures Truthy(c.model) && Truthy(c.config)
    ensures Truthy(Property(body, "model")) ==> c.model == Property(body, "model")
    ensures !Truthy(Property(body, "model")) ==> c.model == Str(DefaultModel)
    ensures Truthy(Property(body, "config")) ==> c.config == Property(body, "config")
    ensures !Truthy(Property(body, "config")) ==> c.config == Obj(map[])
  {
    var model := Property(body, "model");
    var config := Property(body, "config");
    GenerateCall(
      if Truthy(model) then model else Str(DefaultModel),
      PromptContents(Property(body, "prompt")),
      if Truthy(config) then config else Obj(map[]))
  }

  /** The reply built from the provider's outcome. */
  function ReplyFor(outcome: ProviderOutcome): (r: Reply)
    ensures r.status == 200 <==> outcome.Answered?
    ensures r.status != 200 ==> r.status == 500
  {
    match outcome
    case Threw(m) => Reply(500, FailureBody("Internal Server Error", m))
    case Answered(response) =>
      if response.firstPart.Some? && response.firstPart.value.inlineData.Some? then
        Reply(200, TextBody(response.firstPart.value.inlineData.value.data))
      else
        Reply(200, TextBody(Some(if response.text.Some? then response.text.value else "")))
  }

  /** The request handler, with the provider call's outcome given. */
  function Handler(req: Request, outcome: ProviderOutcome): (h: Handled)
    ensures h.BodyUnreadable? <==> req.httpMethod == Some("POST") && req.body in {Undefined, Null}
    ensures h.Replied? ==> h.reply.status in {200, 400, 405, 500}
  {
    if req.httpMethod != Some("POST") then
      Replied(None, Reply(405, ErrorBody("Method not allowed")))
    else if req.body == Undefined || req.body == Null then
      BodyUnreadable
    else if !Truthy(Property(req.body, "prompt")) then
      Replied(None, Reply(400, ErrorBody("Prompt is required")))
    else
      Replied(Some(CallFor(req.body)), ReplyFor(outcome))
  }

  /** Any method other than POST is refused with 405, whatever the body. */
  lemma MethodCheckedFirst(req: Request, outcome: ProviderOutcome)
    ensures Handler(req, outcome).Replied? ==>
      (Handler(req, outcome).reply.status == 405 <==> req.httpMethod != Some("POST"))
    ensures req.httpMethod != Some("POST") ==>
      Handler(req, outcome) == Replied(None, Reply(405, ErrorBody("Method not allowed")))
  {
  }

  /** A POST whose prompt is falsy is refused with 400, and the provider is
      not called: the reply does not depend on what the provider would do. */
  lemma MissingPromptRejected(req: Request, o1: ProviderOutcome, o2: ProviderOutcome)
    requires req.httpMethod == Some("POST") && req.body !in {Undefined, Null}
    ensures Handler(req, o1).Replied?
    ensures Handler(req, o1).reply.status == 400 <==> !Truthy(Property(req.body, "prompt"))
    ensures !Truthy(Property(req.body, "prompt")) ==>
      Handler(req, o1) == Handler(req, o2) == Replied(None, Reply(400, ErrorBody("Prompt is required")))
  {
  }

  /** The provider is called exactly for a POST with a truthy prompt, and
      it receives that prompt verbatim. */
  lemma ProviderCalledIffValid(req: Request, outcome: ProviderOutcome)
    ensures Handler(req, outcome).Replied? && Handler(req, outcome).call.Some? <==>
      req.httpMethod == Some("POST") && Truthy(Property(req.body, "prompt"))
    ensures Handler(req, outcome).Replied? && Handler(req, outcome).call.Some? ==>
      Handler(req, outcome).call == Some(CallFor(req.body)) &&
      Handler(req, outcome).call.value.contents == PromptContents(Property(req.body, "prompt"))
  {
  }

  /** Inline data in the first part wins over the response text: its data
      is returned under `text`, whatever the text accessor holds. */
  lemma InlineDataWins(req: Request, response: GenerateResponse, d: InlineData)
    requires req.httpMethod == Some("POST") && Truthy(Property(req.body, "prompt"))
    requires response.firstPart == Some(Part(Some(d)))
    ensures Handler(req, Answered(response)).Replied?
    ensures Handler(req, Answered(response)).reply == Reply(200, TextBody(d.data))
  {
  }

  /** Without inline data the reply carries the response text, or "" when
      the response has none. */
  lemma TextOtherwise(req: Request, response: GenerateResponse)
    requires req.httpMethod == Some("POST") && Truthy(Property(req.body, "prompt"))
    requires response.firstPart.None? || response.firstPart.value.inlineData.None?
    ensures Handler(req, Answered(response)).Replied?
    ensures response.text.Some? ==>
      Handler(req, Answered(response)).reply == Reply(200, TextBody(response.text))
    ensures response.text.None? ==>
      Handler(req, Answered(response)).reply == Reply(200, TextBody(Some("")))
  {
  }

  /** A provider exception becomes a 500 reply that carries the exception's
      message beside the fixed error text. */
  lemma ProviderFailureIs500(req: Request, m: Option<string>)
    requires req.httpMethod == Some("POST") && Truthy(Property(req.body, "prompt"))
    ensures Handler(req, Threw(m)).Replied?
    ensures Handler(req, Threw(m)).reply == Reply(500, FailureBody("Internal Server Error", m))
  {
  }

  /** A request that names no model, or an empty one, goes to the default
      model. That the model argument is always truthy is part of CallFor. */
  lemma DefaultModelUsed(req: Request, outcome: ProviderOutcome)
    requires req.httpMethod == Some("POST") && Truthy(Property(req.body, "prompt"))
    requires Property(req.body, "model") in {Undefined, Null, Str("")}
    ensures Handler(req, outcome).Replied? && Handler(req, outcome).call.Some?
    ensures Handler(req, outcome).call.value.model == Str(DefaultModel)
  {
  }
}

/** The decision logic of the Bongo chat client (`BongoChatAI`): prompt
    validation, and the normalisation of what the one outbound GET produced
    into either a returned response record or one of the client's three
    error kinds. The GET itself is not modelled: its outcome is an input. */
module BongoChat {
  import opened Python

  datatype Option<T> = None | Some(value: T)

  const DefaultModel := "gpt-4o-mini"
  /** `HTTPStatus.OK`. */
  const HttpOk := 200

  const EmptyOrNotTextMessage := "Prompt cannot be empty and must be a string"
  const WhitespaceOnlyMessage := "Prompt cannot be whitespace only"
  const ChallengeMessage := "Failed to bypass Cloudflare protection"
  const UnexpectedPrefix := "Unexpected error: "

  /** The response record. Python does not enforce the field annotations,
      so each field holds whatever value the service's reply carried; an
      `error` of `Null` is Python's `None`, "no error". */
  datatype AIResponse = AIResponse(content: Value, statusCode: Value, error: Value)

  /** The exceptions that can be raised while a response is generated: the
      client's own three classes, and those raised by the code it calls.
      `Interrupt` stands for a `BaseException` that is not an `Exception`
      (`KeyboardInterrupt`, `SystemExit`), which no `except` clause of the
      client catches. */
  datatype Exception =
    | AIServiceError(message: string)
    | InvalidPromptError(message: string)
    | ServiceConnectionError(message: string)
    | CloudflareChallengeError(message: string)
    | KeyError(key: string)
    | TypeError(message: string)
    | TransportError(message: string)
    | Interrupt(message: string)

  /** `isinstance(e, AIServiceError)`: the base class and its two subclasses. */
  predicate IsAIServiceError(e: Exception) {
    e.AIServiceError? || e.InvalidPromptError? || e.ServiceConnectionError?
  }

  /** `str(e)`; a `KeyError` shows the key's repr. */
  function Message(e: Exception): string {
    if e.KeyError? then "'" + e.key + "'" else e.message
  }

  /** A Python call either returns a value or raises an exception; `:-`
      propagates the exception as Python does. */
  datatype Result<T> = Returned(value: T) | Raised(error: Exception) {
    predicate IsFailure() { Raised? }
    function PropagateFailure<U>(): Result<U> requires Raised? { Raised(error) }
    function Extract(): T requires Returned? { value }
  }

  /** What the transport produced for the GET. `ChallengeFailure` is
      exactly cloudscraper's `CloudflareChallengeError`; every other
      `Exception` (the library's other Cloudflare errors, a network error,
      a body that is not JSON) is an `OtherFailure` with its `str`. An
      `Interrupted` GET raised a `BaseException` that is not an `Exception`.
      Otherwise the transport gives the decoded JSON body. */
  datatype Transport =
    | ChallengeFailure(message: string)
    | OtherFailure(message: string)
    | Interrupted(message: string)
    | Body(data: Value)

  /** A client instance. Only the model identifier takes part in the
      decisions; it is set at construction and never reassigned. */
  datatype Client = Client(model: string)

  /** One call of `generate_response`: what it returned or raised, and the
      query parameters of the GET it performed (`None`: no GET was made). */
  datatype Call = Call(result: Result<AIResponse>, sent: Option<map<string, string>>)

  /** `BongoChatAI(model)`, with the constructor's default model. */
  function NewClient(model: string := DefaultModel): (c: Client)
    ensures c.model == model
  {
    Client(model)
  }

  /** `validate_prompt`: accepts exactly the strings holding at least one
      non-whitespace character, and otherwise raises `InvalidPromptError`
      with the message of the check that failed first. */
  function ValidatePrompt(prompt: Value): (r: Result<()>)
    ensures r.Returned? <==> prompt.Str? && !AllSpace(prompt.s)
    ensures r.Raised? ==> r.error.InvalidPromptError?
    ensures !prompt.Str? || prompt.s == [] ==> r == Raised(InvalidPromptError(EmptyOrNotTextMessage))
    ensures prompt.Str? && prompt.s != [] && AllSpace(prompt.s) ==> r == Raised(InvalidPromptError(WhitespaceOnlyMessage))
  {
    if !Truthy(prompt) || !prompt.Str? then
      Raised(InvalidPromptError(EmptyOrNotTextMessage))
    else if |Strip(prompt.s)| == 0 then
      Raised(InvalidPromptError(WhitespaceOnlyMessage))
    else
      Returned(())
  }

  /** `v == HTTPStatus.OK`, Python's `==` against the int 200: true of
      the int 200 and the float 200.0 only (`True == 200` is false). */
  predicate IsOk(v: Value)
    ensures IsOk(v) <==> v == Int(HttpOk) || v == Float(HttpOk as real)
  {
    EqualsInt(v, HttpOk)
  }

  /** `data[key]` for a string key: the entry of a dict that has the key;
      a `KeyError` for a dict that lacks it; a `TypeError` for anything
      that is not a dict. */
  function Subscript(data: Value, key: string): (r: Result<Value>)
    ensures r.Returned? <==> data.Dict? && key in data.entries
    ensures r.Returned? ==> r.value == data.entries[key]
    ensures r.Raised? ==> (r.error.KeyError? <==> data.Dict?) && (r.error.KeyError? || r.error.TypeError?)
    ensures r.Raised? && r.error.KeyError? ==> r.error.key == key
  {
    if !data.Dict? then Raised(TypeError(SubscriptTypeError(data)))
    else if key !in data.entries then Raised(KeyError(key))
    else Returned(data.entries[key])
  }

  /** The service's reply holds the keys its status calls for: a dict with
      a `status`, and a `response` when that status is OK, a `type` when
      it is not. */
  predicate HasExpectedKeys(data: Value) {
    && data.Dict?
    && "status" in data.entries
    && (if IsOk(data.entries["status"]) then "response" in data.entries else "type" in data.entries)
  }

  /** The first lookup that fails on a reply lacking an expected key:
      `status` is read first, then `response` or `type` as the status
      calls for. A dict reply raises a `KeyError` naming the missing key,
      anything else a `TypeError`. */
  function LookupFailure(data: Value): (e: Exception)
    requires !HasExpectedKeys(data)
    ensures e.TypeError? <==> !data.Dict?
    ensures data.Dict? <==> e.KeyError?
    ensures e.KeyError? ==> e.key in {"status", "response", "type"} && e.key !in data.entries
    ensures data.Dict? && "status" !in data.entries ==> e.key == "status"
    ensures data.Dict? && "status" in data.entries ==>
              e.key == (if IsOk(data.entries["status"]) then "response" else "type")
  {
    if !data.Dict? then TypeError(SubscriptTypeError(data))
    else if "status" !in data.entries then KeyError("status")
    else if IsOk(data.entries["status"]) then KeyError("response")
    else KeyError("type")
  }

  /** Turning the decoded body into a response record. A reply with the
      expected keys always gives a record: the success shape when its
      status is OK, the in-band error shape otherwise. Any other reply
      raises the exception of the first lookup that fails. */
  function ReadReply(data: Value): (r: Result<AIResponse>)
    ensures r.Returned? <==> HasExpectedKeys(data)
    ensures r.Returned? && IsOk(data.entries["status"]) ==>
              r.value == AIResponse(data.entries["response"], Int(HttpOk), Null)
    ensures r.Returned? && !IsOk(data.entries["status"]) ==>
              r.value == AIResponse(Str(""), data.entries["status"], data.entries["type"])
    ensures r.Raised? ==> r.error == LookupFailure(data)
  {
    var status :- Subscript(data, "status");
    if IsOk(status) then
      var content :- Subscript(data, "response");
      Returned(AIResponse(content, Int(HttpOk), Null))
    else
      // `generate_response` reads `status` a second time (for `status_code`);
      // it is the same value
      var errorType :- Subscript(data, "type");
      Returned(AIResponse(Str(""), status, errorType))
  }

  /** The `except` clauses: an `InvalidPromptError` is re-raised as it is,
      a `CloudflareChallengeError` becomes a `ServiceConnectionError`,
      and every other `Exception` an `AIServiceError` quoting its message.
      An `Interrupt` matches no clause and passes through; whatever else
      comes in, an `AIServiceError` (or subclass) goes out. */
  function Handle(e: Exception): (r: Exception)
    ensures e.Interrupt? <==> r.Interrupt?
    ensures e.Interrupt? ==> r == e
    ensures !e.Interrupt? ==> IsAIServiceError(r)
    ensures e.InvalidPromptError? <==> r.InvalidPromptError?
    ensures e.InvalidPromptError? ==> r == e
    ensures e.CloudflareChallengeError? <==> r.ServiceConnectionError?
    ensures r.ServiceConnectionError? ==> r.message == ChallengeMessage
    ensures r.AIServiceError? ==> r.message == UnexpectedPrefix + Message(e)
  {
    if e.InvalidPromptError? || e.Interrupt? then e
    else if e.CloudflareChallengeError? then ServiceConnectionError(ChallengeMessage)
    else AIServiceError(UnexpectedPrefix + Message(e))
  }

  /** What the body of the `try` gives once the prompt is valid: the
      transport's failure raised, or the decoded body read. Nothing raised
      here is one of the client's own errors, and only a decoded body with
      the expected keys gives a record. */
  function Attempt(transport: Transport): (r: Result<AIResponse>)
    ensures r.Raised? ==> !IsAIServiceError(r.error)
    ensures r.Raised? && r.error.CloudflareChallengeError? <==> transport.ChallengeFailure?
    ensures r.Raised? && r.error.Interrupt? <==> transport.Interrupted?
    ensures r.Returned? <==> transport.Body? && HasExpectedKeys(transport.data)
  {
    match transport
    case ChallengeFailure(m) => Raised(CloudflareChallengeError(m))
    case OtherFailure(m) => Raised(TransportError(m))
    case Interrupted(m) => Raised(Interrupt(m))
    case Body(data) => ReadReply(data)
  }

  /** `generate_response(prompt)` on `client`, the GET having produced
      `transport`. Validation comes first: an invalid prompt raises its
      `InvalidPromptError` unchanged and no GET is made. A valid one is
      sent with exactly the parameters `prompt` and `model`. Nothing but an
      `AIServiceError` (or subclass) is raised, unless the GET itself was
      interrupted by a `BaseException` outside `Exception`, which passes
      through unchanged. */
  function Generate(client: Client, prompt: Value, transport: Transport): (c: Call)
    ensures c.sent.None? <==> ValidatePrompt(prompt).Raised?
    ensures c.sent.None? ==> c.result == Raised(ValidatePrompt(prompt).error)
    ensures c.sent.Some? ==> prompt.Str? && c.sent.value == map["prompt" := prompt.s, "model" := client.model]
    ensures c.result.Raised? ==> IsAIServiceError(c.result.error) || c.result.error.Interrupt?
    ensures c.result.Raised? && c.result.error.Interrupt? <==> c.sent.Some? && transport.Interrupted?
    ensures c.result.Raised? && c.result.error.InvalidPromptError? ==> c.sent.None?
  {
    match ValidatePrompt(prompt)
    case Raised(e) => Call(Raised(Handle(e)), None)
    case Returned(_) =>
      var params := map["prompt" := prompt.s, "model" := client.model];
      var outcome := Attempt(transport);
      Call(if outcome.Raised? then Raised(Handle(outcome.error)) else outcome, Some(params))
  }

  /** A prompt `validate_prompt` accepts. */
  predicate IsValidPrompt(prompt: Value) {
    prompt.Str? && !AllSpace(prompt.s)
  }

  // ---------------------------------------------------------------------
  // Properties of `generate_response`, one branch at a time.
  // ---------------------------------------------------------------------

  /** An invalid prompt never reaches the transport: the call is the same
      whatever the transport would have produced, and raises the
      `InvalidPromptError` of `validate_prompt`. */
  lemma InvalidPromptShortCircuits(client: Client, prompt: Value, t1: Transport, t2: Transport)
    requires !IsValidPrompt(prompt)
    ensures Generate(client, prompt, t1) == Generate(client, prompt, t2)
    ensures Generate(client, prompt, t1).sent == None
    ensures Generate(client, prompt, t1).result == Raised(ValidatePrompt(prompt).error)
    ensures Generate(client, prompt, t1).result.error.InvalidPromptError?
  {
  }

  /** A reply whose status equals `HTTPStatus.OK` gives the success shape:
      its `response`, the status OK and no error. */
  lemma SuccessShape(client: Client, prompt: Value, entries: map<string, Value>)
    requires IsValidPrompt(prompt)
    requires "status" in entries && IsOk(entries["status"]) && "response" in entries
    ensures Generate(client, prompt, Body(Dict(entries))).result
            == Returned(AIResponse(entries["response"], Int(HttpOk), Null))
  {
  }

  /** A reply with any other status is returned, not raised: empty
      content, the reported status, and the reported `type` as the error. */
  lemma InBandErrorShape(client: Client, prompt: Value, entries: map<string, Value>)
    requires IsValidPrompt(prompt)
    requires "status" in entries && !IsOk(entries["status"]) && "type" in entries
    ensures Generate(client, prompt, Body(Dict(entries))).result
            == Returned(AIResponse(Str(""), entries["status"], entries["type"]))
  {
  }

  /** A `CloudflareChallengeError` from the transport becomes a `ServiceConnectionError`
      with a fixed message; the challenge's message is not part of the new error's message. */
  lemma ChallengeBecomesConnectionError(client: Client, prompt: Value, m: string)
    requires IsValidPrompt(prompt)
    ensures Generate(client, prompt, ChallengeFailure(m)).result
            == Raised(ServiceConnectionError(ChallengeMessage))
  {
  }

  /** Any other transport failure becomes an `AIServiceError` quoting its
      message after "Unexpected error: ". */
  lemma TransportFailureWrapped(client: Client, prompt: Value, m: string)
    requires IsValidPrompt(prompt)
    ensures Generate(client, prompt, OtherFailure(m)).result
            == Raised(AIServiceError(UnexpectedPrefix + m))
  {
  }

  /** A decoded body lacking a key its status calls for (or not a dict at
      all) becomes an `AIServiceError` quoting the failed lookup: a missing
      `status` gives "Unexpected error: 'status'", and so on. */
  lemma MalformedReplyWrapped(client: Client, prompt: Value, data: Value)
    requires IsValidPrompt(prompt)
    requires !HasExpectedKeys(data)
    ensures Generate(client, prompt, Body(data)).result
            == Raised(AIServiceError(UnexpectedPrefix + Message(LookupFailure(data))))
  {
    var e := LookupFailure(data);
    assert Attempt(Body(data)) == Raised(e);
    assert !e.InvalidPromptError? && !e.CloudflareChallengeError?;
    assert Handle(e) == AIServiceError(UnexpectedPrefix + Message(e));
  }

  /** A `BaseException` outside `Exception` raised by the GET (such as
      `KeyboardInterrupt`) escapes the call unchanged. */
  lemma InterruptPassesThrough(client: Client, prompt: Value, m: string)
    requires IsValidPrompt(prompt)
    ensures Generate(client, prompt, Interrupted(m)).result == Raised(Interrupt(m))
  {
  }

  /** Every call ends in exactly one of five ways, each decided by the
      inputs alone: an invalid prompt, a challenge failure, any other
      failure, an interrupt, or a record whose status is OK exactly when
      the reply's was. */
  lemma OutcomeKinds(client: Client, prompt: Value, t: Transport)
    ensures var c := Generate(client, prompt, t);
      && (c.result.Raised? && c.result.error.InvalidPromptError? <==> !IsValidPrompt(prompt))
      && (c.result.Raised? && c.result.error.ServiceConnectionError? <==>
            IsValidPrompt(prompt) && t.ChallengeFailure?)
      && (c.result.Raised? && c.result.error.AIServiceError? <==>
            IsValidPrompt(prompt) && (t.OtherFailure? || (t.Body? && !HasExpectedKeys(t.data))))
      && (c.result.Raised? && c.result.error.Interrupt? <==> IsValidPrompt(prompt) && t.Interrupted?)
      && (c.result.Returned? <==> IsValidPrompt(prompt) && t.Body? && HasExpectedKeys(t.data))
      && (c.result.Returned? ==>
            || (c.result.value.statusCode == Int(HttpOk) && c.result.value.error == Null)
            || (c.result.value.content == Str("") && !IsOk(c.result.value.statusCode)))
  {
  }

  /** The service's JSON contract: an int `status`, a non-empty text
      `response` when it is OK, a text `type` when it is not. */
  predicate FollowsServiceContract(entries: map<string, Value>) {
    && "status" in entries && entries["status"].Int?
    && (if IsOk(entries["status"])
        then "response" in entries && entries["response"].Str? && entries["response"].s != []
        else "type" in entries && entries["type"].Str?)
  }

  /** The response record's invariant (status OK: non-empty text content
      and no error; any other status: empty content and an error set)
      holds of every record built from a reply that follows the service's
      contract. */
  lemma RecordInvariantUnderContract(client: Client, prompt: Value, entries: map<string, Value>)
    requires IsValidPrompt(prompt)
    requires FollowsServiceContract(entries)
    ensures var c := Generate(client, prompt, Body(Dict(entries)));
      && c.result.Returned?
      && (c.result.value.statusCode == Int(HttpOk) ==>
            c.result.value.content.Str? && c.result.value.content.s != [] && c.result.value.error == Null)
      && (c.result.value.statusCode != Int(HttpOk) ==>
            c.result.value.content == Str("") && c.result.value.error.Str?)
  {
  }

  /** The client does not enforce that invariant itself: a non-OK reply
      whose `type` is JSON null is returned with no error set. */
  lemma NullTypeLeavesErrorUnset(client: Client)
    ensures Generate(client, Str("hello"), Body(Dict(map["status" := Int(500), "type" := Null]))).result
            == Returned(AIResponse(Str(""), Int(500), Null))
  {
    assert IsValidPrompt(Str("hello")) by { assert !IsSpace("hello"[0]); }
    var entries := map["status" := Int(500), "type" := Null];
    assert entries["status"] == Int(500) && entries["type"] == Null;
    InBandErrorShape(client, Str("hello"), entries);
  }

  /** The GET carries the client's model; a client built without one
      sends "gpt-4o-mini". */
  lemma RequestCarriesModel(model: string, prompt: Value, t: Transport)
    requires IsValidPrompt(prompt)
    ensures Generate(NewClient(model), prompt, t).sent == Some(map["prompt" := prompt.s, "model" := model])
    ensures Generate(NewClient(), prompt, t).sent == Some(map["prompt" := prompt.s, "model" := "gpt-4o-mini"])
  {
  }
}

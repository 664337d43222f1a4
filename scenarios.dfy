/** Concrete calls of the chat client, each against a fixed transport
    outcome: a 200 reply, a 429 reply, a challenge failure, an undecodable
    body, a reply missing `response`, and blank prompts. */
module Scenarios {
  import opened Python
  import opened BongoChat

  /** `validate_prompt` refuses values that are not text, and the empty
      string, with the first message. */
  lemma ValidationRejectsEmptyAndNonText()
    ensures ValidatePrompt(Str("")) == Raised(InvalidPromptError("Prompt cannot be empty and must be a string"))
    ensures ValidatePrompt(Null) == Raised(InvalidPromptError("Prompt cannot be empty and must be a string"))
    ensures ValidatePrompt(Int(42)) == Raised(InvalidPromptError("Prompt cannot be empty and must be a string"))
  {
  }

  /** Blank text gets the second message; text around blanks is accepted. */
  lemma ValidationBlankAndPadded()
    ensures ValidatePrompt(Str(" \t\n")) == Raised(InvalidPromptError("Prompt cannot be whitespace only"))
    ensures ValidatePrompt(Str("  hi  ")) == Returned(())
  {
    assert AllSpace(" \t\n");
    assert !IsSpace("  hi  "[2]);
  }

  /** A reply `{"status": 200, "response": "hi"}` to "hello" on a default
      client: the GET carries the default model and the text comes back. */
  lemma OkReply()
    ensures Generate(NewClient(), Str("hello"), Body(Dict(map["status" := Int(200), "response" := Str("hi")]))).result
            == Returned(AIResponse(Str("hi"), Int(200), Null))
    ensures Generate(NewClient(), Str("hello"), Body(Dict(map["status" := Int(200), "response" := Str("hi")]))).sent
            == Some(map["prompt" := "hello", "model" := "gpt-4o-mini"])
  {
    assert IsValidPrompt(Str("hello")) by { assert !IsSpace("hello"[0]); }
    var entries := map["status" := Int(200), "response" := Str("hi")];
    assert entries["status"] == Int(200) && entries["response"] == Str("hi");
    SuccessShape(NewClient(), Str("hello"), entries);
  }

  /** A reply `{"status": 429, "type": "rate_limited"}` is returned in band. */
  lemma RateLimitedReply()
    ensures Generate(NewClient(), Str("hello"), Body(Dict(map["status" := Int(429), "type" := Str("rate_limited")]))).result
            == Returned(AIResponse(Str(""), Int(429), Str("rate_limited")))
  {
    assert IsValidPrompt(Str("hello")) by { assert !IsSpace("hello"[0]); }
    var entries := map["status" := Int(429), "type" := Str("rate_limited")];
    assert entries["status"] == Int(429) && entries["type"] == Str("rate_limited");
    InBandErrorShape(NewClient(), Str("hello"), entries);
  }

  /** A failed Cloudflare challenge. */
  lemma ChallengeReply()
    ensures Generate(NewClient(), Str("hello"), ChallengeFailure("challenge detected")).result
            == Raised(ServiceConnectionError("Failed to bypass Cloudflare protection"))
  {
    assert !IsSpace("hello"[0]);
  }

  /** An empty body is not JSON: the decoder's `str(e)` is quoted after
      "Unexpected error: ". */
  lemma MalformedJsonReply()
    ensures Generate(NewClient(), Str("hello"), OtherFailure("Expecting value: line 1 column 1 (char 0)")).result
            == Raised(AIServiceError(UnexpectedPrefix + "Expecting value: line 1 column 1 (char 0)"))
  {
    assert !IsSpace("hello"[0]);
  }

  /** A 200 reply without a `response` key: the `KeyError` is quoted. */
  lemma MissingResponseReply()
    ensures Generate(NewClient(), Str("hello"), Body(Dict(map["status" := Int(200)]))).result
            == Raised(AIServiceError(UnexpectedPrefix + "'response'"))
  {
    assert IsValidPrompt(Str("hello")) by { assert !IsSpace("hello"[0]); }
    var data := Dict(map["status" := Int(200)]);
    assert LookupFailure(data) == KeyError("response");
    assert Message(KeyError("response")) == "'response'";
    MalformedReplyWrapped(NewClient(), Str("hello"), data);
  }

  /** "" and "   " are refused before any GET, whatever the transport. */
  lemma BlankPromptsNeverSent(t: Transport)
    ensures Generate(NewClient(), Str(""), t)
            == Call(Raised(InvalidPromptError("Prompt cannot be empty and must be a string")), None)
    ensures Generate(NewClient(), Str("   "), t)
            == Call(Raised(InvalidPromptError("Prompt cannot be whitespace only")), None)
  {
    assert AllSpace("   ");
    InvalidPromptShortCircuits(NewClient(), Str(""), t, t);
    InvalidPromptShortCircuits(NewClient(), Str("   "), t, t);
  }
}

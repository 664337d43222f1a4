# Bongo chat client: a Dafny model of its decision logic

The Bongo chat client (`BongoChatAI`) sends a text prompt to a remote
text-generation service and turns the reply into a response record
(`AIResponse`: content, status code, optional error) or one of three errors:
`InvalidPromptError`, `ServiceConnectionError` and their base
`AIServiceError`. The client makes one outbound HTTP GET through a
Cloudflare-evading scraper session. Everything around that call is
deterministic once the call's outcome is known. This project models that logic
and proves what it promises.

- `python.dfy` (module `Python`) holds the parts of Python the client relies
  on. It has the values a decoded JSON body can hold (`Value`: None, bool, int,
  float, str, list, dict), truthiness, the `TypeError` raised when a non-dict
  is indexed by a string, and `str.isspace`/`str.strip`, written out over
  CPython's whitespace set.
- `bongo_chat.dfy` (module `BongoChat`) holds the client:
  - `ValidatePrompt` is `validate_prompt`.
  - `ReadReply` reads the decoded body.
  - `Handle` is the `except` chain.
  - `Generate` is `generate_response`.
  - The lemmas state each branch's outcome.

  The transport's outcome is an input (`Transport`). It is one of four:
  - cloudscraper's `CloudflareChallengeError`. The library's other Cloudflare
    exceptions do not derive from it, so they count as other failures.
  - Some other `Exception`, with its message.
  - A `BaseException` outside `Exception`, such as `KeyboardInterrupt`.
  - The decoded JSON body. `Generate` returns the call's result (`Returned` or `Raised`)
  together with the query parameters of the GET it made, or `None` when it
  made no GET. This is how the model records that an invalid prompt never
  reaches the transport.
- `scenarios.dfy` (module `Scenarios`) holds concrete calls: a 200 reply, a
  429 reply, a challenge failure, a body that is not JSON, a reply missing
  `response`, and blank prompts.

The client guarantees less than its interface suggests, and the model follows
the code:

- One might expect a record with status OK to always have non-empty content,
  and any other status to always set an error. The code copies whatever the
  reply holds, so neither is enforced. `RecordInvariantUnderContract` proves
  that both hold for replies that follow the service's JSON contract.
  `NullTypeLeavesErrorUnset` shows a non-OK reply whose `type` is null: the
  record comes back with no error.
- The status is compared with `HTTPStatus.OK`, not with the literal 200. The
  float `200.0` also equals it, and `True` does not. On success the record's
  status is always `HTTPStatus.OK`, equal to 200, whatever form the reply
  used; the in-band record keeps the reply's own status value.

## Model

| member | source | states |
|---|---|---|
| `Python.LStrip` | bongo_chat.py:118 | the left half of `strip()`: a suffix of the input, only whitespace dropped, no leading whitespace left |
| `Python.RStrip` | bongo_chat.py:118 | the right half of `strip()`: a prefix of the input, only whitespace dropped, no trailing whitespace left |
| `Python.Strip` | bongo_chat.py:118 | `prompt.strip()` has length 0 exactly when the prompt is whitespace only; otherwise it starts and ends with non-whitespace |
| `Python.StripKeepsNonSpace` | bongo_chat.py:118 | `strip()` removes no character that is not whitespace |
| `Python.IsSpace` | bongo_chat.py:118 | the whitespace set `strip()` removes: among ASCII, exactly tab, newline, vertical tab, form feed, carriage return, the four separators 0x1C-0x1F and space; all of it lies between U+0009 and U+3000 |
| `Python.Truthy` | bongo_chat.py:116 | `not prompt` holds exactly for None, False, 0, 0.0, `""`, `[]` and `{}` |
| `Python.EqualsInt` | bongo_chat.py:152 | Python's `==` against an int: an int or float equals it exactly when its value does, text, lists, dicts and None are never equal, and a `bool` equals only 0 or 1 |
| `BongoChat.IsOk` | bongo_chat.py:152 | `status == HTTPStatus.OK` holds exactly for the int 200 and the float 200.0 (not for `True`) |
| `BongoChat.Subscript` | bongo_chat.py:152-161 | `response_data[key]` gives the entry of a dict holding the key, `KeyError(key)` for a dict without it, and `TypeError` for a non-dict |
| `BongoChat.LookupFailure` | bongo_chat.py:152-161 | the lookup that fails on a malformed reply raises `TypeError` exactly when the reply is not a dict, and otherwise a `KeyError` for the first missing key in lookup order: `status` when it is absent, else `response` for an OK status and `type` for any other |
| `BongoChat.Attempt` | bongo_chat.py:144-162 | the `try` body after validation never raises one of the client's own errors; it raises `CloudflareChallengeError` exactly for a challenge failure and an interrupt exactly for an interrupted GET, and returns a record exactly for a body with the expected keys |
| `BongoChat.NewClient` | bongo_chat.py:80-87 | the client's model is the constructor argument, `"gpt-4o-mini"` when it is omitted |
| `BongoChat.ValidatePrompt` | bongo_chat.py:106-119 | accepts exactly the strings with a non-whitespace character; a non-string or empty value raises `InvalidPromptError` with the "cannot be empty and must be a string" message, and a whitespace-only string with the "whitespace only" message |
| `BongoChat.ReadReply` | bongo_chat.py:150-162 | a decoded body gives a record exactly when it has `status` and, depending on it, `response` or `type`; the success shape (content = `response`, status 200, no error) when the status equals OK, the in-band shape (content `""`, the reported status, error = `type`) otherwise; the first failed lookup's `KeyError`/`TypeError` otherwise |
| `BongoChat.Handle` | bongo_chat.py:164-169 | a `BaseException` outside `Exception` matches no clause and passes through unchanged; anything else leaves the `except` chain as an `AIServiceError` or a subclass: `InvalidPromptError` passes through unchanged, a `CloudflareChallengeError` becomes `ServiceConnectionError("Failed to bypass Cloudflare protection")`, anything else `AIServiceError("Unexpected error: " + str(e))` |
| `BongoChat.Generate` | bongo_chat.py:121-169 | a GET is made exactly when the prompt validates, with parameters exactly `{prompt, model}`; an invalid prompt raises the validation error unchanged; only `AIServiceError` kinds are raised, except that a `BaseException` outside `Exception` raised by the GET escapes unchanged; `InvalidPromptError` is raised only when no GET was made |
| `BongoChat.InvalidPromptShortCircuits` | bongo_chat.py:136-148 | with an invalid prompt the call does not depend on the transport, sends nothing and raises `InvalidPromptError` |
| `BongoChat.SuccessShape` | bongo_chat.py:152-156 | a reply whose status equals OK and that has `response` returns `AIResponse(response, 200, None)` |
| `BongoChat.InBandErrorShape` | bongo_chat.py:157-162 | a reply with any other status and a `type` is returned, not raised: `AIResponse("", status, type)` |
| `BongoChat.ChallengeBecomesConnectionError` | bongo_chat.py:166-167 | a `CloudflareChallengeError` from the transport raises `ServiceConnectionError("Failed to bypass Cloudflare protection")` |
| `BongoChat.TransportFailureWrapped` | bongo_chat.py:168-169 | any other transport failure raises `AIServiceError("Unexpected error: " + message)` |
| `BongoChat.InterruptPassesThrough` | bongo_chat.py:164-169 | a `KeyboardInterrupt`-like exception raised by the GET escapes the call unchanged |
| `BongoChat.MalformedReplyWrapped` | bongo_chat.py:150-169 | a body lacking a key its status calls for, or not a dict, raises `AIServiceError` quoting the failed lookup's message |
| `BongoChat.OutcomeKinds` | bongo_chat.py:121-169 | every call ends in exactly one of: an invalid prompt, a connection error, a generic error, an escaped interrupt, a returned record, each decided by the inputs; a returned record has status 200 and no error, or empty content and a non-OK status |
| `BongoChat.RecordInvariantUnderContract` | bongo_chat.py:152-162 | for a reply following the service's JSON contract, an OK record has non-empty text and no error, and any other record has empty content and a text error |
| `BongoChat.NullTypeLeavesErrorUnset` | bongo_chat.py:157-162 | a 500 reply whose `type` is null is returned with `error` None |
| `BongoChat.RequestCarriesModel` | bongo_chat.py:139-142 | a valid prompt is sent with the client's model, `"gpt-4o-mini"` for a default client |
| `Scenarios.ValidationRejectsEmptyAndNonText` | bongo_chat.py:116-117 | `""`, None and `42` are refused with the first message |
| `Scenarios.ValidationBlankAndPadded` | bongo_chat.py:118-119 | `" \t\n"` is refused as whitespace only; `"  hi  "` is accepted |
| `Scenarios.OkReply` | bongo_chat.py:152-156 | `{"status": 200, "response": "hi"}` gives `AIResponse("hi", 200, None)`, sent as `{prompt: "hello", model: "gpt-4o-mini"}` |
| `Scenarios.RateLimitedReply` | bongo_chat.py:157-162 | `{"status": 429, "type": "rate_limited"}` gives `AIResponse("", 429, "rate_limited")` |
| `Scenarios.ChallengeReply` | bongo_chat.py:166-167 | a challenge failure gives `ServiceConnectionError` |
| `Scenarios.MalformedJsonReply` | bongo_chat.py:168-169 | an empty body, which fails to decode, gives `AIServiceError("Unexpected error: Expecting value: line 1 column 1 (char 0)")` |
| `Scenarios.MissingResponseReply` | bongo_chat.py:154 | a 200 reply without `response` gives `AIServiceError("Unexpected error: 'response'")` |
| `Scenarios.BlankPromptsNeverSent` | bongo_chat.py:116-119 | `""` and `"   "` raise their `InvalidPromptError` and make no GET |

## Left out

- The scraper session and the HTTP GET (bongo_chat.py:88, 144-148) are network I/O. Their outcome is the `Transport` input.
- `response.json()` (bongo_chat.py:150) is a library call. Its result is the decoded `Value` in `Body`, and its failure is an `OtherFailure` with the decoder's message.
- The base URL and the browser headers (bongo_chat.py:89-104) are constant configuration and take part in no decision.
- The abstract base class `AIServiceBase` (bongo_chat.py:33-70) has no logic. It declares the same two operations that `ValidatePrompt` and `Generate` model.
- The exception class hierarchy (bongo_chat.py:21-31) is a closed `Exception` datatype. Subclassing is reduced to the predicate `IsAIServiceError`.
- The `main()` demo (bongo_chat.py:171-184) only prints.
- Floats are modelled by their exact real value. NaN and the infinities, which Python's decoder accepts, are not modelled.
- Prompts that are neither JSON-like values nor strings (bytes, arbitrary objects) are represented by the non-string `Value`s. Every modelled value has a defined truth value.
- A prompt whose `__bool__` or `__len__` raises is not modelled. An example is a multi-element array, whose truth test raises `ValueError`. Since `not prompt` (bongo_chat.py:116) runs inside the `try`, such a prompt ends in `AIServiceError("Unexpected error: …")` rather than `InvalidPromptError`.
- A `BaseException` outside `Exception` is modelled only when the GET raises it. Interrupts during validation or while the reply is read are not modelled.
- Implicit exception chaining is not modelled. The errors raised at bongo_chat.py:167 and :169 get the caught exception as their `__context__`; the model keeps only the new error's class and message.
- The success record's status (bongo_chat.py:155) is the `IntEnum` member `HTTPStatus.OK`. `Int(HttpOk)` stands for it: it equals 200, but its `repr` (`<HTTPStatus.OK: 200>`) and, before Python 3.11, its `str` differ from the plain int's.
- Strings are sequences of Unicode scalar values. Python's lone surrogates are not modelled.
- The `TypeError` messages for indexing a non-dict follow CPython 3.11's wording, which differs slightly in older versions.
- The `KeyError` message is the key between single quotes. This is `repr` for the three key names the client looks up.
- `BongoChat.NewClient`: the model identifier is typed as text. A non-string model argument, which Python would accept and send, is not modelled.

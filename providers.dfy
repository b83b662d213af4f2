/**
 * The provider registry of gitai's AI layer, the two prompt templates, the
 * request headers and the provider-specific paths to the reply text.
 */
module Providers {
  import opened Wrappers
  import opened Json
  import opened JsText

  const Gpt35Id := "gpt-3.5-turbo"
  const Gpt4oId := "gpt-4o"
  const GeminiId := "gemini-2.0-flash"

  const ChatCompletionsUrl := "https://api.openai.com/v1/chat/completions"
  const GeminiUrl :=
    "https://generativelanguage.googleapis.com/v1beta/models/gemini-2.0-flash:generateContent"

  /** Which payload builder a provider has; a chat builder names the model it advertises. */
  datatype PayloadShape = ChatCompletion(advertisedModel: string) | GenerateContent

  /** One entry of `AI_PROVIDERS`: the endpoint and the payload builder. */
  datatype Provider = Provider(url: string, shape: PayloadShape)

  const AiProviders: map<string, Provider> := map[
    Gpt35Id := Provider(ChatCompletionsUrl, ChatCompletion("gpt-3.5-turbo")),
    Gpt4oId := Provider(ChatCompletionsUrl, ChatCompletion("gpt-4")),
    GeminiId := Provider(GeminiUrl, GenerateContent)
  ]

  predicate IsRegistered(model: string) {
    model == Gpt35Id || model == Gpt4oId || model == GeminiId
  }

  /**
   * `AI_PROVIDERS[model]`, found or not. A name the object inherits
   * (`toString`, `__proto__`) is also answered with None: its value has no
   * `getPayload`, so the call throws before any request is made.
   */
  function Lookup(model: string): (p: Option<Provider>)
    ensures p.Some? <==> IsRegistered(model)
    ensures p.Some? && StartsWith(model, "gpt") ==>
      p.value.url == ChatCompletionsUrl && p.value.shape.ChatCompletion?
    ensures p.Some? && !StartsWith(model, "gpt") ==>
      model == GeminiId && p.value == Provider(GeminiUrl, GenerateContent)
  {
    GeminiIsNotGpt();
    if model in AiProviders then Some(AiProviders[model]) else None
  }

  lemma GeminiIsNotGpt()
    ensures !StartsWith(GeminiId, "gpt")
  {
    assert GeminiId[1] == 'e';
  }

  // ----- payloads -----

  /** `0.7`. */
  const Temperature := JNum(7, -1)

  /** Where a payload carries the prompt. */
  function PromptPath(shape: PayloadShape): seq<Key> {
    match shape
    case ChatCompletion(_) => [Name("messages"), At(0), Name("content")]
    case GenerateContent => [Name("contents"), At(0), Name("parts"), At(0), Name("text")]
  }

  /**
   * `getPayload(prompt)` of a provider. Every payload carries the prompt,
   * verbatim, where its provider's schema expects it.
   */
  function Payload(shape: PayloadShape, prompt: string): (body: Json)
    ensures Walk(Value(body), PromptPath(shape)) == Value(JStr(prompt))
  {
    var path := PromptPath(shape);
    match shape
    case ChatCompletion(m) =>
      var msg := JObj([("role", JStr("user")), ("content", JStr(prompt))]);
      var body := JObj([("model", JStr(m)), ("messages", Singleton(msg)), ("temperature", Temperature)]);
      MemberAt(body.members, 1);
      MemberAt(msg.members, 1);
      assert Get(Value(body), path[0]) == Value(Singleton(msg));
      assert Get(Value(Singleton(msg)), path[1]) == Value(msg);
      assert Get(Value(msg), path[2]) == Value(JStr(prompt));
      assert Walk(Value(msg), path[2..]) == Value(JStr(prompt));
      assert Walk(Value(Singleton(msg)), path[1..]) == Value(JStr(prompt));
      body
    case GenerateContent =>
      var text := Single("text", JStr(prompt));
      var part := Single("parts", Singleton(text));
      assert Walk(Value(text), path[4..]) == Value(JStr(prompt));
      assert Walk(Value(Singleton(text)), path[3..]) == Value(JStr(prompt));
      assert Walk(Value(part), path[2..]) == Value(JStr(prompt));
      assert Walk(Value(Singleton(part)), path[1..]) == Value(JStr(prompt));
      Single("contents", Singleton(part))
  }

  /**
   * A chat payload advertises its model and the temperature 0.7 and sends
   * the prompt as the single user message; a generate-content payload has
   * no `model` member.
   */
  lemma PayloadMembers(shape: PayloadShape, prompt: string)
    ensures shape.ChatCompletion? ==>
      && Get(Value(Payload(shape, prompt)), Name("model")) == Value(JStr(shape.advertisedModel))
      && Get(Value(Payload(shape, prompt)), Name("temperature")) == Value(JNum(7, -1))
      && Walk(Value(Payload(shape, prompt)), [Name("messages"), At(0), Name("role")]) == Value(JStr("user"))
      && Walk(Value(Payload(shape, prompt)), [Name("messages"), At(1)]) == Undefined
    ensures shape.GenerateContent? ==>
      && Get(Value(Payload(shape, prompt)), Name("model")) == Undefined
      && Walk(Value(Payload(shape, prompt)), [Name("contents"), At(1)]) == Undefined
  {
    var body := Payload(shape, prompt);
    if shape.ChatCompletion? {
      var msg := JObj([("role", JStr("user")), ("content", JStr(prompt))]);
      MemberAt(body.members, 0);
      MemberAt(body.members, 1);
      MemberAt(body.members, 2);
      MemberAt(msg.members, 0);
    }
  }

  /** The model sent to the endpoint: `gpt-4o` is advertised as `gpt-4`. */
  lemma AdvertisedModels()
    ensures Lookup(Gpt35Id) == Some(Provider(ChatCompletionsUrl, ChatCompletion("gpt-3.5-turbo")))
    ensures Lookup(Gpt4oId) == Some(Provider(ChatCompletionsUrl, ChatCompletion("gpt-4")))
    ensures Lookup(GeminiId) == Some(Provider(GeminiUrl, GenerateContent))
  {
  }

  // ----- prompts -----

  const GeneratePrefix :=
    "Generate a clear, concise git commit message in imperative mood (e.g., \"Fix bug\" not \"Fixed bug\") "
    + "for these changes. Focus on what changed and why, not how. Use conventional commit style if appropriate."
    + "\n\nGit diff:\n"
  const GenerateSuffix := "\n\nCommit message:"

  const CheckPrefix :=
    "Check and improve this git commit message for clarity, grammar, spelling, and conventional commit style. "
    + "Return only the improved message:\n\n\""
  const CheckSuffix := "\"\n\nImproved message:"

  /**
   * The prompt of `generateCommitMessage`: the diff inside a fixed template,
   * interpolated once, so that it is read back from the prompt.
   */
  function GeneratePrompt(gitDiff: string): (p: string)
    ensures Filling(p, GeneratePrefix, GenerateSuffix) == Some(gitDiff)
  {
    FillingOfInstance(GeneratePrefix, gitDiff, GenerateSuffix);
    GeneratePrefix + gitDiff + GenerateSuffix
  }

  /**
   * The prompt of `checkCommitMessage`: the message inside a fixed template,
   * interpolated once, between two double quotes.
   */
  function CheckPrompt(commitMessage: string): (p: string)
    ensures Filling(p, CheckPrefix, CheckSuffix) == Some(commitMessage)
    ensures p[|CheckPrefix| - 1] == '"'
    ensures p[|CheckPrefix| + |commitMessage|] == '"'
  {
    var p := CheckPrefix + commitMessage + CheckSuffix;
    FillingOfInstance(CheckPrefix, commitMessage, CheckSuffix);
    assert p[|CheckPrefix| - 1] == CheckPrefix[|CheckPrefix| - 1];
    assert p[|CheckPrefix| + |commitMessage|] == CheckSuffix[0];
    p
  }

  /** What a template with this prefix and suffix was filled with, if `prompt` is one of its instances. */
  function Filling(prompt: string, prefix: string, suffix: string): (r: Option<string>)
    ensures r.Some? ==> prompt == prefix + r.value + suffix
  {
    if |prefix| + |suffix| <= |prompt| && prompt[..|prefix|] == prefix
       && prompt[|prompt| - |suffix|..] == suffix
    then
      var inner := prompt[|prefix|..|prompt| - |suffix|];
      assert prompt == prompt[..|prefix|] + inner + prompt[|prompt| - |suffix|..];
      Some(inner)
    else None
  }

  /** Filling a template and reading the filling back gives the text that went in. */
  lemma FillingOfInstance(prefix: string, text: string, suffix: string)
    ensures Filling(prefix + text + suffix, prefix, suffix) == Some(text)
  {
    var p := prefix + text + suffix;
    assert p[..|prefix|] == prefix;
    assert p[|p| - |suffix|..] == suffix;
    assert p[|prefix|..|p| - |suffix|] == text;
  }

  // ----- headers -----

  /**
   * The request headers: `Authorization` is present (not `undefined`) only
   * for ids starting with `gpt`, `x-goog-api-key` only for the Gemini id.
   */
  datatype Headers = Headers(authorization: Option<string>, contentType: string, googApiKey: Option<string>)

  function RequestHeaders(model: string, apiKey: string): (h: Headers)
    ensures h.authorization.Some? <==> StartsWith(model, "gpt")
    ensures h.authorization.Some? ==> h.authorization.value == "Bearer " + apiKey
    ensures h.googApiKey.Some? <==> model == GeminiId
    ensures h.googApiKey.Some? ==> h.googApiKey.value == apiKey
    ensures h.contentType == "application/json"
  {
    Headers(if StartsWith(model, "gpt") then Some("Bearer " + apiKey) else None,
            "application/json",
            if model == GeminiId then Some(apiKey) else None)
  }

  /** No model id is sent both authentication headers; every registered id is sent exactly one. */
  lemma OneAuthHeader(model: string, apiKey: string)
    ensures !(RequestHeaders(model, apiKey).authorization.Some? && RequestHeaders(model, apiKey).googApiKey.Some?)
    ensures IsRegistered(model) ==>
      RequestHeaders(model, apiKey).authorization.Some? || RequestHeaders(model, apiKey).googApiKey.Some?
  {
    var h := RequestHeaders(model, apiKey);
    if h.googApiKey.Some? {
      assert model[..3] == "gem";
    }
  }

  // ----- requests -----

  /** The POST that `axios.post(provider.url, provider.getPayload(prompt), {headers})` sends. */
  datatype Request = Request(url: string, body: Json, headers: Headers)

  /** The request for `model`, or None when the model is unknown and nothing is sent. */
  function BuildRequest(model: string, apiKey: string, prompt: string): (r: Option<Request>)
    ensures r.Some? <==> IsRegistered(model)
    ensures r.Some? ==>
      && r.value.url == Lookup(model).value.url
      && r.value.body == Payload(Lookup(model).value.shape, prompt)
      && Walk(Value(r.value.body), PromptPath(Lookup(model).value.shape)) == Value(JStr(prompt))
      && r.value.headers == RequestHeaders(model, apiKey)
  {
    match Lookup(model)
    case None => None
    case Some(p) => Some(Request(p.url, Payload(p.shape, prompt), RequestHeaders(model, apiKey)))
  }

  // ----- replies -----

  /** What the transport delivers: the parsed `response.data`, or a thrown error (network, non-2xx). */
  datatype Outcome = Response(data: Json) | TransportError

  const ChoicesPath := [Name("choices"), At(0), Name("message"), Name("content")]
  const CandidatesPath := [Name("candidates"), At(0), Name("content"), Name("parts"), At(0), Name("text")]

  /**
   * The value of `message` after the if/else on the model id:
   * `choices[0].message.content` for `gpt…` ids,
   * `candidates[0].content.parts[0].text` for the Gemini id, `undefined` otherwise.
   * A registered model's reply is read from the path of the schema its
   * payload was sent in.
   */
  function ReplyField(model: string, data: Json): (r: Read)
    ensures IsRegistered(model) ==>
      r == Walk(Value(data), if Lookup(model).value.shape.ChatCompletion? then ChoicesPath else CandidatesPath)
    ensures !IsRegistered(model) && !StartsWith(model, "gpt") ==> r == Undefined
  {
    if StartsWith(model, "gpt") then Walk(Value(data), ChoicesPath)
    else if model == GeminiId then Walk(Value(data), CandidatesPath)
    else Undefined
  }

  /** The text on which `.trim()` succeeds; any read that is not a string makes it throw. */
  function ReplyText(model: string, data: Json): (r: Option<string>)
    ensures r.Some? <==> ReplyField(model, data).Value? && ReplyField(model, data).v.JStr?
    ensures r.Some? ==> ReplyField(model, data) == Value(JStr(r.value))
  {
    match ReplyField(model, data)
    case Value(JStr(s)) => Some(s)
    case _ => None
  }

  /** A chat-completion reply whose first choice says `text`. */
  function ChatReply(text: string): Json {
    Single("choices", Singleton(Single("message", Single("content", JStr(text)))))
  }

  /** A generate-content reply whose first candidate's first part says `text`. */
  function GeminiReply(text: string): Json {
    Single("candidates", Singleton(Single("content", Single("parts", Singleton(Single("text", JStr(text)))))))
  }

  /** The reply shape the provider of a registered id documents. */
  function ReplyFor(model: string, text: string): Json
    requires IsRegistered(model)
  {
    if model == GeminiId then GeminiReply(text) else ChatReply(text)
  }

  /** Extraction reads back exactly the text of a well-formed reply of the model's provider. */
  lemma ExtractsDocumentedReply(model: string, text: string)
    requires IsRegistered(model)
    ensures ReplyText(model, ReplyFor(model, text)) == Some(text)
  {
    if model == GeminiId {
      assert !StartsWith(model, "gpt") by { assert model[..3] == "gem"; }
    } else {
      assert model[..3] == "gpt";
    }
  }

  /** A reply in the other provider's shape, or with no first element, yields no text. */
  lemma WrongShapeYieldsNothing(model: string, text: string)
    ensures StartsWith(model, "gpt") ==>
      ReplyText(model, GeminiReply(text)) == None && ReplyText(model, Single("choices", JArr([]))) == None
    ensures model == GeminiId ==>
      ReplyText(model, ChatReply(text)) == None && ReplyText(model, Single("candidates", JArr([]))) == None
    ensures !IsRegistered(model) && !StartsWith(model, "gpt") ==>
      forall data :: ReplyText(model, data) == None
  {
    GeminiIsNotGpt();
    if StartsWith(model, "gpt") {
      NoChoices(text);
    } else if model == GeminiId {
      NoCandidates(text);
    }
  }

  /** Neither a generate-content reply nor an empty `choices` array has a first choice's content. */
  lemma NoChoices(text: string)
    ensures Walk(Value(GeminiReply(text)), ChoicesPath) == TypeError
    ensures Walk(Value(Single("choices", JArr([]))), ChoicesPath) == TypeError
  {
    assert Walk(Get(Value(GeminiReply(text)), ChoicesPath[0]), ChoicesPath[1..]) == TypeError;
    assert Walk(Get(Value(JArr([])), At(0)), ChoicesPath[2..]) == TypeError;
  }

  /** Neither a chat-completion reply nor an empty `candidates` array has a first candidate's text. */
  lemma NoCandidates(text: string)
    ensures Walk(Value(ChatReply(text)), CandidatesPath) == TypeError
    ensures Walk(Value(Single("candidates", JArr([]))), CandidatesPath) == TypeError
  {
    assert Walk(Get(Value(ChatReply(text)), CandidatesPath[0]), CandidatesPath[1..]) == TypeError;
    assert Walk(Get(Value(JArr([])), At(0)), CandidatesPath[2..]) == TypeError;
  }
}

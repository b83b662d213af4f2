/**
 * `generateCommitMessage` and `checkCommitMessage`. The awaited
 * `axios.post` is the parameter `post`: the response (or the thrown error)
 * the transport gives for a request. Every exception inside the `try`,
 * the unknown model included, is swallowed into the failure value.
 */
module Prompt {
  import opened Wrappers
  import opened Json
  import opened JsText
  import opened Providers
  import opened Normalizer

  /**
   * The body of either `try` block up to the raw reply text: look the
   * model up, send one request, read the model-specific path. None
   * stands for any exception thrown on the way.
   */
  function Ask(model: string, apiKey: string, prompt: string, post: Request -> Outcome): (r: Option<string>)
    ensures r.Some? ==>
      && IsRegistered(model)
      && post(BuildRequest(model, apiKey, prompt).value).Response?
      && ReplyField(model, post(BuildRequest(model, apiKey, prompt).value).data) == Value(JStr(r.value))
    ensures (&& IsRegistered(model)
             && post(BuildRequest(model, apiKey, prompt).value).Response?
             && ReplyText(model, post(BuildRequest(model, apiKey, prompt).value).data).Some?) ==>
      r == ReplyText(model, post(BuildRequest(model, apiKey, prompt).value).data)
  {
    match BuildRequest(model, apiKey, prompt)
    case None => None
    case Some(req) =>
      match post(req)
      case TransportError => None
      case Response(data) => ReplyText(model, data)
  }

  /** `generateCommitMessage(model, apiKey, gitDiff)`; None is `null`. */
  function GenerateCommitMessage(model: string, apiKey: string, gitDiff: string,
                                 post: Request -> Outcome): (r: Option<string>)
    ensures !IsRegistered(model) ==> r == None
    ensures r.Some? <==> Ask(model, apiKey, GeneratePrompt(gitDiff), post).Some?
    ensures r.Some? ==> r.value == Normalize(Ask(model, apiKey, GeneratePrompt(gitDiff), post).value)
  {
    match Ask(model, apiKey, GeneratePrompt(gitDiff), post)
    case None => None
    case Some(raw) => Some(Normalize(raw))
  }

  /**
   * `checkCommitMessage(model, apiKey, commitMessage)`: the normalised
   * reply, or the original message when anything fails or the reply
   * normalises to the empty string (`|| commitMessage`).
   */
  function CheckCommitMessage(model: string, apiKey: string, commitMessage: string,
                              post: Request -> Outcome): (r: string)
    ensures !IsRegistered(model) ==> r == commitMessage
    ensures r == "" ==> commitMessage == ""
    ensures r != commitMessage ==>
      && Ask(model, apiKey, CheckPrompt(commitMessage), post).Some?
      && r == Normalize(Ask(model, apiKey, CheckPrompt(commitMessage), post).value)
    ensures (&& Ask(model, apiKey, CheckPrompt(commitMessage), post).Some?
             && Normalize(Ask(model, apiKey, CheckPrompt(commitMessage), post).value) != "") ==>
      r == Normalize(Ask(model, apiKey, CheckPrompt(commitMessage), post).value)
  {
    match Ask(model, apiKey, CheckPrompt(commitMessage), post)
    case None => commitMessage
    case Some(raw) => if Normalize(raw) != "" then Normalize(raw) else commitMessage
  }

  /**
   * A transport failure (network error or non-2xx status) gives `null`
   * and the original message.
   */
  lemma TransportErrorFallsBack(model: string, apiKey: string, text: string, post: Request -> Outcome)
    requires IsRegistered(model)
    requires post(BuildRequest(model, apiKey, GeneratePrompt(text)).value) == TransportError
    requires post(BuildRequest(model, apiKey, CheckPrompt(text)).value) == TransportError
    ensures GenerateCommitMessage(model, apiKey, text, post) == None
    ensures CheckCommitMessage(model, apiKey, text, post) == text
  {
  }

  /** A well-formed reply of the model's provider hands its text to the normaliser. */
  lemma AskReadsDocumentedReply(model: string, apiKey: string, prompt: string, text: string,
                                post: Request -> Outcome)
    requires IsRegistered(model)
    requires post(BuildRequest(model, apiKey, prompt).value) == Response(ReplyFor(model, text))
    ensures Ask(model, apiKey, prompt, post) == Some(text)
  {
    ExtractsDocumentedReply(model, text);
  }

  /**
   * Any response with a string `text` at the model's reply path yields
   * exactly the normalised text, whatever else the response holds.
   */
  lemma GenerateNormalisesReply(model: string, apiKey: string, gitDiff: string, data: Json, text: string,
                                post: Request -> Outcome)
    requires IsRegistered(model)
    requires post(BuildRequest(model, apiKey, GeneratePrompt(gitDiff)).value) == Response(data)
    requires ReplyField(model, data) == Value(JStr(text))
    ensures GenerateCommitMessage(model, apiKey, gitDiff, post) == Some(Normalize(text))
  {
  }

  /**
   * Any response with a string `text` at the model's reply path yields the
   * normalised text, or the original message when that text normalises to
   * nothing.
   */
  lemma CheckNormalisesReply(model: string, apiKey: string, commitMessage: string, data: Json, text: string,
                             post: Request -> Outcome)
    requires IsRegistered(model)
    requires post(BuildRequest(model, apiKey, CheckPrompt(commitMessage)).value) == Response(data)
    requires ReplyField(model, data) == Value(JStr(text))
    ensures CheckCommitMessage(model, apiKey, commitMessage, post) ==
      if Normalize(text) == "" then commitMessage else Normalize(text)
  {
    assert Ask(model, apiKey, CheckPrompt(commitMessage), post) == Some(text);
  }

  /** For each registered model, a reply of its provider's documented shape yields the normalised text. */
  lemma GenerateNormalisesDocumentedReply(model: string, apiKey: string, gitDiff: string, text: string,
                                          post: Request -> Outcome)
    requires IsRegistered(model)
    requires post(BuildRequest(model, apiKey, GeneratePrompt(gitDiff)).value) == Response(ReplyFor(model, text))
    ensures GenerateCommitMessage(model, apiKey, gitDiff, post) == Some(Normalize(text))
  {
    ExtractsDocumentedReply(model, text);
    GenerateNormalisesReply(model, apiKey, gitDiff, ReplyFor(model, text), text, post);
  }

  /**
   * For each registered model, a reply of its provider's documented shape
   * yields the normalised text, or the original message when that text
   * normalises to nothing.
   */
  lemma CheckNormalisesDocumentedReply(model: string, apiKey: string, commitMessage: string, text: string,
                                       post: Request -> Outcome)
    requires IsRegistered(model)
    requires post(BuildRequest(model, apiKey, CheckPrompt(commitMessage)).value) == Response(ReplyFor(model, text))
    ensures CheckCommitMessage(model, apiKey, commitMessage, post) ==
      if Normalize(text) == "" then commitMessage else Normalize(text)
  {
    ExtractsDocumentedReply(model, text);
    CheckNormalisesReply(model, apiKey, commitMessage, ReplyFor(model, text), text, post);
  }

  /**
   * A reply without the expected path to a string (missing member, empty
   * array, a number, `null`) gives `null` and the original message.
   */
  lemma MalformedReplyFallsBack(model: string, apiKey: string, input: string, data: Json,
                                post: Request -> Outcome)
    requires IsRegistered(model)
    requires post(BuildRequest(model, apiKey, GeneratePrompt(input)).value) == Response(data)
    requires post(BuildRequest(model, apiKey, CheckPrompt(input)).value) == Response(data)
    requires !(ReplyField(model, data).Value? && ReplyField(model, data).v.JStr?)
    ensures GenerateCommitMessage(model, apiKey, input, post) == None
    ensures CheckCommitMessage(model, apiKey, input, post) == input
  {
  }

  /** Ask consults the transport only on the request BuildRequest describes. */
  lemma AskOnlySendsTheBuiltRequest(model: string, apiKey: string, prompt: string,
                                    post1: Request -> Outcome, post2: Request -> Outcome)
    requires !IsRegistered(model) ||
      post1(BuildRequest(model, apiKey, prompt).value) == post2(BuildRequest(model, apiKey, prompt).value)
    ensures Ask(model, apiKey, prompt, post1) == Ask(model, apiKey, prompt, post2)
  {
  }

  /**
   * Exactly one request is sent, the one BuildRequest describes: two
   * transports that answer that request alike give the same results, and
   * for an unknown model no transport is consulted at all.
   */
  lemma OnlyTheBuiltRequestMatters(model: string, apiKey: string, input: string,
                                   post1: Request -> Outcome, post2: Request -> Outcome)
    requires !IsRegistered(model) ||
      (&& post1(BuildRequest(model, apiKey, GeneratePrompt(input)).value)
           == post2(BuildRequest(model, apiKey, GeneratePrompt(input)).value)
       && post1(BuildRequest(model, apiKey, CheckPrompt(input)).value)
           == post2(BuildRequest(model, apiKey, CheckPrompt(input)).value))
    ensures GenerateCommitMessage(model, apiKey, input, post1) == GenerateCommitMessage(model, apiKey, input, post2)
    ensures CheckCommitMessage(model, apiKey, input, post1) == CheckCommitMessage(model, apiKey, input, post2)
  {
    AskOnlySendsTheBuiltRequest(model, apiKey, GeneratePrompt(input), post1, post2);
    AskOnlySendsTheBuiltRequest(model, apiKey, CheckPrompt(input), post1, post2);
  }

  /** A generated message is never longer than the trimmed reply it came from, and at most two shorter. */
  lemma GeneratedMessageWithinReply(model: string, apiKey: string, gitDiff: string, post: Request -> Outcome)
    requires GenerateCommitMessage(model, apiKey, gitDiff, post).Some?
    ensures var raw := Ask(model, apiKey, GeneratePrompt(gitDiff), post).value;
      && |Trim(raw)| - 2 <= |GenerateCommitMessage(model, apiKey, gitDiff, post).value| <= |Trim(raw)|
  {
    NormalizeShape(Ask(model, apiKey, GeneratePrompt(gitDiff), post).value);
  }
}

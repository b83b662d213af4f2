# gitai AI layer, modelled in Dafny

This project models the AI layer of gitai, `src/ai/prompt.js`. The model has six parts:

- **The provider registry.** `AI_PROVIDERS` maps three model ids to an endpoint and a payload builder.
- **The request.** This is the fixed prompt template, the payload and the authentication headers.
- **Reply extraction.** Each provider has its own path to the reply text, and property reads follow JavaScript: reading from `undefined` or `null` throws.
- **The normaliser.** It is `trim()` followed by `replace(/^["']|["']$/g, '')`.
- **The failure policy.** `generateCommitMessage` returns `null` and `checkCommitMessage` returns the original message.
- **The branch deriver.** `createBranchFromIssue` turns an issue URL's path into `type/repo-number`.

The code is pure once its single network call is made a parameter. So the model is datatypes, functions and lemmas.

## Modules

| file | module | what it holds |
|---|---|---|
| `wrappers.dfy` | `Wrappers` | `Option`, standing for `null` or a thrown-and-caught error |
| `jstext.dfy` | `JsText` | ECMAScript `trim`, `startsWith` and one-character `split`, plus the string-to-number grammar behind `isNaN` |
| `json.dfy` | `Json` | JSON values and JavaScript property reads (`Read = Undefined \| Value \| TypeError`) |
| `providers.dfy` | `Providers` | the registry, payloads, prompt templates, headers, requests and reply extraction |
| `normalize.dfy` | `Normalizer` | the trim-and-unquote normaliser |
| `prompt.dfy` | `Prompt` | `generateCommitMessage` and `checkCommitMessage` |
| `branch.dfy` | `Branch` | `createBranchFromIssue` |

## Modelling choices

**The transport.** `axios.post` becomes the function parameter `post: Request -> Outcome`. It gives either the parsed `response.data` or a transport error, and a non-2xx status counts as a transport error. The model sends exactly the `Request` that `BuildRequest` describes: URL, body and headers.

**Unknown model ids.** For an unknown id nothing is sent. A name that the object literal inherits, such as `toString` or `__proto__`, is also treated as unknown. For those names `AI_PROVIDERS[model]` is truthy, but it has no `getPayload`, so the code throws before any request. The observable result is the same.

**The normaliser's regular expression.** It is modelled as what a global replace actually does: a left-to-right scan that drops every position where `^["']` or `["']$` matches. The contract of `ReplaceFrom` states that the scan keeps exactly `t[FrontCut(t)..BackEnd(t)]`.

**The `isNaN` test.** `isNaN(issueNumber)` is `!IsNumericString`. That function trims the string, then runs a left-to-right scanner over the ECMAScript StringNumericLiteral grammar (ECMAScript section 7.1.4.1). The grammar covers:

- decimal literals, with an optional sign, fraction and exponent;
- `Infinity`, signed or not;
- `0x`, `0o` and `0b` literals.

An empty or all-space string converts to 0, so it is numeric.

**The branch deriver's input.** `CreateBranchFromIssue` takes `url.pathname`. URL parsing is not part of this model.

## Where the code does less than one might expect

A reader of the function names could expect more than the code does in three places. The model follows the code in each case.

- **Normaliser.** A quote stripper might be expected to remove one *matching* pair of straight or curly quotes, and to be idempotent. The code's regular expression differs in three ways:
  - It removes a leading straight quote and a trailing straight quote independently (`LoneOpeningQuoteStripped`, `MixedQuotesStripped`).
  - It ignores curly quotes (`CurlyQuotesKept`).
  - It is not idempotent (`NotIdempotent`: `""x""` becomes `"x"`, then `x`).
- **Issue numbers.** An issue number might be expected to be digits only. The code only asks `isNaN`, which also accepts several other forms:
  - `1.5` and `1e3` (`FractionalIssueNumberAccepted`, `ExponentIsNumeric`);
  - `Infinity` (`InfinityIsNumeric`);
  - `0x1F` (`HexIsNumeric`);
  - a string of spaces (`SpacesAreNumeric`). This is a fact about `isNaN` on the model's input only: a real `url.pathname` holds no space, because URL parsing percent-encodes it.
- **Unknown model ids.** An unknown model id might be expected to reach the caller as an error. The code throws and then catches that error itself, so callers see only `null` or the original message (`GenerateCommitMessage`, `CheckCommitMessage`).

## Model

| member | source | states |
|---|---|---|
| Providers.Lookup | src/ai/prompt.js:3-30 | a provider is found exactly for the three registered ids; `gpt…` ids use the chat-completions URL and a chat payload, and the only other registered id is `gemini-2.0-flash` with the generateContent URL |
| Providers.AdvertisedModels | src/ai/prompt.js:4-28 | `gpt-3.5-turbo` advertises `gpt-3.5-turbo`, `gpt-4o` advertises `gpt-4`, and `gemini-2.0-flash` uses the generateContent payload |
| Providers.Payload | src/ai/prompt.js:6-28 | every payload carries the prompt verbatim where its provider's schema expects it: at `messages[0].content` for chat, at `contents[0].parts[0].text` for Gemini |
| Providers.PayloadMembers | src/ai/prompt.js:6-28 | a chat payload has `model` set to the advertised model, `temperature` 0.7, a single message with role `user`, and no second message; a Gemini payload has no `model` member and a single `contents` entry |
| Providers.Filling | src/ai/prompt.js:37 | when a prompt is an instance of a template, the recovered filling rebuilds it exactly |
| Providers.FillingOfInstance | src/ai/prompt.js:37 | filling a template and reading it back returns the text that went in |
| Providers.GeneratePrompt | src/ai/prompt.js:37 | the generate prompt is the fixed template with the diff interpolated once, and the diff is read back from it |
| Providers.CheckPrompt | src/ai/prompt.js:73 | the check prompt is the fixed template with the message interpolated once, with a `"` just before it and just after it, and the message is read back from it |
| Providers.RequestHeaders | src/ai/prompt.js:43-49 | `Authorization` is `Bearer <key>` if and only if the id starts with `gpt`, `x-goog-api-key` is the key if and only if the id is `gemini-2.0-flash`, and `Content-Type` is always `application/json` |
| Providers.OneAuthHeader | src/ai/prompt.js:79-85 | no id is sent both authentication headers, and every registered id is sent exactly one |
| Providers.BuildRequest | src/ai/prompt.js:39-51 | a request exists exactly for registered ids; it goes to the provider's URL, its body is the provider's payload for the prompt and so carries the prompt at the provider's prompt path, and it has the id's headers |
| Providers.ReplyField | src/ai/prompt.js:53-59 | a registered id's reply is read along the path of the schema its payload was sent in: `choices[0].message.content` for chat, `candidates[0].content.parts[0].text` for generate-content; an unregistered id that does not start with `gpt` reads `undefined` |
| Providers.ReplyText | src/ai/prompt.js:53-61 | a text is obtained exactly when the id-specific path reads a string, and the text is that string; any other read makes `.trim()` throw |
| Providers.ExtractsDocumentedReply | src/ai/prompt.js:55-58 | for each registered id, a reply of its provider's documented shape yields exactly its text |
| Providers.WrongShapeYieldsNothing | src/ai/prompt.js:90-94 | for each provider, a reply of the other provider's shape or with an empty first array yields no text; an unregistered non-`gpt` id never yields a text |
| Providers.NoChoices | src/ai/prompt.js:56 | reading `choices[0].message.content` from a generate-content reply or from an empty `choices` array throws |
| Providers.NoCandidates | src/ai/prompt.js:58 | reading `candidates[0].content.parts[0].text` from a chat reply or from an empty `candidates` array throws |
| Json.Member | src/ai/prompt.js:56 | a member read finds a pair that is in the object, and `undefined` means that no pair has the key |
| Json.Get | src/ai/prompt.js:56 | a property read throws exactly when it reads from `undefined`, from `null` or from a read that already threw; it finds a value only inside an object, an array or a string |
| Json.Walk | src/ai/prompt.js:58 | once a read along a path gives `undefined` or throws, every further step throws |
| Json.WalkAppend | src/ai/prompt.js:56 | reading a path in two halves is the same as reading it whole |
| Json.Single | src/ai/prompt.js:25 | the one-member object `{k: v}` answers `v` for `k` |
| Json.Singleton | src/ai/prompt.js:8 | the one-element array `[v]` answers `v` at index 0 |
| JsText.TrimStart | src/ai/prompt.js:61 | `trimStart` removes exactly a prefix of spaces and leaves a non-space first character |
| JsText.TrimEnd | src/ai/prompt.js:61 | `trimEnd` removes exactly a suffix of spaces and leaves a non-space last character |
| JsText.Trim | src/ai/prompt.js:96 | the trimmed text neither starts nor ends with a space |
| JsText.TrimShape | src/ai/prompt.js:61 | the input is spaces, then the trimmed text, then spaces |
| JsText.TrimNoEdgeSpace | src/ai/prompt.js:61 | text with no space at either end is its own trim |
| JsText.TrimIdempotent | src/ai/prompt.js:96 | trimming twice is the same as trimming once |
| JsText.StartsWith | src/ai/prompt.js:44 | `startsWith` holds if and only if the prefix is no longer than the string and agrees with it at each of its positions |
| JsText.IndexOf | src/ai/prompt.js:106 | the first occurrence of the separator |
| JsText.Split | src/ai/prompt.js:106 | `split('/')` gives at least one piece, and no piece holds a `/` |
| JsText.JoinSplit | src/ai/prompt.js:106 | joining the pieces of a split with the separator gives back the path |
| JsText.SplitJoin | src/ai/prompt.js:106 | splitting a join of separator-free pieces gives back the pieces |
| JsText.SplitTwo | src/ai/prompt.js:117 | a string with one separator splits into the two pieces around it |
| JsText.IsNumericString | src/ai/prompt.js:110 | an empty or all-space string is numeric, and a numeric string's trimmed text starts with a sign, a digit, `.` or the `I` of `Infinity` |
| JsText.DigitsAreNumeric | src/ai/prompt.js:110 | `isNaN` is false on every non-empty run of decimal digits |
| JsText.FractionIsNumeric | src/ai/prompt.js:110 | `isNaN` is false on `digits.digits` |
| JsText.ExponentIsNumeric | src/ai/prompt.js:110 | `isNaN` is false on `digits e digits` |
| JsText.InfinityIsNumeric | src/ai/prompt.js:110 | `isNaN` is false on `Infinity`, `+Infinity` and `-Infinity` |
| JsText.HexIsNumeric | src/ai/prompt.js:110 | `isNaN` is false on `0x` followed by hexadecimal digits |
| JsText.SpacesAreNumeric | src/ai/prompt.js:110 | `isNaN` is false on a string of spaces, which converts to 0 |
| JsText.LetterStartIsNaN | src/ai/prompt.js:110-111 | `isNaN` is true on a string that starts with an ASCII letter other than `I` |
| Normalizer.ReplaceFrom | src/ai/prompt.js:61 | past the first position the global replace drops only a final quote; from the start it keeps exactly `t[FrontCut(t)..BackEnd(t)]` |
| Normalizer.StripEdgeQuotes | src/ai/prompt.js:61 | the global replace keeps exactly the text between an optional leading quote and an optional trailing quote, each end decided on its own |
| Normalizer.Normalize | src/ai/prompt.js:96 | the normalised reply is the trimmed reply with an optional leading quote and an optional trailing quote cut off |
| Normalizer.NormalizeShape | src/ai/prompt.js:61 | the result is a contiguous piece of the trimmed reply, at most two characters shorter; the first character is dropped exactly when it is a quote, and so is the last remaining one |
| Normalizer.NormalizeKeepsPlainText | src/ai/prompt.js:96 | text with no space and no quote at either end is returned unchanged |
| Normalizer.LoneOpeningQuoteStripped | src/ai/prompt.js:61 | a lone opening quote is dropped, because quotes need not match |
| Normalizer.LoneClosingQuoteStripped | src/ai/prompt.js:61 | a lone closing quote is dropped |
| Normalizer.MixedQuotesStripped | src/ai/prompt.js:61 | a `'` at the start and a `"` at the end are both dropped |
| Normalizer.SpacesTrimmedFirst | src/ai/prompt.js:61 | spaces are trimmed before the quotes are examined |
| Normalizer.CurlyQuotesKept | src/ai/prompt.js:61 | curly quotes are not in the class and are kept |
| Normalizer.InnerSpacesKept | src/ai/prompt.js:61 | spaces inside the quotes survive |
| Normalizer.QuotedTextUnquoted | src/ai/prompt.js:61 | `"x"` normalises to `x` |
| Normalizer.DoubledQuotesHalved | src/ai/prompt.js:61 | `""x""` loses only its outer quotes |
| Normalizer.NotIdempotent | src/ai/prompt.js:61 | normalising twice differs from normalising once |
| Normalizer.QuotesOnlyBecomeEmpty | src/ai/prompt.js:96 | a reply that trims to one or two quotes normalises to the empty string |
| Prompt.Ask | src/ai/prompt.js:33-59 | a reply text exists exactly for a registered id whose single request got a response with a string at the id's path, and it is that string |
| Prompt.GenerateCommitMessage | src/ai/prompt.js:32-66 | the result is `null` for an unknown id; it is a message exactly when a reply text was obtained, and then it is the normalised reply text |
| Prompt.CheckCommitMessage | src/ai/prompt.js:68-101 | for an unknown id the message comes back unchanged; a reply text that normalises to something non-empty is returned normalised; any result other than the message is the normalised reply text, and the result is empty only if the message is |
| Prompt.TransportErrorFallsBack | src/ai/prompt.js:62-65 | a transport error gives `null` when generating and the original message when checking |
| Prompt.AskReadsDocumentedReply | src/ai/prompt.js:53-59 | a documented-shape reply hands its exact text to the normaliser |
| Prompt.GenerateNormalisesReply | src/ai/prompt.js:61 | any response with a string at the id's path gives exactly the normalised string |
| Prompt.CheckNormalisesReply | src/ai/prompt.js:96 | any response with a string at the id's path gives the normalised string, or the original message when that string normalises to nothing |
| Prompt.GenerateNormalisesDocumentedReply | src/ai/prompt.js:61 | for a documented-shape reply, the generated message is exactly the normalised reply text |
| Prompt.CheckNormalisesDocumentedReply | src/ai/prompt.js:96 | for a documented-shape reply, the checked message is the normalised text, or the original message when that text is empty |
| Prompt.MalformedReplyFallsBack | src/ai/prompt.js:97-100 | a reply without a string at the expected path gives `null` and the original message |
| Prompt.AskOnlySendsTheBuiltRequest | src/ai/prompt.js:75-87 | the outcome depends on the transport only through its answer to the single built request |
| Prompt.OnlyTheBuiltRequestMatters | src/ai/prompt.js:39-51 | two transports that answer the built request alike give the same results, and for an unknown id the transport is never consulted |
| Prompt.GeneratedMessageWithinReply | src/ai/prompt.js:61 | a generated message is between `\|trim(reply)\| - 2` and `\|trim(reply)\|` characters long |
| Branch.Clean | src/ai/prompt.js:116 | cleaning keeps the length, keeps every ASCII letter and digit in place, and turns every other character into `-` |
| Branch.CleanKeepsSafeName | src/ai/prompt.js:116 | a name of letters, digits and hyphens is left as it is |
| Branch.CleanIsBranchSafe | src/ai/prompt.js:116 | a cleaned name holds only letters, digits and hyphens, and cleaning it again changes nothing |
| Branch.CreateBranchFromIssue | src/ai/prompt.js:103-122 | a branch exists if and only if there are at least three segments and the last segment is non-empty and numeric; the branch is `parts[n-2]/Clean(parts[2])-parts[n-1]` |
| JsText.SplitLastIsSuffix | src/ai/prompt.js:108 | the last segment is a suffix of the path |
| Branch.TrailingSlashGivesNothing | src/ai/prompt.js:110 | a path that ends in `/` gives no branch |
| Branch.BranchOfSegments | src/ai/prompt.js:106-117 | the path joined from slash-free segments gives the branch built from those segments |
| Branch.BranchNameHasNoSlash | src/ai/prompt.js:117 | the `repo-number` half of a branch holds no `/` |
| Branch.BranchSplitsAtTheSlash | src/ai/prompt.js:117 | a derived branch splits at its only `/` into the issue type and `repo-number` |
| Branch.IssuePathGivesBranch | src/ai/prompt.js:103-117 | `/owner/repo/kind/number` with a digit-only number gives `kind/Clean(repo)-number` |
| Branch.NonNumericIssueGivesNothing | src/ai/prompt.js:110-111 | a last segment that `isNaN` rejects gives no branch |
| Branch.ShortPathGivesNothing | src/ai/prompt.js:115-121 | a path with fewer than three segments gives no branch, because `pathParts[2]` is `undefined` and `.replace` throws |
| Branch.FractionalIssueNumberAccepted | src/ai/prompt.js:110 | a fractional issue number such as `1.5` is accepted, and the branch is built from it |

## Left out

- The HTTP call, `async`/`await`, timeouts and `error.response` detail: the transport is the parameter `post`.
- `console.error` logging in the catch blocks: it does not affect the results.
- `new URL(issueUrl)`: URL parsing is not part of this model, so `CreateBranchFromIssue` takes the pathname.
  - A malformed URL, which makes `new URL` throw and gives `null`, is therefore not represented.
- `src/main.js`: CLI, git subprocess and commit-file plumbing. This file is not part of this model.
- `src/config/settings.js`: file I/O for the configuration and key. This file is not part of this model.
- Characters are Dafny `char`s (Unicode scalar values), while JavaScript strings are UTF-16 code units.
  - A surrogate pair counts as one character here and as two in JavaScript.
  - `trim` and the normaliser's regular expression only look at BMP characters, so they behave alike on both.
  - The repository-name pattern `/[^a-zA-Z0-9]/g` has no `u` flag, so in JavaScript a character outside the BMP becomes `--`, while `Clean` gives `-`. The gap is closed only because URL parsing percent-encodes such characters in `url.pathname`, so they never reach the pattern.
- JSON numbers are exact decimals (`mantissa * 10^exponent`), not IEEE doubles, and they appear as the payload's temperature and wherever a reply holds a number.
- Properties that parsed JSON values inherit (such as `length`) are not modelled. Neither reply path reads one.
- Prompt.Ask, Providers.Lookup: an inherited name such as `toString` used as a model id is reported as unknown. The code, too, throws before sending anything, but the model does not distinguish that throw from the `Unsupported model` one.

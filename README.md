# Chat bot reply dispatcher — a verified model

This project models the decision logic of a browser chat bot (`script.js`). The
bot answers each line the user types in a fixed order of precedence:

1. the compound-database keyword `pubchem`;
2. the answers it has learned, earliest first;
3. its fixed answer table;
4. an arithmetic evaluator for messages made of arithmetic characters;
5. a web-search fallback.

After showing the reply, it reads the reply's own text to decide what to do next:

- a web search, when the reply contains `Pesquisando na web...`;
- otherwise a compound lookup, when it contains `Coletando dados do PubChem...`;
- otherwise it offers to learn the exchange, which the user must confirm.

Every turn also requests a translation of the reply.

The model has these modules:

- `Text` (`text.dfy`): `toLowerCase` on ASCII, `includes`, and the regular-expression classes `\s`, `\d` and `[a-zA-Z]`.
- `PubChemKey` (`pubchem_key.dfy`): chooses the compound lookup key with `/cid\s*(\d+)/i` first and `/nome\s*([a-zA-Z]+)/i` second. It gives the leftmost match and the greedy capture, as `String.prototype.match` does. The matcher is proved equal to an independent reading of the two regular expressions.
- `Reply` (`reply.dfy`): the dispatcher `generateResponse` as the pure function `Response` over the answer table, the learned list and the arithmetic library. The same module holds the routing of a reply (`RouteOf`) and the lemmas about precedence, learning and recall.
- `Chat` (`chat.dfy`): the classes `ChatUI` (the append-only message log) and `ChatBot`.
  - `ChatBot` has the fields `knownAnswers: map<string, string>`, `exampleData: seq<Example>` and `requests: seq<Request>`. The last one is the record of outbound network requests.
  - Its methods mirror the source's methods. `GenerateResponse` scans the learned list with a loop and is proved equal to `Response`.
  - `ProcessUserMessage` states the whole new state after a turn: log, requests and answer stores. It also keeps the invariant that no stored answer carries a routing marker.
- `Scenarios` (`scenarios.dfy`): the example conversations ("ola", "2+2", "pubchem cid 2244", an unknown question, a repeated greeting) checked against the model.

The model follows three details of the code:

- the learned list is consulted before the fixed table;
- the web-search marker is tested before the compound marker;
- the arithmetic class admits the single letters `s`, `q`, `r` and `t` in any order, not only the word `sqrt`.

Parameters stand in for the outside world:

- the arithmetic library is the function `evaluate: string -> Option<string>`. It gives the printed result, or `None` when evaluation throws;
- the confirmation prompt is the boolean `confirmed`;
- a network call is recorded as a `Request` value when it is issued.

## Model

| member | source | states |
|---|---|---|
| `Text.Lower` | script.js:53 | lowering keeps the length, leaves no upper-case letter, and changes no character other than an upper-case letter |
| `Text.Contains` | script.js:41-55 | no contract of its own; `includes` as an occurrence at some index, used for the keyword test (line 55) and both routing tests (lines 41 and 43); `PubChemPrecedence`, `PubChemReplyRoutesToLookup` and `WebFallbackRoutesToSearch` state its consequences |
| `Text.IsJsSpace` | script.js:75-76 | no contract of its own; the code points of `\s` (also used at line 120), on which `MatchAtMeaning` and `MathExpressionOfMessage` rest |
| `Text.LowerKeepsLowerCase` | script.js:53 | a message with no upper-case letter is its own lowered form |
| `Text.LowerIdempotent` | script.js:53 | lowering an already lowered message changes nothing |
| `Reply.WebFallback` | script.js:70 | no contract of its own; `WebFallbackRoutesToSearch` states that every fallback, for every message, starts the web search |
| `Reply.SeedAnswers` | script.js:26-30 | no contract of its own; `SeedAnswersAreLearnable` states that none of its answers carries a routing marker |
| `Reply.Response` | script.js:52-72 | no contract of its own; its precedence is stated by `PubChemPrecedence`, `LearnedFirst`, `KnownAnswerHit` and `MathOrWeb`, its case-insensitivity by `ResponseIgnoresCase`, and the loop is proved equal to it by `Chat.ChatBot.GenerateResponse` |
| `Reply.IsMathExpression` | script.js:119-121 | no contract of its own; `MathExpressionOfMessage` states what it accepts of a typed message |
| `Reply.EvaluateMath` | script.js:123-130 | no contract of its own; `EvaluateMathLacksP` and `EvaluatorReplyIsLearnable` state what its replies lead to |
| `Reply.EvaluatorReplyIsLearnable` | script.js:41-47 | an arithmetic reply routes to learning whenever the printed result has no capital P, so the success reply and even the apology for a failed calculation are offered for learning |
| `Reply.EvaluateMathLacksP` | script.js:123-130 | neither reply template of the evaluator adds a capital P beyond those in the expression and the printed result |
| `Reply.RouteOf` | script.js:41-47 | no contract of its own; `PubChemReplyRoutesToLookup`, `WebFallbackRoutesToSearch` and `SeedAnswersAreLearnable` state where the bot's own replies are routed |
| `Reply.FirstLearned` | script.js:59-63 | gives the index of the earliest learned entry whose lowered question equals the lowered message, with no earlier entry matching; gives none exactly when no entry matches |
| `Reply.PubChemPrecedence` | script.js:53-57 | a message whose lowered text contains `pubchem` gets exactly `Coletando dados do PubChem...`, whatever the learned list and the table hold |
| `Reply.LearnedFirst` | script.js:59-63 | when the keyword is absent, the answer of the earliest learned entry matching case-insensitively is the reply, ahead of the table |
| `Reply.KnownAnswerHit` | script.js:65-66 | with no learned match, a non-empty table value under the lowered message is the reply |
| `Reply.MathOrWeb` | script.js:67-70 | only after both stores miss: the lowered message is evaluated when it is an arithmetic expression; otherwise the web fallback quotes the message as typed |
| `Reply.ResponseIgnoresCase` | script.js:52-72 | two messages equal after lowering get the same reply, unless both fall back to the web search, where each is quoted as typed |
| `Reply.MathExpressionOfMessage` | script.js:119-121 | the arithmetic test on the lowered message holds exactly for non-empty messages whose characters are digits, `+ - * / ( ) . ^`, `\s`, or `s q r t` in either case |
| `Reply.FirstLearnedAppend` | script.js:114 | appending a learned pair never changes which earlier entry matches; the new entry is found only when no earlier one matches |
| `Reply.LearnThenRecall` | script.js:111-114 | after learning `(q, a)`, any case variant of `q` is answered with `a`, provided `q` lacks the keyword and no earlier learned entry asks `q` |
| `Reply.PubChemReplyRoutesToLookup` | script.js:41-44 | the compound reply starts the compound lookup and not the web search, although the web marker is tested first |
| `Reply.WebFallbackRoutesToSearch` | script.js:41-42 | every web-fallback reply starts the web search |
| `Reply.PubChemTurn` | script.js:43-44 | a message with the keyword always leads to a compound lookup and is never learned |
| `Reply.LearnedReplyIsStable` | script.js:45-47 | once a reply that leads to learning is stored with its message, every case variant of the message gets that same reply again, whichever branch first produced it |
| `Reply.SeedAnswersAreLearnable` | script.js:26-30 | none of the three seeded answers contains either routing marker |
| `PubChemKey.RunEnd` | script.js:75 | a greedy run: every character before the end is in the class, and the character at the end is not |
| `PubChemKey.MatchAt` | script.js:75-76 | no contract of its own; one attempt of the pattern at one position, whose meaning `MatchAtMeaning` states |
| `PubChemKey.MatchAtMeaning` | script.js:75-76 | the matcher at one position gives capture `v` if and only if the regular expression matches there with capture `v`: keyword in any case, `\s*`, then one or more class characters, greedy |
| `PubChemKey.FirstMatchIndex` | script.js:75-76 | the scan gives the first position where the pattern matches, or none exactly when it matches at no position |
| `PubChemKey.FirstMatch` | script.js:75-83 | no contract of its own; `message.match(re)` and its capture `[1]`, whose meaning `FirstMatchMeaning` states |
| `PubChemKey.FirstMatchMeaning` | script.js:75-76 | the scanned capture is the capture of the leftmost match of the regular expression; no capture means no match anywhere |
| `PubChemKey.SelectLookupKeyMeaning` | script.js:75-88 | the key is the leftmost CID capture when there is one; otherwise the leftmost name capture; otherwise there is no key and neither pattern matches anywhere |
| `PubChemKey.CidBeforeName` | script.js:79-84 | any CID match selects a lookup by CID, even when a name match exists as well |
| `PubChemKey.SelectLookupKey` | script.js:75-88 | no contract of its own; `SelectLookupKeyMeaning`, `CidBeforeName` and `LookupKeyShape` state which key is chosen |
| `PubChemKey.LookupKeyShape` | script.js:75-84 | a chosen CID is a non-empty run of digits and a chosen name a non-empty run of ASCII letters |
| `PubChemKey.LookupUrl` | script.js:81-84 | no contract of its own; `LookupUrlDeterminesKey` states that it tells keys apart |
| `PubChemKey.LookupUrlDeterminesKey` | script.js:81-84 | two keys with the same endpoint URL are the same key: the kind and the identifier can be read back from the URL |
| `Chat.ChatUI.constructor` | script.js:7-9 | a new interface starts with an empty log |
| `Chat.ChatUI.AppendMessage` | script.js:11-20 | the log grows by exactly the one entry, with its role |
| `Chat.ChatBot.constructor` | script.js:24-34 | the bot starts with the three seeded answers, an empty learned list, target language `en` and the placeholder key, with no stored answer carrying a marker |
| `Chat.ChatBot.ProcessUserMessage` | script.js:36-50 | the log gains the message and then the reply; the follow-up is chosen from the reply text, web marker first; the stores change only on a confirmed learning turn; a translation request for the reply is always issued last; stored answers stay marker-free |
| `Chat.ChatBot.FollowUp` | script.js:41-47 | the chosen follow-up issues its one search request, its compound request or validation message, or its learning update, and nothing else changes |
| `Chat.ChatBot.GenerateResponse` | script.js:52-72 | the loop over the learned list, with its early return, yields exactly `Response` of the current stores |
| `Chat.ChatBot.FetchPubChemData` | script.js:75-88 | with a key, one request to that key's URL and no message; with no key, only the validation message and no request |
| `Chat.ChatBot.LearnNewAnswer` | script.js:111-117 | when confirmed, the table maps the lowered question to the answer and the list gains exactly `(question, answer)`; when refused, both stores are unchanged |
| `Chat.ChatBot.SearchWeb` | script.js:132-135 | one search request for the query as typed |
| `Chat.ChatBot.TranslateResponse` | script.js:146-159 | one translation request carrying the reply, the target language and the key |
| `Scenarios.GreetingScenario` | script.js:27 | "ola" with the seeded table gets the greeting, and the greeting leads to learning |
| `Scenarios.ArithmeticScenario` | script.js:123-126 | "2+2", evaluated to 4, gets `O resultado de "2+2" é 4.` |
| `Scenarios.UnknownQuestionScenario` | script.js:69-70 | "what is quantum tunneling" gets the web fallback quoting it and leads to a web search |
| `Scenarios.CompoundByIdScenario` | script.js:75-81 | "pubchem cid 2244" gets the compound reply whatever the stores hold, and is looked up by CID `2244` |
| `Scenarios.GreetingTurn` | script.js:36-50 | a fresh bot given "ola" logs two entries, issues only the translation request and learns the pair when confirmed |
| `Scenarios.RepeatedGreeting` | script.js:59-63 | after "ola" is learned, "OLA" is answered with the same greeting from the learned list |

## Left out

- What the three network flows do when their responses arrive is not modelled: the compound summary (script.js:90-108), the search result (script.js:136-143) and the translated text (script.js:160-171). Each flow is recorded only as the request it issues. The replies these flows render later, in whatever order they complete, are not in the log.
- Request encoding is not modelled: `encodeURIComponent` of the search query and the form encoding of the translation parameters. Requests carry the raw text.
- The arithmetic library (`math.evaluate`) is a parameter. The model covers only the two reply formats built from its outcome.
- The blocking `confirm` prompt is the boolean `confirmed`. The `alert` acknowledgement and the `console.error` diagnostics have no effect on state and are not modelled.
- DOM rendering and scrolling (script.js:11-20) are not modelled. The log is a sequence of (text, role) entries.
- Event wiring and `trim` (script.js:175-190) are not modelled. `ProcessUserMessage` accepts any message, including an empty one.
- `Text.Lower`: lowers ASCII letters only, because full Unicode `toLowerCase` (other alphabets, and mappings that change length) is not modelled. The regular-expression flags are unaffected: `/i` on `cid` and `nome` is exactly ASCII case-insensitive.
- Lookups in the fixed table see only keys that were set. Keys that a JavaScript object inherits, such as `constructor` or `__proto__`, are not modelled: in the program such a lowered message makes `knownAnswers[...]` (script.js:65) yield a truthy non-string, so `response.includes` (script.js:41) throws after both log entries and the turn has no follow-up and no translation, while the model gives that message the web fallback. An empty stored answer counts as a miss, as JavaScript truthiness has it.

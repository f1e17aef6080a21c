# Intent-resolution pipeline of the smart desktop assistant, in Dafny

The assistant takes a line of free text, asks a hosted chat model to
classify it, and opens one URL in the browser. This project models the two
pure steps of that pipeline and proves properties about them:

- **The response extractor** (the second half of `APIHandler`). It strips
  the model's reply and finds the brace span that `re.search(r'\{.*\}',
  content, re.DOTALL)` matches. It parses that span as JSON, then reads
  `intent` (default `"unknown"`) and `url` (default `""`). A non-empty URL
  that does not begin with `http` gets `https://` in front. When there is
  no span, or the span is not JSON, the result is `("unknown", "")`.
- **The command dispatcher** (`execute_command`). It takes the user's text
  and the `(intent, url)` pair and walks the fallback ladder. A non-empty
  URL is opened as is. Otherwise the lower-cased intent picks a Bilibili
  video search, a NetEase music search, or a direct open of the text as a
  domain (only when the text holds a `.`). Anything else ends in a Bing
  search.

Modules, leaf first:

- `Wrappers` (`wrappers.dfy`): `Option`.
- `Strings` (`strings.dfy`): `startswith`, `strip()`, `lower()`, and
  first/last index searches.
- `ApiHandler` (`api_handler.dfy`): the brace span, the URL normalisation
  and the extractor.
- `CommandHelper` (`command_helper.dfy`): the ladder's rungs and
  `execute_command` once the classifier has answered.
- `Pipeline` (`pipeline.dfy`): the two steps composed, given the model's
  reply.

Two library calls have no body in this model. `json.loads` is a parameter
`parse: string -> Option<map<string, string>>`, where `None` stands for
`JSONDecodeError`. `urllib.parse.quote` is a parameter `quote: string ->
string`. `webbrowser.open(url)` followed by `return message` is the
returned value `Action(target, status)`. The status strings are the
source's own, emoji included.

Three consequences of the code that a reader might not expect:

- The scheme check looks only at the four letters `http`, so
  `httpbin.org` keeps no scheme. The direct-open rung uses the same check.
  `NormaliseUrlChecksPrefixOnly` shows this.
- The span runs from the first `{` to the last `}`, so two objects in one
  reply merge into one span. `BraceSpanMergesSeparateObjects` proves this.
- An empty command is accepted: the ladder needs no non-empty text, and
  neither does the model.

## Model

| member | source | states |
|---|---|---|
| ApiHandler.BraceSpan | api_handler.py:77-79 | a span that is found opens with `{`, closes with `}` and has at least two characters |
| ApiHandler.BraceSpanRunsFirstToLast | api_handler.py:77-79 | a span is found exactly when some `{` comes before some `}`; it is then the text from the first `{` to the last `}`, inclusive |
| ApiHandler.BraceSpanIsLeftmostGreedyMatch | api_handler.py:77-79 | the span is what `re.search` reports for `\{.*\}` under DOTALL: it exists exactly when the pattern matches somewhere, it starts at the leftmost place a match can start, and it is the longest match from there |
| ApiHandler.BraceSpanMergesSeparateObjects | api_handler.py:77-79 | braces are not balanced: two objects in one reply, whatever text lies between them, give one span running from the first object's `{` to the second object's `}` |
| ApiHandler.NoSpanWhenNoClosingBraceFollows | api_handler.py:77-78 | when no `}` follows any `{`, there is no span |
| ApiHandler.BraceSpanOfEmbeddedObject | api_handler.py:77-79 | prose without braces on either side of one object is ignored: the span is exactly the object |
| Strings.Strip | api_handler.py:70 | the stripped reply is empty or neither starts nor ends with Python whitespace |
| Strings.StripWindow | api_handler.py:70 | stripping keeps one contiguous window of the reply and removes only whitespace before and after it |
| ApiHandler.BraceSpanIgnoresStrip | api_handler.py:70-79 | stripping the reply never changes the brace span, because no whitespace character is a brace |
| ApiHandler.NormaliseUrl | api_handler.py:83-85 | the result is empty or begins with `http`; the URL is unchanged exactly when it was already empty or began with `http`; otherwise the result is `https://` followed by the URL |
| ApiHandler.NormaliseUrlIdempotent | api_handler.py:84-85 | normalising an already normalised URL changes nothing |
| ApiHandler.NormaliseUrlChecksPrefixOnly | api_handler.py:84-85 | `httpbin.org` is left without a scheme, `zhihu.com` becomes `https://zhihu.com`, and `http://a.cn` and the empty URL are unchanged |
| ApiHandler.FromObject | api_handler.py:83-87 | a present `intent` is passed through with no case folding, and a missing one reads `"unknown"`; a present `url` is normalised, and a missing one reads `""` |
| ApiHandler.FromObjectReadsOnlyTwoKeys | api_handler.py:83-87 | only the `intent` and `url` members are read: objects that agree on those two give the same result, whatever other members they carry |
| ApiHandler.ClassifyContent | api_handler.py:75-94 | no span gives `("unknown", "")`; a span that does not parse gives `("unknown", "")`; a parsed object gives its fields with defaults; the URL is always empty or begins with `http` |
| ApiHandler.Extract | api_handler.py:70-94 | the extractor on the raw reply gives the same result as on the stripped reply, and its URL is empty or begins with `http` |
| ApiHandler.ExtractUnknownIff | api_handler.py:77-94 | the result is `("unknown", "")` exactly when there is no span, or the span does not parse, or the object has no intent other than `"unknown"` and no non-empty URL |
| Strings.Lower | command_helper.py:8 | lower-casing keeps the length and maps every character on its own |
| CommandHelper.ChooseRoute | command_helper.py:11-38 | each of the five rungs fires exactly under its own condition, so exactly one fires for every input: a non-empty URL; else video, music, or open-website with a `.` in the text; else the web search, which also catches open-website without a `.` |
| CommandHelper.DomainUrl | command_helper.py:30-31 | the direct-open URL begins with `http`; it is the text itself when that begins with `http`, otherwise `https://` followed by the text |
| CommandHelper.ExecuteCommand | command_helper.py:8-38 | a non-empty URL is opened whatever the intent; with no URL, each tag opens its search template built from `quote(command)`, open-website opens the text as a domain only when it holds a `.`, and every other case opens the Bing search |
| CommandHelper.ExecuteCommandIgnoresIntentCase | command_helper.py:8-28 | two intents that differ only in the case of ASCII letters give the same action |
| CommandHelper.ExecuteCommandOpensHttp | command_helper.py:11-38 | when the given URL is empty or begins with `http`, every rung opens a URL that begins with `http` |
| CommandHelper.ExecuteCommandStatusNamesTargetOrText | command_helper.py:11-38 | the status message names the opened URL on the two open rungs and the user's text on the three search rungs |
| Pipeline.Dispatch | command_helper.py:5-38 | for every reply, exactly one URL is opened and it begins with `http` |
| Pipeline.DispatchWithoutJsonSearchesWeb | command_helper.py:7-38 | a reply with no span, or whose span is not JSON, ends in the Bing search for the user's text |
| Pipeline.DispatchPrefersReturnedUrl | command_helper.py:7-13 | a non-empty URL in the parsed object is opened after normalisation, whatever the intent |
| Pipeline.DispatchWithoutUrlFollowsIntent | command_helper.py:7-38 | a parsed object without a usable URL gives the action the ladder chooses for its intent alone |
| Pipeline.DispatchReplyWithProse | api_handler.py:77-87 | the reply `noise {"intent":"open_website","url":"zhihu.com"} noise` extracts to `("open_website", "https://zhihu.com")` and opens `https://zhihu.com`, given that `json.loads` decodes the object to those two members |

## Left out

- The OpenAI client set-up, the chat-completion call and the system prompt
  (api_handler.py:9-68) are network I/O and configuration. The model's
  reply text is an input instead. Transport errors are not modelled.
- A reply whose `content` is `None` would raise at `strip()`. The reply is
  always a string here.
- `json.loads` is a parameter and its internals are not modelled. A span
  starts with `{`, so a successful parse is always an object. Object
  members are limited to strings. A falsy non-string `url` (`null`, `0`,
  `false`, `[]`, `{}`) fails the `if url` test (api_handler.py:84), comes
  back unchanged, and is treated as "no URL" by the ladder
  (command_helper.py:11). A parser that leaves such a `url` out of its
  result therefore gives the same dispatch. Only a truthy non-string `url`
  (raising at `startswith`) or a non-string `intent` (raising at
  `intent.lower()`, command_helper.py:8) ends in an exception, which the
  window code catches; that path is not modelled.
- `urllib.parse.quote` is a parameter. Its percent-encoding, per section
  2.1 of RFC 3986, is not modelled.
- Strings.Lower: maps only the ASCII letters `A`-`Z`, whereas Python's
  `str.lower()` covers all of Unicode. Only U+0130 and U+212A lower-case
  to text that holds an ASCII letter. U+0130 becomes `i` plus a combining
  dot, and U+212A becomes `k`. None of the three tags contains a `k`, so
  comparing the lowered intent with a tag gives the same answer either way.
- The `print` debug output, and `webbrowser.open` as a side effect. The
  opened URL is the `target` of the returned `Action`.
- main.py: the PyQt5 window, animations, tray icon, logging, and the
  background thread with its one-search-at-a-time guard.

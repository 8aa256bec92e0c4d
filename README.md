# Flowise pipe and YouTube transcript tool, modelled in Dafny

This project models two Open WebUI plug-ins from the configuration repository.

- **The Flowise pipe** (`configs/openwebui/functions/flowise.py`). It turns a
  host chat request into a Flowise prediction payload:
  - the question is the last message, with multi-modal content flattened to text;
  - the history is every earlier message, with its role mapped to
    `userMessage`/`apiMessage`;
  - the override configuration is empty;
  - the system message is the content of the first message whose role is
    `system`.

  The pipe passes that payload to `requests.post` once. It then relays the
  answer: chunk by chunk when streaming, as the `text` field of the whole reply
  otherwise. Any exception is turned into an `Error in Flowise pipe: …` text.
- **The transcript tool** (`configs/openwebui/tools/youtube_sumamrize.py`). It
  checks a YouTube URL and extracts the 11-character video id. It then asks the
  transcript library for the languages `pt-BR`, `pt`, `pt-BR_auto`, `en`,
  `en_auto`, in that order, and stops at the first one that works. It reports
  status events to the host's callback as it goes.

Files:

- `wrappers.dfy`: `Option` and `Result`.
- `flowise.dfy`: module `Flowise`.
  - Values: JSON values, messages, payloads, streamed lines and the generator's
    outcome.
  - Specification functions for each step: `FlattenContent`, `RoleOf`,
    `HistoryEntry`, `History`, `FirstSystem`, `BuildPayload`, `Relay` and
    `PipeOutcome`.
  - The source's loops, written as methods and proved equal to those functions.
- `flowise_properties.dfy`: module `FlowiseProperties`, the properties of the
  request builder and the relay.
- `youtube.dfy`: module `YouTubeTranscript`.
  - The host callback is `Callback`, which records every notification.
  - `EventEmitter` is a class.
  - The transcript library is `TranscriptProvider`, which records every query.
  - `GetTextFromUrl` is proved against the specification function `Fetched`.
- `youtube_properties.dfy`: module `YouTubeTranscriptProperties`, the
  properties of each path of the tool.

Modelling choices:

- **`pipe` is a generator function**, because its body contains `yield`. Its
  effect is therefore recorded as an `Outcome`:
  - the request it passed to `requests.post`, if any;
  - the chunks it yielded;
  - the value of its final `return`.

  The error text and the non-streamed reply are that return value, never a
  yielded chunk.
- **The HTTP server is a parameter of `Pipe`.** It is a function from the
  `Request` passed to `requests.post` to either a `Response` or the exception
  that `requests.post` or `raise_for_status` raised.
  - A `Response` carries what `r.json()` gives, or the exception it raises.
  - It carries the streamed lines, each with what `json.loads` gives for it
    (`None` for a `JSONDecodeError`).
  - It carries an optional failure that cuts the stream short. This stands for a
    line that is not UTF-8, or a connection that drops while `iter_lines` runs.
- **Python exceptions are kept with the text `str(e)` gives**, because that text
  ends up in the error message:
  - `KeyError` for a part without `type` or `text`;
  - `TypeError` for a part that is not a dictionary, for a non-string text in
    `" ".join`, and for an unhashable role.

  Their wording follows CPython 3.11.
- **The transcript library and its formatter are one function**, held by the
  provider. It maps a video id and a language to the formatted text, or to
  `None` when the library raises.

Two behaviours of the code worth knowing:

- **System messages are not filtered out of the history.** The loop at
  `flowise.py:97` processes every message but the last, so a system message
  also becomes a `userMessage` entry (`ExampleConversation`).
- **The all-languages-failed event has fixed text.** It carries the text of the
  exception raised at `youtube_sumamrize.py:95`, not a per-language error
  (`AllLanguagesFail`).

Some functions are plain definitions that the contracts above use, and have no
contract of their own:

- `Flowise.ErrorText` is the catch-all text "Error in Flowise pipe: " + `str(e)`.
- `YouTubeTranscript.Queries` is one query per language.
- `YouTubeTranscript.Delivered` is one `status` notification per event.
- `Flowise.Strings` is the texts of a sequence of JSON strings.
- `FlowiseProperties.AsJson` is a sequence of texts as JSON strings.

## Model

| member | source | states |
|---|---|---|
| Flowise.ProcessMessageContent | configs/openwebui/functions/flowise.py:58-67 | the loop over a list content gives the same result as `FlattenContent`: the first exception it raises, or the joined text; non-list content is returned unchanged |
| Flowise.ProcessMessage | configs/openwebui/functions/flowise.py:69-77 | gives the history entry of a message: the flattened content first, then the mapped role, or the first exception |
| Flowise.ProcessHistory | configs/openwebui/functions/flowise.py:94-98 | the history loop gives `History`: one entry per earlier message, in order, or the first exception |
| Flowise.FindSystemMessage | configs/openwebui/functions/flowise.py:107-111 | the loop that breaks at the first system message gives that message's raw content, or none when there is no system message |
| Flowise.RelayLines | configs/openwebui/functions/flowise.py:133-144 | the streaming loop yields exactly `Relay(lines)`: for each non-empty line in order, its `text` field when it decodes to a dictionary with one, the line itself when it does not decode, and nothing otherwise |
| Flowise.Pipe | configs/openwebui/functions/flowise.py:79-155 | the whole generator yields, returns and passes to `requests.post` exactly what `PipeOutcome` says: it builds the payload or stops on the first exception, calls `requests.post` once, and relays the stream or returns the reply's `text` |
| FlowiseProperties.TextsOfConcat | configs/openwebui/functions/flowise.py:63-65 | selecting the text parts of a concatenation gives the selections of the two halves, in order |
| FlowiseProperties.JoinConcat | configs/openwebui/functions/flowise.py:66 | joining a concatenation puts exactly one separator between the joins of the two halves |
| FlowiseProperties.CollectWellFormed | configs/openwebui/functions/flowise.py:62-65 | on well-formed parts the loop raises nothing; it collects the `text` of exactly the parts whose type is "text", in their original order |
| FlowiseProperties.FlattenWellFormed | configs/openwebui/functions/flowise.py:58-66 | list content of well-formed parts flattens to their texts joined by single spaces |
| FlowiseProperties.FlattenConcat | configs/openwebui/functions/flowise.py:60-66 | content made of two lists of well-formed parts flattens to the two flattenings with one space between them; a half without text parts adds nothing |
| FlowiseProperties.CollectBad | configs/openwebui/functions/flowise.py:63-65 | a malformed part makes the loop raise, or leaves a non-string among the collected texts, on which the join then raises |
| FlowiseProperties.FlattenListFails | configs/openwebui/functions/flowise.py:58-66 | list content fails to flatten iff some part is malformed: not a dictionary, without `type`, or a text part without a string `text` (both directions) |
| FlowiseProperties.FlattenNonList | configs/openwebui/functions/flowise.py:67 | content that is not a list is returned unchanged; absent content gives "" |
| FlowiseProperties.RoleMapping | configs/openwebui/functions/flowise.py:73-75 | "assistant" maps to apiMessage (iff); every other hashable role, an absent role and "system" map to userMessage; a list or dictionary role is the only one that raises (iff) |
| FlowiseProperties.HistoryOk | configs/openwebui/functions/flowise.py:95-98 | the history builds iff every message processes; it then has one entry per message, entry i being message i processed |
| FlowiseProperties.HistoryFirstError | configs/openwebui/functions/flowise.py:97-98 | a failing history reports the exception of its first failing message, and every message before that one processes |
| FlowiseProperties.FirstSystemExists | configs/openwebui/functions/flowise.py:108-111 | a system message is found iff some message has role "system" |
| FlowiseProperties.FirstSystemIsFirst | configs/openwebui/functions/flowise.py:108-111 | the system message is the raw, unflattened content of the first message with role "system" |
| FlowiseProperties.PayloadShape | configs/openwebui/functions/flowise.py:86-111 | a built payload comes from at least one message. Its question is the flattened last message and its history the processed earlier messages, one for one in order. Its override configuration is empty. Its system message is present iff some message is a system message |
| FlowiseProperties.PayloadParts | configs/openwebui/functions/flowise.py:91-111 | a built payload's question, history, configuration and system message are what each step computes |
| FlowiseProperties.PayloadBuilt | configs/openwebui/functions/flowise.py:86-98 | a payload is built iff there are messages, the last one flattens and every earlier one processes |
| FlowiseProperties.SingleMessage | configs/openwebui/functions/flowise.py:91-105 | one message gives an empty history and its flattened content as the question |
| FlowiseProperties.ExampleConversation | configs/openwebui/functions/flowise.py:86-111 | the conversation system S, user A, assistant B, user C gives question C, history [userMessage S, userMessage A, apiMessage B] and system message S |
| FlowiseProperties.RelayConcat | configs/openwebui/functions/flowise.py:134-144 | the relay works line by line: the chunks of a concatenation are the concatenated chunks |
| FlowiseProperties.RelayBound | configs/openwebui/functions/flowise.py:134-144 | each line yields at most one chunk |
| FlowiseProperties.RelaySkipsEmpty | configs/openwebui/functions/flowise.py:135 | an empty line yields nothing, wherever it stands |
| FlowiseProperties.RelayUndecodable | configs/openwebui/functions/flowise.py:142-144 | lines that are not JSON are yielded as they are, one chunk per line, in order |
| FlowiseProperties.RelayExample | configs/openwebui/functions/flowise.py:134-144 | the lines {"text":"a"}, notjson and {"text":"b"} yield "a", "notjson" and "b" |
| FlowiseProperties.PipeWithoutMessages | configs/openwebui/functions/flowise.py:86-88 | with missing or empty messages `requests.post` is not called and nothing is yielded; "Error in Flowise pipe: No messages found in request body" is returned |
| FlowiseProperties.PipePostsBuiltPayload | configs/openwebui/functions/flowise.py:124-130 | `requests.post` is called iff the payload builds; it receives that payload and the body's stream flag; otherwise the building exception's text is returned |
| FlowiseProperties.PipeNotStreaming | configs/openwebui/functions/flowise.py:145-150 | without streaming nothing is yielded. The reply's `text` field, "" when there is none, or the error text of a failed post or decode is returned |
| FlowiseProperties.WholeReplyExamples | configs/openwebui/functions/flowise.py:146-150 | the reply {"text":"hello"} gives "hello"; the reply {} gives "" |
| FlowiseProperties.PipeStreaming | configs/openwebui/functions/flowise.py:133-144 | when streaming, the yielded chunks are the relay of the response's lines. The generator returns nothing, or the error text when the stream was cut |
| YouTubeTranscript.Callback.Call | configs/openwebui/tools/youtube_sumamrize.py:14-23 | the host callback records the notification it is given, after the earlier ones |
| YouTubeTranscript.EventEmitter.constructor | configs/openwebui/tools/youtube_sumamrize.py:9-10 | the emitter keeps the callback it was given, possibly none |
| YouTubeTranscript.EventEmitter.Emit | configs/openwebui/tools/youtube_sumamrize.py:12-23 | with a callback, exactly one `status` notification with the given status, description and done flag is delivered; the defaults are "Unknown State", in_progress and false |
| YouTubeTranscript.TranscriptProvider.Fetch | configs/openwebui/tools/youtube_sumamrize.py:82-85 | one call for one video in one language: it is recorded, and the result is the provider's transcript for it |
| YouTubeTranscript.SearchFrom | configs/openwebui/tools/youtube_sumamrize.py:61 | returns the leftmost position at or after the start where `v=` and 11 id characters match, or none when no later position matches |
| YouTubeTranscript.ExtractVideoId | configs/openwebui/tools/youtube_sumamrize.py:61-70 | an id is found iff the pattern matches somewhere; the id has 11 characters, all from the class `[A-Za-z0-9_-]` |
| YouTubeTranscript.FirstHit | configs/openwebui/tools/youtube_sumamrize.py:80-93 | the index of the first language with a transcript: every earlier language has none, and the one at the index has one |
| YouTubeTranscript.TryLanguages | configs/openwebui/tools/youtube_sumamrize.py:75-95 | the languages are queried in order up to and including the first that succeeds. A success gives that transcript and the complete event. When every language fails, all five are queried and nothing is emitted |
| YouTubeTranscript.GetTextFromUrl | configs/openwebui/tools/youtube_sumamrize.py:30-106 | the returned text, the provider queries and the notifications the callback receives are exactly those of `Fetched` for the URL |
| YouTubeTranscriptProperties.VideoIdIsLeftmost | configs/openwebui/tools/youtube_sumamrize.py:61-70 | the extracted id is the 11 characters after the leftmost match of the pattern, and only those (iff) |
| YouTubeTranscriptProperties.EmptyUrlRejected | configs/openwebui/tools/youtube_sumamrize.py:52-58 | the empty URL gives one done error event "Wrong URL: ", no provider call and "" |
| YouTubeTranscriptProperties.WrongUrlRun | configs/openwebui/tools/youtube_sumamrize.py:52-58 | a URL without "youtube.com" gives one done error event "Wrong URL: " + url, no provider call and "" |
| YouTubeTranscriptProperties.NoVideoIdRun | configs/openwebui/tools/youtube_sumamrize.py:61-68 | a valid URL without a match gives one done error event "Cannot extract video ID from URL: " + url, no provider call and "" |
| YouTubeTranscriptProperties.FirstSuccessWins | configs/openwebui/tools/youtube_sumamrize.py:80-91 | when language k is the first that succeeds, there are exactly k + 1 queries for the first k + 1 languages in order. The events are "Fetching text from URL" then the complete event, and that language's text is returned |
| YouTubeTranscriptProperties.AllLanguagesFail | configs/openwebui/tools/youtube_sumamrize.py:94-103 | when every language fails, the five languages are queried in order. The events are the fetching event and then one done error event with the fixed not-found text, and "" is returned |
| YouTubeTranscriptProperties.QueriesFollowOrder | configs/openwebui/tools/youtube_sumamrize.py:79-91 | on every path there are at most five queries. They ask for the extracted id in the fixed language order, and every query but the last one failed |
| YouTubeTranscriptProperties.EventsEndDone | configs/openwebui/tools/youtube_sumamrize.py:52-106 | every path emits one or two events, and only the last is done. It is the complete event iff the returned text came from one of the queries; otherwise "" is returned |

## Left out

- HTTP: the prediction URL, the `Authorization` and `Content-Type` headers,
  and the transport are left out. `requests.post`, `raise_for_status`, `r.json()` and
  `iter_lines` are abstract: their results, or the exceptions they raise, are
  given by the server parameter of `Pipe`.
- Logging: the `print` calls of `pipe` and of `__init__` are left out, because
  they do not affect what is passed to `requests.post`, yielded or returned.
- Valves and set-up: the `Valves` settings read from the environment, `__init__`,
  `pipes()` and the `__user__` parameter take no part in the model.
  `max_history` is declared, but `pipe` never reads it, so the history is not
  truncated.
- Flowise.Json: numbers are integers. Python floats are left out, because no
  branch of the adapter looks at a number's value.
- Flowise.Body: a `messages` entry that is not a list, and a message that is not
  a dictionary, are left out. The model's messages are lists of JSON objects.
  A `stream` entry is taken as a boolean rather than by Python truthiness.
- Flowise.Failure: a failure of `requests`, or of the stream, is represented
  only by its message. The exception class and its exact `str` are left out,
  because they come from code outside the repository.
- The `TypeError` texts follow CPython 3.11. Other Python versions word them
  differently.
- A streamed line that is not UTF-8 is not decoded. The model represents it as
  the failure that cuts the stream, because `line.decode()` raises outside the
  `JSONDecodeError` handler.
- The generator's laziness is left out, as is a consumer that stops iterating
  early. `Outcome` records what a full iteration produces.
- `async`/`await` in the transcript tool: the awaits run in sequence, and the
  model runs them as plain calls.
- A host callback that raises is left out. With one, the `complete` event
  during the language loop would be caught by the per-language handler.
- The transcript library and `TextFormatter` are left out. They are one
  function, from video id and language to the formatted text, or to `None`
  when anything in them raises.
- Only the single regular expression of the tool is modelled, as the
  predicate `MatchesAt`. The regular-expression engine is not.
- `ProcessHistory`, `FindSystemMessage`, `RelayLines` and `TryLanguages` are
  separate methods. Each holds one loop of `pipe` or `get_text_from_url`, so
  that each proof stays small. They compute what the inline loops compute.

# Chat persona turn pipeline, modelled in Dafny

This project models the deterministic core of a persona chat app: a web client
where the user chats with "秦清越", a cold persona whose replies come from a
remote language model. Each turn the app appends the user's message, waits a
random "reading" delay and marks the message Read, then acts on the model's
verdict. It scores the user's message with the verdict's interest level, and
either posts a system notice that the persona read the message and chose not to
answer, or posts the replies one by one with typing pauses. Before that, the
service applies a reply gate to low-interest verdicts: level 1 always goes
silent, level 2 goes silent with chance 0.6 and level 3 with chance 0.3. Any
failure of the model call is replaced by a fixed neutral verdict.

Modules:

- `Wrappers` (`wrappers.dfy`): `Option`, for the source's optional fields.
- `JsRuntime` (`js_runtime.dfy`): the JavaScript semantics the code relies on.
  These are truthiness of optional strings, `trim` with the ECMAScript
  white-space set, one-character `split` and `join`, `length` in UTF-16 code
  units, and the range of `Math.random()` as the subset type `Draw` = [0, 1).
- `Types` (`types.dfy`): `Sender`, `MessageStatus`, `Message`, `BotResponse`,
  the affinity tiers and their thresholds.
- `GeminiService` (`gemini_service.dfy`): `generateBotResponse`. This covers the
  history window, role mapping, data-URL splitting, request contents, the reply
  gate and the fallback verdict. The SDK call and `JSON.parse` are function
  parameters that may fail.
- `App` (`app.dfy`): the chat state and one turn of `handleSendMessage`, as an
  ordered composition of pure log transformers. It also covers typing and delay
  durations and `handleResetChat`.

Random draws, generated ids and `Date.now()` values are parameters. The oracle's
environment is the `Oracle` datatype: API key, formatted clock, time formatter,
SDK call, parser and draw. A turn's new ids and timestamps are `TurnDraws`.

Behaviour worth noting:

- The gate's chances are constants: 0.6 for level 2 and 0.3 for level 3.
- The fallback verdict is level 5 with thoughts "Error occurred" and the
  single reply "...".
- Reset restores the constant initial log: the same id `init-1`, stamped once
  when the module loads.
- The user's message is appended with status Delivered.
- The history window is exactly the last 10 messages. The oracle sees the log
  as it was before the new user message was appended.
- `url.split(',')[1]` is the text between the first comma and the second comma (or the end). `JsRuntime.SecondPiece` states this.
- Of affinity, the code holds only the tier enum and its thresholds.
  `userImpression` is carried through unchanged.

## Model

| member | source | states |
|---|---|---|
| `Types.TierOf` | types.ts:32-41 | the tier a score in 0..100 gets lies in the band that tier's range comment gives (0-29, 30-79, 80-100) |
| `Types.TierIsTheOnlyBand` | types.ts:32-36 | a score's tier is T exactly when the score lies in T's band, so each score has exactly one tier |
| `Types.BandsMatchThresholds` | types.ts:33-40 | the bands tile 0..100 without gaps; Acquaintance starts at `AFFINITY_THRESHOLDS.Acquaintance` (30) and Favored at `AFFINITY_THRESHOLDS.Favored` (80) |
| `Types.TierMonotone` | types.ts:32-41 | a higher score never gives a lower tier |
| `JsRuntime.Trim` | App.tsx:104-106 | `trim()` gives the slice of the input left after stripping leading and trailing white space: everything outside it is white space, and it neither starts nor ends with white space |
| `JsRuntime.TrimEmptyIff` | App.tsx:104 | the trimmed text is empty exactly when the input is all white space |
| `JsRuntime.TrimPadded` | App.tsx:106 | trimming a trimmed text padded with white space on both sides gives it back, so trim's result is unique |
| `JsRuntime.TrimIdempotent` | App.tsx:106 | trimming twice equals trimming once |
| `JsRuntime.Split` | services/geminiService.ts:84-85 | `split` with a one-character separator yields at least one piece, and no piece contains the separator |
| `JsRuntime.JoinSplit` | services/geminiService.ts:84-85 | joining the pieces with the separator restores the string |
| `JsRuntime.SplitJoin` | services/geminiService.ts:84-85 | splitting a join of separator-free pieces gives the pieces back |
| `JsRuntime.SplitCons` | services/geminiService.ts:84-85 | where the string holds a separator, its pieces are the text before the first one followed by the pieces of the rest |
| `JsRuntime.FirstPiece` | services/geminiService.ts:85 | `split(sep)[0]` is the text before the first separator, or the whole string |
| `JsRuntime.SecondPiece` | services/geminiService.ts:84 | `split(sep)[1]` is absent without a separator; otherwise it is the text between the first separator and the second separator (or the end) |
| `JsRuntime.SegmentAfterField` | services/geminiService.ts:84-85 | in `a + sep + b + c` with `a` and `b` free of `sep` and `c` empty or starting with `sep`, the segment after the first separator is exactly `b` |
| `JsRuntime.Utf16Length` | App.tsx:181 | a string's `length` is between its code-point count and twice that, and equals the code-point count exactly when no code point lies above U+FFFF |
| `JsRuntime.Utf16LengthChar` | App.tsx:181 | one character's `length` is 1 below U+10000 and 2 (a surrogate pair) at or above it |
| `JsRuntime.Utf16LengthAppend` | App.tsx:181 | `length` of a concatenation is the sum of the lengths, so a string's `length` is the sum of its characters' code units |
| `GeminiService.RecentHistory` | services/geminiService.ts:75 | `slice(-10)` keeps min(\|history\|, 10) messages, the last ones of the history, in order |
| `GeminiService.RoleOf` | services/geminiService.ts:97 | the role is "user" exactly for user messages, and "model" for bot and system messages |
| `GeminiService.InlineImage` | services/geminiService.ts:84-93 | an image part is made exactly when the text after the first ',' (up to the next ',') and the text after the first ':' (up to the next ':') of the part before the first ';' are both non-empty; the part carries those two texts as payload and MIME type |
| `GeminiService.DataUrlPayload` | services/geminiService.ts:84 | the payload taken from `data:<mime>;base64,<data>` is exactly `data` when neither part holds a ',' |
| `GeminiService.DataUrlMime` | services/geminiService.ts:85 | the MIME type taken from `data:<mime>;base64,<data>` is exactly `mime` when it holds no ':' or ';' |
| `GeminiService.InlineImageOfDataUrl` | services/geminiService.ts:84-86 | for a data URL `data:<mime>;base64,<data>` whose `mime` and `data` are non-empty, whose `mime` holds no ':', ';' or ',' and whose `data` holds no ',', the image part recovers exactly `mime` and `data` |
| `GeminiService.InlineImageOfEmptyFile` | services/geminiService.ts:84-86 | the data URL of an empty file, `data:<mime>;base64,`, has an empty payload and gives no image part |
| `GeminiService.ImageParts` | services/geminiService.ts:105-116 | an optional image adds at most one part, and adds one exactly when the image is present, non-empty and splits into a part; that part is the inline data carrying the URL's MIME type and payload (`InlineImage`) |
| `GeminiService.BuildContents` | services/geminiService.ts:73-116 | the request has one entry per message of the recent-history window, in order, each with its sender's role, its `[time] text` part and its image part, then the latest message as "user" stamped with the current time |
| `GeminiService.ApplyReplyGate` | services/geminiService.ts:142-164 | the gate discards the whole reply list exactly when the draw is below the level's suppression chance (1 for level 1, 0.6 for level 2, 0.3 for level 3, 0 otherwise); otherwise the replies are untouched. It never changes the level or impression, only extends the thoughts, extends them exactly for levels 1-3 with the trace that names the level and whether the replies were suppressed (`Trace`), and is the identity for any other level |
| `GeminiService.GateIsAllOrNothing` | services/geminiService.ts:142-164 | the gated replies are the parsed list or empty, never a partial subset |
| `GeminiService.TraceNamesBranch` | services/geminiService.ts:145-162 | the five traces are pairwise distinct, so the appended trace identifies the level and the suppression outcome |
| `GeminiService.GenerateBotResponse` | services/geminiService.ts:59-175 | a missing key, a thrown call, an empty answer or a failed parse each yield the fallback verdict; a parsed verdict is returned through the gate |
| `GeminiService.ResponseShape` | services/geminiService.ts:137-175 | the result is the fallback, or it has the parsed verdict's level and impression, its replies whole or empty, and its thoughts as a prefix |
| `GeminiService.FallbackIsNeutral` | services/geminiService.ts:170-174 | the fallback is level 5 (within 1..10) with the single reply "..."; it is returned ungated, and the gate would leave it unchanged anyway (a consistency fact) |
| `GeminiService.ResponseLevelInRange` | services/geminiService.ts:137-175 | if every parsed verdict has a level in 1..10, so does every result |
| `GeminiService.LevelOneHasNoReplies` | services/geminiService.ts:142-145 | a result of level 1 always has an empty reply list, whatever the draw |
| `App.BlankInputRejected` | App.tsx:104 | white-space-only text with no image (or an empty one) fails the submit guard |
| `App.AttachedImage` | App.tsx:107 | the attached image is the preview when the preview is non-empty, and absent otherwise |
| `App.AppendUserMessage` | App.tsx:113-123 | exactly one message is appended at the end: sender User, status Delivered, the given id, time, text and image, no level or thoughts; the earlier log is unchanged |
| `App.MarkRead` | App.tsx:138-144 | every user message becomes Read; non-user messages, all fields other than status, and the length are unchanged; no status moves backward |
| `App.MarkReadIdempotent` | App.tsx:138-144 | marking read twice is marking read once |
| `App.Annotate` | App.tsx:153-157 | only messages with the given id change, and only their interest level, which becomes the verdict's level; the length is unchanged |
| `App.ReplyMessages` | App.tsx:177-201 | a burst has one bot message per reply, texts equal to the replies in order, each with its own stamp, and thoughts on the first message only |
| `App.DeliverReplies` | App.tsx:159-201 | with no replies (empty or absent), exactly one system notice carrying the thoughts is appended; with k > 0 replies, exactly k bot messages with the replies' texts in order, thoughts only on the first; the earlier log is unchanged |
| `App.RepliesReadBack` | App.tsx:177-201 | the texts of the appended messages, read back from the log, are the reply list |
| `App.TypingDuration` | App.tsx:181 | the typing time always lies in [800, 3000] ms; it equals 60 ms times the length exactly when 14 ≤ length ≤ 50, is 800 exactly for lengths up to 13, and 3000 exactly from 50 on |
| `App.TypingDurationExamples` | App.tsx:181 | one character types in 800 ms, twenty in 1200 ms, sixty in 3000 ms |
| `App.ReadDelay` | App.tsx:127 | the read delay lies in [1500, 6000) ms |
| `App.ReplyPause` | App.tsx:184 | the pause before each reply lies in [200, 700) ms |
| `App.ReadDelayCoversRange` | App.tsx:127 | every delay in [1500, 6000) is reached by some draw, and a larger draw means a longer delay |
| `App.ReplyPauseCoversRange` | App.tsx:184 | every pause in [200, 700) is reached by some draw, and a larger draw means a longer pause |
| `App.SendMessage` | App.tsx:103-206 | a submit failing the guard leaves the whole state unchanged; otherwise input and preview are cleared and the log goes through the turn's effects in order, with the verdict computed from the log before the append |
| `App.TurnKeepsHistory` | App.tsx:123-157 | a turn adds at least two messages and keeps every earlier message in place with the same content; statuses only advance, all user messages end Read, and with a fresh id no earlier interest level changes |
| `App.TurnAppendsUserMessage` | App.tsx:106-157 | right after the earlier log comes the user's message with its id, time, text and image, status Read, and the verdict's level |
| `App.TurnAppendsReplies` | App.tsx:159-201 | after the user's message the log ends with exactly the system notice, or exactly the reply burst |
| `App.FailedCallTurn` | App.tsx:146-201 | when the oracle call fails, the turn appends exactly two messages: the user's, scored 5, and one bot message "..." with thoughts "Error occurred" |
| `App.SilentTurn` | App.tsx:159-174 | a turn whose verdict has no replies appends exactly the user's message and one system notice, and no bot message |
| `App.LevelOneTurnIsSilent` | App.tsx:159-174 | a turn scored level 1 appends the user's message and one system notice, and no bot message |
| `App.TurnKeepsLogWellFormed` | App.tsx:112-201 | with a fresh user id, a turn keeps status and interest level on user messages only and thoughts on non-user messages only, as the field comments of types.ts lines 18-20 place them |
| `App.DeliverRepliesKeepsWellFormed` | App.tsx:159-201 | appended notices and replies keep that field placement |
| `App.SendExtends` | App.tsx:103-157 | a send, whether or not the guard lets it through, keeps every earlier message in place with its content intact and its status not moved backward |
| `App.SessionIsAppendOnly` | App.tsx:103-206 | any run of sends leaves the log an extension of the starting log: earlier messages stay in place, with at most their status advanced and their level set |
| `App.RunConcat` | App.tsx:103-222 | running two sequences of user actions equals running the first and then the second |
| `App.GreetingLeadsAfterReset` | App.tsx:215-218 | after a confirmed reset followed only by sends, the log still starts with the greeting `init-1` from the bot, "有事？" |
| `App.ResetChat` | App.tsx:215-222 | a declined reset changes nothing; a confirmed one leaves the single greeting (`init-1`, Bot, "有事？", the load-time stamp) and clears input and preview |
| `App.ResetForgetsHistory` | App.tsx:28-36 | any two states reset to the same state, the one the app starts in, and its log is well formed |

## Left out

- Rendering (`MessageBubble`, `TypingIndicator`, the JSX of `App`), scrolling, click-outside and menu state: presentation only.
- `FileReader` image loading and `window.confirm`: browser I/O. The confirmation answer is a parameter of `ResetChat`.
- ReplyPause: draws and the delay arithmetic are exact reals in [0, 1), not IEEE doubles, so the bound `< 700` does not cover the program's rounding edge: a draw of 1 - 2^-53 makes `Math.random() * 500 + 200` round to exactly 700.
- ApplyReplyGate: the draw is compared with the exact reals 0.6 and 0.3, not with the doubles nearest them; a draw equal to the double nearest 0.6 (or 0.3) is suppressed here but allowed by the program.
- Strings are sequences of Unicode scalar values. A JavaScript string holding a lone surrogate cannot be represented, so `Trim` and `Utf16Length` say nothing about such strings.
- `wait`/`setTimeout`, the `isTyping` flag, and the overlap of the oracle call with the read delay. These are timers and concurrency. A turn is modelled as the ordered sequence of its log effects, and the delays only as durations (`ReadDelay`, `ReplyPause`, `TypingDuration`).
- Interleaving of concurrent turns, and the stale `messages` closure a second turn would capture. Turns are modelled one at a time.
- `generateId` and `Date.now()`: random ids and clock readings are parameters (`TurnDraws`, `Stamp`). Ids are not guaranteed unique, so freshness is a precondition only where a lemma needs it.
- The `GoogleGenAI` call, model name, temperature, prompt and schema text, `JSON.parse` and `toLocaleString`: foreign library calls. They are function parameters of `Oracle`. A parsed verdict is taken to be well typed. A malformed object, such as a non-integer level or missing thoughts, is not modelled, except for a missing reply list.
- The `console.log` and `console.error` diagnostics, and the never-reached `catch` in `handleSendMessage`: no effect on state.
- Affinity tiers are not read by any operation of the chat turn, so only their bands are modelled.

# youtube-chat LiveChat session, modelled in Dafny

This project models the `LiveChat` class of `src/live-chat.ts`: the client
that attaches to a live broadcast and turns the platform's internal
continuation-based chat endpoint into a stream of `start`, `comment`, `end`
and `error` events. With the network, the timer and the event emitter
treated as inputs and outputs, what remains is a small state machine over
the fields `liveId`, `key`, `continuation`, `clientName`, `clientVersion`,
`prevTime` and `observer`, and three jobs:

- **`start`** resolves the broadcast (offline check on every fetched page,
  the broadcast id scraped from a channel's live page) and scrapes the four
  session tokens, each the text after a fixed prefix up to the next `"`.
- **`stop`** emits `end` only if a timer handle was ever stored.
- **`fetchChat`** (one timer tick) stops on the `messageRenderer` sentinel;
  otherwise it drops the batch's trailing action, keeps the actions whose
  renderer time is strictly after the watermark `prevTime`, emits them in
  order and moves the watermark to the last emitted item's timestamp.

Files:

- `outcomes.dfy` (`Outcomes`): `Option` and `Result`.
- `text_scan.dfy` (`TextScan`): JavaScript's `String.prototype.match` for a
  bare marker and for the capture patterns `/<prefix>(\S*?)<term>/` that
  `start` uses, with the regular-expression semantics stated as predicates
  (leftmost start, shortest lazy group, `\S` as JavaScript defines it) and
  proved of the scanning functions.
- `chat_batch.dfy` (`ChatBatch`): the `slice(0, -1).filter(...).map(parseData)`
  pipeline and the watermark, as functions with lemmas.
- `live_chat.dfy` (`LiveChatSession`): the class `LiveChat` with the fields
  above plus the event log `events`, and the methods `Start`, `Stop`,
  `FetchChat` that change them step by step as the source does.

Inputs the source awaits are parameters: `Start` takes the body of the
watch page and of the channel live page (each used only when the source
fetches it), `FetchChat` takes the poll response (`Finished` for the
`messageRenderer` sentinel, `Batch(actions)` otherwise) and returns the
request it posts, and the constructor takes the value of `Date.now()`.
An action is seen through the parser collaborators: `rendererTime` is
`usecToTime(actionToRenderer(v).timestampUsec)` (`None` when there is no
renderer) and `parsed` is `parseData(v)`.

Behaviour of the code that the model reproduces and a reader might not
expect:

- `stop` is not idempotent: `observer` is never cleared, so a second `stop`
  emits a second `end` (`StopTwiceEmitsTwice`).
- A missing token marker is not reported as an `error` event: `match(...)![1]`
  throws, so `start`'s promise rejects (`Rejected(marker)`), with the tokens
  scraped before the missing one left assigned.
- The watermark is the last emitted item's time, not the largest; on a batch
  whose times go backwards a re-poll emits some comments again
  (`UnorderedRepollReemits`). On a chronological batch a re-poll is silent
  (`RepollIsSilent`).
- A failed `start` keeps whatever `liveId` the channel page produced; the
  continuation cursor scraped at start is reused by every tick (`FetchChat`
  may not modify it).

## Model

| member | source | states |
|---|---|---|
| `TextScan.ContainsFromSpec` | src/live-chat.ts:53 | the scan from position i reports the marker exactly when it occurs at some position at or after i |
| `TextScan.ContainsSpec` | src/live-chat.ts:53-64 | `Contains`, which models `data.match(/LIVE_STREAM_OFFLINE/)` at lines 53 and 64, is true (the match is non-null) exactly when the marker occurs somewhere in the page |
| `TextScan.CaptureEndSpec` | src/live-chat.ts:68-70 | the lazy group `\S*?` stops at the first position where the terminator follows with no white space before it, and fails when there is none |
| `TextScan.FirstMatchFromSpec` | src/live-chat.ts:68-85 | trying start positions from i finds the leftmost position where the whole pattern matches, with its shortest group, and fails only when no position at or after i matches |
| `TextScan.MatchSpec` | src/live-chat.ts:68-85 | `Match`, which models `match(...)` and its group 1 at lines 68-85, is `None` (the match is null) exactly when the pattern matches nowhere; otherwise group 1 is the text between the prefix and terminator of the leftmost, shortest match |
| `TextScan.FirstMatchUnique` | src/live-chat.ts:68-85 | the leftmost-shortest match is unique, so group 1 is well defined |
| `TextScan.MatchFindsMarkedValue` | src/live-chat.ts:68-70 | a page holding `<prefix>v<term>` with the prefix nowhere earlier and v free of white space and of the terminator's first character captures exactly v |
| `ChatBatch.WithoutTrailer` | src/live-chat.ts:120-121 | `slice(0, -1)` returns the batch minus its last action, and the empty batch for the empty batch |
| `ChatBatch.Kept` | src/live-chat.ts:122-130 | the filter returns no more actions than it is given, each taken from the batch and each with a renderer time strictly after the watermark |
| `ChatBatch.PositionsFrom` | src/live-chat.ts:122-130 | the reference list of indices the filter selects is ascending and within the batch |
| `ChatBatch.KeptAtPositions` | src/live-chat.ts:122-130 | the filter's result is the batch read at the selected indices, element by element |
| `ChatBatch.PositionsComplete` | src/live-chat.ts:122-130 | an index is selected exactly when its action has a renderer whose time is strictly after the watermark |
| `ChatBatch.KeptInOrder` | src/live-chat.ts:122-130 | the filter keeps exactly the new actions, each once, in their batch order |
| `ChatBatch.NothingNewKeepsNothing` | src/live-chat.ts:122-130 | when no action is after the watermark, nothing is kept |
| `ChatBatch.NewItemsSelectsInOrder` | src/live-chat.ts:120-131 | `NewItems`, which models the `slice`/`filter`/`map(parseData)` pipeline (`WithoutTrailer`, `Kept`, `Parsed`): the items of a tick are `parseData` of exactly the new actions other than the trailing one, in batch order; the trailing action never yields a comment |
| `ChatBatch.TrailerIgnored` | src/live-chat.ts:120-121 | whatever the trailing action holds, the tick emits the same items |
| `ChatBatch.EmittedAreNewer` | src/live-chat.ts:122-131 | when `parseData` reports the renderer's time, every emitted item is strictly newer than the watermark |
| `ChatBatch.WatermarkAdvances` | src/live-chat.ts:137-139 | `NextWatermark`, which models lines 137-139: `prevTime` changes exactly when at least one item was emitted, and then (with consistent timestamps) strictly increases |
| `ChatBatch.RepollIsSilent` | src/live-chat.ts:120-139 | after a tick, polling the same chronological batch again emits nothing |
| `ChatBatch.UnorderedRepollReemits` | src/live-chat.ts:137-139 | because the watermark is the last item's time, not the largest, a batch with times 10 then 5 re-emits the comment at 10 when polled again |
| `ChatBatch.SeenCommentSkipped` | src/live-chat.ts:120-139 | after a tick that emitted up to time t, an action at or before t is skipped and a later one is emitted and becomes the watermark |
| `LiveChatSession.Resolve` | src/live-chat.ts:47-76 | the resolver fails as offline exactly when a fetched page carries the marker, throws exactly when the channel page has no videoId match, and otherwise yields a non-empty id (the channel page's capture, or the given liveId with the watch page) or "not found" |
| `LiveChatSession.ChannelResolvesMarkedId` | src/live-chat.ts:59-76 | a channel live page carrying `"liveStreamabilityRenderer":{"videoId":"v",` resolves to broadcast v, or to "not found" when v is empty |
| `LiveChatSession.ScrapeTokens` | src/live-chat.ts:78-85 | the extractor yields, in order, the captured value of each token marker up to the first marker that does not match, and that marker indeed does not match |
| `LiveChatSession.LiveChat.constructor` | src/live-chat.ts:20-34 | the session starts with only the given identifier set, no tokens, no timer, an empty event log and the watermark at construction time |
| `LiveChatSession.NewLiveChat` | src/live-chat.ts:24-44 | construction fails with "Required channelId or liveId." exactly when the options name neither identifier; a channel id is taken in preference to a live id; the interval defaults to 1000 |
| `LiveChatSession.LiveChat.Start` | src/live-chat.ts:46-91 | offline: one `error` "Live stream offline", false, nothing else changed; no videoId match: rejects with nothing changed; no usable id: one `error` "Live stream not found", false; otherwise tokens scraped, then timer and one `start(liveId)` and true |
| `LiveChatSession.LiveChat.StartSession` | src/live-chat.ts:78-90 | each token is set to its marker's capture up to the first missing one, which rejects; only when all four are found are the timer installed and `start(liveId)` emitted |
| `LiveChatSession.LiveChat.Stop` | src/live-chat.ts:93-98 | `end(reason)` is appended exactly when a timer handle was stored, and the timer is then unscheduled; nothing else changes |
| `LiveChatSession.LiveChat.FetchChat` | src/live-chat.ts:100-140 | the request carries the stored key, client name, version and cursor; the sentinel stops the session without touching the watermark; a batch appends one `comment` per new item in order and moves `prevTime` to the next watermark; tokens and liveId never change |
| `LiveChatSession.StopTwiceEmitsTwice` | src/live-chat.ts:93-98 | two `stop` calls after a successful start append two `end` events |

## Left out

- HTTP: the GET of the watch and channel pages and the POST of the poll are
  not modelled; their response bodies are method parameters, and the URL
  strings and the user-agent header constant are not built.
- Timing: `setInterval` and `clearInterval` are the boolean fields
  `observer` (a handle was stored) and `ticking` (the interval is
  scheduled); when ticks happen, and overlapping in-flight ticks, are up to
  the caller of `FetchChat`. A second successful `start` installs a second
  interval while the first keeps running; the model keeps one flag.
- The event emitter and the typed `on` overloads: emission is an append to
  `events`.
- `Start` assumes an `error` listener is registered. Node's EventEmitter
  throws the emitted error when `emit("error", …)` finds no listener, so
  without one `start` at src/live-chat.ts:54, 65 and 74 rejects with
  `Error("Live stream offline")` or `Error("Live stream not found")` instead
  of resolving to `false`; the model always appends `Failed(...)` and
  returns `Resolved(false)`.
- The parser module (`actionToRenderer`, `parseData`, `usecToTime`) is not
  part of this model: each action carries the renderer time and the parsed
  item it would produce, times are integers, and comment fields other than
  the timestamp are one string.
- A poll response that is neither a `messageRenderer` nor a list of actions,
  and network errors during a tick, throw in the source; the model has no
  such response.
- Options whose `channelId` or `liveId` key is present with an undefined
  value are not modelled; a present key carries a string.
- `axiosInstance` (which client performs the requests) is not modelled.
- dist/live-chat.js and dist/live-chat.d.ts are build output and type
  declarations of the same class, and are not modelled separately.
- JavaScript strings are UTF-16; the model's strings are sequences of
  Unicode scalar values, which gives the same captures for these patterns.

# NanoClaw agent runner and chat channels, in Dafny

This project models three parts of NanoClaw and proves properties of the model:

- **The agent runner.** This is the program that runs inside a container for each request (`container/agent-runner/src/index.ts`). It covers:
  - reading the request and preparing the prompt;
  - building the system context from the group's knowledge document and the vector memory;
  - one model call, storing the conversation, and writing exactly one framed result to stdout;
  - the three tools the agent may call, which drop JSON records into IPC directories;
  - the pre-compaction hook that archives a session transcript as markdown.
- **The WhatsApp channel adapter** (`src/channels/whatsapp.ts`). It covers the connection state machine driven by socket events (reconnect, logout, the authentication-required exit) and the normalisation of inbound messages into `ChannelMessage`s.
- **The Telegram channel adapter** (`src/channels/telegram.ts`). It covers the connection flags and the long-poll loop: the `offset` cursor, delivery of text updates to the callback, pausing and stopping.

The adapters are imperative in the source, and so are the model's classes:
- `WhatsApp.WhatsAppChannel`, `Telegram.TelegramChannel` and `Memory.HybridMemory` hold the fields the source updates;
- their methods state the new state through pure functions (`Step`, `OffsetAfter`, `Keep`, `CursorAfterFetches`, `InGroup`), and lemmas prove properties of those functions;
- loops are methods with invariants (`PollOnce`, `PollAll`, `OnMessagesUpsert`, `SyncGroupMetadata`, `ParseTranscript`, `FormatTranscriptMarkdown`).

The runner's pure helpers are functions.

Modules:
- `Wrappers`: `Option`, `Result`, `Outcome`.
- `JsValues`: JavaScript truthiness, `toString`/`parseInt`, `trim`.
- `Sequences`: ordered filter-map `Keep`, and `join('\n')`.
- `ChannelTypes`: `ChannelMessage`.
- `OutputFraming`: the stdout result protocol.
- `Transcript`: `parseTranscript` and `formatTranscriptMarkdown`.
- `Archive`: `sanitizeFilename`, the session index, and the pre-compaction hook.
- `Memory`: `HybridMemory` and the memory context.
- `IpcTools`: the agent's tools.
- `AgentMain`: `main`.
- `WhatsApp`.
- `Telegram`.

Everything outside the process is a parameter of the operation that uses it:
- the file system, stdin, the clock, the random file suffix;
- the vector store, the embedding service and the model provider;
- the socket library and the bot API.

Each such parameter is either a value or an outcome datatype (`KnowledgeFile`, `InitOutcome`, `SearchOutcome`, `Generation`, `Fetch`, `ConnectionUpdate`, `Outcome`).

## Model

| member | source | states |
|---|---|---|
| OutputFraming.WriteOutput | container/agent-runner/src/index.ts:62-66 | one result is written as exactly three lines: the start marker, the payload, then the end marker |
| OutputFraming.FramedResultRecovered | container/agent-runner/src/index.ts:59-66 | whatever diagnostics precede it (none a start marker) and whatever follows, a reader taking the text between the first start marker and the next end marker recovers exactly the one serialised result |
| Transcript.ParseLine | container/agent-runner/src/index.ts:532-551 | a line yields at most one turn, only from a "user"/"assistant" entry with truthy string or array content (an assistant turn needs an array), with the matching role and non-empty text; conversely a non-empty user string is kept as it is, and a user or assistant array is kept exactly when its joined text (`UserText`, `AssistantText`) is non-empty, with that text |
| Transcript.UserTextAppend | container/agent-runner/src/index.ts:540-542 | the user-style join of two runs of parts is the join of each, concatenated: each part contributes its `text`, or "" when that is missing or empty |
| Transcript.AssistantTextIsJoinOfTextParts | container/agent-runner/src/index.ts:545-548 | an assistant turn's text is the joined texts of exactly its parts whose `type` is "text", in order |
| Transcript.AssistantTextIgnoresOtherParts | container/agent-runner/src/index.ts:545-548 | inserting a part whose `type` is not "text" anywhere leaves an assistant turn's text unchanged |
| Transcript.ParseTranscript | container/agent-runner/src/index.ts:529-555 | the loop returns exactly the turns of the lines, in line order (`Keep(ParseLine, lines)`) |
| Transcript.TurnsFollowLineOrder | container/agent-runner/src/index.ts:529-555 | each turn comes from a distinct line at increasing positions; blank, undecodable and foreign-typed lines contribute nothing; every turn is non-empty |
| Transcript.SkippedLinesChangeNothing | container/agent-runner/src/index.ts:533-551 | inserting lines that carry no turn anywhere leaves the parsed turns unchanged |
| Transcript.AssistantStringDropped | container/agent-runner/src/index.ts:544-549 | an assistant entry whose content is a plain string yields no turn (the array filter throws and is swallowed) |
| Transcript.TwoTurnsAroundMalformedLine | container/agent-runner/src/index.ts:532-552 | a user line, an undecodable line and an assistant line parse to exactly the two turns |
| Transcript.Truncate | container/agent-runner/src/index.ts:581-584 | content of at most 2000 characters is unchanged; longer content becomes its first 2000 characters followed by "...", 2003 characters in all |
| Transcript.FormatTranscriptMarkdown | container/agent-runner/src/index.ts:557-590 | the loop's output is the join with newlines of the header lines and two lines per turn (`MarkdownLines`) |
| Transcript.MarkdownLayout | container/agent-runner/src/index.ts:571-589 | the archive has 6 + 2n lines: title (or "Conversation"), the archive time, "---", blank lines, then per turn the labelled truncated content and a blank line, in turn order |
| Archive.LowerChar | container/agent-runner/src/index.ts:513 | A-Z become the matching a-z; a letter or digit a-z, 0-9 is kept as it is; only A-Z, a-z, 0-9, the Kelvin sign and capital I with dot above yield a letter or digit; the result has one or two characters |
| Archive.CollapseSeparators | container/agent-runner/src/index.ts:514 | the result holds only a-z, 0-9 and '-', never "--", keeps every letter and digit in order, and is empty exactly when the input is |
| Archive.CollapseRun | container/agent-runner/src/index.ts:514 | a maximal run of characters outside `[a-z0-9]` becomes exactly one '-' in its place: `w + run + t` collapses to the collapse of `w`, "-", then the collapse of `t` |
| Archive.SanitizeSpacedWords | container/agent-runner/src/index.ts:511-517 | "A b" sanitises to "a-b": the capital is lowered and the space becomes a dash |
| Archive.StripDashes | container/agent-runner/src/index.ts:515 | the result is a slice of the input with the same letters and digits and neither starts nor ends with '-' |
| Archive.SanitizedUncut | container/agent-runner/src/index.ts:512-515 | before the cut: only a-z, 0-9, '-', no "--", no dash at either end, and the letters and digits of the lower-cased summary |
| Archive.SanitizeFilename | container/agent-runner/src/index.ts:511-517 | at most 50 characters of a-z, 0-9 and '-', no "--", no leading '-', and a trailing '-' only when the 50-character cut fell after a separator |
| Archive.SanitizeKeepsLettersAndDigits | container/agent-runner/src/index.ts:511-517 | sanitising keeps every letter and digit of the lower-cased summary in order, and the result is the uncut form or its first 50 characters |
| Archive.SanitizeIdempotent | container/agent-runner/src/index.ts:511-517 | a sanitised name that does not end in '-' is its own sanitised form |
| Archive.FindSession | container/agent-runner/src/index.ts:452 | `find` gives the first entry with the session id, or none when no entry has it |
| Archive.GetSessionSummary | container/agent-runner/src/index.ts:436-463 | the summary of the first matching entry when it is non-empty; null for a missing or unreadable index, no match, or an empty first summary |
| Archive.FirstMatchDecides | container/agent-runner/src/index.ts:452-455 | a later entry of the same session is not consulted when the first has no summary |
| Archive.TwoDigits | container/agent-runner/src/index.ts:521 | a number below 100 padded to two digits reads back as that number |
| Archive.FallbackName | container/agent-runner/src/index.ts:519-522 | "conversation-" then four digits that read back as the hour and the minute |
| Archive.ArchiveName | container/agent-runner/src/index.ts:487-488 | the sanitised summary when there is one, the fallback name otherwise; never over 50 characters, only a-z, 0-9, '-' |
| Archive.ArchiveFileName | container/agent-runner/src/index.ts:493-494 | the date, a '-', the name, then ".md": each can be read back at its position |
| Archive.PreCompactHook | container/agent-runner/src/index.ts:468-509 | nothing is written exactly when there is no transcript path, no readable transcript, no turn, or a failing `mkdir`/`writeFile` (whose error the hook swallows); otherwise one file in the conversations directory named from the date and the summary or time, holding the rendered turns titled with the summary |
| Memory.SectionName | container/agent-runner/src/index.ts:213-220 | the heading for "instruction", "preference" and "fact"; for a key the object literal inherits from `Object.prototype` ("constructor", "__proto__", "toString", ...) the rendered inherited member; "Other" exactly for every remaining type |
| Memory.AppendToKnowledge | container/agent-runner/src/index.ts:199-211 | the document keeps its text as a prefix; a successful append adds exactly the dated section, a failed one changes nothing |
| Memory.ReadKnowledge | container/agent-runner/src/index.ts:185-197 | the file's text, or "" when it is missing or unreadable |
| Memory.MatchAt | container/agent-runner/src/index.ts:224 | a match at position i captures a non-empty group without '/' framed as "/groups/<g>/" at i |
| Memory.MatchAtComplete | container/agent-runner/src/index.ts:224 | conversely, every "/groups/<g>/" at i is a match capturing g |
| Memory.FirstMatch | container/agent-runner/src/index.ts:224 | the leftmost matching position, or none when no position matches |
| Memory.GroupOfPath | container/agent-runner/src/index.ts:222-226 | the group captured by the leftmost match, or "unknown" when there is none |
| Memory.KnowledgePathScope | container/agent-runner/src/index.ts:222-226 | on the fixed knowledge path "/workspace/group/KNOWLEDGE.md" (line 86) the group is always "unknown" |
| Memory.InGroup | container/agent-runner/src/index.ts:166-170 | at most `limit` ranked entries, all of the group; at least one when the ranking has one of the group and the limit is positive |
| Memory.InGroupIsFilteredPrefix | container/agent-runner/src/index.ts:166-170 | the result is exactly the first `limit` entries of the ranking filtered to the group, in ranking order |
| Memory.MemoryLines | container/agent-runner/src/index.ts:623 | one "- <content>" line per memory, in order |
| Memory.MemoryContextLayout | container/agent-runner/src/index.ts:619-624 | the trimmed context is the knowledge text without leading white space plus a blank line (nothing when blank), the heading, and the memory lines when there are any |
| Memory.ContextWithoutMemories | container/agent-runner/src/index.ts:619-624 | with no memories the context ends at the heading |
| Memory.HybridMemory.constructor | container/agent-runner/src/index.ts:84-93 | no connection or table; the fixed store and knowledge paths; the group given |
| Memory.HybridMemory.Initialize | container/agent-runner/src/index.ts:95-125 | the table is opened when "memories" exists, created otherwise; any failure leaves neither connection nor table |
| Memory.HybridMemory.Search | container/agent-runner/src/index.ts:160-183 | as written: no table or a failure gives []; otherwise the ranking filtered to `getCurrentGroup()` and the limit |
| Memory.HybridMemory.SearchInGroup | container/agent-runner/src/index.ts:160-183 | corrected: as `search`, scoped to the memory's own group, so every result belongs to it |
| Memory.HybridMemory.Add | container/agent-runner/src/index.ts:127-158 | an entry is stored exactly when there is a table, an embedding is given or computed, and storing succeeds; no failure escapes |
| Memory.AsWrittenSearchMissesGroup | container/agent-runner/src/index.ts:160-183 | as written, no entry stored for a group other than "unknown" is ever returned |
| Memory.GroupSearchFindsGroup | container/agent-runner/src/index.ts:166-170 | corrected: scoped to its group, a search's first result is the group's entry the store ranks highest |
| IpcTools.TypeTag | container/agent-runner/src/index.ts:324-325 | the `type` field is "message" exactly for messages and "schedule_task" exactly for tasks |
| IpcTools.Directory | container/agent-runner/src/index.ts:317-319 | messages go to the messages directory and tasks to the tasks directory, and only there |
| IpcTools.DirectoryTellsType | container/agent-runner/src/index.ts:316-399 | two records share a directory exactly when they share a type tag |
| IpcTools.IpcFileName | container/agent-runner/src/index.ts:318 | the file name ends in ".json" |
| IpcTools.IpcFileNameTime | container/agent-runner/src/index.ts:318 | the file name's leading digits read back as the clock reading it was named with |
| IpcTools.MessageFile | container/agent-runner/src/index.ts:317-331 | a "message" record in the messages directory for the context's chat with the text, in a file named from the clock and the suffix |
| IpcTools.TaskFile | container/agent-runner/src/index.ts:379-396 | a "schedule_task" record in the tasks directory; context mode defaults to "group"; group is the target, else the context's group, else "main"; neither is empty |
| IpcTools.SendMessageTool | container/agent-runner/src/index.ts:316-333 | the call is answered exactly when creating the directory and writing the file succeed: the message file is queued and the reply names it; otherwise the call rejects with the error |
| IpcTools.ScheduleTaskTool | container/agent-runner/src/index.ts:366-399 | the call is answered exactly when creating the directory and writing the file succeed: the task file is queued and the reply names it; otherwise the call rejects with the error |
| IpcTools.EmptyContextDefaults | container/agent-runner/src/index.ts:290-300 | before a context is installed, a task goes to "main" with mode "group" and a message names no chat |
| AgentMain.PreparePrompt | container/agent-runner/src/index.ts:626-630 | the prompt is always the suffix; it is changed exactly for a scheduled task, by the preamble and a blank line |
| AgentMain.Retrieved | container/agent-runner/src/index.ts:611-617 | corrected: at most five memories, all of the request's group (the search scoped to the memory's own group, as in the Findings); none when the store failed to open or the search failed |
| AgentMain.ResultFor | container/agent-runner/src/index.ts:598-682 | success exactly when the request decodes and the model answers, with its text; otherwise an error with null result, carrying the parse failure or the model's message |
| AgentMain.RunAgent | container/agent-runner/src/index.ts:595-683 | one result per run with exit code 0 on success and 1 on error; a bad request stops before anything else; otherwise the model is asked once with the memory context (retrieved with the corrected group-scoped search) and the prepared prompt, the tool context is installed, and the prompt is stored for the group exactly when the model answered and the store accepted it |
| AgentMain.MemoryOutageContext | container/agent-runner/src/index.ts:611-624 | with the store unreachable or failing, the context is the knowledge text and the heading alone |
| AgentMain.StoredEntryRetrievable | container/agent-runner/src/index.ts:662-667 | an entry stored for a group is found by that group's next run when the store ranks it first |
| WhatsApp.OpenSocket | src/channels/whatsapp.ts:34-49 | a connect replaces the socket with a fresh one and changes nothing else |
| WhatsApp.Step | src/channels/whatsapp.ts:51-83 | after an exit nothing changes; an update arms the exit exactly when one was armed already or it carries a truthy QR code; the timer exits with code 1 exactly when the exit is armed and changes nothing else; an event exits with code 0 only from a logged-out close; an 'open' update sets `connected`; an update other than a close neither exits nor opens a socket, and one other than 'open' leaves `connected` alone; at most one socket is opened |
| WhatsApp.CloseDecision | src/channels/whatsapp.ts:64-78 | a close reconnects (one new socket, process alive) exactly when the status code is not 401 and exits with code 0 exactly when it is; `connected` is untouched |
| WhatsApp.ExitIsFinal | src/channels/whatsapp.ts:61-77 | once the process has exited no sequence of events changes the state |
| WhatsApp.LoggedOutIsTerminal | src/channels/whatsapp.ts:64-78 | a logged-out close exits with code 0, opens nothing, and nothing afterwards changes it |
| WhatsApp.ExitStaysPending | src/channels/whatsapp.ts:54-62 | a scheduled exit stays scheduled whatever events follow |
| WhatsApp.AuthRequiredStops | src/channels/whatsapp.ts:54-62 | after a QR code the process has exited once the timer it armed has gone off |
| WhatsApp.QrArmsExit | src/channels/whatsapp.ts:54-62 | a QR code arms the exit whatever else the update says |
| WhatsApp.MessageContent | src/channels/whatsapp.ts:189-198 | the plain text, else the extended text, else the placeholder; never empty |
| WhatsApp.Normalize | src/channels/whatsapp.ts:87-105 | a message is passed on exactly when it has a body and a chat other than the status broadcast; id, sender, name, timestamp and `fromMe` fall back as the source does, and no field is empty |
| WhatsApp.UpsertDeliversInOrder | src/channels/whatsapp.ts:87-106 | exactly the deliverable messages of a batch are delivered, in batch order, each with its chat and content |
| WhatsApp.WhatsAppChannel.constructor | src/channels/whatsapp.ts:23-32 | no socket, not connected, no callback, nothing delivered or sent |
| WhatsApp.WhatsAppChannel.Connect | src/channels/whatsapp.ts:34-49 | the link state becomes `OpenSocket` of the old one |
| WhatsApp.WhatsAppChannel.OnConnectionUpdate | src/channels/whatsapp.ts:51-83 | the link state becomes `Step` of the old one for the update; messages are untouched |
| WhatsApp.WhatsAppChannel.OnExitTimer | src/channels/whatsapp.ts:61 | the link state becomes `Step` of the old one for the timer |
| WhatsApp.WhatsAppChannel.Disconnect | src/channels/whatsapp.ts:109-112 | only `connected` is cleared, so the channel reports itself disconnected while the socket stays |
| WhatsApp.WhatsAppChannel.OnMessage | src/channels/whatsapp.ts:114-116 | a callback is registered and nothing else changes |
| WhatsApp.WhatsAppChannel.OnMessagesUpsert | src/channels/whatsapp.ts:87-106 | the callback receives exactly `Keep(Normalize, batch)` appended in order, nothing without a callback |
| WhatsApp.WhatsAppChannel.SendMessage | src/channels/whatsapp.ts:118-133 | fails with "WhatsApp socket not connected" without a socket; otherwise the socket's answer is passed on and an accepted text recorded |
| WhatsApp.WhatsAppChannel.SyncGroupMetadata | src/channels/whatsapp.ts:146-161 | fails without a socket or when fetching fails; otherwise exactly the groups with a non-empty subject, each with its subject |
| WhatsApp.WhatsAppChannel.SetTyping | src/channels/whatsapp.ts:166-177 | without a socket nothing is sent; otherwise "composing" exactly when typing and "paused" exactly when not, to the jid |
| Telegram.Normalize | src/channels/telegram.ts:104-121 | an update is passed on exactly when its message has non-empty text; ids are decimal strings, sender and name fall back as the source does, timestamp in ms, never from the bot |
| Telegram.ReplyReachesSameChat | src/channels/telegram.ts:47-52 | `parseInt` of a delivered message's chat id is that chat's numeric id, so a reply reaches it |
| JsValues.IntToStringRoundTrip | src/channels/telegram.ts:109-111 | `parseInt(i.toString(), 10)` is `i` for every integer |
| JsValues.ParseInt | src/channels/telegram.ts:50-51 | NaN exactly when no digit follows the white space and the sign |
| Telegram.CursorAcknowledgesBatch | src/channels/telegram.ts:122-123 | with ids increasing through a batch, the new cursor is past every update of it, text or not |
| Telegram.CursorOverBatches | src/channels/telegram.ts:104-124 | handling two batches in turn leaves the cursor where handling their concatenation does |
| Telegram.GetBotInfo | src/channels/telegram.ts:150-157 | the bot's id, its username or "", its first name or "Bot"; a failing `getMe` is passed on |
| Telegram.SyncGroupMetadata | src/channels/telegram.ts:68-72 | no groups |
| Telegram.TelegramChannel.constructor | src/channels/telegram.ts:10-20 | not connected, not stopped, no loop, cursor 0, nothing delivered |
| Telegram.TelegramChannel.Connect | src/channels/telegram.ts:22-35 | as written: a failing `getMe` is passed on and changes nothing; otherwise connected, cursor 0, and the loop polls exactly when not stopped; the stop flag is kept |
| Telegram.TelegramChannel.ConnectResumingPolling | src/channels/telegram.ts:22-35 | corrected: a successful connect also clears the stop flag, so the loop always polls |
| Telegram.TelegramChannel.StartPolling | src/channels/telegram.ts:95-145 | cursor 0; the loop polls when it may, else pauses, or stays idle when stopped |
| Telegram.TelegramChannel.LeaveLoopIfStopped | src/channels/telegram.ts:133-139 | a loop that may no longer poll pauses unless stopped, when it ends |
| Telegram.TelegramChannel.Disconnect | src/channels/telegram.ts:37-41 | stopped and not connected; the loop may not poll |
| Telegram.TelegramChannel.OnMessage | src/channels/telegram.ts:43-45 | a callback is registered and nothing else changes |
| Telegram.TelegramChannel.HandleUpdate | src/channels/telegram.ts:104-124 | a text update is delivered; the cursor moves to one past the update either way |
| Telegram.TelegramChannel.PollOnce | src/channels/telegram.ts:101-130 | after one fetch the cursor is `OffsetAfter` the batch and the batch's text messages are appended in order; a failed fetch changes nothing |
| Telegram.TelegramChannel.PollAll | src/channels/telegram.ts:100-131 | over successive fetches the cursor and the deliveries follow the fetches in order |
| Telegram.TelegramChannel.Poll | src/channels/telegram.ts:99-140 | a loop that may poll consumes every fetch; one that may not changes nothing and pauses, or ends when stopped |
| Telegram.TelegramChannel.ResumeAfterPause | src/channels/telegram.ts:134-138 | after the pause the loop restarts only if it may poll |
| Telegram.TelegramChannel.SendMessage | src/channels/telegram.ts:47-58 | the text goes to `parseInt(chatId, 10)`; the API's failure is passed on |
| Telegram.TelegramChannel.SetTyping | src/channels/telegram.ts:77-90 | a "typing" action to the parsed chat exactly when typing starts |
| Telegram.ReconnectAfterDisconnect | src/channels/telegram.ts:22-41 | as written, connect, disconnect, connect leaves the channel reporting itself connected with no polling loop |
| Telegram.ReconnectAfterDisconnectResumes | src/channels/telegram.ts:22-41 | with the corrected connect the same sequence leaves it connected and polling |
| Telegram.FailedFetchesChangeNothing | src/channels/telegram.ts:125-130 | a failed fetch anywhere in a run changes neither the cursor nor what is delivered |
| Telegram.DeliveredInFetchOrder | src/channels/telegram.ts:99-131 | two successful fetches deliver the text updates of both batches in fetch and batch order |

## Left out

- JSON decoding and encoding are not modelled. The decoded request, transcript lines, session index and serialised result are values; a failed parse is a `Failure` or `Malformed`.
- stdin reading, `mkdir`, and file reads and writes become values or outcome parameters. For the two IPC tools and the pre-compaction hook, the outcome of `mkdir` and `writeFile` together is one parameter; whether a failed write leaves a partial file behind is not modelled. `process.exit` becomes the run's exit code or the WhatsApp link's `exitCode`.
- The clock, `Math.random()`, `toISOString` and `toLocaleString` are not modelled; their outputs are parameters (`now`, `suffix`, `date`, `hours`, `minutes`, `archivedAt`, `timestamp`).
- The vector store's internals are not modelled: vector similarity, the embedding vector and its 1536-wide zero seed row. The ranking is a parameter. The `where group = ...` filter is read as a test on the entry's `metadata.group`.
- The embedding request (`embed`) is left out; only whether it succeeds is modelled.
- The model provider (`getProvider`, environment variables, temperature, max tokens) is left out; the call's answer or thrown message is the `Generation` parameter. An unknown provider is one such thrown message.
- The `remember` tool is left out: it only echoes its argument and touches no state.
- Logging is left out, and so is the osascript notification.
- `appendToKnowledge` is private and has no caller; it is modelled as a function on the document text only.
- Memory.SectionName: the text an inherited built-in function renders as is the one Node's engine prints (`function toString() { [native code] }`); a non-string `metadata.type` is not modelled.
- The run-level model (`AgentMain.Retrieved`, `AgentMain.RunAgent`, `AgentMain.StoredEntryRetrievable`) uses the corrected, group-scoped search of the Findings; the search as written is modelled by `Memory.HybridMemory.Search` and `Memory.AsWrittenSearchMissesGroup`.
- Transcript: a `null` element in a content array makes `c.text` or `c.type` throw, so the source drops the whole line; `Part` has no null, so this case is not modelled.
- Archive.LowerChar: `toLowerCase` is modelled only for the characters whose lower case falls in `[a-z0-9]` (A-Z, the Kelvin sign, capital I with dot above); every other character is kept rather than lowered, which changes nothing after the separator collapse.
- Lengths are counted in code points rather than UTF-16 code units. This affects only the 2000-character cut of `Truncate` on text outside the Basic Multilingual Plane; the 50-character cut applies to text that is already ASCII.
- WhatsApp: `useMultiFileAuthState`, `creds.update` and the signal key store are left out. So are `getSocket`, `setRegisteredGroups` and the `RegisteredGroup` map, which are never read, and the 1-second delay before the exit.
- WhatsApp: a reconnect's `connect()` is modelled as an immediate socket replacement. Handlers left registered on earlier sockets, and interleaving of asynchronous events, are not modelled.
- WhatsApp: a missing `messageTimestamp` is not modelled; it is an integer.
- The callbacks are presence flags, and delivered messages are recorded in a sequence. A callback that throws is not modelled.
- Telegram: one polling loop runs at a time. Several loops started by repeated `connect` calls, the 30-second long-poll timeout, and the interleaving of `disconnect` with an in-flight fetch are not modelled.
- Telegram: the pause-then-restart is two steps (`Poll`, then `ResumeAfterPause`). The five-second wait itself is not modelled.

## Findings

| source | as written | input that shows it | evidently intended | confidence | as-written member | corrected member |
|---|---|---|---|---|---|---|
| container/agent-runner/src/index.ts:160-183 | `search` filters by `getCurrentGroup()`, which matches `/groups/<g>/` against the fixed path "/workspace/group/KNOWLEDGE.md" and so always yields "unknown"; `main` stores memories with `group: input.groupFolder` | a run for group "family" stores its prompt; the next run for "family" searches group "unknown" and retrieves nothing | search within the memory's own group (`currentGroup`) | high; not executed | Memory.AsWrittenSearchMissesGroup | Memory.GroupSearchFindsGroup |
| src/channels/telegram.ts:22-41 | `disconnect` sets `pollingStopped`, which nothing clears, so a later `connect` reports connected but its polling loop ends at once | `connect()`, `disconnect()`, `connect()`: `isConnected()` is true and no update is ever fetched again | `connect` resumes polling | medium; not executed | Telegram.ReconnectAfterDisconnect | Telegram.ReconnectAfterDisconnectResumes |

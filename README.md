# cli-ai-agent: a verified model of the CLI's core

This project models, in Dafny, the parts of the `cli-ai-agent` command-line
client that make decisions rather than draw on the terminal. It covers five
source files.

- **Device login** (`server/src/cli/commands/auth/login.ts`). `loginAction`
  works out the client id and server URL, then decides on re-authentication
  and asks for a device code. `pollForToken` then polls the token endpoint
  under the rules of the OAuth 2.0 Device Authorization Grant (RFC 8628).
  - The interval defaults to 5 s (section 3.2 of RFC 8628).
  - `slow_down` adds 5 s to the interval (section 3.5 of RFC 8628).
  - `access_denied` and `expired_token` stop polling.
  - Any other error exits the process with code 1.
  - An exception from the request rejects the login.

  The poller is a step function `PollStep` and a driver `Drive` over the
  server's answers in order. The imperative `PollForToken` loop is proved
  equal to that driver. Delays are recorded in milliseconds instead of being
  waited for.
- **The chat store** (`server/src/service/chat-service.ts`). The
  conversation and message tables are sequence fields of the class
  `ChatStore`. A counter stands for the database clock, and a second counter
  generates conversation ids. `JSON.stringify`/`JSON.parse` are a pair of
  functions (`JsonCodec`) about which the model assumes only that parsing
  undoes stringifying.
- **The tool registry** (`server/src/config/tool.config.ts`). A fixed
  `array<Tool>` whose `enabled` flags are switched in place. Each update is
  proved equal to a function of the old contents (`Toggled`, `EnabledOnly`,
  `Disabled`), and the registry's properties are proved about those
  functions.
- **The completion client** (`server/src/cli/ai/openai-service.ts`).
  - `streamText` is a parameter. It either throws, or yields the chunks, a
    possible error raised after them, and the per-step tool records.
  - Calls to the `onChunk` and `onToolCall` callbacks are returned as an
    event log.
  - `Flatten` is the in-order concatenation that specifies each
    accumulation loop.
- **The chat session** (`server/src/cli/chat/chat-with-ai.ts`). This covers:
  - the title rule;
  - the prompt validator and the exit word;
  - the authentication check;
  - `getAiResponse` with its chunk callback;
  - one turn of the loop;
  - the loop itself, over the sequence of answers the prompt returns;
  - `startChat`.

  `Accepted` is the script of a session. It gives the messages the prompt
  lets through and how the loop stops. `ChatLoop` is proved to store exactly
  those messages, or the prefix ending with the first message whose reply
  the service did not answer. Each reply request is proved to see the
  history up to its own message.

The files are:

| file | contents |
|---|---|
| `wrappers.dfy` | `Option`, `Result`, JavaScript truthiness of optional strings |
| `json.dfy` | JSON values and the abstract stringify/parse pair |
| `seqs.dfy` | order-preserving `Filter` |
| `device_flow.dfy` | module `DeviceFlow` (login.ts) |
| `chat_service.dfy` | module `ChatService` (chat-service.ts) |
| `tool_registry.dfy` | module `ToolConfig` (tool.config.ts) |
| `ai_service.dfy` | module `AiService` (openai-service.ts) |
| `chat_with_ai.dfy` | module `ChatWithAI` (chat-with-ai.ts) |

## Model

| member | source | states |
|---|---|---|
| DeviceFlow.Classify | server/src/cli/commands/auth/login.ts:181-197 | Each of the four RFC 8628 error codes the switch names is recognised exactly when the code is that string. Every other code is unrecognised. |
| DeviceFlow.MakeTokenRequest | server/src/cli/commands/auth/login.ts:163-170 | A token request carries the `device_code` grant type of section 3.4 of RFC 8628, the device code and the client id. |
| DeviceFlow.PollStep | server/src/cli/commands/auth/login.ts:172-203 | An answer carrying an access token resolves with the whole `data` object, and only such an answer does. A thrown request rejects, and only a thrown request does. An unrecognised error exits with code 1. `access_denied` and `expired_token` stop without a timer. Every other answer sets a new timer, with the interval raised by 5 exactly on `slow_down`. |
| DeviceFlow.PollForToken | server/src/cli/commands/auth/login.ts:148-208 | The imperative poller (the first timer, then request, answer and reschedule until a terminal branch) produces exactly the delays, requests, outcome and final interval that `PollSpec` gives for the same answers. |
| DeviceFlow.Drive | server/src/cli/commands/auth/login.ts:172-206 | The reference definition of the poller: it replays the answers through `PollStep` and never sends more requests than there are answers. `DriveShape`, `NoPollAfterTerminal` and `DriveDelays` are proved about it. |
| DeviceFlow.PollSpec | server/src/cli/commands/auth/login.ts:148-208 | A whole `pollForToken` call: the first timer is one interval, there are no more requests than answers, and every request uses the device-code grant type. |
| DeviceFlow.DriveShape | server/src/cli/commands/auth/login.ts:154-206 | In a session each timer is followed by one request. Every answer before the last sets a new timer. The interval never shrinks. A session that ended did so on the step for its last answer. |
| DeviceFlow.SessionShape | server/src/cli/commands/auth/login.ts:153-206 | The first delay is one full interval. Timers and requests alternate, so at most one request is in flight. Every request is the same device-code request. A pending session has used every answer. An ended one ended on its last request, after an answer that sets no timer. |
| DeviceFlow.NoPollAfterTerminal | server/src/cli/commands/auth/login.ts:172-203 | Once a terminal branch is reached, later answers change nothing: no further poll is scheduled. |
| DeviceFlow.PollDelays | server/src/cli/commands/auth/login.ts:181-206 | Each delay is the previous one plus 5000 ms after `slow_down` and the same after any other answer that sets a timer. Delays never decrease and are never below the first interval. |
| DeviceFlow.SlowDownTwiceThenToken | server/src/cli/commands/auth/login.ts:172-186 | Two `slow_down` answers and then a token give delays of 5000, 10000 and 15000 ms and three requests, and the session resolves with the token data. |
| DeviceFlow.ExpiredTokenStops | server/src/cli/commands/auth/login.ts:190-192 | `expired_token` stops after one request with no new timer and nothing resolved, whatever answers would follow. |
| DeviceFlow.CommanderOptions | server/src/cli/commands/auth/login.ts:213-217 | Commander stores the options under the keys `serverUrl` (defaulting to the URL constant) and `clientId` (defaulting to the environment's client id), and never under `serverURL`. |
| DeviceFlow.ParseOptions | server/src/cli/commands/auth/login.ts:27-32 | The zod schema keeps the keys `serverURL` and `clientId` and nothing else: each is present exactly when the options carry that key. |
| DeviceFlow.ServerUrlAsWritten | server/src/cli/commands/auth/login.ts:33 | The server URL as written (`serverURL`, or else the default constant): the default unless the options carry `serverURL`, and never anything but the default or that value. |
| DeviceFlow.ServerUrl | server/src/cli/commands/auth/login.ts:33 | The corrected server URL: the non-empty `serverUrl` commander stored, else the default. |
| DeviceFlow.ClientId | server/src/cli/commands/auth/login.ts:34 | The client id (`clientId`, or else the environment's): a non-empty client id option wins, and otherwise the environment's value is used. |
| DeviceFlow.IntervalOrDefault | server/src/cli/commands/auth/login.ts:85 | The destructuring default: 5 exactly when the device-code answer has no interval, and otherwise the server's interval. |
| DeviceFlow.ServerUrlFlagIgnored | server/src/cli/commands/auth/login.ts:28-34 | As written, the server URL is always the default, whatever `--server-url` says. |
| DeviceFlow.ServerUrlFlagHonoured | server/src/cli/commands/auth/login.ts:28-34 | With the key commander uses, a non-empty `--server-url` is the server the login talks to, and an empty one falls back to the default. |
| DeviceFlow.LoginAction | server/src/cli/commands/auth/login.ts:27-146 | It uses the corrected server URL (see Findings). With no client id the login exits with 1 before any request. With a valid stored token and no wish to re-authenticate it exits with 0 without contacting the server. A device-code error or exception exits with 1. Otherwise it polls with the server's interval (5 by default). It stores the token exactly when polling resolves and reports success even when saving fails. A rejection or unknown error exits with 1. `access_denied`, `expired_token` or running out of answers leaves it waiting. |
| ChatService.ContentReadBack | server/src/service/chat-service.ts:58-97 | Structured content comes back from the stored text as itself. A string that is not valid JSON comes back unchanged. A string whose text is valid JSON comes back parsed. |
| ChatService.ContentText | server/src/service/chat-service.ts:59-61 | A string is stored verbatim. Anything else is stored as JSON text that parses back to the same value. |
| ChatService.ParseContent | server/src/service/chat-service.ts:91-97 | Text that does not parse comes back as the raw string. Any other result is exactly what parsing gave. |
| ChatService.ReplayedTextIsStoredText | server/src/service/chat-service.ts:152-159 | Formatting a parsed-back message reproduces the stored text exactly, for structured content and for non-JSON strings. |
| ChatService.FormatMessages | server/src/service/chat-service.ts:152-159 | The projection keeps length, order and role. String content is copied and any other content is stringified. |
| ChatService.MessagesOf | server/src/service/chat-service.ts:77-80 | The rows of one conversation are exactly the table rows with that conversation id, still in `createdAt` order. |
| ChatService.MessagesOfAppend | server/src/service/chat-service.ts:58-69 | Appending a row extends its own conversation's messages by exactly that row and leaves every other conversation's messages alone. |
| ChatService.FindOwned | server/src/service/chat-service.ts:31-43 | It finds a conversation only when both its id and its owner match, and finds nothing only when no conversation matches both. |
| ChatService.Latest | server/src/service/chat-service.ts:108-114 | At most one message, which is absent exactly when there are none: the newest one. |
| ChatService.InsertByRecencySorted | server/src/service/chat-service.ts:107 | Inserting into a list sorted by `updatedAt` descending keeps it sorted and adds exactly that one element. |
| ChatService.ByRecencySpec | server/src/service/chat-service.ts:107 | The `updatedAt: 'desc'` ordering is sorted and is a permutation of its input. |
| ChatService.ByRecency | server/src/service/chat-service.ts:107 | The `updatedAt: 'desc'` ordering, as an insertion sort, keeps the number of conversations. `ByRecencySpec` proves it sorted and a permutation. |
| ChatService.Previews | server/src/service/chat-service.ts:108-114 | Each conversation comes with at most one message. The message is absent exactly when the conversation has none, and otherwise it is the conversation's newest. |
| ChatService.UserConversationsSpec | server/src/service/chat-service.ts:104-116 | The user's list holds each of the user's conversations and no one else's. |
| ChatService.UserConversationsOrdered | server/src/service/chat-service.ts:104-116 | The user's list is ordered by `updatedAt`, most recent first. |
| ChatService.UserConversations | server/src/service/chat-service.ts:104-116 | The query's result has one entry per conversation of the user, each with at most one message. `UserConversationsSpec` and `UserConversationsOrdered` state which conversations and their order. |
| ChatService.DeleteRemovesOne | server/src/service/chat-service.ts:125-131 | Deleting by id and owner removes exactly one row when the pair exists, because ids are unique. |
| ChatService.ChatStore.CreateConversation | server/src/service/chat-service.ts:12-20 | It appends one new conversation with a fresh id, owned by the user, in the given mode (default "chat"). A falsy title becomes "New <mode> Conversation". The conversation is newer than every other. |
| ChatService.ChatStore.GetOrCreateConversation | server/src/service/chat-service.ts:29-49 | It returns the existing conversation, with its messages oldest first and nothing changed, only when both id and owner match. Otherwise it creates one owned by the caller, with an id no existing conversation has. It never returns another user's conversation. |
| ChatService.ChatStore.AddMessage | server/src/service/chat-service.ts:58-70 | It appends one row whose content is the string verbatim, or otherwise the value's JSON text. It fails and changes nothing when the conversation does not exist. |
| ChatService.ChatStore.GetMessages | server/src/service/chat-service.ts:76-97 | It returns exactly the conversation's messages, in strictly increasing `createdAt` order, each with its content parsed back. |
| ChatService.ChatStore.GetUserConversations | server/src/service/chat-service.ts:104-117 | It returns exactly the user's conversations, most recently updated first, each with at most its latest message. |
| ChatService.ChatStore.DeleteConversation | server/src/service/chat-service.ts:125-132 | It deletes only the conversation matching both id and owner, and that conversation's messages with it. A count of 1 means the pair existed. A non-owner deletes nothing and changes nothing. |
| ChatService.ChatStore.UpdateTitle | server/src/service/chat-service.ts:140-145 | It changes only the title and the automatic `updatedAt` of the conversation with that id, without an owner check. An unknown id fails and changes nothing. |
| ToolConfig.InitialTools | server/src/config/tool.config.ts:4-24 | The registry holds web search and code execution, with distinct ids, both disabled. |
| ToolConfig.Find | server/src/config/tool.config.ts:59 | `find` gives the first tool with the id, or nothing when no tool has it. |
| ToolConfig.NamesOf | server/src/config/tool.config.ts:88 | The names are exactly those of the enabled tools, and the list is empty exactly when none is enabled. |
| ToolConfig.Toggled | server/src/config/tool.config.ts:58-66 | Toggling keeps every tool in place with its id. `ToggledSpec` states which flag flips. |
| ToolConfig.EnabledOnly | server/src/config/tool.config.ts:72-85 | `enableTools` keeps every tool in place with its id. `EnabledOnlySpec` states which flags end up on. |
| ToolConfig.Disabled | server/src/config/tool.config.ts:93-99 | After reset no tool is enabled, and every tool stays in place. |
| ToolConfig.ToggledSpec | server/src/config/tool.config.ts:58-70 | Toggling a known id flips only that tool's flag and leaves every tool otherwise unchanged. An unknown id changes nothing, and only an unknown id does. |
| ToolConfig.ToggleTwice | server/src/config/tool.config.ts:58-66 | Toggling the same id twice restores the registry. |
| ToolConfig.EnabledOnlySpec | server/src/config/tool.config.ts:72-85 | After `enableTools(ids)` each tool is on exactly when its id is listed. The enabled ids are the registry's ids that are listed, and unknown ids are ignored. |
| ToolConfig.EnabledOnlyForgetsFlags | server/src/config/tool.config.ts:72-77 | `enableTools` does not depend on the flags it overwrites, so calling it again changes nothing. |
| ToolConfig.DisabledSpec | server/src/config/tool.config.ts:93-99 | Reset turns every tool off. It equals enabling the empty list, and no names remain. |
| ToolConfig.NamesOfAppend | server/src/config/tool.config.ts:87-91 | The enabled names of a registry are taken in registry order. |
| ToolConfig.NamesOfAllEnabled | server/src/config/tool.config.ts:87-91 | With every tool on, the names are all the names in registry order. |
| ToolConfig.ToolRegistry.constructor | server/src/config/tool.config.ts:4-24 | The array starts as the initial registry. |
| ToolConfig.ToolRegistry.ToggleTool | server/src/config/tool.config.ts:58-70 | It updates the array in place to `Toggled` of its old contents. It returns the tool's new flag, or false when no tool has the id. |
| ToolConfig.ToolRegistry.EnableTools | server/src/config/tool.config.ts:72-85 | It updates the array in place to `EnabledOnly` of its old contents. |
| ToolConfig.ToolRegistry.ResetTools | server/src/config/tool.config.ts:93-99 | It updates the array in place to `Disabled` of its old contents. |
| ToolConfig.ToolRegistry.EnabledToolsNames | server/src/config/tool.config.ts:87-91 | It gives the names of exactly the enabled tools, and nothing when no tool is on. |
| ToolConfig.ToolRegistry.GetEnabledTools | server/src/config/tool.config.ts:26-56 | It returns undefined exactly when no tool is on or some enabled tool's `getTool` throws. Otherwise the keys are exactly the enabled ids, each mapped to its tool. |
| AiService.NewService | server/src/cli/ai/openai-service.ts:10-18 | Construction throws the missing-key error exactly when no API key is configured. |
| AiService.BuildRequest | server/src/cli/ai/openai-service.ts:36-49 | Tools, and with them `maxSteps = 5`, are attached exactly when the tools object is present and non-empty. |
| AiService.FlattenAppend | server/src/cli/ai/openai-service.ts:53-56 | Accumulation in arrival order splits over any cut of the chunk list. |
| AiService.FlattenMembers | server/src/cli/ai/openai-service.ts:64-83 | The flattened list holds exactly the entries of the parts. |
| AiService.Flatten | server/src/cli/ai/openai-service.ts:53-56 | The accumulated text, or the collected list, is empty exactly when every part is empty. `FlattenAppend` and `FlattenMembers` state its order and contents. |
| AiService.ToolCallsSpec | server/src/cli/ai/openai-service.ts:64-78 | The collected tool calls are exactly the steps' calls. A step with no calls adds nothing. |
| AiService.ReadStream | server/src/cli/ai/openai-service.ts:53-60 | The text is the concatenation of the chunks in order. `onChunk`, when given, is called once per chunk, in order. |
| AiService.PushCalls | server/src/cli/ai/openai-service.ts:70-76 | One step's calls are appended in order, and `onToolCall` is called once for each of them. |
| AiService.CollectSteps | server/src/cli/ai/openai-service.ts:64-83 | Tool calls and tool results are the in-order concatenations over the steps. `onToolCall` is called once per collected call, in order. |
| AiService.SendMessage | server/src/cli/ai/openai-service.ts:30-96 | An error before or during streaming is rethrown with no reply. Otherwise the reply's content is the chunks' concatenation, its tool calls and results are the steps' concatenations (empty without steps), and the callbacks are called in this order: every chunk, then every tool call. |
| AiService.GetMessage | server/src/cli/ai/openai-service.ts:104-111 | It returns the same content `sendMessage` produces for the same messages and tools, and rethrows the same errors. |
| ChatWithAI.TitleShape | server/src/cli/chat/chat-with-ai.ts:174 | A title is at most 53 characters. An input of at most 50 characters is kept whole. A longer one gives its first 50 characters followed by "...". |
| ChatWithAI.TitleFor | server/src/cli/chat/chat-with-ai.ts:174 | A title is never longer than 50 characters plus "...". `TitleShape` gives its exact shape. |
| ChatWithAI.TitleIdempotent | server/src/cli/chat/chat-with-ai.ts:174 | Applying the rule to a title it produced changes nothing. |
| ChatWithAI.TitleUpdate | server/src/cli/chat/chat-with-ai.ts:172-177 | A title is set exactly when the message count is 1, and it is the title rule applied to the input. |
| ChatWithAI.TrimEmptyIffBlank | server/src/cli/chat/chat-with-ai.ts:198 | `trim()` leaves nothing exactly when every character is JavaScript white space. |
| ChatWithAI.Trim | server/src/cli/chat/chat-with-ai.ts:198 | `trim()` never lengthens the text, and what it leaves neither starts nor ends with white space. |
| ChatWithAI.Validate | server/src/cli/chat/chat-with-ai.ts:197-201 | The validator refuses an input exactly when it is missing, empty or all white space, and refuses it with "Message cannot be empty.". |
| ChatWithAI.IsExitSpec | server/src/cli/chat/chat-with-ai.ts:216 | The exit check accepts exactly the four letters of "exit", each in either case. |
| ChatWithAI.IsExit | server/src/cli/chat/chat-with-ai.ts:216 | Only a four-character input can be the exit word. `IsExitSpec` states exactly which ones are. |
| ChatWithAI.ExitIsValid | server/src/cli/chat/chat-with-ai.ts:197-216 | The validator never blocks the exit word, so the exit check can be reached. |
| ChatWithAI.FindUserBySession | server/src/cli/chat/chat-with-ai.ts:60-66 | It finds a user only when that user owns a session with the token, and finds nothing only when no user does. |
| ChatWithAI.GetUserFromToken | server/src/cli/chat/chat-with-ai.ts:54-75 | With no stored access token it fails with "Not authenticated". It fails with "Invalid token" exactly when no user has a matching session. Otherwise it returns a user who owns such a session. |
| ChatWithAI.ChunkCallback | server/src/cli/chat/chat-with-ai.ts:141-157 | The accumulated text is the chunks' concatenation. The header is shown once, before the first chunk is appended, and only when a chunk arrives. |
| ChatWithAI.HeaderOnlyOnFirstChunk | server/src/cli/chat/chat-with-ai.ts:143-155 | The header step occurs exactly at the first position, and occurs at all exactly when some chunk arrives. |
| ChatWithAI.GetAiResponse | server/src/cli/chat/chat-with-ai.ts:132-170 | It asks with the conversation's stored history and no tools. On success it returns the concatenated reply and renders that same text. On an error the spinner shows the failure and the error is rethrown. |
| ChatWithAI.SaveUserMessage | server/src/cli/chat/chat-with-ai.ts:227-229 | The user's text is appended as one "user" row, and the count read back is the conversation's new message count. |
| ChatWithAI.UpdateConversationTitle | server/src/cli/chat/chat-with-ai.ts:172-177 | The title is set exactly when the count is 1, and then it is the title rule applied to the input. Only that conversation changes, and only in its title and the `updatedAt` the database moves. Its owner, mode, id and `createdAt` stay. The messages do not change. |
| ChatWithAI.ChatTurn | server/src/cli/chat/chat-with-ai.ts:227-233 | A turn appends the user's message and no other row, so the reply itself is never stored. The reply request sees the conversation with that message already saved: the turn succeeds exactly when the service answers the request built from the stored history that includes it. The title is set only after a successful reply to the conversation's first message. The action log lists save, read, request and title in that order. |
| ChatWithAI.RunTurn | server/src/cli/chat/chat-with-ai.ts:227-233 | A turn adds exactly one user row. It lets the loop go on exactly when the service answered the request built from the history including that row, and otherwise stops it with `Failed`. |
| ChatWithAI.Accepted | server/src/cli/chat/chat-with-ai.ts:193-225 | A script never ends in a failure, because replies are not part of it. |
| ChatWithAI.AcceptedTexts | server/src/cli/chat/chat-with-ai.ts:193-227 | Every message the loop sends is non-blank and not the exit word. |
| ChatWithAI.LoopStep | server/src/cli/chat/chat-with-ai.ts:194-233 | Ctrl+C stops the loop without saving. A blank answer is asked again with nothing changed. The exit word stops the loop without saving. Anything else runs one turn, which adds one user row and stops the loop exactly when that turn's reply was not answered. |
| ChatWithAI.LoopIteration | server/src/cli/chat/chat-with-ai.ts:193-234 | One pass either goes on, with the script advanced and every reply so far answered, or stops with the outcome the script predicts. A `Failed` stop happens exactly when the reply to the message just stored was not answered. |
| ChatWithAI.ChatLoop | server/src/cli/chat/chat-with-ai.ts:179-235 | Only user messages are stored: exactly the script's messages in order, or a prefix of them. The reply asked for after each stored message saw the history up to that message. Each of those replies was answered, except on a `Failed` end, where exactly the last one was not. Otherwise the stop is the script's own. The title comes from the first completed turn of a conversation that started empty. |
| ChatWithAI.StartChat | server/src/cli/chat/chat-with-ai.ts:238-262 | A failed authentication exits with 1 and touches nothing. Otherwise the conversation belongs to the user. It is the existing one exactly when the given id and the owner match, and otherwise a new one with a fresh id in the requested mode. The exit code is 1 exactly when authentication failed or the reply to the last stored message was not answered. Exit code 0 comes only from Ctrl+C. A normal end is the script's own end, the exit word or the end of input, after every scripted message was stored and answered. |

## Left out

- Timers, `process.exit` and opening the browser are not modelled. Delays are recorded as integers, and exits are outcome values (`ExitedWith`, `ExitCode`).
- Terminal output is left out: chalk, boxen, marked and marked-terminal, the spinners and their dot text, and `displayMessages`, which uses an async `forEach` and so has no defined output order. `GetAiResponse` records only the header, the rendered text and the spinner failure as `Screen` values.
- The better-auth client, `lib/token.js` (`getStoredToken`, `isTokenExpired`, `storeToken`), Prisma and the OpenAI SDK are foreign calls. They are parameters: replies to the device-code and token requests, flags for the stored token, `streamText` as a function, and `supported` for `getTool`.
- `JSON.stringify` and `JSON.parse` are not implemented. They are an abstract pair that only has to round-trip. JSON numbers are integers, and floating point is not modelled. The round trip is demanded only of well-formed values, whose objects never repeat a key, because those are the only values a JavaScript program can stringify.
- Prisma's generated string ids are natural numbers from a counter. The `@updatedAt` and `createdAt` timestamps come from a strictly increasing clock, so no two rows share one. The foreign key from message to conversation, and the cascade on delete, are assumed as the schema would declare them; the schema is not part of this model.
- `findFirst` has no guaranteed order in Prisma. `FindOwned` and `FindUserBySession` take the first match in table order.
- `toLocaleLowerCase` is modelled as ASCII lowercasing. Under some locales (a Turkish dotted capital I, for example) the source would accept other spellings of "exit".
- JavaScript measures `slice` and `length` in UTF-16 code units. The model counts characters, so a title cut in the middle of a surrogate pair is not modelled.
- `setTimeout` clamps very large or negative delays. The model records `interval * 1000` as given.
- Each spinner's text and the `dots` counter in `pollForToken` are display only.
- The module-level `new AIService()` in `chat-with-ai.ts` throws while the module loads when no API key is set. `StartChat` takes an already constructed `Service`, and the constructor's check is `NewService`.
- Exceptions thrown by the `onChunk` and `onToolCall` callbacks are not modelled. The callbacks in this code do not throw.
- `getMessage` passes a chunk callback that accumulates into a local variable it never reads. The model records only that a callback is passed.
- `initConversation` is `GetOrCreateConversation` followed by printing, and is modelled as that call inside `StartChat`.
- Prompt answers are a sequence given in advance (`Entry` values), and the loop's `while(true)` ends when they run out (`InputsExhausted`). This stands for a user who stops typing.
- Other parts of the repository are not part of this model: `server/src/cli/commands/auth/login.js` (an older copy of the login with no polling), `server/src/cli/main.ts` and `main.js` (command wiring), `whoAmI.ts` and `logOut.ts`, `server/src/lib/Ds.ts` (database connection), `server/src/index.ts` (the HTTP server) and the web client.
- `addMessage` stores strings as given and stringifies everything else, and `getMessages` parses every stored text. So a string that is valid JSON (for example `"123"`) comes back as the parsed value, not as the string. `ContentReadBack` states both cases.
- DeviceFlow.LoginAction: `access_denied` and `expired_token` leave `pollForToken`'s promise unsettled, so the login neither succeeds nor fails. This is modelled as the `Waiting` status, as the code behaves, not as an error.
- DeviceFlow.LoginAction: it builds the auth client with the corrected `ServerUrl`, the `--server-url` value commander stored, and not `ServerUrlAsWritten`. As written, `login.ts:33` always uses `http://localhost:3005` (see Findings), so for a given `--server-url` the model talks to the server the flag names where the program as written talks to the default.

## Findings

| source | as written | input that shows it | evidently intended | confidence | as-written member | corrected member |
|---|---|---|---|---|---|---|
| server/src/cli/commands/auth/login.ts:28-34 | The zod schema reads the key `serverURL`, but commander stores `--server-url` under `serverUrl` (line 215). The schema therefore drops the flag, and the server is always `http://localhost:3005`. | `login --server-url https://auth.example.com` | The flag's value is used as the auth server URL. | not executed | DeviceFlow.ServerUrlAsWritten (shown by DeviceFlow.ServerUrlFlagIgnored) | DeviceFlow.ServerUrl (proved by DeviceFlow.ServerUrlFlagHonoured; used by DeviceFlow.LoginAction) |

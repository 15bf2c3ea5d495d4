# kick-chat-logger, modelled in Dafny

kick-chat-logger records the chat of Kick channels. For every channel it
follows, a supervisor task runs chat sessions and restarts them with backoff.
A chat session looks up the channel's chatroom over HTTP, subscribes to it on
Kick's Pusher websocket, keeps the connection alive with pings, and sorts each
received message three ways:

- housekeeping events are ignored;
- the eleven known chat events are parsed and stored as 10-column rows;
- everything else is appended to an overflow log.

An interactive prompt adds, pauses and resumes channels.

This project models the decision logic around the network and the database,
and proves what that logic promises. The modules follow the program's files:

| module | file | models |
|---|---|---|
| `PyValues` | — | Decoded JSON values, Python truthiness and hashability, `dict.get`, exceptions as an `Outcome`, `str()` of scalars, and `str.format` over `{name}` fields. |
| `Config` | `config.py` | The event names, the handled and ignored sets, the table prefix, the ping constant and the content templates. |
| `KickEvents` | `src/kick_event.py` | The event record. |
| `SanitizeValidate` | `src/utils/sanitize_validate.py` | The channel-name sanitiser, table naming and timestamp normalisation. |
| `DataPreparation` | `src/utils/data_preparation.py` | The dispatch table and the twelve preparers. |
| `KickApi` | `src/kick_api.py` and `kick_api.py` | Classification of the HTTP responses. The two files are identical, so one module models both. |
| `KickChatListener` | `src/kick_chat_listener.py` | See below. |
| `Storage` | `src/storage.py` | The storage class's own copies of the sanitiser, table naming, normaliser and preparers. |
| `Cli` | `src/cli.py` | The retry policy, the command parser and the `KickChatLogger` registry. |

`KickChatListener` holds the chatroom-id extraction, the subscribe frame, the
classifier, `parse_event`, the keepalive step and `listen_to_chat` itself.
`listen_to_chat` is a `method` with a `while` loop over the loop's inputs. It
keeps ghost logs of the frames it sent, the overflow log and the events handed
to storage. It is proved equal to the recursive specification `ListenSpec`,
and the lemmas about `Run` state the session's properties.

The supervisor `_scrape_channel_with_retry` is a `method` of the class
`Cli.KickChatLogger`. Its loop is proved against the recursive `Supervise`, and
each iteration's decision is the pure function `RetryStep`. The registry keeps
`active_tasks` and `stop_events` as `map` fields: a task is an opaque number
and a stop event is a flag. The storage's channel table is a third `map`, from
stored name to paused.

Environment inputs are parameters:

- `json.loads` is a function `string -> Option<Json>`, where `None` means it
  raises.
- `str()` of a list or dict is a function `Json -> string`.
- `json.dumps`, `str(dict)`, `str.format` and `datetime.fromtimestamp(...).isoformat()`
  are kept as symbolic row cells (`Dumps`, `Repr`, `Formatted`, `UtcIso`).
  `Render` gives the text of a formatted cell whose arguments are scalars.
- Each chat-session outcome is the input `AttemptOutcome`. It is one of:
  - a normal return;
  - a `ConnectionClosed` with the code the library reports;
  - any other exception.
- `Received` is one receive of the session loop, and `PingResult` one ping.
  `StoreResult` is the result of `store_event`, and `now` is the clock.
- A supervisor iteration that finds the stop flag clear is a `Round` in the
  input trace; the end of the trace is the flag found set. The session loop
  is treated the same way, with a trace of `Step`s.

## Model

| member | source | states |
|---|---|---|
| `Config.EventSetsDisjoint` | config.py:34-53 | No event name is both handled and ignored. There are exactly 11 handled and 4 ignored names. |
| `Config.HousekeepingIgnored` | config.py:29-53 | The poll update and delete events and the two pusher housekeeping events are ignored and not handled. |
| `Config.PermanentBanTemplateFields` | config.py:69 | The fields of the permanent ban template are exactly `username` then `banned_by`. |
| `Config.TemporaryBanTemplateFields` | config.py:70-72 | The fields of the temporary ban template are exactly `username`, `duration`, `banned_by`. |
| `Config.SubscriptionTemplateText` | config.py:68 | With `username` and `months` bound, the subscription template formats to "<username> subscribed for <months> months". |
| `Config.PermanentBanTemplateText` | config.py:69 | The permanent ban template formats to "<username> was banned permanently by <banned_by>". |
| `Config.TemporaryBanTemplateText` | config.py:70-72 | The temporary ban template formats to "<username> was banned for <duration> seconds by <banned_by>". |
| `Config.UnbannedTemplateText` | config.py:73 | The unban template formats to "<username> was unbanned by <unbanned_by>". |
| `Config.PinnedTemplateText` | config.py:76 | The pinned template formats to "Message pinned: <content>". |
| `Config.SentTemplateText` | config.py:77 | The sent template formats to "Message sent (<message_type>): <action>". |
| `Config.StreamHostTemplateText` | config.py:81-83 | The host template formats to "<host_username> is hosting the stream with <number_viewers> viewers". |
| `PyValues.FormatDefinedIffFieldsBound` | src/utils/data_preparation.py:116 | `str.format` over `{name}` fields succeeds exactly when every field of the template has a value and every `{` is closed. |
| `SanitizeValidate.StripRemovesOnlyOuterSpace` | src/utils/sanitize_validate.py:24 | `strip` returns the slice between the leading and trailing whitespace runs. Both runs are all whitespace, and the result neither starts nor ends with whitespace. |
| `SanitizeValidate.SanitizeCharClass` | src/utils/sanitize_validate.py:24-29 | Every character of a sanitised name is in `[a-z0-9_]`. |
| `SanitizeValidate.SanitizeFixesNameChars` | src/utils/sanitize_validate.py:12-31 | A name already in `[a-z0-9_]` is returned unchanged. |
| `SanitizeValidate.SanitizeIdempotent` | src/utils/sanitize_validate.py:12-31 | Sanitising twice gives the same result as sanitising once. |
| `SanitizeValidate.SanitizeKeepsInterior` | src/utils/sanitize_validate.py:24-29 | Only leading and trailing whitespace is dropped. The result is as long as `strip(lower(name))`. Each remaining character is kept lower-cased if it is in `[a-zA-Z0-9_]`, and otherwise becomes exactly one `_` in the same place. |
| `SanitizeValidate.SanitizeIgnoresCase` | src/utils/sanitize_validate.py:24 | Names that differ only in ASCII letter case sanitise identically. |
| `SanitizeValidate.SanitizeCollision` | src/utils/sanitize_validate.py:26-29 | The distinct names "xqc." and "xqc_" both sanitise to "xqc_". |
| `SanitizeValidate.TablePrefixNameChars` | config.py:65 | The prefix "kickchat_" uses only `[a-z0-9_]`. |
| `SanitizeValidate.TableNameShape` | src/utils/sanitize_validate.py:34-45 | A table name is "kickchat_" followed by the sanitised name, and uses only `[a-z0-9_]`. |
| `SanitizeValidate.TableNameOfSanitized` | src/utils/sanitize_validate.py:44-45 | The table of a sanitised name is the table of the raw name. |
| `SanitizeValidate.NormalizeTimestamp` | src/utils/sanitize_validate.py:48-76 | The result is None, a UTC ISO text, or a non-empty string. |
| `SanitizeValidate.NormalizeTimestampBranches` | src/utils/sanitize_validate.py:59-73 | A falsy value gives None. A non-empty string is returned unchanged. A non-zero integer gives its UTC ISO text. A list, dict or null gives None. |
| `SanitizeValidate.NormalizeTimestampIdempotentOnText` | src/utils/sanitize_validate.py:68-70 | A normalised timestamp that is text normalises to itself. |
| `DataPreparation.PrepareMethodsKeys` | src/utils/data_preparation.py:46-58 | The preparer table is keyed by exactly `HANDLED_EVENTS`. |
| `DataPreparation.DispatchSelectsPreparer` | src/utils/data_preparation.py:46-61 | Each of the eleven handled types selects its own preparer. Every other type selects the generic preparer. |
| `DataPreparation.RowEnvelope` | src/utils/data_preparation.py:87-100 | Every row that is returned starts with the event type and ends with `dumps({"event": type, "data": payload})`. |
| `DataPreparation.PreparerErrorsAreAttributeErrors` | src/utils/data_preparation.py:33-61 | Preparation can fail only with the `AttributeError` of `.get` on a non-dict. |
| `DataPreparation.NonDictPayload` | src/utils/data_preparation.py:410-436 | A non-dict payload makes every preparer raise, except the pinned-message-deleted one, which never reads it. |
| `DataPreparation.ChatMessageRow` | src/utils/data_preparation.py:64-100 | The row succeeds exactly for a dict payload whose `sender` is a dict or absent. The id, timestamp, user id, name and content come from the payload and `sender`. The sender data and metadata are None exactly when those fields are falsy, and are otherwise serialised. |
| `DataPreparation.SubscriptionRow` | src/utils/data_preparation.py:103-129 | The user name defaults to "Unknown" and the months to 0. The content is the subscription template over them, and renders as "<u> subscribed for <m> months". The event id, timestamp and user id are None. |
| `DataPreparation.UserBannedRow` | src/utils/data_preparation.py:132-177 | A truthy `permanent` selects the permanent template. Otherwise the temporary template is used, with `duration` defaulting to 0. The user and moderator names default to "Unknown". The row fails exactly when `user` or `banned_by` is neither a dict nor absent. |
| `DataPreparation.UserUnbannedRow` | src/utils/data_preparation.py:180-215 | The content is the unban template over the user and the moderator, each defaulting to "Unknown". The timestamp is None. |
| `DataPreparation.MessageDeletedRow` | src/utils/data_preparation.py:218-253 | A truthy `aiModerated` (default False) selects the AI template, and otherwise the manual one. The metadata holds the message id, the flag and `violatedRules` (default `[]`). The user columns are None. |
| `DataPreparation.PinnedMessageRow` | src/utils/data_preparation.py:256-292 | The row describes the pinned message and its sender. Its content is the pinned template over the message text, which defaults to "". |
| `DataPreparation.ChatMessageSentRow` | src/utils/data_preparation.py:295-332 | The timestamp is the normaliser applied to `message.created_at`. The content is the sent template over type and action, each defaulting to "". |
| `DataPreparation.ChatMessageSentTimestamp` | src/utils/data_preparation.py:313 | Through the dispatch table, a non-empty text `created_at` is stored as it is, and a falsy one as None. |
| `DataPreparation.StreamHostRow` | src/utils/data_preparation.py:373-407 | The host defaults to "Unknown" and the viewers to 0. Both are formatted into the content. |
| `DataPreparation.FixedContentRows` | src/utils/data_preparation.py:335-463 | The chatroom-updated, pinned-deleted and clear rows carry their fixed templates. The pinned-deleted row never fails, and its metadata is `dumps({})`. The clear row's metadata holds the clear id. |
| `DataPreparation.GenericRow` | src/utils/data_preparation.py:466-488 | The content is `str(payload)` and the metadata is the serialised payload. |
| `KickApi.ChannelResponseSuccessIff` | src/kick_api.py:28-78 | Success holds exactly for a 200 whose body decodes, and then the data is the decoded body. Every failure carries an error and no data. The status is always passed through. |
| `KickApi.ChannelResponseMessages` | src/kick_api.py:39-78 | The error texts are "Invalid JSON response: <e>", "Request blocked by Cloudflare", "Channel '<name>' not found" and "Unexpected status code: <N>", one per failing branch. |
| `KickApi.UnexpectedStatusRecoverable` | kick_api.py:68-78 | For any other status, the status code can be read back from the error text after its prefix. |
| `KickApi.ViewersResponseShapes` | src/kick_api.py:92-130 | A 200 with a non-empty list whose first element is a dict yields that element's `viewers` (default 0). A 200 with a falsy body, and a 404, give "Livestream <id> not found" with that status. |
| `KickApi.ViewersResponseSuccessIff` | kick_api.py:81-142 | When a record is returned, it succeeds exactly for a 200 whose body is a non-empty list. Every failure carries an error and a status. |
| `KickApi.TimeoutResult` | src/kick_api.py:165-167 | A timeout gives "Request timed out" with no status code. |
| `KickChatListener.ChatroomIdExtraction` | src/kick_chat_listener.py:151-162 | A failed or falsy lookup, or non-dict data, gives None. Otherwise the result is `data["chatroom"]["id"]`, where a missing part reads as None and a non-dict `chatroom` raises. |
| `KickChatListener.SubscribeMessageShape` | src/kick_chat_listener.py:133-137 | The frame is exactly `{"event": "pusher:subscribe", "data": {"auth": "", "channel": "chatrooms.<id>.v2"}}`. |
| `KickChatListener.ParseEventCases` | src/kick_chat_listener.py:176-186 | A non-string event raises `ValueError`. A string `data` is decoded, or the decode error propagates. Any other `data` is used as it is. |
| `KickChatListener.ParseEventMissingData` | src/kick_chat_listener.py:180-182 | A missing `data` is read as "{}" and so becomes an empty payload. |
| `KickChatListener.ClassificationPartition` | src/kick_chat_listener.py:211-226 | Ignored events give nothing. Handled events give `parse_event`'s result. Every other hashable event, a missing one included, goes to the overflow log unchanged. An unhashable event raises `TypeError`. |
| `KickChatListener.ClassifierErrors` | src/kick_chat_listener.py:200-226 | A non-dict message raises `AttributeError`. The classifier never raises `parse_event`'s `ValueError`. A parsed event's type is a handled one. |
| `KickChatListener.KeepaliveNotDue` | src/kick_chat_listener.py:48-68 | The interval is 1200 s. Until more than that has passed, no ping is sent and the keepalive state is unchanged. |
| `KickChatListener.KeepaliveDue` | src/kick_chat_listener.py:68-94 | A pong resets the failures and moves the clock. A missed pong counts a failure and moves the clock while below three, and gives up at three. |
| `KickChatListener.KeepaliveFailuresBounded` | src/kick_chat_listener.py:76-94 | While the loop goes on, the failure count stays below three and grows by at most one per iteration. |
| `KickChatListener.ThreeMissedPongsClose` | src/kick_chat_listener.py:64-94 | Take a session that has missed two due pongs, with no pong in between and the loop still going. Frames and iterations with no ping due may come between the pings. The next due ping whose pong is missed ends the session with the keepalive closure, whatever follows. |
| `KickChatListener.ListenToChat` | src/kick_chat_listener.py:31-119 | The method's outcome, sent frames, overflow log and stored events are those of `ListenSpec`. These are the lookup, the falsy-id return, the connect, the subscribe (a closure while sending it ends the session), then the loop of keepalive, 1 s receive, classify and store. |
| `KickChatListener.FalsyChatroomNoConnection` | src/kick_chat_listener.py:45-55 | A falsy chatroom id returns normally before connecting, with nothing sent, logged or stored. |
| `KickChatListener.ConnectedSessionSubscribes` | src/kick_chat_listener.py:58-64 | Once connected, the only frame sent is the subscription for the chatroom id. A `ConnectionClosed` while sending it ends the session with that code, with nothing sent, logged or stored. |
| `KickChatListener.StoreFalseContinues` | src/kick_chat_listener.py:105-108 | A handled event is handed to storage, and a False from storage lets the loop go on. |
| `KickChatListener.ArrivalOrder` | src/kick_chat_listener.py:64-113 | A session that runs until the stop flag has handed every handled event to storage and logged every unknown message, each exactly once and in the order received. |
| `KickChatListener.LogsOnlyGrow` | src/kick_chat_listener.py:101-113 | What the loop has logged or stored is never removed, and each iteration adds at most one entry to each log. |
| `Storage.SanitizeProperties` | src/storage.py:132-151 | The storage sanitiser keeps `[a-z0-9_]` and is idempotent. It equals the utility's because both copies are built from the same lower, strip and replace steps. |
| `Storage.TableNameProperties` | src/storage.py:153-164 | The storage table name is "kickchat_" plus the sanitised name, keeps `[a-z0-9_]`, and is the same for a sanitised name. It equals the utility's table name because both are built the same way. |
| `Storage.NormalizeTimestampBranches` | src/storage.py:166-191 | A falsy value gives None. A non-empty string passes through. A `datetime`, list, dict or null gives None. |
| `Storage.NormalizersDifferOnlyOnDateTime` | src/storage.py:177-191 | The two normalisers agree on every decoded value. They differ only on a `datetime`, which gives None here and its ISO text in the utility. |
| `Storage.PrepareWithNormalizerValues` | src/storage.py:616-655 | Rows depend on the normaliser only through the values it gives. |
| `Storage.PrepareCopiesAgree` | src/storage.py:375-812 | For every event, the storage copy of the preparers returns the same row as the utility, or raises the same error. |
| `Storage.StorageDispatch` | src/storage.py:345-373 | The table is keyed by the handled events and falls back to the generic preparer. Ban and deletion rows use their own preparers. Every row carries the event type and the envelope. |
| `Cli.SevereDelayValues` | src/cli.py:108-112 | From the first to the eighth severe closure the delay is exactly `1.5 ** n`, and for the ninth and tenth it is 25.62890625. After that it is 30. The delay always lies in [1.5, 30], and up to the tenth it never exceeds 25.62890625. |
| `Cli.GenericDelayValues` | src/cli.py:129 | `2 * 2 ** (n - 1)` is `2 ** n`, and lies in [2, 1024] for the ten retried failures. |
| `Cli.EveryClosureCounts` | src/cli.py:95-100 | Every closure increments the connection counter whatever its code. Only severe codes leave the other counter alone. |
| `Cli.SevereClosureDecision` | src/cli.py:100-112 | A code 4200 or 1011 closure stops supervision exactly when it is beyond the 50th closure. Otherwise it waits the severe delay. |
| `Cli.OtherFailureDecision` | src/cli.py:121-153 | A closure with another code, or any other exception, increments the retry counter. It stops supervision exactly at the 11th, and before that waits `2 ** n` seconds. |
| `Cli.NormalReturnEnds` | src/cli.py:88-94 | A normal return from the session ends supervision without a wait. |
| `Cli.BackoffWaitControl` | src/cli.py:139-167 | A stop flag set during the wait ends supervision after that wait. A wait that times out goes round the loop again. |
| `Cli.SupervisionBounded` | src/cli.py:81-167 | From fresh counters, supervision waits at most 60 times, each wait lasting between 1.5 and 1024 seconds. |
| `Cli.SupervisionBudget` | src/cli.py:95-167 | The number of waits is at most the remaining retry budget of the two counters. |
| `Cli.WordEnd` | src/cli.py:448 | The result is the length of the run of non-whitespace characters at the start. |
| `Cli.Split` | src/cli.py:448 | Every word of `split()` is non-empty and has no whitespace. |
| `Cli.SplitWords` | src/cli.py:448 | Joined, the words of `split()` give the input without its whitespace, and there is one word per position where a run of non-whitespace starts. |
| `Cli.SplitSeparates` | src/cli.py:448 | Every input is its `split()` words woven with whitespace gaps. Each gap is whitespace, and a gap between two words is not empty. |
| `Cli.SplitOfSeparated` | src/cli.py:448 | Any layout of words (non-empty, without whitespace) between whitespace gaps, with no empty gap between two words, splits into exactly those words. With `SplitSeparates`, this makes `split()`'s result the maximal runs of non-whitespace, in order, and nothing else. |
| `Cli.SplitEmptyIffAllSpace` | src/cli.py:448-449 | A string splits into no words exactly when it is all whitespace. |
| `Cli.ParseCommandCases` | src/cli.py:445-449 | Empty input does nothing. Whitespace-only input fails at `parts[0]`. Anything else is dispatched on its words. |
| `Cli.CommandArity` | src/cli.py:451-491 | `add`, `pause`, `stats` and `resume <name>` need exactly two words, and `resume` alone starts the active channels. `exit`, `list` and `help` ignore extra words. Everything else is unknown. |
| `Cli.CommandCaseInsensitive` | src/cli.py:449 | The first word is matched without regard to ASCII case. The other words are taken as they are. |
| `Cli.PromptInputNeverFails` | src/cli.py:427 | The prompt strips its input, so the parser never fails on it, and blank input is a no-op. |
| `Cli.KickChatLogger.constructor` | src/cli.py:32-36 | A new logger is running, with empty task and stop maps. |
| `Cli.KickChatLogger.StartChannelScraping` | src/cli.py:50-70 | The method always returns True. A registered name leaves both maps unchanged. A new name gains exactly one clear stop flag and one new task. |
| `Cli.KickChatLogger.StopChannelScraping` | src/cli.py:176-205 | The result is True exactly for a registered name. That name's stop flag is set and nothing is removed. An unregistered name changes nothing. |
| `Cli.KickChatLogger.RetryLoop` | src/cli.py:81-167 | Starting from both counters at zero, the `while` loop ends for the reason `Supervise` gives and waits exactly the delays it lists. |
| `Cli.KickChatLogger.ScrapeChannelWithRetry` | src/cli.py:72-174 | The loop ends as `Supervise` says, with the same waits, and then removes the channel from both maps. |
| `Cli.KickChatLogger.Shutdown` | src/cli.py:390-403 | `running` becomes False, and every registered channel's stop flag is set. |
| `Cli.KickChatLogger.LoadAndStartActiveChannels` | src/cli.py:207-228 | Every channel stored as not paused is registered with a clear flag. Channels already registered keep their task and flag. |
| `Cli.KickChatLogger.StorageResumeChannel` | src/storage.py:888-915 | The method succeeds exactly when the sanitised name is non-empty and stored. It then clears that channel's paused flag, and otherwise changes nothing. |
| `Cli.KickChatLogger.ResumeChannel` | src/cli.py:287-308 | The storage resume is done first. On success the channel is registered under the name as given, and on failure nothing changes. |
| `Cli.KickChatLogger.ResumeAllChannels` | src/cli.py:310-329 | Every stored channel is unpaused and registered, except a stored empty name, which cannot be resumed. The method returns True. |
| `Cli.KickChatLogger.CleanupAndExit` | src/cli.py:493-503 | `running` becomes False, and the registry is left as it is. |

## Left out

- Concurrency and time are not modelled. This covers `asyncio` task creation, `wait_for` with its 5 s and 2 s grace periods, and `task.cancel`. A supervisor's outcomes and waits are inputs, and the registry operations run one at a time.
- The sockets, the HTTP client and the files are not modelled. This covers `websockets.connect`, `ping`, `recv`, `send`, `curl_cffi.get` and the overflow-file append. They become input traces and ghost logs.
- PyValues.FormatDefinedIffFieldsBound: `str.format` is modelled for text and `{name}` fields only. No template of the system uses brace escapes (`{{`), format specs (`{x:>3}`) or a lone `}` outside a field. Python raises ValueError on a lone `}`, but `Format` copies it. It would also read a format spec as part of the field name.
- Cli.KickChatLogger.ScrapeChannelWithRetry: the rounds and the close code of each `ConnectionClosed` are inputs. Whether the library reports code 1011 for the keepalive's own closure, which is raised with `sent` set and `rcvd` None, depends on the websockets library, which is not part of this model.
- KickChatListener.ListenToChat: a failure to connect is one `OSError`. A `ConnectionClosed`, whether from sending the subscription or inside the loop, ends the session with the library's code. Other errors of the subscription send are not modelled.
- KickChatListener.ListenToChat: the stop flag is not a variable. The steps are the iterations that find it clear, and the end of the trace is the flag found set.
- Floating point is not modelled. Delays and clock readings are exact `real`s, JSON payloads have no floats, and 1.5 ** k is computed exactly as 3^k / 2^k.
- Library text functions are symbolic cells. This covers `json.dumps`, `str(dict)`, `datetime.fromtimestamp(...).isoformat()` and `datetime.isoformat()`. The range errors of `fromtimestamp` are not modelled.
- SanitizeValidate.Lower: Python's Unicode `lower` is modelled on ASCII letters only; every other character is left as it is. The sanitiser properties are stated for that model. `strip` and `split` are not restricted: `SanitizeValidate.IsSpace` is Python's full whitespace set, from tab to carriage return, `\x1c` to `\x1f`, space, `\x85`, `\xa0`, `\u1680`, `\u2000` to `\u200a`, `\u2028`, `\u2029`, `\u202f`, `\u205f` and `\u3000`.
- Dict order is abstracted: payloads are `map`s, so key order in serialised output is not modelled.
- SQL storage is not modelled: the database methods of `src/storage.py`, and `src/storage/sqlite_storage.py`, `src/storage/postgresql_storage.py` and `src/storage/storage_factory.py`. The registry's storage is a map from sanitised name to paused.
- `store_event` is not modelled. Its result is the input `StoreResult`, so a preparer's `AttributeError`, which `store_event` lets through, is an input here too.
- `add_channel`, `pause_channel`, `list_channels`, `show_stats`, `initialize`, `run_cli`'s loop and `main` are not modelled: they are printing, logging and database calls around the modelled operations. The parser they drive is modelled as `Cli.ParseCommand`, and `Cli.PromptInputNeverFails` covers the strip in `run_cli`.
- `get_current_viewers`, which is commented out in `kick_api.py`, is not modelled.

## Where the code and its design differ

- A chat session whose lookup fails returns normally. The supervisor treats a normal return as the end of supervision, so a channel whose lookup fails once is not retried: `Cli.NormalReturnEnds` together with `KickChatListener.FalsyChatroomNoConnection`.
- In `stop_channel_scraping`, a task that is cancelled after the grace period never runs the supervisor's cleanup, so its entries stay in both maps. Only a supervisor that ends by itself removes them.
- The severe-closure delay up to the tenth closure is at most 1.5^8 = 25.62890625 s. The 30 s cap is reached only from the eleventh closure.
- `ping_interval` is `PING_INTERVAL_MINUTES * 20` = 1200 s, although the constant's name says minutes.
- `start_channel_scraping`, and with it `resume <name>`, registers the name as typed, while storage looks it up sanitised. So `resume XQC` and `resume xqc` can register two supervisors for one stored channel.
- The prompt's `resume` with no argument runs `load_and_start_active_channels`, not `resume_all_channels`: only the channels stored as not paused are started.
- A frame that is not valid JSON, a message that is not a dict, and an unhashable event name end the session as "other exceptions". So does a `parse_event` decode error. None of them is caught inside `listen_to_chat`.
- The storage normaliser has no `datetime` branch, so it would give None for a `datetime`. Decoded payloads never hold one, so both copies prepare identical rows (`Storage.PrepareCopiesAgree`).
- The storage's `resume_channel` treats an empty sanitised name as a missing channel, even when such a name is stored.

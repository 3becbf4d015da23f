# mcp-discord: the unread-message pipeline, the event waiter and the polling agent

mcp-discord is an MCP server. It exposes a Discord bot to AI agents as a set of tools. This
model covers the parts of it that let an agent follow a channel without missing or repeating
messages:

- **The event waiter.** It matches one incoming message against a filter made of channel,
  DM-only, mention-only, sender and a content regular expression. Waiting for a message
  registers a listener, settles a future with the first match and always removes the listener
  again.
- **Two tool branches of the server.**
  - `get_unread_messages` fetches a channel's history, either after a cursor (oldest first) or
    the latest page (newest first), filters it and formats it as text.
  - `wait_for_message` parses its arguments and awaits the event waiter.
- **`set_agent_status`.** It stores a lower-cased status and maps it to a Discord presence.
- **The numeric argument clamps** of four tools.
- **The example polling agent.** It calls `get_unread_messages` with its cursor, parses the
  text reply back into records and moves its cursor.

Modules:

- `Wrappers`: `Option` and `Result`, and Python truthiness of optional strings.
- `Decimal`: `str(int)` and `int(str)` on ids.
- `Text`: the Python string methods the source uses: `split`, `split(sep, n)`, `in`, `strip`,
  `rstrip(")")`, `lower`, `capitalize` and `join`.
- `Discord`: messages, channels and their history queries, and the `Bot` class. The bot holds
  the listener registry, the agent status and the presence.
- `Limits`, `EventWaiter`, `Unread`, `Server` and `Agent`: the core itself.

The Discord gateway is modelled as a finite trace of events. An event is a message arriving, the
awaiting task resuming, or the timeout expiring. A trace that ends before the wait does
stands for cancellation. The regular-expression engine is a parameter, `Search`. Channels are a
map from id to history. Each history is oldest first, with strictly increasing ids and creation
times that never decrease.

For the agent, the model proves three things:
- Its parser reads back exactly what the server formatted: whole records when the records are
  printable, and the ids when the text after each id line is merely delimited.
- Rounds after a cursor tile the history without gaps.
- On a cold start, the cursor rule as written repeats messages; the corrected rule does not.

## Model

| member | source | states |
|---|---|---|
| Limits.Clamp | src/discord_mcp/server.py:1571 | `min(int(arguments.get(name, default)), cap)`: the result never exceeds the cap; the default is used only when the argument is absent; a present value at or below the cap passes unchanged. |
| Limits.UnreadLimit | src/discord_mcp/server.py:1571 | `get_unread_messages` uses at most 100 messages, 20 when no limit is given. |
| Limits.ReadMessagesLimit | src/discord_mcp/server.py:760 | `read_messages` uses at most 100 messages, 10 when no limit is given. |
| Limits.MembersLimit | src/discord_mcp/server.py:953 | `list_members` uses at most 1000 members, 100 when no limit is given. |
| Limits.BanDeleteDays | src/discord_mcp/server.py:1504 | `ban_user` deletes at most 7 days of messages, 0 when not given. |
| EventWaiter.MatchIffEveryCheckHolds | src/discord_mcp/event_waiter.py:24-42 | A message matches if and only if each check that is switched on holds: channel, DM-only, mention, sender and regex. |
| EventWaiter.MessageMatchesFilters | src/discord_mcp/event_waiter.py:24-42 | `_message_matches_filters`: a matching message is in the watched channel and from the watched sender, when those are set. |
| EventWaiter.NoFilterMatchesAll | src/discord_mcp/event_waiter.py:24-42 | With every check switched off, every message matches. |
| EventWaiter.NarrowerMatchesLess | src/discord_mcp/event_waiter.py:24-42 | Switching on more checks never lets through a message the wider filter rejects. |
| EventWaiter.Deliver | src/discord_mcp/event_waiter.py:73-79 | The delivered dictionary holds the decimal id and channel id, which read back to the message's ids, plus the author, content and timestamp. |
| EventWaiter.Matched | src/discord_mcp/event_waiter.py:81-82 | The messages passed to `on_event` are never more than the events seen. |
| EventWaiter.FirstMatchIsFirstMatched | src/discord_mcp/event_waiter.py:71-72 | The future is settled by the first of all the matching messages, and stays unsettled when none match. |
| EventWaiter.SettledStaysSettled | src/discord_mcp/event_waiter.py:71 | Once the future is done, later events never change its result. |
| EventWaiter.NonMatchingLeaveUnsettled | src/discord_mcp/event_waiter.py:61-70 | A trace without a matching message neither settles the future nor calls `on_event`. |
| EventWaiter.MatchedConcat | src/discord_mcp/event_waiter.py:81-82 | `on_event` sees the matches of a trace in order: those of the first part, then those of the rest. |
| EventWaiter.MatchedMembers | src/discord_mcp/event_waiter.py:61-82 | A message reaches `on_event` if and only if it arrived and matches the filter. |
| EventWaiter.Step | src/discord_mcp/event_waiter.py:61-82 | One more event leaves a settled future as it was. Otherwise a matching event settles it. The event is appended to the `on_event` messages exactly when it matches. |
| EventWaiter.OnMessage | src/discord_mcp/event_waiter.py:61-82 | The listener sets the result only on a future that is not yet done, with the delivered dictionary of a matching message. It calls `on_event` exactly for matching messages. |
| EventWaiter.Listen | src/discord_mcp/event_waiter.py:85-88 | The wait runs until the first event that ends it. That is a resume after the future settled, or the expiry of a timeout that was set. The future then holds the first match and `on_event` has seen every match. |
| EventWaiter.WaitForMessage | src/discord_mcp/event_waiter.py:45-92 | The listener is added and then removed, so the registry ends as it began. The outcome is the first match, a timeout (only when a timeout was set and nothing matched before it) or cancellation. |
| Discord.Bot.AddListener | src/discord_mcp/event_waiter.py:85 | The listener is appended to the registry, and the registry operation is recorded. |
| Discord.Bot.RemoveListener | src/discord_mcp/event_waiter.py:89-91 | The first occurrence of the listener is removed from the registry, and the registry operation is recorded. |
| Discord.RemoveAppended | src/discord_mcp/event_waiter.py:85-91 | Removing a listener that was just appended, and was not registered before, restores the registry. |
| Discord.AfterIsSuffix | src/discord_mcp/server.py:1579-1582 | On a history with increasing ids, the messages after an id form a suffix of the history, and everything before it is not newer. |
| Discord.HistoryAfterIsRun | src/discord_mcp/server.py:1580-1582 | `history(limit, after=…, oldest_first=True)` is a contiguous run of the history that starts right after the cursor and is at most `limit` long. |
| Discord.HistoryAfter | src/discord_mcp/server.py:1580-1582 | `history(limit, after=…, oldest_first=True)` yields only messages newer than `after`, and no more than the limit allows. |
| Discord.HistoryAfterPosition | src/discord_mcp/server.py:1580-1582 | A cursor at the id of position `p` yields the messages from `p + 1` on, as many as the limit allows. |
| Discord.HistoryLatest | src/discord_mcp/server.py:1587 | `history(limit)` yields the newest `limit` messages (all of them when there are fewer), newest first. |
| Unread.Insert | src/discord_mcp/server.py:1585 | Inserting into a sorted list keeps it sorted and adds exactly that one message. |
| Unread.SortByCreated | src/discord_mcp/server.py:1585-1590 | The sort by `created_at` (optionally reversed) gives a sorted permutation of its input. |
| Unread.SortPresorted | src/discord_mcp/server.py:1585-1590 | The stable sort leaves an already sorted list unchanged. |
| Unread.SinceFetchOrder | src/discord_mcp/server.py:1578-1585 | With a cursor, the fetched page is the history page itself. It is oldest first by time and by id, and every id is above the cursor. |
| Unread.ColdFetchOrder | src/discord_mcp/server.py:1586-1590 | Without a cursor, the fetched page is the newest messages with the newest first. It is descending by time and strictly by id. |
| Unread.ToRecord | src/discord_mcp/server.py:1605-1611 | A record holds the decimal id that reads back to the message id, plus the author, timestamp and content. |
| Unread.KeptIsSelection | src/discord_mcp/server.py:1592-1612 | The filtered records are those of the fetched messages at strictly increasing positions, in order. A position is selected if and only if its message passes every check. |
| Unread.Kept | src/discord_mcp/server.py:1592-1612 | The filtered list never holds more records than there are fetched messages. |
| Unread.SelectedIff | src/discord_mcp/server.py:1594-1604 | A fetched message is kept if and only if it passes the sender, mention, DM and regex checks. |
| Unread.PassesUnread | src/discord_mcp/server.py:1594-1604 | A message that passes the `continue` guards is from the requested sender (compared as text) and, when `dm_only` is set, not in a guild. |
| Unread.UnfilteredKeepsAll | src/discord_mcp/server.py:1592-1612 | With no check switched on, every fetched message is kept, in order. |
| Unread.NothingPassesGivesEmptyBatch | src/discord_mcp/server.py:1592-1612 | When no message passes the checks, the filtered list is empty. |
| Unread.UnreadBatchBounded | src/discord_mcp/server.py:1569-1612 | A successful batch never holds more than 100 records, nor more than the clamped limit when that is positive. It is empty when the clamped limit is below one. |
| Unread.UnreadBatch | src/discord_mcp/server.py:1569-1612 | The branch only succeeds on a decimal channel id that names a known channel. |
| Unread.SinceBatchAscending | src/discord_mcp/server.py:1569-1612 | With a cursor, the batch succeeds on a known channel. Every id is decimal and greater than the cursor, and ids strictly increase. |
| Unread.ColdBatchDescending | src/discord_mcp/server.py:1569-1612 | Without a cursor, the batch succeeds on a known channel, and its ids strictly decrease. |
| Unread.EmptyBatchText | src/discord_mcp/server.py:1613-1624 | An empty batch is reported as `Unread messages (0):` followed by a blank line, not as an error. |
| Unread.FormatUnread | src/discord_mcp/server.py:1613-1624 | The reply starts with the header `Unread messages (n):` and a blank line, where `n` is the number of records, and is just that header when there are none. |
| Unread.Collect | src/discord_mcp/server.py:1580-1583 | The fetch loop collects the page exactly as the history yields it. |
| Unread.FilterMessages | src/discord_mcp/server.py:1592-1612 | The filter loop produces exactly the selection `Kept` of the fetched messages. |
| Unread.GetUnreadMessages | src/discord_mcp/server.py:1569-1624 | The tool fails exactly when the channel id or cursor is not a number or the channel is unknown. Otherwise it replies with the formatted batch. |
| Server.OptionalId | src/discord_mcp/server.py:1535-1546 | An absent or empty id means no filter. A decimal id is read as a number. Any other text raises `ValueError`. |
| Server.WaitTimeout | src/discord_mcp/server.py:1548-1552 | A timeout is set exactly when one is given and it is not zero. |
| Server.WaitFilterRoundTrip | src/discord_mcp/server.py:1535-1547 | Every filter the waiter understands can be requested through the tool's arguments. |
| Server.WaitFilter | src/discord_mcp/server.py:1535-1547 | The filter is built exactly when both the channel id and the sender id are absent, empty or decimal. It carries the DM-only, mention-only and regex arguments unchanged. |
| Server.RepliesDistinguishable | src/discord_mcp/server.py:1563-1567 | The delivery text and the timeout text differ, already in their first letter. |
| Server.ReceivedText | src/discord_mcp/server.py:1563 | The delivery text holds the message id right after `Received message: {'id': '`, closed by a quote, so a client can read the id off it. |
| Server.WaitForMessageTool | src/discord_mcp/server.py:1533-1567 | A malformed id fails before any listener is registered. Otherwise the reply reports the first match or the timeout, a cancellation propagates, and the registry ends as it began. |
| Server.DefaultActivity | src/discord_mcp/server.py:1634-1645 | The default activity text is non-empty for every non-empty status. |
| Text.Capitalize | src/discord_mcp/server.py:1644 | `capitalize()` keeps the length, upper-cases the first character and lower-cases the rest. |
| Server.PresenceFor | src/discord_mcp/server.py:1634-1645 | The bot is invisible if and only if the status is `offline`. Non-empty details are always shown; otherwise the status's default text is. |
| Server.SetAgentStatus | src/discord_mcp/server.py:1626-1652 | Stores the lower-cased status and the details, sets the presence for them, and replies with the stored status. |
| Server.OfflineAnyCase | src/discord_mcp/server.py:1627-1642 | A status spelled `offline` in any mix of case hides the bot. |
| Text.Lower | src/discord_mcp/server.py:1627 | `lower()` keeps the length, maps each character by itself, and leaves no ASCII capital. |
| Server.StatusReply | src/discord_mcp/server.py:1647-1651 | The reply starts with `Agent status set to '<status>'` and ends with a full stop; without details it is exactly that sentence. |
| Agent.ParseEntry | src/discord_mcp/agent_example.py:53-66 | A parsed entry has its id, author and content free of surrounding whitespace. |
| Agent.ParsedAt | src/discord_mcp/agent_example.py:52-67 | The k-th parsed record is the parse of the k-th piece. |
| Agent.ParsePieces | src/discord_mcp/agent_example.py:52-67 | One record is parsed per piece. |
| Agent.ParsedEntries | src/discord_mcp/agent_example.py:51-52 | There is one record per piece after the first. Text without a `\nID: ` separator parses to nothing. |
| Agent.ParseEach | src/discord_mcp/agent_example.py:52-67 | The parse loop appends exactly the parsed record of each piece, in order. |
| Agent.ParseMessages | src/discord_mcp/agent_example.py:47-67 | No result means no messages. Otherwise the messages are the parsed entries of the reply text. |
| Agent.ParseLine | src/discord_mcp/agent_example.py:53-66 | Parsing a formatted entry line of a printable record gives back that record. |
| Agent.ParsedIdOfLine | src/discord_mcp/agent_example.py:53-54 | The parser reads a delimited record's id back from its line, whatever its body holds, including several lines. |
| Agent.PrintableDelimited | src/discord_mcp/agent_example.py:51-54 | Every printable record is delimited. |
| Agent.ParseFormatted | src/discord_mcp/agent_example.py:51-67 | The agent's parser inverts the server's formatter (server.py:1613-1624) for every batch of printable records, the empty batch included. |
| Agent.ParseIds | src/discord_mcp/agent_example.py:51-67 | For every batch of delimited records, the agent reads one entry per record, each with the record's id. |
| Agent.RoundArgs | src/discord_mcp/agent_example.py:43-45 | The call passes the channel and no filter. It passes the cursor as `since_message_id` exactly when the cursor is truthy. |
| Agent.Round | src/discord_mcp/agent_example.py:43-67 | A failed `get_unread_messages` call gives the agent no messages. |
| Agent.AdvanceAsWritten | src/discord_mcp/agent_example.py:69-72 | An empty batch keeps the cursor. Otherwise the cursor becomes the id of the last entry. |
| Agent.NewestIndex | src/discord_mcp/agent_example.py:72 | Picks an entry whose id is at least every other id in the batch. |
| Agent.AdvanceToNewest | src/discord_mcp/agent_example.py:72 | An empty batch keeps the cursor. Otherwise the cursor becomes an id of the batch that is at least every id in it. |
| Agent.AdvanceRulesAgreeWhenAscending | src/discord_mcp/agent_example.py:72 | On an oldest-first batch, taking the last id and taking the greatest id agree. |
| Agent.RoundIsFetch | src/discord_mcp/agent_example.py:43-67 | On channels of printable messages, what the agent parses in a round is exactly the records of the messages the server fetched. |
| Agent.RoundBatch | src/discord_mcp/agent_example.py:43-46 | The round asks for no filter, so its call succeeds with the records of everything it fetched, in order, or fails having fetched nothing. |
| Agent.RoundFacts | src/discord_mcp/agent_example.py:43-67 | On channels whose messages are delimited (the body neither holds `\nID: ` nor starts with `ID: `), every parsed id is decimal, and with a cursor every parsed id is newer than the cursor. |
| Agent.RoundIds | src/discord_mcp/agent_example.py:43-67 | On channels of delimited messages, the agent reads one entry per fetched message, with that message's id. |
| Agent.RoundFetchAfterCursor | src/discord_mcp/agent_example.py:43-46 | With a decimal cursor, every message fetched in the round is newer than the cursor, and their ids strictly increase. |
| Agent.FetchedFromChannel | src/discord_mcp/server.py:1578-1590 | Whatever a fetch returns, with or without a cursor, is a message of the channel. |
| Agent.ExtendProcessed | src/discord_mcp/agent_example.py:69-73 | A batch newer than the cursor extends the processed history when the cursor moves to its newest id. Every processed id stays at or below the cursor, and batches stay strictly ordered. |
| Agent.AgentRound | src/discord_mcp/agent_example.py:43-67 | One round returns exactly the parsed reply of `get_unread_messages` for the current cursor. |
| Agent.RunAgent | src/discord_mcp/agent_example.py:41-74 | The agent loop with the corrected cursor rule (`AdvanceToNewest` in place of line 72), on channels of delimited messages: over any sequence of rounds no message is processed twice, the ids strictly increase from batch to batch, and the cursor is at or above every processed id. |
| Agent.SinceRoundAdvanceAgrees | src/discord_mcp/agent_example.py:69-72 | After a decimal cursor, on channels of delimited messages, the cursor as written and the corrected rule move the cursor to the same id: the two differ only on a cold start. |
| Agent.ColdRound | src/discord_mcp/agent_example.py:43-67 | On channels of printable messages, the first round without a cursor parses the newest 20 messages, newest first. |
| Agent.ColdRoundIds | src/discord_mcp/agent_example.py:43-67 | On channels of delimited messages, a cold-start round delivers the ids of the newest 20 messages, newest first. |
| Agent.RoundAfter | src/discord_mcp/agent_example.py:43-67 | On channels of printable messages, a round whose cursor is the id at position `p` parses the following messages, oldest first. |
| Agent.RoundAfterIds | src/discord_mcp/agent_example.py:43-67 | On channels of delimited messages, a round whose cursor is the id at position `p` delivers the ids of the following messages, oldest first, as many as the limit allows. |
| Agent.RoundsTile | src/discord_mcp/agent_example.py:41-74 | Rounds after a cursor leave no gap: a round after the message at position `p` delivers the ids at `p + 1`, `p + 2`, … in order, and leaves the cursor on the last of them, where the next round starts. |
| Agent.LastIsOldest | src/discord_mcp/agent_example.py:72 | On a newest-first batch, the cursor as written lands on the oldest message of the batch. |
| Agent.ColdStartRedelivers | src/discord_mcp/agent_example.py:72 | On channels of printable messages with at least two messages and no saved cursor, the second round delivers again every message of the first round but the oldest. |
| Agent.NewestIsLatest | src/discord_mcp/agent_example.py:72 | When a batch holds the ids of the newest messages, newest first, the corrected cursor is the id of the newest message of the channel. |
| Agent.ColdStartCorrected | src/discord_mcp/agent_example.py:72 | On channels of delimited messages, with the corrected cursor the round after a cold start delivers nothing again. |
| Agent.ContentForgesEntry | src/discord_mcp/agent_example.py:51-72 | For a message whose body is otherwise delimited, content that holds `\nID: ` followed by a decimal id reads back as two entries: the message's own id, then the forged id, which the cursor as written takes. |
| Text.SplitJoin | src/discord_mcp/agent_example.py:51 | `sep.join(pieces).split(sep)` gives back the pieces when none of them contains the separator (the separator does not overlap itself). |
| Text.SplitN | src/discord_mcp/agent_example.py:53 | `s.split(sep, n)` gives at most `n + 1` pieces, which joined by `sep` give back `s`. |
| Text.PartitionSplits | src/discord_mcp/agent_example.py:56-58 | `s.split(sep, 1)` guarded by `sep in s` gives the text before the first separator and the text after it. |
| Text.Partition | src/discord_mcp/agent_example.py:56-58 | The two parts of `s.split(sep, 1)` (or `(s, "")`) are together no longer than `s`. |
| Text.Strip | src/discord_mcp/agent_example.py:54-65 | `strip()` returns the text between the leading and the trailing whitespace: it is a slice of the input that starts after the leading whitespace, everything after it is whitespace, and it has no surrounding whitespace of its own. |
| Text.RStripChar | src/discord_mcp/agent_example.py:64 | `rstrip(")")` returns a prefix of the input after which every character is `)`, and that does not end in `)` itself. |
| Text.StripTrimmed | src/discord_mcp/agent_example.py:53-65 | `strip()` leaves text without surrounding whitespace unchanged. |
| Decimal.ParseShow | src/discord_mcp/server.py:1535-1546 | `int(str(n)) == n` for every id. |
| Decimal.ReadShow | src/discord_mcp/server.py:1607 | Reading back `str(n)` gives `n`. |
| Decimal.ParseInt | src/discord_mcp/server.py:1570 | `int(s)` succeeds exactly on a non-empty run of decimal digits. |
| Decimal.Show | src/discord_mcp/server.py:1607 | `str(n)` is a non-empty run of decimal digits, a single digit exactly when `n < 10`. |

## Left out

- Concurrency: the asyncio event loop, the future and `asyncio.wait_for` are modelled as a
  sequential walk over a trace of events. The timeout is an event, not a clock.
- EventWaiter.WaitForMessage: `asyncio.TimeoutError` is returned as the `TimedOut` outcome, not
  raised. The `wait_for_message` tool catches the builtin `TimeoutError`. The model treats the
  two as the same exception, which is true from Python 3.11 on.
- The regular-expression engine: it is the parameter `Search`. A pattern that fails to compile
  (`re.error`) is not modelled.
- `int(...)` accepts only a non-empty run of ASCII digits here. Signs, surrounding whitespace
  and underscores are not modelled. Ids are natural numbers.
- Server.WaitTimeout: `float(...)` of the timeout argument is taken as already parsed (a
  `real`). A malformed timeout raising `ValueError` is not modelled.
- `bool(arguments.get(...))` of `dm_only` and `mention_only` is taken as already a boolean.
- The limits are taken as integers. A float or string limit, and `int()` failing on it, are
  not modelled. A negative or zero limit passes the clamps unchanged, as in the code, and the
  history then returns nothing. No argument validation error is raised for it.
- `str.lower` and `str.capitalize` are modelled on ASCII letters only.
- Server.ReceivedText: Python's `repr` of the delivered dictionary is modelled with every
  string in single quotes and no escaping.
- Agent.ParseFormatted: the round trip is proved only for printable records. Those are records
  whose fields are single-line and trimmed, that contain none of the separators `" ("` and
  `"): "`, and whose author does not make the line look like an entry start. A message text
  that breaks these rules is parsed differently by the agent.
- The agent's loop: `agent_decision_logic`, `print`, `time.sleep`, the discarded
  `wait_for_message` call at agent_example.py:77-78, and the file I/O of `load_last_seen` and
  `save_last_seen` are not modelled. The agent starts without a saved cursor, and each round
  gets the channel state of that moment as a parameter.
- A failed `get_unread_messages` call (a non-numeric id, an unknown channel) raises inside the
  tool. The MCP framework turns the exception into an error result whose text is the exception's
  message, `str(e)`. That message quotes at most the agent's own single-line channel id or cursor,
  so it holds no `\nID: ` and the agent's parser reads no entry from it. The model gives such a
  call no text and the agent an empty batch, which is the same outcome.
- Agent.RunAgent: at-most-once processing and the ordering of batches are promised only for
  channels whose messages are delimited: the text after the id line neither holds `\nID: ` nor
  starts with `ID: `. The reply is plain text and the agent splits it at every `\nID: `
  (agent_example.py:51). A message whose content holds `\nID: ` followed by a number therefore
  reads back as two entries, and the second carries the number as its id
  (Agent.ContentForgesEntry). Line 72 may then store that forged id as the cursor, which can skip
  or repeat messages. An author name starting with `ID: ` forges an entry the same way.
- Server.SetAgentStatus: the model updates the stored status, the details and the presence in
  one atomic step. In the source, server.py:1629-1630 store the status and the details before
  `change_presence` is awaited (line 1646). If that call fails, the status stays changed while
  the presence does not.
- Network errors: `Forbidden`, `HTTPException` and connection failures raised by
  `fetch_channel`, `channel.history` and `change_presence` are not modelled. Each of these calls
  succeeds in the model, or fails only with the unknown-channel `NotFound`.
- A missing `status` argument makes `arguments["status"]` raise `KeyError` (server.py:1627).
  The model takes the status as given.
- `fetch_channel`, `channel.history` and `change_presence` are network calls into discord.py.
  They are modelled as a map of channels and as fields of the `Bot` object.
- The other tools of the server (sending, moderation, channel management) are not part of this
  model, except for the three clamps listed above.

## Findings

| source | as written | input that shows it | evidently intended | confidence | as-written member | corrected member |
|---|---|---|---|---|---|---|
| src/discord_mcp/agent_example.py:72 with src/discord_mcp/server.py:1586-1590 | On a cold start (no saved cursor) the server replies newest first, so `last_seen_id = messages[-1]["id"]` stores the id of the oldest message of the batch. The next round asks for everything after that id. | A channel with at least two messages and no saved cursor, e.g. ids 1 and 2. Round one yields [2, 1] and sets the cursor to 1. Round two yields [2] again. | The cursor should be the newest id processed, so that no message is processed twice (event_waiter.py:9-14). | not executed | Agent.ColdStartRedelivers | Agent.ColdStartCorrected (cursor rule Agent.AdvanceToNewest, used by Agent.RunAgent) |

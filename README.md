# Telegram CTF bot: a Dafny model

This project models the core of a Telegram bot for a capture-the-flag game. The bot keeps the game in Redis:
- tasks under `task:<token>`;
- each player's ledger of solved task keys under `solve:<id>`;
- conversation states under `user_state:<id>`;
- contact buffers under `contact:<id>`;
- club profiles under `user:<id>`.

Every outgoing Telegram message goes through a single rate-limited delivery loop.

The model has four layers, one module per concern.

- **`KeyValue`** (`store.dfy`) models Redis as a map from keys to decoded records plus the order in which `KEYS` lists them. A value that does not decode as the record asked for reads as absent. Reading a task or a profile fills its id from the key (`FillId`).
- **`Api`** (`api.dfy`) holds the game logic over that store.
  - Pure specification functions cover each operation:
    - flag submission (`Submit`);
    - the task-text parser (`StringToTask`);
    - place and score (`ScoreOf`);
    - task listing (`TaskList`);
    - the scoreboard (`Scoreboard`);
    - conversation states and contact buffers.
  - The class `Api.Api` owns the store and an `outbox` of queued messages. Each method is proved equal to its specification function, and the lemmas state what the function promises.
  - Examples of those lemmas:
    - a flag is credited at most once;
    - the first matching task in key order decides;
    - a new task goes under a key that held no task;
    - the place is one more than the ledgers scoring higher plus the equal ones listed earlier;
    - pasting back the fields an admin is shown restores the task.
- **`Sender`** (`sender.dfy`) is the delivery loop, as the class `Sender.MessageSender`.
  - State: the channel of at most 1024 messages; where the loop waits and the message it holds (`Phase`); a global budget reset to 30 by `Tick`; the time of each chat's last success.
  - The runtime is single-threaded (`telegram-bot/src/main.rs:37`), so producers and the replenisher run only while the loop awaits. `Step(now, transportOk)` runs the loop from one await to the next, as the function `StepEffect` says.
  - `Send` is a producer's `send`. A false result stands for the producer suspended until a slot is freed; it calls again later.
  - Lemmas on `StepEffect`:
    - the bounds are kept;
    - no message is lost or duplicated;
    - a call starts only with a token spent and the chat free;
    - a push-back goes to the tail;
    - a loop that must push back onto a full channel stays stuck for good.
- **`Bot`** (`bot.dfy`) is the handler layer.
  - Command classification (`ParseCommand`).
  - The three handlers as step functions on the store: `CommandStep`, `DataStep` (plain texts, read according to the sender's conversation state) and `CallbackStep` (inline-keyboard presses).
  - Methods `ProcessCommand`, `ProcessData`, `CallbackHandler` and `AnswerMessages`, each proved equal to its step function.
  - `AnswerMessages` packs the replies as the code does (`PackAsWritten`, sent by `SendPackedAsWritten`), which can lose a reply. The corrected packing is `Pack`, sent by `SendPacked`.
  - Lemmas for the conversation state machine (`NextState`), the admin and game-window gates, and reply packing.
- **`Text`** (`text.dfy`) holds the reply formatters.
  - The score wording is checked against the Russian plural rule. It differs at 21 (written «баллов») and above 100 where the last two digits are 11 to 14 (111 is written «балл»).
  - The sentinel of `format_score`.
  - The `hidden:` prefix of `format_task_admin`.
  - The optional topic of `format_message`.
- **Shared modules:** `Strings` (`strings.dfy`) states the parts of Rust's string API that the core uses. `Sorting` (`sorting.dfy`) is a stable insertion sort standing for `sort_by`, with the rank formula of a descending score sort. `Wrappers` (`wrappers.dfy`) holds `Option` and `Result`.

External inputs are parameters:
- `now` is the clock;
- `tokens` is the supply of UUID prefixes;
- `secret` is the `BOTFLAG` environment variable;
- `transportOk`, `documentOk`, `hasMessage` and `deleteOk` are the outcomes of Telegram calls.

Points where the code's behaviour is easy to misread:
- The scoreboard zeroes the score of test users only (`telegram-bot/src/api.rs:557`). Admins keep their ledger score on the board, although they are hidden in `get_score`.
- In `create_task` the first token is drawn before the lock is taken. Only the collision loop runs under the lock. The sequential model does not distinguish the two.
- A deferred or failed message is pushed back with an awaited `send` on the loop's own channel (`telegram-bot/src/sender.rs:116`, `:134`). The error branch at `telegram-bot/src/sender.rs:116-122` sleeps out the spacing and keeps the message in hand, but it runs only when `send` fails, on a closed channel. On a full channel `send` does not fail: it waits for room that only this loop can make. `Step` follows the code: `Blocked`, then `Stalled` for good. A push-back that falls back to a retry in place is `IntendedStepEffect` (see Findings). There a deferred message sleeps out its window, as the error branch does, and a failed call goes back to the budget poll, so both limits still hold.

After `/edit` or `/delete`, the conversation state is `edit` or `delete`. Those states are meant for the keyboard callback. A plain text in either of them falls to the reset branch of `process_data` and gets the "not implemented" reply; this is what `DataStep` models.

## Model

| member | source | states |
|---|---|---|
| Strings.Trim | telegram-bot/src/api.rs:325 | `trim`: no whitespace at either end; already-trimmed text is returned unchanged |
| Strings.TrimStart | telegram-bot/src/api.rs:325 | the result is a suffix of the input, every dropped character is whitespace, and it does not start with whitespace |
| Strings.TrimEnd | telegram-bot/src/api.rs:325 | the result is a prefix of the input, every dropped character is whitespace, and it does not end with whitespace |
| Strings.Lower | telegram-bot/src/api.rs:325 | `to_lowercase`: same length, each character lowered |
| Strings.LowerProperties | telegram-bot/src/api.rs:325 | lowercased text is lowercase, keeps being trimmed, and lowercase text is fixed |
| Strings.IndexOf | telegram-bot/src/main.rs:130 | the first occurrence of the separator: it is there and nowhere before |
| Strings.LastSegment | telegram-bot/src/api.rs:77-83 | `split(sep).next_back()`: a separator-free suffix of the text, the whole text when there is no separator |
| Strings.Split | telegram-bot/src/api.rs:493 | `split` always yields at least one piece |
| Strings.SplitAvoids | telegram-bot/src/main.rs:130 | no piece of a split holds the separator |
| Strings.SplitSingle | telegram-bot/src/api.rs:496 | a split has exactly one piece iff the separator does not occur |
| Strings.JoinSplit | telegram-bot/src/text.rs:119 | joining the pieces of a split with the separator restores the text |
| Strings.SplitJoin | telegram-bot/src/api.rs:492-495 | splitting a join of separator-free pieces restores the pieces |
| Strings.SplitAfterPiece | telegram-bot/src/api.rs:492-495 | a separator-free first piece comes out first and the rest is split as usual |
| Strings.SplitBeforePiece | telegram-bot/src/api.rs:79 | a separator-free last piece comes out last |
| Strings.LastSegmentAfterSeparator | telegram-bot/src/api.rs:77-83 | `split(sep).next_back()` of `prefix:x` is `x` when `x` has no separator |
| Strings.SplitLastNonEmpty | telegram-bot/src/api.rs:485 | text that does not end in the separator has a non-empty last piece |
| Strings.Lines | telegram-bot/src/api.rs:483-485 | `lines`: the pieces between line feeds, without a final empty piece |
| Strings.LinesNoFinalFeed | telegram-bot/src/api.rs:483-487 | `lines` of text without a final line feed are its line-feed pieces |
| Strings.LinesOfThree | telegram-bot/src/api.rs:483-487 | the lines of `a\nb\nc` are `a`, `b` and the lines of `c` |
| Strings.TrimAll | telegram-bot/src/api.rs:486 | every line trimmed, the count kept |
| Strings.JoinTrimmed | telegram-bot/src/api.rs:503 | joining trimmed pieces with a trimmed separator gives trimmed text |
| Strings.JoinFront | telegram-bot/src/api.rs:503 | the join of a head and a tail is the head, the separator, then the joined tail |
| Strings.Join | telegram-bot/src/text.rs:119 | `join`: empty for no pieces; otherwise the text opens with the first piece |
| Strings.JoinEndsWithLast | telegram-bot/src/text.rs:119 | a join closes with its last piece |
| Strings.DigitChar | telegram-bot/src/api.rs:274 | a digit character whose value is the digit |
| Strings.DigitValue | telegram-bot/src/api.rs:70 | a digit's value is below 10 |
| Strings.NatToString | telegram-bot/src/api.rs:274 | `to_string` of an integer: decimal digits with no leading zero |
| Strings.DigitsOfNatToString | telegram-bot/src/api.rs:70 | reading back a rendered integer gives the integer |
| Strings.NatToStringInjective | telegram-bot/src/api.rs:274 | different ids render to different keys |
| Strings.ParseI64 | telegram-bot/src/api.rs:70 | `parse::<i64>` succeeds only within the i64 range |
| Strings.ParseU64 | telegram-bot/src/api.rs:473-477 | `parse::<u64>`: an optional '+', then at least one digit, value at most `u64::MAX` |
| Strings.ParseNatToString | telegram-bot/src/api.rs:473-477 | parsing a rendered u64 (or non-negative i64) gives it back |
| Strings.ByteLenConcat | telegram-bot/src/main.rs:94 | `String::len` of a concatenation is the sum of the lengths |
| Strings.ByteLen | telegram-bot/src/main.rs:94 | `String::len`: the UTF-8 length, between one and four bytes per character |
| Strings.LexLeTotal | telegram-bot/src/api.rs:437 | the byte-wise string order is total |
| Strings.LexLeTransitive | telegram-bot/src/api.rs:437 | the byte-wise string order is transitive |
| Strings.LexLe | telegram-bot/src/api.rs:437 | `String` order: a prefix sorts first, and the first characters decide between non-empty texts |
| Sorting.Insert | telegram-bot/src/api.rs:389 | inserting adds exactly that element |
| Sorting.SortBy | telegram-bot/src/api.rs:389 | `sort_by` returns a permutation of its input |
| Sorting.InsertSorted | telegram-bot/src/api.rs:437 | inserting into a sorted sequence keeps it sorted under a total preorder |
| Sorting.SortBySorted | telegram-bot/src/api.rs:437 | `sort_by` under a total preorder yields a sorted sequence |
| Sorting.ScoreAtLeastIsPreorder | telegram-bot/src/api.rs:389 | descending by score is a total preorder |
| Sorting.SortedByScore | telegram-bot/src/api.rs:563 | the descending score sort is sorted |
| Sorting.CountAbove | telegram-bot/src/api.rs:389 | the number of entries scoring strictly more is at most the length |
| Sorting.IndexOfKey | telegram-bot/src/api.rs:391-396 | the first position holding the key, or the length |
| Sorting.IndexOfKeyUnique | telegram-bot/src/api.rs:391-396 | a loop that stops at the first hit finds that position |
| Sorting.CountAboveNone | telegram-bot/src/api.rs:389 | no entry above the top score |
| Sorting.CountAboveInsert | telegram-bot/src/api.rs:389 | inserting counts one more above iff the new score is higher |
| Sorting.CountAboveSort | telegram-bot/src/api.rs:389 | sorting keeps the count above any score |
| Sorting.InsertPositionOfNew | telegram-bot/src/api.rs:389 | a new entry lands after every higher score, before equal ones |
| Sorting.InsertPositionOfOther | telegram-bot/src/api.rs:389 | an existing entry moves back one exactly when the new score is at least its own |
| Sorting.PositionAfterSort | telegram-bot/src/api.rs:389 | a stable descending sort puts entry i after the higher scores and the equal ones listed before it |
| Sorting.PositionOfHead | telegram-bot/src/api.rs:389 | the first entry lands right after the higher scores |
| Sorting.PositionOfLater | telegram-bot/src/api.rs:389 | the position of a later entry follows from its position among the rest |
| Sorting.InsertAbsent | telegram-bot/src/api.rs:396 | an absent key stays absent after an insertion |
| Sorting.AbsentAfterSort | telegram-bot/src/api.rs:396 | an absent key stays absent after sorting |
| KeyValue.DistinctAppend | telegram-bot/src/api.rs:317-322 | appending a new key keeps the key list duplicate-free |
| KeyValue.Filter | telegram-bot/src/api.rs:317-322 | `KEYS prefix*`: exactly the listed keys with the prefix, without duplicates |
| KeyValue.Without | telegram-bot/src/api.rs:266-271 | exactly the keys other than the deleted one, without duplicates |
| KeyValue.FilterAppend | telegram-bot/src/api.rs:317-322 | filtering a list with one more key adds that key iff it matches |
| KeyValue.Store.Put | telegram-bot/src/api.rs:254-264 | `SET`: the key holds the value, a new key is listed last, every other key is unchanged, validity is kept |
| KeyValue.Store.Delete | telegram-bot/src/api.rs:266-271 | `DEL`: the key is gone from data and listing, validity is kept |
| KeyValue.Store.Keys | telegram-bot/src/api.rs:317-322 | exactly the stored keys with the prefix, each once |
| KeyValue.KeysAfterPut | telegram-bot/src/api.rs:317-322 | writing outside a namespace leaves its listing as it was |
| KeyValue.Store.ReadTask | telegram-bot/src/api.rs:240-252 | a stored task decoded, its id set to the key's last ':'-segment; anything else reads as absent |
| KeyValue.Store.ReadProfile | telegram-bot/src/api.rs:240-252 | a stored profile decoded, its telegram id the key's last ':'-segment read as i64, or 0 |
| KeyValue.Store.ReadText | telegram-bot/src/api.rs:240-252 | `collect_from_cache::<String>`: a stored text; a missing key, another record or bytes that do not decode read as absent |
| KeyValue.Store.ReadSolve | telegram-bot/src/api.rs:240-252 | `collect_from_cache::<Solve>`: a stored ledger; anything else reads as absent |
| KeyValue.Store.PutTask | telegram-bot/src/api.rs:254-264 | `put_into_cache` of a task: it reads back under that key with the id filled from the key, every other key reads as before, validity is kept |
| KeyValue.ReadAfterPut | telegram-bot/src/api.rs:240-264 | a text or a ledger written reads back; every other key reads as the same text or ledger as before |
| KeyValue.RecordsAfterPut | telegram-bot/src/api.rs:240-264 | a write to one key leaves what every other key reads as a task or a profile |
| KeyValue.TasksAfterDelete | telegram-bot/src/api.rs:266-271 | a deleted key reads as no task; every other key reads as before |
| KeyValue.TaskIdIsToken | telegram-bot/src/api.rs:77-83 | a task read from `task:<token>` carries the token as its id |
| KeyValue.ProfileIdFromKey | telegram-bot/src/api.rs:64-75 | a profile read from `user:<n>` carries telegram id n |
| Text.Word | telegram-bot/src/text.rs:83-92 | the suffix is one of «балл», «балла», «баллов» |
| Text.WordInjective | telegram-bot/src/text.rs:83-92 | the three forms are distinct words |
| Text.ScoreSuffixAgainstGrammar | telegram-bot/src/text.rs:82-94 | the suffix agrees with the Russian plural rule iff the score is not 21 and not one above 100 ending in 11 to 14 |
| Text.ScoreForm | telegram-bot/src/text.rs:82-94 | the form the code's `match` picks: explicit ranges up to 21, then the last digit alone |
| Text.RussianForm | telegram-bot/src/text.rs:82-94 | the Russian plural rule, as a reference for the corrected wording |
| Text.RussianFormCorrects | telegram-bot/src/text.rs:82-94 | the rule agrees with the code up to 20, repeats every hundred, and gives «балл» at 21 and «баллов» at 111 |
| Text.Score | telegram-bot/src/text.rs:82-94 | the decimal score, a space, the word for its form |
| Text.ScoreShape | telegram-bot/src/text.rs:93 | the score text is the decimal score, one space, then the suffix |
| Text.FormatScore | telegram-bot/src/text.rs:98-104 | the test-group text exactly when the place is `u64::MAX`, otherwise the place; always ending with the score |
| Text.FormatScoreBoard | telegram-bot/src/text.rs:95-97 | one board line: place, ". ", full name, slug in brackets, " - ", the score text, a line feed |
| Text.FormatTaskUser | telegram-bot/src/text.rs:105-114 | a task card: bold name, italic hint, a spoiler with `/contact_<id>`, then a rule |
| Text.AdminFields | telegram-bot/src/text.rs:116-132 | the first field line is `hidden:` plus the name for a hidden task, the bare name otherwise |
| Text.FlagText | telegram-bot/src/text.rs:117-120 | a single answer verbatim; several answers without ',' split back out of their ','-join one by one |
| Text.CommaJoinSplits | telegram-bot/src/text.rs:119 | answers without ',' come back out of their ','-join |
| Text.FormatTaskAdmin | telegram-bot/src/text.rs:116-132 | header and footer around the fields; for a name not itself starting with `hidden:`, the prefix appears iff the task is hidden |
| Text.StartsWithExtended | telegram-bot/src/text.rs:122-131 | a prefix of a text is a prefix of any extension |
| Text.PlainFieldsNotHidden | telegram-bot/src/text.rs:121 | a visible task's fields never start with `hidden:` |
| Text.FormatSolved | telegram-bot/src/text.rs:134-136 | the solved notice around the task name in bold |
| Text.FormatDeleted | telegram-bot/src/text.rs:138-140 | the task name sits verbatim between the fixed head and the "deleted" tail |
| Text.FormatModified | telegram-bot/src/text.rs:142-144 | the task name sits verbatim between the fixed head and the "modified" tail |
| Text.FormatCreated | telegram-bot/src/text.rs:146-148 | the task name sits verbatim between the fixed head and the "created" tail |
| Text.NoticesDistinct | telegram-bot/src/text.rs:138-148 | the deleted, modified and created notices for one name are three different texts |
| Text.FormatMessageBroadcast | telegram-bot/src/text.rs:150-155 | a fixed bold header line, then the text verbatim |
| Text.FormatMessage | telegram-bot/src/text.rs:157-174 | sender first; the topic clause with the task name iff a task is given; the message at the end |
| Text.FormatError | telegram-bot/src/text.rs:175-177 | a fixed head, then the error text verbatim |
| Text.FormatSolvedAdmin | telegram-bot/src/text.rs:179-181 | a fixed head, the solver, a fixed middle, then the task name at the end |
| Sender.FromText | telegram-bot/src/sender.rs:33-40 | a plain message: chat, text, no markup |
| Sender.FromTextWithMarkup | telegram-bot/src/sender.rs:42-49 | the markup travels unchanged |
| Sender.MessageSender.constructor | telegram-bot/src/sender.rs:61-90 | empty channel, the loop waiting in `recv`, full budget of 30, no timeouts |
| Sender.MessageSender.Send | telegram-bot/src/sender.rs:63-69 | a producer's message joins the tail iff the channel holds fewer than 1024; a refusal stands for the producer's suspension; nothing else changes |
| Sender.MessageSender.Tick | telegram-bot/src/sender.rs:93-98 | the budget is back to 30 and nothing else changes |
| Sender.MessageSender.PutBack | telegram-bot/src/sender.rs:116-136 | the state and result become `PushBackEffect` as written: the message at the tail when there is room, the loop waiting in `PushBack` otherwise |
| Sender.MessageSender.TakeToken | telegram-bot/src/sender.rs:102-128 | the state and result become `BudgetEffect` |
| Sender.MessageSender.Finish | telegram-bot/src/sender.rs:129-139 | the state and result become `CallEffect` |
| Sender.MessageSender.Step | telegram-bot/src/sender.rs:100-140 | the bounds are kept, and the new state and the result are `StepEffect` of the old state (rules below this table) |
| Sender.PushBackEffect | telegram-bot/src/sender.rs:116-136 | the push-back: to the tail when there is room; otherwise, as written, wait in `PushBack`; in place, a deferred message sleeps out its window (`Spacing`) and any other goes back to the budget poll |
| Sender.SpacingEffect | telegram-bot/src/sender.rs:116-126 | the sleep of the error branch: the call starts, without another token, once the chat's window has passed; until then nothing changes |
| Sender.MessageSender.Sleep | telegram-bot/src/sender.rs:116-126 | the state and result become `SpacingEffect` |
| Sender.BudgetEffect | telegram-bot/src/sender.rs:102-128 | no token: wait; otherwise a token spent, then a held-back chat pushes the message back and a free one starts the call |
| Sender.CallEffect | telegram-bot/src/sender.rs:129-139 | success delivers the message and records `now` for its chat; failure pushes it back |
| Sender.StepWith | telegram-bot/src/sender.rs:100-140 | one segment of the loop under either push-back policy |
| Sender.StepEffect | telegram-bot/src/sender.rs:100-140 | one segment of the loop as written |
| Sender.IntendedStepEffect | telegram-bot/src/sender.rs:116-136 | one segment with a push-back that falls back to a retry in place: a deferral sleeps out its window as the error branch at lines 116-122 does, and a failed call polls the budget again |
| Sender.StepKeepsBounds | telegram-bot/src/sender.rs:63-110 | under either policy the budget stays within [0, 30] and the channel within 1024 |
| Sender.StepConserves | telegram-bot/src/sender.rs:100-140 | under either policy the queued and held messages, plus the one delivered, are the messages pending before |
| Sender.ReceiveConserves | telegram-bot/src/sender.rs:100-110 | taking the head into hand, then polling the budget, keeps the pending messages |
| Sender.CallConserves | telegram-bot/src/sender.rs:129-139 | the end of a call delivers the message or keeps it pending |
| Sender.PushBackConserves | telegram-bot/src/sender.rs:116-136 | a push-back keeps the pending messages and delivers none |
| Sender.BudgetConserves | telegram-bot/src/sender.rs:102-128 | the budget poll keeps the pending messages and delivers none |
| Sender.StalledStays | telegram-bot/src/sender.rs:116-136 | a loop waiting to push back onto a full channel is left exactly as it is by every segment |
| Sender.BlockedIffStalled | telegram-bot/src/sender.rs:116-136 | a segment reports `Blocked` iff it leaves the loop waiting on a full channel |
| Sender.DeliveryRecordsTime | telegram-bot/src/sender.rs:129-139 | under either policy a message is delivered iff a call succeeds; only then does a chat's time change, to `now`, for that chat |
| Sender.StartNeedsTokenAndSpacing | telegram-bot/src/sender.rs:102-128 | under either policy: the budget never grows in the loop; the call is entered only by a start, and only when the chat is free; a start from the budget poll spends a token, one after the spacing sleep uses the token spent before it; a deferral spends a token too; `Throttled` only without a token |
| Sender.AsWrittenNeverSleeps | telegram-bot/src/sender.rs:116-122 | the loop as written never enters the spacing sleep: that branch needs a closed channel |
| Sender.IntendedKeepsLimits | telegram-bot/src/sender.rs:116-136 | with the retry in place the sleep is entered only by a deferral of a held-back chat, at the cost of one token; it ends in the call exactly when the window has passed; a failed call goes back to the budget poll |
| Sender.RetryInPlaceWaitsOutWindow | telegram-bot/src/sender.rs:112-126 | on a full channel, a message 10 ms after its chat's last success is still waiting at 999 ms and starts its call at 1000 ms, on one token |
| Sender.PushBackToTail | telegram-bot/src/sender.rs:112-136 | a message pushed back lands behind everything queued, and the loop waits in `recv` again |
| Sender.IntendedNeverStalls | telegram-bot/src/sender.rs:116-122 | with the retry in place, no segment blocks or leaves the loop waiting on its own channel |
| Sender.FullChannelStalls | telegram-bot/src/sender.rs:100-136 | a reachable run: 1024 queued, one taken into a Telegram call, a producer refilling the slot, the call failing: the loop is stuck |
| Sender.SpacingAfterSuccess | telegram-bot/src/sender.rs:112-138 | after a success at t, the same chat is held back until t + 1000 ms; other chats are unaffected |
| Sender.TooSoon | telegram-bot/src/sender.rs:112-114 | no record, or a recorded time after `now` (the elapsed time cannot be computed), never holds the chat back; otherwise it is held back exactly until 1000 ms after the record |
| Api.AsI64 | telegram-bot/src/api.rs:186 | `as i64` lands in the i64 range |
| Api.CastsRoundTrip | telegram-bot/src/api.rs:185-187 | `as i64` and `as u64` undo each other |
| Api.ListedAsU64 | telegram-bot/src/api.rs:184-190 | `u as i64` is listed iff some listed i64, read as u64, is `u` |
| Api.IsTestUser | telegram-bot/src/api.rs:184-186 | the id is a test user iff some i64 entry of the test group, read as u64, is the id |
| Api.IsAdmin | telegram-bot/src/api.rs:188-190 | the id is an admin iff some i64 entry of the admin group, read as u64, is the id |
| Api.CanProcessCommand | telegram-bot/src/api.rs:192-202 | test and admin users may always play; everyone else exactly when `now` is strictly inside the event window |
| Api.CanProcessCommandWindow | telegram-bot/src/api.rs:185-202 | inside the open window everyone may play; outside it, exactly test and admin users; `u64::MAX` is a test user iff -1 is listed |
| Api.KeysDistinct | telegram-bot/src/api.rs:273-285 | the key namespaces are disjoint, and users' keys are pairwise distinct |
| Api.Normalize | telegram-bot/src/api.rs:325 | the attempt is trimmed and lowercase |
| Api.NormalizeIdempotent | telegram-bot/src/api.rs:325 | normalising twice is normalising once |
| Api.FirstMatch | telegram-bot/src/api.rs:326-331 | the first task key whose flag accepts the attempt, or the end; none before it matches |
| Api.FirstMatchUnique | telegram-bot/src/api.rs:326-331 | any position with that property is the first match |
| Api.WithSolvedFrame | telegram-bot/src/api.rs:363-374 | `set_solved` appends the key to this user's ledger (creating it), and leaves other ledgers, the task keys and the tasks alone |
| Api.SolveKeyInjective | telegram-bot/src/api.rs:350 | different users have different ledger keys |
| Api.SolveKeyOutsideTasks | telegram-bot/src/api.rs:350 | no ledger key is a task key |
| Api.Submit | telegram-bot/src/api.rs:324-347 | `try_submit_flag` on a store: the first task whose flag accepts the normalised text decides the result; a new solve is appended to the ledger |
| Api.WithSolved | telegram-bot/src/api.rs:363-374 | the user's ledger with the task key appended, created when absent |
| Api.SubmitNotAFlag | telegram-bot/src/api.rs:324-347 | `NotAFlag` iff no task accepts the normalised text, and then the store is unchanged |
| Api.SubmitFirstMatch | telegram-bot/src/api.rs:326-343 | the first match decides: `AlreadySolved` iff its key is in the ledger (store unchanged); otherwise its name is returned and its key is appended to the ledger |
| Api.SubmitKeepsLedgerDistinct | telegram-bot/src/api.rs:334-339 | a duplicate-free ledger stays duplicate-free; other ledgers are unchanged |
| Api.SubmitTwice | telegram-bot/src/api.rs:334-339 | submitting a solved flag again gives `AlreadySolved` and changes nothing |
| Api.NormalizeAll | telegram-bot/src/api.rs:492-495 | each flag part is normalised |
| Api.ParseFlag | telegram-bot/src/api.rs:491-501 | `Single` iff the line has no ','; every answer normalised |
| Api.NormalizeAllNormal | telegram-bot/src/api.rs:492-495 | every normalised part is a fixed point of normalisation |
| Api.NormalizeAllFixed | telegram-bot/src/api.rs:492-495 | normalising normalised parts changes nothing |
| Api.ParseName | telegram-bot/src/api.rs:502-512 | `hidden` iff the line starts with `hidden:`, which is stripped; the name is trimmed |
| Api.TaskOfLines | telegram-bot/src/api.rs:488-517 | an error iff there are fewer than 3 lines; otherwise an empty id, trimmed name and hint, and normalised answers |
| Api.StringToTask | telegram-bot/src/api.rs:482-518 | the same, on the text's trimmed lines |
| Api.ParsedAnswersAccepted | telegram-bot/src/api.rs:491-501 | every answer of a parsed task is accepted when submitted |
| Api.EditRoundTrip | telegram-bot/src/api.rs:482-518 | parsing the fields `format_task_admin` shows gives back the task, with an empty id |
| Api.FieldLines | telegram-bot/src/api.rs:483-487 | the trimmed lines of those fields are the first line, the flag text, and the hint's lines |
| Api.TaskOfFieldLines | telegram-bot/src/api.rs:488-517 | those lines parse to the task |
| Api.LinesOfFields | telegram-bot/src/api.rs:483-487 | the lines of the fields, before trimming |
| Api.TrimAllTrimmed | telegram-bot/src/api.rs:486 | trimming trimmed lines changes nothing |
| Api.ParseNameOfFirstLine | telegram-bot/src/api.rs:502-512 | the first field line parses to the name and the hidden flag |
| Api.FlagTextNoSeparator | telegram-bot/src/text.rs:117-120 | the flag text holds no character that no answer holds (other than ',') |
| Api.JoinAvoids | telegram-bot/src/text.rs:119 | joining with ',' adds no other character |
| Api.FirstLineTrimmed | telegram-bot/src/text.rs:121-125 | the first field line is trimmed |
| Api.FlagTextTrimmed | telegram-bot/src/text.rs:117-120 | the flag text of normalised answers is trimmed |
| Api.FlagTextSplits | telegram-bot/src/api.rs:491-501 | the rendered flag parses back to the same flag |
| Api.ScoreEntries | telegram-bot/src/api.rs:380-387 | one (key, ledger length) pair per ledger key, in listing order |
| Api.ScoreOf | telegram-bot/src/api.rs:376-403 | `get_score` on a store: stable descending sort of the ledgers, place = 1-based index, (ledger count + 1, 0) without a ledger, `u64::MAX` as the place of test and admin users |
| Api.ScoreRank | telegram-bot/src/api.rs:376-403 | score = ledger length; place = 1 + higher-scoring ledgers + equal ones listed earlier; without a ledger (count + 1, 0); test and admin users `u64::MAX` |
| Api.ScoreRankAt | telegram-bot/src/api.rs:388-397 | the position of a key after the descending sort, and its score there |
| Api.EntriesDistinct | telegram-bot/src/api.rs:380-387 | distinct keys give entries with distinct keys |
| Api.NameLeIsPreorder | telegram-bot/src/api.rs:437 | ordering by name is a total preorder |
| Api.OpenTasks | telegram-bot/src/api.rs:428-436 | exactly the readable, visible tasks of the listed keys that the user has not solved (all of them for user 0) |
| Api.OpenTasksStep | telegram-bot/src/api.rs:428-436 | one more key adds its task to the list exactly when that task is listed |
| Api.TaskList | telegram-bot/src/api.rs:426-439 | `list_tasks` on a store: the open tasks sorted by name |
| Api.TaskListProperties | telegram-bot/src/api.rs:426-439 | sorted by name, a permutation of the open tasks, none hidden, and membership iff open |
| Api.BoardEntries | telegram-bot/src/api.rs:548-562 | exactly one entry per `user:` key with a readable profile |
| Api.Scoreboard | telegram-bot/src/api.rs:546-566 | `get_scoreboard` on a store: the profile entries sorted by descending score |
| Api.ScoreboardProperties | telegram-bot/src/api.rs:546-566 | sorted by descending score, a permutation of the entries, membership iff a profile exists, and test users show 0 |
| Api.SameElements | telegram-bot/src/api.rs:563 | permutations have the same members |
| Api.TestUserEntry | telegram-bot/src/api.rs:557-558 | a test user's entry scores 0 |
| Api.AllUsers | telegram-bot/src/api.rs:468-480 | one id per `user:` key |
| Api.AllUsersRecoversIds | telegram-bot/src/api.rs:468-480 | the key `user:<n>` yields the id n |
| Api.UserState | telegram-bot/src/api.rs:273-278 | a state is the stored non-empty text; a missing or empty one is none |
| Api.UserStateAfterSet | telegram-bot/src/api.rs:280-284 | a written state reads back (the empty one as none); other users keep theirs |
| Api.ContactAccumulates | telegram-bot/src/api.rs:446-456 | a buffer after appends is the texts joined by line feeds; after an erase, a leading line feed stays |
| Api.AppendAllJoins | telegram-bot/src/api.rs:446-456 | appending texts to a buffer gives the buffer and the texts joined by line feeds |
| Api.AppendStep | telegram-bot/src/api.rs:449-450 | one append step regroups the join |
| Api.JoinCons | telegram-bot/src/api.rs:449-450 | joining a buffer before the texts |
| Api.Appended | telegram-bot/src/api.rs:446-456 | no buffer: just the text; otherwise the buffer and the text joined by a line feed; the text always ends the buffer |
| Api.FirstFree | telegram-bot/src/api.rs:414-419 | the first token whose task key is free, or the end; all earlier ones are taken |
| Api.FirstFreeUnique | telegram-bot/src/api.rs:414-419 | any free token bounds it, and a free token after only taken ones is it |
| Api.Api.constructor | telegram-bot/src/api.rs:215-238 | the given store and configuration, nothing queued |
| Api.Api.SendMessage | telegram-bot/src/api.rs:178-183 | one plain message queued |
| Api.Api.SendMessageWithMarkup | telegram-bot/src/api.rs:204-214 | one message with the keyboard queued |
| Api.Api.SendNotification | telegram-bot/src/api.rs:172-177 | one message per notify-group chat, in order |
| Api.Notification | telegram-bot/src/api.rs:172-177 | one plain message per notify-group chat, in the group's order, each carrying the text |
| Api.Api.IsSolved | telegram-bot/src/api.rs:349-361 | true iff the key is in the user's ledger |
| Api.Api.SetSolved | telegram-bot/src/api.rs:363-374 | the store becomes `WithSolved` |
| Api.Api.TrySubmitFlag | telegram-bot/src/api.rs:324-347 | result and store as `Submit` says, nothing queued |
| Api.Api.FindTask | telegram-bot/src/api.rs:326-331 | the loop finds `FirstMatch` |
| Api.Api.FreeToken | telegram-bot/src/api.rs:414-419 | the loop stops at `FirstFree`, whose key is free |
| Api.Api.CreateTask | telegram-bot/src/api.rs:405-424 | a parse error leaves the store; otherwise the key `task:<first free token>`, absent before, now holds the parsed task |
| Api.Api.EditTask | telegram-bot/src/api.rs:520-534 | a parse error leaves the store; otherwise the task written under `task:<id>` |
| Api.Api.DeleteTask | telegram-bot/src/api.rs:535-544 | the task key deleted |
| Api.Api.GetTask | telegram-bot/src/api.rs:441-444 | a task found under `task:<id>` carries that id |
| Api.Api.SetUserState | telegram-bot/src/api.rs:280-284 | the state key written |
| Api.Api.AppendToContact | telegram-bot/src/api.rs:446-456 | the buffer becomes old + "\n" + text, or text when there was none |
| Api.Api.RetrieveAndEraseContact | telegram-bot/src/api.rs:458-466 | the old buffer (or "") is returned and "" left behind |
| Api.Api.GetScore | telegram-bot/src/api.rs:376-403 | the loops and the sort compute `ScoreOf` |
| Api.Api.ListTasks | telegram-bot/src/api.rs:426-439 | the loop and the sort compute `TaskList` |
| Api.Api.GetScoreboard | telegram-bot/src/api.rs:546-566 | the loop and the sort compute `Scoreboard` |
| Bot.StateAfterOtherPut | telegram-bot/src/api.rs:280-284 | a write to another key keeps a user's state |
| Bot.SetState | telegram-bot/src/api.rs:280-284 | `set_user_state`: the user's state then reads back as the one written, the empty one as none |
| Bot.ParseCommand | telegram-bot/src/main.rs:127-154 | `UserContact` iff the text starts with `/contact`; `UserHelp` iff `/start` or `/help`; `Unknown` iff neither a contact request nor an exact command word |
| Bot.ParseCommandText | telegram-bot/src/main.rs:127-154 | every command is read back from its text (a topic when trimmed and free of '_') |
| Bot.ContactTextParses | telegram-bot/src/main.rs:129-135 | `/contact` and `/contact_<topic>` read back as the contact command with that topic |
| Bot.ContactStateTopic | telegram-bot/src/main.rs:265-271 | the state a contact command leaves starts with `contact` and names the task it was about |
| Bot.Topic | telegram-bot/src/main.rs:362-368 | a state without '_' names no task; a named task has exactly two '_'-pieces and is stored under `task:` plus the second |
| Bot.EditStateNamesTask | telegram-bot/src/main.rs:407-408 | the state `edit_<id>` is read back as an edit of task id |
| Bot.BoardTextLeader | telegram-bot/src/main.rs:237-244 | the board text starts with the leader's line at place 1 |
| Bot.BoardText | telegram-bot/src/main.rs:240-243 | empty exactly for an empty board; otherwise it ends with a line feed |
| Bot.TaskReplies | telegram-bot/src/main.rs:284-294 | the all-solved text for no tasks, otherwise one card per task in order |
| Bot.CommandStepState | telegram-bot/src/main.rs:182-322 | a command writes only the sender's state; outside the admin group it can only open a contact conversation; other users' states never move |
| Bot.CommandGates | telegram-bot/src/main.rs:189-315 | admin commands deny non-admins and change nothing; game commands outside the window answer "not yet" and change nothing; the secret command replies with `BOTFLAG` |
| Bot.BoardMessage | telegram-bot/src/main.rs:240-243 | the loop builds the board text |
| Bot.ProcessCommand | telegram-bot/src/main.rs:182-322 | replies, store and queued messages as `CommandStep` says |
| Bot.Choose | telegram-bot/src/main.rs:197-236 | the task keyboard is queued and the state is set |
| Bot.Chooser | telegram-bot/src/main.rs:199-204 | one row per task, in order, holding one button with the task's name and its id as callback data |
| Bot.ChooseMessage | telegram-bot/src/main.rs:199-211 | sent to the admin's chat with the choose text; one button per listed task, each naming a visible task |
| Bot.BroadcastReachesAll | telegram-bot/src/main.rs:397-403 | a broadcast carries the text to every non-zero id and to no chat 0 |
| Bot.Broadcast | telegram-bot/src/main.rs:397-403 | at most one message per id, and exactly one per id when no id is 0 |
| Bot.DataStepState | telegram-bot/src/main.rs:324-422 | the sender's state moves as `NextState` says (contact and message go on until "."; every other state ends after one text); other users' states never move |
| Bot.DataStepStateOf | telegram-bot/src/main.rs:324-422 | the same, for one user at a time |
| Bot.SubmitKeepsStates | telegram-bot/src/main.rs:335 | a flag attempt changes no conversation state |
| Bot.SubmitChangesLedgerOnly | telegram-bot/src/main.rs:335 | a flag attempt changes nothing or appends to one ledger |
| Bot.ProcessData | telegram-bot/src/main.rs:324-422 | replies, store and queued messages as `DataStep` says |
| Bot.SubmitText | telegram-bot/src/main.rs:331-357 | the flag branch, with the organisers notified on a solve |
| Bot.ContactText | telegram-bot/src/main.rs:360-385 | the contact branch: append, or forward and reset on "." |
| Bot.CreateText | telegram-bot/src/main.rs:386-391 | the create branch: the task stored or the error shown; the state reset |
| Bot.BroadcastText | telegram-bot/src/main.rs:392-406 | the message branch: append, or broadcast and reset on "." |
| Bot.SendToAll | telegram-bot/src/main.rs:397-403 | the loop queues the broadcast |
| Bot.EditText | telegram-bot/src/main.rs:407-414 | the edit branch: the task rewritten or the error shown; the state reset |
| Bot.CallbackState | telegram-bot/src/main.rs:424-462 | afterwards the state is `edit_<id>` iff an edit conversation chose an existing task, none otherwise |
| Bot.CallbackDeletes | telegram-bot/src/main.rs:452-456 | in a delete conversation the chosen task is gone and every other task is as before |
| Bot.CallbackHandler | telegram-bot/src/main.rs:424-462 | store and queued messages as `CallbackStep` says |
| Bot.PackAsWrittenFits | telegram-bot/src/main.rs:92-106 | as written, every message sent is under 4096 bytes |
| Bot.GlueLength | telegram-bot/src/main.rs:94-98 | gluing adds at most the reply and two bytes |
| Bot.PackAsWrittenDropsReply | telegram-bot/src/main.rs:99-102 | as written, a reply that does not fit is lost, where the corrected packing keeps it |
| Bot.PackAsWrittenSendsEmpty | telegram-bot/src/main.rs:99-102 | as written, an oversized first reply sends an empty message |
| Bot.ByteLenAscii | telegram-bot/src/main.rs:94 | ASCII text is one byte per character |
| Bot.TwoLongReplies | telegram-bot/src/main.rs:92-106 | two 3000-byte replies come out as one message |
| Bot.PackFits | telegram-bot/src/main.rs:92-106 | the corrected packing sends only non-empty messages under 4096 bytes |
| Bot.PackKeepsAll | telegram-bot/src/main.rs:92-106 | the corrected packing's messages, joined by "\n\n", are the replies joined by "\n\n", in order |
| Bot.JoinGlued | telegram-bot/src/main.rs:96-98 | a glued message regroups the join |
| Bot.PackNonEmpty | telegram-bot/src/main.rs:104-106 | a non-empty buffer is always sent |
| Bot.PackStep | telegram-bot/src/main.rs:92-103 | one pass of the loop on the remaining replies |
| Bot.SendPacked | telegram-bot/src/main.rs:88-106 | the corrected loop queues exactly the `Pack` messages to the chat |
| Bot.PackAsWrittenStep | telegram-bot/src/main.rs:92-103 | one pass of the as-written loop on the remaining replies |
| Bot.SendPackedAsWritten | telegram-bot/src/main.rs:88-106 | the loop as written queues exactly the `PackAsWritten` messages to the chat |
| Bot.PackAsWritten | telegram-bot/src/main.rs:88-106 | the packing as written: glue a reply that fits; otherwise send the message in hand, even empty, and drop the reply |
| Bot.Pack | telegram-bot/src/main.rs:88-106 | the corrected packing: a reply that does not fit starts the next message |
| Bot.DeliveriesAppend | telegram-bot/src/main.rs:100-105 | one more message sent is one more delivery |
| Bot.ConversationComesFirst | telegram-bot/src/main.rs:80-87 | in a conversation, a text is conversation input even when it starts with '/' |
| Bot.AnswerStep | telegram-bot/src/main.rs:75-109 | the conversation handler when the sender has a state, the command handler for a '/' text outside one, the data handler otherwise; then the replies packed as written |
| Bot.AnswerMessages | telegram-bot/src/main.rs:75-109 | store and queued messages as `AnswerStep` says: the handler's own messages, then the replies packed as the code packs them |
| Bot.CommandStep | telegram-bot/src/main.rs:182-322 | `process_command` on a store: replies, new store and messages for each command, behind the admin and game-window gates |
| Bot.DataStep | telegram-bot/src/main.rs:324-422 | `process_data` on a store: the sender's conversation state picks the branch; an unknown state is reset |
| Bot.SubmitStep | telegram-bot/src/main.rs:331-357 | a flag attempt: the reply for `NotAFlag`, `AlreadySolved` or a solve, and on a solve the organisers notified |
| Bot.SolverName | telegram-bot/src/main.rs:343-350 | the first name, then in brackets the @username or the numeric id; the '@' appears iff there is a username |
| Bot.ContactName | telegram-bot/src/main.rs:370-372 | the username, or the numeric id, which parses back to the id |
| Bot.ContactStep | telegram-bot/src/main.rs:360-385 | a contact text is appended; a lone "." forwards the buffer, with its topic, to the organisers and resets the state |
| Bot.CreateStep | telegram-bot/src/main.rs:386-391 | the text parsed and stored under the first free token, or the parse error shown; the state reset |
| Bot.BroadcastStep | telegram-bot/src/main.rs:392-406 | a message text is appended; a lone "." sends the buffer to every known user and resets the state |
| Bot.EditStep | telegram-bot/src/main.rs:407-414 | the text parsed and written over `task:<id>`, or the parse error shown; the state reset |
| Bot.CallbackStep | telegram-bot/src/main.rs:424-462 | the state cleared; with a message deleted and an existing task chosen, an edit shows the task's fields and a delete removes it |

`Sender.MessageSender.Step` runs one segment of the loop, as `StepEffect` says:
- `Receiving` with an empty channel: idle, and nothing changes.
- `Receiving` otherwise: the head is taken into hand and the budget poll follows at once.
- `Budget`: without a token the loop keeps waiting (`Throttled`). Otherwise a token is spent. A chat that is held back has its message pushed back (`Deferred`). A free chat gets its Telegram call started (`Started`).
- `Transport`: a success delivers the message and records `now` for its chat (`Sent`). A failure pushes the message back (`Failed`).
- A push-back onto a channel with room puts the message at the tail, and the loop goes back to `recv`. Onto a full channel it leaves the loop waiting in `PushBack` (`Blocked`). A later segment tries again (`Requeued` once there is room), but only the loop drains the channel.

## Left out

- Redis I/O and serde: `get`, `set`, `del` and `KEYS` are operations on an in-memory map. Decoding failures are the `Unparsable` value or a value of another record type. Both read as absent. The order of `KEYS` is the list the store keeps; a new key is listed last.
- The club-directory HTTP lookup (`receive_user_by_telegram`, `check_user_is_in_scope`) and the `filter_users` gate built on it: a foreign REST client. Connection setup in `Api::new` is left out too; the constructor takes a store.
- The tokio `Mutex` and concurrent handlers. The model is sequential, so each locked section is atomic by construction.
- The replenisher task, `sleep` and `SystemTime`. `Tick` is the replenisher and `now` is a parameter. The 100 ms poll while the budget is exhausted is a `Throttled` step.
- The `Err` branches of the two push-backs in `Sender`: the sleep-and-retry after a deferral (`telegram-bot/src/sender.rs:116-122`) and the error log after a failed call (`telegram-bot/src/sender.rs:134-136`). `send` fails only on a closed channel, and the channel never closes while the loop holds its own sending half.
- Sender.MessageSender.Send: a producer that finds the channel full is suspended until room appears. The model returns false instead and leaves the retry to the caller; the suspension itself is not modelled.
- The teloxide transport. A send, `delete_message` and `send_document` are boolean outcomes. Queuing a message on the `Api` never fails, so the error replies that follow a failed notification or broadcast are not reached.
- The `answer_messages` early returns for a message without text or sender, `filter_messages`, the dispatcher, `rt_main` and config-file loading: plumbing around the core.
- UUID generation. `tokens` is the supply; every caller must supply a free token, because the source would loop forever without one.
- Unicode beyond the parts used.
  - `to_lowercase` is modelled for ASCII and the basic Cyrillic block.
  - `trim` uses the Unicode White_Space set.
  - Byte lengths are UTF-8 widths.
- The fixed Russian help and rules texts: they are constants and nothing is proved about them.
- In-place sorting: `sort_by` is modelled as a stable insertion sort function on sequences, not an in-place array sort.
- Strings.Split: its contract says only that there is at least one piece. What the pieces are is stated by the split lemmas.

## Findings

| source | as written | input that shows it | evidently intended | confidence | as-written member | corrected member |
|---|---|---|---|---|---|---|
| telegram-bot/src/main.rs:99-102 | a reply that does not fit flushes the message in hand, and is then itself discarded; an empty message is flushed when the first reply is too long | two replies of 3000 ASCII bytes: only the first reaches the chat | the reply that does not fit starts the next message | not executed | Bot.PackAsWrittenDropsReply, Bot.TwoLongReplies, Bot.PackAsWrittenSendsEmpty, Bot.SendPackedAsWritten | Bot.PackKeepsAll, Bot.PackFits, Bot.SendPacked |
| telegram-bot/src/sender.rs:116-136 | a deferred or failed message is put back with an awaited `send` on the loop's own channel; on a full channel the loop waits for room that only it can make | 1024 messages queued; the loop takes one and starts its Telegram call; a producer (a broadcast to more than 1024 users) fills the freed slot; the call fails: the loop waits for good, and so does every producer after it | a push-back that cannot proceed keeps the message in hand: a deferred one sleeps out the rest of its window and is then sent, as the error branch at lines 116-122 does; a failed one goes back to the budget poll for a fresh token | not executed | Sender.FullChannelStalls, Sender.StalledStays | Sender.IntendedNeverStalls, Sender.IntendedKeepsLimits, Sender.StartNeedsTokenAndSpacing, Sender.StepConserves |
| telegram-bot/src/text.rs:86-91 | 21 falls in the «баллов» range, and from 22 on only the last digit decides, so 111 to 114 follow 1 to 4 | 21 is written «21 баллов», 111 «111 балл» | the Russian plural rule: «балл» after a last digit 1 other than 11, «балла» after 2 to 4 other than 12 to 14, «баллов» otherwise | not executed | Text.ScoreForm, Text.ScoreSuffixAgainstGrammar | Text.RussianForm, Text.RussianFormCorrects |

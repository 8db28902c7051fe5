# spinbot — a verified model of the chat lottery core

`src/spinbot.py` is a Telegram bot that runs a daily lottery in each group
chat. Every chat has:

- a roster of participants;
- two labels: the *wheel* (the title the day's winner gets) and the *action*;
- the last winner, the wheel label of that draw, and the time it happened.

Every command handler except `/log_level` first records its sender on the roster (`context_filter`). The catch-all handler for other messages (`any_trigger`) skips that step too: it only starts a daily pass.

- `/spin` announces today's winner. On the first call of a date it draws one at random and adds one to that user's win counter.
- A scheduler (`daily_spin`) is throttled to one pass per ten minutes and does nothing before 08:00 UTC. Each pass is meant to spin every chat that has not been spun today. As written, the loop hands `spin` the fetched `Chat` object instead of a message, and the draw path then fails on `message.chat` unless the Telegram library's `Chat` happens to answer that attribute (see Findings).
- Admins can force a draw, forget today's draw, and rename the two labels; the new label is HTML-escaped first.
- `/scan` fills the roster from the chat's administrators and from users known in other chats.
- `/winstats` lists everyone by number of wins.

State lives in two places:

- a process-wide cache `chats` of per-chat contexts;
- two Postgres tables: `chat_contexts` (one row per chat) and `chat_users` (one row per chat and user).

Every handler writes the cache through to the tables.

The model consists of these modules:

- `Wrappers` holds `Option`.
- `Names` holds Telegram users and the display-name rule.
- `Model` holds the records: `UserDef`, the table rows, the value `ChatState` of a context, and the class `ChatContext`.
- `HtmlEscaping` holds `html_escape` and its decoding.
- `Lottery` holds every state transition as a function on `ChatState`, with the lemmas about them.
- `WinStats` holds the stable ordering of `/winstats`.
- `Storage` holds the two tables as maps and the class `Store` with the upserts and queries.
- `SpinBot` holds the class `Bot`: the cache, `last_daily_spin`, and the handlers as methods.

Every `Bot` method that changes a chat's state is proved against the `Lottery` function it performs. The store side (`LoadChats`, the load branch of `ContextFilter`) is specified by `Storage.LoadedFrom`, and the scans by `FirstNames`, `NewAdminIds` and `ScanFound`. Every method also keeps the invariant `Bot.Valid`:

- the store is consistent;
- every cached chat satisfies `ChatInvariant`: the roster lists each user once, and its winner is on it;
- every cached chat is mirrored exactly by its rows.

Time is a `Moment`: an absolute minute, a date and an hour. Randomness is an injected index into the roster.

## Model

| member | source | states |
|---|---|---|
| Names.GetPrettyUsername | src/spinbot.py:211-216 | A truthy handle gives `@` followed by the handle. Without one, the first name is a prefix of the result, and it is the whole result when the last name is not truthy either. |
| Names.HandleOverridesNames | src/spinbot.py:212-213 | With a truthy handle, the first and last names have no effect on the display name. |
| Names.LastNameAfterSpace | src/spinbot.py:214-216 | Without a handle, the name is longer than the first name exactly when the last name is truthy. In that case the rest of the name is a space and the last name. |
| Model.ChatContext.constructor | src/spinbot.py:78-86 | A new context holds the default labels `пижма` and `запутать`, no last winner, wheel or spin, and an empty roster. |
| Model.RosterSize | src/spinbot.py:85-86 | A duplicate-free `user_ids` that lists exactly the keys of `users` is as long as there are users. |
| HtmlEscaping.HtmlEscape | src/spinbot.py:398-402 | The output contains no `<` and no `>`. A string without `&`, `<` and `>` comes back unchanged. |
| HtmlEscaping.ReplaceCharAbsent | src/spinbot.py:399-402 | `str.replace` of a character that does not occur returns the string unchanged. |
| HtmlEscaping.ReplaceCharAppend | src/spinbot.py:399-402 | `str.replace` of one character distributes over concatenation. |
| HtmlEscaping.HtmlEscapeAppend | src/spinbot.py:398-402 | Escaping a concatenation is the concatenation of the two escapes. |
| HtmlEscaping.HtmlEscapeIsTokenwise | src/spinbot.py:398-402 | Because `&` is replaced first, the three chained replaces equal a one-pass map of each character to exactly one token (`&amp;`, `&lt;`, `&gt;` or itself), so nothing is escaped twice. |
| HtmlEscaping.HtmlEscapeRoundTrip | src/spinbot.py:398-402 | Decoding the three entities recovers the input exactly. |
| HtmlEscaping.HtmlEscapeInjective | src/spinbot.py:398-402 | Two different labels never escape to the same stored text. |
| Lottery.Observe | src/spinbot.py:219-234 | A new user id is appended to `user_ids` once and gets a record with the name and 0 wins. A known user keeps their place and win count, and only the name changes. No other user and no chat field changes. The roster invariant is preserved. |
| Lottery.ObserveNewcomer | src/spinbot.py:223-227 | Recording a newcomer grows the roster by exactly one entry, with no effect on the existing users. |
| Lottery.ObserveTwice | src/spinbot.py:219-234 | Recording the same user twice equals recording them once with the later name. |
| Lottery.Draw | src/spinbot.py:315-322 | The chosen user's `won_times` rises by exactly one and nothing else of any user changes. The chat records that user as last winner, `now` as the spin time and the current wheel as last wheel. Labels, roster and invariant are kept. |
| Lottery.DrawAddsOneWin | src/spinbot.py:316-318 | One draw raises the chat's total of wins by exactly one. |
| Lottery.DrawSoleUser | src/spinbot.py:316 | On a roster of one, the draw picks that user. |
| Lottery.SpinStep | src/spinbot.py:346-357 | When today's spin is recorded with a truthy winner, the chat is unchanged. Otherwise one draw happens with the injected index. |
| Lottery.DrawResolvesDay | src/spinbot.py:348-350 | After a draw by a user with a non-zero id, the same-day guard of `spin` holds for the rest of the date. |
| Lottery.SpinTwiceSameDay | src/spinbot.py:346-357 | On a roster without user id 0, a second `spin` on the same date changes nothing. Two spins add exactly one win when the day was open, and none when it was already spun. |
| Lottery.RepeatedWinner | src/spinbot.py:351 | The same-day answer is the username of some user on the roster. |
| Lottery.RepeatedAnswerNamesDrawn | src/spinbot.py:346-357 | After a draw that picks a non-zero user id, a later `spin` on the same date answers with the name of the user that draw picked. |
| Lottery.ResetDaily | src/spinbot.py:392-395 | Only `last_spin` differs, and it is cleared. The last winner stays. No date counts as spun afterwards, and the invariant is kept. |
| Lottery.SetWheel | src/spinbot.py:405-413 | An empty argument changes nothing. Otherwise only the wheel changes, to text without `<` or `>` that decodes back to the argument. |
| Lottery.SetAction | src/spinbot.py:416-424 | The same rule for the action label. |
| Lottery.RunThrottlesNext | src/spinbot.py:360-367 | After a pass at `now`, every call less than ten minutes later returns early. |
| Lottery.DailyChatStep | src/spinbot.py:372-383 | One chat's turn of the daily loop either leaves the chat unchanged or, when it was not spun today and has a roster, draws exactly once at `now`. |
| Lottery.DailyLeavesResolved | src/spinbot.py:348-350 | A chat already spun today is left as it is, whatever the transport does. |
| Lottery.DailySpinsPending | src/spinbot.py:372-383 | A pending chat with a roster, reached without a transport failure, gets exactly one draw and one more win in total. |
| Lottery.DailyTwiceSameDay | src/spinbot.py:363-383 | Once a pass has reached a chat with a roster and no user id 0, a second pass on the same date changes nothing. |
| Lottery.ForcedDrawResolvesDaily | src/spinbot.py:386-389 | When the drawn user's id is non-zero, the daily pass that `force_spin` runs after the forced draw leaves that chat as drawn. |
| Lottery.DailySkipNeverFires | src/spinbot.py:375 | Counterexample: a chat spun at 10:00 on a date is not skipped at 10:15 that date by the skip test as written. |
| Lottery.DailyChatStepIntended | src/spinbot.py:375-376 | With the intended skip test, a chat with a spin dated today is left unchanged. |
| Lottery.DailySkipHarmless | src/spinbot.py:346-383 | On a valid chat with no user id 0, the daily turn as written equals the turn with the intended skip test. |
| Lottery.DailyChatStepAsWritten | src/spinbot.py:357-381 | The daily turn as the loop calls `spin`, with a `Chat` for the message, leaves every chat as a failed lookup would. |
| Lottery.DailyDrawLostAsWritten | src/spinbot.py:357-381 | Counterexample: a pending chat with one user is left unchanged by the turn as written, while the intended turn draws that user. |
| WinStats.Insert | src/spinbot.py:459 | Inserting into a list sorted by wins, descending, keeps it sorted and adds exactly that entry. |
| WinStats.SortByWins | src/spinbot.py:459 | The result is sorted by `won_times`, descending, and is a permutation of the input. |
| WinStats.InsertStable | src/spinbot.py:459 | Insertion keeps the relative order of the entries that have the same number of wins. |
| WinStats.SortByWinsStable | src/spinbot.py:459 | For every win count, the entries with that count appear in their original order, as Python's stable `sorted(..., reverse=True)` keeps them. |
| WinStats.UsersInOrder | src/spinbot.py:455 | `users.values()` yields the records in `user_ids` order, since both are filled together. |
| WinStats.WinStatsOrder | src/spinbot.py:450-461 | The `/winstats` listing is sorted by wins, descending, and lists every user on the roster exactly once. |
| Storage.PutUser | src/spinbot.py:179-191 | An upsert overwrites the one row keyed by (chat, user) and leaves every other chat's rows as they were. |
| Storage.NonUsers | src/spinbot.py:194-208 | A user id is returned exactly when it has a row in some chat and no row in this one. |
| Storage.NonUsersAfterUpsert | src/spinbot.py:179-208 | Writing user `u`'s row in chat `c` removes `u` from `c`'s non-users and adds nobody. |
| Storage.LoadedIsMirrored | src/spinbot.py:119-149 | What `load_chat` returns from a consistent store is a valid chat, mirrored by the store. For a chat without a row it is the default context with no user rows. |
| Storage.UpsertChatThenLoad | src/spinbot.py:119-176 | After `upsert_chat`, `load_chat` returns its wheel, action, last winner, last wheel and last spin, and the chat's stored user records. |
| Storage.SyncedAfterUserAndChatUpsert | src/spinbot.py:323-324 | Writing a user record and then the chat row of a changed chat keeps store and cache in sync. |
| Storage.SyncedAfterUserUpsert | src/spinbot.py:219-234 | Writing one user record of a chat whose row did not change keeps store and cache in sync. |
| Storage.SyncedAfterChatUpsert | src/spinbot.py:162-176 | Writing the row of a chat whose user records are the stored ones keeps store and cache in sync, also for a chat new to the cache. |
| Storage.RosterOrder | src/spinbot.py:141-144 | The ids of the fetched rows list every user of the chat exactly once, in an unspecified order. |
| Storage.Store.UpsertChat | src/spinbot.py:162-176 | `chat_contexts` gets the chat's row inserted or overwritten. `chat_users` is untouched. |
| Storage.Store.UpsertUser | src/spinbot.py:179-191 | `chat_users` becomes `PutUser` of the old table. `chat_contexts` is untouched. |
| Storage.Store.LoadChat | src/spinbot.py:119-149 | A fresh context is returned. When the chat has no row, it holds the defaults. Otherwise it holds the stored row and exactly the chat's user rows. |
| Storage.Store.SelectNonUsers | src/spinbot.py:194-208 | The non-users of the chat in the current table. |
| SpinBot.ScanFoundCount | src/spinbot.py:430-441 | The count `/scan` reports equals the number of users it adds: the new admins and the candidates whose lookup answered. None of them was on the roster before. |
| SpinBot.Bot.constructor | src/spinbot.py:88-88 | An empty cache and no past daily pass, over a consistent store. |
| SpinBot.Bot.LoadChats | src/spinbot.py:152-159 | Every chat with a row is (re)loaded into the cache as `load_chat` returns it. Other cached chats are kept. |
| SpinBot.Bot.UpdateUserDef | src/spinbot.py:219-234 | The cache becomes `Observe` of the chat. The user's record is written to `chat_users`. The chat row is unchanged. |
| SpinBot.Bot.ContextFilter | src/spinbot.py:237-248 | A cached chat is used as it is. An unknown chat is loaded, cached and its row written. Then the sender is recorded and is on the roster. |
| SpinBot.Bot.SpinTheWheel | src/spinbot.py:315-324 | The cache becomes `Draw` of the chat. The winner's record and the chat row are written before any message. |
| SpinBot.Bot.Spin | src/spinbot.py:346-357 | The cache becomes `SpinStep` of the chat. A same-day call writes nothing and answers with the recorded winner and the current wheel. Otherwise the drawn user is announced, and the store changes only by the winner's record and the chat's row. |
| SpinBot.Bot.DailyTurn | src/spinbot.py:373-383 | The chat becomes `DailyChatStep` of itself. Every other chat is unchanged, in the cache and in both tables, and a failure is contained. |
| SpinBot.Bot.DailySpin | src/spinbot.py:360-383 | It runs exactly when it is not throttled and the hour is at least 8. When it does not run, nothing changes. When it runs, `last_daily_spin` is `now` and every cached chat has had its `DailyChatStep`. The rows of chats outside the cache are unchanged. |
| SpinBot.Bot.ForceSpin | src/spinbot.py:386-389 | The chat is drawn unconditionally, then the daily pass runs. A chat without user id 0 stays as drawn, and other chats get their daily turn. `last_daily_spin` becomes `now` when the pass runs and is kept otherwise. The rows of chats outside the cache are unchanged. |
| SpinBot.Bot.ResetDaily | src/spinbot.py:392-395 | The cache becomes `ResetDaily` of the chat, and its row is written. |
| SpinBot.Bot.SetWheelName | src/spinbot.py:405-413 | It is accepted exactly when the argument is non-empty. A refusal changes nothing. Otherwise the cache becomes `SetWheel` of the chat and its row is written. |
| SpinBot.Bot.SetActionName | src/spinbot.py:416-424 | The same rule for the action label. |
| SpinBot.NewAdminIds | src/spinbot.py:433-435 | The ids appended by the admin loop: each id of the list that was not known, exactly once. |
| SpinBot.NewAdminIdsInListOrder | src/spinbot.py:433-435 | Distinct admins that are all new are appended exactly in list order. |
| SpinBot.Bot.AddAdmins | src/spinbot.py:432-436 | Every admin not yet on the roster is recorded and counted, under the display name of their first entry in the list. They are appended to `user_ids` in the order of their first entries (`NewAdminIds`). The roster only grows. The admins leave the chat's non-users. Other chats' rows are unchanged. |
| SpinBot.Bot.AddCandidates | src/spinbot.py:437-443 | Each candidate whose lookup answers is recorded and counted under the display name of the answer, and a failed lookup is skipped. Other chats' rows are unchanged. |
| SpinBot.Bot.ScanChatUsers | src/spinbot.py:427-447 | The roster grows by exactly the new admins and the answering non-users, computed after the admins were written, and the count is their number. Each newcomer is recorded under the name of their first admin entry, or else of their lookup's answer. The new admins come first on the roster, in list order; the order of the looked-up users is unspecified, like the query's. When the admin list cannot be fetched, nothing changes. Other chats' rows are unchanged. |

## Left out

- Telegram I/O: message texts, replies, chat actions, the `asyncio.sleep` pacing, `TEMPLATES` and their formatting, and command routing. Transport outcomes are inputs instead:
  - `fetchOk` for each chat's daily turn;
  - the admin list as `Option`;
  - each scan lookup as `Option<Profile>`.
- Admin status: `AdminFilter.check` is a network call, and the admin-only handlers are modelled without it.
- SQL text, `CREATE TABLE` and `CREATE INDEX`, and `make_db_connection`. The tables are maps.
- Store write failures: every upsert succeeds in the model.
- Logging, `log_level`, environment configuration and webhook or polling startup.
- The clock and the timezone: `here_now` becomes a `Moment` per handler. `daily_spin` reads the clock twice, and the model uses one reading. `here_now` (310-312) attaches the bot's zone to the UTC wall time without converting it, so the date and hour that `spin` (349) and the gate (368) look at are the UTC date and hour; `Moment.day` and `Moment.hour` stand for those, and "today" ends at UTC midnight.
- Lottery.Throttled: the throttle at line 366 compares `timedelta`s to the microsecond, while the model compares whole minutes. A pass at 10:00:59 throttles a call at 10:10:00 in the code, but not in the model.
- Randomness: `random.choice(user_ids)` becomes an injected index. The spin handler's precondition asks for a valid index only when a draw happens; `context_filter` always leaves the sender on the roster, so the roster is never empty there.
- Integer widths: `won_times` is `INTEGER` and the ids are `BIGINT` in Postgres. The model uses unbounded integers.
- The root file `spinbot.py` is an earlier iteration that cannot be imported, and it is not part of this model.
- Storage.RosterOrder and Storage.Store.LoadChat: the order of `user_ids` after a reload is left unspecified, as the query has no `ORDER BY`. The model does not claim that the roster order survives a reload.
- SpinBot.Bot: the cache holds `ChatState` values rather than shared, mutable `ChatContext` objects. A handler's in-place update of the context is written as replacing the cached value, so aliasing of one context between the cache and a running handler is not captured.
- SpinBot.Bot.AddCandidates: `select_non_users` returns one-element rows, and line 439 passes each row, not its id, as `user_id` to `get_chat_member`. Whether such a lookup can answer depends on the Telegram library, which is not part of this model; it may well fail every time. The lookup outcome is therefore an input, a failure is one of its values, and a successful lookup is taken to describe the id that was asked for.
- SpinBot.Bot.DailyTurn: `daily_spin` passes a `Chat`, not a message, to `spin`. Whether its `message.chat` and `message.answer` then raise depends on the Telegram library, which is not part of this model. `Bot.DailyTurn` performs the intended turn, `Lottery.DailyChatStep`. The turn as written, `Lottery.DailyChatStepAsWritten`, is the outcome `fetchOk = false` stands for (see Findings).
- Interleaving at `await`: every handler runs to completion in the model. In the code, another handler can run while `daily_spin` waits on the network. If it adds a chat to `chats` (through `context_filter`), the next step of `for chat_id, context in chats.items()` (line 372) raises `RuntimeError`. This happens outside the per-chat `try` (379-383), so the rest of the pass is lost. Likewise a candidate recorded by a concurrent handler while `/scan` waits is still counted by it (line 441).
- The date of `last_spin` after a reload: the column is `TIMESTAMPTZ` (line 101), `here_now` labels the UTC wall time with the bot's zone without converting it (311-312), and `spin` compares `.date()` of the stored value (349). The model assumes that `Moment.day` survives `upsert_chat` and `load_chat` unchanged, i.e. that the value comes back in the same zone.
- Behaviour the model keeps as the code has it:
  - `reset_daily` clears only `last_spin`, not the last winner;
  - the same-day answer of `spin` names the current wheel label, not the label of that draw;
  - the `now.date` statement on line 374 has no effect.

## Findings

| source | as written | input that shows it | evidently intended | confidence | as-written member | corrected member |
|---|---|---|---|---|---|---|
| src/spinbot.py:357-381 | `daily_spin` calls `spin(chat, context)` with the `Chat` from `get_chat`, and `spin` reads `message.chat` before drawing, so for a pending chat the turn fails before any state change and the loop catches the error | a pending chat with one user, visited by a pass whose lookups succeed | pass a message-like object (or call `spin_the_wheel(chat, context)` directly): draw for every pending chat | not executed | Lottery.DailyDrawLostAsWritten | Lottery.DailyChatStep |
| src/spinbot.py:375 | `ctx.last_spin.date == now.date` compares two bound methods, which are equal only for the same receiver object, so the daily loop never skips a chat | a chat whose `last_spin` is 10:00 on a date, visited by a pass at 10:15 that date | `ctx.last_spin.date() == now.date()`: skip chats already spun today | not executed | Lottery.DailySkipNeverFires | Lottery.DailyChatStepIntended |

The as-written test is `Lottery.DailySkipAsWritten`, and the daily loop `Lottery.DailyChatStep` uses it, as the code does. The intended test is `Lottery.DailySkipIntended`, used by `Lottery.DailyChatStepIntended`. `Lottery.DailySkipHarmless` proves that on every chat the cache can hold without user id 0, both turns leave the chat in the same state: the guard inside `spin` catches what the skip test misses. Apart from the call on line 381 described next, on chats without user id 0 the bug changes no state: the loop still makes the transport calls for chats that are already resolved. Once line 381 is corrected, such a chat would reach the answer branch of `spin` (351-355) and get the same-day announcement again on every pass.

`Lottery.DailyChatStepAsWritten` is the daily turn with the call on line 381 as written: it leaves every chat as a failed lookup does, so a pending chat is never drawn (`Lottery.DailyDrawLostAsWritten`). `Lottery.DailyChatStep` is the intended turn, and `Bot.DailyTurn`, `Bot.DailySpin` and `Bot.ForceSpin` perform it; `Lottery.DailySpinsPending` proves that it draws each reachable pending chat exactly once.

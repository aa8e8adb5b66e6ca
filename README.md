# homework_bot — a Dafny model of the polling core

The bot asks the homework-review API every ten minutes for the status of the
student's homework and sends a chat message when that status changes. This
project models the part of `homework.py` that decides anything:

- `HOMEWORK_VERDICTS`, the table from status code to verdict text (`Homework.Verdicts`);
- `check_response`, the validator of the decoded answer (`Homework.CheckResponse`);
- `parse_status`, the formatter of one homework record (`Homework.ParseStatus`),
  together with a reader that recovers the name and status from the text it builds,
  which shows the text identifies both;
- `check_tokens`, the start-up loop over the three credentials (`Tokens.CheckTokens`);
- one pass of `main`'s loop over `current_report`, `prev_report` and
  `current_timestamp`, as a pure specification (`Poll.Cycle`, `Poll.Run`) and as
  the imperative class that updates those three variables in place
  (`Poll.Poller.Step`, `Poll.Poller.Poll`), proved to agree with it.

Modules: `Wrappers` (Option, Result), `JsonValues` (a decoded JSON value and the
Python operations the bot applies to it: `dict.get`, `type(v).__name__`, `str(v)`,
`in` on strings), `Failures` (each exception a cycle can raise, with the text
`str(error)` gives), `Homework`, `Tokens`, `Poll`, and `Scenarios` (end-to-end runs).

Behaviour of `homework.py` that the model keeps as written:

- The report is keyed by homework name, and `prev_report` is re-taken whether or
  not delivery succeeded.
- Deduplication compares the whole report. The alert is stored under the key
  `'error'` and never removed, so an alert already stored is not sent again even
  after successful cycles in between (`Poll.AlertOutlivesRecovery`), and a
  homework literally named `error` shares that entry.
- The exceptions are Python's own: a missing name or status is a `KeyError`, an
  unknown status a `ValueError`, a non-list `homeworks` a `KeyError`. The classes
  `EmptyAnswersAPI`, `RequestError` and `JSONDecodeError` in `exceptions.py` do not
  derive from `Exception` and take no message, so raising `EmptyAnswersAPI(...)`
  raises a `TypeError` whose text, "EmptyAnswersAPI() takes no arguments", is what
  the alert carries (`Failures.Text`).
- The decoded body need not be a dict: `'homeworks' in v` is list membership on a
  list and a substring test on a string, and a `TypeError` on null, booleans and
  integers; a list or string that passes it then fails on `.get`.
- A list or dict as homework name passes `parse_status` and then fails with a
  `TypeError` when used as a dict key; a boolean name is the same key as 1 or 0.
- When `get_api_answer` swallows a `ValueError` it returns `None`, which the model
  feeds to the cycle as a decoded JSON null.
- The cursor takes whatever `current_date` holds (even null or a string); it is
  not kept monotone.

## Model

| member | source | states |
|---|---|---|
| `Homework.VerdictTable` | homework.py:52-56 | the verdict table has exactly the codes approved, reviewing and rejected, and no two share a text |
| `Homework.CheckResponse` | homework.py:102-109 | succeeds iff the answer is a dict whose `homeworks` is a list, and then returns that list unchanged; a dict without the key fails with the empty-answer error whatever else it holds; a non-list value fails with the not-a-list error |
| `Homework.EmptyListAccepted` | homework.py:106-109 | an empty `homeworks` list is returned as an answer, not an error |
| `Homework.OnlyDictsAccepted` | homework.py:104-107 | an answer that is not a dict is always rejected: by the error `in` or `.get` raises on it, or by the empty-answer TypeError when `in` finds no `homeworks` |
| `Homework.NotificationLayout` | homework.py:126-127 | the text holds the shown name right after the opening words and ends with the verdict; its length is fixed by the name's and verdict's lengths |
| `Homework.ParseStatus` | homework.py:112-127 | checks in order: not a dict, then name missing or null, then status missing or null, then an unhashable status, then a status outside the table; succeeds exactly on well-formed records, and its text reads back as the shown name and the status |
| `Homework.MessageDependsOnNameAndStatus` | homework.py:116-127 | the result depends only on the record's name and status, not on its other fields |
| `Homework.ReadNotificationRoundTrip` | homework.py:126-127 | every notification text reads back to exactly the name and status it was built from |
| `Homework.ReadNotificationSound` | homework.py:126-127 | whatever the reader returns, the text is the notification of that name and a status of the table |
| `Homework.StatusChangeChangesText` | homework.py:122-127 | two different statuses of one homework always produce different texts |
| `Tokens.TokensAsWritten` | homework.py:132-136 | the tuple has three entries, the last labelled 'ID чата', and every value is the API token or the bot token, whatever the chat id is |
| `Tokens.Missing` | homework.py:137-142 | every unset entry's name is logged and only those; nothing is logged exactly when every entry is set |
| `Tokens.CheckTokens` | homework.py:137-142 | visits every entry without stopping early: returns true iff every entry is set, and logs the name of each unset entry in tuple order |
| `Tokens.AsWrittenIgnoresChatId` | homework.py:132-142 | with the tuple as written the check passes iff the API token and the bot token are set; the chat id never matters |
| `Tokens.ChatIdUnsetPasses` | homework.py:135 | for any two set tokens, an unset chat id passes the check and logs nothing |
| `Tokens.IntendedChecksEveryToken` | homework.py:132-142 | with the chat id in the third entry the check passes iff all three credentials are set |
| `Poll.AsKey` | homework.py:162 | a homework name becomes a dict key unless it is a list or dict, which raises the unhashable-type error; a string name is its own key |
| `Poll.Attempt` | homework.py:156-162 | the try block succeeds iff the fetch gave an answer that check_response accepts and whose list is empty or whose first record passes parse_status and has a hashable name; otherwise it fails with the first failing step's error (the fetch error, then check_response's, then parse_status's, then the unhashable-key error); on success the record comes from the first list element, with the text parse_status gave it, its hashed name and its known status, and the date is the answer's `current_date` |
| `Poll.AlertsMatchTexts` | homework.py:169-170 | two failures store the same alert exactly when their exception texts agree |
| `Poll.Cycle` | homework.py:155-174 | after every cycle the snapshot equals the report; a message is sent iff the report changed; when nothing is sent nothing changes, cursor included; entries are never removed; the cursor moves only in a successful cycle that sent |
| `Poll.RecordCycle` | homework.py:158-167 | a record writes its status under its name; the record's text is sent iff that entry was absent or different, and only then does the cursor take `current_date` (or stay when absent) |
| `Poll.EmptyListCycle` | homework.py:158-163 | an empty list leaves the whole state untouched and sends nothing |
| `Poll.FailureCycle` | homework.py:168-174 | a failure stores its alert under `'error'`, sends it iff that entry held a different text, and never moves the cursor |
| `Poll.CycleIdempotent` | homework.py:155-174 | a second cycle on the same fetch result changes nothing and sends nothing |
| `Poll.OnlyFirstRecordMatters` | homework.py:158-162 | two answers with the same first record and the same `current_date` give the same cycle, whatever follows the first record |
| `Poll.Run` | homework.py:154-176 | over any run of cycles the snapshot ends equal to the report, at most one message is sent per cycle, and no report entry is lost |
| `Poll.RepeatNotifiesOnce` | homework.py:154-174 | the same fetch result repeated any number of times is notified at most once |
| `Poll.RepeatIsQuiet` | homework.py:154-174 | once a fetch result has been absorbed, repeating it leaves the state and sends nothing |
| `Poll.AlertOutlivesRecovery` | homework.py:162-174 | successful cycles for homeworks not named `error` keep the stored alert, so the same failure afterwards sends nothing |
| `Poll.Poller.constructor` | homework.py:151-153 | the loop starts with both reports empty and the cursor at the start time |
| `Poll.Poller.Step` | homework.py:155-174 | one pass of the loop body updates the report, snapshot and cursor in place exactly as `Poll.Cycle` says and keeps snapshot equal to report |
| `Poll.Poller.Poll` | homework.py:154-176 | a sequence of loop passes updates the state and sends exactly as `Poll.Run` says |
| `Scenarios.ApprovedAdvancesCursor` | homework.py:155-167 | an approved `proj1` with `current_date` 1000 sends one text naming `proj1` with the approved verdict and moves the cursor to 1000 |
| `Scenarios.EmptyAnswerIsQuiet` | homework.py:157-163 | `{"homeworks": []}` sends nothing, raises nothing and keeps the cursor |
| `Scenarios.FailureAlertsOnce` | homework.py:168-174 | a failing request alerts once, keeps the cursor, and the same failure next cycle is silent |
| `Scenarios.ReviewingTwiceNotifiesOnce` | homework.py:158-165 | two cycles that both report `reviewing` for one homework notify only in the first |

## Left out

- `get_api_answer` (homework.py:70-99) is an HTTP request and JSON decoding; the cycle takes its outcome as input, a decoded body or the text of the exception it raised.
- `send_message` (homework.py:59-67) is a Telegram call whose result the loop ignores; the cycle returns the message it would send.
- Logging, handler setup, `load_dotenv` and reading the environment (homework.py:17-49); credentials are parameters of the token tuple, and the log of missing tokens is the `logged` result of `Tokens.CheckTokens`.
- `time.sleep` and the endlessness of `while True` (homework.py:154, 176): a run is a finite sequence of cycles.
- The start-up in `main` (homework.py:147-153): bot construction, `telegram.Update.stop()` and the `KeyError` raised when `check_tokens` fails; the start time `int(time.time())` is the parameter `now`.
- `exceptions.py` declares classes only; its effect on the alert text is modelled in `Failures.Text`.
- Floating-point JSON numbers are not modelled; numbers are integers.
- `str()` of a list or dict is a placeholder in `JsonValues.Show`, since a dict's insertion order is not modelled; it only appears in the text `parse_status` returns for a list or dict name, which the loop never sends because hashing that name fails first.
- Python's wording of its own error messages (`argument of type ... is not iterable`, `unhashable type: ...`, `... object has no attribute 'get'`) follows CPython 3.11–3.13; other versions word some differently.

## Findings

| source | as written | input that shows it | evidently intended | confidence | as-written member | corrected member |
|---|---|---|---|---|---|---|
| homework.py:135 | the entry labelled 'ID чата' holds `TELEGRAM_TOKEN` | `TELEGRAM_CHAT_ID` unset, both tokens set: the check passes | the entry holds `TELEGRAM_CHAT_ID`, so an unset chat id stops the bot | high, not executed | `Tokens.ChatIdUnsetPasses` | `Tokens.IntendedChecksEveryToken` |

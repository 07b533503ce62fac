# homework_bot, modelled in Dafny

A model of the polling bot in `homework.py`. Once started, the bot
checks its three credentials. It then loops forever: it fetches the
student's homework statuses from the Practicum API, validates the answer,
turns the most recent homework record into a Russian notification
through a fixed verdict table, and sends that text to one Telegram chat
only when the `(name, message)` report differs from the last one sent.

The model is pure. The clock is a parameter `now`. The HTTP fetch is the
`Reply` it produced: an HTTP code plus a decoded JSON body, or a failed
request. One loop iteration is the transition `Bot.Step`, and the message
it hands to Telegram is the `sent` part of its outcome. Python exceptions
are `Result`/`Outcome` values with one tag per raise site.

Modules, one file each:

- `Results` (`results.dfy`): `Option` and `Result`.
- `JsonValues` (`json.dfy`): decoded JSON values (null, bool, int, string,
  list, dict). It also holds the Python operations the bot applies to them:
  `dict.get`, `in`, truthiness, hashability and `str()`.
- `Tokens` (`tokens.dfy`): `check_tokens`.
- `ResponseCheck` (`response.dfy`): `check_response`.
- `StatusParse` (`status.dfy`): `HOMEWORK_VERDICTS` and `parse_status`.
- `Bot` (`bot.dfy`): start-up, the `timestamp or now` cursor fallback, one
  loop iteration split into the `try` block (`Track`) and the change
  detector (`Dedup`), and runs of several iterations (`Run`).

Behaviour of the code that the model keeps, including where it may be
surprising:

- `check_response` tests for `current_date` before it tests that
  `homeworks` is a list.
- Only `StatusError` is caught inside the loop. It is raised, and caught at
  once, for an empty homework list. Every other error raised during an
  iteration escapes `main` and ends the process, so `Step` returns `Stop`.
- The cursor is stored from `current_date` before validation runs. When
  the body is not a dict, that lookup itself fails (AttributeError) before
  `check_response` can report its own TypeError.
- Deduplication compares only with the last report sent. A status that
  returns after a different one is sent again (`Bot.ReturningStatusResent`);
  the same report is never sent twice in a row.
- `parse_status` looks the status up in the verdict table before it checks
  any key. A list or dict status therefore raises TypeError (unhashable)
  ahead of a missing `homework_name`.

## Model

| member | source | states |
|---|---|---|
| Tokens.All | homework.py:40 | `all(...)` over optional credentials is true exactly when every entry is set and non-empty |
| Tokens.CheckTokens | homework.py:38-40 | the guard holds iff all three credentials are present and non-empty; any one missing or empty makes it false |
| Bot.Start | homework.py:107-121 | failing the guard yields no state (the process exits); otherwise the cursor is `now` and both reports are `('', '')` |
| Bot.FromDate | homework.py:57 | the date sent is the cursor or `now`; a zero or absent cursor gives `now`, a true one is kept, and with a non-zero clock the date sent is never false |
| ResponseCheck.CheckResponse | homework.py:75-85 | the first failing check of the order dict, `homeworks` key, `current_date` key, list type decides the error; success iff all pass, returning the `homeworks` list unchanged |
| ResponseCheck.AcceptsAnyWellFormed | homework.py:79-85 | any dict holding both keys with a list under `homeworks` is accepted with exactly that list, whatever else it holds |
| ResponseCheck.ResultDependsOnlyOnHomeworks | homework.py:79-85 | dicts agreeing on the `homeworks` entry and on the presence of `current_date` get the same result |
| ResponseCheck.MissingBothReportsHomeworks | homework.py:79-82 | a dict lacking both keys is reported as missing `homeworks` |
| ResponseCheck.NotListNeedsCurrentDate | homework.py:81-84 | a non-list `homeworks` is reported only when `current_date` is present; otherwise the missing `current_date` is |
| StatusParse.ParseStatus | homework.py:88-101 | first failing check decides: non-dict, unhashable status, missing name, missing status, unknown status (naming the value); success iff all pass, with the exact notification text |
| StatusParse.KnownStatusSucceeds | homework.py:97-101 | every status in the three-entry table is accepted and yields the notification with its verdict |
| StatusParse.UnknownStatusNamed | homework.py:97-100 | a string status outside the table is rejected with an error carrying that value |
| StatusParse.MissingBothReportsName | homework.py:93-96 | a record missing both keys reports the missing name |
| StatusParse.NotificationDeterminesVerdict | homework.py:101 | for one name, equal notifications imply equal verdicts |
| StatusParse.StatusChangeChangesMessage | homework.py:97-101 | the same homework with two different known statuses gives two different results |
| JsonValues.Decimal | homework.py:101 | `str()` of a natural number: non-empty digits without a leading zero whose decimal value is the number |
| JsonValues.Render | homework.py:101 | `str()` of the name: a string is itself, `None`/`True`/`False` their Python spellings, an integer its signed decimal form |
| StatusParse.ApprovedExample | homework.py:101 | `hw1`/`approved` gives exactly `Изменился статус проверки работы "hw1". Работа проверена: ревьюеру всё понравилось. Ура!` |
| Bot.Dedup | homework.py:138-140 | sends iff the current report differs from the previous one, sends its message, and afterwards the previous report equals the current one |
| Bot.Step | homework.py:122-140 | continues iff the reply is a 200 answer passing both checks, with the cursor set to `current_date`, the report rebuilt from the first record or the sentinel, and the dedup rule; otherwise it stops, sending nothing, with the connection error, the non-200 code, the non-dict body, the `check_response` error or the `parse_status` error of the first record |
| Bot.BadRecordStops | homework.py:127-131 | a first record rejected by `parse_status` stops the loop with that error |
| Bot.OnlyFirstRecordMatters | homework.py:127-129 | records after the first never change the outcome |
| Bot.EmptyListKeepsName | homework.py:132-136 | an empty list is not fatal: it keeps the report name, sets the sentinel message and advances the cursor |
| Bot.FirstEmptyCycleSendsSentinel | homework.py:114-140 | from the initial `('', '')` reports, the first empty cycle sends the sentinel |
| Bot.StepIdempotent | homework.py:122-140 | replaying an accepted reply leaves the state unchanged and sends nothing |
| Bot.SameReportNotResent | homework.py:138-140 | two consecutive iterations with the same report send at most once |
| Bot.SendsIffReportChanged | homework.py:138-140 | after the first iteration, an iteration sends iff its report differs from the previous iteration's |
| Bot.NextFetchFrom | homework.py:125 | the next fetch asks from the answer's `current_date`, or from `now` when that value is false |
| Bot.OneRecordReport | homework.py:127-131 | a 200 answer with one well-formed record is accepted and yields `(name, notification)` |
| Bot.ReviewThenApproveScenario | homework.py:122-140 | reviewing, the same again, then approved: the first and third iterations notify with their verdicts, the second does not |
| Bot.ReturningStatusResent | homework.py:138-140 | reviewing, rejected, reviewing: the third iteration sends the first message again |
| Bot.Run | homework.py:122-141 | over successive replies, the previous report at the end is the last report sent (or the initial one), and a run that is not stopped ends in sync |
| Bot.RunSendsOnlyChanges | homework.py:138-140 | in a run, every sent report differs from the one sent before it |
| Bot.RepeatedReplySendsOnce | homework.py:122-141 | replaying one reply any number of times sends at most one message |
| Bot.QuietAfterFirst | homework.py:138-140 | once a reply has been absorbed, replaying it sends nothing |

## Left out

- The HTTP request in `get_api_answer` (endpoint, `Authorization` header, `requests.get`) is network I/O. Its result is the `Reply` input. A non-200 code and a failed request stop the loop. Failure to decode the body as JSON is not modelled.
- The `except UrlError(Exception)` clause depends on Python runtime semantics. Evaluating it raises TypeError when an error actually occurs, but the result is fatal either way, which is what the model records.
- `send_message` and `telegram.Bot` are external transport. A send is the `sent` value of the outcome. Delivery errors are swallowed by the source, so the previous report is updated whether or not delivery succeeded, as in the model.
- `load_dotenv`, `os.getenv` and `logging` are environment and logging plumbing. The credentials are an input to `Start`.
- `sys.exit` appears only as `Start` returning `None`.
- `time.time()`, `time.sleep(RETRY_PERIOD)` and the infinite `while True` are clock and scheduling concerns. The model takes `now` as a parameter and models finite runs (`Run`).
- `exceptions.py` is not part of this model. `StatusError` and `UrlError` are opaque tags, and the message texts of the raised errors are not modelled.
- JSON floating-point numbers are not modelled.
- Python's `1 == True` equality is not modelled: reports are compared with Dafny's structural equality.
- Render: `str()` of a list or dict homework name is shown as a fixed placeholder, not as Python's `repr` of its contents. Other names are rendered exactly.

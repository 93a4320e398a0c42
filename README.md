# Homework-status notifier: a Dafny model

The bot polls the homework-review API on a fixed period and relays status
changes of the newest submission to one Telegram chat. This project models its
decision layer and proves what it promises:

- `check_tokens`, the startup gate (module `Tokens`, file `tokens.dfy`);
- `check_response`, the validator of the decoded API body (module `Validation`,
  file `validation.dfy`);
- `parse_status` with the `HOMEWORK_VERDICTS` table (module `Status`, file
  `status.dfy`), together with a decoder that reads a notification back into
  the name and status it reports;
- `main`: the token gate, the startup notice and one pass of the polling loop,
  both as a pure step over a state (`Poller.Step`, `Poller.Runs`) and as a class
  `Poller.Bot` whose fields (`cursor`, `sent`, `running`) the methods update as
  `main` updates `timestamp` and the chat (file `poller.dfy`).

Decoded JSON is the datatype `PyJson.Json` (null, bool, int, string, list, and
object as `map<string, Json>`), with Python's truthiness, type names and `str()`
(file `json.dfy`). Every exception a pass can raise is a `Failures.Failure`
kind, and `Failures.Text` is its `str()`, which is what the failure notification
quotes (a `KeyError` shows its message in single quotes).

Where the code behaves differently from what one might expect of such a
notifier, the model follows the code:

- One might expect the cursor to advance after every pass. But the cursor
  (`timestamp`) is reassigned inside the `try` block, after the notification.
  It therefore advances only when the pass runs to its end. A pass that raises
  leaves it in place, and the next pass asks for the same window again.
- The validator and the interpreter raise `TypeError`, `KeyError`,
  `AttributeError` (a truthy submission that is not a dict) and `SystemError`.
  No dedicated schema error exists, and the failure text is that of those
  exceptions.
- `send_message` swallows only `telegram.TelegramError`. Another exception from
  the transport goes further. During the status notification, the loop's
  `except` catches it, so the cursor stays put and a failure notification
  follows. During the failure notification, it escapes `main` and ends the
  process.
- The token gate passes when any one of the three secrets is present. It does
  not require all three. Passing the gate is not enough to start: the next
  line builds the Telegram client from `TELEGRAM_TOKEN`, outside any `try`,
  and whether that succeeds is an input of `Start`.

External inputs are parameters of the model. These are the three environment
values, whether building the Telegram client succeeded (`clientBuilt` of
`Start`), the clock reading at startup (`now` of `Start` and of the `Bot`
constructor), the API's answer as a function of `from_date`, the clock reading
at the end of a pass, and what the transport did with each message.

The texts of Python's built-in exceptions in `Failures.Text` (the
`AttributeError` of `.get` on a non-dict, and the `TypeError` of a dict lookup
with an unhashable key) follow the wording of CPython 3 up to 3.13. Later
versions word the unhashable-key error differently.

## Model

| member | source | states |
|---|---|---|
| `Tokens.Any` | telegrambot.py:53 | `any(values)` is true exactly when some value is set and non-empty |
| `Tokens.CheckTokens` | telegrambot.py:51-56 | the gate is false if and only if all three secrets are unset or empty |
| `Tokens.CheckTokensAdmitsMissingSecrets` | telegrambot.py:53 | any single present secret, whichever it is, passes the gate with the other two missing |
| `Failures.KeyErrorText` | telegrambot.py:104 | `str()` of a `KeyError` is its message between single quotes |
| `Failures.Text` | telegrambot.py:102-124 | `str(error)` of every exception the validator and the interpreter raise: `KeyError` texts are quoted, and a fetch or transport exception contributes its own text |
| `Failures.TextIdentifiesCheck` | telegrambot.py:102-124 | no two fixed-text exceptions of the validator and the interpreter share their text, so a failure notice tells which check failed |
| `Validation.CheckResponse` | telegrambot.py:99-112 | a non-dict fails with the type error before anything else; on a dict a missing `homeworks` is reported before a missing `current_date`; a non-list `homeworks` fails with its type error; it succeeds exactly on well-formed bodies, with "no submission" iff the list is empty and otherwise the list's first element unchanged |
| `Validation.Response` | telegrambot.py:103-109 | a body built from a submission list passes every shape check and carries that list |
| `Validation.CheckResponseOfResponse` | telegrambot.py:107-112 | reading back any body built from a submission list (whatever other keys and whatever `current_date` it holds) yields the list's newest entry, or "no submission" for an empty list |
| `Status.ParseStatus` | telegrambot.py:115-126 | a non-dict fails (no `.get`); a missing or null name fails before the status is looked at; a missing status fails next; a list or dict status fails as unhashable; any other status outside the three known ones fails as unknown; it succeeds exactly for a named submission with a known status, with the text `Изменился статус проверки работы "<name>". <verdict>` |
| `Status.DecodeMessage` | telegrambot.py:126 | whatever it decodes reports one of the three known statuses |
| `Status.TailsDistinguish` | telegrambot.py:22-26 | no verdict text ends another one, so the end of a notification determines its status |
| `Status.DecodeStatusMessage` | telegrambot.py:126 | the notification for any name and known status decodes back to exactly that name and status |
| `Status.ParseStatusDecodes` | telegrambot.py:115-126 | every successful interpretation reads back as the submission's rendered name and its status, so different rendered names or different statuses never give the same text (the name `"1"` and the name `1` render alike) |
| `Status.ApprovedExample` | telegrambot.py:22-26 | the approved submission `hw1` gives `Изменился статус проверки работы "hw1". Работа проверена: ревьюеру всё понравилось. Ура!` |
| `PyJson.Truthy` | telegrambot.py:140 | `if homework:` rejects exactly Python's falsy values: None, False, 0, "", [] and {} |
| `PyJson.Str` | telegrambot.py:126 | the f-string's `str()` of a name: a string as itself, None and booleans by their Python names, a list between brackets (built by `PyJson.Render`) |
| `PyJson.NatToDecimal` | telegrambot.py:126 | `str()` of a non-negative int is a non-empty string of digits without a leading zero |
| `PyJson.DecimalRoundTrip` | telegrambot.py:126 | the digits `str()` writes for a non-negative int read back as that int |
| `PyJson.StrOfInt` | telegrambot.py:126 | an int name is rendered as its decimal digits, with a leading minus sign when negative |
| `Poller.FailureMessage` | telegrambot.py:147 | the failure notice is the fixed prefix `Сбой в работе программы: ` followed by `str(error)` |
| `Poller.FailureNoticeIsNoStatus` | telegrambot.py:147 | a failure notice never decodes as a status notification |
| `Poller.TryBody` | telegrambot.py:137-145 | the `try` block hands at most one message to the transport, exactly for a truthy submission the interpreter accepted, and ends normally exactly when the fetch, the validator, the interpreter (for a truthy submission) and the transport raise nothing |
| `Poller.Step` | telegrambot.py:136-151 | one pass keeps every earlier message and adds at most two; it either keeps the cursor or moves it to `now`; only a failing failure notification ends the process |
| `Poller.StepOnFetchError` | telegrambot.py:137-149 | when the fetch raises, the cursor is kept and exactly the failure notification `Сбой в работе программы: <error>` is sent |
| `Poller.StepOnInvalidResponse` | telegrambot.py:138-149 | when the validator rejects the body, the cursor is kept and exactly its failure notification is sent |
| `Poller.StepWithoutSubmission` | telegrambot.py:139-145 | with no submission, or a falsy one (`None`, `{}`), the cursor advances to `now` and nothing is sent |
| `Poller.StepOnUninterpretable` | telegrambot.py:139-149 | when the submission cannot be interpreted, the cursor is kept and exactly its failure notification is sent |
| `Poller.StepWithSubmission` | telegrambot.py:139-149 | an interpreted submission sends exactly its one notification and the cursor advances, unless the transport raised an exception other than `TelegramError`, which is then reported as a failure with the cursor kept |
| `Poller.TelegramErrorSwallowed` | telegrambot.py:59-65 | a `TelegramError` from the transport, for either notification, leaves the pass exactly as a delivered message would |
| `Poller.Runs` | telegrambot.py:136-151 | passes run in order; a process that has ended runs none, and the loop ends only when some failure notice raised past `send_message` |
| `Poller.RunsKeepHistory` | telegrambot.py:136-151 | over any number of passes, nothing sent is taken back and each pass adds at most two messages |
| `Poller.RunsCursorMonotone` | telegrambot.py:135-145 | with a clock that never goes back, the `from_date` cursor never goes back and never passes the last clock reading |
| `Poller.RunsRetrySameWindow` | telegrambot.py:136-151 | while the API keeps failing for the current `from_date`, every pass requests that same window again and sends its failure notification, in order, and the cursor never moves |
| `Poller.FailedStartupRunsNothing` | telegrambot.py:134-136 | when the startup notice raises something other than `TelegramError`, no pass runs, no request is made and only the startup notice was sent |
| `Poller.LaunchedRunsFirstPass` | telegrambot.py:134-138 | otherwise the loop is entered, and its first pass requests everything since the start time |
| `Poller.Bot.constructor` | telegrambot.py:134-135 | the bot's fields are the launched state: the startup notice sent, the cursor at the start time, running unless that notice raised something other than `TelegramError` |
| `Poller.Bot.Cycle` | telegrambot.py:137-149 | the imperative pass leaves the bot's fields equal to `Step` of their old values |
| `Poller.Bot.Run` | telegrambot.py:136-151 | running the loop over a finite sequence of passes, stopping if the process ends, leaves the fields equal to `Runs` of their old values |
| `Poller.Start` | telegrambot.py:129-135 | no bot is created, and so no request is made, exactly when `check_tokens` is false or building the Telegram client raised; otherwise a fresh bot in the launched state |

## Left out

- `get_api_answer` (telegrambot.py:68-96) is not modelled. It covers the HTTP request, the status-code check and JSON decoding, which are network I/O and library calls. The API is an input function from `from_date` to a decoded body or a raised exception's text. The float rounding `int(round(timestamp))` is also out: the cursor is an integer number of seconds.
- `send_message`'s call to `telegram.Bot.send_message` is an external transport. Each message's outcome is an input: delivered, `TelegramError`, or another exception.
- `telegram.Bot(token=...)` (telegrambot.py:133) belongs to the library, and the checks it makes on the token are not part of this model. Whether it returned is an input of `Start`. With `TELEGRAM_TOKEN` unset the client cannot be built, so when only `PRACTICUM_TOKEN` or only `CHAT_ID` is set the program passes the gate and then stops at line 133, before any request.
- `init_logger` and every `logger` call (telegrambot.py:29-48 and elsewhere) only write logs, so they are left out.
- `load_dotenv` and `os.getenv` (telegrambot.py:11-15) read the environment. The three values are parameters of `CheckTokens` and `Start`.
- `time.time()` is an input of each pass. `time.sleep(RETRY_PERIOD)` only blocks. The endless `while True` is modelled by `Bot.Run` over any finite sequence of passes.
- `exit()` (telegrambot.py:132) is modelled only as `Start` creating no bot.
- JSON floats are not part of `PyJson.Json`.
- PyJson.Render: a non-empty dict used as a homework name shows as `{…}`, because a map keeps no insertion order. Strings inside a list name are quoted without Python's escape rules.

# homework_bot in Dafny

A model of the decision-making core of a Telegram bot that polls the
Practicum homework-review API and forwards status changes of the latest
homework to a chat (`homework.py`). The HTTP request and the Telegram call
are not modelled; each iteration of the poll loop takes their results as
inputs, so the rest is deterministic:

- `Json` (json.dfy): the JSON values `response.json()` can yield, with the
  bits of Python behaviour the bot relies on (`dict.get`, `str()`, type
  names in an `AttributeError`).
- `Homework` (homework.dfy): the verdict table `HOMEWORK_VERDICTS`, the
  answer validator `check_response`, the status formatter `parse_status`
  (with a decoder that reads a notification back into its name and status)
  and the token check `check_tokens`. Exceptions become the tags of
  `Error`, each with the text `str(error)` gives.
- `PollLoop` (poll_loop.dfy): one iteration of `main`'s `while True` as the
  function `Step` over the loop's variables (`timestamp`, `current_report`,
  `prev_report` and the local `message`, which may still be unbound), the
  class `Poller` whose method `Iterate` updates those variables in place and
  is proved to follow `Step`, `Run` for finitely many iterations, and
  `RunBot`, which is `main`: the token check, then the loop.
- `Wrappers` (wrappers.dfy): `Option` and `Result`.

The report dicts of `main` only ever hold the key `'сообщение'`, so they are
modelled as `Option<string>`. The cursor `timestamp` is a JSON value, since
`response.get('current_date', timestamp)` stores whatever the API sent.

The model follows the code as written, including three behaviours its names
and docstrings do not suggest:

- `check_tokens` lists the Telegram token twice (homework.py:36), so the chat
  id is never checked; the model reproduces this (`CheckTokens`).
- A non-200 answer is not reported as its own error kind: every failure in
  `get_api_answer` is wrapped into a `ConnectionError` (homework.py:79-84),
  which the model takes as the `ConnectionFailed` input with its text.
- The cursor does not advance on an answer without homeworks unless an
  unsent report is pending and its resend is delivered (homework.py:128-134).

## Model

| member | source | states |
|---|---|---|
| `Homework.CheckResponse` | homework.py:87-97 | a non-dict is a type error with nothing else inspected; a dict without `homeworks` is the empty-answer error, checked before the list type; a non-list (null included) under `homeworks` is a type error; otherwise the list itself, unchanged and possibly empty |
| `Homework.CheckResponseReturnsHomeworks` | homework.py:94-97 | whatever else the answer holds, a list under `homeworks` comes back exactly |
| `Homework.ParseStatus` | homework.py:100-113 | non-dict record: AttributeError; absent or null name: KeyError, checked first; absent or null status: KeyError; only the three table keys succeed (list/dict status: unhashable TypeError, other values: ValueError quoting the status); success is exactly prefix + name + `". ` + the verdict for the status |
| `Homework.VerdictSuffixesDiffer` | homework.py:24-28 | a sentence ending in one verdict never ends in another |
| `Homework.DecodeStatusMessage` | homework.py:111-113 | every notification reads back into the name and the status it was built from |
| `Homework.ParseStatusDecodes` | homework.py:100-113 | a successful parse_status result reads back as the record's name and status |
| `Homework.DistinctStatusesDistinctMessages` | homework.py:108-113 | two records with different statuses never give the same notification, whatever their names |
| `Homework.CheckTokens` | homework.py:31-43 | true iff the Practicum and Telegram tokens are set and non-empty, the chat id playing no part; the labels logged as missing are those of the table, and the chat-id label is logged exactly when the Telegram token is missing |
| `Homework.TokenTableMissing` | homework.py:33-43 | the labels check_tokens logs, spelled out for its three-row table |
| `Json.DigitsDenote` | homework.py:109 | the decimal digits that `str()` writes for a non-negative int status or name denote that number |
| `PollLoop.Step` | homework.py:125-143 | a send only when the current report differs from the last recorded one; the recorded report changes only with a send; the cursor moves only after a delivered send on the success path, to `current_date` if present; a missing `homeworks` key changes nothing; the error path records the failure text whatever the send returned and never moves the cursor; a failed shape check or status parse is the error reported; a freshly parsed status becomes the current report and `message` and is sent iff new; an empty list keeps the report and resends a pending one, or raises the unbound-`message` error when none was ever bound |
| `PollLoop.StepKeepsConsistent` | homework.py:128-132 | from a consistent state an iteration stays consistent, never reads an unbound `message`, and sends the current report |
| `PollLoop.ErrorPathIgnoresDelivery` | homework.py:141-143 | on the error path the new state does not depend on what send_message returned |
| `PollLoop.SameReportNotResent` | homework.py:131-143 | once a report was delivered or reported from the error path, an iteration arriving at the same report sends nothing |
| `PollLoop.RunNeverUnbound` | homework.py:124-132 | over any number of iterations from a consistent state, `message` is never read unbound |
| `PollLoop.DeliveredSendsNeverRepeat` | homework.py:131-143 | while every send is delivered, no text is sent twice in a row, and the last text sent is the recorded one |
| `PollLoop.CursorNeedsDelivery` | homework.py:132-134 | while no send is delivered the cursor stays where it was |
| `PollLoop.ApprovedScenario` | homework.py:126-134 | the approved answer for `hw1` is sent once with its exact text and moves the cursor to 1000; repeating it sends nothing |
| `PollLoop.EmptyListScenario` | homework.py:127-131 | from the initial state, an empty homework list sends nothing and leaves the state as it was |
| `PollLoop.ConnectionFailureScenario` | homework.py:137-143 | from the initial state, a failed request is reported once with its failure text, and not again when it repeats |
| `PollLoop.Poller.constructor` | homework.py:121-123 | the loop starts at cursor 0 with both reports empty and `message` unbound |
| `PollLoop.Poller.Iterate` | homework.py:125-143 | updating the variables in place does what `Step` says |
| `PollLoop.RunBot` | homework.py:116-145 | `main` stops with the KeyError when a required token is missing, and otherwise runs one iteration per input from the initial state, never reading `message` unbound |

## Left out

- `get_api_answer` (homework.py:60-84): the HTTP request is an input of each iteration, either the parsed answer or the text of the `ConnectionError` that wraps every failure. As written, homework.py:72 passes the dict `response_values` where `requests.get` expects the URL, so every real request raises and the real program only ever takes the `ConnectionFailed` path; the model also covers the answers a corrected request would return.
- `send_message` (homework.py:46-57): the Telegram call is an input boolean; exceptions other than `TelegramError` escaping it are not modelled.
- `time.sleep(RETRY_PERIOD)` and the endless `while True` (homework.py:124, 144-145): the model runs finitely many iterations.
- Logging, `load_dotenv`, `os.getenv`, the log-file set-up and the construction of `telegram.Bot` (homework.py:12-17, 120, 148-156): environment and I/O glue; the labels `check_tokens` logs are kept as an output.
- exceptions.py: empty exception classes, modelled as tags of `Error`.
- JSON numbers with a fraction part: the answer model has integers only.
- JSON object key order and duplicate keys: an object is a map.
- `Homework.ParseStatus`: a list- or dict-valued `homework_name` is rendered as a fixed placeholder, not as Python's repr of it.
- `Homework.ErrorText`: the exception texts follow CPython 3.11 to 3.13: `str()` of a KeyError is the repr of its key, the AttributeError and "unhashable type" TypeError texts are CPython's, and the unbound-`message` error uses the 3.11 wording (a case proved unreachable from the initial state).

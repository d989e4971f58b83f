# homework_bot in Dafny

A model of the Telegram bot that follows the review status of a student's homework. The bot sends
`Start`, then checks its three secrets, and then polls the review-status API forever. In each cycle it checks the
shape of the reply, turns the most recent submission into a notification, and sends it to the chat. Any error
raised during a cycle is sent as one failure message instead.

The model is split into modules:

- `Wrappers` (`wrappers.dfy`): `Option`, `Result` and `Outcome`. `Result` stands for a Python call that either returns or raises.
- `PyDict` (`pydict.dfy`): Python's insertion-ordered `dict` as a sequence of entries. It covers `d.get(k)` and `d[k] = v`. The dict display `{a: x, b: y}` is a run of stores.
- `PyValue` (`pyvalue.dfy`): the values `json` decodes a reply into, their truthiness, and `str()` / `repr()`. It also has the exceptions the bot raises and the text `str(exception)` gives for each. A bare `raise KeyError` gives `''`. `KeyError('x')` gives `"'x'"`.
- `Homework` (`homework.dfy`): the verdict table, `check_tokens`, `check_response` and `parse_status`.
- `Poller` (`poller.dfy`): `main`. `PollOnce` is one pass of the `try`/`except` body. `PollLoop` is the `while True` loop, cut off after a given number of cycles. `RunBot` is the start-up followed by the loop.

Behaviour of the code worth noting:

- `Start` is sent *before* the secrets are checked. A run with `PRACTICUM_TOKEN` or `TELEGRAM_CHAT_ID` unset has still sent `Start` when it exits (`RunBot`).
- Only an unset variable (`None`) counts as missing. An empty secret passes `check_tokens`.
- `check_tokens` stores the names in a dict keyed by the secrets' *values*. Unset secrets therefore share the key `None`, and the error names the *last* unset variable in the order `PRACTICUM_TOKEN`, `TELEGRAM_TOKEN`, `TELEGRAM_CHAT_ID` (`LastMissingName`). `main` then replaces that error with its own `ValueError`.
- The texts are the Russian ones in the code. `'Изменился статус проверки работы "{name}". {verdict}'` is sent on success and `'Сбой в работе программы: {error}'` on failure.
- No status change is detected. The bot remembers nothing between cycles and every request uses the start-up timestamp. An unchanged reply is therefore re-sent every cycle, and so is a persistent failure (`SameAnswerSameMessages`).
- A first submission that is not a dict raises `AttributeError` (it has no `get`). A list or dict status raises `TypeError` (it cannot be a dict key). Both become failure messages like every other error.

Outside effects become parameters:
- The API's answer to the `k`-th request made with `from_date = t` is `server(k, t)`. It is either a decoded reply (`JNull` for the `None` that a JSON decoding error yields) or an exception.
- `int(time.time())` is the parameter `now`.
- Sending a message appends it to an outbox.

## Model

| member | source | states |
|---|---|---|
| `PyDict.Get` | homework.py:107-108 | `d.get(k)` is present exactly when `k` is a key, and is the value stored with it |
| `PyDict.Insert` | homework.py:46-49 | a store to an existing key keeps its position and replaces its value; a new key is appended; every other key's value is untouched; keys stay distinct |
| `PyValue.StrRepr` | homework.py:116 | `repr` of a string starts and ends with the quote Python picks for it and is at least two characters longer than the string |
| `PyValue.EscapeRoundTrip` | homework.py:116 | reading back the escaped body of a single- or double-quoted literal gives the original string |
| `PyValue.StrReprRoundTrip` | homework.py:116 | the text between the quotes of `repr(s)` reads back as `s` |
| `PyValue.PlainStrRepr` | homework.py:116 | a string free of quotes, backslashes and control characters is shown by `repr` as itself in single quotes |
| `PyValue.Str` | homework.py:118 | for a string of plain characters, `repr` is `str` between single quotes; for any value that is not a string, `str` and `repr` agree |
| `Homework.LastMissingName` | homework.py:43-53 | there is a missing name exactly when one of the three secrets is `None` |
| `Homework.TokenTable` | homework.py:46-49 | the token dict has one to three distinct keys; it has the key `None` exactly when a secret is unset, and under it the name of the last unset secret |
| `Homework.CheckTokens` | homework.py:43-53 | passes exactly when all three secrets are set, empty ones included; otherwise raises `ValueError('Отсутвует переменная окружения ' + name)` for the last unset secret |
| `Homework.CheckResponse` | homework.py:86-102 | succeeds exactly for a dict whose `homeworks` is a list, and returns that list unchanged; otherwise, in this order: a false reply (`None`, `{}`, `[]`, …) raises plain `Exception`, a non-dict `TypeError`, a dict without `homeworks` `KeyError`, a non-list `homeworks` `TypeError` |
| `Homework.VerdictFor` | homework.py:31-35 | a status has a verdict exactly when it is one of the strings `approved`, `reviewing`, `rejected`; the verdict is that status's sentence from the table and is non-empty |
| `Homework.StatusMessage` | homework.py:118 | the notification is the fixed template prefix, then `str(name)` followed by `". `, then the verdict |
| `Homework.ParseStatus` | homework.py:105-118 | succeeds exactly when the record is a dict with a true name and a known status, and then gives the template filled with `str(name)` and the status's verdict; a non-dict raises `AttributeError`; an absent or false name or status raises `KeyError` whatever the status is; a list or dict status raises `TypeError`; any other unknown status raises `ValueError` whose message ends with `str(status)` |
| `Homework.ApprovedRecordExample` | homework.py:105-118 | `{"homework_name": "hw1", "status": "approved"}` gives the approval notice for `hw1` |
| `Homework.UnknownStatusExample` | homework.py:109-114 | status `in_progress` raises `ValueError` naming `in_progress` |
| `Poller.FailureMessage` | homework.py:142-143 | a failure message carries the fixed failure prefix followed by `str(error)`, and never reads as a status notice |
| `Poller.PlainKeyErrorMessage` | homework.py:116 | a `KeyError` with a plain-text argument is reported with that text in single quotes |
| `Poller.CycleMessages` | homework.py:135-145 | a cycle sends at most one message; none exactly when the reply holds an empty submission list; the parsed text of submission 0 only when it parses; otherwise one failure message; a fetch, reply-check or parse error becomes exactly the failure message for that error |
| `Poller.OnlyFirstRecordMatters` | homework.py:138-139 | two well-shaped replies with the same first submission make a cycle send the same messages |
| `Poller.PollOnce` | homework.py:135-145 | the `try`/`except` body sends exactly the messages `CycleMessages` gives for the fetch result |
| `Poller.Transcript` | homework.py:134-148 | `n` cycles send at most `n` messages |
| `Poller.SameAnswerSameMessages` | homework.py:134-148 | with the same API answer every cycle, the bot re-sends the same single message every cycle, or nothing at all |
| `Poller.TranscriptMessagesClassified` | homework.py:138-144 | every message sent by the loop is a status notice or a failure message |
| `Poller.PollLoop` | homework.py:134-148 | every request of the loop uses the start-up timestamp, which is never reassigned; the messages sent are the cycles' messages in order |
| `Poller.RunBot` | homework.py:121-148 | `Start` is always the first message, also when a secret is unset; the run exits with `ValueError('Переменная(ые) окружения отсутствует(ют).')` exactly when a secret is unset, and then makes no request; otherwise every request uses `now - 1500000` and the outbox is `Start` followed by the loop's messages |

## Left out

- `get_api_answer` (homework.py:65-83) is an HTTP call through `requests`. Its result is an input to each cycle: a decoded reply, `None`, or an exception. In the source it raises only a bare `KeyError` (request errors, including a non-200 status) or a bare `TypeError` (anything else).
- `send_message` and `telegram.Bot` (homework.py:56-62, 125) are a foreign client. A send is an append to the outbox. Delivery errors are swallowed in the source and never reach the bot. Any error from building the `Bot` is not modelled. When `TELEGRAM_TOKEN` is unset, empty or malformed, `telegram.Bot(token=TELEGRAM_TOKEN)` raises before `Start` is sent; that exception is not a `ValueError`, so the process stops with it instead of the missing-secret error. `RunBot` does not capture this: it always sends `Start` and reports the missing-secret error.
- `load_dotenv`, the `os.getenv` reads, `ENDPOINT`, `HEADERS` and the logging set-up (homework.py:13-28, 37-40) are process configuration. The secrets are an `Env` value. Logging calls are dropped everywhere.
- `time.sleep(RETRY_PERIOD)` (homework.py:148) is dropped, and with it the 600-second period.
- `while True` is modelled for a bounded number of cycles.
- JSON numbers are Python `int`s only. Floats are not modelled.
- PyValue.StrRepr: non-ASCII characters that Python considers non-printable are copied as they are, although Python escapes them.
- The model starts from the decoded dict. A JSON object with repeated keys is not modelled.
- Poller.RunBot: assumes building the `Bot` succeeds, so its promise that `Start` is sent first and that an unset secret ends the run with the missing-secret `ValueError` does not hold in the source when `TELEGRAM_TOKEN` is unset, empty or malformed (see the `telegram.Bot` line above).
- Poller.PlainKeyErrorMessage: proved for every plain-text argument. The model does not prove that the particular note raised at homework.py:116 is plain text, although every character in it is a Cyrillic or Latin letter or a space.

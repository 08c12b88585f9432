# homework_bot, modelled in Dafny

The bot polls the Practicum homework-status API. When the status of the most
recent homework changes, it sends a Telegram message. Everything that decides
*what* is sent and *when* lives in `homework.py`, and that is what this
project models:

- the startup check of the three credentials (`check_tokens`);
- the shape check of the API answer (`check_response`);
- the interpretation of one homework record through the fixed verdict table
  (`parse_status`, `HOMEWORK_VERDICTS`);
- one pass of the endless loop in `main`, which owns two variables: the
  cursor `timestamp` and the dedup memory `previous_message`.

The network, Telegram and the environment are inputs. A cycle is given what
the HTTP exchange produced:
- a transport failure with its text;
- a status code other than 200;
- a body that did or did not decode as JSON.

It is also given whether the Telegram send, if one is made, goes through.

Files and modules:

- `python.dfy`, module `Python`: the Python values the bot handles. It covers
  a decoded JSON document (dicts keep insertion order), `dict.get` and `in`,
  `str`, `repr`, `type`, and the text `str(error)` shows for each exception
  kind. A `KeyError` shows the `repr` of its argument, so its text is quoted.
- `tokens.dfy`, module `Tokens`: `check_tokens` as a filter over the three
  named values plus the abort decision.
- `response.dfy`, module `Response`: `get_api_answer` reduced to its three
  outcomes and its two error texts, and `check_response`.
- `status.dfy`, module `Status`: `HOMEWORK_VERDICTS` and `parse_status`.
- `bot.dfy`, module `Bot`: `Cycle`, the specification of one loop pass, and
  `Run`, a finite sequence of passes. The class `Poller` holds the two loop
  variables, and its `Step` method is proved to update them as `Cycle` says.
  The lemmas cover dedup, the cursor, failure handling and repeated cycles.

Behaviour of the code worth knowing:
- `check_response` never looks at `current_date`, and its absence is not an
  error.
- An empty homework list only logs and `continue`s. There is no "no updates"
  message, and the cursor does not move even when `current_date` is present.
- An empty `homework_name` is accepted. Only a missing or `null` name is
  refused.
- The initial cursor is the current time, not 0.
- A failed Telegram send raises `TelegramError`, which `main` catches. Failure
  reports go through the same dedup as status texts.

## Model

| member | source | states |
|---|---|---|
| `Python.LookupFindsFirst` | homework.py:100-103 | `d.get(key)` finds a value exactly when `key in d`, that is when some entry carries the key; the value is that of the first such entry |
| `Python.KeyErrorTextIsQuoted` | homework.py:157 | `str()` of a `KeyError` raised with plain text is that text in single quotes, and this text goes into the failure report |
| `Tokens.MissingAppend` | homework.py:39-40 | the comprehension filters a concatenation of checked names part by part, so missing names keep the checking order |
| `Tokens.MissingMembers` | homework.py:39-40 | a name is reported missing iff some checked entry with that name is `None` or `''` |
| `Tokens.CheckTokens` | homework.py:32-48 | the missing list is exactly the falsy names, in the order PRACTICUM_TOKEN, TELEGRAM_TOKEN, TELEGRAM_CHAT_ID; startup aborts iff that list is non-empty |
| `Response.GetApiAnswer` | homework.py:68-84 | a transport failure gives the connection error with the endpoint and the `{'from_date': ...}` parameters; a code other than 200 gives the call error with the code; a 200 whose body does not decode gives the JSON-decoding error with its reason; otherwise the decoded body is returned, and only then |
| `Python.IntText` | homework.py:79-82 | `str()` of an integer, as the status code appears in the call error: a minus sign exactly for a negative value, then decimal digits without a leading zero that denote its magnitude |
| `Response.PayloadIsRepr` | homework.py:68-74 | the parameter text in the connection error is `repr` of the payload dict `{'from_date': timestamp}` |
| `Response.CheckResponse` | homework.py:97-107 | a non-dict gives a TypeError naming its type; a dict without `homeworks` gives the KeyError; a non-list `homeworks` gives a TypeError naming its type; otherwise the list is returned unchanged; success holds iff all three checks pass |
| `Response.CheckResponseIgnoresCurrentDate` | homework.py:97-107 | two answers that differ only under `current_date` (present or not, any value) get the same outcome |
| `Status.ParseStatus` | homework.py:118-130 | a non-dict record raises AttributeError; a missing or `null` name raises the KeyError, whatever the status; then an unhashable status raises TypeError and any other status outside the table raises ValueError with that status; otherwise the result is the fixed prefix, the name, `". ` and the verdict; success holds iff the name is present and the status is in the table |
| `Status.StringRecordIsInterpreted` | homework.py:118-130 | with a string name and status `approved`, `reviewing` or `rejected`, nothing is raised; the text opens with the prefix, then holds the name, and ends with exactly that status's verdict |
| `Status.MissingNameWins` | homework.py:118-122 | a missing name yields the KeyError even when the status is also unknown |
| `Status.NotificationsOpenWithPrefix` | homework.py:130 | every text `parse_status` returns opens with `Изменился статус проверки работы "` |
| `Bot.Cycle` | homework.py:141-162 | an empty homework list changes nothing; a status text equal to `previous_message` sends nothing, keeps the memory and moves the cursor to `response.get('current_date', timestamp)`; a different status text is the one attempted; a failure report is attempted iff it differs from `previous_message`; no attempted text ever equals `previous_message`; a send is delivered iff attempted and the send works; `previous_message` changes only to a delivered text; the cursor moves only on the normal path |
| `Bot.CursorFollowsCurrentDate` | homework.py:147-153 | after a parsed status text is sent or suppressed, the cursor is `current_date` when the answer has it and is unchanged otherwise |
| `Bot.CursorHeld` | homework.py:141-156 | the cursor is unchanged after a fetch error, a rejected answer, a record that cannot be parsed, or a failed normal send; an empty list changes nothing at all |
| `Bot.FailedNotificationChangesNothing` | homework.py:148-155 | a TelegramError on the normal send is only logged: no second send, neither variable changes |
| `Bot.FailureIsReported` | homework.py:156-162 | any other failure becomes `Сбой в работе программы: <str(error)>`, sent only if it differs from `previous_message`, remembered only if delivered; the cursor stays |
| `Bot.ReportDiffersFromNotification` | homework.py:148-159 | a failure report never equals a status text, so neither can suppress the other through dedup |
| `Bot.RepeatIsQuiet` | homework.py:147-153 | after a cycle whose send worked, the same upstream answer again sends nothing and leaves both variables as they are |
| `Bot.TwoCyclesSendOnce` | homework.py:147-152 | two cycles over answers that differ at most in `current_date` (its value or its presence), carrying a status text new to the memory: the first cycle, with a working send, sends and remembers it; the second attempts nothing, whatever its send would do |
| `Bot.FreshStartSends` | homework.py:138-162 | with `previous_message == ''`, as at startup, a send is attempted in every cycle except one with an empty homework list |
| `Bot.ApprovedAnswerIsSent` | homework.py:142-153 | scenario: from cursor 0 and any other remembered text, with a working send, an answer with `hw1` approved and `current_date` 1000 sends the approved text for `hw1` and moves the cursor to 1000 |
| `Bot.EmptyListIsSilent` | homework.py:144-146 | scenario: from any state and whatever the send does, the answer with an empty `homeworks` list and `current_date` 1000 sends nothing and leaves the whole state, cursor included |
| `Bot.MissingHomeworksIsReported` | homework.py:100-101 | scenario: from an empty memory with a working send, the answer `{'current_date': 1000}` sends `Сбой в работе программы: 'Ожидаемый ключ отсутствует.'` (the KeyError text in quotes) and leaves the cursor |
| `Bot.UnknownStatusIsReported` | homework.py:124-127 | scenario: from an empty memory with a working send, an answer whose one record has status `unknown_status` is reported as `Неизвестный статус работы- unknown_status` after the failure prefix, and the cursor stays |
| `Bot.Run` | homework.py:140-164 | over any finite run of cycles, deliveries never exceed attempted sends, and sends never exceed the number of cycles |
| `Bot.QuietStaysQuiet` | homework.py:147-153 | a state that one answer leaves unchanged and silent, whether or not the send works, stays unchanged and silent for any number of further cycles over that answer |
| `Bot.RepeatedAnswerSendsAtMostOnce` | homework.py:140-164 | when the same answer keeps coming back and the first send works, at most one text is ever sent and the state stays what the first cycle left |
| `Bot.FailingSendsKeepMemory` | homework.py:154-162 | if every send fails, a run of any length delivers nothing and never changes `previous_message` |
| `Bot.Start` | homework.py:133-138 | no bot starts when a credential is missing; otherwise the cursor is the current time and nothing is remembered |
| `Bot.Poller.constructor` | homework.py:137-138 | the loop starts with `timestamp` at the given time and `previous_message` empty |
| `Bot.Poller.Step` | homework.py:141-163 | one pass of the loop body updates `timestamp` and `previous_message` and reports the attempted send exactly as `Cycle` specifies |

## Left out

- HTTP: the request (`homework.py:58-84`) is not built. Only its outcome is
  modelled: a transport failure with its text, the status code, and a body
  that did or did not decode. The JSON-decoding error's text is an input,
  because it comes from the JSON library.
- Telegram: `telegram.Bot` and `bot.send_message` (homework.py:51-55, 136)
  become one flag per cycle saying whether the send works. A send raising
  anything other than `TelegramError` is not modelled.
- Environment: `load_dotenv` and `os.getenv` (homework.py:14-18) become the
  three optional token values, which are parameters. `HEADERS` is not
  modelled.
- Logging, wall clock and sleep are left out. The `logging` calls include the
  critical line that lists the missing names. `time.time()` becomes the
  initial cursor, a parameter of `Start`. `time.sleep(RETRY_PERIOD)` has no
  effect on the state.
- `sys.exit` (homework.py:47) becomes the `aborts` flag of `CheckTokens`, and
  `Start` returns no bot. The exit message text is not modelled.
- The endless `while True` (homework.py:140) is modelled as one `Step`, plus
  `Run` over finite sequences of cycles.
- JSON numbers with a fraction are not part of the value model.
- `repr` follows CPython's escaping for U+0000 to U+00FF: the C0 controls,
  DEL, the C1 controls, U+00A0 and U+00AD are escaped. Every character above
  U+00FF is treated as printable, although CPython escapes some of them, for
  example U+200B and U+2028.
- A dict in the value model may list a key twice; lookup then takes the first
  entry. A dict decoded from JSON never has duplicates.
- The TypeError text for a list or dict status follows the wording CPython
  uses: `unhashable type: '<type>'`.
- Cursor monotonicity is not stated: homework.py:153 stores whatever
  `current_date` the server returns, of any type.
- exceptions.py is not part of this model. Its classes carry no logic. It does
  not define `APIConnectionError`, which homework.py:12 imports, so as written
  the import of `homework.py` fails. The model assumes the class exists, as
  its use at homework.py:75 intends.

# Homework-status bot: validation and message selection

A model of the core of a small Telegram bot that asks the Practicum homework
API for the review status of a student's assignments and tells the student
the verdict. The modelled part is the validation and message-selection logic
of `homework.py`:

- the verdict table `HOMEWORK_VERDICTS` (three status codes, three texts);
- `check_tokens`, which stops the bot when a credential is missing;
- `check_response`, which checks that the decoded API answer has the
  `homeworks` and `current_date` fields;
- `parse_status`, which maps one homework record to its verdict text;
- the start of `main`: the two checks with their `except` handlers and the
  `for` loop that leaves behind the message the send loop then sends.

Files:

- `wrappers.dfy`: `Option` (a Python value that may be `None`), `Result` and
  `Outcome` (a call that returns or raises).
- `json.dfy`: the decoded JSON value and `dict.get`.
- `exceptions.dfy`: `TokenError` and `ResponseError` carrying their message
  (their module is not part of this model), plus the built-in `KeyError`,
  `TypeError` and `AttributeError` the code can also raise.
- `homework.dfy`: the core.

Exceptions are modelled as `Err`/`Fail` values. `main` stops cleanly
(`Stopped`, having printed the message) only for the two project exceptions
it catches. Any other exception escapes `main` (`Crashed`); examples are
`AttributeError` when the answer is not a JSON object and `KeyError` for an
unknown status. When both checks pass and every record parses, the model
reaches `bot = Bot(...)` (`Polling`) with the chosen message, or with none
bound.

The `for` loop is modelled for every non-null value `homeworks` can hold,
because `check_response` never checks that it is a list:

- a list is iterated record by record;
- a string yields one-character strings, and `parse_status` rejects each;
- a dict yields its keys, which are strings, so the first key already raises
  `TypeError`, in whatever order the keys come;
- a number or a boolean is not iterable.

Behaviour of the code worth noting:

- `parse_status` returns the verdict text alone, with no assignment-name
  prefix.
- `check_response` checks that `current_date` is present.
- It does not check that `homeworks` is a list.
- A non-object answer is not a validation error: it makes `.get` raise
  `AttributeError`, which `main` does not catch.
- Only the last record's verdict survives the loop.
- There is no cursor advance, no de-duplication and no notification prefix.

## Model

| member | source | states |
|---|---|---|
| Homework.CheckTokens | homework.py:32-38 | passes iff all three credentials are set (any string, the empty one included); every failure is a TokenError |
| Homework.CheckTokensReportsFirstMissing | homework.py:32-38 | the error is the message of the first unset credential in the order Telegram token, Practicum token, chat id, against an independent left-to-right search; no error when none is unset |
| Homework.FirstMissing | homework.py:33-38 | reference search: returns nothing iff every slot is set, otherwise a slot that is unset with every earlier slot set |
| Homework.MissingMessagesDistinct | homework.py:33-38 | the three missing-credential messages differ from each other |
| Homework.CheckResponse | homework.py:54-59 | passes iff the answer is a dict whose `homeworks` and `current_date` are present and not null; a non-dict raises AttributeError on `.get`; every other failure is a ResponseError |
| Homework.HomeworksCheckedFirst | homework.py:55-56 | a missing or null `homeworks` gives the "missing homeworks" error whatever `current_date` holds |
| Homework.CurrentDateCheckedSecond | homework.py:57-59 | with `homeworks` present, a missing or null `current_date` gives the "missing current_date" error |
| Homework.HomeworksContentIgnored | homework.py:54-59 | any non-null `homeworks` value, list or not, with any records, is judged like the empty list |
| Homework.LookupVerdict | homework.py:63 | `HOMEWORK_VERDICTS[status]`: a table key gives its text; a list or dict raises TypeError (unhashable); any other value (null, number, bool, unknown string) raises KeyError carrying that value |
| Homework.ParseStatus | homework.py:62-63 | succeeds iff the record is a dict whose `status` is a string key of the verdict table; the result is always a table text; a non-dict raises TypeError, a missing `status` raises KeyError('status') |
| Homework.ParseStatusKnown | homework.py:25-29 | `approved`, `reviewing`, `rejected` give exactly their table texts and nothing added; every table key gives its table text |
| Homework.ParseStatusUnknown | homework.py:63 | any other status string raises KeyError carrying that status |
| Homework.ParseStatusDependsOnlyOnStatus | homework.py:63 | two records that agree on `status` give the same outcome, whatever their `name` or other fields |
| Homework.FirstFailure | homework.py:82-83 | the index of the first record parse_status rejects: every earlier record parses, the record at the index does not, or the index is the length |
| Homework.LastVerdict | homework.py:82-83 | reference outcome of the loop: succeeds iff every record parses; then no message exactly for no records, otherwise a table text; on failure, the exception of a record that fails with every earlier record parsing |
| Homework.CharsRoundTrip | homework.py:82 | iterating a string yields one-character strings which, joined in order, give the string back: every character visited once, in order |
| Homework.Selected | homework.py:82-83 | only a list can yield a message, and it is a table text; a string or dict yields no message when empty and raises TypeError otherwise; null, a number or a bool raises TypeError (not iterable) |
| Homework.SelectFromRecords | homework.py:82-83 | the loop's result equals LastVerdict: no message for no records, the last record's verdict when all parse, otherwise the first record's exception |
| Homework.DictKeys | homework.py:82 | iterating a dict visits every key exactly once, each as a string: as many items as keys, no item twice, every key among them |
| Homework.StringItemsRaise | homework.py:82-83 | a non-empty run of string items makes the loop raise TypeError at the first |
| Homework.SelectMessage | homework.py:82-83 | the loop over `response['homeworks']` yields Selected for every shape: list, string, dict, or a non-iterable value |
| Homework.SelectedFromString | homework.py:82-83 | a string `homeworks` yields no message when empty and TypeError otherwise |
| Homework.UnknownStatusSurfaces | homework.py:82-83 | the first record with an unknown status ends the loop with its exception; no later verdict is chosen |
| Homework.LastVerdictAppend | homework.py:82-83 | after a successful prefix, one more record that parses becomes the chosen message |
| Homework.RunUntilSendLoop | homework.py:68-83 | a missing token stops main with its message before the answer is looked at; a ResponseError stops it with its message; other exceptions escape; otherwise main reaches `bot = Bot(...)` with the chosen message, or with none bound |

## Left out

- Loading the environment and `.env` file and configuring logging (homework.py:11-18): process set-up. The three values become the `Credentials` input.
- `get_api_answer` (homework.py:48-51): an HTTP GET and JSON decoding. Its result is the `response` parameter of `RunUntilSendLoop`. Network errors and invalid JSON, which would escape `main`, are not modelled.
- `send_message` and the `Bot` constructor (homework.py:41-45, 85): calls into the Telegram library.
- The `while True` send loop with `time.sleep(10)` and its catch-all handler (homework.py:87-93): an unbounded I/O retry loop. The model stops where it starts. This includes the UnboundLocalError the first send raises when no message was bound, which the handler turns into a failure message.
- `int(time.time())` (homework.py:74): the wall clock; it only feeds the left-out API call.
- The class definitions of `TokenError` and `ResponseError`: their module is not part of this model. They are modelled as error values carrying their message.
- JSON floating-point numbers: every number is an integer here. A float would behave the same in this code: it is not None, it is hashable, it is not a table key and it is not iterable.
- Homework.DictKeys: visits each key once, but the model fixes no key order for iterating a dict (Python uses insertion order). The order cannot change the outcome, because every key is a string that `parse_status` rejects.
- The exact texts of the built-in `TypeError` and `AttributeError` messages: only their kind is modelled, since `main` never prints them.

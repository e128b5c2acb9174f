/** The homework-status bot: credential check, response shape check,
    status-to-verdict mapping, and the way `main` picks the message it
    will go on sending. */
module Homework {
  import opened Wrappers
  import opened Json
  import opened Exceptions

  // ---------------------------------------------------------------------
  // Verdict table
  // ---------------------------------------------------------------------

  const Approved := "Работа проверена: ревьюеру всё понравилось. Ура!"
  const Reviewing := "Работа взята на проверку ревьюером."
  const Rejected := "Работа проверена: у ревьюера есть замечания."

  /** HOMEWORK_VERDICTS: the fixed, read-only status-to-verdict map. */
  const Verdicts: map<string, string> :=
    map["approved" := Approved, "reviewing" := Reviewing, "rejected" := Rejected]

  // ---------------------------------------------------------------------
  // check_tokens
  // ---------------------------------------------------------------------

  /** The three values read from the environment at start-up; `None` when
      the variable is not set. */
  datatype Credentials = Credentials(
    telegramToken: Option<string>,
    practicumToken: Option<string>,
    chatId: Option<string>)

  const NoTelegramToken := "Отсутсвует токен телеграм API"
  const NoPracticumToken := "Отсутсвует токен API Practicum"
  const NoChatId := "Отсутсвует id чата"

  /** check_tokens: raises TokenError for the first value that is `None`,
      in the order Telegram token, Practicum token, chat id. */
  function CheckTokens(c: Credentials): (r: Outcome<PyError>)
    ensures r.Pass? <==> c.telegramToken.Some? && c.practicumToken.Some? && c.chatId.Some?
    ensures r.Fail? ==> r.error.TokenError?
  {
    if c.telegramToken.None? then Fail(TokenError(NoTelegramToken))
    else if c.practicumToken.None? then Fail(TokenError(NoPracticumToken))
    else if c.chatId.None? then Fail(TokenError(NoChatId))
    else Pass
  }

  /** The credentials, named, in the order they are checked. */
  datatype Slot = TelegramTokenSlot | PracticumTokenSlot | ChatIdSlot

  function Slots(c: Credentials): seq<(Slot, Option<string>)>
  {
    [(TelegramTokenSlot, c.telegramToken),
     (PracticumTokenSlot, c.practicumToken),
     (ChatIdSlot, c.chatId)]
  }

  /** The message that names a missing credential. */
  function MissingMessage(s: Slot): string
  {
    match s
    case TelegramTokenSlot => NoTelegramToken
    case PracticumTokenSlot => NoPracticumToken
    case ChatIdSlot => NoChatId
  }

  /** Reference definition: the first slot, scanning left to right, whose
      value is `None`. */
  function FirstMissing(slots: seq<(Slot, Option<string>)>): (m: Option<Slot>)
    ensures m.None? <==> forall i | 0 <= i < |slots| :: slots[i].1.Some?
    ensures m.Some? ==> exists i | 0 <= i < |slots| ::
      slots[i].0 == m.value && slots[i].1.None? &&
      forall j | 0 <= j < i :: slots[j].1.Some?
  {
    if slots == [] then None
    else if slots[0].1.None? then Some(slots[0].0)
    else
      var rest := FirstMissing(slots[1..]);
      assert forall i | 1 <= i < |slots| :: slots[i] == slots[1..][i - 1];
      rest
  }

  /** check_tokens reports exactly the first missing credential, each with
      its own message, and passes when none is missing. */
  lemma CheckTokensReportsFirstMissing(c: Credentials)
    ensures CheckTokens(c) ==
      match FirstMissing(Slots(c))
      case None => Pass
      case Some(s) => Fail(TokenError(MissingMessage(s)))
  {
    var slots := Slots(c);
    var tail1 := [(PracticumTokenSlot, c.practicumToken), (ChatIdSlot, c.chatId)];
    var tail2 := [(ChatIdSlot, c.chatId)];
    assert slots[1..] == tail1 && tail1[1..] == tail2 && tail2[1..] == [];
    assert FirstMissing(tail2) == if c.chatId.None? then Some(ChatIdSlot) else None;
    assert FirstMissing(tail1) ==
      if c.practicumToken.None? then Some(PracticumTokenSlot) else FirstMissing(tail2);
  }

  /** The three missing-credential messages are pairwise distinct. */
  lemma MissingMessagesDistinct(s1: Slot, s2: Slot)
    requires s1 != s2
    ensures MissingMessage(s1) != MissingMessage(s2)
  {
  }

  // ---------------------------------------------------------------------
  // check_response
  // ---------------------------------------------------------------------

  const NoHomeworksField := "В ответе от сервера отсутсвует поле: homeworks"
  const NoCurrentDateField := "В ответе от сервера отсутсвует поле: current_date"

  /** check_response: `homeworks` must be present and not null, then
      `current_date` must be. Calling `.get` on a decoded value that is not
      a dict raises AttributeError. */
  function CheckResponse(response: Json): (r: Outcome<PyError>)
    ensures r.Pass? <==>
      response.JObject? &&
      Get(response.fields, "homeworks") != JNull &&
      Get(response.fields, "current_date") != JNull
    ensures !response.JObject? ==> r == Fail(AttributeError("get"))
    ensures response.JObject? && r.Fail? ==> r.error.ResponseError?
  {
    match response
    case JObject(fields) =>
      if Get(fields, "homeworks") == JNull then Fail(ResponseError(NoHomeworksField))
      else if Get(fields, "current_date") == JNull then Fail(ResponseError(NoCurrentDateField))
      else Pass
    case _ => Fail(AttributeError("get"))
  }

  /** The `homeworks` check comes first: it decides the error whatever
      `current_date` holds. */
  lemma HomeworksCheckedFirst(fields: map<string, Json>)
    requires Get(fields, "homeworks") == JNull
    ensures CheckResponse(JObject(fields)) == Fail(ResponseError(NoHomeworksField))
  {
  }

  /** With `homeworks` present, a missing or null `current_date` is reported. */
  lemma CurrentDateCheckedSecond(fields: map<string, Json>)
    requires Get(fields, "homeworks") != JNull && Get(fields, "current_date") == JNull
    ensures CheckResponse(JObject(fields)) == Fail(ResponseError(NoCurrentDateField))
  {
  }

  /** The value of `homeworks` is never inspected beyond being non-null:
      any such value, list or not, records or not, behaves as the empty
      list would. */
  lemma HomeworksContentIgnored(fields: map<string, Json>, v: Json)
    requires v != JNull
    ensures CheckResponse(JObject(fields["homeworks" := v])) ==
            CheckResponse(JObject(fields["homeworks" := JArray([])]))
  {
  }

  // ---------------------------------------------------------------------
  // parse_status
  // ---------------------------------------------------------------------

  /** HOMEWORK_VERDICTS[status]: a missing key raises KeyError naming it; a
      list or dict raises TypeError because it cannot be hashed. */
  function LookupVerdict(status: Json): (r: Result<string, PyError>)
    ensures status.JString? && status.s in Verdicts ==> r == Ok(Verdicts[status.s])
    ensures status.JArray? || status.JObject? ==> r == Err(TypeError(Unhashable))
    ensures !(status.JString? && status.s in Verdicts) && !status.JArray? && !status.JObject? ==>
      r == Err(KeyError(status))
  {
    match status
    case JString(code) =>
      if code in Verdicts then Ok(Verdicts[code]) else Err(KeyError(status))
    case JArray(_) => Err(TypeError(Unhashable))
    case JObject(_) => Err(TypeError(Unhashable))
    case _ => Err(KeyError(status))
  }

  /** parse_status: the verdict for `homework['status']`, and nothing else. */
  function ParseStatus(homework: Json): (r: Result<string, PyError>)
    ensures r.Ok? <==>
      homework.JObject? && "status" in homework.fields &&
      homework.fields["status"].JString? && homework.fields["status"].s in Verdicts
    ensures r.Ok? ==> r.value in Verdicts.Values
    ensures !homework.JObject? ==> r == Err(TypeError(NotSubscriptable))
    ensures homework.JObject? && "status" !in homework.fields ==>
      r == Err(KeyError(JString("status")))
  {
    match homework
    case JObject(fields) =>
      if "status" in fields then LookupVerdict(fields["status"])
      else Err(KeyError(JString("status")))
    case _ => Err(TypeError(NotSubscriptable))
  }

  /** A record with status `s` (one of the table's keys) gives the table
      text for `s` exactly; the three table entries are as listed. */
  lemma ParseStatusKnown(homework: Json, code: string)
    requires homework.JObject? && "status" in homework.fields
    requires homework.fields["status"] == JString(code)
    ensures code == "approved" ==>
      ParseStatus(homework) == Ok("Работа проверена: ревьюеру всё понравилось. Ура!")
    ensures code == "reviewing" ==>
      ParseStatus(homework) == Ok("Работа взята на проверку ревьюером.")
    ensures code == "rejected" ==>
      ParseStatus(homework) == Ok("Работа проверена: у ревьюера есть замечания.")
    ensures code in Verdicts ==> ParseStatus(homework) == Ok(Verdicts[code])
  {
  }

  /** Any other status string raises KeyError carrying that status. */
  lemma ParseStatusUnknown(homework: Json, code: string)
    requires homework.JObject? && "status" in homework.fields
    requires homework.fields["status"] == JString(code)
    requires code != "approved" && code != "reviewing" && code != "rejected"
    ensures ParseStatus(homework) == Err(KeyError(JString(code)))
  {
  }

  /** The verdict depends on the `status` field alone: `name` and every
      other field play no part. */
  lemma ParseStatusDependsOnlyOnStatus(h1: Json, h2: Json)
    requires h1.JObject? && h2.JObject?
    requires ("status" in h1.fields) == ("status" in h2.fields)
    requires "status" in h1.fields ==> h1.fields["status"] == h2.fields["status"]
    ensures ParseStatus(h1) == ParseStatus(h2)
  {
  }

  // ---------------------------------------------------------------------
  // main: choosing the message (the `for` loop over the homeworks)
  // ---------------------------------------------------------------------

  /** The index of the first record parse_status rejects, or the length
      when it accepts them all. */
  function FirstFailure(records: seq<Json>): (k: nat)
    ensures k <= |records|
    ensures forall j | 0 <= j < k :: ParseStatus(records[j]).Ok?
    ensures k < |records| ==> ParseStatus(records[k]).Err?
  {
    if records == [] then 0
    else if ParseStatus(records[0]).Err? then 0
    else
      var k := FirstFailure(records[1..]);
      assert forall j | 1 <= j < |records| :: records[j] == records[1..][j - 1];
      1 + k
  }

  /** What the loop `for homework in ...: message = parse_status(homework)`
      leaves behind: the first exception raised, otherwise the verdict of
      the last record, or no bound message when there are no records. */
  function LastVerdict(records: seq<Json>): (r: Result<Option<string>, PyError>)
    ensures r.Ok? <==> forall j | 0 <= j < |records| :: ParseStatus(records[j]).Ok?
    ensures r.Ok? ==> (r.value.None? <==> records == [])
    ensures r.Ok? && r.value.Some? ==> r.value.value in Verdicts.Values
    ensures r.Err? ==> exists i | 0 <= i < |records| ::
      ParseStatus(records[i]) == Err(r.error) &&
      forall j | 0 <= j < i :: ParseStatus(records[j]).Ok?
  {
    var k := FirstFailure(records);
    if k < |records| then Err(ParseStatus(records[k]).error)
    else if records == [] then Ok(None)
    else Ok(Some(ParseStatus(records[|records| - 1]).value))
  }

  /** The items `for x in s` visits for a string `s`: its characters, as
      one-character strings. */
  function Chars(s: string): seq<Json>
  {
    seq(|s|, i requires 0 <= i < |s| => JString([s[i]]))
  }

  /** The strings of a run of items, joined end to end; items that are not
      strings contribute nothing. */
  function Joined(items: seq<Json>): string
  {
    if items == [] then ""
    else (if items[0].JString? then items[0].s else "") + Joined(items[1..])
  }

  /** Iterating a string visits every character once, in order: each item
      is a one-character string, and joining them gives the string back. */
  lemma {:induction false} CharsRoundTrip(s: string)
    ensures forall i | 0 <= i < |Chars(s)| :: Chars(s)[i].JString? && |Chars(s)[i].s| == 1
    ensures Joined(Chars(s)) == s
  {
    if s != "" {
      assert Chars(s)[1..] == Chars(s[1..]);
      CharsRoundTrip(s[1..]);
      assert s == [s[0]] + s[1..];
    }
  }

  /** The outcome of the message-selection loop over `response['homeworks']`
      for every shape that value can take. Iterating a dict visits its keys,
      all strings, so the first one already makes parse_status raise. */
  function Selected(homeworks: Json): (r: Result<Option<string>, PyError>)
    ensures r.Ok? && r.value.Some? ==> homeworks.JArray? && r.value.value in Verdicts.Values
    ensures homeworks.JString? ==> (r.Ok? <==> homeworks.s == "")
    ensures homeworks.JObject? ==> (r.Ok? <==> |homeworks.fields| == 0)
    ensures !homeworks.JArray? && r.Err? ==> r.error.TypeError?
    ensures homeworks.JNull? || homeworks.JBool? || homeworks.JNumber? ==>
      r == Err(TypeError(NotIterable))
  {
    match homeworks
    case JArray(items) => LastVerdict(items)
    case JString(s) => LastVerdict(Chars(s))
    case JObject(fields) =>
      if |fields| == 0 then Ok(None) else Err(TypeError(NotSubscriptable))
    case _ => Err(TypeError(NotIterable))
  }

  /** The loop itself: `message` is overwritten by each record's verdict in
      turn; the first record parse_status rejects ends the loop with that
      exception. */
  method SelectFromRecords(records: seq<Json>) returns (selected: Result<Option<string>, PyError>)
    ensures selected == LastVerdict(records)
    ensures records == [] ==> selected == Ok(None)
    ensures (forall j | 0 <= j < |records| :: ParseStatus(records[j]).Ok?) && records != [] ==>
      selected == Ok(Some(ParseStatus(records[|records| - 1]).value))
  {
    var message: Option<string> := None;
    for i := 0 to |records|
      invariant forall j | 0 <= j < i :: ParseStatus(records[j]).Ok?
      invariant message == if i == 0 then None else Some(ParseStatus(records[i - 1]).value)
    {
      var parsed := ParseStatus(records[i]);
      if parsed.Err? {
        return Err(parsed.error);
      }
      message := Some(parsed.value);
    }
    return Ok(message);
  }

  /** The keys of a dict in its iteration order, as the strings `for`
      yields. The order is whatever the dict holds; the model fixes none. */
  method DictKeys(fields: map<string, Json>) returns (keys: seq<Json>)
    ensures |keys| == |fields|
    ensures forall i | 0 <= i < |keys| :: keys[i].JString? && keys[i].s in fields
    ensures forall i, j | 0 <= i < j < |keys| :: keys[i] != keys[j]
    ensures forall k | k in fields :: JString(k) in keys
  {
    keys := [];
    var remaining := fields.Keys;
    while remaining != {}
      invariant remaining <= fields.Keys
      invariant |keys| + |remaining| == |fields.Keys|
      invariant forall i | 0 <= i < |keys| :: keys[i].JString? && keys[i].s in fields
      invariant forall i | 0 <= i < |keys| :: keys[i].s !in remaining
      invariant forall i, j | 0 <= i < j < |keys| :: keys[i] != keys[j]
      invariant forall k | k in fields && k !in remaining :: JString(k) in keys
    {
      var k :| k in remaining;
      keys := keys + [JString(k)];
      remaining := remaining - {k};
    }
  }

  /** Any non-empty run of strings makes the loop raise at its first item. */
  lemma StringItemsRaise(items: seq<Json>)
    requires items != []
    requires forall i | 0 <= i < |items| :: items[i].JString?
    ensures LastVerdict(items) == Err(TypeError(NotSubscriptable))
  {
  }

  /** `for homework in homeworks: message = parse_status(homework)`, on
      whatever value `homeworks` holds. */
  method SelectMessage(homeworks: Json) returns (selected: Result<Option<string>, PyError>)
    ensures selected == Selected(homeworks)
  {
    match homeworks
    case JArray(items) =>
      selected := SelectFromRecords(items);
    case JString(s) =>
      selected := SelectFromRecords(Chars(s));
    case JObject(fields) =>
      var keys := DictKeys(fields);
      selected := SelectFromRecords(keys);
      if keys != [] {
        StringItemsRaise(keys);
      }
    case _ =>
      selected := Err(TypeError(NotIterable));
  }

  /** A string `homeworks` yields no message when empty and raises at its
      first character otherwise. */
  lemma SelectedFromString(s: string)
    ensures Selected(JString(s)) ==
      if s == "" then Ok(None) else Err(TypeError(NotSubscriptable))
  {
  }

  /** A record with an unknown status ends the loop with that record's
      exception, whatever follows it: no later verdict is chosen. */
  lemma UnknownStatusSurfaces(records: seq<Json>, i: nat)
    requires i < |records|
    requires forall j | 0 <= j < i :: ParseStatus(records[j]).Ok?
    requires ParseStatus(records[i]).Err?
    ensures LastVerdict(records) == Err(ParseStatus(records[i]).error)
  {
  }

  /** Appending records after a successful prefix: the chosen message is
      that of the last appended record when all of them parse. */
  lemma LastVerdictAppend(records: seq<Json>, h: Json)
    requires LastVerdict(records).Ok?
    requires ParseStatus(h).Ok?
    ensures LastVerdict(records + [h]) == Ok(Some(ParseStatus(h).value))
  {
  }

  // ---------------------------------------------------------------------
  // main, up to the send loop
  // ---------------------------------------------------------------------

  /** Where `main` is once it has run up to `bot = Bot(...)`. */
  datatype MainOutcome =
    | Stopped(printed: string)             // an exception caught, printed, and `return`
    | Crashed(error: PyError)              // an exception that escapes `main`
    | Polling(message: Option<string>)     // the send loop starts; None: `message` unbound

  /** main, from its start to `bot = Bot(...)`: check the tokens, validate
      the API answer, pick the message. `response` is the decoded answer of the one API call. */
  method RunUntilSendLoop(c: Credentials, response: Json) returns (outcome: MainOutcome)
    ensures CheckTokens(c).Fail? ==> outcome == Stopped(CheckTokens(c).error.message)
    ensures CheckTokens(c).Pass? && CheckResponse(response).Fail? ==>
      outcome == (if CheckResponse(response).error.ResponseError?
                  then Stopped(CheckResponse(response).error.message)
                  else Crashed(CheckResponse(response).error))
    ensures CheckTokens(c).Pass? && CheckResponse(response).Pass? ==>
      outcome == match Selected(response.fields["homeworks"])
                 case Ok(m) => Polling(m)
                 case Err(e) => Crashed(e)
    ensures outcome.Polling? <==>
      CheckTokens(c).Pass? && CheckResponse(response).Pass? &&
      Selected(response.fields["homeworks"]).Ok?
  {
    var tokens := CheckTokens(c);
    if tokens.Fail? {
      return Stopped(tokens.error.message);
    }
    var checked := CheckResponse(response);
    if checked.Fail? {
      if checked.error.ResponseError? {
        return Stopped(checked.error.message);
      }
      return Crashed(checked.error);
    }
    var selected := SelectMessage(response.fields["homeworks"]);
    match selected
    case Ok(m) => outcome := Polling(m);
    case Err(e) => outcome := Crashed(e);
  }
}

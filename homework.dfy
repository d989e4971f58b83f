/**
 * The checks of the homework-status bot: the start-up check of its three
 * secrets, the shape check of a status-API reply and the formatting of one
 * submission record into the notification text.
 */
module Homework {
  import opened Wrappers
  import opened PyDict
  import opened PyValue

  /** The review statuses the bot knows, each with the sentence it reports. */
  const HomeworkVerdicts: map<string, string> := map[
    "approved" := "Работа проверена: ревьюеру всё понравилось. Ура!",
    "reviewing" := "Работа взята на проверку ревьюером.",
    "rejected" := "Работа проверена: у ревьюера есть замечания."
  ]

  // ---------------------------------------------------------------------
  // Secrets
  // ---------------------------------------------------------------------

  /** The three secrets read from the environment; `None` when the variable is unset. */
  datatype Env = Env(
    practicumToken: Option<string>,
    telegramToken: Option<string>,
    telegramChatId: Option<string>)

  const MissingTokenNote := "Отсутвует переменная окружения "

  /** All three secrets are set; an empty value counts as set. */
  predicate TokensPresent(env: Env) {
    env.practicumToken.Some? && env.telegramToken.Some? && env.telegramChatId.Some?
  }

  /**
   * The name of the last secret, in the order practicum token, telegram token,
   * chat id, that is unset, or `None` when all are set.
   */
  function LastMissingName(env: Env): (r: Option<string>)
    ensures r.None? <==> TokensPresent(env)
  {
    if env.telegramChatId.None? then Some("TELEGRAM_CHAT_ID")
    else if env.telegramToken.None? then Some("TELEGRAM_TOKEN")
    else if env.practicumToken.None? then Some("PRACTICUM_TOKEN")
    else None
  }

  /**
   * The dict `check_tokens` builds, keyed by each secret's value and holding its
   * variable name. Secrets with equal values share one entry, which keeps the
   * position of the first of them and the name of the last.
   */
  function TokenTable(env: Env): (table: Dict<Option<string>, string>)
    ensures DistinctKeys(table) && 1 <= |table| <= 3
    ensures HasKey(table, None) <==> !TokensPresent(env)
    ensures LastMissingName(env).Some? ==> Get(table, None) == LastMissingName(env)
  {
    var t1 := Insert([], env.practicumToken, "PRACTICUM_TOKEN");
    var t2 := Insert(t1, env.telegramToken, "TELEGRAM_TOKEN");
    Insert(t2, env.telegramChatId, "TELEGRAM_CHAT_ID")
  }

  /**
   * `check_tokens`: walks the keys of the token dict and raises `ValueError`
   * naming the variable stored under the key `None`. It fails exactly when a
   * secret is unset, and then names the last unset one.
   */
  method CheckTokens(env: Env) returns (r: Outcome<PyError>)
    ensures r.Pass? <==> TokensPresent(env)
    ensures r.Fail? ==> r.error == ValueError(MissingTokenNote + LastMissingName(env).value)
  {
    var tokens := TokenTable(env);
    for i := 0 to |tokens|
      invariant forall j :: 0 <= j < i ==> tokens[j].0.Some?
    {
      var token := tokens[i].0;
      if token.None? {
        var name := Get(tokens, token).value;
        return Fail(ValueError(MissingTokenNote + name));
      }
    }
    return Pass;
  }

  // ---------------------------------------------------------------------
  // The status-API reply
  // ---------------------------------------------------------------------

  /** `response['homeworks']` of a dict reply, or `None` when the key is absent. */
  function HomeworksField(response: Json): Option<Json>
    requires response.JObject?
  {
    Get(response.members, "homeworks")
  }

  /** A reply the bot can use: a dict whose `homeworks` is a list. */
  predicate WellShaped(response: Json) {
    response.JObject? && HomeworksField(response).Some? && HomeworksField(response).value.JList?
  }

  /**
   * `check_response`: a false reply raises a plain `Exception`, then a reply that
   * is not a dict raises `TypeError`, one without `homeworks` raises `KeyError`,
   * and one whose `homeworks` is not a list raises `TypeError`; a later check is
   * reached only when the earlier ones pass. A well-shaped reply yields its list.
   */
  function CheckResponse(response: Json): (r: Result<seq<Json>, PyError>)
    ensures r.Success? <==> WellShaped(response)
    ensures r.Success? ==> JList(r.value) == HomeworksField(response).value
    ensures !Truthy(response) ==> r == Failure(PlainException)
    ensures Truthy(response) && !response.JObject? ==> r == Failure(TypeError(""))
    ensures response.JObject? && Truthy(response) && HomeworksField(response).None?
            ==> r == Failure(KeyError(None))
    ensures response.JObject? && HomeworksField(response).Some? && !WellShaped(response)
            ==> r == Failure(TypeError(""))
  {
    if !Truthy(response) then Failure(PlainException)
    else if !response.JObject? then Failure(TypeError(""))
    else match Get(response.members, "homeworks")
      case None => Failure(KeyError(None))
      case Some(homeworks) =>
        if !homeworks.JList? then Failure(TypeError(""))
        else Success(homeworks.items)
  }

  // ---------------------------------------------------------------------
  // One submission record
  // ---------------------------------------------------------------------

  const MissingFieldNote := "В ответе API отсутствует имя работы или статус"
  const UnknownStatusNote := "Недокументированный статус домашней работы - "
  const StatusPrefix := "Изменился статус проверки работы \""

  /** `homework.get(key)` of a dict record: the value, or `None` when absent. */
  function Field(homework: Json, key: string): Json
    requires homework.JObject?
  {
    Get(homework.members, key).GetOr(JNull)
  }

  /** The verdict sentence for a status value; only the three known strings have one. */
  function VerdictFor(status: Json): (r: Option<string>)
    ensures r.Some? <==> status.JStr? && status.s in HomeworkVerdicts
    ensures r.Some? ==> r.value == HomeworkVerdicts[status.s] && r.value != ""
  {
    if status.JStr? && status.s in HomeworkVerdicts then Some(HomeworkVerdicts[status.s])
    else None
  }

  /** The notification for a record named `name` whose status reads `verdict`. */
  function StatusMessage(name: Json, verdict: string): (m: string)
    ensures |m| > |StatusPrefix| + |verdict| && m[..|StatusPrefix|] == StatusPrefix
    ensures m[|StatusPrefix|..|m| - |verdict|] == Str(name) + "\". "
    ensures m[|m| - |verdict|..] == verdict
  {
    StatusPrefix + Str(name) + "\". " + verdict
  }

  /** The record is a dict with a true `homework_name` and a true `status`. */
  predicate FieldsPresent(homework: Json) {
    homework.JObject? && Truthy(Field(homework, "homework_name")) && Truthy(Field(homework, "status"))
  }

  /**
   * `parse_status`: a record that is not a dict has no `get`; a record whose
   * name or status is absent or false raises `KeyError`, whatever the status;
   * a list or dict status cannot be looked up; any other status outside the
   * verdict table raises `ValueError` naming it. Otherwise the text names the
   * record and gives the verdict of its status.
   */
  function ParseStatus(homework: Json): (r: Result<string, PyError>)
    ensures r.Success? <==> FieldsPresent(homework) && VerdictFor(Field(homework, "status")).Some?
    ensures r.Success? ==>
      r.value == StatusPrefix + Str(Field(homework, "homework_name")) + "\". "
                 + HomeworkVerdicts[Field(homework, "status").s]
    ensures !homework.JObject? ==>
      r == Failure(AttributeError("'" + TypeName(homework) + "' object has no attribute 'get'"))
    ensures homework.JObject? && !FieldsPresent(homework) ==> r == Failure(KeyError(Some(MissingFieldNote)))
    ensures r.Failure? && r.error.ValueError? <==>
      FieldsPresent(homework) && Hashable(Field(homework, "status"))
      && VerdictFor(Field(homework, "status")).None?
    ensures r.Failure? && r.error.ValueError? ==>
      r.error.msg == UnknownStatusNote + Str(Field(homework, "status"))
    ensures r.Failure? && r.error.TypeError? <==> FieldsPresent(homework) && !Hashable(Field(homework, "status"))
  {
    if !homework.JObject? then
      Failure(AttributeError("'" + TypeName(homework) + "' object has no attribute 'get'"))
    else
      var homeworkName := Field(homework, "homework_name");
      var homeworkStatus := Field(homework, "status");
      if !(Truthy(homeworkName) && Truthy(homeworkStatus)) then
        Failure(KeyError(Some(MissingFieldNote)))
      else if !Hashable(homeworkStatus) then
        Failure(TypeError("unhashable type: '" + TypeName(homeworkStatus) + "'"))
      else match VerdictFor(homeworkStatus)
        case None => Failure(ValueError(UnknownStatusNote + Str(homeworkStatus)))
        case Some(verdict) => Success(StatusMessage(homeworkName, verdict))
  }

  /** A record named `hw1` with status `approved` gives the approval notice. */
  lemma ApprovedRecordExample()
    ensures ParseStatus(JObject([("homework_name", JStr("hw1")), ("status", JStr("approved"))]))
         == Success(StatusPrefix + "hw1" + "\". " + "Работа проверена: ревьюеру всё понравилось. Ура!")
  {
    var homework := JObject([("homework_name", JStr("hw1")), ("status", JStr("approved"))]);
    IndexOfFirst(homework.members, "homework_name", 0);
    IndexOfFirst(homework.members, "status", 1);
    assert Field(homework, "homework_name") == JStr("hw1");
    assert Field(homework, "status") == JStr("approved");
  }

  /** A status outside the table, such as `in_progress`, is reported by name in a `ValueError`. */
  lemma UnknownStatusExample()
    ensures ParseStatus(JObject([("homework_name", JStr("hw1")), ("status", JStr("in_progress"))]))
         == Failure(ValueError(UnknownStatusNote + "in_progress"))
  {
    var homework := JObject([("homework_name", JStr("hw1")), ("status", JStr("in_progress"))]);
    IndexOfFirst(homework.members, "homework_name", 0);
    IndexOfFirst(homework.members, "status", 1);
    assert Field(homework, "homework_name") == JStr("hw1");
    assert Field(homework, "status") == JStr("in_progress");
    assert VerdictFor(JStr("in_progress")).None?;
  }
}

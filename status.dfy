/** The verdict table and the interpretation of one homework record
    (homework.py:25-29, 110-130). */
module Status {
  import opened Python

  const Approved := "approved"
  const Reviewing := "reviewing"
  const Rejected := "rejected"

  /** `HOMEWORK_VERDICTS`. */
  const Verdicts: map<string, string> := map[
    Approved := "Работа проверена: ревьюеру всё понравилось. Ура!",
    Reviewing := "Работа взята на проверку ревьюером.",
    Rejected := "Работа проверена: у ревьюера есть замечания."
  ]

  const ChangePrefix := "Изменился статус проверки работы \""
  const MissingNameText := "Отсутствует ключ \"homework_name\" в ответе API"
  const UnknownStatusPrefix := "Неизвестный статус работы- "

  /** What the text of a status change looks like for a given name and
      verdict. */
  function Notification(name: string, verdict: string): string
  {
    ChangePrefix + name + "\". " + verdict
  }

  /** `status in HOMEWORK_VERDICTS`; a list or a dict cannot be hashed and
      makes the test raise instead. */
  predicate Known(status: Json)
  {
    status.JStr? && status.s in Verdicts
  }

  predicate Unhashable(v: Json)
  {
    v.JList? || v.JDict?
  }

  /** `parse_status(homework)`. */
  function ParseStatus(homework: Json): (r: Result<string>)
    ensures !homework.JDict? ==>
              r == Err(AttributeError("'" + TypeName(homework) + "' object has no attribute 'get'"))
    ensures homework.JDict? ==>
              var name := Get(homework.entries, "homework_name", JNone);
              var status := Get(homework.entries, "status", JNone);
              && (name == JNone ==> r == Err(KeyError(MissingNameText)))
              && (name != JNone && Unhashable(status) ==>
                    r == Err(TypeError("unhashable type: '" + TypeName(status) + "'")))
              && (name != JNone && !Unhashable(status) && !Known(status) ==>
                    r == Err(ValueError(UnknownStatusPrefix + Str(status))))
              && (name != JNone && Known(status) ==>
                    r == Ok(Notification(Str(name), Verdicts[status.s])))
    ensures r.Ok? <==> homework.JDict? && Get(homework.entries, "homework_name", JNone) != JNone
                       && Known(Get(homework.entries, "status", JNone))
  {
    if !homework.JDict? then
      Err(AttributeError("'" + TypeName(homework) + "' object has no attribute 'get'"))
    else
      var name := Get(homework.entries, "homework_name", JNone);
      var status := Get(homework.entries, "status", JNone);
      if name == JNone then Err(KeyError(MissingNameText))
      else if Unhashable(status) then Err(TypeError("unhashable type: '" + TypeName(status) + "'"))
      else if !Known(status) then Err(ValueError(UnknownStatusPrefix + Str(status)))
      else Ok(Notification(Str(name), Verdicts[status.s]))
  }

  /** A record with a string name and a known status is turned into a text
      that holds the name and exactly that status's verdict, and nothing is
      raised. */
  lemma StringRecordIsInterpreted(entries: seq<(string, Json)>, name: string, status: string)
    requires Lookup(entries, "homework_name") == Some(JStr(name))
    requires Lookup(entries, "status") == Some(JStr(status))
    requires status == Approved || status == Reviewing || status == Rejected
    ensures ParseStatus(JDict(entries)).Ok?
    ensures var text := ParseStatus(JDict(entries)).value;
            && text[..|ChangePrefix|] == ChangePrefix
            && text[|ChangePrefix|..|ChangePrefix| + |name|] == name
            && text[|text| - |Verdicts[status]|..] == Verdicts[status]
  {
    assert Get(entries, "homework_name", JNone) == JStr(name);
    assert Get(entries, "status", JNone) == JStr(status);
    var text := Notification(name, Verdicts[status]);
    assert ParseStatus(JDict(entries)) == Ok(text);
    assert text == ChangePrefix + name + "\". " + Verdicts[status];
  }

  /** The name is checked first: a missing name wins over any status. */
  lemma MissingNameWins(entries: seq<(string, Json)>)
    requires Get(entries, "homework_name", JNone) == JNone
    ensures ParseStatus(JDict(entries)) == Err(KeyError(MissingNameText))
  {
  }

  /** Every text `parse_status` returns opens with the status-change
      prefix, whatever the record held. */
  lemma NotificationsOpenWithPrefix(homework: Json)
    requires ParseStatus(homework).Ok?
    ensures |ParseStatus(homework).value| > |ChangePrefix|
    ensures ParseStatus(homework).value[..|ChangePrefix|] == ChangePrefix
  {
  }
}

/** The upstream call and the shape check of its answer
    (homework.py:58-107). The HTTP exchange itself is an input: what the
    transport reported, the status code, and whether the body decoded. */
module Response {
  import opened Python

  const Endpoint := "https://practicum.yandex.ru/api/user_api/homework_statuses/"
  const HttpOk := 200

  /** What `response.json()` made of a body. */
  datatype Body = Decoded(value: Json) | Undecodable(reason: string)

  /** What one `requests.get` call produced. */
  datatype FetchOutcome =
    | ConnectionFailed(reason: string)
    | Answered(statusCode: int, body: Body)

  const FromDateRepr := "'from_date'"

  /** The request parameters as the diagnostic prints them. */
  function PayloadText(timestamp: Json): string
  {
    "{" + (FromDateRepr + ": " + Repr(timestamp)) + "}"
  }

  /** That text is the `repr` of the dict `{'from_date': timestamp}`. */
  lemma PayloadIsRepr(timestamp: Json)
    ensures PayloadText(timestamp) == Repr(JDict([("from_date", timestamp)]))
  {
    FromDateIsPlain();
  }

  lemma FromDateIsPlain()
    ensures ReprStr("from_date") == FromDateRepr
  {
    var key := "from_date";
    assert forall k :: 0 <= k < |key| ==> 'a' <= key[k] <= 'z' || key[k] == '_';
    ReprPlain(key);
  }

  /** `get_api_answer(timestamp)` once the exchange has produced `outcome`. */
  function GetApiAnswer(timestamp: Json, outcome: FetchOutcome): (r: Result<Json>)
    ensures outcome.ConnectionFailed? ==>
              r == Err(ApiConnectionError("При подключении к API возникла ошибка: " + outcome.reason
                                          + ", URL: " + Endpoint + ", Параметры: " + PayloadText(timestamp)))
    ensures outcome.Answered? && outcome.statusCode != HttpOk ==>
              r == Err(ApiCallError("Статус-код ответа не 200 - " + IntText(outcome.statusCode)))
    ensures outcome.Answered? && outcome.statusCode == HttpOk && outcome.body.Undecodable? ==>
              r == Err(JsonDecodeError(outcome.body.reason))
    ensures r.Ok? <==> outcome.Answered? && outcome.statusCode == HttpOk && outcome.body.Decoded?
    ensures r.Ok? ==> r.value == outcome.body.value
  {
    match outcome
    case ConnectionFailed(reason) =>
      Err(ApiConnectionError("При подключении к API возникла ошибка: " + reason
                             + ", URL: " + Endpoint + ", Параметры: " + PayloadText(timestamp)))
    case Answered(code, body) =>
      if code != HttpOk then Err(ApiCallError("Статус-код ответа не 200 - " + IntText(code)))
      else match body
        case Decoded(value) => Ok(value)
        case Undecodable(reason) => Err(JsonDecodeError(reason))
  }

  const HomeworksKey := "homeworks"
  const CurrentDateKey := "current_date"
  const MissingKeyText := "Ожидаемый ключ отсутствует."

  /** `check_response(response)`: the homework list, or the first of three
      shape errors in the order the source tests them. */
  function CheckResponse(response: Json): (r: Result<seq<Json>>)
    ensures !response.JDict? ==>
              r == Err(TypeError("Ответ API не является словарем - " + TypeText(response)))
    ensures response.JDict? && Lookup(response.entries, HomeworksKey).None? ==>
              r == Err(KeyError(MissingKeyText))
    ensures response.JDict? && Lookup(response.entries, HomeworksKey).Some? ==>
              var homeworks := Lookup(response.entries, HomeworksKey).value;
              (!homeworks.JList? ==>
                 r == Err(TypeError("Значение ключа \"homeworks\" не является списком - " + TypeText(homeworks))))
              && (homeworks.JList? ==> r == Ok(homeworks.items))
    ensures r.Ok? <==> response.JDict? && Lookup(response.entries, HomeworksKey).Some?
                       && Lookup(response.entries, HomeworksKey).value.JList?
  {
    if !response.JDict? then
      Err(TypeError("Ответ API не является словарем - " + TypeText(response)))
    else if Lookup(response.entries, HomeworksKey).None? then
      Err(KeyError(MissingKeyText))
    else
      var homeworks := Get(response.entries, HomeworksKey, JNone);
      if !homeworks.JList? then
        Err(TypeError("Значение ключа \"homeworks\" не является списком - " + TypeText(homeworks)))
      else Ok(homeworks.items)
  }

  /** Whether `current_date` is present, and what it holds, never changes the
      outcome of the check: two answers that differ only under that key are
      judged alike. */
  lemma CheckResponseIgnoresCurrentDate(a: seq<(string, Json)>, b: seq<(string, Json)>)
    requires Without(a, CurrentDateKey) == Without(b, CurrentDateKey)
    ensures CheckResponse(JDict(a)) == CheckResponse(JDict(b))
  {
    LookupWithout(a, CurrentDateKey, HomeworksKey);
    LookupWithout(b, CurrentDateKey, HomeworksKey);
  }
}

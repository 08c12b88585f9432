/** The startup check of the three credentials (homework.py:32-48). Each
    value is what `os.getenv` returned: a string, or `None` when unset. */
module Tokens {
  import opened Python

  /** Python truthiness of an optional string: `None` and `''` are false. */
  predicate Falsy(value: Option<string>)
  {
    value == None || value == Some("")
  }

  /** Whether startup goes on, and the names reported missing in order. */
  datatype StartupDecision = StartupDecision(missing: seq<string>, aborts: bool)

  /** `[token for token in checked if not value(token)]`. */
  function Missing(checked: seq<(string, Option<string>)>): (r: seq<string>)
    ensures |r| <= |checked|
  {
    if |checked| == 0 then []
    else (if Falsy(checked[0].1) then [checked[0].0] else []) + Missing(checked[1..])
  }

  /** Filtering a concatenation filters each part in turn, so the missing
      names keep the order in which they are checked. */
  lemma {:induction false} MissingAppend(a: seq<(string, Option<string>)>, b: seq<(string, Option<string>)>)
    ensures Missing(a + b) == Missing(a) + Missing(b)
  {
    if |a| > 0 {
      assert (a + b)[1..] == a[1..] + b;
      MissingAppend(a[1..], b);
    } else {
      assert a + b == b;
    }
  }

  /** A name is reported exactly when some checked entry with that name is
      falsy. */
  lemma {:induction false} MissingMembers(checked: seq<(string, Option<string>)>, name: string)
    ensures name in Missing(checked) <==>
            exists i :: 0 <= i < |checked| && checked[i].0 == name && Falsy(checked[i].1)
  {
    if |checked| > 0 {
      MissingMembers(checked[1..], name);
      if name in Missing(checked[1..]) {
        var i :| 0 <= i < |checked| - 1 && checked[1..][i].0 == name && Falsy(checked[1..][i].1);
        assert checked[i + 1] == checked[1..][i];
      }
      if exists i :: 1 <= i < |checked| && checked[i].0 == name && Falsy(checked[i].1) {
        var i :| 1 <= i < |checked| && checked[i].0 == name && Falsy(checked[i].1);
        assert checked[1..][i - 1] == checked[i];
      }
    }
  }

  const PracticumName := "PRACTICUM_TOKEN"
  const TelegramName := "TELEGRAM_TOKEN"
  const ChatIdName := "TELEGRAM_CHAT_ID"

  function Only(name: string, value: Option<string>): seq<string>
  {
    if Falsy(value) then [name] else []
  }

  /** `check_tokens()`: the missing names, checked in the order
      PRACTICUM_TOKEN, TELEGRAM_TOKEN, TELEGRAM_CHAT_ID, and `sys.exit` as
      soon as one is missing. */
  function CheckTokens(practicum: Option<string>, telegram: Option<string>, chatId: Option<string>)
    : (d: StartupDecision)
    ensures d.missing == Only(PracticumName, practicum) + Only(TelegramName, telegram)
                         + Only(ChatIdName, chatId)
    ensures d.aborts <==> Falsy(practicum) || Falsy(telegram) || Falsy(chatId)
    ensures d.aborts <==> d.missing != []
  {
    var checked := [(PracticumName, practicum), (TelegramName, telegram), (ChatIdName, chatId)];
    var missing := Missing(checked);
    MissingAppend([checked[0]], checked[1..]);
    MissingAppend([checked[1]], checked[2..]);
    assert checked[1..] == [checked[1]] + checked[2..];
    StartupDecision(missing, missing != [])
  }
}

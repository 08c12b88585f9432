/** The polling loop of `main` (homework.py:133-164), one cycle at a time.
    The state is the cursor `timestamp` and the dedup memory
    `previous_message`; each cycle is given what the upstream call produced
    and whether the Telegram send, if one is made, goes through. */
module Bot {
  import opened Python
  import opened Tokens
  import opened Response
  import opened Status

  /** The two variables `main` keeps across cycles. */
  datatype BotState = BotState(timestamp: Json, previousMessage: string)

  /** The state after a cycle, the text whose send was attempted (at most one
      per cycle) and whether it was delivered. */
  datatype CycleResult = CycleResult(next: BotState, attempted: Option<string>, delivered: bool)

  const FailurePrefix := "Сбой в работе программы: "

  /** The text the generic handler builds from a caught exception. */
  function FailureReport(e: PyError): string
  {
    FailurePrefix + e.Text()
  }

  /** How far the body of the `try` gets before any send. */
  datatype Attempt =
    | Failed(error: PyError)
    | NoNews
    | Fresh(message: string, newCursor: Json)

  /** The `try` body up to the send: fetch, check, interpret the first
      homework; `newCursor` is `response.get('current_date', timestamp)`. */
  function TryBlock(timestamp: Json, outcome: FetchOutcome): Attempt
  {
    match GetApiAnswer(timestamp, outcome)
    case Err(e) => Failed(e)
    case Ok(response) =>
      match CheckResponse(response)
      case Err(e) => Failed(e)
      case Ok(homeworks) =>
        if |homeworks| == 0 then NoNews
        else match ParseStatus(homeworks[0])
          case Err(e) => Failed(e)
          case Ok(message) => Fresh(message, Get(response.entries, CurrentDateKey, timestamp))
  }

  /** One cycle of the loop. A send is made only of a text that differs from
      the remembered one, the memory changes only when a send is delivered,
      and the cursor moves only once a status text is sent or suppressed. */
  function Cycle(s: BotState, outcome: FetchOutcome, sendOk: bool): (c: CycleResult)
    ensures c.attempted.Some? ==> c.attempted.value != s.previousMessage
    ensures c.delivered <==> c.attempted.Some? && sendOk
    ensures c.next.previousMessage == if c.delivered then c.attempted.value else s.previousMessage
    ensures c.next.timestamp != s.timestamp ==>
              TryBlock(s.timestamp, outcome).Fresh?
              && c.next.timestamp == TryBlock(s.timestamp, outcome).newCursor
    ensures TryBlock(s.timestamp, outcome).NoNews? ==> c == CycleResult(s, None, false)
    ensures TryBlock(s.timestamp, outcome).Fresh? ==>
              var t := TryBlock(s.timestamp, outcome);
              && (t.message == s.previousMessage ==>
                    c == CycleResult(BotState(t.newCursor, s.previousMessage), None, false))
              && (t.message != s.previousMessage ==> c.attempted == Some(t.message))
    ensures TryBlock(s.timestamp, outcome).Failed? ==>
              var report := FailureReport(TryBlock(s.timestamp, outcome).error);
              c.attempted == if report == s.previousMessage then None else Some(report)
  {
    match TryBlock(s.timestamp, outcome)
    case NoNews => CycleResult(s, None, false)
    case Fresh(message, cursor) =>
      if message == s.previousMessage then CycleResult(BotState(cursor, s.previousMessage), None, false)
      else if sendOk then CycleResult(BotState(cursor, message), Some(message), true)
      else CycleResult(s, Some(message), false)
    case Failed(e) =>
      var report := FailureReport(e);
      if report == s.previousMessage then CycleResult(s, None, false)
      else if sendOk then CycleResult(BotState(s.timestamp, report), Some(report), true)
      else CycleResult(s, Some(report), false)
  }

  /** After a status text is sent or suppressed, the cursor is the answer's
      `current_date` if it has one and stays put otherwise. */
  lemma CursorFollowsCurrentDate(s: BotState, entries: seq<(string, Json)>, homeworks: seq<Json>,
                                  message: string, sendOk: bool)
    requires Lookup(entries, HomeworksKey) == Some(JList(homeworks)) && |homeworks| > 0
    requires ParseStatus(homeworks[0]) == Ok(message)
    requires sendOk || message == s.previousMessage
    ensures var c := Cycle(s, Answered(HttpOk, Decoded(JDict(entries))), sendOk);
            && (Lookup(entries, CurrentDateKey).Some? ==> c.next.timestamp == Lookup(entries, CurrentDateKey).value)
            && (Lookup(entries, CurrentDateKey).None? ==> c.next.timestamp == s.timestamp)
  {
    var outcome := Answered(HttpOk, Decoded(JDict(entries)));
    assert GetApiAnswer(s.timestamp, outcome) == Ok(JDict(entries));
    assert CheckResponse(JDict(entries)) == Ok(homeworks);
    var cursor := Get(entries, CurrentDateKey, s.timestamp);
    assert TryBlock(s.timestamp, outcome) == Fresh(message, cursor);
    if message == s.previousMessage {
      assert Cycle(s, outcome, sendOk).next == BotState(cursor, s.previousMessage);
    } else {
      assert Cycle(s, outcome, sendOk).next == BotState(cursor, message);
    }
  }

  /** Every other way through the cycle leaves the cursor where it was: a
      failed fetch, a rejected answer, an empty homework list, a record that
      cannot be interpreted, or a status text whose send failed. */
  lemma CursorHeld(s: BotState, outcome: FetchOutcome, sendOk: bool)
    ensures var c := Cycle(s, outcome, sendOk);
            var answer := GetApiAnswer(s.timestamp, outcome);
            && (answer.Err? ==> c.next.timestamp == s.timestamp)
            && (answer.Ok? && CheckResponse(answer.value).Err? ==> c.next.timestamp == s.timestamp)
            && (answer.Ok? && CheckResponse(answer.value).Ok? ==>
                  var homeworks := CheckResponse(answer.value).value;
                  && (|homeworks| == 0 ==> c == CycleResult(s, None, false))
                  && (|homeworks| > 0 && ParseStatus(homeworks[0]).Err? ==> c.next.timestamp == s.timestamp)
                  && (|homeworks| > 0 && ParseStatus(homeworks[0]).Ok?
                      && ParseStatus(homeworks[0]).value != s.previousMessage && !sendOk ==>
                        c.next.timestamp == s.timestamp))
  {
  }

  /** A failure of the normal send is only logged: nothing else is sent and
      neither variable changes. */
  lemma FailedNotificationChangesNothing(s: BotState, outcome: FetchOutcome, message: string, cursor: Json)
    requires TryBlock(s.timestamp, outcome) == Fresh(message, cursor)
    requires message != s.previousMessage
    ensures Cycle(s, outcome, false) == CycleResult(s, Some(message), false)
  {
  }

  /** Any other failure is reported as "Сбой в работе программы: <detail>",
      sent only when it differs from the remembered text; a failed send of
      the report is swallowed and leaves the memory as it was. */
  lemma FailureIsReported(s: BotState, outcome: FetchOutcome, sendOk: bool, e: PyError)
    requires TryBlock(s.timestamp, outcome) == Failed(e)
    ensures var c := Cycle(s, outcome, sendOk);
            && c.attempted == (if FailureReport(e) != s.previousMessage then Some(FailureReport(e)) else None)
            && c.next.timestamp == s.timestamp
            && c.next.previousMessage == (if c.attempted.Some? && sendOk then FailureReport(e) else s.previousMessage)
  {
  }

  /** A failure report can never be mistaken for a status text, so neither
      ever suppresses the other. */
  lemma ReportDiffersFromNotification(e: PyError, homework: Json)
    requires ParseStatus(homework).Ok?
    ensures FailureReport(e) != ParseStatus(homework).value
  {
    NotificationsOpenWithPrefix(homework);
    assert ParseStatus(homework).value[0] == ChangePrefix[0];
    assert FailureReport(e)[0] == FailurePrefix[0];
  }

  /** Repeating a cycle whose send went through, against the same upstream
      answer, sends nothing and changes nothing. */
  lemma {:induction false} RepeatIsQuiet(s: BotState, outcome: FetchOutcome, sendOk: bool)
    ensures var first := Cycle(s, outcome, true);
            Cycle(first.next, outcome, sendOk) == CycleResult(first.next, None, false)
  {
    var first := Cycle(s, outcome, true);
    match TryBlock(s.timestamp, outcome)
    case NoNews =>
    case Failed(e) =>
      assert first.next.timestamp == s.timestamp;
    case Fresh(message, cursor) =>
      var response := GetApiAnswer(s.timestamp, outcome).value;
      assert GetApiAnswer(first.next.timestamp, outcome) == Ok(response);
      assert first.next.previousMessage == message;
      if Lookup(response.entries, CurrentDateKey).Some? {
        assert TryBlock(first.next.timestamp, outcome) == Fresh(message, cursor);
      } else {
        assert cursor == s.timestamp;
      }
  }

  /** Two cycles whose answers differ at most in `current_date`, the first
      with a working send: a new status text is sent on the first and only
      on the first, because the second finds the same text remembered. */
  lemma TwoCyclesSendOnce(s: BotState, a: seq<(string, Json)>, b: seq<(string, Json)>,
                          homeworks: seq<Json>, message: string, sendOk: bool)
    requires Without(a, CurrentDateKey) == Without(b, CurrentDateKey)
    requires Lookup(a, HomeworksKey) == Some(JList(homeworks)) && |homeworks| > 0
    requires ParseStatus(homeworks[0]) == Ok(message)
    requires message != s.previousMessage
    ensures var first := Cycle(s, Answered(HttpOk, Decoded(JDict(a))), true);
            && first.attempted == Some(message) && first.delivered
            && Cycle(first.next, Answered(HttpOk, Decoded(JDict(b))), sendOk).attempted == None
  {
    CheckResponseIgnoresCurrentDate(a, b);
    assert CheckResponse(JDict(a)) == Ok(homeworks);
  }

  /** Straight after startup nothing is remembered, so the first text of any
      kind is sent. */
  lemma FreshStartSends(timestamp: Json, outcome: FetchOutcome, sendOk: bool)
    ensures TryBlock(timestamp, outcome).NoNews? <==> Cycle(BotState(timestamp, ""), outcome, sendOk).attempted.None?
  {
    match TryBlock(timestamp, outcome)
    case NoNews =>
    case Failed(e) =>
      assert |FailureReport(e)| > 0;
    case Fresh(message, cursor) =>
      var response := GetApiAnswer(timestamp, outcome).value;
      NotificationsOpenWithPrefix(CheckResponse(response).value[0]);
  }

  /** A well-formed answer with an approved homework: its text is sent and
      the cursor becomes the answer's `current_date`. */
  lemma ApprovedAnswerIsSent(previous: string)
    requires previous != Notification("hw1", Verdicts[Approved])
    ensures var record := JDict([("homework_name", JStr("hw1")), ("status", JStr(Approved))]);
            var answer := JDict([(HomeworksKey, JList([record])), (CurrentDateKey, JInt(1000))]);
            var c := Cycle(BotState(JInt(0), previous), Answered(HttpOk, Decoded(answer)), true);
            && c.attempted == Some(Notification("hw1", Verdicts[Approved]))
            && c.next == BotState(JInt(1000), Notification("hw1", Verdicts[Approved]))
  {
    var record := JDict([("homework_name", JStr("hw1")), ("status", JStr(Approved))]);
    var answer := JDict([(HomeworksKey, JList([record])), (CurrentDateKey, JInt(1000))]);
    assert Lookup(answer.entries, HomeworksKey) == Some(JList([record]));
    assert Lookup(answer.entries, CurrentDateKey) == Some(JInt(1000));
    assert Lookup(record.entries, "homework_name") == Some(JStr("hw1"));
    assert Lookup(record.entries, "status") == Some(JStr(Approved));
    assert ParseStatus(record) == Ok(Notification("hw1", Verdicts[Approved]));
  }

  /** An empty homework list is not reported and does not move the cursor,
      even when the answer carries a `current_date`. */
  lemma EmptyListIsSilent(s: BotState, sendOk: bool)
    ensures var answer := JDict([(HomeworksKey, JList([])), (CurrentDateKey, JInt(1000))]);
            Cycle(s, Answered(HttpOk, Decoded(answer)), sendOk) == CycleResult(s, None, false)
  {
  }

  /** An answer without `homeworks` is reported with the text of the
      `KeyError` (which `KeyErrorTextIsQuoted` shows in quotes), and the
      cursor stays put. */
  lemma MissingHomeworksIsReported(s: BotState)
    requires s.previousMessage == ""
    ensures var c := Cycle(s, Answered(HttpOk, Decoded(JDict([(CurrentDateKey, JInt(1000))]))), true);
            && c.attempted == Some("Сбой в работе программы: " + ("'" + "Ожидаемый ключ отсутствует." + "'"))
            && c.next.timestamp == s.timestamp
  {
    var answer := JDict([(CurrentDateKey, JInt(1000))]);
    assert Lookup(answer.entries, HomeworksKey) == None;
    assert CheckResponse(answer) == Err(KeyError(MissingKeyText));
    MissingKeyReportText();
  }

  /** The report the user receives for an answer without `homeworks`: the
      `KeyError` text appears in quotes after the failure prefix (the text
      is written in the pieces the handler joins). */
  lemma MissingKeyReportText()
    ensures FailureReport(KeyError(MissingKeyText)) == "Сбой в работе программы: " + ("'" + "Ожидаемый ключ отсутствует." + "'")
  {
    MissingKeyIsQuoted();
  }

  lemma MissingKeyIsQuoted()
    ensures FailureReport(KeyError(MissingKeyText)) == FailurePrefix + ("'" + MissingKeyText + "'")
  {
    var text := MissingKeyText;
    assert forall k :: 0 <= k < |text| ==> text[k] == ' ' || text[k] == '.' || text[k] >= '\U{0400}';
    KeyErrorTextIsQuoted(text);
  }

  /** An unknown status is reported with the offending value and the cursor
      stays put. */
  lemma UnknownStatusIsReported(s: BotState)
    requires s.previousMessage == ""
    ensures var record := JDict([("homework_name", JStr("hw2")), ("status", JStr("unknown_status"))]);
            var c := Cycle(s, Answered(HttpOk, Decoded(JDict([(HomeworksKey, JList([record]))]))), true);
            && c.attempted == Some(FailurePrefix + (UnknownStatusPrefix + "unknown_status"))
            && c.next.timestamp == s.timestamp
  {
    var record := JDict([("homework_name", JStr("hw2")), ("status", JStr("unknown_status"))]);
    var answer := JDict([(HomeworksKey, JList([record]))]);
    assert Lookup(answer.entries, HomeworksKey) == Some(JList([record]));
    assert Lookup(record.entries, "homework_name") == Some(JStr("hw2"));
    assert Lookup(record.entries, "status") == Some(JStr("unknown_status"));
    assert !Known(JStr("unknown_status"));
    assert ParseStatus(record) == Err(ValueError(UnknownStatusPrefix + "unknown_status"));
    assert CheckResponse(answer) == Ok([record]);
    assert TryBlock(s.timestamp, Answered(HttpOk, Decoded(answer))) == Failed(ValueError(UnknownStatusPrefix + "unknown_status"));
  }

  /** The totals over a finite run of cycles. */
  datatype RunResult = RunResult(final: BotState, attempts: nat, deliveries: nat)

  /** Cycles run one after the other, the i-th given `outcomes[i]` and
      `sends[i]`. */
  function Run(s: BotState, outcomes: seq<FetchOutcome>, sends: seq<bool>): (r: RunResult)
    requires |outcomes| == |sends|
    ensures r.deliveries <= r.attempts <= |outcomes|
    decreases |outcomes|
  {
    if |outcomes| == 0 then RunResult(s, 0, 0)
    else
      var c := Cycle(s, outcomes[0], sends[0]);
      var rest := Run(c.next, outcomes[1..], sends[1..]);
      RunResult(rest.final,
                (if c.attempted.Some? then 1 else 0) + rest.attempts,
                (if c.delivered then 1 else 0) + rest.deliveries)
  }

  function Repeat<T>(x: T, n: nat): (r: seq<T>)
    ensures |r| == n
    ensures forall i :: 0 <= i < n ==> r[i] == x
  {
    if n == 0 then [] else [x] + Repeat(x, n - 1)
  }

  /** A state the answer `outcome` leaves alone, whatever the send does,
      stays as it is for any number of further cycles over that answer. */
  lemma {:induction false} QuietStaysQuiet(q: BotState, outcome: FetchOutcome, sends: seq<bool>)
    requires Cycle(q, outcome, true) == CycleResult(q, None, false)
    requires Cycle(q, outcome, false) == CycleResult(q, None, false)
    ensures Run(q, Repeat(outcome, |sends|), sends) == RunResult(q, 0, 0)
  {
    if |sends| > 0 {
      var outcomes := Repeat(outcome, |sends|);
      assert outcomes[0] == outcome && outcomes[1..] == Repeat(outcome, |sends| - 1);
      assert Cycle(q, outcomes[0], sends[0]) == CycleResult(q, None, false);
      QuietStaysQuiet(q, outcome, sends[1..]);
    }
  }

  /** A run over a repeated answer is its first cycle followed by the rest
      of the run from there. */
  lemma RunRepeatFirst(s: BotState, outcome: FetchOutcome, sends: seq<bool>)
    requires |sends| > 0
    ensures var c := Cycle(s, outcome, sends[0]);
            var rest := Run(c.next, Repeat(outcome, |sends| - 1), sends[1..]);
            Run(s, Repeat(outcome, |sends|), sends)
              == RunResult(rest.final, (if c.attempted.Some? then 1 else 0) + rest.attempts,
                           (if c.delivered then 1 else 0) + rest.deliveries)
  {
    var outcomes := Repeat(outcome, |sends|);
    assert outcomes[0] == outcome && outcomes[1..] == Repeat(outcome, |sends| - 1);
  }

  /** A run whose first cycle leads to a state that the same answer leaves
      alone counts that first cycle only. */
  lemma RunSettles(s: BotState, outcome: FetchOutcome, sends: seq<bool>, first: CycleResult)
    requires |sends| > 0 && Cycle(s, outcome, sends[0]) == first
    requires Cycle(first.next, outcome, true) == CycleResult(first.next, None, false)
    requires Cycle(first.next, outcome, false) == CycleResult(first.next, None, false)
    ensures Run(s, Repeat(outcome, |sends|), sends)
              == RunResult(first.next, if first.attempted.Some? then 1 else 0, if first.delivered then 1 else 0)
  {
    QuietStaysQuiet(first.next, outcome, sends[1..]);
    RunRepeatFirst(s, outcome, sends);
  }

  /** However many times the same upstream answer comes back, once the first
      send went through at most one text is ever sent, and the state stays
      what the first cycle left. */
  lemma RepeatedAnswerSendsAtMostOnce(s: BotState, outcome: FetchOutcome, sends: seq<bool>)
    requires |sends| > 0 && sends[0]
    ensures var r := Run(s, Repeat(outcome, |sends|), sends);
            var first := Cycle(s, outcome, true);
            && r.final == first.next
            && r.attempts == (if first.attempted.Some? then 1 else 0)
            && r.attempts <= 1
  {
    RepeatIsQuiet(s, outcome, true);
    RepeatIsQuiet(s, outcome, false);
    RunSettles(s, outcome, sends, Cycle(s, outcome, true));
  }

  /** When every send fails, no run of any length delivers anything or
      changes the remembered text, and every cycle still completes. */
  lemma {:induction false} FailingSendsKeepMemory(s: BotState, outcomes: seq<FetchOutcome>, sends: seq<bool>)
    requires |outcomes| == |sends|
    requires forall i :: 0 <= i < |sends| ==> !sends[i]
    ensures Run(s, outcomes, sends).deliveries == 0
    ensures Run(s, outcomes, sends).final.previousMessage == s.previousMessage
    decreases |outcomes|
  {
    if |outcomes| > 0 {
      var c := Cycle(s, outcomes[0], sends[0]);
      assert !sends[0];
      assert !c.delivered && c.next.previousMessage == s.previousMessage;
      assert forall i :: 0 <= i < |sends| - 1 ==> sends[1..][i] == sends[i + 1];
      FailingSendsKeepMemory(c.next, outcomes[1..], sends[1..]);
    }
  }

  /** `main` from `check_tokens()` to the start of the loop: no bot when a
      credential is missing, otherwise the cursor at the current time and
      nothing remembered. */
  method Start(practicum: Option<string>, telegram: Option<string>, chatId: Option<string>, now: int)
    returns (poller: Poller?)
    ensures poller == null <==> CheckTokens(practicum, telegram, chatId).aborts
    ensures poller != null ==> fresh(poller) && poller.Snapshot() == BotState(JInt(now), "")
  {
    if CheckTokens(practicum, telegram, chatId).aborts {
      return null;
    }
    poller := new Poller(now);
  }

  /** The loop's two variables, updated in place by each cycle. */
  class Poller {
    var timestamp: Json
    var previousMessage: string

    function Snapshot(): BotState
      reads this
    {
      BotState(timestamp, previousMessage)
    }

    constructor(now: int)
      ensures Snapshot() == BotState(JInt(now), "")
    {
      timestamp := JInt(now);
      previousMessage := "";
    }

    /** One pass of the loop body, with its `try`, both handlers and the
        `continue` on an empty homework list. */
    method Step(outcome: FetchOutcome, sendOk: bool) returns (attempted: Option<string>, delivered: bool)
      modifies this
      ensures Cycle(old(Snapshot()), outcome, sendOk) == CycleResult(Snapshot(), attempted, delivered)
    {
      attempted, delivered := None, false;
      var failure: Option<PyError> := None;
      var response := GetApiAnswer(timestamp, outcome);
      if response.Err? {
        failure := Some(response.error);
      } else {
        var homeworks := CheckResponse(response.value);
        if homeworks.Err? {
          failure := Some(homeworks.error);
        } else if |homeworks.value| == 0 {
          return;
        } else {
          var message := ParseStatus(homeworks.value[0]);
          if message.Err? {
            failure := Some(message.error);
          } else {
            if message.value != previousMessage {
              attempted := Some(message.value);
              if !sendOk {
                return;
              }
              delivered := true;
              previousMessage := message.value;
            }
            timestamp := Get(response.value.entries, CurrentDateKey, timestamp);
          }
        }
      }
      if failure.Some? {
        var report := FailureReport(failure.value);
        if report != previousMessage {
          attempted := Some(report);
          if sendOk {
            delivered := true;
            previousMessage := report;
          }
        }
      }
    }
  }
}

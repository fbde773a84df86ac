/** The body of main's `while True` loop (homework.py:124-145) as a state
    machine. The two I/O calls are inputs of each iteration: what
    get_api_answer produced (an answer or a ConnectionError) and what
    send_message returned. */
module PollLoop {
  import opened Wrappers
  import opened Json
  import opened Homework

  /** What get_api_answer gave: the parsed answer, or the text of the
      ConnectionError it wraps every failure into. */
  datatype Fetch = Fetched(response: Json) | ConnectionFailed(text: string)

  /** The outside world for one iteration; `delivered` is what send_message
      returns, consulted only if the iteration sends something. */
  datatype Tick = Tick(fetch: Fetch, delivered: bool)

  /** Which way the iteration left the `try`: it ran to the end, it hit the
      `except EmptyAnswersAPI` clause, or the `except Exception` clause. */
  datatype Outcome = Reported | Skipped | Failed(error: Error)

  /** The loop's variables. The report dicts only ever hold the key
      'сообщение', so `{}` is None and `{'сообщение': m}` is Some(m);
      `message` is None while the local is still unbound. */
  datatype LoopState = LoopState(
    timestamp: Json,
    current: Option<string>,
    prev: Option<string>,
    message: Option<string>)

  /** The new state, the text passed to send_message (if it was called) and
      how the iteration ended. */
  datatype StepResult = StepResult(state: LoopState, sent: Option<string>, outcome: Outcome)

  /** timestamp = 0, current_report = {}, prev_report = {}. */
  const Initial := LoopState(JInt(0), None, None, None)

  const FailurePrefix := "Сбой в работе программы: "

  /** The text that the `except Exception` clause reports. */
  function FailureMessage(e: Error): string
  {
    FailurePrefix + ErrorText(e)
  }

  /** The `except Exception` clause: record the failure text as the current
      report and, if it differs from the last one, send it and record it as
      sent whatever send_message returns. */
  function OnError(s: LoopState, e: Error): StepResult
  {
    var text := Some(FailureMessage(e));
    var s' := s.(current := text, message := text);
    if s'.current != s.prev then StepResult(s'.(prev := s'.current), text, Failed(e))
    else StepResult(s', None, Failed(e))
  }

  /** The end of the `try` block: send the current report if it differs from
      the last one sent; only a delivered send records it and moves the
      cursor to the answer's current_date. */
  function Notify(s: LoopState, fields: map<string, Json>, delivered: bool): StepResult
  {
    if s.current == s.prev then StepResult(s, None, Reported)
    else if s.message.None? then OnError(s, UnboundMessage)
    else if delivered then
      var timestamp := if "current_date" in fields then fields["current_date"] else s.timestamp;
      StepResult(s.(prev := s.current, timestamp := timestamp), s.message, Reported)
    else StepResult(s, s.message, Reported)
  }

  /** The notification parse_status produced in an iteration, when the answer
      passed check_response, held a homework and that homework parsed. */
  function FreshMessage(fetch: Fetch): Option<string>
  {
    if !fetch.Fetched? then None
    else
      var checked := CheckResponse(fetch.response);
      if checked.Failure? || |checked.value| == 0 then None
      else
        var parsed := ParseStatus(checked.value[0]);
        if parsed.Failure? then None else Some(parsed.value)
  }

  /** One iteration of the poll loop. */
  function Step(s: LoopState, tick: Tick): (r: StepResult)
    // a send happens only when the report differs from the last one recorded
    ensures r.sent.Some? ==> r.state.current != s.prev
    ensures r.sent.None? ==> r.state.prev == s.prev
    ensures r.state.prev != s.prev ==> r.sent.Some? && r.state.prev == r.state.current
    // the cursor moves only after a delivered send on the success path
    ensures r.state.timestamp != s.timestamp ==>
              r.outcome == Reported && r.sent.Some? && tick.delivered
    // a missing "homeworks" key is the one failure that changes nothing
    ensures r.outcome == Skipped <==>
              tick.fetch.Fetched? && tick.fetch.response.JObj?
              && "homeworks" !in tick.fetch.response.fields
    ensures r.outcome == Skipped ==> r.state == s && r.sent.None?
    // the error path: cursor kept, failure text recorded, sent iff new
    ensures tick.fetch.ConnectionFailed? ==> r.outcome == Failed(ConnErr(tick.fetch.text))
    ensures r.outcome.Failed? ==>
              var text := Some(FailureMessage(r.outcome.error));
              r.state == s.(current := text, message := text, prev := text)
              && r.sent == (if text != s.prev then text else None)
    // the success path: a new status becomes the current report and is sent
    // iff it differs from the last one recorded
    ensures FreshMessage(tick.fetch).Some? ==>
              r.outcome == Reported && r.state.current == FreshMessage(tick.fetch)
              && r.state.message == FreshMessage(tick.fetch)
              && r.sent == (if FreshMessage(tick.fetch) != s.prev then FreshMessage(tick.fetch) else None)
    ensures r.outcome == Reported ==>
              tick.fetch.Fetched? && tick.fetch.response.JObj?
              && r.state.prev == (if r.sent.Some? && tick.delivered then r.state.current else s.prev)
    // the cursor becomes current_date after a delivered send, if the answer has one
    ensures r.outcome == Reported ==>
              tick.fetch.Fetched? && tick.fetch.response.JObj?
              && r.state.timestamp ==
                   (if r.sent.Some? && tick.delivered && "current_date" in tick.fetch.response.fields
                    then tick.fetch.response.fields["current_date"] else s.timestamp)
    // a failed shape check or status parse is the error that is reported
    ensures tick.fetch.Fetched? && CheckResponse(tick.fetch.response).Failure?
            && !CheckResponse(tick.fetch.response).error.EmptyAnswers? ==>
              r.outcome == Failed(CheckResponse(tick.fetch.response).error)
    ensures tick.fetch.Fetched? && CheckResponse(tick.fetch.response).Success?
            && |CheckResponse(tick.fetch.response).value| > 0
            && ParseStatus(CheckResponse(tick.fetch.response).value[0]).Failure? ==>
              r.outcome == Failed(ParseStatus(CheckResponse(tick.fetch.response).value[0]).error)
    // an empty list keeps the report and resends the pending one, if any
    ensures tick.fetch.Fetched? && CheckResponse(tick.fetch.response) == Success([])
            && (s.current == s.prev || s.message.Some?) ==>
              r.outcome == Reported
              && r.state.current == s.current && r.state.message == s.message
              && r.sent == (if s.current != s.prev then s.message else None)
    // a pending report with `message` still unbound raises UnboundLocalError
    ensures tick.fetch.Fetched? && CheckResponse(tick.fetch.response) == Success([])
            && s.current != s.prev && s.message.None? ==>
              r.outcome == Failed(UnboundMessage)
  {
    match tick.fetch
    case ConnectionFailed(text) => OnError(s, ConnErr(text))
    case Fetched(response) =>
      match CheckResponse(response)
      case Failure(EmptyAnswers(_)) => StepResult(s, None, Skipped)
      case Failure(e) => OnError(s, e)
      case Success(homeworks) =>
        if |homeworks| == 0 then Notify(s, response.fields, tick.delivered)
        else
          match ParseStatus(homeworks[0])
          case Failure(e) => OnError(s, e)
          case Success(m) =>
            Notify(s.(current := Some(m), message := Some(m)), response.fields, tick.delivered)
  }

  /** What holds between iterations from the start on: the current report is
      only empty while nothing was ever recorded, and `message` is bound to
      the current report's text. */
  ghost predicate Consistent(s: LoopState)
  {
    && (s.current.None? ==> s.prev.None?)
    && (s.current.Some? ==> s.message == s.current)
  }

  lemma InitialConsistent()
    ensures Consistent(Initial)
  {
  }

  /** Each iteration keeps Consistent, so the stale `message` it may send is
      always the current report and is never unbound. */
  lemma StepKeepsConsistent(s: LoopState, tick: Tick)
    requires Consistent(s)
    ensures Consistent(Step(s, tick).state)
    ensures Step(s, tick).outcome != Failed(UnboundMessage)
    ensures Step(s, tick).sent.Some? ==> Step(s, tick).sent == Step(s, tick).state.current
  {
  }

  /** The error path records the failure whether or not send_message
      succeeded. */
  lemma ErrorPathIgnoresDelivery(s: LoopState, fetch: Fetch)
    requires Step(s, Tick(fetch, true)).outcome.Failed?
    ensures Step(s, Tick(fetch, true)) == Step(s, Tick(fetch, false))
  {
  }

  /** Once a report was delivered (or reported from the error path), an
      iteration that arrives at the same report sends nothing. */
  lemma SameReportNotResent(s: LoopState, t1: Tick, t2: Tick)
    requires Consistent(s)
    requires Step(s, t1).sent.Some?
    requires t1.delivered || Step(s, t1).outcome.Failed?
    requires Step(Step(s, t1).state, t2).state.current == Step(s, t1).sent
    ensures Step(Step(s, t1).state, t2).sent.None?
  {
    StepKeepsConsistent(s, t1);
  }

  /* ---------------------------------------------------------------------
     Finitely many iterations
     --------------------------------------------------------------------- */

  /** The state after some iterations, the texts sent and how each
      iteration ended. */
  datatype Trace = Trace(state: LoopState, sent: seq<string>, outcomes: seq<Outcome>)

  function SentSeq(sent: Option<string>): seq<string>
  {
    if sent.Some? then [sent.value] else []
  }

  /** The loop run from `s` over `ticks`, one iteration per tick. */
  function Run(s: LoopState, ticks: seq<Tick>): (t: Trace)
    ensures |t.outcomes| == |ticks|
    decreases |ticks|
  {
    if ticks == [] then Trace(s, [], [])
    else
      var before := Run(s, ticks[..|ticks| - 1]);
      var r := Step(before.state, ticks[|ticks| - 1]);
      Trace(r.state, before.sent + SentSeq(r.sent), before.outcomes + [r.outcome])
  }

  /** From a consistent start no iteration ever reads an unbound `message`. */
  lemma {:induction false} RunNeverUnbound(s: LoopState, ticks: seq<Tick>)
    requires Consistent(s)
    ensures Consistent(Run(s, ticks).state)
    ensures forall i :: 0 <= i < |ticks| ==> Run(s, ticks).outcomes[i] != Failed(UnboundMessage)
    decreases |ticks|
  {
    if ticks != [] {
      var init := ticks[..|ticks| - 1];
      RunNeverUnbound(s, init);
      StepKeepsConsistent(Run(s, init).state, ticks[|ticks| - 1]);
    }
  }

  predicate NoAdjacentRepeat(xs: seq<string>)
  {
    forall i :: 0 < i < |xs| ==> xs[i - 1] != xs[i]
  }

  /** While every send is delivered the chat never gets the same text twice
      in a row, and the last text sent is the one recorded as sent. */
  lemma {:induction false} DeliveredSendsNeverRepeat(s: LoopState, ticks: seq<Tick>)
    requires Consistent(s)
    requires forall i :: 0 <= i < |ticks| ==> ticks[i].delivered
    ensures NoAdjacentRepeat(Run(s, ticks).sent)
    ensures Run(s, ticks).sent != [] ==>
              Run(s, ticks).state.prev == Some(Run(s, ticks).sent[|Run(s, ticks).sent| - 1])
    ensures Consistent(Run(s, ticks).state)
    decreases |ticks|
  {
    if ticks != [] {
      var init := ticks[..|ticks| - 1];
      DeliveredSendsNeverRepeat(s, init);
      var before := Run(s, init);
      StepKeepsConsistent(before.state, ticks[|ticks| - 1]);
    }
  }

  /** The cursor does not move while no send is delivered. */
  lemma {:induction false} CursorNeedsDelivery(s: LoopState, ticks: seq<Tick>)
    requires forall i :: 0 <= i < |ticks| ==> !ticks[i].delivered
    ensures Run(s, ticks).state.timestamp == s.timestamp
    decreases |ticks|
  {
    if ticks != [] {
      CursorNeedsDelivery(s, ticks[..|ticks| - 1]);
    }
  }

  /* ---------------------------------------------------------------------
     Worked scenarios
     --------------------------------------------------------------------- */

  /** {"homeworks": [{"homework_name": "hw1", "status": "approved"}], "current_date": 1000} */
  const ApprovedAnswer := JObj(map[
    "homeworks" := JList([JObj(map["homework_name" := JStr("hw1"), "status" := JStr("approved")])]),
    "current_date" := JInt(1000)])

  const ApprovedHw1 := "Изменился статус проверки работы \"hw1\". "
                       + "Работа проверена: ревьюеру всё понравилось. Ура!"

  /** The approved answer from the start is sent once with its exact text and
      moves the cursor to 1000; the same answer again sends nothing. */
  lemma ApprovedScenario()
    ensures Run(Initial, [Tick(Fetched(ApprovedAnswer), true)]).sent == [ApprovedHw1]
    ensures Run(Initial, [Tick(Fetched(ApprovedAnswer), true)]).state.timestamp == JInt(1000)
    ensures Run(Initial, [Tick(Fetched(ApprovedAnswer), true),
                          Tick(Fetched(ApprovedAnswer), true)]).sent == [ApprovedHw1]
  {
    var t := Tick(Fetched(ApprovedAnswer), true);
    assert [t, t][..1] == [t];
    assert [t][..0] == [];
    var hw := JObj(map["homework_name" := JStr("hw1"), "status" := JStr("approved")]);
    assert CheckResponse(ApprovedAnswer) == Success([hw]);
    assert Field(hw, "homework_name") == JStr("hw1") && Field(hw, "status") == JStr("approved");
    assert MessagePrefix + "hw1" == "Изменился статус проверки работы \"hw1";
    assert MessagePrefix + "hw1" + NameEnd == "Изменился статус проверки работы \"hw1\". ";
    assert StatusMessage("hw1", ApprovedVerdict) == ApprovedHw1;
    assert ParseStatus(hw) == Success(ApprovedHw1);
  }

  /** From the initial state, an empty list of homeworks sends nothing and
      leaves the state as it was. */
  lemma EmptyListScenario(delivered: bool)
    ensures Step(Initial, Tick(Fetched(JObj(map["homeworks" := JList([])])), delivered))
            == StepResult(Initial, None, Reported)
  {
    assert CheckResponse(JObj(map["homeworks" := JList([])])) == Success([]);
  }

  /** From the initial state, a failed request is reported once with the
      failure text; the same failure again is not. */
  lemma ConnectionFailureScenario(text: string, d1: bool, d2: bool)
    ensures Run(Initial, [Tick(ConnectionFailed(text), d1)]).sent
            == [FailurePrefix + text]
    ensures Run(Initial, [Tick(ConnectionFailed(text), d1),
                          Tick(ConnectionFailed(text), d2)]).sent
            == [FailurePrefix + text]
  {
    var t1, t2 := Tick(ConnectionFailed(text), d1), Tick(ConnectionFailed(text), d2);
    assert [t1, t2][..1] == [t1];
    assert [t1][..0] == [];
  }

  /* ---------------------------------------------------------------------
     The imperative loop
     --------------------------------------------------------------------- */

  /** main's local variables, updated in place by each iteration. */
  class Poller {
    var timestamp: Json
    var currentReport: Option<string>
    var prevReport: Option<string>
    var message: Option<string>

    function State(): LoopState
      reads this
    {
      LoopState(timestamp, currentReport, prevReport, message)
    }

    constructor ()
      ensures State() == Initial
    {
      timestamp := JInt(0);
      currentReport := None;
      prevReport := None;
      message := None;
    }

    /** One pass through the `try` / `except` of the loop body. */
    method Iterate(tick: Tick) returns (sent: Option<string>, outcome: Outcome)
      modifies this
      ensures StepResult(State(), sent, outcome) == Step(old(State()), tick)
    {
      sent, outcome := None, Reported;
      var raised: Option<Error> := None;
      if tick.fetch.ConnectionFailed? {
        raised := Some(ConnErr(tick.fetch.text));
      } else {
        var response := tick.fetch.response;
        var checked := CheckResponse(response);
        if checked.Failure? {
          raised := Some(checked.error);
        } else {
          var homework := checked.value;
          if |homework| > 0 {
            var parsed := ParseStatus(homework[0]);
            if parsed.Failure? {
              raised := Some(parsed.error);
            } else {
              message := Some(parsed.value);
              currentReport := message;
            }
          }
          if raised.None? && currentReport != prevReport {
            if message.None? {
              raised := Some(UnboundMessage);
            } else {
              sent := message;
              if tick.delivered {
                prevReport := currentReport;
                if "current_date" in response.fields {
                  timestamp := response.fields["current_date"];
                }
              }
            }
          }
        }
      }
      if raised.Some? {
        if raised.value.EmptyAnswers? {
          outcome := Skipped;
        } else {
          outcome := Failed(raised.value);
          message := Some(FailureMessage(raised.value));
          currentReport := message;
          if currentReport != prevReport {
            sent := message;
            prevReport := currentReport;
          }
        }
      }
    }
  }

  const MissingVariablesText := "Отсутсвуют необходимые переменные"

  /** main, over finitely many iterations: refuse to start without the
      tokens, then run one iteration per tick from the initial state. */
  method RunBot(practicum: Option<string>, telegram: Option<string>,
                chatId: Option<string>, ticks: seq<Tick>) returns (r: Result<Trace, Error>)
    ensures r.Failure? <==> !(Present(practicum) && Present(telegram))
    ensures r.Failure? ==> r.error == KeyErr(MissingVariablesText)
    ensures r.Success? ==> r.value == Run(Initial, ticks)
    // the stale `message` is never read unbound
    ensures r.Success? ==>
              forall i :: 0 <= i < |ticks| ==> r.value.outcomes[i] != Failed(UnboundMessage)
  {
    var ok, _ := CheckTokens(practicum, telegram, chatId);
    if !ok {
      return Failure(KeyErr(MissingVariablesText));
    }
    var poller := new Poller();
    var sent: seq<string> := [];
    var outcomes: seq<Outcome> := [];
    for i := 0 to |ticks|
      invariant Run(Initial, ticks[..i]) == Trace(poller.State(), sent, outcomes)
    {
      assert ticks[..i + 1][..i] == ticks[..i];
      var s, o := poller.Iterate(ticks[i]);
      sent := sent + SentSeq(s);
      outcomes := outcomes + [o];
    }
    assert ticks[..|ticks|] == ticks;
    r := Success(Trace(poller.State(), sent, outcomes));
    InitialConsistent();
    RunNeverUnbound(Initial, ticks);
  }
}

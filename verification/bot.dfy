/** One iteration of the bot's polling loop as a pure state transition,
    the start-up guard in front of it, and runs of several iterations.
    The clock is the parameter `now`, the HTTP fetch is the `Reply` it
    produced, and a message handed to Telegram is the `sent` part of the
    outcome. */
module Bot {
  import opened Results
  import opened JsonValues
  import opened Tokens
  import RC = ResponseCheck
  import SP = StatusParse

  /** Text used as the report message when the homework list is empty. */
  const Sentinel: string := "Отсутсвует новый статус домашней работы."

  const HttpOk: int := 200

  /** A `(name, message)` report; the name is whatever the record held
      under `homework_name`. */
  datatype Report = Report(name: Json, message: string)

  const EmptyReport: Report := Report(Str(""), "")

  /** The loop's variables: the fetch cursor, the report built in this
      iteration and the last report handed to Telegram. */
  datatype State = State(cursor: Json, current: Report, prev: Report)

  /** What the fetch produced: an HTTP answer with its decoded body, or a
      failure of the request itself. */
  datatype Reply = Answer(code: int, body: Json) | ConnectionFailed

  /** Errors that escape `main` and end the process. */
  datatype Fatal =
    | RequestFailed
    | Unreachable(code: int)
    | ResponseNotMapping
    | Malformed(responseError: RC.ResponseError)
    | BadHomework(statusError: SP.StatusError)

  /** The result of one iteration: the loop goes on with a new state,
      possibly after sending a message, or it stops on an error, in which
      case nothing is sent. */
  datatype Outcome = Continue(next: State, sent: Option<string>) | Stop(error: Fatal)

  /** Start-up: the credential guard either ends the program or yields the
      initial state, whose cursor is the current time and whose two
      reports are both empty. */
  function Start(c: Credentials, now: int): (r: Option<State>)
    ensures r.Some? <==> Present(c.practicumToken) && Present(c.telegramToken) && Present(c.telegramChatId)
    ensures r.Some? ==> r.value.cursor == Int(now)
    ensures r.Some? ==> r.value.current == r.value.prev == Report(Str(""), "")
  {
    if !CheckTokens(c) then None else Some(State(Int(now), EmptyReport, EmptyReport))
  }

  /** The `from_date` sent with a fetch: a false cursor (zero, `None`, ...)
      is replaced by the current time. */
  function FromDate(cursor: Json, now: int): (d: Json)
    ensures d == cursor || d == Int(now)
    ensures cursor == Null || cursor == Int(0) ==> d == Int(now)
    ensures Truthy(cursor) ==> d == cursor
    ensures now != 0 ==> Truthy(d)
  {
    if Truthy(cursor) then cursor else Int(now)
  }

  /** The body of the `try` block: store the cursor, validate, and rebuild
      the current report from the first record, or from the sentinel when
      the list is empty. The StatusError raised on the empty list is caught
      at once, so that path is not an error here. */
  function Track(s: State, reply: Reply): Result<State, Fatal>
  {
    match reply
    case ConnectionFailed => Failure(RequestFailed)
    case Answer(code, body) =>
      if code != HttpOk then Failure(Unreachable(code))
      // `response.get('current_date')` runs before validation, so a body
      // that is not a dict fails here with AttributeError.
      else if !body.Obj? then Failure(ResponseNotMapping)
      else
        var cursor := Lookup(body, "current_date");
        match RC.CheckResponse(body)
        case Failure(e) => Failure(Malformed(e))
        case Success(homeworks) =>
          if homeworks == [] then
            Success(State(cursor, Report(s.current.name, Sentinel), s.prev))
          else
            var hw := homeworks[0];
            match SP.ParseStatus(hw)
            case Failure(e) => Failure(BadHomework(e))
            case Success(message) =>
              Success(State(cursor, Report(Lookup(hw, "homework_name"), message), s.prev))
  }

  /** The change detector: send and remember the current report only when
      it differs from the last one sent. */
  function Dedup(s: State): (r: Outcome)
    ensures r.Continue?
    ensures r.sent.Some? <==> s.current != s.prev
    ensures r.sent.Some? ==> r.sent.value == s.current.message
    ensures r.next.current == s.current && r.next.cursor == s.cursor
    ensures r.next.prev == s.current
  {
    if s.current != s.prev then Continue(s.(prev := s.current), Some(s.current.message))
    else Continue(s, None)
  }

  /** Whether an iteration gets through the `try` block: a 200 answer whose
      body passes `check_response` and whose first record, if any, passes
      `parse_status`. */
  predicate Accepted(reply: Reply)
  {
    && reply.Answer? && reply.code == HttpOk
    && RC.CheckResponse(reply.body).Success?
    && var homeworks := RC.CheckResponse(reply.body).value;
       (homeworks == [] || SP.ParseStatus(homeworks[0]).Success?)
  }

  /** The report an accepted reply produces from state `s`. */
  function NewReport(s: State, reply: Reply): Report
    requires Accepted(reply)
  {
    var homeworks := RC.CheckResponse(reply.body).value;
    if homeworks == [] then Report(s.current.name, Sentinel)
    else Report(Lookup(homeworks[0], "homework_name"), SP.ParseStatus(homeworks[0]).value)
  }

  /** One iteration of the loop. */
  function Step(s: State, reply: Reply): (r: Outcome)
    ensures r.Continue? <==> Accepted(reply)
    ensures r.Continue? ==> r.next.cursor == Lookup(reply.body, "current_date")
    ensures r.Continue? ==> r.next.current == NewReport(s, reply)
    ensures r.Continue? ==> (r.sent.Some? <==> r.next.current != s.prev)
    ensures r.Continue? ==> r.next.prev == r.next.current
    ensures r.Continue? && r.sent.Some? ==> r.sent.value == r.next.current.message
    ensures reply.ConnectionFailed? ==> r == Stop(RequestFailed)
    ensures reply.Answer? && reply.code != HttpOk ==> r == Stop(Unreachable(reply.code))
    ensures reply.Answer? && reply.code == HttpOk && !reply.body.Obj? ==> r == Stop(ResponseNotMapping)
    ensures reply.Answer? && reply.code == HttpOk && reply.body.Obj? && RC.CheckResponse(reply.body).Failure? ==>
              r == Stop(Malformed(RC.CheckResponse(reply.body).error))
    ensures reply.Answer? && reply.code == HttpOk && RC.CheckResponse(reply.body).Success? &&
            RC.CheckResponse(reply.body).value != [] &&
            SP.ParseStatus(RC.CheckResponse(reply.body).value[0]).Failure? ==>
              r == Stop(BadHomework(SP.ParseStatus(RC.CheckResponse(reply.body).value[0]).error))
  {
    match Track(s, reply)
    case Failure(e) => Stop(e)
    case Success(t) => Dedup(t)
  }

  /** A record whose status fails `parse_status` ends the loop with that
      error, and nothing is sent. */
  lemma BadRecordStops(s: State, date: Json, hw: Json, rest: seq<Json>)
    requires SP.ParseStatus(hw).Failure?
    ensures Step(s, Answer(HttpOk, Obj(map["homeworks" := Arr([hw] + rest), "current_date" := date])))
         == Stop(BadHomework(SP.ParseStatus(hw).error))
  {
  }

  /** Only the first homework record is used: the rest of the list never
      changes the outcome. */
  lemma OnlyFirstRecordMatters(s: State, date: Json, hw: Json, rest1: seq<Json>, rest2: seq<Json>)
    ensures Step(s, Answer(HttpOk, Obj(map["homeworks" := Arr([hw] + rest1), "current_date" := date])))
         == Step(s, Answer(HttpOk, Obj(map["homeworks" := Arr([hw] + rest2), "current_date" := date])))
  {
  }

  /** An empty list keeps the report's name, sets the sentinel message and
      moves the cursor to the answer's `current_date`. */
  lemma EmptyListKeepsName(s: State, date: Json)
    ensures var r := Step(s, Answer(HttpOk, Obj(map["homeworks" := Arr([]), "current_date" := date])));
            r.Continue? && r.next.cursor == date && r.next.current == Report(s.current.name, Sentinel)
  {
  }

  /** Both reports start empty, so the first empty cycle does send the
      sentinel. */
  lemma FirstEmptyCycleSendsSentinel(now: int, date: Json)
    ensures Step(State(Int(now), EmptyReport, EmptyReport),
                 Answer(HttpOk, Obj(map["homeworks" := Arr([]), "current_date" := date])))
         == Continue(State(date, Report(Str(""), Sentinel), Report(Str(""), Sentinel)), Some(Sentinel))
  {
  }

  /** Repeating an accepted reply is idempotent: the second iteration
      leaves the state as it is and sends nothing. */
  lemma StepIdempotent(s: State, reply: Reply)
    requires Step(s, reply).Continue?
    ensures Step(Step(s, reply).next, reply) == Continue(Step(s, reply).next, None)
  {
  }

  /** Two consecutive iterations that produce the same report send at most
      once: the second sends nothing. */
  lemma SameReportNotResent(s: State, a: Reply, b: Reply)
    requires Step(s, a).Continue?
    requires Step(Step(s, a).next, b).Continue?
    requires Step(Step(s, a).next, b).next.current == Step(s, a).next.current
    ensures Step(Step(s, a).next, b).sent == None
  {
  }

  /** An iteration after a continued one sends exactly when its report
      differs from the one built in the iteration before. */
  lemma SendsIffReportChanged(s: State, a: Reply, b: Reply)
    requires Step(s, a).Continue?
    requires Step(Step(s, a).next, b).Continue?
    ensures Step(Step(s, a).next, b).sent.Some?
        <==> Step(Step(s, a).next, b).next.current != Step(s, a).next.current
  {
  }

  /** The cursor advances: the next fetch asks from the answer's
      `current_date`, or from the current time when that value is false. */
  lemma NextFetchFrom(s: State, reply: Reply, now: int)
    requires Step(s, reply).Continue?
    ensures var date := Lookup(reply.body, "current_date");
            FromDate(Step(s, reply).next.cursor, now) == (if Truthy(date) then date else Int(now))
  {
  }

  /** A decoded 200 answer holding one homework record. */
  function OneRecord(name: string, status: string, date: int): Reply
  {
    Answer(HttpOk, Obj(map[
      "homeworks" := Arr([Obj(map["homework_name" := Str(name), "status" := Str(status)])]),
      "current_date" := Int(date)]))
  }

  /** The report an accepted single-record answer produces. */
  lemma OneRecordReport(s: State, name: string, status: string, date: int)
    requires status in SP.Verdicts
    ensures Accepted(OneRecord(name, status, date))
    ensures NewReport(s, OneRecord(name, status, date))
         == Report(Str(name), SP.Notification(Str(name), SP.Verdicts[status]))
  {
  }

  /** Reviewing, then the same answer again, then approved: the first and
      the third iteration notify, with the matching verdicts, and the
      second does not. */
  lemma ReviewThenApproveScenario(now: int, d1: int, d2: int, d3: int)
    ensures var s0 := State(Int(now), EmptyReport, EmptyReport);
            var r1 := Step(s0, OneRecord("hw1", "reviewing", d1));
            r1.Continue? && r1.sent == Some(SP.Notification(Str("hw1"), "Работа взята на проверку ревьюером.")) &&
            var r2 := Step(r1.next, OneRecord("hw1", "reviewing", d2));
            r2.Continue? && r2.sent == None &&
            var r3 := Step(r2.next, OneRecord("hw1", "approved", d3));
            r3.Continue? && r3.sent == Some(SP.Notification(Str("hw1"), "Работа проверена: ревьюеру всё понравилось. Ура!"))
  {
  }

  /** Deduplication only looks at the last report sent: a status that
      comes back after a different one is sent again. */
  lemma ReturningStatusResent(now: int, d1: int, d2: int, d3: int)
    ensures var s0 := State(Int(now), EmptyReport, EmptyReport);
            var r1 := Step(s0, OneRecord("hw1", "reviewing", d1));
            r1.Continue? && r1.sent.Some? &&
            var r2 := Step(r1.next, OneRecord("hw1", "rejected", d2));
            r2.Continue? && r2.sent.Some? &&
            var r3 := Step(r2.next, OneRecord("hw1", "reviewing", d3));
            r3.Continue? && r3.sent == r1.sent
  {
  }

  /** A run of iterations: the reports sent, the state reached, and the
      error that ended the loop, if one did. */
  datatype Trace = Trace(sent: seq<Report>, last: State, stop: Option<Fatal>)

  /** Iterations over successive replies, until one stops the loop. */
  function Run(s: State, replies: seq<Reply>): (t: Trace)
    ensures |t.sent| <= |replies|
    ensures t.last.prev == (if t.sent == [] then s.prev else t.sent[|t.sent| - 1])
    ensures t.stop.None? && replies != [] ==> t.last.prev == t.last.current
    decreases |replies|
  {
    if replies == [] then Trace([], s, None)
    else
      match Step(s, replies[0])
      case Stop(e) => Trace([], s, Some(e))
      case Continue(n, out) =>
        var rest := Run(n, replies[1..]);
        Trace((if out.Some? then [n.current] else []) + rest.sent, rest.last, rest.stop)
  }

  /** Every report sent differs from the one sent just before it, and the
      first from the report last sent before the run. */
  lemma {:induction false} RunSendsOnlyChanges(s: State, replies: seq<Reply>)
    ensures var t := Run(s, replies);
            (t.sent != [] ==> t.sent[0] != s.prev) &&
            forall k :: 0 < k < |t.sent| ==> t.sent[k - 1] != t.sent[k]
    decreases |replies|
  {
    if replies != [] {
      match Step(s, replies[0])
      case Stop(_) =>
      case Continue(n, out) =>
        RunSendsOnlyChanges(n, replies[1..]);
        var rest := Run(n, replies[1..]);
        var t := Run(s, replies);
        if out.Some? {
          assert t.sent == [n.current] + rest.sent;
          assert n.prev == n.current;
        } else {
          assert t.sent == rest.sent;
          assert n.prev == s.prev;
        }
    }
  }

  /** Replaying one reply many times sends at most one message. */
  lemma RepeatedReplySendsOnce(s: State, reply: Reply, count: nat)
    ensures |Run(s, seq(count, _ => reply)).sent| <= 1
  {
    var replies := seq(count, _ => reply);
    if count > 0 {
      match Step(s, reply)
      case Stop(_) =>
      case Continue(n, out) =>
        StepIdempotent(s, reply);
        assert replies[1..] == seq(count - 1, _ => reply);
        QuietAfterFirst(n, reply, count - 1);
    }
  }

  /** Once a reply has been absorbed, replaying it sends nothing more. */
  lemma {:induction false} QuietAfterFirst(n: State, reply: Reply, count: nat)
    requires Step(n, reply) == Continue(n, None)
    ensures Run(n, seq(count, _ => reply)).sent == []
    decreases count
  {
    if count > 0 {
      var replies := seq(count, _ => reply);
      assert replies[0] == reply;
      assert replies[1..] == seq(count - 1, _ => reply);
      QuietAfterFirst(n, reply, count - 1);
    }
  }
}

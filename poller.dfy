/**
 The driver `main`: the token gate, the startup notice, and the polling loop.
 One pass of the loop is the pure step `Step` over a `PollState` (the time
 cursor, the messages handed to the chat transport so far, and whether the
 process is still running); the class `Bot` runs the same pass imperatively
 on its fields, and `Bot.Run` runs a finite prefix of the endless loop.

 Everything outside the process is an input: the API answer for a given
 `from_date`, the clock reading at the end of a successful pass, and what
 the transport did with each message.
 */
module Poller {
  import opened PyJson
  import opened Failures
  import opened Tokens
  import opened Validation
  import opened Status

  const STARTUP_MESSAGE := "Telegram бот запущен."
  const FAILURE_PREFIX := "Сбой в работе программы: "

  /**
   What the transport did with one message: delivered it, raised
   `telegram.TelegramError` (which `send_message` logs and swallows), or
   raised some other exception (which `send_message` lets through).
   */
  datatype SendOutcome = Delivered | TelegramError | OtherError(text: string)

  /** The world as one pass of the loop sees it. */
  datatype CycleInput = CycleInput(
    /** `get_api_answer` as a function of the `from_date` cursor: a decoded body or the exception raised. */
    api: int -> Result<Json>,
    /** `time.time()` when the pass reaches `timestamp = time.time()`. */
    now: int,
    /** The transport's outcome for the status notification. */
    statusSend: SendOutcome,
    /** The transport's outcome for the failure notification. */
    failureSend: SendOutcome)

  datatype PollState = PollState(cursor: int, sent: seq<string>, running: bool)

  /** The text sent to the chat when a pass raises `f`: the fixed prefix, then `str(f)`. */
  function FailureMessage(f: Failure): (r: string)
    ensures StartsWith(r, FAILURE_PREFIX) && r[|FAILURE_PREFIX|..] == Text(f)
  {
    var r := FAILURE_PREFIX + Text(f);
    assert r[..|FAILURE_PREFIX|] == FAILURE_PREFIX;
    r
  }

  /** A failure notice never reads as a status notification. */
  lemma FailureNoticeIsNoStatus(f: Failure)
    ensures DecodeMessage(FailureMessage(f)).None?
  {
    var r := FailureMessage(f);
    assert r[0] == r[..|FAILURE_PREFIX|][0] == 'С';
    assert MESSAGE_PREFIX[0] == 'И';
  }

  /** `if homework:` — a submission was returned and it is truthy. */
  predicate Notifies(homework: Option<Json>) {
    homework.Some? && Truthy(homework.value)
  }

  /** What the `try` block of one pass did: the messages it handed to the transport and the exception that ended it. */
  datatype Attempt = Attempt(sent: seq<string>, raised: Option<Failure>)

  function TryBody(fetched: Result<Json>, statusSend: SendOutcome): (a: Attempt)
    // a message is handed to the transport only for a truthy submission the interpreter accepted
    ensures |a.sent| <= 1
    ensures a.sent != [] <==>
              fetched.Ok? && CheckResponse(fetched.value).Ok? && Notifies(CheckResponse(fetched.value).value) &&
              ParseStatus(CheckResponse(fetched.value).value.value).Ok?
    // the block ends normally exactly when nothing it calls raises
    ensures a.raised.None? <==>
              fetched.Ok? && CheckResponse(fetched.value).Ok? &&
              (Notifies(CheckResponse(fetched.value).value) ==>
                 ParseStatus(CheckResponse(fetched.value).value.value).Ok? && !statusSend.OtherError?)
  {
    match fetched
    case Err(f) => Attempt([], Some(f))
    case Ok(response) =>
      match CheckResponse(response)
      case Err(f) => Attempt([], Some(f))
      case Ok(homework) =>
        if !Notifies(homework) then Attempt([], None)
        else match ParseStatus(homework.value)
          case Err(f) => Attempt([], Some(f))
          case Ok(message) =>
            Attempt([message], if statusSend.OtherError? then Some(Transport(statusSend.text)) else None)
  }

  /**
   One pass of the `while True` loop. The cursor moves to `now` only when
   the `try` block runs to its end; any exception leaves it where it was,
   so the next pass asks for the same window again, and sends one failure
   notification. Only an exception escaping that failure notification ends
   the process.
   */
  function Step(s: PollState, c: CycleInput): (r: PollState)
    requires s.running
    // earlier messages are kept and at most two are added
    ensures |s.sent| <= |r.sent| <= |s.sent| + 2 && r.sent[..|s.sent|] == s.sent
    // the cursor is either kept or moved to `now`
    ensures r.cursor == s.cursor || r.cursor == c.now
    // only a failing failure notification ends the process
    ensures !r.running ==> c.failureSend.OtherError?
  {
    var attempt := TryBody(c.api(s.cursor), c.statusSend);
    match attempt.raised
    case None => PollState(c.now, s.sent + attempt.sent, true)
    case Some(f) => PollState(s.cursor, s.sent + attempt.sent + [FailureMessage(f)], !c.failureSend.OtherError?)
  }

  /** The fetch raised: the cursor is kept and one failure notification is sent. */
  lemma StepOnFetchError(s: PollState, c: CycleInput)
    requires s.running && c.api(s.cursor).Err?
    ensures Step(s, c)
            == PollState(s.cursor, s.sent + [FailureMessage(c.api(s.cursor).error)], !c.failureSend.OtherError?)
  {
  }

  /** The validator rejected the body: the cursor is kept and one failure notification is sent. */
  lemma StepOnInvalidResponse(s: PollState, c: CycleInput)
    requires s.running && c.api(s.cursor).Ok? && CheckResponse(c.api(s.cursor).value).Err?
    ensures var f := CheckResponse(c.api(s.cursor).value).error;
      Step(s, c) == PollState(s.cursor, s.sent + [FailureMessage(f)], !c.failureSend.OtherError?)
  {
  }

  /** No submission, or a falsy one: the cursor advances and nothing is sent. */
  lemma StepWithoutSubmission(s: PollState, c: CycleInput)
    requires s.running && c.api(s.cursor).Ok? && CheckResponse(c.api(s.cursor).value).Ok?
    requires !Notifies(CheckResponse(c.api(s.cursor).value).value)
    ensures Step(s, c) == PollState(c.now, s.sent, true)
  {
  }

  /** The submission could not be interpreted: the cursor is kept and one failure notification is sent. */
  lemma StepOnUninterpretable(s: PollState, c: CycleInput)
    requires s.running && c.api(s.cursor).Ok? && CheckResponse(c.api(s.cursor).value).Ok?
    requires Notifies(CheckResponse(c.api(s.cursor).value).value)
    requires ParseStatus(CheckResponse(c.api(s.cursor).value).value.value).Err?
    ensures var f := ParseStatus(CheckResponse(c.api(s.cursor).value).value.value).error;
      Step(s, c) == PollState(s.cursor, s.sent + [FailureMessage(f)], !c.failureSend.OtherError?)
  {
  }

  /**
   The submission was interpreted: exactly its notification is sent and the
   cursor advances, unless the transport raised something other than
   `TelegramError`, which the loop then reports like any other failure.
   */
  lemma StepWithSubmission(s: PollState, c: CycleInput)
    requires s.running && c.api(s.cursor).Ok? && CheckResponse(c.api(s.cursor).value).Ok?
    requires Notifies(CheckResponse(c.api(s.cursor).value).value)
    requires ParseStatus(CheckResponse(c.api(s.cursor).value).value.value).Ok?
    ensures var message := ParseStatus(CheckResponse(c.api(s.cursor).value).value.value).value;
      Step(s, c) == if c.statusSend.OtherError?
                    then PollState(s.cursor, s.sent + [message, FailureMessage(Transport(c.statusSend.text))],
                                   !c.failureSend.OtherError?)
                    else PollState(c.now, s.sent + [message], true)
  {
  }

  /** `send_message` swallows `telegram.TelegramError`: such a failure changes nothing in the pass. */
  lemma TelegramErrorSwallowed(s: PollState, c: CycleInput)
    requires s.running
    ensures Step(s, c.(statusSend := TelegramError)) == Step(s, c.(statusSend := Delivered))
    ensures Step(s, c.(failureSend := TelegramError)) == Step(s, c.(failureSend := Delivered))
  {
  }

  /** Passes run one after the other until the inputs are used up or the process has ended. */
  function Runs(s: PollState, cycles: seq<CycleInput>): (r: PollState)
    decreases |cycles|
    // a process that has ended runs no pass
    ensures !s.running ==> r == s
    // the loop ends only when some failure notification raised past `send_message`
    ensures s.running && !r.running ==> exists k :: 0 <= k < |cycles| && cycles[k].failureSend.OtherError?
  {
    if cycles == [] || !s.running then s else Runs(Step(s, cycles[0]), cycles[1..])
  }

  /** Nothing the loop sent is ever taken back, and each pass adds at most two messages. */
  lemma {:induction false} RunsKeepHistory(s: PollState, cycles: seq<CycleInput>)
    decreases |cycles|
    ensures var r := Runs(s, cycles);
      |s.sent| <= |r.sent| <= |s.sent| + 2 * |cycles| && r.sent[..|s.sent|] == s.sent
  {
    if cycles != [] && s.running {
      var next := Step(s, cycles[0]);
      RunsKeepHistory(next, cycles[1..]);
      var r := Runs(s, cycles);
      assert r.sent[..|next.sent|][..|s.sent|] == r.sent[..|s.sent|];
    }
  }

  /** The clock readings of the passes never go back, and none is before `start`. */
  predicate ClockFrom(start: int, cycles: seq<CycleInput>) {
    && (forall k :: 0 <= k < |cycles| ==> start <= cycles[k].now)
    && (forall j, k :: 0 <= j < k < |cycles| ==> cycles[j].now <= cycles[k].now)
  }

  /** With a clock that never goes back, the `from_date` cursor never goes back either. */
  lemma {:induction false} RunsCursorMonotone(s: PollState, cycles: seq<CycleInput>)
    requires ClockFrom(s.cursor, cycles)
    decreases |cycles|
    ensures s.cursor <= Runs(s, cycles).cursor
    ensures cycles != [] ==> Runs(s, cycles).cursor <= cycles[|cycles| - 1].now
  {
    if cycles != [] && s.running {
      var next := Step(s, cycles[0]);
      assert ClockFrom(next.cursor, cycles[1..]);
      RunsCursorMonotone(next, cycles[1..]);
      if |cycles| == 1 {
        assert next.cursor <= cycles[0].now;
      }
    }
  }

  /** The predicate of `RunsRetrySameWindow`: every pass gets an error for `from_date` and can report it. */
  predicate FailingFor(cursor: int, cycles: seq<CycleInput>) {
    forall k :: 0 <= k < |cycles| ==> cycles[k].api(cursor).Err? && !cycles[k].failureSend.OtherError?
  }

  /** The failure notifications of those passes, in order. */
  function RetryMessages(cursor: int, cycles: seq<CycleInput>): seq<string>
    requires FailingFor(cursor, cycles)
    decreases |cycles|
  {
    if cycles == [] then [] else [FailureMessage(cycles[0].api(cursor).error)] + RetryMessages(cursor, cycles[1..])
  }

  /**
   No window is skipped: while the API keeps failing for the current
   `from_date`, every pass asks for that same window again and sends its
   failure notification, and the cursor stays put.
   */
  lemma {:induction false} RunsRetrySameWindow(s: PollState, cycles: seq<CycleInput>)
    requires s.running && FailingFor(s.cursor, cycles)
    decreases |cycles|
    ensures Runs(s, cycles) == PollState(s.cursor, s.sent + RetryMessages(s.cursor, cycles), true)
  {
    if cycles != [] {
      var message := FailureMessage(cycles[0].api(s.cursor).error);
      var next := PollState(s.cursor, s.sent + [message], true);
      assert Runs(s, cycles) == Runs(next, cycles[1..]) by {
        StepOnFetchError(s, cycles[0]);
      }
      assert FailingFor(s.cursor, cycles[1..]) by {
        forall k | 0 <= k < |cycles| - 1 ensures cycles[1..][k] == cycles[k + 1] { }
      }
      RunsRetrySameWindow(next, cycles[1..]);
      assert (s.sent + [message]) + RetryMessages(s.cursor, cycles[1..])
          == s.sent + RetryMessages(s.cursor, cycles);
    }
  }

  /** The state right after the startup notice, before the first pass. */
  function Launched(now: int, startupSend: SendOutcome): PollState {
    PollState(now, [STARTUP_MESSAGE], !startupSend.OtherError?)
  }

  /**
   When the startup notice raises something other than `TelegramError`, the
   exception leaves `main` before the loop: no pass runs, no request is made
   and nothing but the startup notice is ever sent.
   */
  lemma FailedStartupRunsNothing(now: int, text: string, cycles: seq<CycleInput>)
    ensures Runs(Launched(now, OtherError(text)), cycles) == PollState(now, [STARTUP_MESSAGE], false)
  {
  }

  /** Otherwise the loop is entered, and the first pass asks for everything since the start time. */
  lemma LaunchedRunsFirstPass(now: int, startupSend: SendOutcome, cycles: seq<CycleInput>)
    requires !startupSend.OtherError? && cycles != []
    ensures Runs(Launched(now, startupSend), cycles)
            == Runs(Step(PollState(now, [STARTUP_MESSAGE], true), cycles[0]), cycles[1..])
  {
  }

  class Bot {
    /** `timestamp`: the `from_date` of the next request. */
    var cursor: int
    /** Every message handed to the transport, in order. */
    var sent: seq<string>
    /** False once an exception has escaped `main`. */
    var running: bool

    function State(): PollState
      reads this
    {
      PollState(cursor, sent, running)
    }

    /** The startup notice, then `timestamp = time.time()`. */
    constructor (now: int, startupSend: SendOutcome)
      ensures State() == Launched(now, startupSend)
    {
      sent := [STARTUP_MESSAGE];
      running := !startupSend.OtherError?;
      cursor := now;
    }

    /** One pass of the loop body: the `try` block and its `except Exception` handler. */
    method Cycle(c: CycleInput)
      requires running
      modifies this
      ensures State() == Step(old(State()), c)
    {
      var raised: Option<Failure> := None;
      var fetched := c.api(cursor);
      if fetched.Err? {
        raised := Some(fetched.error);
      } else {
        var checked := CheckResponse(fetched.value);
        if checked.Err? {
          raised := Some(checked.error);
        } else if Notifies(checked.value) {
          var parsed := ParseStatus(checked.value.value);
          if parsed.Err? {
            raised := Some(parsed.error);
          } else {
            sent := sent + [parsed.value];
            if c.statusSend.OtherError? {
              raised := Some(Transport(c.statusSend.text));
            }
          }
        }
      }
      if raised.None? {
        cursor := c.now;
      } else {
        sent := sent + [FailureMessage(raised.value)];
        if c.failureSend.OtherError? {
          running := false;
        }
      }
    }

    /** The first passes of `while True`, stopping early if an exception escapes `main`. */
    method Run(cycles: seq<CycleInput>)
      modifies this
      ensures State() == Runs(old(State()), cycles)
    {
      var i := 0;
      while i < |cycles| && running
        invariant 0 <= i <= |cycles|
        invariant Runs(State(), cycles[i..]) == Runs(old(State()), cycles)
      {
        assert cycles[i..][1..] == cycles[i + 1..];
        Cycle(cycles[i]);
        i := i + 1;
      }
    }
  }

  /**
   `main` up to the loop: exit unless `check_tokens` passes, then build the
   Telegram client, which may raise (`clientBuilt` says whether
   `telegram.Bot(token=TELEGRAM_TOKEN)` returned; the library refuses, for
   instance, an unset token), then start the bot. No bot means no request.
   */
  method Start(practicum: Option<string>, telegram: Option<string>, chat: Option<string>,
               clientBuilt: bool, now: int, startupSend: SendOutcome) returns (bot: Bot?)
    ensures bot == null <==> !CheckTokens(practicum, telegram, chat) || !clientBuilt
    ensures bot != null ==> fresh(bot) && bot.State() == Launched(now, startupSend)
  {
    if !CheckTokens(practicum, telegram, chat) {
      return null;
    }
    if !clientBuilt {
      return null;
    }
    bot := new Bot(now, startupSend);
  }
}

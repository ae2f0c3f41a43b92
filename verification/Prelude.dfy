/** Values shared by every component: optional values, results, instants and opaque payloads. */
module Prelude {
  datatype Option<+T> = None | Some(value: T)

  datatype Result<+T> = Ok(value: T) | Err(error: Error)

  /** Why an operation was refused. The source distinguishes these by message. */
  datatype Error =
    | ErrClosed            // the execution already has a terminal event
    | ErrAlreadyStarted    // event 1 exists
    | ErrTaskPending       // a workflow task is already scheduled
    | ErrNoTask            // no workflow task in the state the transition needs
    | ErrDuplicateId       // an activity or timer id is already pending
    | ErrNotPending        // the activity or timer named is not pending
    | ErrNotHeld           // the activity attempt is not started or not held
    | ErrInvalidCommand    // a command or a batch is malformed
    | ErrInvalidHistory    // a history breaks the structural contract
    | ErrNotPatchable      // the last event is not a continue-as-new
    | ErrNonDeterminism    // workflow code and history disagree
    | ErrPanic             // workflow code panicked
    | ErrDeadlock          // workflow code did not block in time
    | ErrPoisoned          // the workflow instance failed earlier
    | ErrNoHistory         // a workflow task carries no history
    | ErrNoStartedEvent    // the history lacks the started event a task names

  /** An instant or a duration, in nanoseconds. The instant 0 means "unset". */
  type Time = int
  type Duration = int

  /** The instant `d` after `t`, or unset when `d` is not positive. */
  function Deadline(t: Time, d: Duration): Time {
    if d > 0 then t + d else 0
  }

  /** User data: never inspected by the engine. A version marker carries an encoded number. */
  datatype Payload = NoPayload | Payload(data: string) | Number(n: int)

  /** An application error as it crosses the process boundary. */
  datatype Failure = Failure(typ: string, message: string, nonRetryable: bool)

  datatype TimeoutKind = Unspecified | ScheduleToStart | StartToClose | ScheduleToClose | Heartbeat

  function TimeoutName(k: TimeoutKind): string {
    match k
    case Unspecified => "UNSPECIFIED"
    case ScheduleToStart => "SCHEDULE_TO_START"
    case StartToClose => "START_TO_CLOSE"
    case ScheduleToClose => "SCHEDULE_TO_CLOSE"
    case Heartbeat => "HEARTBEAT"
  }

  /** Decimal rendering of a natural number. */
  function Itoa(n: nat): string {
    if n < 10 then [Digit(n)] else Itoa(n / 10) + [Digit(n % 10)]
  }

  function Digit(d: nat): (c: char)
    requires d < 10
    ensures '0' <= c <= '9'
    ensures c as int == '0' as int + d
  {
    ('0' as int + d) as char
  }

  lemma {:induction false} ItoaDigits(n: nat)
    ensures |Itoa(n)| > 0
    ensures forall i :: 0 <= i < |Itoa(n)| ==> '0' <= Itoa(n)[i] <= '9'
  {
    if n >= 10 {
      ItoaDigits(n / 10);
    }
  }

  /** Distinct counters render as distinct strings. */
  lemma {:induction false} ItoaInjective(m: nat, n: nat)
    requires Itoa(m) == Itoa(n)
    ensures m == n
  {
    ItoaDigits(m / 10);
    ItoaDigits(n / 10);
    assert Itoa(m)[|Itoa(m)| - 1] == Digit(m % 10);
    assert Itoa(n)[|Itoa(n)| - 1] == Digit(n % 10);
    if m >= 10 && n >= 10 {
      assert Itoa(m / 10) == Itoa(m)[..|Itoa(m)| - 1];
      assert Itoa(n / 10) == Itoa(n)[..|Itoa(n)| - 1];
      ItoaInjective(m / 10, n / 10);
    }
  }
}

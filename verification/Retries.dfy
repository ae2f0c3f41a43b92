/** Retries of an activity: bounded in number, in time and in the delay between two attempts. */
module Retries {
  import opened Prelude
  import opened RetryPolicy
  import opened History
  import opened Execution
  import opened Durability

  /** A missing policy is the default one. */
  function PolicyOf(o: ActivityOptions): Policy { if o.retry.Some? then o.retry.value else DEFAULT_POLICY }

  /** The step re-armed activity `k` instead of resolving it. */
  predicate Rearmed(s: State, step: Step, k: int) {
    && k in s.activities.byId && k in step.state.activities.byId
    && step.state.activities.byId[k].attempts.number != s.activities.byId[k].attempts.number
  }

  /** A retry writes no event, counts one attempt up within the policy, and waits no less than the nominal interval, no more
      than a fifth above the maximum one, and never past the schedule-to-close deadline. */
  predicate WithinBounds(s: State, step: Step, k: int, now: Time)
    requires Rearmed(s, step, k)
  {
    var a, b := s.activities.byId[k], step.state.activities.byId[k];
    var p := PolicyOf(a.options);
    && step.state.events == s.events
    && b.attempts.number == a.attempts.number + 1
    && (p.maxAttempts > 0 ==> b.attempts.number <= p.maxAttempts)
    && |step.effects| == 1 && step.effects[0].ArmTimer? && step.effects[0].eventId == k
    && (a.closeDeadline != 0 ==> step.effects[0].fireAt <= a.closeDeadline)
    && (Usable(p) ==>
          && now + Truncate(Nominal(p, a.attempts.number)) <= step.effects[0].fireAt
          && (step.effects[0].fireAt - now) as real <= p.maximum as real * 1.2)
  }

  lemma DelayBounds(s: State, a: Activity, failure: Failure, now: Time)
    ensures
      var p := PolicyOf(a.options);
      var d := RetryDelay(s, a, failure, now);
      d.Some? ==>
        && (p.maxAttempts > 0 ==> a.attempts.number + 1 <= p.maxAttempts)
        && (Usable(p) ==> Truncate(Nominal(p, a.attempts.number)) <= d.value && d.value as real <= p.maximum as real * 1.2)
  {
    hide Backoff, Nominal, Truncate, Get;
    var p := PolicyOf(a.options);
    if Usable(p) {
      BackoffBounds(p, a.attempts.number, StartedJitter(s, a.startedId));
    }
  }

  /** Resolving an activity leaves no attempt behind to count. */
  lemma ResolvedNotRearmed(s: State, e: Attrs, k: int, now: Time)
    requires ActivityCloser(e) && e.scheduledId == k && AppendAndWake(s, e, now).Ok?
    ensures k !in AppendAndWake(s, e, now).value.state.activities.byId
  {
    hide InfoFrom, StatusAfter;
  }

  lemma RetryInBounds(s: State, k: int, failure: Failure, now: Time)
    requires k in s.activities.byId && s.activities.byId[k].scheduledId == k
    requires RetryDelay(s, s.activities.byId[k], failure, now).Some?
    ensures
      var a := s.activities.byId[k];
      var step := RetryActivity(s, a, failure, RetryDelay(s, a, failure, now).value, now);
      Rearmed(s, step, k) && WithinBounds(s, step, k, now)
  {
    hide RetryDelay, Nominal, Truncate;
    DelayBounds(s, s.activities.byId[k], failure, now);
  }

  /** Whether an attempt failed or timed out, another one is armed only within the policy and the outer budget. */
  lemma RetriesStayInBounds(s: State, k: int, failure: Failure, kind: TimeoutKind, now: Time)
    requires k in s.activities.byId && s.activities.byId[k].scheduledId == k
    ensures
      var r := FailActivity(s, k, failure, now);
      r.Ok? && Rearmed(s, r.value, k) ==> WithinBounds(s, r.value, k, now)
    ensures
      var r := TimeoutActivity(s, k, kind, now);
      r.Ok? && Rearmed(s, r.value, k) ==> WithinBounds(s, r.value, k, now)
  {
    hide RetryDelay, RetryActivity, AppendAndWake, WithinBounds, TimeoutFailure;
    var a := s.activities.byId[k];
    if RetryDelay(s, a, failure, now).Some? {
      RetryInBounds(s, k, failure, now);
    } else {
      var exhausted := a.options.retry.Some? && a.options.retry.value.maxAttempts > 0
                       && a.attempts.number >= a.options.retry.value.maxAttempts;
      var e := ActivityFailed(k, a.startedId, Some(failure), if exhausted then MaximumAttemptsReached else NonRetryableFailure);
      if AppendAndWake(s, e, now).Ok? {
        ResolvedNotRearmed(s, e, k, now);
      }
    }
    if RetryDelay(s, a, TimeoutFailure(kind), now).Some? {
      RetryInBounds(s, k, TimeoutFailure(kind), now);
    } else {
      var e := ActivityTimedOut(k, a.startedId, kind, a.attempts.heartbeat);
      if AppendAndWake(s, e, now).Ok? {
        ResolvedNotRearmed(s, e, k, now);
      }
    }
  }

  /** A schedule-to-close expiry is never retried. */
  lemma OuterBudgetIsFinal(s: State, k: int, now: Time)
    requires k in s.activities.byId
    ensures
      var r := TimeoutActivity(s, k, ScheduleToClose, now);
      r.Ok? ==> k !in r.value.state.activities.byId
  {
    hide AppendAndWake, StartedJitter, Backoff;
    var a := s.activities.byId[k];
    assert RetryDelay(s, a, TimeoutFailure(ScheduleToClose), now).None?;
    var e := ActivityTimedOut(k, a.startedId, ScheduleToClose, a.attempts.heartbeat);
    if AppendAndWake(s, e, now).Ok? {
      ResolvedNotRearmed(s, e, k, now);
    }
  }

  /** A failing run is retried only within its policy and strictly before its execution deadline, and the recorded reason
      says whether it was. */
  lemma RunRetriesStayInBounds(s: State, failure: Failure, draw: Draw, now: Time)
    ensures
      var v := FailureVerdict(s, failure, draw, now);
      && (v.0.InProgress? <==> v.1.Some?)
      && (v.1.Some? ==>
            && s.info.retry.Some? && !failure.nonRetryable
            && (s.info.retry.value.maxAttempts > 0 ==> s.info.attempt + 1 <= s.info.retry.value.maxAttempts)
            && (s.info.executionDeadline != 0 ==> now + v.1.value < s.info.executionDeadline)
            && (Usable(s.info.retry.value) ==> v.1.value as real <= s.info.retry.value.maximum as real * 1.2))
  {
    hide Backoff;
    if s.info.retry.Some? && Usable(s.info.retry.value) {
      BackoffBounds(s.info.retry.value, s.info.attempt, draw.jitter);
    }
  }
}

/** What an answered workflow task writes, dispatches and starts next, stated on the commands and on event 1. */
module Successors {
  import opened Prelude
  import opened RetryPolicy
  import opened History
  import opened Execution
  import opened Durability
  import opened Engine
  import opened Rebuilding
  import opened Batches
  import opened Effects
  import Clocks
  import Written

  // ------------------------------------------------------------------
  // What event 1 says about the run
  // ------------------------------------------------------------------

  function First(h: seq<Event>): StartAttrs
    requires h != [] && h[0].attrs.ExecutionStarted?
  {
    h[0].attrs.start
  }

  /** The state's run-level fields are those of event 1. */
  predicate Rooted(s: State) {
    && s.events != [] && s.events[0].attrs.ExecutionStarted? && s.events[0].time > 0
    && var st := First(s.events);
    && s.info.workflowType == st.workflowType && s.info.taskQueue == st.taskQueue && s.info.attempt == st.attempt
    && s.info.retry == st.retry && s.info.taskTimeout == st.taskTimeout
    && s.info.firstRunId == ChainOf(s)
    && s.info.executionDeadline == (if st.executionTimeout > 0 then s.events[0].time + st.executionTimeout else 0)
  }

  /** The first run of the chain: the one event 1 names, or this one. */
  function ChainOf(s: State): string
    requires s.events != [] && s.events[0].attrs.ExecutionStarted?
  {
    if First(s.events).firstRunId == "" then s.runId else First(s.events).firstRunId
  }

  function Own(given: string, own: string): string { if given != "" then given else own }

  function Tidied(given: Option<Policy>, own: Option<Policy>): Option<Policy> {
    if given.Some? then Some(Normalize(given.value)) else own
  }

  // ------------------------------------------------------------------
  // Retrying a failed run
  // ------------------------------------------------------------------

  predicate Spent(st: StartAttrs) { st.retry.Some? && 0 < st.retry.value.maxAttempts <= st.attempt }

  predicate Barred(st: StartAttrs, f: Failure) {
    st.retry.Some? && (f.nonRetryable || (f.typ != "" && f.typ in st.retry.value.nonRetryable))
  }

  /** The delay before the next run fits into the time the whole execution has. */
  predicate InTime(st: StartAttrs, at: Time, draw: Draw, now: Time) {
    st.retry.Some? &&
      (st.executionTimeout > 0 ==> now + Backoff(st.retry.value, st.attempt, draw.jitter) < at + st.executionTimeout)
  }

  /** A failed run is retried: it has a policy with attempts left, the failure allows it, and there is time. */
  predicate Retried(st: StartAttrs, at: Time, f: Failure, draw: Draw, now: Time) {
    st.retry.Some? && !Spent(st) && !Barred(st, f) && InTime(st, at, draw, now)
  }

  /** The recorded reason says which of the four conditions failed, if one did. */
  predicate ClosesAs(st: StartAttrs, at: Time, f: Failure, draw: Draw, now: Time, state: RetryState) {
    && (state == RetryPolicyNotSet <==> st.retry.None?)
    && (state == MaximumAttemptsReached <==> Spent(st))
    && (state == NonRetryableFailure <==> Barred(st, f) && !Spent(st))
    && (state == RetryTimeout <==> st.retry.Some? && !Spent(st) && !Barred(st, f) && !InTime(st, at, draw, now))
    && (state == InProgress <==> Retried(st, at, f, draw, now))
  }

  lemma VerdictCloses(s: State, f: Failure, draw: Draw, now: Time)
    requires Rooted(s)
    ensures
      var v := FailureVerdict(s, f, draw, now);
      var st := First(s.events);
      && ClosesAs(st, s.events[0].time, f, draw, now, v.0)
      && v.1 == if Retried(st, s.events[0].time, f, draw, now) then Some(Backoff(st.retry.value, st.attempt, draw.jitter)) else None
  {
    hide Backoff;
  }

  // ------------------------------------------------------------------
  // One command
  // ------------------------------------------------------------------

  /** The attributes a command's event has, field by field; `run` is the successor a continue-as-new names. */
  ghost predicate Spells(s: State, c: Command, a: Attrs, decision: int, draw: Draw, now: Time, run: string)
    requires s.events != [] && s.events[0].attrs.ExecutionStarted?
  {
    var st := First(s.events);
    match c
    case ScheduleActivity(aid, o) =>
      a == ActivityScheduled(aid, o.(taskQueue := Own(o.taskQueue, st.taskQueue), retry := Tidied(o.retry, Some(DEFAULT_POLICY))), decision)
    case RequestCancelActivity(k) => a == ActivityCancelRequested(k, decision)
    case StartTimer(tid, d) => a == TimerStarted(tid, d, decision)
    case CancelTimer(k) => k in s.timers.byId && a == TimerCanceled(s.timers.byId[k].timerId, k, decision)
    case RecordMarker(k, details, failure) => a == MarkerRecorded(k, details, failure, decision)
    case CompleteWorkflow(result) => a == ExecutionCompleted(result, decision)
    case FailWorkflow(f) =>
      f.Some? && exists state :: a == ExecutionFailed(f, decision, state) && ClosesAs(st, s.events[0].time, f.value, draw, now, state)
    case CancelWorkflow(details) => a == ExecutionCanceled(details, decision)
    case ContinueAsNew(typ, queue, input, runTimeout, taskTimeout, retry) =>
      a == ExecutionContinuedAsNew(run, Own(typ, st.workflowType), Own(queue, st.taskQueue), input, runTimeout, taskTimeout,
                                   Tidied(retry, st.retry), decision)
  }

  /** What the run that follows is started with, and when: a continue-as-new says so itself, where it leaves out its type,
      queue, policy or input they are this run's; a retry repeats event 1 with the attempt counted up. */
  function NextRun(s: State, c: Command, draw: Draw, now: Time): Option<(StartAttrs, Duration)>
    requires s.events != [] && s.events[0].attrs.ExecutionStarted? && (c.FailWorkflow? ==> c.failure.Some?)
  {
    var st := First(s.events);
    match c
    case ContinueAsNew(typ, queue, input, runTimeout, taskTimeout, retry) =>
      Some((StartAttrs(Own(typ, st.workflowType), Own(queue, st.taskQueue), if input == NoPayload then st.input else input,
                       runTimeout, st.executionTimeout, taskTimeout, Tidied(retry, st.retry), 1, s.runId, ChainOf(s), draw.seed), 0))
    case FailWorkflow(f) =>
      if Retried(st, s.events[0].time, f.value, draw, now) then
        Some((st.(attempt := st.attempt + 1, continuedRunId := s.runId, firstRunId := ChainOf(s), seed := draw.seed),
              Backoff(st.retry.value, st.attempt, draw.jitter)))
      else None
    case _ => None
  }

  function WorkOf(c: Command, id: int, queue: string, now: Time): seq<Effect> {
    match c
    case ScheduleActivity(_, o) => [DispatchActivity(Own(o.taskQueue, queue), id)]
    case StartTimer(_, d) => [ArmTimer(id, now + d, "")]
    case _ => []
  }

  /** The work a batch hands out: each activity under its event's ID on its queue, each timer at its instant, in order. */
  function Work(cmds: seq<Command>, id: int, queue: string, now: Time): seq<Effect> {
    if cmds == [] then [] else WorkOf(cmds[0], id, queue, now) + Work(cmds[1..], id + 1, queue, now)
  }

  function StartOf(next: Option<(StartAttrs, Duration)>): seq<Effect> {
    if next.Some? then [StartRun(next.value.0, next.value.1)] else []
  }

  /** `u` is `s` some commands later: the same run, and no timer of `s` replaced. */
  predicate Along(s: State, u: State) {
    && Rooted(s) && s.events <= u.events && Dense(u.events)
    && u.runId == s.runId && u.info == s.info && u.task == NO_TASK
    && forall k :: k in u.timers.byId && k <= |s.events| ==> k in s.timers.byId && u.timers.byId[k] == s.timers.byId[k]
  }

  lemma EventSpells(s: State, u: State, c: Command, decision: int, draw: Draw, now: Time)
    requires Along(s, u) && (c.FailWorkflow? ==> c.failure.Some?)
    requires c.CancelTimer? ==> c.startedId in u.timers.byId && c.startedId <= |s.events|
    ensures Spells(s, c, EventFor(u, NormalizeCommand(c), decision, draw, now), decision, draw, now, PENDING_RUN_ID)
  {
    hide FailureVerdict, ClosesAs, Dense, SuccessorAttrs;
    if c.FailWorkflow? { VerdictSame(s, u, c.failure.value, draw, now); }
    if c.ContinueAsNew? { SuccessorSpells(s, u, c, draw, now); }
  }

  lemma VerdictSame(s: State, u: State, f: Failure, draw: Draw, now: Time)
    requires Along(s, u)
    ensures FailureVerdict(u, f, draw, now) == FailureVerdict(s, f, draw, now)
    ensures ClosesAs(First(s.events), s.events[0].time, f, draw, now, FailureVerdict(u, f, draw, now).0)
  {
    hide Backoff, ClosesAs;
    VerdictCloses(s, f, draw, now);
  }

  lemma SuccessorSpells(s: State, u: State, c: Command, draw: Draw, now: Time)
    requires Along(s, u) && c.ContinueAsNew?
    ensures Some((SuccessorOf(u, NormalizeCommand(c), draw.seed), 0)) == NextRun(s, c, draw, now)
  {
    hide Dense, Normalize;
    assert u.events[0] == s.events[0];
  }

  lemma RetrySpells(s: State, u: State, f: Failure, draw: Draw, now: Time)
    requires Along(s, u)
    ensures
      var v := FailureVerdict(u, f, draw, now).1;
      (if v.Some? then Some((SuccessorAttrs(u, NoPayload, u.info.attempt + 1, draw.seed), v.value)) else None)
      == NextRun(s, FailWorkflow(Some(f)), draw, now)
  {
    hide Dense, Backoff, FailureVerdict, ClosesAs, Retried;
    assert u.events[0] == s.events[0];
    VerdictSame(s, u, f, draw, now);
    VerdictCloses(s, f, draw, now);
  }

  lemma EffectsSpell(s: State, u: State, c: Command, ev: Event, draw: Draw, now: Time)
    requires Along(s, u) && (c.FailWorkflow? ==> c.failure.Some?) && ev.time == now
    ensures
      EffectsFor(u, NormalizeCommand(c), ev, draw) == WorkOf(c, ev.id, First(s.events).taskQueue, now) + StartOf(NextRun(s, c, draw, now))
  {
    hide FailureVerdict, SuccessorOf, SuccessorAttrs, NextRun, Dense;
    match c
    case FailWorkflow(f) =>
      RetrySpells(s, u, f.value, draw, now);
    case ContinueAsNew(_, _, _, _, _, _) =>
      SuccessorSpells(s, u, c, draw, now);
    case _ => NoNextRun(s, c, draw, now);
  }

  lemma NoNextRun(s: State, c: Command, draw: Draw, now: Time)
    requires s.events != [] && s.events[0].attrs.ExecutionStarted? && !c.FailWorkflow? && !c.ContinueAsNew?
    ensures NextRun(s, c, draw, now) == None
  {
  }

  /** One command of a batch: its event and its work, and the run goes on unless it closed. */
  lemma CommandSpells(s: State, u: State, c: Command, decision: int, draw: Draw, now: Time)
    requires Along(s, u) && (c.FailWorkflow? ==> c.failure.Some?) && (c.CancelTimer? ==> c.startedId <= |s.events|)
    requires ApplyCommand(u, NormalizeCommand(c), decision, draw, now).Applied?
    ensures SpeltOne(s, u, c, ApplyCommand(u, NormalizeCommand(c), decision, draw, now).step, decision, draw, now)
  {
    hide EventFor, EffectsFor, Spells, WorkOf, NextRun, StartOf, Append, Along, Closing, NormalizeCommand;
    NormalizedCancel(c);
    var a := EventFor(u, NormalizeCommand(c), decision, draw, now);
    EventSpells(s, u, c, decision, draw, now);
    CommandKind(u, NormalizeCommand(c), decision, draw, now);
    StepMoves(s, u, a, now);
    EffectsSpell(s, u, c, Event(NextEventId(u.events), now, a), draw, now);
  }

  lemma NormalizedCancel(c: Command)
    ensures NormalizeCommand(c).CancelTimer? <==> c.CancelTimer?
    ensures c.CancelTimer? ==> NormalizeCommand(c) == c
    ensures Closing(NormalizeCommand(c)) <==> Closing(c)
    ensures NormalizeCommand(c).FailWorkflow? <==> c.FailWorkflow?
    ensures c.FailWorkflow? ==> NormalizeCommand(c) == c
  {
  }

  ghost predicate SpelledAt(s: State, c: Command, e: Event, i: nat, decision: int, draw: Draw, now: Time, run: string)
    requires s.events != [] && s.events[0].attrs.ExecutionStarted?
  {
    e.id == i + 1 && e.time == now && Spells(s, c, e.attrs, decision, draw, now, run)
  }

  lemma CommandKind(u: State, c: Command, decision: int, draw: Draw, now: Time)
    requires (c.FailWorkflow? ==> c.failure.Some?) && (c.CancelTimer? ==> c.startedId in u.timers.byId)
    ensures
      var a := EventFor(u, c, decision, draw, now);
      !TaskEvent(a) && !a.ExecutionStarted? && (Terminal(TypeOf(a)) <==> Closing(c))
  {
    hide SuccessorOf, FailureVerdict;
  }

  lemma StepMoves(s: State, u: State, a: Attrs, now: Time)
    requires Along(s, u) && Append(u, a, now).Ok? && !TaskEvent(a) && !a.ExecutionStarted?
    ensures
      var t := Append(u, a, now).value;
      && Open(u) && NextEventId(u.events) == |u.events| + 1
      && t.events == u.events + [Event(|u.events| + 1, now, a)]
      && Along(s, t)
      && (Open(t) <==> !Terminal(TypeOf(a)))
  {
    hide InfoFrom, Rooted, ApplyToActivities, StatusAfter;
    assert StatusAfter(a) != Running by { NoRunningAfter(a); }
  }

  lemma NoRunningAfter(a: Attrs)
    ensures StatusAfter(a) != Running
  {
  }

  /** The events from `from` on spell the commands one for one, in order, at one instant. */
  ghost predicate AllSpelled(s: State, cmds: seq<Command>, h: seq<Event>, from: nat, decision: int, draw: Draw, now: Time, run: string)
    requires s.events != [] && s.events[0].attrs.ExecutionStarted?
  {
    |h| >= from + |cmds| && forall i :: 0 <= i < |cmds| ==> SpelledAt(s, cmds[i], h[from + i], from + i, decision, draw, now, run)
  }

  lemma SpelledCons(s: State, cmds: seq<Command>, h: seq<Event>, h': seq<Event>, n: nat, decision: int, draw: Draw, now: Time, run: string)
    requires s.events != [] && s.events[0].attrs.ExecutionStarted?
    requires cmds != [] && |h| == n + 1 && h <= h' && SpelledAt(s, cmds[0], h[n], n, decision, draw, now, run)
    requires AllSpelled(s, cmds[1..], h', n + 1, decision, draw, now, run)
    ensures AllSpelled(s, cmds, h', n, decision, draw, now, run)
  {
    hide SpelledAt;
    forall i | 0 <= i < |cmds| ensures SpelledAt(s, cmds[i], h'[n + i], n + i, decision, draw, now, run) {
      if i > 0 {
        assert SpelledAt(s, cmds[1..][i - 1], h'[n + 1 + (i - 1)], n + 1 + (i - 1), decision, draw, now, run);
      }
    }
  }

  predicate ClosedBy(cmds: seq<Command>) { cmds != [] && Closing(cmds[|cmds| - 1]) }

  function NextOf(s: State, cmds: seq<Command>, draw: Draw, now: Time): Option<(StartAttrs, Duration)>
    requires s.events != [] && s.events[0].attrs.ExecutionStarted? && ValidBatch(cmds)
  {
    if cmds == [] then None else (assert ValidCommand(cmds[|cmds| - 1]); NextRun(s, cmds[|cmds| - 1], draw, now))
  }

  /** A batch applied to `u`: one exact event per command, the work in order, and the run that follows the last command. */
  ghost predicate Spelt(s: State, u: State, cmds: seq<Command>, step: Step, decision: int, draw: Draw, now: Time)
    requires Along(s, u) && ValidBatch(cmds)
  {
    && |step.state.events| == |u.events| + |cmds| && u.events <= step.state.events
    && AllSpelled(s, cmds, step.state.events, |u.events|, decision, draw, now, PENDING_RUN_ID)
    && step.effects == Work(cmds, |u.events| + 1, First(s.events).taskQueue, now) + StartOf(NextOf(s, cmds, draw, now))
    && Along(s, step.state)
    && (Open(step.state) <==> Open(u) && !ClosedBy(cmds))
  }

  /** The same for one command. */
  ghost predicate SpeltOne(s: State, u: State, c: Command, step: Step, decision: int, draw: Draw, now: Time)
    requires Along(s, u) && (c.FailWorkflow? ==> c.failure.Some?)
  {
    && |step.state.events| == |u.events| + 1 && u.events <= step.state.events
    && SpelledAt(s, c, step.state.events[|u.events|], |u.events|, decision, draw, now, PENDING_RUN_ID)
    && step.effects == WorkOf(c, |u.events| + 1, First(s.events).taskQueue, now) + StartOf(NextRun(s, c, draw, now))
    && Along(s, step.state)
    && Open(u) && (Open(step.state) <==> !Closing(c))
  }

  lemma SpeltCons(s: State, u: State, cmds: seq<Command>, step: Step, rest: Step, decision: int, draw: Draw, now: Time)
    requires Along(s, u) && cmds != [] && ValidBatch(cmds) && ValidBatch(cmds[1..])
    requires (cmds[0].FailWorkflow? ==> cmds[0].failure.Some?) && (Closing(cmds[0]) ==> cmds[1..] == [])
    requires SpeltOne(s, u, cmds[0], step, decision, draw, now) && Spelt(s, step.state, cmds[1..], rest, decision, draw, now)
    ensures Spelt(s, u, cmds, Step(rest.state, step.effects + rest.effects), decision, draw, now)
  {
    hide AllSpelled, SpelledAt, NextRun, WorkOf, ValidCommand, Closing, Rooted;
    AlongStarted(s, u);
    SpelledCons(s, cmds, step.state.events, rest.state.events, |u.events|, decision, draw, now, PENDING_RUN_ID);
    if cmds[1..] != [] {
      NotClosingNext(s, cmds[0], draw, now);
      assert cmds[1..][|cmds| - 2] == cmds[|cmds| - 1];
    }
  }

  lemma {:induction false} CommandsSpell(s: State, u: State, cmds: seq<Command>, decision: int, draw: Draw, now: Time)
    requires Along(s, u) && ValidBatch(cmds) && FailuresNamed(NormalizeBatch(cmds))
    requires forall c :: c in cmds && c.CancelTimer? ==> c.startedId <= |s.events|
    requires ApplyCommands(u, NormalizeBatch(cmds), decision, draw, now).Applied?
    ensures Spelt(s, u, cmds, ApplyCommands(u, NormalizeBatch(cmds), decision, draw, now).step, decision, draw, now)
    decreases |cmds|
  {
    hide Along, ApplyCommand, NormalizeCommand, Spelt, SpeltOne, ValidCommand, Closing, NormalizeBatch, FailuresNamed;
    if cmds == [] {
      assert NormalizeBatch(cmds) == [];
      NothingSpelt(s, u, decision, draw, now);
    } else {
      var c, rest := cmds[0], cmds[1..];
      BatchSplits(cmds);
      NormalizedCancel(c);
      CommandSpells(s, u, c, decision, draw, now);
      var step := ApplyCommand(u, NormalizeCommand(c), decision, draw, now).step;
      SpeltAlong(s, u, c, step, decision, draw, now);
      CommandsSpell(s, step.state, rest, decision, draw, now);
      SpeltCons(s, u, cmds, step, ApplyCommands(step.state, NormalizeBatch(rest), decision, draw, now).step, decision, draw, now);
    }
  }

  lemma SpeltAlong(s: State, u: State, c: Command, step: Step, decision: int, draw: Draw, now: Time)
    requires Along(s, u) && (c.FailWorkflow? ==> c.failure.Some?) && SpeltOne(s, u, c, step, decision, draw, now)
    ensures Along(s, step.state)
  {
  }

  lemma NothingSpelt(s: State, u: State, decision: int, draw: Draw, now: Time)
    requires Along(s, u)
    ensures ValidBatch([]) && Spelt(s, u, [], Step(u, []), decision, draw, now)
  {
  }

  lemma NotClosingNext(s: State, c: Command, draw: Draw, now: Time)
    requires s.events != [] && s.events[0].attrs.ExecutionStarted? && !Closing(c)
    ensures NextRun(s, c, draw, now) == None
  {
  }

  lemma AlongStarted(s: State, u: State)
    requires Along(s, u)
    ensures s.events != [] && s.events[0].attrs.ExecutionStarted?
  {
  }

  lemma BatchSplits(cmds: seq<Command>)
    requires cmds != [] && ValidBatch(cmds)
    ensures ValidBatch(cmds[1..]) && ValidCommand(cmds[0]) && (cmds[0].FailWorkflow? ==> cmds[0].failure.Some?)
    ensures Closing(cmds[0]) ==> cmds[1..] == []
    ensures NormalizeBatch(cmds)[0] == NormalizeCommand(cmds[0]) && NormalizeBatch(cmds)[1..] == NormalizeBatch(cmds[1..])
    ensures FailuresNamed(NormalizeBatch(cmds)) ==> FailuresNamed(NormalizeBatch(cmds[1..]))
    ensures cmds[0] in cmds && forall c :: c in cmds[1..] ==> c in cmds
  {
    hide NormalizeCommand, ValidOptions, UsableOnceNormalized, Closing;
    assert ValidCommand(cmds[0]);
    forall i | 0 <= i < |cmds[1..]| ensures ValidCommand(cmds[1..][i]) && (Closing(cmds[1..][i]) ==> i == |cmds[1..]| - 1) {
      assert ValidCommand(cmds[i + 1]) && (Closing(cmds[i + 1]) ==> i + 1 == |cmds| - 1);
    }
    assert NormalizeBatch(cmds)[1..] == NormalizeBatch(cmds[1..]);
  }

  // ------------------------------------------------------------------
  // The whole answer
  // ------------------------------------------------------------------

  /** Something arrived while the worker was thinking, and the run goes on. */
  predicate Interrupted(s: State, cmds: seq<Command>) { s.task.startedId < |s.events| && !ClosedBy(cmds) }

  /** All an accepted answer writes: the completed event, one event per command, a next task if one is due; and all it
      reports: the work in order, and the successor under the ID its closing event names. */
  ghost predicate Answers(s: State, identity: string, cmds: seq<Command>, draw: Draw, now: Time, out: Outcome)
    requires s.events != [] && s.events[0].attrs.ExecutionStarted? && ValidBatch(cmds)
  {
    var n := |s.events|;
    var queue := First(s.events).taskQueue;
    var next := NextOf(s, cmds, draw, now);
    && Completes(s, identity, cmds, out.state.events, now)
    && AllSpelled(s, cmds, out.state.events, n + 1, n + 1, draw, now, draw.freshId)
    && out.effects == Work(cmds, n + 2, queue, now) + (if Interrupted(s, cmds) then [DispatchTask(queue, n + 2 + |cmds|)] else [])
    && out.successor == (if next.Some? then Some(Successor(draw.freshId, next.value.0, next.value.1)) else None)
    && out.drops == []
  }

  ghost predicate Completes(s: State, identity: string, cmds: seq<Command>, h: seq<Event>, now: Time) {
    var n := |s.events|;
    && |h| == n + 1 + |cmds| + (if Interrupted(s, cmds) then 1 else 0) && s.events <= h
    && h[n] == Event(n + 1, now, TaskCompleted(s.task.scheduledId, s.task.startedId, identity))
    && (Interrupted(s, cmds) ==> h[n + 1 + |cmds|] == Event(n + 2 + |cmds|, now, Written.NextTask(s)))
  }

  lemma ReadyRooted(s: State, now: Time)
    requires Ready(s, now)
    ensures Rooted(s) && Dense(s.events)
  {
    hide Replays, Linked, RefsOk;
    assert WellPlaced(s.events, 0);
    assert Linked(s);
    LinkedDense(s);
    Clocks.DurableFollows(s);
  }

  /** After its completed event the state is still this run's, with no task out. */
  lemma CompletionAlong(s: State, identity: string, now: Time)
    requires Ready(s, now) && Started(s.task)
    ensures
      var r := Append(s, TaskCompleted(s.task.scheduledId, s.task.startedId, identity), now);
      && r.Ok? && Open(r.value) && Along(s, r.value)
      && r.value.events == s.events + [Event(|s.events| + 1, now, TaskCompleted(s.task.scheduledId, s.task.startedId, identity))]
  {
    hide Ready, Rooted, Linked;
    ReadyRooted(s, now);
    ReadyDurable(s, now);
    CompletionOpens(s, identity, now);
    CompletionMoves(s, identity, now);
  }

  lemma ReadyDurable(s: State, now: Time)
    requires Ready(s, now)
    ensures Durable(s)
  {
  }

  lemma CompletionMoves(s: State, identity: string, now: Time)
    requires Append(s, TaskCompleted(s.task.scheduledId, s.task.startedId, identity), now).Ok?
    ensures
      var t := Append(s, TaskCompleted(s.task.scheduledId, s.task.startedId, identity), now).value;
      t.runId == s.runId && t.info == s.info && t.task == NO_TASK && t.timers == s.timers
  {
  }

  lemma PrecheckedCancels(s: State, cmds: seq<Command>, now: Time)
    requires Ready(s, now) && Precheck(s, cmds)
    ensures forall c :: c in cmds && c.CancelTimer? ==> c.startedId <= |s.events|
  {
    hide Ready;
    ReadyDurable(s, now);
    TimersBelow(s);
    forall c | c in cmds && c.CancelTimer? ensures c.startedId <= |s.events| {
      var i :| 0 <= i < |cmds| && cmds[i] == c;
      assert PrecheckAt(s, cmds, i);
    }
  }

  lemma CompleteSpells(s: State, identity: string, cmds: seq<Command>, draw: Draw, now: Time)
    requires Ready(s, now) && CompleteTask(s, identity, cmds, draw, now).Applied?
    ensures Rooted(s) && Started(s.task) && ValidBatch(cmds)
    ensures Append(s, TaskCompleted(s.task.scheduledId, s.task.startedId, identity), now).Ok?
    ensures
      var t := Append(s, TaskCompleted(s.task.scheduledId, s.task.startedId, identity), now).value;
      && Open(t) && Along(s, t)
      && t.events == s.events + [Event(|s.events| + 1, now, TaskCompleted(s.task.scheduledId, s.task.startedId, identity))]
      && Spelt(s, t, cmds, CompleteTask(s, identity, cmds, draw, now).step, |s.events| + 1, draw, now)
  {
    hide Ready, Rooted, Along, Spelt, Append, ApplyCommands, ValidBatch, Precheck, NormalizeBatch, FailuresNamed, Dense;
    ReadyRooted(s, now);
    CompletionAlong(s, identity, now);
    NormalizedShaped(cmds);
    PrecheckedCancels(s, cmds, now);
    Written.DenseNext(s.events);
    CommandsSpell(s, Append(s, TaskCompleted(s.task.scheduledId, s.task.startedId, identity), now).value, cmds, |s.events| + 1, draw, now);
  }

  /** The answer before its successor is named. */
  ghost predicate Responds(s: State, identity: string, cmds: seq<Command>, step: Step, draw: Draw, now: Time)
    requires s.events != [] && s.events[0].attrs.ExecutionStarted? && ValidBatch(cmds)
  {
    var n := |s.events|;
    var queue := First(s.events).taskQueue;
    && Completes(s, identity, cmds, step.state.events, now)
    && AllSpelled(s, cmds, step.state.events, n + 1, n + 1, draw, now, PENDING_RUN_ID)
    && step.effects == Work(cmds, n + 2, queue, now) + StartOf(NextOf(s, cmds, draw, now))
                       + (if Interrupted(s, cmds) then [DispatchTask(queue, n + 2 + |cmds|)] else [])
  }

  lemma TurnFollows(s: State, u: State, now: Time)
    requires Along(s, u) && Open(u)
    ensures ScheduleTask(u, now).Ok?
    ensures
      var more := ScheduleTask(u, now).value;
      && more.state.events == u.events + [Event(|u.events| + 1, now, Written.NextTask(s))]
      && more.effects == [DispatchTask(First(s.events).taskQueue, |u.events| + 1)]
  {
    hide Record;
    var timeout := if u.info.taskTimeout <= 0 then DEFAULT_TASK_TIMEOUT else u.info.taskTimeout;
    SchedulingSucceeds(u, u.info.taskQueue, timeout, now);
    RecordShape(u, Event(|u.events| + 1, now, TaskScheduled(u.info.taskQueue, timeout, 1)));
  }

  /** A completion that was not interrupted, or ends the run, is the whole answer. */
  lemma UninterruptedResponds(s: State, u: State, identity: string, cmds: seq<Command>, step: Step, draw: Draw, now: Time)
    requires Rooted(s) && Along(s, u) && ValidBatch(cmds) && !Interrupted(s, cmds)
    requires u.events == s.events + [Event(|s.events| + 1, now, TaskCompleted(s.task.scheduledId, s.task.startedId, identity))]
    requires Spelt(s, u, cmds, step, |s.events| + 1, draw, now)
    ensures Responds(s, identity, cmds, step, draw, now)
  {
    hide Rooted, AllSpelled, Work, NextOf, StartOf, ValidCommand;
    assert step.state.events[|s.events|] == u.events[|s.events|];
    var es := step.effects;
    assert es == es + [];
  }

  /** And otherwise the next task comes behind it. */
  lemma InterruptedResponds(s: State, u: State, identity: string, cmds: seq<Command>, step: Step, more: Step, draw: Draw, now: Time)
    requires Rooted(s) && Along(s, u) && ValidBatch(cmds) && Interrupted(s, cmds)
    requires u.events == s.events + [Event(|s.events| + 1, now, TaskCompleted(s.task.scheduledId, s.task.startedId, identity))]
    requires Spelt(s, u, cmds, step, |s.events| + 1, draw, now)
    requires more.state.events == step.state.events + [Event(|step.state.events| + 1, now, Written.NextTask(s))]
    requires more.effects == [DispatchTask(First(s.events).taskQueue, |step.state.events| + 1)]
    ensures Responds(s, identity, cmds, Step(more.state, step.effects + more.effects), draw, now)
  {
    hide Rooted, AllSpelled, Work, NextOf, StartOf, ValidCommand;
    assert step.state.events[|s.events|] == u.events[|s.events|];
    assert more.state.events[|s.events|] == step.state.events[|s.events|];
    AlongStarted(s, u);
    SpelledGrows(s, cmds, step.state.events, more.state.events, |s.events| + 1, |s.events| + 1, draw, now, PENDING_RUN_ID);
  }

  lemma SpelledGrows(s: State, cmds: seq<Command>, h: seq<Event>, h': seq<Event>, from: nat, decision: int, draw: Draw, now: Time, run: string)
    requires s.events != [] && s.events[0].attrs.ExecutionStarted?
    requires AllSpelled(s, cmds, h, from, decision, draw, now, run) && h <= h'
    ensures AllSpelled(s, cmds, h', from, decision, draw, now, run)
  {
    hide SpelledAt;
  }

  lemma SpeltOpen(s: State, u: State, cmds: seq<Command>, step: Step, decision: int, draw: Draw, now: Time)
    requires Along(s, u) && ValidBatch(cmds) && Spelt(s, u, cmds, step, decision, draw, now)
    ensures Along(s, step.state) && (Open(step.state) <==> Open(u) && !ClosedBy(cmds))
  {
  }

  lemma RespondSpells(s: State, identity: string, cmds: seq<Command>, draw: Draw, now: Time)
    requires Ready(s, now) && RespondWithCommands(s, cmds, identity, draw, now).Applied?
    ensures Rooted(s) && ValidBatch(cmds)
    ensures Responds(s, identity, cmds, RespondWithCommands(s, cmds, identity, draw, now).step, draw, now)
  {
    hide Ready, Rooted, Along, Spelt, Append, CompleteTask, ValidBatch, ScheduleTask, Responds, Open, Dense, ClosedBy, NextOf;
    CompleteSpells(s, identity, cmds, draw, now);
    ReadyRooted(s, now);
    Written.DenseNext(s.events);
    var u := Append(s, TaskCompleted(s.task.scheduledId, s.task.startedId, identity), now).value;
    var step := CompleteTask(s, identity, cmds, draw, now).step;
    SpeltOpen(s, u, cmds, step, |s.events| + 1, draw, now);
    if Interrupted(s, cmds) {
      TurnFollows(s, step.state, now);
      InterruptedResponds(s, u, identity, cmds, step, ScheduleTask(step.state, now).value, draw, now);
    } else {
      UninterruptedResponds(s, u, identity, cmds, step, draw, now);
    }
  }

  // ----- the successor is taken out of the effects and named -----

  lemma OthersInAppend(a: seq<Effect>, b: seq<Effect>)
    ensures OthersIn(a + b) == OthersIn(a) + OthersIn(b)
    decreases |b|
  {
    if b == [] {
      assert a + b == a;
    } else {
      assert (a + b)[..|a + b| - 1] == a + b[..|b| - 1];
      OthersInAppend(a, b[..|b| - 1]);
    }
  }

  lemma {:induction false} WorkStartsNothing(es: seq<Effect>)
    requires forall e :: e in es ==> !e.StartRun?
    ensures RunsIn(es) == [] && OthersIn(es) == es
    decreases |es|
  {
    if es != [] {
      WorkStartsNothing(es[..|es| - 1]);
      assert es == es[..|es| - 1] + [es[|es| - 1]];
    }
  }

  lemma {:induction false} WorkIsWork(cmds: seq<Command>, id: int, queue: string, now: Time)
    ensures forall e :: e in Work(cmds, id, queue, now) ==> !e.StartRun?
    decreases |cmds|
  {
    if cmds != [] {
      WorkIsWork(cmds[1..], id + 1, queue, now);
    }
  }

  lemma EffectsSplit(work: seq<Effect>, next: Option<(StartAttrs, Duration)>, turn: seq<Effect>)
    requires (forall e :: e in work ==> !e.StartRun?) && (forall e :: e in turn ==> !e.StartRun?)
    ensures RunsIn(work + StartOf(next) + turn) == StartOf(next) && OthersIn(work + StartOf(next) + turn) == work + turn
  {
    var start := StartOf(next);
    WorkStartsNothing(work);
    WorkStartsNothing(turn);
    RunsInAppend(work, start);
    RunsInAppend(work + start, turn);
    OthersInAppend(work, start);
    OthersInAppend(work + start, turn);
    assert next.Some? ==> start[..0] == [];
    assert RunsIn(start) == start && OthersIn(start) == [];
    assert work + [] == work && [] + start == start && start + [] == start;
  }

  lemma ContinuesLast(s: State, cmds: seq<Command>, draw: Draw, now: Time)
    requires Rooted(s) && ValidBatch(cmds)
    ensures forall i :: 0 <= i < |cmds| && cmds[i].ContinueAsNew? ==> i == |cmds| - 1
    ensures NextOf(s, cmds, draw, now).Some? ==> ClosedBy(cmds)
    ensures ClosedBy(cmds) && cmds[|cmds| - 1].ContinueAsNew? ==> NextOf(s, cmds, draw, now).Some?
  {
    assert forall i :: 0 <= i < |cmds| ==> ValidCommand(cmds[i]) && (Closing(cmds[i]) ==> i == |cmds| - 1);
  }

  /** Only a continue-as-new event names a run, and it is the last event there is. */
  lemma NamingSpells(s: State, cmds: seq<Command>, h: seq<Event>, from: nat, decision: int, draw: Draw, now: Time, run: string)
    requires s.events != [] && s.events[0].attrs.ExecutionStarted?
    requires AllSpelled(s, cmds, h, from, decision, draw, now, PENDING_RUN_ID)
    requires forall i :: 0 <= i < |cmds| && cmds[i].ContinueAsNew? ==> i == |cmds| - 1
    requires |h| == from + |cmds| || cmds == [] || !cmds[|cmds| - 1].ContinueAsNew?
    ensures
      if cmds != [] && cmds[|cmds| - 1].ContinueAsNew? then
        && h[|h| - 1].attrs.ExecutionContinuedAsNew? && h[|h| - 1].attrs.newRunId == PENDING_RUN_ID
        && var e := h[|h| - 1];
           AllSpelled(s, cmds, h[|h| - 1 := e.(attrs := e.attrs.(newRunId := run))], from, decision, draw, now, run)
      else AllSpelled(s, cmds, h, from, decision, draw, now, run)
  {
    hide ClosesAs, Tidied;
    if cmds != [] && cmds[|cmds| - 1].ContinueAsNew? {
      var i := |cmds| - 1;
      assert SpelledAt(s, cmds[i], h[from + i], from + i, decision, draw, now, PENDING_RUN_ID);
    }
  }

  lemma NamedCompletes(s: State, identity: string, cmds: seq<Command>, h: seq<Event>, e: Event, now: Time)
    requires Completes(s, identity, cmds, h, now) && cmds != [] && !Interrupted(s, cmds)
    ensures Completes(s, identity, cmds, h[|h| - 1 := e], now)
  {
    hide ClosedBy;
  }

  lemma LastSpelled(s: State, cmds: seq<Command>, h: seq<Event>, from: nat, decision: int, draw: Draw, now: Time, run: string)
    requires s.events != [] && s.events[0].attrs.ExecutionStarted? && ValidBatch(cmds)
    requires AllSpelled(s, cmds, h, from, decision, draw, now, run) && |h| == from + |cmds|
    requires NextOf(s, cmds, draw, now).Some? && !cmds[|cmds| - 1].ContinueAsNew?
    ensures !h[|h| - 1].attrs.ExecutionContinuedAsNew?
  {
    hide ClosesAs, Retried;
    var i := |cmds| - 1;
    assert SpelledAt(s, cmds[i], h[from + i], from + i, decision, draw, now, run);
  }

  lemma FinalizeSpells(s: State, identity: string, cmds: seq<Command>, step: Step, draw: Draw, now: Time)
    requires Rooted(s) && ValidBatch(cmds) && Responds(s, identity, cmds, step, draw, now)
    ensures Finalize(step, draw).Write? && Answers(s, identity, cmds, draw, now, Finalize(step, draw).out)
  {
    hide Rooted, AllSpelled, Work, NextOf, ValidBatch, ClosedBy, RetryRows, RunsIn, OthersIn;
    RootedStarted(s);
    var n := |s.events|;
    var queue := First(s.events).taskQueue;
    var h := step.state.events;
    var next := NextOf(s, cmds, draw, now);
    var turn := if Interrupted(s, cmds) then [DispatchTask(queue, n + 2 + |cmds|)] else [];
    WorkIsWork(cmds, n + 2, queue, now);
    EffectsSplit(Work(cmds, n + 2, queue, now), next, turn);
    ContinuesLast(s, cmds, draw, now);
    NothingLastOpen(cmds);
    NamingSpells(s, cmds, h, n + 1, n + 1, draw, now, draw.freshId);
    if next.None? {
      assert Work(cmds, n + 2, queue, now) + [] == Work(cmds, n + 2, queue, now);
    } else if cmds[|cmds| - 1].ContinueAsNew? {
      var e := h[|h| - 1];
      NamedCompletes(s, identity, cmds, h, e.(attrs := e.attrs.(newRunId := draw.freshId)), now);
    } else {
      LastSpelled(s, cmds, h, n + 1, n + 1, draw, now, PENDING_RUN_ID);
    }
  }

  lemma RootedStarted(s: State)
    requires Rooted(s)
    ensures s.events != [] && s.events[0].attrs.ExecutionStarted?
  {
  }

  lemma NothingLastOpen(cmds: seq<Command>)
    ensures ClosedBy(cmds) ==> cmds != []
    ensures cmds != [] && cmds[|cmds| - 1].ContinueAsNew? ==> ClosedBy(cmds)
  {
  }

  /** A worker's answer is written exactly when the task is the worker's to answer, the batch is accepted and cancels no timer
      twice; and then it writes, dispatches and starts exactly what the commands and event 1 call for. */
  lemma ResponseAnswers(s: State, identity: string, cmds: seq<Command>, draw: Draw, now: Time)
    requires Ready(s, now)
    ensures
      var v := Engine.Handle(s, RespondTask(identity, cmds), draw, now);
      && (v.Write? <==> Written.Answerable(s, identity) && Accepted(s, cmds) && CancelsOnce(cmds))
      && (v.Write? ==> Rooted(s) && ValidBatch(cmds) && Answers(s, identity, cmds, draw, now, v.out))
  {
    hide Ready, OwnsTask, Written.Answerable, RespondWithCommands, Finalize, Answers, Responds, Accepted, CancelsOnce, Rooted, ValidBatch;
    Written.AnswerableIsOwning(s, identity, now);
    RespondApplies(s, identity, cmds, draw, now);
    if RespondWithCommands(s, cmds, identity, draw, now).Applied? {
      RespondSpells(s, identity, cmds, draw, now);
      FinalizeSpells(s, identity, cmds, RespondWithCommands(s, cmds, identity, draw, now).step, draw, now);
    }
  }

  lemma RespondApplies(s: State, identity: string, cmds: seq<Command>, draw: Draw, now: Time)
    requires Ready(s, now)
    ensures RespondWithCommands(s, cmds, identity, draw, now).Applied? <==> Accepted(s, cmds) && CancelsOnce(cmds)
  {
    hide Durable, CompleteTask, ScheduleTask, Accepted, CancelsOnce, Wrote;
    BatchAtomic(s, identity, cmds, draw, now);
    var r := CompleteTask(s, identity, cmds, draw, now);
    if r.Applied? {
      CompleteTaskKept(s, identity, cmds, draw, now);
      KeptParts(s, r.step.state, now);
      ScheduleKept(r.step.state, now);
    }
  }

  /** A continued run and the event that continues it agree, and whatever the command leaves out is this run's own. */
  predicate ContinuedAs(s: State, c: Command, draw: Draw, out: Outcome)
    requires s.events != [] && s.events[0].attrs.ExecutionStarted? && c.ContinueAsNew?
  {
    && out.state.events != [] && out.state.events[|out.state.events| - 1].attrs.ExecutionContinuedAsNew? && out.successor.Some?
    && var own := First(s.events);
       var closing := out.state.events[|out.state.events| - 1].attrs;
       var st := out.successor.value.start;
    && closing.newRunId == out.successor.value.runId && out.successor.value.delay == 0
    && st.workflowType == closing.workflowType == Own(c.workflowType, own.workflowType)
    && st.taskQueue == closing.taskQueue == Own(c.taskQueue, own.taskQueue)
    && closing.input == c.input && st.input == (if c.input == NoPayload then own.input else closing.input)
    && st.runTimeout == closing.runTimeout == c.runTimeout
    && st.taskTimeout == closing.taskTimeout == c.taskTimeout
    && st.executionTimeout == own.executionTimeout
    && st.retry == closing.retry == Tidied(c.retry, own.retry)
    && st.attempt == 1 && st.seed == draw.seed
    && st.continuedRunId == s.runId && st.firstRunId == ChainOf(s)
  }

  /** A failed run closes with the reason it is or is not retried for; exactly if it is, a run follows that repeats event 1 with
      the attempt counted up, after the backoff of this attempt. */
  predicate RetriedAs(s: State, f: Failure, draw: Draw, now: Time, out: Outcome)
    requires s.events != [] && s.events[0].attrs.ExecutionStarted?
  {
    && out.state.events != [] && out.state.events[|out.state.events| - 1].attrs.ExecutionFailed?
    && var own := First(s.events);
       var closing := out.state.events[|out.state.events| - 1].attrs;
    && closing.failure == Some(f)
    && ClosesAs(own, s.events[0].time, f, draw, now, closing.retryState)
    && (out.successor.Some? <==> closing.retryState == InProgress)
    && (out.successor.Some? ==>
          && own.retry.Some?
          && out.successor.value.delay == Backoff(own.retry.value, own.attempt, draw.jitter)
          && out.successor.value.start
             == own.(attempt := own.attempt + 1, continuedRunId := s.runId, firstRunId := ChainOf(s), seed := draw.seed))
  }

  lemma ContinuesAsCommanded(s: State, identity: string, cmds: seq<Command>, draw: Draw, now: Time, out: Outcome)
    requires Rooted(s) && ValidBatch(cmds) && Answers(s, identity, cmds, draw, now, out)
    requires cmds != [] && cmds[|cmds| - 1].ContinueAsNew?
    ensures ContinuedAs(s, cmds[|cmds| - 1], draw, out)
  {
    hide Work, Tidied, Own, ValidCommand;
    var i := |cmds| - 1;
    NothingLastOpen(cmds);
    assert SpelledAt(s, cmds[i], out.state.events[|s.events| + 1 + i], |s.events| + 1 + i, |s.events| + 1, draw, now, draw.freshId);
  }

  lemma RetriesAsStarted(s: State, identity: string, cmds: seq<Command>, draw: Draw, now: Time, out: Outcome)
    requires Rooted(s) && ValidBatch(cmds) && Answers(s, identity, cmds, draw, now, out)
    requires cmds != [] && cmds[|cmds| - 1].FailWorkflow?
    ensures cmds[|cmds| - 1].failure.Some? && RetriedAs(s, cmds[|cmds| - 1].failure.value, draw, now, out)
  {
    hide Work, Backoff, ValidOptions;
    var i := |cmds| - 1;
    assert ValidCommand(cmds[i]);
    assert SpelledAt(s, cmds[i], out.state.events[|s.events| + 1 + i], |s.events| + 1 + i, |s.events| + 1, draw, now, draw.freshId);
  }

  /** The run that follows, for every written request: a response that ends in a continue-as-new starts the run its command and
      event 1 describe; one that ends in a failure starts a repetition of event 1 exactly when that is granted; and nothing else
      starts a run. */
  ghost predicate FollowedAs(s: State, req: Request, draw: Draw, now: Time, out: Outcome)
    requires s.events != [] && s.events[0].attrs.ExecutionStarted?
  {
    if req.RespondTask? && req.commands != [] && req.commands[|req.commands| - 1].ContinueAsNew? then
      ContinuedAs(s, req.commands[|req.commands| - 1], draw, out)
    else if req.RespondTask? && req.commands != [] && req.commands[|req.commands| - 1].FailWorkflow? then
      && req.commands[|req.commands| - 1].failure.Some?
      && RetriedAs(s, req.commands[|req.commands| - 1].failure.value, draw, now, out)
    else out.successor.None?
  }

  lemma SuccessorFollows(s: State, req: Request, draw: Draw, now: Time)
    requires Ready(s, now) && Engine.Handle(s, req, draw, now).Write?
    ensures Rooted(s) && FollowedAs(s, req, draw, now, Engine.Handle(s, req, draw, now).out)
  {
    hide Ready, Rooted, Answers, Engine.Handle, ContinuedAs, RetriedAs, Accepted, CancelsOnce, Written.Answerable;
    ReadyRooted(s, now);
    RootedStarted(s);
    OnlyResponsesHaveSuccessors(s, req, draw, now);
    if req.RespondTask? {
      var cmds := req.commands;
      var out := Engine.Handle(s, req, draw, now).out;
      ResponseAnswers(s, req.identity, cmds, draw, now);
      if cmds != [] && cmds[|cmds| - 1].ContinueAsNew? {
        ContinuesAsCommanded(s, req.identity, cmds, draw, now, out);
      } else if cmds != [] && cmds[|cmds| - 1].FailWorkflow? {
        RetriesAsStarted(s, req.identity, cmds, draw, now, out);
      } else {
        NobodyFollows(s, req.identity, cmds, draw, now, out);
      }
    }
  }

  lemma NobodyFollows(s: State, identity: string, cmds: seq<Command>, draw: Draw, now: Time, out: Outcome)
    requires Rooted(s) && ValidBatch(cmds) && Answers(s, identity, cmds, draw, now, out)
    requires cmds == [] || !(cmds[|cmds| - 1].ContinueAsNew? || cmds[|cmds| - 1].FailWorkflow?)
    ensures out.successor.None?
  {
    hide Work, AllSpelled, ValidCommand;
  }

  // ----- index rows -----

  lemma {:induction false} WorkArms(cmds: seq<Command>, id: int, queue: string, now: Time)
    ensures forall e :: e in Work(cmds, id, queue, now) && e.ArmTimer? ==>
              0 <= e.eventId - id < |cmds| && cmds[e.eventId - id].StartTimer?
    decreases |cmds|
  {
    if cmds != [] {
      WorkArms(cmds[1..], id + 1, queue, now);
      assert forall i :: 0 <= i < |cmds| - 1 ==> cmds[1..][i] == cmds[i + 1];
    }
  }

  lemma {:induction false} OnlyActivitiesHaveRows(t: State, es: seq<Effect>)
    requires forall e :: e in es && e.ArmTimer? ==> e.eventId !in t.activities.byId
    ensures RetryRows(t, es) == map[]
    decreases |es|
  {
    if es != [] {
      OnlyActivitiesHaveRows(t, es[..|es| - 1]);
    }
  }

  lemma TimerIsNoActivity(t: State, id: int)
    requires Durable(t) && 1 <= id <= |t.events| && t.events[id - 1].attrs.TimerStarted?
    ensures id !in t.activities.byId
  {
    hide Durable;
    if id in t.activities.byId { ActivityRefs(t, id); }
  }

  lemma AnswerArmsTimers(s: State, identity: string, cmds: seq<Command>, draw: Draw, now: Time, out: Outcome)
    requires Rooted(s) && ValidBatch(cmds) && Answers(s, identity, cmds, draw, now, out) && Durable(out.state)
    ensures RetryRows(out.state, out.effects) == map[]
  {
    hide Durable, RetryRows, Work, NextOf, ValidCommand, ClosesAs;
    var n := |s.events|;
    WorkArms(cmds, n + 2, First(s.events).taskQueue, now);
    forall e | e in out.effects && e.ArmTimer? ensures e.eventId !in out.state.activities.byId {
      var i := e.eventId - (n + 2);
      assert SpelledAt(s, cmds[i], out.state.events[n + 1 + i], n + 1 + i, n + 1, draw, now, draw.freshId);
      TimerIsNoActivity(out.state, e.eventId);
    }
    OnlyActivitiesHaveRows(out.state, out.effects);
  }

  lemma FinalizeRows(step: Step, draw: Draw)
    requires Finalize(step, draw).Write?
    ensures Finalize(step, draw).out.rows == RetryRows(Finalize(step, draw).out.state, Finalize(step, draw).out.effects)
  {
    hide RetryRows, RunsIn, OthersIn;
  }

  /** An answer asks for no index row of its own: all it arms is implied by the state it leaves. */
  lemma ResponseHasNoRows(s: State, identity: string, cmds: seq<Command>, draw: Draw, now: Time)
    requires Ready(s, now) && draw.freshId != "" && Engine.Handle(s, RespondTask(identity, cmds), draw, now).Write?
    ensures Engine.Handle(s, RespondTask(identity, cmds), draw, now).out.rows == map[]
  {
    hide Ready, Durable, Engine.Handle, Rooted, Accepted, CancelsOnce, Written.Answerable, RetryRows, Answers, ValidBatch, RespondWithCommands,
         Finalize, OwnsTask;
    var out := Engine.Handle(s, RespondTask(identity, cmds), draw, now).out;
    ResponseAnswers(s, identity, cmds, draw, now);
    OnlyResponsesHaveSuccessors(s, RespondTask(identity, cmds), draw, now);
    HandleKept(s, RespondTask(identity, cmds), draw, now);
    KeptParts(s, out.state, now);
    ReadyDurable(out.state, now);
    FinalizeRows(RespondWithCommands(s, cmds, identity, draw, now).step, draw);
    AnswerArmsTimers(s, identity, cmds, draw, now, out);
  }
}

/** What a written request asks for after its commit: references to recorded events, and at most one successor. */
module Effects {
  import opened Prelude
  import opened History
  import opened Execution
  import opened Durability
  import opened Engine
  import opened Rebuilding
  import opened Batches
  import opened Agreement
  import opened Appends

  // ------------------------------------------------------------------
  // Dispatched references name scheduled events
  // ------------------------------------------------------------------

  /** A dispatched reference names an event of its kind. */
  predicate Named(h: seq<Event>, e: Effect) {
    match e
    case DispatchTask(_, id) => Refers(h, |h|, id, TaskScheduledType)
    case DispatchActivity(_, id) => Refers(h, |h|, id, ActivityScheduledType)
    case _ => true
  }

  predicate AllNamed(h: seq<Event>, es: seq<Effect>) { forall i :: 0 <= i < |es| ==> Named(h, es[i]) }

  lemma NamedGrows(h: seq<Event>, h': seq<Event>, es: seq<Effect>)
    requires AllNamed(h, es) && h <= h'
    ensures AllNamed(h', es)
  {
    forall i | 0 <= i < |es| ensures Named(h', es[i]) {
      assert Named(h, es[i]);
    }
  }

  lemma NamedConcat(h: seq<Event>, a: seq<Effect>, b: seq<Effect>)
    requires AllNamed(h, a) && AllNamed(h, b)
    ensures AllNamed(h, a + b)
  {
  }

  lemma ScheduleNames(s: State, now: Time)
    requires Dense(s.events) && ScheduleTask(s, now).Ok?
    ensures AllNamed(ScheduleTask(s, now).value.state.events, ScheduleTask(s, now).value.effects)
  {
  }

  lemma WakeNames(s: State, a: Attrs, now: Time)
    requires Dense(s.events) && AppendAndWake(s, a, now).Ok?
    ensures AllNamed(AppendAndWake(s, a, now).value.state.events, AppendAndWake(s, a, now).value.effects)
  {
    hide ScheduleTask, Apply;
    ScheduleNames(Append(s, a, now).value, now);
  }

  lemma TransitionsName(s: State, k: int, text: string, p: Payload, now: Time)
    requires Dense(s.events)
    ensures FailTask(s, text, now).Ok? ==> AllNamed(FailTask(s, text, now).value.state.events, FailTask(s, text, now).value.effects)
    ensures TimeoutTask(s, now).Ok? ==> AllNamed(TimeoutTask(s, now).value.state.events, TimeoutTask(s, now).value.effects)
    ensures RequestCancel(s, text, now).Ok? ==> AllNamed(RequestCancel(s, text, now).value.state.events, RequestCancel(s, text, now).value.effects)
    ensures Signal(s, text, p, now).Ok? ==> AllNamed(Signal(s, text, p, now).value.state.events, Signal(s, text, p, now).value.effects)
    ensures FireTimer(s, k, now).Ok? ==> AllNamed(FireTimer(s, k, now).value.state.events, FireTimer(s, k, now).value.effects)
    ensures CompleteActivity(s, k, p, now).Ok? ==> AllNamed(CompleteActivity(s, k, p, now).value.state.events, CompleteActivity(s, k, p, now).value.effects)
    ensures CancelActivity(s, k, p, now).Ok? ==> AllNamed(CancelActivity(s, k, p, now).value.state.events, CancelActivity(s, k, p, now).value.effects)
  {
    hide AppendAndWake, Dense;
    forall a: Attrs | AppendAndWake(s, a, now).Ok?
      ensures AllNamed(AppendAndWake(s, a, now).value.state.events, AppendAndWake(s, a, now).value.effects)
    {
      WakeNames(s, a, now);
    }
  }

  lemma FailuresName(s: State, k: int, failure: Failure, kind: TimeoutKind, startedId: int, now: Time)
    requires Dense(s.events)
    ensures
      var r := Restoring(FailActivity(s, k, failure, now), k, startedId);
      r.Ok? ==> AllNamed(r.value.state.events, r.value.effects)
    ensures
      var r := Restoring(TimeoutActivity(s, k, kind, now), k, startedId);
      r.Ok? ==> AllNamed(r.value.state.events, r.value.effects)
  {
    hide AppendAndWake, Dense, RetryDelay, TimeoutFailure;
    forall a: Attrs | AppendAndWake(s, a, now).Ok?
      ensures AllNamed(AppendAndWake(s, a, now).value.state.events, AppendAndWake(s, a, now).value.effects)
    {
      WakeNames(s, a, now);
    }
  }

  lemma RedispatchNames(s: State, key: TimerKey, row: TimerRow, now: Time)
    requires Durable(s)
    ensures
      var v := RedispatchActivity(s, key, row, now);
      v.Write? ==> AllNamed(v.out.state.events, v.out.effects)
  {
    hide Durable, RetryRows;
    if key.eventId in s.activities.byId {
      ActivityRefs(s, key.eventId);
    }
  }

  lemma OnTimerNames(s: State, key: TimerKey, row: TimerRow, now: Time)
    requires Ready(s, now)
    ensures
      var v := OnTimer(s, key, row, now);
      v.Write? ==> AllNamed(v.out.state.events, v.out.effects)
  {
    hide Durable, RetryRows, RedispatchActivity, FireTimer, TimeoutTask, ScheduleTask, Restoring, TimeoutActivity, TimeoutExecution, ExpiredTimeout,
         FailTask, RequestCancel, Signal, CompleteActivity, CancelActivity, Dense, FailActivity;
    KeptSelf(s, now);
    TransitionsName(s, key.eventId, "", NoPayload, now);
    RedispatchNames(s, key, row, now);
    if ScheduleTask(s, now).Ok? {
      ScheduleNames(s, now);
    }
    if key.kind.ActivityTimeoutTimer? && key.eventId in s.activities.byId {
      var a := s.activities.byId[key.eventId];
      var a' := if row.attempt > a.attempts.number then a.(attempts := a.attempts.(number := row.attempt)) else a;
      FailuresName(PutActivity(s, key.eventId, a'), key.eventId, Failure("", "", false), ExpiredTimeout(a', now), a.startedId, now);
    }
  }

  lemma {:induction false} CommandsName(s: State, cmds: seq<Command>, decision: int, draw: Draw, now: Time)
    requires Ready(s, now) && Refers(s.events, |s.events|, decision, TaskCompletedType)
    requires FailuresNamed(cmds) && AllShaped(cmds) && ApplyCommands(s, cmds, decision, draw, now).Applied?
    ensures
      var step := ApplyCommands(s, cmds, decision, draw, now).step;
      AllNamed(step.state.events, step.effects)
    decreases |cmds|
  {
    hide Durable, Refers, ApplyCommand, Kept, EventFor, EffectsFor, Append, AllNamed;
    if cmds == [] {
      NothingNamed(s.events);
    } else {
      assert Shaped(cmds[0]);
      var step := ApplyCommand(s, cmds[0], decision, draw, now).step;
      CommandKept(s, cmds[0], decision, draw, now);
      KeptParts(s, step.state, now);
      DecisionStays(s.events, step.state.events, decision);
      CommandsName(step.state, cmds[1..], decision, draw, now);
      CommandsKept(step.state, cmds[1..], decision, draw, now);
      var rest := ApplyCommands(step.state, cmds[1..], decision, draw, now).step;
      KeptParts(step.state, rest.state, now);
      assert Dense(s.events) by { KeptSelf(s, now); }
      CommandNames(s, cmds[0], decision, draw, now);
      NamedGrows(step.state.events, rest.state.events, step.effects);
      NamedConcat(rest.state.events, step.effects, rest.effects);
    }
  }

  lemma NothingNamed(h: seq<Event>)
    ensures AllNamed(h, [])
  {
  }

  lemma CommandNames(s: State, c: Command, decision: int, draw: Draw, now: Time)
    requires Dense(s.events) && (c.FailWorkflow? ==> c.failure.Some?) && ApplyCommand(s, c, decision, draw, now).Applied?
    ensures
      var step := ApplyCommand(s, c, decision, draw, now).step;
      AllNamed(step.state.events, step.effects)
  {
    hide FailureVerdict, SuccessorOf, SuccessorAttrs, Apply;
  }

  lemma CompleteNames(s: State, identity: string, cmds: seq<Command>, draw: Draw, now: Time)
    requires Ready(s, now) && CompleteTask(s, identity, cmds, draw, now).Applied?
    ensures
      var step := CompleteTask(s, identity, cmds, draw, now).step;
      AllNamed(step.state.events, step.effects)
  {
    hide Durable, Refers, ApplyCommands, Kept, Append, ValidBatch, Precheck, NormalizeBatch, AllNamed;
    var a := TaskCompleted(s.task.scheduledId, s.task.startedId, identity);
    TaskRefs(s);
    AppendKept(s, a, now);
    var s1 := Append(s, a, now).value;
    KeptParts(s, s1, now);
    CompletionRefers(s, a, now);
    NormalizedShaped(cmds);
    CommandsName(s1, NormalizeBatch(cmds), NextEventId(s.events), draw, now);
  }

  lemma RespondNames(s: State, cmds: seq<Command>, identity: string, draw: Draw, now: Time)
    requires Ready(s, now) && RespondWithCommands(s, cmds, identity, draw, now).Applied?
    ensures
      var step := RespondWithCommands(s, cmds, identity, draw, now).step;
      AllNamed(step.state.events, step.effects)
  {
    hide Durable, CompleteTask, Kept, ScheduleTask, AllNamed, Dense;
    CompleteNames(s, identity, cmds, draw, now);
    CompleteTaskKept(s, identity, cmds, draw, now);
    var step := CompleteTask(s, identity, cmds, draw, now).step;
    KeptParts(s, step.state, now);
    KeptSelf(step.state, now);
    ScheduleKept(step.state, now);
    ScheduleNames(step.state, now);
    var more := ScheduleTask(step.state, now).value;
    KeptParts(step.state, more.state, now);
    NamedGrows(step.state.events, more.state.events, step.effects);
    NamedConcat(more.state.events, step.effects, more.effects);
  }

  lemma {:induction false} OthersNamed(h: seq<Event>, es: seq<Effect>)
    requires AllNamed(h, es)
    ensures AllNamed(h, OthersIn(es))
    decreases |es|
  {
    hide Named;
    if es != [] {
      OthersNamed(h, es[..|es| - 1]);
    }
  }

  lemma RenamedNames(h: seq<Event>, run: string, es: seq<Effect>)
    requires AllNamed(h, es) && h != [] && h[|h| - 1].attrs.ExecutionContinuedAsNew?
    ensures
      var e := h[|h| - 1];
      AllNamed(h[|h| - 1 := e.(attrs := e.attrs.(newRunId := run))], es)
  {
    var e := h[|h| - 1];
    var h' := h[|h| - 1 := e.(attrs := e.attrs.(newRunId := run))];
    forall i | 0 <= i < |es| ensures Named(h', es[i]) {
      assert Named(h, es[i]);
    }
  }

  lemma FinalizeNames(step: Step, draw: Draw)
    requires AllNamed(step.state.events, step.effects) && Finalize(step, draw).Write?
    ensures AllNamed(Finalize(step, draw).out.state.events, Finalize(step, draw).out.effects)
  {
    hide AllNamed, RetryRows, OthersIn, RunsIn;
    OthersNamed(step.state.events, step.effects);
    var s := step.state;
    if PatchRunId(s, draw.freshId).Ok? {
      RenamedNames(s.events, draw.freshId, OthersIn(step.effects));
    }
  }

  /** Every reference a written request hands out names an event it has just written or found recorded. */
  lemma HandleNames(s: State, req: Request, draw: Draw, now: Time)
    requires Ready(s, now)
    ensures
      var v := Engine.Handle(s, req, draw, now);
      v.Write? ==> AllNamed(v.out.state.events, v.out.effects)
  {
    hide Durable, AllNamed, RetryRows, OnTimer, StartActivity, Restoring, FailActivity, Signal, RequestCancel, Terminate, StartTask, FailTask,
         CompleteActivity, CancelActivity, RecordHeartbeat, OwnsTask, FireTimer, TimeoutTask, RespondWithCommands, Finalize, Dense, TimeoutActivity,
         BeginRetryAttempt;
    KeptSelf(s, now);
    forall h ensures AllNamed(h, []) { NothingNamed(h); }
    match req
    case SignalRun(name, input) => TransitionsName(s, 0, name, input, now);
    case CancelRun(reason) => TransitionsName(s, 0, reason, NoPayload, now);
    case RespondTask(identity, cmds) =>
      var r := RespondWithCommands(s, cmds, identity, draw, now);
      if r.Applied? && Finalize(r.step, draw).Write? {
        RespondNames(s, cmds, identity, draw, now);
        FinalizeNames(r.step, draw);
      }
    case RespondTaskFailed(_, cause) => TransitionsName(s, 0, cause, NoPayload, now);
    case RespondActivityCompleted(k, result) => TransitionsName(s, k, "", result, now);
    case RespondActivityFailed(k, failure) =>
      if failure.Some? && k in s.activities.byId {
        FailuresName(s, k, failure.value, Unspecified, s.activities.byId[k].startedId, now);
      }
    case RespondActivityCanceled(k, details) => TransitionsName(s, k, "", details, now);
    case TimerDue(key, row) => OnTimerNames(s, key, row, now);
    case _ =>
  }

  // ------------------------------------------------------------------
  // Successors
  // ------------------------------------------------------------------

  lemma RunsInAppend(a: seq<Effect>, b: seq<Effect>)
    ensures RunsIn(a + b) == RunsIn(a) + RunsIn(b)
    decreases |b|
  {
    if b == [] {
      assert a + b == a;
    } else {
      var init := b[..|b| - 1];
      assert (a + b)[..|a + b| - 1] == a + init;
      RunsInAppend(a, init);
    }
  }

  lemma CommandRuns(s: State, c: Command, ev: Event, draw: Draw)
    requires c.FailWorkflow? ==> c.failure.Some?
    ensures |RunsIn(EffectsFor(s, c, ev, draw))| <= if Closing(c) then 1 else 0
  {
    hide FailureVerdict, SuccessorOf, SuccessorAttrs;
    var e := EffectsFor(s, c, ev, draw);
    if e != [] {
      assert e[..|e| - 1] == [];
    }
  }

  predicate ClosingLast(cmds: seq<Command>) {
    forall i :: 0 <= i < |cmds| && Closing(cmds[i]) ==> i == |cmds| - 1
  }

  lemma {:induction false} CommandsStartOneRun(s: State, cmds: seq<Command>, decision: int, draw: Draw, now: Time)
    requires FailuresNamed(cmds) && ClosingLast(cmds) && ApplyCommands(s, cmds, decision, draw, now).Applied?
    ensures |RunsIn(ApplyCommands(s, cmds, decision, draw, now).step.effects)| <= 1
    decreases |cmds|
  {
    hide EventFor, EffectsFor, Append, Closing;
    if cmds != [] {
      var step := ApplyCommand(s, cmds[0], decision, draw, now).step;
      var ev := Event(NextEventId(s.events), now, EventFor(s, cmds[0], decision, draw, now));
      CommandRuns(s, cmds[0], ev, draw);
      var rest := ApplyCommands(step.state, cmds[1..], decision, draw, now).step;
      RunsInAppend(step.effects, rest.effects);
      if Closing(cmds[0]) {
        assert cmds[1..] == [];
      } else {
        assert ClosingLast(cmds[1..]) by {
          assert forall i :: 0 <= i < |cmds[1..]| ==> cmds[1..][i] == cmds[i + 1];
        }
        CommandsStartOneRun(step.state, cmds[1..], decision, draw, now);
      }
    }
  }

  lemma CompleteStartsOneRun(s: State, identity: string, cmds: seq<Command>, draw: Draw, now: Time)
    requires CompleteTask(s, identity, cmds, draw, now).Applied?
    ensures |RunsIn(CompleteTask(s, identity, cmds, draw, now).step.effects)| <= 1
  {
    hide Append, ApplyCommands, Precheck, ValidCommand, Closing;
    NormalizedShaped(cmds);
    assert ClosingLast(NormalizeBatch(cmds)) by {
      assert forall i :: 0 <= i < |cmds| ==> (Closing(NormalizeBatch(cmds)[i]) <==> Closing(cmds[i]));
    }
    CommandsStartOneRun(Append(s, TaskCompleted(s.task.scheduledId, s.task.startedId, identity), now).value,
                        NormalizeBatch(cmds), NextEventId(s.events), draw, now);
  }

  /** A successor continues the run that asked for it, and keeps the first run of the chain. */
  predicate FollowsRun(e: Effect, s: State) {
    e.StartRun? ==>
      && e.start.continuedRunId == s.runId && e.start.firstRunId == s.info.firstRunId
      && e.start.workflowType != "" && e.start.taskQueue != ""
  }

  predicate AllFollow(runs: seq<Effect>, s: State) { forall i :: 0 <= i < |runs| ==> FollowsRun(runs[i], s) }

  lemma CommandFollows(s: State, c: Command, ev: Event, draw: Draw)
    requires (c.FailWorkflow? ==> c.failure.Some?) && s.info.workflowType != "" && s.info.taskQueue != ""
    ensures AllFollow(RunsIn(EffectsFor(s, c, ev, draw)), s)
    ensures c.ContinueAsNew? ==> RunsIn(EffectsFor(s, c, ev, draw)) != []
    ensures RunsIn(EffectsFor(s, c, ev, draw)) != [] ==> Closing(c)
  {
    hide FailureVerdict;
    var e := EffectsFor(s, c, ev, draw);
    if e != [] {
      assert e[..|e| - 1] == [];
      assert RunsIn([]) == [];
    }
  }

  lemma CommandKeepsInfo(s: State, c: Command, decision: int, draw: Draw, now: Time)
    requires (c.FailWorkflow? ==> c.failure.Some?) && ApplyCommand(s, c, decision, draw, now).Applied?
    ensures
      var t := ApplyCommand(s, c, decision, draw, now).step.state;
      t.info == s.info && t.runId == s.runId && (Closing(c) ==> !Open(t))
  {
    hide FailureVerdict, SuccessorOf, EffectsFor;
  }

  lemma FollowSame(runs: seq<Effect>, s: State, t: State)
    requires AllFollow(runs, s) && s.info == t.info && s.runId == t.runId
    ensures AllFollow(runs, t)
  {
    forall i | 0 <= i < |runs| ensures FollowsRun(runs[i], t) {
      assert FollowsRun(runs[i], s);
    }
  }

  lemma {:induction false} CommandsFollow(s: State, cmds: seq<Command>, decision: int, draw: Draw, now: Time)
    requires FailuresNamed(cmds) && ClosingLast(cmds) && ApplyCommands(s, cmds, decision, draw, now).Applied?
    requires s.info.workflowType != "" && s.info.taskQueue != ""
    ensures
      var step := ApplyCommands(s, cmds, decision, draw, now).step;
      && AllFollow(RunsIn(step.effects), s)
      && (cmds != [] && cmds[|cmds| - 1].ContinueAsNew? ==> RunsIn(step.effects) != [])
      && (RunsIn(step.effects) != [] ==> !Open(step.state))
    decreases |cmds|
  {
    hide EventFor, EffectsFor, Append, Closing, FollowsRun, ApplyCommand;
    if cmds != [] {
      assert cmds[0].FailWorkflow? ==> cmds[0].failure.Some? by { assert cmds[0] in cmds; }
      var step := ApplyCommand(s, cmds[0], decision, draw, now).step;
      StepEffects(s, cmds[0], decision, draw, now);
      CommandKeepsInfo(s, cmds[0], decision, draw, now);
      var rest := ApplyCommands(step.state, cmds[1..], decision, draw, now).step;
      RunsInAppend(step.effects, rest.effects);
      if Closing(cmds[0]) {
        assert cmds[1..] == [];
      } else {
        assert ClosingLast(cmds[1..]) by {
          assert forall i :: 0 <= i < |cmds[1..]| ==> cmds[1..][i] == cmds[i + 1];
        }
        CommandsFollow(step.state, cmds[1..], decision, draw, now);
        FollowSame(RunsIn(rest.effects), step.state, s);
        if cmds[|cmds| - 1].ContinueAsNew? {
          assert Closing(cmds[|cmds| - 1]) by { ContinuingCloses(cmds[|cmds| - 1]); }
          assert cmds[1..][|cmds| - 2] == cmds[|cmds| - 1];
        }
      }
    }
  }

  lemma ContinuingCloses(c: Command)
    requires c.ContinueAsNew?
    ensures Closing(c)
  {
  }

  lemma StepEffects(s: State, c: Command, decision: int, draw: Draw, now: Time)
    requires (c.FailWorkflow? ==> c.failure.Some?) && ApplyCommand(s, c, decision, draw, now).Applied?
    requires s.info.workflowType != "" && s.info.taskQueue != ""
    ensures
      var runs := RunsIn(ApplyCommand(s, c, decision, draw, now).step.effects);
      AllFollow(runs, s) && (c.ContinueAsNew? ==> runs != []) && (runs != [] ==> Closing(c))
  {
    hide EventFor, EffectsFor, Append, AllFollow;
    CommandFollows(s, c, Event(NextEventId(s.events), now, EventFor(s, c, decision, draw, now)), draw);
  }

  /** The batch as a whole: its runs follow this one, it has one whenever it continues as new, and only if it closed. */
  predicate RunsFit(s: State, step: Step, cmds: seq<Command>) {
    && |RunsIn(step.effects)| <= 1
    && AllFollow(RunsIn(step.effects), s)
    && (cmds != [] && cmds[|cmds| - 1].ContinueAsNew? ==> RunsIn(step.effects) != [])
    && (RunsIn(step.effects) != [] ==> !Open(step.state))
  }

  lemma CompleteFollows(s: State, identity: string, cmds: seq<Command>, draw: Draw, now: Time)
    requires Durable(s) && CompleteTask(s, identity, cmds, draw, now).Applied?
    ensures RunsFit(s, CompleteTask(s, identity, cmds, draw, now).step, cmds)
  {
    hide Durable, Append, ApplyCommands, Precheck, ValidCommand, Closing, FollowsRun, NormalizeCommand;
    CompleteStartsOneRun(s, identity, cmds, draw, now);
    NamesSet(s);
    NormalizedShaped(cmds);
    CompletionOpens(s, identity, now);
    var batch := NormalizeBatch(cmds);
    assert ClosingLast(batch) by {
      assert forall i :: 0 <= i < |cmds| ==> (Closing(batch[i]) <==> Closing(cmds[i]));
    }
    var t := Append(s, TaskCompleted(s.task.scheduledId, s.task.startedId, identity), now).value;
    CompletionKeepsInfo(s, identity, now);
    CommandsFollow(t, batch, NextEventId(s.events), draw, now);
    FollowSame(RunsIn(CompleteTask(s, identity, cmds, draw, now).step.effects), t, s);
    if cmds != [] {
      NormalizedKeeps(cmds[|cmds| - 1]);
    }
  }

  lemma CompletionKeepsInfo(s: State, identity: string, now: Time)
    requires Append(s, TaskCompleted(s.task.scheduledId, s.task.startedId, identity), now).Ok?
    ensures
      var t := Append(s, TaskCompleted(s.task.scheduledId, s.task.startedId, identity), now).value;
      t.info == s.info && t.runId == s.runId
  {
  }

  lemma RespondFollows(s: State, cmds: seq<Command>, identity: string, draw: Draw, now: Time)
    requires Ready(s, now) && RespondWithCommands(s, cmds, identity, draw, now).Applied?
    ensures
      var step := RespondWithCommands(s, cmds, identity, draw, now).step;
      && RunsFit(s, step, cmds)
      && (step.state.events != [] && step.state.events[|step.state.events| - 1].attrs.ExecutionContinuedAsNew?
          ==> RunsIn(step.effects) != [])
  {
    hide Durable, CompleteTask, ScheduleTask, AllFollow, RunsIn, CancelsOnce, ValidBatch, Precheck, RecordsAll;
    CompleteFollows(s, identity, cmds, draw, now);
    BatchAtomic(s, identity, cmds, draw, now);
    var step := CompleteTask(s, identity, cmds, draw, now).step;
    if step.state.events[|step.state.events| - 1].attrs.ExecutionContinuedAsNew? {
      ContinuedLast(s, step.state, cmds, identity, now);
    }
    if Open(step.state) && ScheduleTask(step.state, now).Ok? {
      var more := ScheduleTask(step.state, now).value;
      ScheduleStartsNoRun(step.state, now);
      RunsInAppend(step.effects, more.effects);
      ScheduleAdds(step.state, now);
      if |more.state.events| > |step.state.events| {
        assert External(more.state.events[|more.state.events| - 1].attrs);
      }
      assert RunsIn(step.effects) + [] == RunsIn(step.effects);
    }
  }

  lemma ScheduleStartsNoRun(s: State, now: Time)
    requires ScheduleTask(s, now).Ok?
    ensures RunsIn(ScheduleTask(s, now).value.effects) == []
  {
    hide Append;
    var es := ScheduleTask(s, now).value.effects;
    if es != [] {
      assert es[..|es| - 1] == [];
      assert RunsIn([]) == [];
    }
  }

  lemma ContinuedLast(s: State, t: State, cmds: seq<Command>, identity: string, now: Time)
    requires Wrote(s, t, cmds, identity, now) && t.events[|t.events| - 1].attrs.ExecutionContinuedAsNew?
    ensures cmds != [] && cmds[|cmds| - 1].ContinueAsNew?
  {
    var n := |s.events|;
    if cmds != [] {
      assert RecordsAt(cmds[|cmds| - 1], t.events[n + 1 + (|cmds| - 1)], n + 1 + (|cmds| - 1), n + 1, now);
    }
  }

  /** What a written request says about the run that comes next. */
  predicate SuccessorFits(s: State, out: Outcome) {
    && (out.successor.Some? ==>
          var n := out.successor.value;
          && Open(s) && !Open(out.state)
          && n.start.continuedRunId == s.runId && n.start.firstRunId == s.info.firstRunId
          && n.start.workflowType != "" && n.start.taskQueue != ""
          && n.runId != "" && n.runId != PENDING_RUN_ID)
    && (Open(s) && out.state.events != [] && out.state.events[|out.state.events| - 1].attrs.ExecutionContinuedAsNew? ==>
          && out.successor.Some?
          && out.state.events[|out.state.events| - 1].attrs.newRunId == out.successor.value.runId)
  }

  lemma FinalizeFits(s: State, step: Step, cmds: seq<Command>, draw: Draw)
    requires Open(s) && RunsFit(s, step, cmds) && draw.freshId != "" && draw.freshId != PENDING_RUN_ID && Finalize(step, draw).Write?
    requires step.state.events != [] && step.state.events[|step.state.events| - 1].attrs.ExecutionContinuedAsNew?
             ==> RunsIn(step.effects) != [] && step.state.events[|step.state.events| - 1].attrs.newRunId != ""
    ensures SuccessorFits(s, Finalize(step, draw).out)
  {
    hide RetryRows, OthersIn, RunsIn;
    var runs := RunsIn(step.effects);
    if runs != [] {
      assert FollowsRun(runs[0], s);
      assert runs[0] in runs;
    }
  }

  lemma ExternalFits(s: State, out: Outcome)
    requires Linked(s) && Adds(s, out.state) && out.successor.None?
    ensures SuccessorFits(s, out)
  {
    hide TaskLinked, ActivitiesLinked, TimersLinked, Dense;
    var h := out.state.events;
    if |h| > |s.events| {
      assert External(h[|h| - 1].attrs);
    } else {
      assert h == s.events;
    }
  }

  /** Every written request: a successor exactly continues a run that has just closed, and a continue-as-new event names it. */
  lemma HandleSuccessor(s: State, req: Request, draw: Draw, now: Time)
    requires Ready(s, now) && draw.freshId != "" && draw.freshId != PENDING_RUN_ID && Engine.Handle(s, req, draw, now).Write?
    ensures SuccessorFits(s, Engine.Handle(s, req, draw, now).out)
  {
    hide Durable, RespondWithCommands, Finalize, SuccessorFits, RunsIn, Adds, OwnsTask, RunsFit, Kept, Engine.Handle;
    OnlyResponsesHaveSuccessors(s, req, draw, now);
    if req.RespondTask? {
      var r := RespondWithCommands(s, req.commands, req.identity, draw, now);
      RespondFollows(s, req.commands, req.identity, draw, now);
      assert Open(s) by { OwnerOpen(s, req.identity); }
      RespondKept(s, req.commands, req.identity, draw, now);
      KeptParts(s, r.step.state, now);
      SuccessorIsNamed(r.step.state);
      FinalizeFits(s, r.step, req.commands, draw);
    } else {
      HandleAdds(s, req, draw, now);
      assert Linked(s) by { DurableLinked(s); }
      ExternalFits(s, Engine.Handle(s, req, draw, now).out);
    }
  }

  lemma OnlyResponsesHaveSuccessors(s: State, req: Request, draw: Draw, now: Time)
    requires Engine.Handle(s, req, draw, now).Write?
    ensures
      if req.RespondTask? then
        var r := RespondWithCommands(s, req.commands, req.identity, draw, now);
        OwnsTask(s, req.identity) && r.Applied? && Engine.Handle(s, req, draw, now) == Finalize(r.step, draw)
      else Engine.Handle(s, req, draw, now).out.successor.None?
  {
    hide RespondWithCommands, Finalize, OwnsTask, RetryRows, Signal, RequestCancel, Terminate, StartTask, FailTask, StartActivity, CompleteActivity,
         FailActivity, CancelActivity, RecordHeartbeat, FireTimer, TimeoutTask, TimeoutActivity, TimeoutExecution, ScheduleTask, ExpiredTimeout;
  }

  lemma SuccessorIsNamed(s: State)
    requires Durable(s)
    ensures s.events[|s.events| - 1].attrs.ExecutionContinuedAsNew? ==> s.events[|s.events| - 1].attrs.newRunId != ""
  {
    hide Linked, Replays, WellPlaced;
    assert WellPlaced(s.events, |s.events| - 1);
  }

  lemma OwnerOpen(s: State, identity: string)
    requires OwnsTask(s, identity)
    ensures Open(s) && Started(s.task)
  {
  }

  lemma DurableLinked(s: State)
    requires Durable(s)
    ensures Linked(s)
  {
  }
}

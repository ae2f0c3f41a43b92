/** A workflow task's batch is written whole or not at all, except when it cancels one timer twice. */
module Batches {
  import opened Prelude
  import opened History
  import opened Execution
  import opened Durability
  import opened Rebuilding

  /** What the engine lets through to the write phase. */
  predicate Accepted(s: State, cmds: seq<Command>) {
    Started(s.task) && ValidBatch(cmds) && Precheck(s, cmds)
  }

  predicate CancelsOnce(cmds: seq<Command>) {
    forall i, j :: 0 <= i < j < |cmds| && cmds[i].CancelTimer? && cmds[j].CancelTimer? ==> cmds[i].startedId != cmds[j].startedId
  }

  /** `a` is the event that records command `c`: same kind, and the same data but for defaulted queue and policy. */
  predicate Records(c: Command, a: Attrs, decision: int) {
    match c
    case ScheduleActivity(aid, o) =>
      && a.ActivityScheduled? && a.activityId == aid && a.decision == decision
      && a.options == o.(taskQueue := a.options.taskQueue, retry := a.options.retry)
    case RequestCancelActivity(sched) => a == ActivityCancelRequested(sched, decision)
    case StartTimer(tid, d) => a == TimerStarted(tid, d, decision)
    case CancelTimer(st) => a.TimerCanceled? && a.startedId == st && a.decision == decision
    case RecordMarker(k, details, failure) => a == MarkerRecorded(k, details, failure, decision)
    case CompleteWorkflow(result) => a == ExecutionCompleted(result, decision)
    case FailWorkflow(failure) => a.ExecutionFailed? && a.failure == failure && a.decision == decision
    case CancelWorkflow(details) => a == ExecutionCanceled(details, decision)
    case ContinueAsNew(_, _, input, _, _, _) => a.ExecutionContinuedAsNew? && a.input == input && a.decision == decision
  }

  /** The events from `from` on record the commands one for one, in order, at one instant. */
  predicate RecordsAll(cmds: seq<Command>, h: seq<Event>, from: nat, decision: int, now: Time) {
    && |h| == from + |cmds|
    && forall i :: 0 <= i < |cmds| ==> RecordsAt(cmds[i], h[from + i], from + i, decision, now)
  }

  predicate RecordsAt(c: Command, e: Event, i: nat, decision: int, now: Time) {
    e.id == i + 1 && e.time == now && Records(c, e.attrs, decision)
  }

  // ------------------------------------------------------------------
  // The write loop
  // ------------------------------------------------------------------

  /** Everything but a timer cancel is known to apply; `base` bounds the events the cancels may name. */
  predicate Fits(s: State, cmds: seq<Command>, base: int) {
    && (cmds != [] ==> Open(s))
    && base <= |s.events| && Dense(s.events)
    && FailuresNamed(cmds)
    && forall i :: 0 <= i < |cmds| ==> FitsAt(s, cmds, i, base)
  }

  predicate FitsAt(s: State, cmds: seq<Command>, i: nat, base: int)
    requires i < |cmds|
  {
    && (Closing(cmds[i]) ==> i == |cmds| - 1)
    && match cmds[i]
       case ScheduleActivity(aid, _) => aid !in s.activities.ids && aid !in ActivityIdsIn(cmds[..i])
       case StartTimer(tid, _) => tid !in s.timers.ids && tid !in TimerIdsIn(cmds[..i])
       case CancelTimer(st) => st <= base
       case RequestCancelActivity(sched) => sched in s.activities.byId
       case _ => true
  }

  /** Every timer the commands cancel is pending, and none is cancelled twice. */
  predicate Clean(s: State, cmds: seq<Command>) {
    && (forall i :: 0 <= i < |cmds| && cmds[i].CancelTimer? ==> cmds[i].startedId in s.timers.byId)
    && CancelsOnce(cmds)
  }

  predicate Lands(s: State, c: Command) {
    match c
    case ScheduleActivity(aid, _) => aid !in s.activities.ids
    case StartTimer(tid, _) => tid !in s.timers.ids
    case CancelTimer(st) => st in s.timers.byId
    case RequestCancelActivity(sched) => sched in s.activities.byId
    case _ => true
  }

  /** A command that lands appends exactly its event, and changes the pending sets as little as that event says. */
  lemma CommandLands(s: State, c: Command, decision: int, draw: Draw, now: Time)
    requires Open(s) && Dense(s.events) && Lands(s, c) && (c.FailWorkflow? ==> c.failure.Some?)
    ensures
      var r := ApplyCommand(s, c, decision, draw, now);
      && r.Applied?
      && |r.step.state.events| == |s.events| + 1
      && r.step.state.events[..|s.events|] == s.events
      && RecordsAt(c, r.step.state.events[|s.events|], |s.events|, decision, now)
  {
    hide FailureVerdict, SuccessorOf, InfoFrom, EffectsFor;
  }

  lemma CommandTouches(s: State, c: Command, decision: int, draw: Draw, now: Time)
    requires Open(s) && Dense(s.events) && Lands(s, c) && (c.FailWorkflow? ==> c.failure.Some?) && !Closing(c)
    requires ApplyCommand(s, c, decision, draw, now).Applied?
    ensures
      var t := ApplyCommand(s, c, decision, draw, now).step.state;
      && Open(t)
      && (forall k :: k in t.activities.ids ==> k in s.activities.ids || (c.ScheduleActivity? && k == c.activityId))
      && (forall k :: k in s.activities.byId ==> k in t.activities.byId)
      && (forall k :: k in t.timers.ids ==> k in s.timers.ids || (c.StartTimer? && k == c.timerId))
      && (forall k :: k <= |s.events| ==> (k in t.timers.byId <==> k in s.timers.byId && !(c.CancelTimer? && k == c.startedId)))
  {
    hide FailureVerdict, SuccessorOf, InfoFrom, EffectsFor;
  }

  /** Mid-batch, the rest of the batch still fits. */
  lemma RestFits(s: State, t: State, cmds: seq<Command>, base: int)
    requires Fits(s, cmds, base) && cmds != [] && !Closing(cmds[0])
    requires Open(t) && base <= |t.events| && Dense(t.events)
    requires forall k :: k in t.activities.ids ==> k in s.activities.ids || (cmds[0].ScheduleActivity? && k == cmds[0].activityId)
    requires forall k :: k in s.activities.byId ==> k in t.activities.byId
    requires forall k :: k in t.timers.ids ==> k in s.timers.ids || (cmds[0].StartTimer? && k == cmds[0].timerId)
    ensures Fits(t, cmds[1..], base)
  {
    var rest := cmds[1..];
    assert forall c :: c in rest ==> c in cmds;
    forall i | 0 <= i < |rest| ensures FitsAt(t, rest, i, base) {
      assert FitsAt(s, cmds, i + 1, base);
      assert cmds[..i + 1] == [cmds[0]] + rest[..i];
      if rest[i].ScheduleActivity? {
        IdsInCons(cmds[0], rest[..i]);
      }
      if rest[i].StartTimer? {
        IdsInCons(cmds[0], rest[..i]);
      }
    }
  }

  lemma IdsInCons(c: Command, cmds: seq<Command>)
    ensures ActivityIdsIn([c] + cmds) == ActivityIdsIn(cmds) + (if c.ScheduleActivity? then {c.activityId} else {})
    ensures TimerIdsIn([c] + cmds) == TimerIdsIn(cmds) + (if c.StartTimer? then {c.timerId} else {})
  {
    assert forall d :: d in [c] + cmds <==> d == c || d in cmds;
  }

  lemma CleanSplits(s: State, t: State, cmds: seq<Command>, base: int)
    requires Fits(s, cmds, base) && cmds != []
    requires cmds[0].CancelTimer? ==> cmds[0].startedId in s.timers.byId
    requires forall k :: k <= base ==> (k in t.timers.byId <==> k in s.timers.byId && !(cmds[0].CancelTimer? && k == cmds[0].startedId))
    ensures Clean(s, cmds) <==> Clean(t, cmds[1..])
  {
    var rest := cmds[1..];
    forall i | 0 <= i < |rest| && rest[i].CancelTimer? ensures rest[i].startedId <= base {
      assert FitsAt(s, cmds, i + 1, base);
    }
    assert forall i :: 0 <= i < |rest| ==> cmds[i + 1] == rest[i];
    if Clean(s, cmds) {
      forall i | 0 <= i < |rest| && rest[i].CancelTimer? ensures rest[i].startedId in t.timers.byId {
        assert cmds[i + 1].CancelTimer?;
      }
      assert CancelsOnce(rest);
    }
    if Clean(t, rest) {
      forall i | 0 <= i < |cmds| && cmds[i].CancelTimer? ensures cmds[i].startedId in s.timers.byId {
        if i > 0 { assert rest[i - 1].CancelTimer?; }
      }
      forall i, j | 0 <= i < j < |cmds| && cmds[i].CancelTimer? && cmds[j].CancelTimer?
        ensures cmds[i].startedId != cmds[j].startedId
      {
        assert rest[j - 1].CancelTimer?;
        if i > 0 { assert rest[i - 1].CancelTimer?; }
      }
    }
  }

  lemma {:induction false} CommandsLand(s: State, cmds: seq<Command>, base: int, decision: int, draw: Draw, now: Time)
    requires Fits(s, cmds, base)
    ensures
      var r := ApplyCommands(s, cmds, decision, draw, now);
      && (Clean(s, cmds) ==> r.Applied? && RecordsAll(cmds, r.step.state.events, |s.events|, decision, now)
                             && r.step.state.events[..|s.events|] == s.events)
      && (!Clean(s, cmds) ==> r.Crashed?)
    decreases |cmds|
  {
    hide RecordsAt, ApplyCommand, EventFor, EffectsFor, Clean, Fits;
    if cmds == [] {
      assert Clean(s, cmds) by { NothingUnclean(s); }
    } else {
      HeadFits(s, cmds, base);
      var c := cmds[0];
      if c.CancelTimer? && c.startedId !in s.timers.byId {
        HeadCrashes(s, cmds, decision, draw, now);
      } else {
        CommandLands(s, c, decision, draw, now);
        var t := ApplyCommand(s, c, decision, draw, now).step.state;
        if Closing(c) {
          assert cmds[1..] == [];
          NothingUnclean(t);
          ClosingClean(s, c);
          assert cmds == [c];
        } else {
          CommandTouches(s, c, decision, draw, now);
          StillDense(s, t, c, decision, now);
          BasePassed(s, cmds, base);
          RestFits(s, t, cmds, base);
          CleanSplits(s, t, cmds, base);
          CommandsLand(t, cmds[1..], base, decision, draw, now);
          if Clean(s, cmds) {
            RecordsCons(c, cmds, s.events, t.events, ApplyCommands(t, cmds[1..], decision, draw, now).step.state.events, decision, now);
          }
        }
      }
    }
  }

  lemma NothingUnclean(s: State)
    ensures Clean(s, [])
  {
  }

  lemma ClosingClean(s: State, c: Command)
    requires Closing(c)
    ensures Clean(s, [c])
  {
  }

  lemma BasePassed(s: State, cmds: seq<Command>, base: int)
    requires Fits(s, cmds, base)
    ensures base <= |s.events|
  {
  }

  lemma HeadFits(s: State, cmds: seq<Command>, base: int)
    requires Fits(s, cmds, base) && cmds != []
    ensures FailuresNamed(cmds) && Open(s) && Dense(s.events) && (cmds[0].FailWorkflow? ==> cmds[0].failure.Some?)
    ensures !(cmds[0].CancelTimer? && cmds[0].startedId !in s.timers.byId) ==> Lands(s, cmds[0])
    ensures Closing(cmds[0]) ==> |cmds| == 1
  {
    assert FitsAt(s, cmds, 0, base);
    assert cmds[0] in cmds;
  }

  lemma HeadCrashes(s: State, cmds: seq<Command>, decision: int, draw: Draw, now: Time)
    requires cmds != [] && cmds[0].CancelTimer? && cmds[0].startedId !in s.timers.byId && FailuresNamed(cmds)
    ensures ApplyCommands(s, cmds, decision, draw, now).Crashed? && !Clean(s, cmds)
  {
    hide EventFor, EffectsFor;
  }

  lemma StillDense(s: State, t: State, c: Command, decision: int, now: Time)
    requires Dense(s.events) && |t.events| == |s.events| + 1 && t.events[..|s.events|] == s.events
    requires RecordsAt(c, t.events[|s.events|], |s.events|, decision, now)
    ensures Dense(t.events)
  {
    hide Records;
    forall i | 0 <= i < |t.events| ensures t.events[i].id == i + 1 {
      if i < |s.events| { assert t.events[i] == t.events[..|s.events|][i]; }
    }
  }

  lemma RecordsCons(c: Command, cmds: seq<Command>, h: seq<Event>, h1: seq<Event>, h2: seq<Event>, decision: int, now: Time)
    requires cmds != [] && cmds[0] == c && |h1| == |h| + 1 && h1[..|h|] == h
    requires RecordsAt(c, h1[|h|], |h|, decision, now)
    requires |h2| >= |h1| && h2[..|h1|] == h1 && RecordsAll(cmds[1..], h2, |h1|, decision, now)
    ensures h2[..|h|] == h && RecordsAll(cmds, h2, |h|, decision, now)
  {
    hide RecordsAt;
    assert h2[..|h1|][|h|] == h2[|h|];
    assert h2[..|h|] == h2[..|h1|][..|h|];
    forall i | 0 <= i < |cmds| ensures RecordsAt(cmds[i], h2[|h| + i], |h| + i, decision, now) {
      if i > 0 {
        assert RecordsAt(cmds[1..][i - 1], h2[|h1| + (i - 1)], |h1| + (i - 1), decision, now);
      }
    }
  }

  // ------------------------------------------------------------------
  // The whole completion
  // ------------------------------------------------------------------

  lemma NormalizedKeeps(c: Command)
    ensures
      match c
      case ScheduleActivity(aid, _) => NormalizeCommand(c).ScheduleActivity? && NormalizeCommand(c).activityId == aid
      case ContinueAsNew(_, _, _, _, _, _) => NormalizeCommand(c).ContinueAsNew?
      case _ => NormalizeCommand(c) == c
    ensures forall a, d :: Records(NormalizeCommand(c), a, d) ==> Records(c, a, d)
  {
  }

  lemma NormalizedIds(cmds: seq<Command>)
    ensures ActivityIdsIn(NormalizeBatch(cmds)) == ActivityIdsIn(cmds)
    ensures TimerIdsIn(NormalizeBatch(cmds)) == TimerIdsIn(cmds)
  {
    hide NormalizeCommand;
    var n := NormalizeBatch(cmds);
    forall c | c in cmds
      ensures NormalizeCommand(c) in n
      ensures c.ScheduleActivity? ==> NormalizeCommand(c).ScheduleActivity? && NormalizeCommand(c).activityId == c.activityId
      ensures c.StartTimer? ==> NormalizeCommand(c) == c
    {
      NormalizedKeeps(c);
      var i :| 0 <= i < |cmds| && cmds[i] == c;
      assert n[i] == NormalizeCommand(c);
    }
    forall d | d in n
      ensures exists c :: c in cmds && d == NormalizeCommand(c)
    {
      var i :| 0 <= i < |n| && n[i] == d;
      assert cmds[i] in cmds;
    }
    forall d | d in n
      ensures d.ScheduleActivity? ==> d.activityId in ActivityIdsIn(cmds)
      ensures d.StartTimer? ==> d.timerId in TimerIdsIn(cmds)
    {
      var c :| c in cmds && d == NormalizeCommand(c);
      NormalizedKeeps(c);
    }
  }

  lemma NormalizedPrefix(cmds: seq<Command>, i: nat)
    requires i <= |cmds|
    ensures NormalizeBatch(cmds)[..i] == NormalizeBatch(cmds[..i])
  {
  }

  lemma AcceptedFits(s: State, t: State, cmds: seq<Command>, base: int)
    requires ValidBatch(cmds) && Precheck(s, cmds) && Open(t) && Dense(t.events) && base <= |t.events|
    requires t.activities == s.activities && t.timers == s.timers
    requires forall k :: k in s.timers.byId ==> k <= base
    ensures Fits(t, NormalizeBatch(cmds), base)
    ensures Clean(t, NormalizeBatch(cmds)) <==> CancelsOnce(cmds)
  {
    hide ValidOptions, NormalizeCommand, ActivityIdsIn, TimerIdsIn;
    NormalizedShaped(cmds);
    var n := NormalizeBatch(cmds);
    forall i | 0 <= i < |n|
      ensures FitsAt(t, n, i, base)
      ensures n[i].CancelTimer? ==> n[i] == cmds[i] && n[i].startedId in s.timers.byId
      ensures cmds[i].CancelTimer? ==> n[i] == cmds[i]
    {
      assert PrecheckAt(s, cmds, i) && ValidCommand(cmds[i]);
      NormalizedKeeps(cmds[i]);
      NormalizedPrefix(cmds, i);
      NormalizedIds(cmds[..i]);
    }
  }

  lemma RecordsOriginal(cmds: seq<Command>, h: seq<Event>, from: nat, decision: int, now: Time)
    requires RecordsAll(NormalizeBatch(cmds), h, from, decision, now)
    ensures RecordsAll(cmds, h, from, decision, now)
  {
    hide Records, NormalizeCommand;
    forall i | 0 <= i < |cmds| ensures RecordsAt(cmds[i], h[from + i], from + i, decision, now) {
      assert RecordsAt(NormalizeBatch(cmds)[i], h[from + i], from + i, decision, now);
      NormalizedKeeps(cmds[i]);
    }
  }

  /** What a completed task leaves: the old history, its completed event, and one event per command. */
  predicate Wrote(s: State, t: State, cmds: seq<Command>, identity: string, now: Time) {
    var n := |s.events|;
    && |t.events| == n + 1 + |cmds|
    && t.events[..n] == s.events
    && t.events[n] == Event(n + 1, now, TaskCompleted(s.task.scheduledId, s.task.startedId, identity))
    && RecordsAll(cmds, t.events, n + 1, n + 1, now)
  }

  lemma CompletionOpens(s: State, identity: string, now: Time)
    requires Durable(s) && Started(s.task)
    ensures
      var r := Append(s, TaskCompleted(s.task.scheduledId, s.task.startedId, identity), now);
      && r.Ok? && Open(r.value) && Dense(s.events) && Dense(r.value.events)
      && r.value.events == s.events + [Event(|s.events| + 1, now, TaskCompleted(s.task.scheduledId, s.task.startedId, identity))]
      && r.value.activities == s.activities && r.value.timers == s.timers
      && NextEventId(s.events) == |s.events| + 1
  {
    hide Replays, WellFormed, ActivitiesLinked, TimersLinked, TaskLinked;
  }

  lemma TimersBelow(s: State)
    requires Durable(s)
    ensures forall k :: k in s.timers.byId ==> k <= |s.events|
  {
    hide Replays, WellFormed, TaskLinked, ActivitiesLinked, ClosureLinked;
    assert forall k :: k in s.timers.byId ==> Refers(s.events, |s.events|, k, TimerStartedType);
  }

  /** A completion is refused before anything is written, or writes its completed event and exactly one event per
      command; it dies half way exactly when an accepted batch cancels one timer twice. */
  lemma BatchAtomic(s: State, identity: string, cmds: seq<Command>, draw: Draw, now: Time)
    requires Durable(s)
    ensures
      var r := CompleteTask(s, identity, cmds, draw, now);
      && (r.Refused? <==> !Accepted(s, cmds))
      && (r.Applied? <==> Accepted(s, cmds) && CancelsOnce(cmds))
      && (r.Crashed? <==> Accepted(s, cmds) && !CancelsOnce(cmds))
      && (r.Applied? ==> Wrote(s, r.step.state, cmds, identity, now))
  {
    hide Durable, Append, ApplyCommands, ValidBatch, Precheck, CancelsOnce, Fits, Clean, RecordsAt;
    if Accepted(s, cmds) {
      CompletionOpens(s, identity, now);
      var t := Append(s, TaskCompleted(s.task.scheduledId, s.task.startedId, identity), now).value;
      TimersBelow(s);
      AcceptedFits(s, t, cmds, |s.events|);
      NormalizedShaped(cmds);
      CommandsLand(t, NormalizeBatch(cmds), |s.events|, |s.events| + 1, draw, now);
      var r := ApplyCommands(t, NormalizeBatch(cmds), |s.events| + 1, draw, now);
      if r.Applied? {
        RecordsOriginal(cmds, r.step.state.events, |t.events|, |s.events| + 1, now);
      }
    }
  }

  /** The batch that shows the gap: cancelling any one pending timer twice is accepted and then crashes. */
  lemma DoubleCancelCrashes(s: State, st: int, identity: string, draw: Draw, now: Time)
    requires Durable(s) && Started(s.task) && st in s.timers.byId && st > 0
    ensures Accepted(s, [CancelTimer(st), CancelTimer(st)])
    ensures CompleteTask(s, identity, [CancelTimer(st), CancelTimer(st)], draw, now).Crashed?
  {
    hide Durable, CompleteTask;
    var cmds := [CancelTimer(st), CancelTimer(st)];
    assert cmds[0] == cmds[1];
    BatchAtomic(s, identity, cmds, draw, now);
  }
}

/** The executor of long tasks: its shared fields, and every interleaving of the threads that use them. */
module Executor {
  import opened Names

  // ---------------------------------------------------------------- the shared fields

  datatype Fields = Fields(action: Option<string>, isCancelled: bool, finished: bool)

  function Scheduled(f: Fields, action: string): Fields {
    if f.action.Some? then f else Fields(Some(action), false, true)
  }

  /** The worker looks at the flag once, and announces that it has started. */
  function Entered(f: Fields): Fields {
    if f.isCancelled then f else f.(finished := false)
  }

  function Left(f: Fields): Fields {
    f.(action := None, finished := true)
  }

  function Requested(f: Fields): Fields {
    if f.action.None? then f else f.(isCancelled := true)
  }

  function Unscheduled(f: Fields): Fields {
    f.(action := None)
  }

  /** Each method is one section that a thread runs under the locks. */
  class AsyncExecutor {
    var scheduledAction: Option<string>
    var isCancelled: bool
    var finishEvent: bool

    ghost function View(): Fields
      reads this
    {
      Fields(scheduledAction, isCancelled, finishEvent)
    }

    constructor ()
      ensures View() == Fields(None, false, false)
    {
      scheduledAction, isCancelled, finishEvent := None, false, false;
    }

    method Schedule(action: string) returns (prev: Option<string>)
      modifies this
      ensures prev == old(scheduledAction) && View() == Scheduled(old(View()), action)
    {
      if scheduledAction.Some? {
        return scheduledAction;
      }
      scheduledAction, isCancelled, finishEvent := Some(action), false, true;
      prev := None;
    }

    method ResetScheduledAction()
      modifies this
      ensures View() == Unscheduled(old(View()))
    {
      scheduledAction := None;
    }

    /** The start of `run`: the body follows if the result is true. */
    method Enter() returns (runs: bool)
      modifies this
      ensures runs == !old(isCancelled) && View() == Entered(old(View()))
    {
      if isCancelled {
        return false;
      }
      finishEvent := false;
      runs := true;
    }

    /** The `finally` part of `run`. */
    method Leave()
      modifies this
      ensures View() == Left(old(View()))
    {
      ResetScheduledAction();
      finishEvent := true;
    }

    /** The first part of `cancel`: the caller waits for the event if the result is true. */
    method RequestCancel() returns (waits: bool)
      modifies this
      ensures waits == old(scheduledAction).Some? && View() == Requested(old(View()))
    {
      if scheduledAction == None {
        return false;
      }
      isCancelled := true;
      waits := true;
    }
  }

  // ---------------------------------------------------------------- the threads

  /** Where the thread of a task is. */
  datatype Phase = Pending | Running | Skipped | Ended | Gone

  /** Where a call of `cancel` is, and the task it meant: the one scheduled last. */
  datatype Cancel = Waiting(task: nat) | Woken(task: nat) | Returned(task: nat)

  /** The fields, one thread per task, the calls of `cancel`; and, for the record, the tasks whose flag was set,
      those for which it was set before they started, and those that have started. */
  datatype System = System(fields: Fields, tasks: seq<Phase>, cancels: seq<Cancel>,
                           flagged: set<nat>, early: set<nat>, started: set<nat>)

  function Start(): System {
    System(Fields(None, false, false), [], [], {}, {}, {})
  }

  datatype Step = Schedule(action: string) | Enter(task: nat) | Finish(task: nat) | Leave(task: nat)
                | Request | Wake(cancel: nat) | Reset(cancel: nat)

  predicate Enabled(s: System, step: Step) {
    match step
    case Schedule(_) => true
    case Enter(t) => t < |s.tasks| && s.tasks[t] == Pending
    case Finish(t) => t < |s.tasks| && s.tasks[t] == Running
    case Leave(t) => t < |s.tasks| && (s.tasks[t] == Skipped || s.tasks[t] == Ended)
    case Request => true
    case Wake(c) => c < |s.cancels| && s.cancels[c].Waiting? && s.fields.finished
    case Reset(c) => c < |s.cancels| && s.cancels[c].Woken?
  }

  function After(s: System, step: Step): System
    requires Enabled(s, step)
  {
    match step
    case Schedule(action) =>
      if s.fields.action.Some? then s.(fields := Scheduled(s.fields, action))
      else s.(fields := Scheduled(s.fields, action), tasks := s.tasks + [Pending])
    case Enter(t) =>
      if s.fields.isCancelled then s.(fields := Entered(s.fields), tasks := s.tasks[t := Skipped])
      else s.(fields := Entered(s.fields), tasks := s.tasks[t := Running], started := s.started + {t})
    case Finish(t) => s.(tasks := s.tasks[t := Ended])
    case Leave(t) => s.(fields := Left(s.fields), tasks := s.tasks[t := Gone])
    case Request =>
      if s.fields.action.None? || s.tasks == [] then s.(fields := Requested(s.fields))
      else
        var t: nat := |s.tasks| - 1;
        s.(fields := Requested(s.fields), cancels := s.cancels + [Waiting(t)], flagged := s.flagged + {t},
           early := if s.tasks[t] == Pending then s.early + {t} else s.early)
    case Wake(c) => s.(cancels := s.cancels[c := Woken(s.cancels[c].task)])
    case Reset(c) => s.(fields := Unscheduled(s.fields), cancels := s.cancels[c := Returned(s.cancels[c].task)])
  }

  predicate InBody(s: System, t: nat) {
    t < |s.tasks| && s.tasks[t] == Running
  }

  /** The thread has cleared the event and not set it again. */
  predicate Busy(s: System, t: nat) {
    t < |s.tasks| && (s.tasks[t] == Running || s.tasks[t] == Ended)
  }

  /** Something new may be scheduled: each flagged task is gone, and no call of `cancel` is under way. */
  predicate Clear(s: System) {
    && (forall t :: 0 <= t < |s.tasks| && t in s.flagged ==> s.tasks[t] == Gone)
    && (forall c :: 0 <= c < |s.cancels| ==> s.cancels[c].Returned?)
  }

  /** A step that does not schedule over what an earlier cancellation has left. */
  predicate Careful(s: System, step: Step) {
    Enabled(s, step) && (step.Schedule? && s.fields.action.None? ==> Clear(s))
  }

  predicate Run(s: System, steps: seq<Step>)
    decreases |steps|
  {
    steps != [] ==> Careful(s, steps[0]) && Run(After(s, steps[0]), steps[1..])
  }

  function Reached(s: System, steps: seq<Step>): System
    requires Run(s, steps)
    decreases |steps|
  {
    if steps == [] then s else Reached(After(s, steps[0]), steps[1..])
  }

  // ---------------------------------------------------------------- what every run keeps

  predicate Sound(s: System) {
    && (forall t :: 0 <= t < |s.tasks| - 1 ==> s.tasks[t] == Gone)
    && (forall t :: 0 <= t < |s.tasks| && s.tasks[t] != Gone && t !in s.flagged ==> s.fields.action.Some?)
    && (s.fields.action.Some? ==> s.tasks != [] && s.tasks[|s.tasks| - 1] != Gone)
    && (forall t :: 0 <= t < |s.tasks| && t in s.flagged && s.tasks[t] == Pending ==> s.fields.isCancelled)
    && (forall t :: 0 <= t < |s.tasks| && s.tasks[t] in [Running, Ended] ==> !s.fields.finished)
    && (forall t :: t in s.flagged ==> t < |s.tasks|)
    && (forall t :: t in s.started ==> t < |s.tasks|)
    && (forall t :: 0 <= t < |s.tasks| && s.tasks[t] == Pending ==> t !in s.started)
  }

  predicate SoundCancels(s: System) {
    && (forall c :: 0 <= c < |s.cancels| ==> s.cancels[c].task < |s.tasks| && s.cancels[c].task in s.flagged)
    && (forall c :: 0 <= c < |s.cancels| && !s.cancels[c].Returned? ==> s.cancels[c].task == |s.tasks| - 1)
    && (forall c :: 0 <= c < |s.cancels| && !s.cancels[c].Waiting? ==> !Busy(s, s.cancels[c].task))
    && (forall t :: t in s.early ==> t in s.flagged && t !in s.started && !Busy(s, t))
  }

  /** Only the task scheduled last can still be there. */
  lemma OnlyLast(s: System, t: nat)
    requires Sound(s) && t < |s.tasks| && s.tasks[t] != Gone
    ensures t == |s.tasks| - 1
  {}

  lemma ScheduleSound(s: System, action: string)
    requires Sound(s) && SoundCancels(s) && Careful(s, Schedule(action))
    ensures Sound(After(s, Schedule(action))) && SoundCancels(After(s, Schedule(action)))
  {
    if s.fields.action.None? {
      assert forall t :: 0 <= t < |s.tasks| ==> s.tasks[t] == Gone;
    }
  }

  lemma TaskSound(s: System, t: nat, step: Step)
    requires Sound(s) && SoundCancels(s) && Enabled(s, step)
    requires step == Enter(t) || step == Finish(t) || step == Leave(t)
    ensures Sound(After(s, step)) && SoundCancels(After(s, step))
  {
    OnlyLast(s, t);
    var u := After(s, step);
    assert forall x :: 0 <= x < |s.tasks| && x != t ==> u.tasks[x] == Gone;
  }

  lemma RequestSound(s: System)
    requires Sound(s) && SoundCancels(s)
    ensures Sound(After(s, Request)) && SoundCancels(After(s, Request))
  {}

  lemma WakeSound(s: System, step: Step)
    requires Sound(s) && SoundCancels(s) && Enabled(s, step) && (step.Wake? || step.Reset?)
    ensures Sound(After(s, step)) && SoundCancels(After(s, step))
  {}

  lemma StepSound(s: System, step: Step)
    requires Sound(s) && SoundCancels(s) && Careful(s, step)
    ensures Sound(After(s, step)) && SoundCancels(After(s, step))
  {
    hide Sound, SoundCancels, After;
    match step
    case Schedule(action) => ScheduleSound(s, action);
    case Enter(t) => TaskSound(s, t, step);
    case Finish(t) => TaskSound(s, t, step);
    case Leave(t) => TaskSound(s, t, step);
    case Request => RequestSound(s);
    case _ => WakeSound(s, step);
  }

  lemma {:induction false} RunSound(s: System, steps: seq<Step>)
    requires Sound(s) && SoundCancels(s) && Run(s, steps)
    ensures Sound(Reached(s, steps)) && SoundCancels(Reached(s, steps))
    decreases |steps|
  {
    hide Sound, SoundCancels, After, Clear;
    if steps != [] {
      StepSound(s, steps[0]);
      RunSound(After(s, steps[0]), steps[1..]);
    }
  }

  /** In every run of careful steps, at most one task body runs at a time. */
  lemma OneBody(steps: seq<Step>, t: nat, u: nat)
    requires Run(Start(), steps)
    requires InBody(Reached(Start(), steps), t) && InBody(Reached(Start(), steps), u)
    ensures t == u
  {
    RunSound(Start(), steps);
  }

  /** A call of `cancel` does not get past its wait, let alone return, before the body it found running has
      finished and its thread has left. */
  lemma CancelWaits(steps: seq<Step>, c: nat)
    requires Run(Start(), steps)
    requires c < |Reached(Start(), steps).cancels| && !Reached(Start(), steps).cancels[c].Waiting?
    ensures !Busy(Reached(Start(), steps), Reached(Start(), steps).cancels[c].task)
  {
    RunSound(Start(), steps);
  }

  /** A task whose flag was set before it started never starts. */
  lemma FlaggedNeverStarts(steps: seq<Step>, t: nat)
    requires Run(Start(), steps) && t in Reached(Start(), steps).early
    ensures t !in Reached(Start(), steps).started
  {
    RunSound(Start(), steps);
  }

  // ---------------------------------------------------------------- what gets done

  /** With an action scheduled, another is refused and nothing changes; nor does a call of `cancel` change anything without one. */
  lemma Refused(s: System, action: string)
    ensures s.fields.action.Some? ==> After(s, Schedule(action)) == s
    ensures s.fields.action.None? ==> After(s, Request) == s
  {}

  /** With no action scheduled the next one is accepted; if nobody cancels it, it runs to its end, and the executor is free
      again with the event set. */
  lemma RunsThrough(s: System, action: string) returns (accepted: System, running: System, done: System, free: System)
    requires s.fields.action.None?
    ensures var t := |s.tasks|;
            && accepted == After(s, Schedule(action))
            && accepted.fields == Fields(Some(action), false, true) && accepted.tasks == s.tasks + [Pending]
            && Enabled(accepted, Enter(t)) && running == After(accepted, Enter(t))
            && running.fields == Fields(Some(action), false, false) && InBody(running, t) && t in running.started
            && Enabled(running, Finish(t)) && done == After(running, Finish(t))
            && !InBody(done, t) && done.fields == running.fields
            && Enabled(done, Leave(t)) && free == After(done, Leave(t))
            && free.fields == Fields(None, false, true) && free.tasks == s.tasks + [Gone]
  {
    accepted := After(s, Schedule(action));
    running := After(accepted, Enter(|s.tasks|));
    done := After(running, Finish(|s.tasks|));
    free := After(done, Leave(|s.tasks|));
  }

  /** A call of `cancel` that finds a scheduled action flags the last task and waits; a task that has not started then skips
      its body, leaves, and lets the call go on. */
  lemma CancelSkips(s: System) returns (asked: System, skipped: System, left: System, woken: System)
    requires s.fields.action.Some? && s.tasks != [] && s.tasks[|s.tasks| - 1] == Pending
    ensures var t, c := |s.tasks| - 1, |s.cancels|;
            && asked == After(s, Request) && asked.fields == s.fields.(isCancelled := true)
            && asked.tasks == s.tasks && asked.cancels == s.cancels + [Waiting(t)] && t in asked.flagged && t in asked.early
            && Enabled(asked, Enter(t)) && skipped == After(asked, Enter(t))
            && skipped.tasks == s.tasks[t := Skipped] && skipped.started == s.started && skipped.fields == asked.fields
            && Enabled(skipped, Leave(t)) && left == After(skipped, Leave(t))
            && left.fields == Fields(None, true, true) && left.tasks == s.tasks[t := Gone]
            && Enabled(left, Wake(c)) && woken == After(left, Wake(c))
            && Enabled(woken, Reset(c)) && After(woken, Reset(c)).cancels[c] == Returned(t)
  {
    asked := After(s, Request);
    skipped := After(asked, Enter(|s.tasks| - 1));
    left := After(skipped, Leave(|s.tasks| - 1));
    woken := After(left, Wake(|s.cancels|));
  }

  // ---------------------------------------------------------------- the care is needed, from every state

  predicate AtMostOne(s: System) {
    forall t, u :: 0 <= t < u < |s.tasks| ==> !(s.tasks[t] == Running && s.tasks[u] == Running)
  }

  lemma {:induction false} RunJoin(s: System, first: seq<Step>, second: seq<Step>)
    requires Run(s, first) && Run(Reached(s, first), second)
    ensures Run(s, first + second) && Reached(s, first + second) == Reached(Reached(s, first), second)
    decreases |first|
  {
    if first == [] {
      assert first + second == second;
    } else {
      RunJoin(After(s, first[0]), first[1..], second);
      assert (first + second)[1..] == first[1..] + second;
    }
  }

  /** One more careful step at the end of a run. */
  lemma RunOne(s: System, steps: seq<Step>, step: Step) returns (more: seq<Step>)
    requires Run(s, steps) && Careful(Reached(s, steps), step)
    ensures Run(s, more) && Reached(s, more) == After(Reached(s, steps), step)
  {
    more := steps + [step];
    assert [step][1..] == [];
    RunJoin(s, steps, [step]);
  }

  lemma RunNone(s: System)
    ensures Run(s, []) && Reached(s, []) == s
  {}

  /** While the event is set, every waiting call of `cancel` can be woken. */
  lemma {:induction false} WakeFrom(s: System, c: nat) returns (steps: seq<Step>, u: System)
    requires s.fields.finished && c <= |s.cancels|
    ensures Run(s, steps) && u == Reached(s, steps) && u == s.(cancels := u.cancels) && |u.cancels| == |s.cancels|
    ensures forall i :: 0 <= i < |s.cancels| ==> (u.cancels[i].Returned? <==> s.cancels[i].Returned?)
    ensures forall i :: c <= i < |s.cancels| ==> !u.cancels[i].Waiting?
    ensures forall i :: 0 <= i < c ==> u.cancels[i] == s.cancels[i]
    decreases |s.cancels| - c
  {
    if c == |s.cancels| {
      steps, u := [], s;
    } else if s.cancels[c].Waiting? {
      var next := After(s, Wake(c));
      steps, u := WakeFrom(next, c + 1);
      steps := [Wake(c)] + steps;
    } else {
      steps, u := WakeFrom(s, c + 1);
    }
  }

  /** The threads of flagged tasks that have done their part can leave. */
  lemma {:induction false} LeaveFrom(s: System, t: nat) returns (steps: seq<Step>, u: System)
    requires t <= |s.tasks|
    requires forall i :: t <= i < |s.tasks| && i in s.flagged ==> s.tasks[i] in [Skipped, Ended, Gone]
    ensures Run(s, steps) && u == Reached(s, steps)
    ensures u == s.(tasks := u.tasks, fields := u.fields) && |u.tasks| == |s.tasks|
    ensures forall i :: 0 <= i < |s.tasks| ==> u.tasks[i] == if t <= i && i in s.flagged then Gone else s.tasks[i]
    ensures u.fields == s.fields || u.fields == Left(s.fields)
    ensures (exists i :: t <= i < |s.tasks| && i in s.flagged && s.tasks[i] != Gone) ==> u.fields == Left(s.fields)
    decreases |s.tasks| - t
  {
    if t == |s.tasks| {
      steps, u := [], s;
    } else if t in s.flagged && s.tasks[t] != Gone {
      var next := After(s, Leave(t));
      steps, u := LeaveFrom(next, t + 1);
      steps := [Leave(t)] + steps;
    } else {
      steps, u := LeaveFrom(s, t + 1);
    }
  }

  /** Every call of `cancel` that was woken can return. */
  lemma {:induction false} ResetFrom(s: System, c: nat) returns (steps: seq<Step>, u: System)
    requires c <= |s.cancels| && forall i :: c <= i < |s.cancels| ==> !s.cancels[i].Waiting?
    ensures Run(s, steps) && u == Reached(s, steps)
    ensures u == s.(cancels := u.cancels, fields := u.fields) && |u.cancels| == |s.cancels|
    ensures forall i :: 0 <= i < c ==> u.cancels[i] == s.cancels[i]
    ensures forall i :: c <= i < |s.cancels| ==> u.cancels[i].Returned?
    ensures u.fields == s.fields || u.fields == Unscheduled(s.fields)
    ensures (exists i :: c <= i < |s.cancels| && !s.cancels[i].Returned?) ==> u.fields == Unscheduled(s.fields)
    decreases |s.cancels| - c
  {
    if c == |s.cancels| {
      steps, u := [], s;
    } else if s.cancels[c].Woken? {
      var next := After(s, Reset(c));
      steps, u := ResetFrom(next, c + 1);
      steps := [Reset(c)] + steps;
    } else {
      steps, u := ResetFrom(s, c + 1);
    }
  }

  /** The new task is running, everything an earlier cancellation left is finished, and with it the action of the
      new task is reset. */
  lemma Drained(s: System) returns (steps: seq<Step>, u: System)
    requires s.fields == Fields(s.fields.action, false, true) && s.tasks != [] && s.tasks[|s.tasks| - 1] == Pending
    requires |s.tasks| - 1 !in s.flagged && forall t :: t in s.flagged ==> t < |s.tasks|
    requires forall i :: 0 <= i < |s.tasks| && i in s.flagged ==> s.tasks[i] in [Skipped, Ended, Gone]
    requires !Clear(s)
    ensures Run(s, steps) && u == Reached(s, steps)
    ensures Clear(u) && u.fields.action == None && !u.fields.isCancelled
    ensures |u.tasks| == |s.tasks| && u.tasks[|s.tasks| - 1] == Running
  {
    hide Run, Reached;
    var k := |s.tasks| - 1;
    var a, v := WakeFrom(s, 0);
    a := RunOne(s, a, Enter(k));
    var w := After(v, Enter(k));
    var b, x := LeaveFrom(w, 0);
    RunJoin(s, a, b);
    var c, y := ResetFrom(x, 0);
    RunJoin(s, a + b, c);
    steps, u := a + b + c, y;
    if forall i :: 0 <= i < |s.cancels| ==> s.cancels[i].Returned? {
      var i :| 0 <= i < |s.tasks| && i in s.flagged && s.tasks[i] != Gone;
      assert w.tasks[i] != Gone;
    } else {
      var i :| 0 <= i < |s.cancels| && !s.cancels[i].Returned?;
      assert !x.cancels[i].Returned?;
    }
  }

  /** Whenever something is scheduled over what an earlier cancellation has left, two bodies can run, however careful
      every later step is. */
  lemma ClearNeeded(s: System, action: string) returns (steps: seq<Step>)
    requires s.fields.action.None? && !Clear(s) && forall t :: t in s.flagged ==> t < |s.tasks|
    ensures Run(After(s, Schedule(action)), steps) && !AtMostOne(Reached(After(s, Schedule(action)), steps))
  {
    var first, k := After(s, Schedule(action)), |s.tasks|;
    if t: nat :| t < |s.tasks| && t in s.flagged && s.tasks[t] == Pending {
      steps := BothEnter(first, t, k);
    } else if t: nat :| t < |s.tasks| && t in s.flagged && s.tasks[t] == Running {
      steps := OneEnters(first, t, k);
    } else {
      assert !Clear(first) by {
        StillUnclear(s, action);
      }
      var drained, u := Drained(first);
      var again := RunOne(first, drained, Schedule(action));
      steps := RunOne(first, again, Enter(k + 1));
      var last := Reached(first, steps);
      assert last.tasks[k] == Running && last.tasks[k + 1] == Running;
    }
  }

  lemma StillUnclear(s: System, action: string)
    requires s.fields.action.None? && !Clear(s)
    ensures !Clear(After(s, Schedule(action)))
  {
    var u := After(s, Schedule(action));
    if forall i :: 0 <= i < |s.cancels| ==> s.cancels[i].Returned? {
      var i :| 0 <= i < |s.tasks| && i in s.flagged && s.tasks[i] != Gone;
      assert u.tasks[i] != Gone;
    } else {
      var i :| 0 <= i < |s.cancels| && !s.cancels[i].Returned?;
      assert !u.cancels[i].Returned?;
    }
  }

  lemma OneEnters(s: System, t: nat, k: nat) returns (steps: seq<Step>)
    requires t < k < |s.tasks| && s.tasks[t] == Running && s.tasks[k] == Pending && !s.fields.isCancelled
    ensures Run(s, steps) && !AtMostOne(Reached(s, steps))
  {
    RunNone(s);
    steps := RunOne(s, [], Enter(k));
    var u := Reached(s, steps);
    assert u.tasks[t] == Running && u.tasks[k] == Running;
  }

  lemma BothEnter(s: System, t: nat, k: nat) returns (steps: seq<Step>)
    requires t < k < |s.tasks| && s.tasks[t] == Pending && s.tasks[k] == Pending && !s.fields.isCancelled
    ensures Run(s, steps) && !AtMostOne(Reached(s, steps))
  {
    RunNone(s);
    steps := RunOne(s, [], Enter(t));
    steps := RunOne(s, steps, Enter(k));
    var u := Reached(s, steps);
    assert u.tasks[t] == Running && u.tasks[k] == Running;
  }

  /** So the condition on `schedule` is exact: in every state a careful run can reach, one body at a time is kept
      by all careful runs after the next schedule if and only if that schedule finds everything clear. */
  lemma ClearExact(s: System, action: string)
    requires Sound(s) && SoundCancels(s) && s.fields.action.None?
    ensures Clear(s) <==>
              forall steps :: Run(After(s, Schedule(action)), steps) ==> AtMostOne(Reached(After(s, Schedule(action)), steps))
  {
    hide Run, Reached, After;
    if Clear(s) {
      StepSound(s, Schedule(action));
      forall steps | Run(After(s, Schedule(action)), steps)
        ensures AtMostOne(Reached(After(s, Schedule(action)), steps))
      {
        RunSound(After(s, Schedule(action)), steps);
      }
    } else {
      var steps := ClearNeeded(s, action);
    }
  }

  // ---------------------------------------------------------------- one run for each half of the condition

  predicate Possible(s: System, steps: seq<Step>)
    decreases |steps|
  {
    steps != [] ==> Enabled(s, steps[0]) && Possible(After(s, steps[0]), steps[1..])
  }

  function End(s: System, steps: seq<Step>): System
    requires Possible(s, steps)
    decreases |steps|
  {
    if steps == [] then s else End(After(s, steps[0]), steps[1..])
  }

  lemma {:induction false} Extend(s: System, steps: seq<Step>, step: Step) returns (more: seq<Step>)
    requires Possible(s, steps) && Enabled(End(s, steps), step)
    ensures more == steps + [step]
    ensures Possible(s, more) && End(s, more) == After(End(s, steps), step)
    decreases |steps|
  {
    more := steps + [step];
    if steps == [] {
      assert more[1..] == [];
    } else {
      var rest := Extend(After(s, steps[0]), steps[1..], step);
      assert more[1..] == steps[1..] + [step];
    }
  }

  /** The start of the first scenario: a task is cancelled and has left, and the call of `cancel` has been woken. */
  lemma CancelledTaskLeft() returns (steps: seq<Step>)
    ensures Possible(Start(), steps)
    ensures End(Start(), steps) == System(Fields(None, true, true), [Gone], [Woken(0)], {0}, {}, {0})
  {
    hide Possible, End;
    steps := Nothing();
    steps := Extend(Start(), steps, Schedule("a"));
    steps := Extend(Start(), steps, Enter(0));
    steps := Extend(Start(), steps, Request);
    assert End(Start(), steps) == System(Fields(Some("a"), true, false), [Running], [Waiting(0)], {0}, {}, {0});
    steps := Extend(Start(), steps, Finish(0));
    steps := Extend(Start(), steps, Leave(0));
    steps := Extend(Start(), steps, Wake(0));
  }

  lemma Nothing() returns (steps: seq<Step>)
    ensures Possible(Start(), steps) && End(Start(), steps) == Start()
  {
    steps := [];
  }

  /** Each flagged task is gone at every schedule, but a call of `cancel` is still to reset the action: it resets
      that of the next task, a third one is scheduled over it, and two bodies run. */
  lemma LateResetLetsTwoRun()
    ensures exists steps :: Possible(Start(), steps) && InBody(End(Start(), steps), 1) && InBody(End(Start(), steps), 2)
  {
    hide Possible, End;
    var steps := CancelledTaskLeft();
    steps := Extend(Start(), steps, Schedule("b"));
    steps := Extend(Start(), steps, Enter(1));
    steps := Extend(Start(), steps, Reset(0));
    steps := Extend(Start(), steps, Schedule("c"));
    steps := Extend(Start(), steps, Enter(2));
  }

  /** No call of `cancel` is under way, but the flagged task has not looked at its flag yet: the next schedule
      takes the flag back, and the cancelled task starts. */
  lemma RescheduleRevivesTask()
    ensures exists steps :: Possible(Start(), steps) && 0 in End(Start(), steps).early && InBody(End(Start(), steps), 0)
  {
    hide Possible, End;
    var steps := Nothing();
    steps := Extend(Start(), steps, Schedule("a"));
    steps := Extend(Start(), steps, Request);
    steps := Extend(Start(), steps, Wake(0));
    steps := Extend(Start(), steps, Reset(0));
    steps := Extend(Start(), steps, Schedule("b"));
    steps := Extend(Start(), steps, Enter(0));
  }
}

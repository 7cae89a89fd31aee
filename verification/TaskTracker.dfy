/** The countdown latch behind the synchronous snapshot calls: any number of issuing threads
    add traces and wait, any number of responses count down, in every interleaving of their
    atomic actions. The tracker is reference counted; issuers and closures hold a reference. */
module TaskTracker {
  import opened Sums

  /** Where a response is between its trace and the end of its closure. */
  datatype TaskStage =
    | Traced          // counted, HandleResponse not begun
    | Recorded        // error code stored, not counted down yet
    | LastPending     // counted down to zero, lock not taken yet
    | LastLocked      // holds the lock, has not notified yet
    | LastNotified    // holds the lock, has notified
    | NotifyPending   // counted down to more than zero, has not notified yet
    | Returned        // HandleResponse returned, closure still alive
    | Destroyed       // closure destroyed, reference dropped

  datatype Task = Task(code: int, stage: TaskStage)

  /** Where an issuing thread is. */
  datatype WaiterStage =
    | Issuing                               // may still add traces
    | Checking                              // in Wait with the lock, about to read the count
    | Committed                             // with the lock, read a count above zero
    | Asleep                                // on the condition variable
    | Woken                                 // off the condition variable, without the lock
    | Leaving(seen: set<nat>)               // with the lock, read zero; seen are the traces so far
    | Left(seen: set<nat>)                  // Wait returned
    | Answered(seen: set<nat>, result: int) // read the result
    | Gone                                  // reference dropped

  datatype Holder = Nobody | HeldByTask(r: nat) | HeldByWaiter(w: nat)

  datatype State = State(
    count: int, lastErr: int, lock: Holder, tasks: map<nat, Task>, waiters: map<nat, WaiterStage>, refs: int)

  datatype Step =
    | Join(w: nat, via: nat)
    | AddTrace(w: nat, r: nat, code: int)
    | Record(r: nat)
    | CountDown(r: nat)
    | LockLast(r: nat)
    | NotifyLast(r: nat)
    | UnlockLast(r: nat)
    | Notify(r: nat)
    | Destroy(r: nat)
    | EnterWait(w: nat)
    | Check(w: nat)
    | Sleep(w: nat)
    | WakeUp(w: nat)
    | Relock(w: nat)
    | Leave(w: nat)
    | GetResult(w: nat)
    | Drop(w: nat)

  ghost predicate TaskAt(s: State, r: nat, stage: TaskStage) {
    r in s.tasks && s.tasks[r].stage == stage
  }

  ghost predicate WaiterAt(s: State, w: nat, stage: WaiterStage) {
    w in s.waiters && s.waiters[w] == stage
  }

  const MAX_COUNT := 0xffff_ffff

  ghost predicate Enabled(s: State, step: Step) {
    match step
    case Join(w, via) => w !in s.waiters && WaiterAt(s, via, Issuing)
    case AddTrace(w, r, code) => WaiterAt(s, w, Issuing) && r !in s.tasks && s.count < MAX_COUNT
    case Record(r) => TaskAt(s, r, Traced)
    case CountDown(r) => TaskAt(s, r, Recorded)
    case LockLast(r) => TaskAt(s, r, LastPending) && s.lock == Nobody
    case NotifyLast(r) => TaskAt(s, r, LastLocked)
    case UnlockLast(r) => TaskAt(s, r, LastNotified)
    case Notify(r) => TaskAt(s, r, NotifyPending)
    case Destroy(r) => TaskAt(s, r, Returned)
    case EnterWait(w) => WaiterAt(s, w, Issuing) && s.lock == Nobody
    case Check(w) => WaiterAt(s, w, Checking)
    case Sleep(w) => WaiterAt(s, w, Committed)
    case WakeUp(w) => WaiterAt(s, w, Asleep)
    case Relock(w) => WaiterAt(s, w, Woken) && s.lock == Nobody
    case Leave(w) => w in s.waiters && s.waiters[w].Leaving?
    case GetResult(w) => w in s.waiters && s.waiters[w].Left?
    case Drop(w) => w in s.waiters && s.waiters[w].Answered?
  }

  ghost function At(s: State, r: nat, stage: TaskStage): map<nat, Task>
    requires r in s.tasks
  {
    s.tasks[r := s.tasks[r].(stage := stage)]
  }

  /** notify_all. */
  ghost function AllWoken(ws: map<nat, WaiterStage>): map<nat, WaiterStage> {
    map w | w in ws :: if ws[w] == Asleep then Woken else ws[w]
  }

  ghost function Apply(s: State, step: Step): State
    requires Enabled(s, step)
  {
    match step
    case Join(w, via) => s.(waiters := s.waiters[w := Issuing], refs := s.refs + 1)
    case AddTrace(w, r, code) =>
      s.(count := s.count + 1, tasks := s.tasks[r := Task(code, Traced)], refs := s.refs + 1)
    case Record(r) =>
      s.(lastErr := if s.tasks[r].code < 0 then s.tasks[r].code else s.lastErr, tasks := At(s, r, Recorded))
    case CountDown(r) =>
      s.(count := s.count - 1, tasks := At(s, r, if s.count == 1 then LastPending else NotifyPending))
    case LockLast(r) => s.(lock := HeldByTask(r), tasks := At(s, r, LastLocked))
    case NotifyLast(r) => s.(waiters := AllWoken(s.waiters), tasks := At(s, r, LastNotified))
    case UnlockLast(r) => s.(lock := Nobody, tasks := At(s, r, Returned))
    case Notify(r) => s.(waiters := AllWoken(s.waiters), tasks := At(s, r, Returned))
    case Destroy(r) => s.(tasks := At(s, r, Destroyed), refs := s.refs - 1)
    case EnterWait(w) => s.(lock := HeldByWaiter(w), waiters := s.waiters[w := Checking])
    case Check(w) => s.(waiters := s.waiters[w := if s.count == 0 then Leaving(s.tasks.Keys) else Committed])
    case Sleep(w) => s.(lock := Nobody, waiters := s.waiters[w := Asleep])
    case WakeUp(w) => s.(waiters := s.waiters[w := Woken])
    case Relock(w) => s.(lock := HeldByWaiter(w), waiters := s.waiters[w := Checking])
    case Leave(w) => s.(lock := Nobody, waiters := s.waiters[w := Left(s.waiters[w].seen)])
    case GetResult(w) => s.(waiters := s.waiters[w := Answered(s.waiters[w].seen, s.lastErr)])
    case Drop(w) => s.(waiters := s.waiters[w := Gone], refs := s.refs - 1)
  }

  /** A tracker that its creator alone refers to. */
  ghost predicate Init(s: State) {
    exists w :: s == State(0, 0, Nobody, map[], map[w := Issuing], 1)
  }

  /** A run: a sequence of states, each one step after the one before. */
  ghost predicate IsRun(states: seq<State>, steps: seq<Step>) {
    && |states| == |steps| + 1 && Init(states[0])
    && forall i | 0 <= i < |steps| :: Enabled(states[i], steps[i]) && states[i + 1] == Apply(states[i], steps[i])
  }

  // ---------------------------------------------------------------- the invariant

  predicate Counted(stage: TaskStage) { stage.Traced? || stage.Recorded? }

  ghost function CountedTasks(tasks: map<nat, Task>): set<nat> {
    set r | r in tasks && Counted(tasks[r].stage)
  }

  ghost function LiveTasks(tasks: map<nat, Task>): set<nat> {
    set r | r in tasks && !tasks[r].stage.Destroyed?
  }

  ghost function LiveWaiters(waiters: map<nat, WaiterStage>): set<nat> {
    set w | w in waiters && !waiters[w].Gone?
  }

  /** The waiter sleeps or has decided to. */
  predicate Sleepy(stage: WaiterStage) { stage.Asleep? || stage.Committed? }

  ghost predicate SomeoneWillNotify(s: State) {
    exists r :: TaskAt(s, r, LastPending) || TaskAt(s, r, LastLocked)
  }

  ghost predicate Accounted(s: State) {
    s.count == |CountedTasks(s.tasks)| && s.refs == |LiveTasks(s.tasks)| + |LiveWaiters(s.waiters)|
  }

  ghost predicate LockHeld(s: State) {
    && (forall r | r in s.tasks && (s.tasks[r].stage.LastLocked? || s.tasks[r].stage.LastNotified?) ::
          s.lock == HeldByTask(r))
    && (forall w | w in s.waiters && (s.waiters[w].Checking? || s.waiters[w].Committed? || s.waiters[w].Leaving?) ::
          s.lock == HeldByWaiter(w))
    && (match s.lock
        case Nobody => true
        case HeldByTask(r) => TaskAt(s, r, LastLocked) || TaskAt(s, r, LastNotified)
        case HeldByWaiter(w) => WaiterAt(s, w, Checking) || WaiterAt(s, w, Committed) ||
                                (w in s.waiters && s.waiters[w].Leaving?))
  }

  ghost predicate NoLostWakeup(s: State) {
    s.count == 0 && (exists w :: w in s.waiters && Sleepy(s.waiters[w])) ==> SomeoneWillNotify(s)
  }

  /** The stored error is zero while no failure was recorded, else the code of a recorded failure. */
  ghost predicate ErrorKept(s: State) {
    if s.lastErr == 0 then forall r | r in s.tasks && !s.tasks[r].stage.Traced? :: s.tasks[r].code >= 0
    else s.lastErr < 0 && exists r :: r in s.tasks && !s.tasks[r].stage.Traced? && s.tasks[r].code == s.lastErr
  }

  ghost predicate AllHandled(s: State, seen: set<nat>) {
    forall r | r in seen :: r in s.tasks && !Counted(s.tasks[r].stage)
  }

  /** A result of zero clears all traces seen at the return of Wait, any other result is the
      code of a failed response. */
  ghost predicate ResultTrue(s: State, seen: set<nat>, result: int) {
    if result == 0 then forall r | r in seen && r in s.tasks :: s.tasks[r].code >= 0
    else result < 0 && exists r :: r in s.tasks && s.tasks[r].code == result
  }

  ghost predicate WaitersTrue(s: State) {
    forall w | w in s.waiters ::
      match s.waiters[w]
      case Leaving(seen) => AllHandled(s, seen)
      case Left(seen) => AllHandled(s, seen)
      case Answered(seen, result) => AllHandled(s, seen) && ResultTrue(s, seen, result)
      case _ => true
  }

  ghost predicate Inv(s: State) {
    Accounted(s) && LockHeld(s) && NoLostWakeup(s) && ErrorKept(s) && WaitersTrue(s)
  }

  // ---------------------------------------------------------------- every step keeps it

  function Bit(b: bool): int { if b then 1 else 0 }

  /** The size of a set after an element was put in or taken out. */
  lemma OneMoreOrLess(s: set<nat>, x: nat, s': set<nat>, there: bool)
    requires s' == if there then s + {x} else s - {x}
    ensures |s'| == |s| + Bit(there) - Bit(x in s)
  {
    if there {
      if x in s {
        assert s + {x} == s;
      }
    } else if x !in s {
      assert s - {x} == s;
    }
  }

  lemma CountedAfter(tasks: map<nat, Task>, r: nat, t: Task)
    ensures |CountedTasks(tasks[r := t])| ==
            |CountedTasks(tasks)| + Bit(Counted(t.stage)) - Bit(r in tasks && Counted(tasks[r].stage))
  {
    var c := CountedTasks(tasks);
    assert CountedTasks(tasks[r := t]) == if Counted(t.stage) then c + {r} else c - {r};
    OneMoreOrLess(c, r, CountedTasks(tasks[r := t]), Counted(t.stage));
  }

  lemma LiveAfter(tasks: map<nat, Task>, r: nat, t: Task)
    ensures |LiveTasks(tasks[r := t])| ==
            |LiveTasks(tasks)| + Bit(!t.stage.Destroyed?) - Bit(r in tasks && !tasks[r].stage.Destroyed?)
  {
    var l := LiveTasks(tasks);
    assert LiveTasks(tasks[r := t]) == if t.stage.Destroyed? then l - {r} else l + {r};
    OneMoreOrLess(l, r, LiveTasks(tasks[r := t]), !t.stage.Destroyed?);
  }

  lemma WaitersAfter(ws: map<nat, WaiterStage>, w: nat, stage: WaiterStage)
    ensures |LiveWaiters(ws[w := stage])| ==
            |LiveWaiters(ws)| + Bit(!stage.Gone?) - Bit(w in ws && !ws[w].Gone?)
  {
    var v := LiveWaiters(ws);
    assert LiveWaiters(ws[w := stage]) == if stage.Gone? then v - {w} else v + {w};
    OneMoreOrLess(v, w, LiveWaiters(ws[w := stage]), !stage.Gone?);
  }

  lemma WakingKeepsWaiters(ws: map<nat, WaiterStage>)
    ensures LiveWaiters(AllWoken(ws)) == LiveWaiters(ws)
  {
  }

  lemma AccountedStep(s: State, step: Step)
    requires Accounted(s) && Enabled(s, step)
    ensures Accounted(Apply(s, step))
  {
    hide CountedTasks, LiveTasks, LiveWaiters, AllWoken;
    var s' := Apply(s, step);
    WakingKeepsWaiters(s.waiters);
    if step.Join? || step.EnterWait? || step.Check? || step.Sleep? || step.WakeUp? || step.Relock? || step.Leave?
       || step.GetResult? || step.Drop? {
      WaitersAfter(s.waiters, step.w, s'.waiters[step.w]);
    } else {
      CountedAfter(s.tasks, step.r, s'.tasks[step.r]);
      LiveAfter(s.tasks, step.r, s'.tasks[step.r]);
    }
  }

  lemma LockHeldStep(s: State, step: Step)
    requires LockHeld(s) && Enabled(s, step)
    ensures LockHeld(Apply(s, step))
  {
    var s' := Apply(s, step);
    forall r | r in s'.tasks && (s'.tasks[r].stage.LastLocked? || s'.tasks[r].stage.LastNotified?)
      ensures s'.lock == HeldByTask(r)
    {
    }
    forall w | w in s'.waiters && (s'.waiters[w].Checking? || s'.waiters[w].Committed? || s'.waiters[w].Leaving?)
      ensures s'.lock == HeldByWaiter(w)
    {
    }
  }

  lemma ErrorKeptStep(s: State, step: Step)
    requires ErrorKept(s) && Enabled(s, step)
    ensures ErrorKept(Apply(s, step))
  {
    var s' := Apply(s, step);
    if s.lastErr != 0 {
      var r :| r in s.tasks && !s.tasks[r].stage.Traced? && s.tasks[r].code == s.lastErr;
      assert r in s'.tasks && !s'.tasks[r].stage.Traced? && s'.tasks[r].code == s.lastErr;
    }
    if step.Record? {
      assert step.r in s'.tasks && !s'.tasks[step.r].stage.Traced?;
    }
  }

  lemma NoLostWakeupStep(s: State, step: Step)
    requires NoLostWakeup(s) && LockHeld(s) && Accounted(s) && Enabled(s, step)
    ensures NoLostWakeup(Apply(s, step))
  {
    var s' := Apply(s, step);
    if s'.count == 0 && exists w :: w in s'.waiters && Sleepy(s'.waiters[w]) {
      if step.CountDown? {
        assert TaskAt(s', step.r, LastPending);
      } else {
        var w :| w in s'.waiters && Sleepy(s'.waiters[w]);
        assert w in s.waiters && Sleepy(s.waiters[w]);
        var r :| TaskAt(s, r, LastPending) || TaskAt(s, r, LastLocked);
        assert TaskAt(s', r, LastPending) || TaskAt(s', r, LastLocked);
      }
    }
  }

  /** Tasks are never forgotten, keep their code, and are not counted again. */
  lemma TasksOnlyAdvance(s: State, step: Step)
    requires Enabled(s, step)
    ensures forall r | r in s.tasks ::
              && r in Apply(s, step).tasks && Apply(s, step).tasks[r].code == s.tasks[r].code
              && (!Counted(s.tasks[r].stage) ==> !Counted(Apply(s, step).tasks[r].stage))
  {
  }

  lemma WaitersTrueStep(s: State, step: Step)
    requires WaitersTrue(s) && ErrorKept(s) && Accounted(s) && Enabled(s, step)
    ensures WaitersTrue(Apply(s, step))
  {
    var s' := Apply(s, step);
    TasksOnlyAdvance(s, step);
    forall w | w in s.waiters && s.waiters[w].Answered?
      ensures ResultTrue(s', s.waiters[w].seen, s.waiters[w].result)
    {
      var result := s.waiters[w].result;
      if result != 0 {
        var r :| r in s.tasks && s.tasks[r].code == result;
        assert r in s'.tasks && s'.tasks[r].code == result;
      }
    }
    if step.Check? && s.count == 0 {
      assert CountedTasks(s.tasks) == {};
      forall r | r in s.tasks ensures !Counted(s.tasks[r].stage) {
        assert r !in CountedTasks(s.tasks);
      }
    }
  }

  lemma InitInv(s: State)
    requires Init(s)
    ensures Inv(s)
  {
    var w :| s == State(0, 0, Nobody, map[], map[w := Issuing], 1);
    assert CountedTasks(s.tasks) == {} && LiveTasks(s.tasks) == {} && LiveWaiters(s.waiters) == {w};
  }

  lemma StepKeepsInv(s: State, step: Step)
    requires Inv(s) && Enabled(s, step)
    ensures Inv(Apply(s, step))
  {
    hide Accounted, LockHeld, NoLostWakeup, ErrorKept, WaitersTrue, Enabled, Apply;
    AccountedStep(s, step);
    LockHeldStep(s, step);
    NoLostWakeupStep(s, step);
    ErrorKeptStep(s, step);
    WaitersTrueStep(s, step);
  }

  // ---------------------------------------------------------------- what holds in every run

  lemma {:induction false} InvInRuns(states: seq<State>, steps: seq<Step>, i: nat)
    requires IsRun(states, steps) && i < |states|
    ensures Inv(states[i])
  {
    hide Inv, Enabled, Apply, Init;
    if i == 0 {
      InitInv(states[0]);
    } else {
      InvInRuns(states, steps, i - 1);
      StepKeepsInv(states[i - 1], steps[i - 1]);
    }
  }

  /** No lost wakeup: at count zero, whoever sleeps or is about to sleep will be notified by a
      response that has not taken the lock or not notified yet. */
  lemma SleepersAreWoken(states: seq<State>, steps: seq<Step>, i: nat, w: nat)
    requires IsRun(states, steps) && i < |states|
    requires states[i].count == 0 && w in states[i].waiters && Sleepy(states[i].waiters[w])
    ensures SomeoneWillNotify(states[i])
  {
    InvInRuns(states, steps, i);
  }

  /** Once every response has been handled, no thread sleeps and the count is zero. */
  lemma NobodySleepsAtTheEnd(states: seq<State>, steps: seq<Step>, i: nat)
    requires IsRun(states, steps) && i < |states|
    requires forall r | r in states[i].tasks :: states[i].tasks[r].stage.Returned? || states[i].tasks[r].stage.Destroyed?
    ensures states[i].count == 0
    ensures forall w | w in states[i].waiters :: !Sleepy(states[i].waiters[w])
  {
    var s := states[i];
    InvInRuns(states, steps, i);
    assert CountedTasks(s.tasks) == {};
    forall w | w in s.waiters ensures !Sleepy(s.waiters[w]) {
      if Sleepy(s.waiters[w]) {
        SleepersAreWoken(states, steps, i, w);
        assert false;
      }
    }
  }

  /** The count never underflows, and it is the number of responses still to count down. */
  lemma CountIsOutstanding(states: seq<State>, steps: seq<Step>, i: nat)
    requires IsRun(states, steps) && i < |states|
    ensures states[i].count == |CountedTasks(states[i].tasks)|
    ensures i < |steps| && steps[i].CountDown? ==> states[i].count > 0
  {
    InvInRuns(states, steps, i);
    var s := states[i];
    if i < |steps| && steps[i].CountDown? {
      assert Enabled(states[i], steps[i]);
      assert steps[i].r in CountedTasks(s.tasks);
    }
  }

  /** A thread that has its result: all traces that existed when its Wait returned are handled.
      A zero result means that none of them failed, any other is the code of a failed one. */
  lemma ResultIsTrue(states: seq<State>, steps: seq<Step>, i: nat, w: nat)
    requires IsRun(states, steps) && i < |states|
    requires w in states[i].waiters && states[i].waiters[w].Answered?
    ensures AllHandled(states[i], states[i].waiters[w].seen)
    ensures ResultTrue(states[i], states[i].waiters[w].seen, states[i].waiters[w].result)
  {
    InvInRuns(states, steps, i);
  }

  /** If no trace was added after the return of Wait, the result is zero exactly when no
      traced response failed. */
  lemma ResultIsExact(states: seq<State>, steps: seq<Step>, i: nat, w: nat)
    requires IsRun(states, steps) && i < |states|
    requires w in states[i].waiters && states[i].waiters[w].Answered?
    requires states[i].waiters[w].seen == states[i].tasks.Keys
    ensures states[i].waiters[w].result == 0 <==> forall r | r in states[i].tasks :: states[i].tasks[r].code >= 0
  {
    ResultIsTrue(states, steps, i, w);
  }

  // ---------------------------------------------------------------- when Wait returns

  /** The thread has seen that it need not wait any more. */
  predicate ThroughWait(stage: WaiterStage) {
    stage.Leaving? || stage.Left? || stage.Answered? || stage.Gone?
  }

  /** The thread looks at the count: it leaves if and only if the count is zero. */
  lemma CheckDecides(states: seq<State>, steps: seq<Step>, i: nat, w: nat)
    requires IsRun(states, steps) && i < |steps| && steps[i] == Check(w)
    ensures w in states[i + 1].waiters
    ensures if states[i].count == 0 then states[i + 1].waiters[w].Leaving? else states[i + 1].waiters[w] == Committed
  {
    assert Enabled(states[i], steps[i]) && states[i + 1] == Apply(states[i], steps[i]);
  }

  ghost predicate Took(steps: seq<Step>, i: nat, step: Step) {
    exists n :: 0 <= n < i && n < |steps| && steps[n] == step
  }

  /** Response r was traced with the given code. */
  ghost predicate TracedWith(steps: seq<Step>, i: nat, r: nat, code: int) {
    exists n, w :: 0 <= n < i && n < |steps| && steps[n] == AddTrace(w, r, code)
  }

  lemma TookOneMore(steps: seq<Step>, i: nat, step: Step)
    requires i < |steps|
    ensures Took(steps, i + 1, step) <==> Took(steps, i, step) || steps[i] == step
  {
  }

  lemma TracedOneMore(steps: seq<Step>, i: nat, r: nat, code: int)
    requires i < |steps|
    ensures TracedWith(steps, i, r, code) ==> TracedWith(steps, i + 1, r, code)
    ensures steps[i].AddTrace? && steps[i].r == r && steps[i].code == code ==> TracedWith(steps, i + 1, r, code)
  {
    if steps[i].AddTrace? && steps[i].r == r && steps[i].code == code {
      assert steps[i] == AddTrace(steps[i].w, r, code);
    }
  }

  /** How one step moves one response. */
  lemma TaskMoves(s: State, step: Step, r: nat)
    requires Enabled(s, step)
    ensures var s' := Apply(s, step);
            && (r in s.tasks ==>
                  && r in s'.tasks && s'.tasks[r].code == s.tasks[r].code
                  && (Counted(s'.tasks[r].stage) <==> Counted(s.tasks[r].stage) && step != CountDown(r)))
            && (r !in s.tasks && r in s'.tasks ==>
                  step.AddTrace? && step.r == r && s'.tasks[r].code == step.code && Counted(s'.tasks[r].stage))
            && (r !in s.tasks ==> step != CountDown(r))
  {
  }

  /** A response counts until it has counted down, and keeps the code it was traced with. */
  lemma {:induction false} TasksBySteps(states: seq<State>, steps: seq<Step>, i: nat, r: nat)
    requires IsRun(states, steps) && i < |states|
    ensures if r in states[i].tasks then
              && (Counted(states[i].tasks[r].stage) <==> !Took(steps, i, CountDown(r)))
              && TracedWith(steps, i, r, states[i].tasks[r].code)
            else !Took(steps, i, CountDown(r))
  {
    hide Enabled, Apply, Took, TracedWith, Counted;
    if i == 0 {
      NothingTook(steps, CountDown(r));
    } else {
      var s, step := states[i - 1], steps[i - 1];
      assert Enabled(s, step) && states[i] == Apply(s, step);
      TasksBySteps(states, steps, i - 1, r);
      TaskMoves(s, step, r);
      TookOneMore(steps, i - 1, CountDown(r));
      if r in states[i].tasks {
        TracedOneMore(steps, i - 1, r, states[i].tasks[r].code);
      }
    }
  }

  lemma NothingTook(steps: seq<Step>, step: Step)
    ensures !Took(steps, 0, step)
  {
  }

  /** How one step moves one thread past its wait. */
  lemma WaiterMoves(s: State, step: Step, w: nat)
    requires Enabled(s, step) && w in Apply(s, step).waiters && ThroughWait(Apply(s, step).waiters[w])
    ensures w in s.waiters
    ensures ThroughWait(s.waiters[w]) || (step == Check(w) && s.count == 0 && Apply(s, step).waiters[w] == Leaving(s.tasks.Keys))
    ensures var stage, stage' := s.waiters[w], Apply(s, step).waiters[w];
            ThroughWait(stage) && !stage'.Gone? ==> !stage.Gone? && stage'.seen == stage.seen
  {
  }

  /** Wait returns only after the thread has found the count at zero, when every response traced by then had
      counted down. A result of zero means that none of these responses failed, any other result is
      the code of a failed one; and if none was traced since, the result is zero exactly when no
      traced response failed. */
  lemma {:induction false} WaitReturnsAtZero(states: seq<State>, steps: seq<Step>, j: nat, w: nat) returns (i: nat)
    requires IsRun(states, steps) && j < |states| && w in states[j].waiters && ThroughWait(states[j].waiters[w])
    ensures i < j && steps[i] == Check(w) && states[i].count == 0
    ensures forall r | r in states[i].tasks :: Took(steps, i, CountDown(r))
    ensures states[j].waiters[w].Answered? && states[j].waiters[w].result == 0 ==>
              forall r | r in states[i].tasks :: states[i].tasks[r].code >= 0
    ensures states[j].waiters[w].Answered? && states[j].waiters[w].result != 0 ==>
              states[j].waiters[w].result < 0 && exists r :: r in states[j].tasks && states[j].tasks[r].code == states[j].waiters[w].result
    ensures states[j].waiters[w].Answered? && states[j].tasks.Keys == states[i].tasks.Keys ==>
              (states[j].waiters[w].result == 0 <==> forall r | r in states[j].tasks :: states[j].tasks[r].code >= 0)
  {
    hide Enabled, Apply, Took, Init;
    i := LeftAtZero(states, steps, j, w);
    InvInRuns(states, steps, i);
    InvInRuns(states, steps, j);
    AllCountedDown(states, steps, i);
    forall r | r in states[i].tasks ensures r in states[j].tasks && states[j].tasks[r].code == states[i].tasks[r].code {
      CodesStay(states, steps, i, j, r);
    }
  }

  lemma {:induction false} LeftAtZero(states: seq<State>, steps: seq<Step>, j: nat, w: nat) returns (i: nat)
    requires IsRun(states, steps) && j < |states| && w in states[j].waiters && ThroughWait(states[j].waiters[w])
    ensures i < j && steps[i] == Check(w) && states[i].count == 0
    ensures !states[j].waiters[w].Gone? ==> states[j].waiters[w].seen == states[i].tasks.Keys
  {
    hide Enabled, Apply;
    if j == 0 {
      i := 0;
      NobodyThroughAtFirst(states[0], w);
    } else {
      var s, step := states[j - 1], steps[j - 1];
      assert Enabled(s, step) && states[j] == Apply(s, step);
      WaiterMoves(s, step, w);
      if ThroughWait(s.waiters[w]) {
        i := LeftAtZero(states, steps, j - 1, w);
      } else {
        i := j - 1;
      }
    }
  }

  lemma NobodyThroughAtFirst(s: State, w: nat)
    requires Init(s) && w in s.waiters
    ensures !ThroughWait(s.waiters[w])
  {
  }

  lemma AllCountedDown(states: seq<State>, steps: seq<Step>, i: nat)
    requires IsRun(states, steps) && i < |states| && states[i].count == 0
    ensures forall r | r in states[i].tasks :: Took(steps, i, CountDown(r))
  {
    hide Took, IsRun;
    CountIsOutstanding(states, steps, i);
    forall r | r in states[i].tasks ensures Took(steps, i, CountDown(r)) {
      TasksBySteps(states, steps, i, r);
      assert r !in CountedTasks(states[i].tasks);
    }
  }

  lemma {:induction false} CodesStay(states: seq<State>, steps: seq<Step>, i: nat, j: nat, r: nat)
    requires IsRun(states, steps) && i <= j < |states| && r in states[i].tasks
    ensures r in states[j].tasks && states[j].tasks[r].code == states[i].tasks[r].code
    decreases j
  {
    hide Enabled, Apply, Init;
    if i < j {
      assert Enabled(states[j - 1], steps[j - 1]) && states[j] == Apply(states[j - 1], steps[j - 1]);
      CodesStay(states, steps, i, j - 1, r);
      TaskMoves(states[j - 1], steps[j - 1], r);
    }
  }

  /** A notification leaves nobody asleep and disturbs nobody else. */
  lemma NotifyWakesAll(states: seq<State>, steps: seq<Step>, i: nat, w: nat)
    requires IsRun(states, steps) && i < |steps| && (steps[i].Notify? || steps[i].NotifyLast?) && w in states[i].waiters
    ensures w in states[i + 1].waiters
    ensures states[i + 1].waiters[w] == if states[i].waiters[w] == Asleep then Woken else states[i].waiters[w]
  {
    assert Enabled(states[i], steps[i]) && states[i + 1] == Apply(states[i], steps[i]);
  }

  /** The tracker is freed only when no response is inside HandleResponse and no thread uses it. */
  lemma FreedOnlyWhenUnused(states: seq<State>, steps: seq<Step>, i: nat)
    requires IsRun(states, steps) && i < |states|
    ensures states[i].refs >= 0
    ensures states[i].refs == 0 ==>
              && (forall r | r in states[i].tasks :: states[i].tasks[r].stage.Destroyed?)
              && (forall w | w in states[i].waiters :: states[i].waiters[w].Gone?)
  {
    InvInRuns(states, steps, i);
    var s := states[i];
    if s.refs == 0 {
      assert LiveTasks(s.tasks) == {} && LiveWaiters(s.waiters) == {};
      assert forall r | r in s.tasks :: r !in LiveTasks(s.tasks);
      assert forall w | w in s.waiters :: w !in LiveWaiters(s.waiters);
    }
  }

  /** Once the tracker is freed nobody touches it: the run is over. */
  lemma FreedForGood(states: seq<State>, steps: seq<Step>, i: nat)
    requires IsRun(states, steps) && i < |states| && states[i].refs == 0
    ensures forall step :: !Enabled(states[i], step)
    ensures i == |steps|
  {
    assert i < |steps| ==> Enabled(states[i], steps[i]);
    FreedOnlyWhenUnused(states, steps, i);
    var s := states[i];
    forall step ensures !Enabled(s, step) {
      assert forall r | r in s.tasks :: s.tasks[r].stage.Destroyed?;
      assert forall w | w in s.waiters :: s.waiters[w].Gone?;
    }
  }

  /** A step that some thread takes by itself: no new trace, no new thread, no spurious wakeup. */
  predicate OwnStep(step: Step) {
    !step.Join? && !step.AddTrace? && !step.WakeUp?
  }

  /** No deadlock: as long as a thread has not dropped the tracker, some thread can move. */
  lemma SomeoneCanMove(states: seq<State>, steps: seq<Step>, i: nat, w: nat)
    requires IsRun(states, steps) && i < |states|
    requires w in states[i].waiters && !states[i].waiters[w].Gone?
    ensures exists step :: OwnStep(step) && Enabled(states[i], step)
  {
    var s := states[i];
    InvInRuns(states, steps, i);
    if s.lock.HeldByTask? {
      var r := s.lock.r;
      var step := if TaskAt(s, r, LastLocked) then NotifyLast(r) else UnlockLast(r);
      assert OwnStep(step) && Enabled(s, step);
    } else if s.lock.HeldByWaiter? {
      var v := s.lock.w;
      var step := if s.waiters[v].Checking? then Check(v) else if s.waiters[v].Committed? then Sleep(v) else Leave(v);
      assert OwnStep(step) && Enabled(s, step);
    } else if s.waiters[w].Asleep? {
      var r := AwaitedTask(s, w);
      var step := match s.tasks[r].stage
        case Traced => Record(r)
        case Recorded => CountDown(r)
        case _ => LockLast(r);
      assert OwnStep(step) && Enabled(s, step);
    } else {
      var step := match s.waiters[w]
        case Issuing => EnterWait(w)
        case Woken => Relock(w)
        case Left(_) => GetResult(w)
        case _ => Drop(w);
      assert OwnStep(step) && Enabled(s, step);
    }
  }

  /** A sleeping thread waits for a response that has not counted down or not notified. */
  lemma AwaitedTask(s: State, w: nat) returns (r: nat)
    requires Inv(s) && s.lock == Nobody && w in s.waiters && s.waiters[w].Asleep?
    ensures TaskAt(s, r, Traced) || TaskAt(s, r, Recorded) || TaskAt(s, r, LastPending)
  {
    if s.count == 0 {
      r :| TaskAt(s, r, LastPending) || TaskAt(s, r, LastLocked);
    } else {
      assert CountedTasks(s.tasks) != {};
      r :| r in CountedTasks(s.tasks);
    }
  }

  // ---------------------------------------------------------------- every Wait returns

  /** How far a response and a thread are from their ends. A notification sends sleepers back. */
  function TaskLeft(t: Task): int {
    match t.stage
    case Traced => 7
    case Recorded => 6
    case LastPending => 5
    case LastLocked => 4
    case LastNotified => 3
    case NotifyPending => 2
    case Returned => 1
    case Destroyed => 0
  }

  const MOST := 7

  function WaiterLeft(w: WaiterStage): int {
    match w
    case Issuing => 7
    case Woken => 7
    case Checking => 6
    case Committed => 5
    case Asleep => 4
    case Leaving(_) => 3
    case Left(_) => 2
    case Answered(_, _) => 1
    case Gone => 0
  }

  ghost function TaskWeights(tasks: map<nat, Task>): map<nat, int> {
    map r | r in tasks :: TaskLeft(tasks[r])
  }

  ghost function WaiterWeights(ws: map<nat, WaiterStage>): map<nat, int> {
    map w | w in ws :: WaiterLeft(ws[w])
  }

  ghost function TasksLeft(tasks: map<nat, Task>): int { Sum(TaskWeights(tasks)) }

  ghost function WaitersLeft(ws: map<nat, WaiterStage>): int { Sum(WaiterWeights(ws)) }

  lemma TasksLeftAfter(tasks: map<nat, Task>, r: nat, t: Task)
    requires r in tasks
    ensures TasksLeft(tasks[r := t]) == TasksLeft(tasks) + TaskLeft(t) - TaskLeft(tasks[r])
  {
    hide Sum, TaskLeft;
    SumUpdate(TaskWeights(tasks), r, TaskLeft(t));
    assert TaskWeights(tasks[r := t]) == TaskWeights(tasks)[r := TaskLeft(t)];
  }

  lemma WaitersLeftAfter(ws: map<nat, WaiterStage>, w: nat, stage: WaiterStage)
    requires w in ws
    ensures WaitersLeft(ws[w := stage]) == WaitersLeft(ws) + WaiterLeft(stage) - WaiterLeft(ws[w])
  {
    hide Sum, WaiterLeft;
    SumUpdate(WaiterWeights(ws), w, WaiterLeft(stage));
    assert WaiterWeights(ws[w := stage]) == WaiterWeights(ws)[w := WaiterLeft(stage)];
  }

  lemma {:induction false} WaitersLeftAtMost(ws: map<nat, WaiterStage>)
    ensures 0 <= WaitersLeft(ws) <= MOST * |ws|
    decreases |ws|
  {
    if ws == map[] {
      assert WaiterWeights(ws) == map[];
    } else {
      hide Sum;
      assert ws.Keys != {};
      var w :| w in ws;
      var rest := ws - {w};
      SumPick(WaiterWeights(ws), w);
      assert rest.Keys == ws.Keys - {w};
      assert WaiterWeights(ws) - {w} == WaiterWeights(rest);
      WaitersLeftAtMost(rest);
    }
  }

  lemma TasksLeftNotNegative(tasks: map<nat, Task>)
    ensures TasksLeft(tasks) >= 0
  {
    SumNotNegative(TaskWeights(tasks));
  }

  /** The steps that are left while nobody joins, adds a trace or wakes up by itself. */
  ghost function StepsLeft(s: State): int {
    TasksLeft(s.tasks) * (MOST * |s.waiters| + 1) + WaitersLeft(s.waiters)
  }

  predicate TaskStep(step: Step) {
    || step.Record? || step.CountDown? || step.LockLast? || step.NotifyLast? || step.UnlockLast? || step.Notify?
    || step.Destroy?
  }

  /** A response moves on, or a thread moves on and the responses stay. */
  lemma OwnStepMovesOn(s: State, step: Step)
    requires OwnStep(step) && Enabled(s, step)
    ensures var s' := Apply(s, step);
            && s'.waiters.Keys == s.waiters.Keys
            && if TaskStep(step) then TasksLeft(s'.tasks) < TasksLeft(s.tasks)
               else s'.tasks == s.tasks && WaitersLeft(s'.waiters) < WaitersLeft(s.waiters)
  {
    hide TasksLeft, WaitersLeft;
    var s' := Apply(s, step);
    if TaskStep(step) {
      TasksLeftAfter(s.tasks, step.r, s'.tasks[step.r]);
    } else {
      WaitersLeftAfter(s.waiters, step.w, s'.waiters[step.w]);
    }
  }

  lemma OwnStepLowers(s: State, step: Step)
    requires OwnStep(step) && Enabled(s, step)
    ensures 0 <= StepsLeft(Apply(s, step)) < StepsLeft(s)
  {
    hide TasksLeft, WaitersLeft, Apply, Enabled;
    var s' := Apply(s, step);
    OwnStepMovesOn(s, step);
    WaitersLeftAtMost(s.waiters);
    WaitersLeftAtMost(s'.waiters);
    TasksLeftNotNegative(s'.tasks);
    assert |s'.waiters| == |s'.waiters.Keys| == |s.waiters.Keys| == |s.waiters|;
    Weighted(TasksLeft(s'.tasks), TasksLeft(s.tasks), MOST * |s.waiters| + 1, WaitersLeft(s'.waiters), WaitersLeft(s.waiters));
  }

  lemma Weighted(a': int, a: int, n: int, b': int, b: int)
    requires 0 <= a' && 0 <= b' < n && 0 <= b && (a' < a || (a' == a && b' < b))
    ensures 0 <= a' * n + b' < a * n + b
  {
    Product(a', n);
    if a' < a {
      Product(a - a' - 1, n);
      assert a * n == (a - a' - 1) * n + a' * n + n;
    }
  }

  lemma {:induction false} Product(a: int, n: int)
    requires 0 <= a && 0 <= n
    ensures a * n >= 0
  {
  }

  /** Every Wait returns: once nobody joins, adds a trace or wakes up by itself, only boundedly many steps
      are left, and when no step is left every thread has its result and has dropped the tracker. */
  lemma {:induction false} EveryWaitReturns(states: seq<State>, steps: seq<Step>, i: nat, j: nat)
    requires IsRun(states, steps) && i <= j < |states| && forall n | i <= n < j :: OwnStep(steps[n])
    ensures j - i + StepsLeft(states[j]) <= StepsLeft(states[i]) && StepsLeft(states[j]) >= 0
    ensures (forall step :: OwnStep(step) ==> !Enabled(states[j], step)) ==>
              forall w | w in states[j].waiters :: states[j].waiters[w].Gone?
    decreases j - i
  {
    hide StepsLeft, Apply, Enabled, Init;
    if i < j {
      EveryWaitReturns(states, steps, i, j - 1);
      OwnStepLowers(states[j - 1], steps[j - 1]);
    } else {
      StepsLeftNotNegative(states[j]);
    }
    forall w | w in states[j].waiters && !states[j].waiters[w].Gone?
      ensures exists step :: OwnStep(step) && Enabled(states[j], step)
    {
      SomeoneCanMove(states, steps, j, w);
    }
  }

  lemma StepsLeftNotNegative(s: State)
    ensures StepsLeft(s) >= 0
  {
    hide TasksLeft, WaitersLeft;
    TasksLeftNotNegative(s.tasks);
    WaitersLeftAtMost(s.waiters);
    Product(TasksLeft(s.tasks), MOST * |s.waiters| + 1);
  }
}

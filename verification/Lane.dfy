/**
 The execution lane of one agent (runtime/internal/session/lane.go): a bounded queue, one worker that runs
 the queued tasks in order, and a shutdown that aborts what has not run.

 A lane is a state machine.  Its actions are the atomic steps of Enqueue, of Close, of the worker and of the
 contexts and barriers around it; any enabled action may come next.
 */
module Lane {
  import opened Common

  // A task may wait behind a barrier, its gate, before it is run.
  datatype Task = Task(id: string, gate: Option<nat>)

  // Where the worker is.
  datatype Worker = Selecting | Got(task: Task) | Waiting(task: Task) | Ready(task: Task) | Running(task: Task)
                  | Leaving | Draining | Done

  datatype Disposition = Ran(task: Task) | Aborted(task: Task)

  // The accepted tasks and the log are the history of the lane.
  datatype Lane = Lane(
    capacity: nat, queue: seq<Task>, closed: bool, cancelled: bool, open: set<nat>, worker: Worker,
    accepted: seq<Task>, log: seq<Disposition>, ended: nat)

  datatype LaneError = LaneClosed | LaneFull

  function NewLane(capacity: nat): Lane {
    Lane(capacity, [], false, false, {}, Selecting, [], [], 0)
  }

  datatype Action =
    | Enqueue(task: Task)
    | SetClosed
    | Cancel
    | Admit(gate: nat)
    | TakeDone
    | TakeTask
    | CheckTask
    | PassGate
    | SeeCancel
    | StartTask
    | EndTask
    | CloseAdmission
    | DrainTask
    | Finish

  predicate IsWorkerAction(a: Action) {
    !(a.Enqueue? || a.SetClosed? || a.Cancel? || a.Admit?)
  }

  function EnqueueError(l: Lane): Option<LaneError> {
    if l.closed then Some(LaneClosed)
    else if |l.queue| >= l.capacity then Some(LaneFull)
    else None
  }

  predicate GateOpen(l: Lane, t: Task) {
    t.gate.None? || t.gate.value in l.open
  }

  predicate Enabled(l: Lane, a: Action) {
    match a
    case Enqueue(_) => true
    case SetClosed => true
    case Cancel => true
    case Admit(_) => true
    case TakeDone => l.worker.Selecting? && l.cancelled
    case TakeTask => l.worker.Selecting? && l.queue != []
    case CheckTask => l.worker.Got?
    case PassGate => l.worker.Waiting? && GateOpen(l, l.worker.task)
    case SeeCancel => l.worker.Waiting? && l.worker.task.gate.Some? && l.cancelled
    case StartTask => l.worker.Ready?
    case EndTask => l.worker.Running?
    case CloseAdmission => l.worker.Leaving?
    case DrainTask => l.worker.Draining? && l.queue != []
    case Finish => l.worker.Draining? && l.queue == []
  }

  function Abort(l: Lane, t: Task, next: Worker): Lane {
    l.(log := l.log + [Aborted(t)], worker := next)
  }

  function Apply(l: Lane, a: Action): Lane
    requires Enabled(l, a)
  {
    match a
    case Enqueue(t) => if EnqueueError(l).Some? then l else l.(queue := l.queue + [t], accepted := l.accepted + [t])
    case SetClosed => l.(closed := true)
    case Cancel => l.(cancelled := true)
    case Admit(g) => l.(open := l.open + {g})
    case TakeDone => l.(worker := Leaving)
    case TakeTask => l.(queue := l.queue[1..], worker := Got(l.queue[0]))
    case CheckTask => if l.cancelled then Abort(l, l.worker.task, Leaving) else l.(worker := Waiting(l.worker.task))
    case PassGate => l.(worker := Ready(l.worker.task))
    case SeeCancel => Abort(l, l.worker.task, Leaving)
    case StartTask =>
      if l.cancelled then Abort(l, l.worker.task, Leaving)
      else l.(worker := Running(l.worker.task), log := l.log + [Ran(l.worker.task)])
    case EndTask => l.(worker := Selecting, ended := l.ended + 1)
    case CloseAdmission => l.(closed := true, worker := Draining)
    case DrainTask => Abort(l, l.queue[0], Draining).(queue := l.queue[1..])
    case Finish => l.(worker := Done)
  }

  /* ---- What every reachable lane satisfies ---- */

  // A task the worker holds and has not disposed of.
  function InHand(w: Worker): seq<Task> {
    if w.Got? || w.Waiting? || w.Ready? then [w.task] else []
  }

  function Disposed(log: seq<Disposition>): (tasks: seq<Task>)
    ensures |tasks| == |log|
  {
    seq(|log|, i requires 0 <= i < |log| => log[i].task)
  }

  ghost predicate AllRan(log: seq<Disposition>) {
    forall i | 0 <= i < |log| :: log[i].Ran?
  }

  ghost predicate RunsThenAborts(log: seq<Disposition>) {
    forall i, j | 0 <= i < j < |log| :: log[i].Aborted? ==> log[j].Aborted?
  }

  function Runs(log: seq<Disposition>): nat {
    if log == [] then 0 else Runs(log[..|log| - 1]) + if log[|log| - 1].Ran? then 1 else 0
  }

  predicate Leaves(w: Worker) {
    w.Leaving? || w.Draining? || w.Done?
  }

  // Every accepted task is disposed of, in hand or queued, in the order of acceptance.
  ghost predicate InOrder(l: Lane) {
    Disposed(l.log) + InHand(l.worker) + l.queue == l.accepted
  }

  ghost predicate RunsAreAdmitted(l: Lane) {
    && (forall i | 0 <= i < |l.log| && l.log[i].Ran? :: GateOpen(l, l.log[i].task))
    && (l.worker.Ready? ==> GateOpen(l, l.worker.task))
  }

  ghost predicate Shutdown(l: Lane) {
    && (if Leaves(l.worker) then RunsThenAborts(l.log) && l.cancelled else AllRan(l.log))
    && (l.worker.Draining? || l.worker.Done? ==> l.closed)
    && (l.worker.Done? ==> l.queue == [])
  }

  // The queue is bounded, and of the tasks that ran all but the one that is running have ended.
  ghost predicate Counts(l: Lane) {
    && |l.queue| <= l.capacity
    && (l.worker.Running? ==> l.log != [] && l.log[|l.log| - 1] == Ran(l.worker.task))
    && Runs(l.log) == l.ended + if l.worker.Running? then 1 else 0
  }

  ghost predicate Invariant(l: Lane) {
    InOrder(l) && RunsAreAdmitted(l) && Shutdown(l) && Counts(l)
  }

  lemma DisposedNext(log: seq<Disposition>, d: Disposition)
    ensures Disposed(log + [d]) == Disposed(log) + [d.task]
    ensures Runs(log + [d]) == Runs(log) + if d.Ran? then 1 else 0
    ensures AllRan(log) && d.Ran? ==> AllRan(log + [d])
    ensures RunsThenAborts(log) && d.Aborted? ==> RunsThenAborts(log + [d])
  {
  }

  lemma NewLaneInvariant(capacity: nat)
    ensures Invariant(NewLane(capacity)) && NewLane(capacity).capacity == capacity
    ensures var l := NewLane(capacity);
      && !l.closed && !l.cancelled && l.worker.Selecting? && l.queue == [] && l.open == {}
      && l.accepted == [] && l.log == []
  {
  }

  lemma TakeKeepsOrder(done: seq<Task>, queue: seq<Task>)
    requires queue != []
    ensures done + [queue[0]] + queue[1..] == done + [] + queue
  {
  }

  lemma StepKeepsOrder(l: Lane, a: Action)
    requires Invariant(l) && Enabled(l, a)
    ensures InOrder(Apply(l, a))
  {
  }

  lemma StepKeepsAdmission(l: Lane, a: Action)
    requires RunsAreAdmitted(l) && Enabled(l, a)
    ensures RunsAreAdmitted(Apply(l, a))
  {
  }

  lemma StepKeepsShutdown(l: Lane, a: Action)
    requires Shutdown(l) && Enabled(l, a)
    ensures Shutdown(Apply(l, a))
  {
  }

  lemma StepKeepsCounts(l: Lane, a: Action)
    requires Counts(l) && Enabled(l, a)
    ensures Counts(Apply(l, a))
  {
  }

  lemma StepKeepsInvariant(l: Lane, a: Action)
    requires Invariant(l) && Enabled(l, a)
    ensures Invariant(Apply(l, a))
  {
    StepKeepsOrder(l, a);
    StepKeepsAdmission(l, a);
    StepKeepsShutdown(l, a);
    StepKeepsCounts(l, a);
  }

  /* ---- Runs ---- */

  ghost predicate IsRun(l: Lane, actions: seq<Action>)
    decreases |actions|
  {
    actions == [] || (Enabled(l, actions[0]) && IsRun(Apply(l, actions[0]), actions[1..]))
  }

  ghost function After(l: Lane, actions: seq<Action>): Lane
    requires IsRun(l, actions)
    decreases |actions|
  {
    if actions == [] then l else After(Apply(l, actions[0]), actions[1..])
  }

  lemma StepGrows(l: Lane, a: Action)
    requires Enabled(l, a)
    ensures l.accepted <= Apply(l, a).accepted && l.log <= Apply(l, a).log && Apply(l, a).capacity == l.capacity
  {
  }

  // Whatever the interleaving, every reachable lane satisfies the invariant, and its history only grows.
  lemma {:induction false} RunKeepsInvariant(l: Lane, actions: seq<Action>)
    requires Invariant(l) && IsRun(l, actions)
    ensures Invariant(After(l, actions))
    ensures l.accepted <= After(l, actions).accepted && l.log <= After(l, actions).log
    ensures After(l, actions).capacity == l.capacity
    decreases |actions|
  {
    if actions != [] {
      StepKeepsInvariant(l, actions[0]);
      StepGrows(l, actions[0]);
      RunKeepsInvariant(Apply(l, actions[0]), actions[1..]);
    }
  }

  // A task is disposed of at most once, in the order of acceptance; runs come before aborts.
  lemma DispositionsFollowAcceptance(l: Lane)
    requires Invariant(l)
    ensures Disposed(l.log) <= l.accepted && RunsThenAborts(l.log)
    ensures |l.accepted| - |l.log| == |l.queue| + |InHand(l.worker)|
  {
  }

  function Aborts(log: seq<Disposition>): nat {
    if log == [] then 0 else Aborts(log[..|log| - 1]) + if log[|log| - 1].Aborted? then 1 else 0
  }

  lemma {:induction false} RunsAndAborts(log: seq<Disposition>)
    ensures Runs(log) + Aborts(log) == |log|
  {
    if log != [] {
      RunsAndAborts(log[..|log| - 1]);
    }
  }

  // One task runs at a time, and at most capacity + 1 accepted tasks have neither ended nor been aborted.
  lemma OutstandingIsBounded(l: Lane)
    requires Invariant(l)
    ensures l.ended <= Runs(l.log) <= l.ended + 1
    ensures 0 <= |l.accepted| - l.ended - Aborts(l.log) <= l.capacity + 1
  {
    DispositionsFollowAcceptance(l);
    RunsAndAborts(l.log);
  }

  // Once the worker is done, every accepted task has run or was aborted, exactly once, and nothing changes that.
  lemma DoneIsComplete(l: Lane)
    requires Invariant(l) && l.worker.Done?
    ensures l.queue == [] && Disposed(l.log) == l.accepted && RunsThenAborts(l.log) && Runs(l.log) == l.ended
  {
  }

  lemma {:induction false} DoneIsFinal(l: Lane, actions: seq<Action>)
    requires Invariant(l) && l.worker.Done? && IsRun(l, actions)
    ensures var m := After(l, actions); m.worker.Done? && m.accepted == l.accepted && m.log == l.log
    decreases |actions|
  {
    if actions != [] {
      StepKeepsInvariant(l, actions[0]);
      DoneIsFinal(Apply(l, actions[0]), actions[1..]);
    }
  }

  // A task runs only after its gate was opened, and never once the lane is cancelled.
  lemma RunsOnlyAdmitted(l: Lane, a: Action)
    requires Invariant(l) && Enabled(l, a)
    ensures a.StartTask? && !l.cancelled ==>
      && (l.worker.task.gate.Some? ==> l.worker.task.gate.value in l.open)
      && Apply(l, a).log == l.log + [Ran(l.worker.task)]
    ensures Apply(l, a).log != l.log && (l.cancelled || !a.StartTask?) ==>
      exists t :: Apply(l, a).log == l.log + [Aborted(t)]
  {
  }

  /* ---- An open lane works ---- */

  // A lane that is not cancelled waits only for a task, or for the gate of the task it has.
  lemma OpenLaneMoves(l: Lane) returns (a: Action)
    requires Invariant(l) && !l.cancelled
    requires l.worker.Selecting? ==> l.queue != []
    requires l.worker.Waiting? && l.worker.task.gate.Some? ==> l.worker.task.gate.value in l.open
    ensures IsWorkerAction(a) && Enabled(l, a)
  {
    match l.worker
    case Selecting => a := TakeTask;
    case Got(_) => a := CheckTask;
    case Waiting(_) => a := PassGate;
    case Ready(_) => a := StartTask;
    case Running(_) => a := EndTask;
  }

  // How many steps its worker has until everything accepted so far has ended.
  function WorkLeft(l: Lane): nat {
    5 * |l.queue| + match l.worker
                    case Got(_) => 4
                    case Waiting(_) => 3
                    case Ready(_) => 2
                    case Running(_) => 1
                    case _ => 0
  }

  // Each step of its worker brings it closer to that, and no task is aborted.
  lemma OpenLaneProgresses(l: Lane, a: Action)
    requires Invariant(l) && !l.cancelled && Enabled(l, a)
    ensures IsWorkerAction(a) ==> WorkLeft(Apply(l, a)) < WorkLeft(l) && !Apply(l, a).cancelled
    ensures AllRan(Apply(l, a).log)
    ensures !IsWorkerAction(a) && Apply(l, a).accepted == l.accepted ==> WorkLeft(Apply(l, a)) == WorkLeft(l)
  {
    StepKeepsInvariant(l, a);
  }

  /* ---- Shutdown ends ---- */

  // How many steps the worker of a cancelled lane still has.
  function StepsLeft(l: Lane): nat {
    match l.worker
    case Done => 0
    case Draining => |l.queue| + 1
    case Leaving => l.capacity + 2
    case Got(_) => l.capacity + 3
    case Ready(_) => l.capacity + 3
    case Waiting(_) => l.capacity + 4
    case Selecting => l.capacity + 4
    case Running(_) => l.capacity + 5
  }

  // A cancelled lane never waits for anything but the task that runs.
  lemma CancelledLaneMoves(l: Lane) returns (a: Action)
    requires l.cancelled && !l.worker.Done?
    ensures IsWorkerAction(a) && Enabled(l, a)
  {
    match l.worker
    case Selecting => a := TakeDone;
    case Got(_) => a := CheckTask;
    case Waiting(t) => a := if t.gate.Some? then SeeCancel else PassGate;
    case Ready(_) => a := StartTask;
    case Running(_) => a := EndTask;
    case Leaving => a := CloseAdmission;
    case Draining => a := if l.queue != [] then DrainTask else Finish;
  }

  // Each step of its worker brings a cancelled lane closer to done, and nothing else sets it back.
  lemma CancelledLaneEnds(l: Lane, a: Action)
    requires Invariant(l) && l.cancelled && Enabled(l, a)
    ensures Apply(l, a).cancelled
    ensures if IsWorkerAction(a) then StepsLeft(Apply(l, a)) < StepsLeft(l) else StepsLeft(Apply(l, a)) == StepsLeft(l)
  {
  }

  /* ---- The lane as an object ---- */

  class ExecutionLane {
    const capacity: nat
    var queue: seq<Task>
    var closed: bool
    var cancelled: bool
    var open: set<nat>
    var worker: Worker
    var accepted: seq<Task>
    ghost var log: seq<Disposition>
    ghost var ended: nat

    ghost function View(): Lane
      reads this
    {
      Lane(capacity, queue, closed, cancelled, open, worker, accepted, log, ended)
    }

    constructor (capacity: nat)
      ensures View() == NewLane(capacity) && Invariant(View())
    {
      this.capacity := capacity;
      queue, closed, cancelled, open, worker := [], false, false, {}, Selecting;
      accepted, log, ended := [], [], 0;
    }

    method Enqueue(task: Task) returns (error: Option<LaneError>)
      modifies this`queue, this`accepted
      ensures View() == Apply(old(View()), Action.Enqueue(task))
      ensures error ==
        if old(closed) then Some(LaneClosed) else if old(|queue|) >= capacity then Some(LaneFull) else None
      ensures error.None? ==> queue == old(queue) + [task] && accepted == old(accepted) + [task]
      ensures error.Some? ==> queue == old(queue) && accepted == old(accepted)
    {
      if closed {
        return Some(LaneClosed);
      }
      if |queue| >= capacity {
        return Some(LaneFull);
      }
      queue, accepted := queue + [task], accepted + [task];
      error := None;
    }

    // The barrier of a task is lifted.
    method Admit(gate: nat)
      modifies this`open
      ensures View() == Apply(old(View()), Action.Admit(gate))
    {
      open := open + {gate};
    }

    method Close()
      modifies this`closed, this`cancelled
      ensures View() == if old(closed) then old(View()) else Apply(Apply(old(View()), SetClosed), Cancel)
    {
      if closed {
        return;
      }
      closed := true;
      cancelled := true;
    }

    method CloseAdmission()
      requires worker.Leaving?
      modifies this`closed, this`worker
      ensures View() == Apply(old(View()), Action.CloseAdmission)
    {
      closed := true;
      worker := Draining;
    }

    // Aborts what is queued, first come first.
    method DrainQueued()
      requires worker.Draining? && Invariant(View())
      modifies this`queue, this`log
      ensures queue == [] && worker.Draining? && Invariant(View())
      ensures Disposed(log) == old(Disposed(log) + queue) && forall i | old(|log|) <= i < |log| :: log[i].Aborted?
    {
      while queue != []
        invariant worker.Draining? && Invariant(View())
        invariant |old(log)| <= |log| && Disposed(log) + queue == old(Disposed(log) + queue)
        invariant forall i | old(|log|) <= i < |log| :: log[i].Aborted?
        decreases |queue|
      {
        StepKeepsInvariant(View(), DrainTask);
        DisposedNext(log, Aborted(queue[0]));
        TakeKeepsOrder(Disposed(log), queue);
        log := log + [Aborted(queue[0])];
        queue := queue[1..];
      }
    }

    // What the worker does once it leaves its loop: no more tasks are accepted, the queued ones are aborted.
    method Leave()
      requires worker.Leaving? && Invariant(View())
      modifies this`closed, this`worker, this`queue, this`log
      ensures worker.Done? && closed && queue == [] && Invariant(View())
      ensures Disposed(log) == old(Disposed(log) + queue) && forall i | old(|log|) <= i < |log| :: log[i].Aborted?
    {
      StepKeepsInvariant(View(), Action.CloseAdmission);
      CloseAdmission();
      DrainQueued();
      StepKeepsInvariant(View(), Finish);
      worker := Done;
    }

    // The worker waits for a task, for the gate of the task it has, or for the lane to be cancelled.
    predicate Waits()
      reads this
    {
      || (worker.Selecting? && queue == [] && !cancelled)
      || (worker.Waiting? && worker.task.gate.Some? && worker.task.gate.value !in open && !cancelled)
    }

    // The worker's next step before it leaves; where two branches are ready either may be taken.
    method WorkerStep() returns (ghost action: Action)
      requires Invariant(View()) && !Leaves(worker) && !Waits()
      modifies this`queue, this`worker, this`log, this`ended
      ensures IsWorkerAction(action) && Enabled(old(View()), action) && View() == Apply(old(View()), action)
      ensures Invariant(View())
    {
      ghost var before := View();
      var otherBranch: bool := *;
      match worker {
        case Selecting =>
          if cancelled && (otherBranch || queue == []) {
            worker, action := Leaving, TakeDone;
          } else {
            queue, worker, action := queue[1..], Got(queue[0]), TakeTask;
          }
        case Got(t) =>
          action := CheckTask;
          if cancelled {
            AbortTask(t);
          } else {
            worker := Waiting(t);
          }
        case Waiting(t) =>
          var admitted := t.gate.None? || t.gate.value in open;
          if t.gate.None? || (admitted && (otherBranch || !cancelled)) {
            worker, action := Ready(t), PassGate;
          } else {
            action := SeeCancel;
            AbortTask(t);
          }
        case Ready(t) =>
          action := StartTask;
          if cancelled {
            AbortTask(t);
          } else {
            worker, log := Running(t), log + [Ran(t)];
          }
        case Running(_) =>
          worker, ended, action := Selecting, ended + 1, EndTask;
      }
      StepKeepsInvariant(before, action);
    }

    method AbortTask(t: Task)
      modifies this`worker, this`log
      ensures worker == Leaving && log == old(log) + [Aborted(t)]
    {
      log := log + [Aborted(t)];
      worker := Leaving;
    }
  }
}

/**
 One connection of the gateway (runtime/internal/gateway/gateway.go:107-287): its receive loop admits events,
 the lanes of its agents run them, and leaving the loop closes every lane.

 The connection is a state machine over the steps of the receive loop and of the lanes.
 */
module Gateway {
  import opened Common
  import opened AgentTarget
  import opened Lane

  type Key = AgentSessionKey

  const DEFAULT_QUEUE_SIZE := 1

  // An event that was enqueued; the gate is that of its task.
  datatype Admission = Admission(id: string, key: Key, gate: nat)

  // Where the receive loop is.
  datatype Phase = Receiving | Acking(event: Admission) | Remembering(event: Admission) | Releasing(event: Admission)
                 | Closing(left: set<Key>)

  // What the adapter sees and what the agents do, in order.
  datatype Entry = Accepted(id: string, key: Key) | Refused(id: string) | Started(id: string, key: Key)

  // The event of a failed acknowledgement stays enqueued.
  datatype Connection = Connection(phase: Phase, seen: set<string>, lanes: map<Key, Lane>, lost: Option<Admission>,
                                   history: seq<Entry>)

  datatype Move =
    | Receive(id: string, target: Option<Key>)
    | SendAccepted(sent: bool)
    | Remember
    | Release
    | Disconnect
    | CloseLane(key: Key)
    | InLane(key: Key, action: Action)

  const CONNECTED := Connection(Receiving, {}, map[], None, [])

  function LaneOf(c: Connection, k: Key): Lane {
    if k in c.lanes then c.lanes[k] else NewLane(DEFAULT_QUEUE_SIZE)
  }

  predicate CanMove(c: Connection, m: Move) {
    match m
    case Receive(_, _) => c.phase.Receiving?
    case SendAccepted(_) => c.phase.Acking?
    case Remember => c.phase.Remembering?
    case Release => c.phase.Releasing?
    case Disconnect => c.phase.Receiving?
    case CloseLane(k) => c.phase.Closing? && k in c.phase.left
    case InLane(k, a) => k in c.lanes && Enabled(c.lanes[k], a) && (IsWorkerAction(a) || a.Cancel?)
  }

  // An event is refused without an id, when its id was seen, without a target, or when its lane is closed or full.
  function Dispatch(c: Connection, id: string, target: Option<Key>): Connection {
    var refused := c.(history := c.history + [Refused(id)]);
    if id == "" || id in c.seen || target.None? then refused
    else
      var k := target.value;
      var l := LaneOf(c, k);
      if EnqueueError(l).Some? then refused.(lanes := c.lanes[k := l])
      else
        var gate := |l.accepted|;
        c.(lanes := c.lanes[k := Apply(l, Enqueue(Task(id, Some(gate))))], phase := Acking(Admission(id, k, gate)))
  }

  function CloseOf(l: Lane): Lane {
    if l.closed then l else Apply(Apply(l, SetClosed), Cancel)
  }

  function StartedBy(l: Lane, k: Key, a: Action): seq<Entry> {
    if a.StartTask? && l.worker.Ready? && !l.cancelled then [Started(l.worker.task.id, k)] else []
  }

  function Next(c: Connection, m: Move): Connection
    requires CanMove(c, m)
  {
    match m
    case Receive(id, target) => Dispatch(c, id, target)
    case SendAccepted(sent) =>
      var e := c.phase.event;
      if sent then c.(history := c.history + [Accepted(e.id, e.key)], phase := Remembering(e))
      else c.(lost := Some(e), phase := Closing(c.lanes.Keys))
    case Remember => c.(seen := c.seen + {c.phase.event.id}, phase := Releasing(c.phase.event))
    case Release =>
      var e := c.phase.event;
      c.(lanes := c.lanes[e.key := Apply(LaneOf(c, e.key), Admit(e.gate))], phase := Receiving)
    case Disconnect => c.(phase := Closing(c.lanes.Keys))
    case CloseLane(k) => c.(lanes := c.lanes[k := CloseOf(LaneOf(c, k))], phase := Closing(c.phase.left - {k}))
    case InLane(k, a) => c.(lanes := c.lanes[k := Apply(c.lanes[k], a)],
                            history := c.history + StartedBy(c.lanes[k], k, a))
  }

  /* ---- History ---- */

  // The ids accepted for agent k, and those started, in order.
  function AcceptedIds(h: seq<Entry>, k: Key): seq<string> {
    if h == [] then []
    else
      var e := h[|h| - 1];
      AcceptedIds(h[..|h| - 1], k) + if e.Accepted? && e.key == k then [e.id] else []
  }

  function StartedIds(h: seq<Entry>, k: Key): seq<string> {
    if h == [] then []
    else
      var e := h[|h| - 1];
      StartedIds(h[..|h| - 1], k) + if e.Started? && e.key == k then [e.id] else []
  }

  // The ids accepted for any agent, with their number.
  function AllAccepted(h: seq<Entry>): multiset<string> {
    if h == [] then multiset{}
    else
      var e := h[|h| - 1];
      AllAccepted(h[..|h| - 1]) + if e.Accepted? then multiset{e.id} else multiset{}
  }

  lemma HistoryNext(h: seq<Entry>, e: Entry, k: Key)
    ensures AcceptedIds(h + [e], k) == AcceptedIds(h, k) + if e.Accepted? && e.key == k then [e.id] else []
    ensures StartedIds(h + [e], k) == StartedIds(h, k) + if e.Started? && e.key == k then [e.id] else []
    ensures AllAccepted(h + [e]) == AllAccepted(h) + if e.Accepted? then multiset{e.id} else multiset{}
  {
  }

  /* ---- One lane of the connection ---- */

  function Ids(tasks: seq<Task>): (ids: seq<string>)
    ensures |ids| == |tasks|
  {
    seq(|tasks|, i requires 0 <= i < |tasks| => tasks[i].id)
  }

  // The lane holds what was acknowledged and then what is about to be, has opened the gates of acknowledged
  // events only, and has started a prefix of what was acknowledged.
  ghost predicate LaneFits(l: Lane, acked: seq<string>, pending: seq<string>, started: seq<string>) {
    && Invariant(l) && (l.closed ==> l.cancelled) && l.capacity == DEFAULT_QUEUE_SIZE
    && (forall i | 0 <= i < |l.accepted| :: l.accepted[i].gate == Some(i))
    && Ids(l.accepted) == acked + pending
    && (forall g | g in l.open :: g < |acked|)
    && Runs(l.log) <= |acked| && started == acked[..Runs(l.log)]
  }

  lemma {:induction false} AllRuns(log: seq<Disposition>)
    requires AllRan(log)
    ensures Runs(log) == |log|
  {
    if log != [] {
      AllRuns(log[..|log| - 1]);
    }
  }

  // The task in hand is the next accepted one.
  lemma TaskInHand(l: Lane)
    requires Invariant(l) && l.worker.Ready?
    ensures Runs(l.log) == |l.log| < |l.accepted| && l.worker.task == l.accepted[|l.log|]
  {
    AllRuns(l.log);
    assert (Disposed(l.log) + [l.worker.task] + l.queue)[|l.log|] == l.worker.task;
  }

  lemma LaneStarts(l: Lane, acked: seq<string>, pending: seq<string>, started: seq<string>)
    requires LaneFits(l, acked, pending, started) && l.worker.Ready? && !l.cancelled
    ensures LaneFits(Apply(l, StartTask), acked, pending, started + [l.worker.task.id])
  {
    StepKeepsInvariant(l, StartTask);
    DisposedNext(l.log, Ran(l.worker.task));
    TaskInHand(l);
    assert Ids(l.accepted)[|l.log|] == (acked + pending)[|l.log|];
    assert acked[..|l.log| + 1] == acked[..|l.log|] + [acked[|l.log|]];
  }

  lemma LaneIdles(l: Lane, a: Action, acked: seq<string>, pending: seq<string>, started: seq<string>)
    requires LaneFits(l, acked, pending, started) && Enabled(l, a) && (IsWorkerAction(a) || a.Cancel?)
    requires a.StartTask? ==> l.cancelled
    ensures LaneFits(Apply(l, a), acked, pending, started)
  {
    StepKeepsInvariant(l, a);
    RunsStay(l, a);
    StaysClosed(l, a);
  }

  lemma RunsStay(l: Lane, a: Action)
    requires Enabled(l, a) && (a.StartTask? ==> l.cancelled)
    ensures Runs(Apply(l, a).log) == Runs(l.log)
  {
  }

  lemma StaysClosed(l: Lane, a: Action)
    requires Invariant(l) && Enabled(l, a) && (l.closed ==> l.cancelled) && (IsWorkerAction(a) || a.Cancel?)
    ensures var m := Apply(l, a);
      (m.closed ==> m.cancelled) && m.accepted == l.accepted && m.open == l.open && m.capacity == l.capacity
  {
  }

  lemma LaneActs(l: Lane, a: Action, acked: seq<string>, pending: seq<string>, started: seq<string>, k: Key)
    requires LaneFits(l, acked, pending, started) && Enabled(l, a) && (IsWorkerAction(a) || a.Cancel?)
    ensures LaneFits(Apply(l, a), acked, pending, started + if StartedBy(l, k, a) == [] then [] else [l.worker.task.id])
  {
    if StartedBy(l, k, a) == [] {
      LaneIdles(l, a, acked, pending, started);
      assert started + [] == started;
    } else {
      LaneStarts(l, acked, pending, started);
    }
  }

  lemma LaneEnqueues(l: Lane, id: string, acked: seq<string>, started: seq<string>)
    requires LaneFits(l, acked, [], started) && EnqueueError(l).None?
    ensures LaneFits(Apply(l, Enqueue(Task(id, Some(|l.accepted|)))), acked, [id], started)
    ensures |l.accepted| == |acked|
  {
    var t := Task(id, Some(|l.accepted|));
    StepKeepsInvariant(l, Enqueue(t));
    assert Ids(l.accepted + [t]) == Ids(l.accepted) + [id];
  }

  lemma LaneAdmits(l: Lane, gate: nat, acked: seq<string>, pending: seq<string>, started: seq<string>)
    requires LaneFits(l, acked, pending, started) && gate < |acked|
    ensures LaneFits(Apply(l, Admit(gate)), acked, pending, started)
  {
  }

  lemma LaneCloses(l: Lane, acked: seq<string>, pending: seq<string>, started: seq<string>)
    requires LaneFits(l, acked, pending, started)
    ensures LaneFits(CloseOf(l), acked, pending, started) && CloseOf(l).cancelled
  {
  }

  /* ---- The connection ---- */

  // The event of agent k that is enqueued and not acknowledged.
  function PendingIds(c: Connection, k: Key): seq<string> {
    if c.phase.Acking? && c.phase.event.key == k then [c.phase.event.id]
    else if c.lost.Some? && c.lost.value.key == k then [c.lost.value.id]
    else []
  }

  ghost predicate AgentFits(c: Connection, k: Key) {
    LaneFits(LaneOf(c, k), AcceptedIds(c.history, k), PendingIds(c, k), StartedIds(c.history, k))
  }

  ghost predicate AcceptedOnce(c: Connection) {
    forall id ::
        AllAccepted(c.history)[id] == if id in c.seen || (c.phase.Remembering? && c.phase.event.id == id) then 1 else 0
  }

  ghost predicate PhaseFits(c: Connection) {
    && (c.lost.Some? ==> c.phase.Closing?)
    && match c.phase
       case Receiving => true
       case Acking(e) => e.id !in c.seen && e.key in c.lanes && e.gate == |AcceptedIds(c.history, e.key)|
       case Remembering(e) => e.id !in c.seen && e.key in c.lanes && e.gate < |AcceptedIds(c.history, e.key)|
       case Releasing(e) => e.key in c.lanes && e.gate < |AcceptedIds(c.history, e.key)|
       case Closing(left) => left <= c.lanes.Keys && forall k | k in c.lanes && k !in left :: c.lanes[k].cancelled
  }

  // At every moment the events started for an agent are the first of those acknowledged for it.
  ghost predicate StartsFollowAcks(h: seq<Entry>) {
    (forall k :: StartedIds(h, k) <= AcceptedIds(h, k)) && (h == [] || StartsFollowAcks(h[..|h| - 1]))
  }

  ghost predicate Fits(c: Connection) {
    (forall k :: AgentFits(c, k)) && AcceptedOnce(c) && PhaseFits(c) && StartsFollowAcks(c.history)
  }

  // A move adds at most one entry to the history.
  lemma HistoryGrows(c: Connection, m: Move)
    requires CanMove(c, m)
    ensures Next(c, m).history == c.history || exists e :: Next(c, m).history == c.history + [e]
  {
  }

  // Nothing about agent k has changed.
  ghost predicate SameAgent(c: Connection, d: Connection, k: Key) {
    && LaneOf(d, k) == LaneOf(c, k) && PendingIds(d, k) == PendingIds(c, k)
    && AcceptedIds(d.history, k) == AcceptedIds(c.history, k) && StartedIds(d.history, k) == StartedIds(c.history, k)
  }

  lemma AgentFitsIf(d: Connection, k: Key, l: Lane, acked: seq<string>, pending: seq<string>, started: seq<string>)
    requires LaneFits(l, acked, pending, started) && LaneOf(d, k) == l
    requires AcceptedIds(d.history, k) == acked && PendingIds(d, k) == pending && StartedIds(d.history, k) == started
    ensures AgentFits(d, k)
  {
  }

  lemma ReceiveKeepsAgent(c: Connection, id: string, target: Option<Key>, k: Key)
    requires AgentFits(c, k) && PhaseFits(c) && c.phase.Receiving?
    ensures AgentFits(Dispatch(c, id, target), k)
  {
    var d, l, acked, started := Dispatch(c, id, target), LaneOf(c, k), AcceptedIds(c.history, k),
        StartedIds(c.history, k);
    HistoryNext(c.history, Refused(id), k);
    if d.phase.Acking? && target == Some(k) {
      LaneEnqueues(l, id, acked, started);
      AgentFitsIf(d, k, Apply(l, Enqueue(Task(id, Some(|l.accepted|)))), acked, [id], started);
    } else {
      AgentFitsIf(d, k, l, acked, [], started);
    }
  }

  lemma SendKeepsAgent(c: Connection, sent: bool, k: Key)
    requires AgentFits(c, k) && PhaseFits(c) && c.phase.Acking?
    ensures AgentFits(Next(c, SendAccepted(sent)), k)
  {
  }

  lemma ReleaseKeepsAgent(c: Connection, k: Key)
    requires AgentFits(c, k) && PhaseFits(c) && c.phase.Releasing?
    ensures AgentFits(Next(c, Release), k)
  {
    if c.phase.event.key == k {
      LaneAdmits(LaneOf(c, k), c.phase.event.gate, AcceptedIds(c.history, k), PendingIds(c, k),
                 StartedIds(c.history, k));
    } else {
      assert SameAgent(c, Next(c, Release), k);
    }
  }

  lemma CloseKeepsAgent(c: Connection, key: Key, k: Key)
    requires AgentFits(c, k) && PhaseFits(c) && CanMove(c, CloseLane(key))
    ensures AgentFits(Next(c, CloseLane(key)), k)
  {
    if key == k {
      LaneCloses(LaneOf(c, k), AcceptedIds(c.history, k), PendingIds(c, k), StartedIds(c.history, k));
    } else {
      assert SameAgent(c, Next(c, CloseLane(key)), k);
    }
  }

  lemma StartedNext(h: seq<Entry>, l: Lane, key: Key, a: Action, k: Key)
    ensures AcceptedIds(h + StartedBy(l, key, a), k) == AcceptedIds(h, k)
    ensures AllAccepted(h + StartedBy(l, key, a)) == AllAccepted(h)
    ensures StartedIds(h + StartedBy(l, key, a), k) ==
      StartedIds(h, k) + if key != k || StartedBy(l, key, a) == [] then [] else [l.worker.task.id]
  {
    if StartedBy(l, key, a) == [] {
      assert h + [] == h;
    } else {
      HistoryNext(h, Started(l.worker.task.id, key), k);
    }
  }

  lemma OwnLaneKeepsAgent(c: Connection, k: Key, a: Action)
    requires AgentFits(c, k) && CanMove(c, InLane(k, a))
    ensures AgentFits(Next(c, InLane(k, a)), k)
  {
    var l := c.lanes[k];
    var acked, pending, started := AcceptedIds(c.history, k), PendingIds(c, k), StartedIds(c.history, k);
    StartedNext(c.history, l, k, a, k);
    LaneActs(l, a, acked, pending, started, k);
    AgentFitsIf(Next(c, InLane(k, a)), k, Apply(l, a), acked, pending, started + if StartedBy(l, k, a) == []
                then [] else [l.worker.task.id]);
  }

  lemma InLaneKeepsAgent(c: Connection, key: Key, a: Action, k: Key)
    requires AgentFits(c, k) && CanMove(c, InLane(key, a))
    ensures AgentFits(Next(c, InLane(key, a)), k)
  {
    if key == k {
      OwnLaneKeepsAgent(c, k, a);
    } else {
      StartedNext(c.history, c.lanes[key], key, a, k);
      assert StartedIds(c.history, k) + [] == StartedIds(c.history, k);
      assert SameAgent(c, Next(c, InLane(key, a)), k);
    }
  }

  lemma MoveKeepsAgent(c: Connection, m: Move, k: Key)
    requires AgentFits(c, k) && PhaseFits(c) && CanMove(c, m)
    ensures AgentFits(Next(c, m), k)
  {
    match m
    case Receive(id, target) => ReceiveKeepsAgent(c, id, target, k);
    case SendAccepted(sent) => SendKeepsAgent(c, sent, k);
    case Release => ReleaseKeepsAgent(c, k);
    case CloseLane(key) => CloseKeepsAgent(c, key, k);
    case InLane(key, a) => InLaneKeepsAgent(c, key, a, k);
    case Remember => assert SameAgent(c, Next(c, m), k);
    case Disconnect => assert SameAgent(c, Next(c, m), k);
  }

  lemma SameAcceptance(c: Connection, d: Connection)
    requires AcceptedOnce(c) && AllAccepted(d.history) == AllAccepted(c.history) && d.seen == c.seen
    requires (!c.phase.Remembering? && !d.phase.Remembering?) || d.phase == c.phase
    ensures AcceptedOnce(d)
  {
  }

  lemma AckKeepsAcceptance(c: Connection, sent: bool)
    requires AcceptedOnce(c) && PhaseFits(c) && c.phase.Acking?
    ensures AcceptedOnce(Next(c, SendAccepted(sent)))
  {
  }

  lemma MoveKeepsAcceptance(c: Connection, m: Move)
    requires AcceptedOnce(c) && PhaseFits(c) && CanMove(c, m)
    ensures AcceptedOnce(Next(c, m))
  {
    var k := AgentSessionKey("", "", "");
    match m
    case Receive(id, target) =>
      HistoryNext(c.history, Refused(id), k);
      SameAcceptance(c, Next(c, m));
    case SendAccepted(sent) => AckKeepsAcceptance(c, sent);
    case InLane(key, a) =>
      StartedNext(c.history, c.lanes[key], key, a, k);
      SameAcceptance(c, Next(c, m));
    case Remember =>
    case _ => SameAcceptance(c, Next(c, m));
  }

  lemma MoveKeepsPhase(c: Connection, m: Move)
    requires Fits(c) && CanMove(c, m)
    ensures PhaseFits(Next(c, m))
  {
    match m
    case Receive(id, target) =>
      if Next(c, m).phase.Acking? {
        assert AgentFits(c, target.value);
        LaneEnqueues(LaneOf(c, target.value), id, AcceptedIds(c.history, target.value),
                     StartedIds(c.history, target.value));
      }
    case SendAccepted(sent) =>
      HistoryNext(c.history, Accepted(c.phase.event.id, c.phase.event.key), c.phase.event.key);
    case CloseLane(key) =>
      assert AgentFits(c, key);
      LaneCloses(LaneOf(c, key), AcceptedIds(c.history, key), PendingIds(c, key), StartedIds(c.history, key));
    case InLane(key, a) =>
      InLaneKeepsPhase(c, key, a);
    case _ =>
  }

  lemma InLaneKeepsPhase(c: Connection, key: Key, a: Action)
    requires PhaseFits(c) && CanMove(c, InLane(key, a))
    ensures PhaseFits(Next(c, InLane(key, a)))
  {
    var l := c.lanes[key];
    if c.phase.Acking? || c.phase.Remembering? || c.phase.Releasing? {
      StartedNext(c.history, l, key, a, c.phase.event.key);
    }
  }

  lemma AgentStartsInOrder(c: Connection, k: Key)
    requires AgentFits(c, k)
    ensures StartedIds(c.history, k) <= AcceptedIds(c.history, k)
  {
  }

  lemma OrderGrows(h: seq<Entry>, d: Connection)
    requires StartsFollowAcks(h) && (d.history == h || exists e :: d.history == h + [e])
    requires forall k :: StartedIds(d.history, k) <= AcceptedIds(d.history, k)
    ensures StartsFollowAcks(d.history)
  {
    if d.history != h {
      var e :| d.history == h + [e];
      assert d.history[..|d.history| - 1] == h;
    }
  }

  lemma MoveKeepsOrder(c: Connection, m: Move)
    requires Fits(c) && CanMove(c, m)
    ensures StartsFollowAcks(Next(c, m).history)
  {
    var d := Next(c, m);
    forall k
      ensures StartedIds(d.history, k) <= AcceptedIds(d.history, k)
    {
      MoveKeepsAgent(c, m, k);
      AgentStartsInOrder(d, k);
    }
    HistoryGrows(c, m);
    OrderGrows(c.history, d);
  }

  lemma MoveKeepsFit(c: Connection, m: Move)
    requires Fits(c) && CanMove(c, m)
    ensures Fits(Next(c, m))
  {
    forall k
      ensures AgentFits(Next(c, m), k)
    {
      MoveKeepsAgent(c, m, k);
    }
    MoveKeepsAcceptance(c, m);
    MoveKeepsPhase(c, m);
    MoveKeepsOrder(c, m);
  }

  /* ---- Runs of a connection ---- */

  ghost predicate IsRun(c: Connection, moves: seq<Move>)
    decreases |moves|
  {
    moves == [] || (CanMove(c, moves[0]) && IsRun(Next(c, moves[0]), moves[1..]))
  }

  ghost function After(c: Connection, moves: seq<Move>): Connection
    requires IsRun(c, moves)
    decreases |moves|
  {
    if moves == [] then c else After(Next(c, moves[0]), moves[1..])
  }

  lemma ConnectedFits()
    ensures Fits(CONNECTED) && GatesFit(CONNECTED)
  {
  }

  lemma {:induction false} RunKeepsFit(c: Connection, moves: seq<Move>)
    requires Fits(c) && IsRun(c, moves)
    ensures Fits(After(c, moves))
    decreases |moves|
  {
    if moves != [] {
      MoveKeepsFit(c, moves[0]);
      RunKeepsFit(Next(c, moves[0]), moves[1..]);
    }
  }

  lemma {:induction false} AcceptedAt(h: seq<Entry>, k: Key, i: nat) returns (m: nat)
    requires i < |AcceptedIds(h, k)|
    ensures m < |h| && h[m] == Accepted(AcceptedIds(h, k)[i], k)
  {
    var before := AcceptedIds(h[..|h| - 1], k);
    if i < |before| {
      m := AcceptedAt(h[..|h| - 1], k, i);
    } else {
      m := |h| - 1;
    }
  }

  lemma {:induction false} OrderAt(h: seq<Entry>, n: nat)
    requires StartsFollowAcks(h) && n <= |h|
    ensures StartsFollowAcks(h[..n])
    decreases |h|
  {
    if n < |h| {
      OrderAt(h[..|h| - 1], n);
      assert h[..|h| - 1][..n] == h[..n];
    } else {
      assert h[..n] == h;
    }
  }

  // The turn of an event starts only after its acknowledgement was sent; so an event that was refused or never
  // acknowledged does not run.
  lemma StartComesAfterAck(c: Connection, n: nat) returns (m: nat)
    requires Fits(c) && n < |c.history| && c.history[n].Started?
    ensures m < n && c.history[m] == Accepted(c.history[n].id, c.history[n].key)
  {
    var h, k := c.history[..n + 1], c.history[n].key;
    OrderAt(c.history, n + 1);
    assert h[..n] == c.history[..n];
    var i := |StartedIds(h, k)| - 1;
    assert StartedIds(h, k)[i] == c.history[n].id && StartedIds(h, k) <= AcceptedIds(h, k);
    m := AcceptedAt(h, k, i);
    assert h[m] == c.history[m];
  }

  // The events of one agent start in the order in which they were acknowledged.
  lemma StartsInAckOrder(c: Connection, k: Key)
    requires Fits(c)
    ensures StartedIds(c.history, k) <= AcceptedIds(c.history, k)
  {
  }

  function CountAccepted(h: seq<Entry>, k: Key, id: string): nat {
    multiset(AcceptedIds(h, k))[id]
  }

  lemma {:induction false} AgentsShareAccepted(h: seq<Entry>, j: Key, k: Key, id: string)
    ensures CountAccepted(h, k, id) <= AllAccepted(h)[id]
    ensures j != k ==> CountAccepted(h, j, id) + CountAccepted(h, k, id) <= AllAccepted(h)[id]
  {
    if h != [] {
      AgentsShareAccepted(h[..|h| - 1], j, k, id);
    }
  }

  lemma {:induction false} StartedCount(h: seq<Entry>, k: Key, i: nat)
    requires i < |h| && h[i].Started? && h[i].key == k
    ensures multiset(StartedIds(h, k))[h[i].id] >= 1
    decreases |h|
  {
    if i < |h| - 1 {
      StartedCount(h[..|h| - 1], k, i);
    }
  }

  lemma {:induction false} StartedTwice(h: seq<Entry>, k: Key, j: nat, i: nat)
    requires j < i < |h| && h[i].Started? && h[i].key == k && h[j] == h[i]
    ensures multiset(StartedIds(h, k))[h[i].id] >= 2
    decreases |h|
  {
    var before := h[..|h| - 1];
    if i < |h| - 1 {
      StartedTwice(before, k, j, i);
    } else {
      StartedCount(before, k, j);
    }
  }

  lemma PrefixCount(a: seq<string>, b: seq<string>, id: string)
    requires a <= b
    ensures multiset(a)[id] <= multiset(b)[id]
  {
    assert b == a + b[|a|..];
  }

  lemma StartedIsAccepted(h: seq<Entry>, k: Key, i: nat)
    requires StartsFollowAcks(h) && i < |h| && h[i].Started? && h[i].key == k
    ensures CountAccepted(h, k, h[i].id) >= 1
    ensures forall j | 0 <= j < i && h[j] == h[i] :: CountAccepted(h, k, h[i].id) >= 2
  {
    StartedCount(h, k, i);
    forall j | 0 <= j < i && h[j] == h[i]
      ensures multiset(StartedIds(h, k))[h[i].id] >= 2
    {
      StartedTwice(h, k, j, i);
    }
    PrefixCount(StartedIds(h, k), AcceptedIds(h, k), h[i].id);
  }

  // On one connection an event id is acknowledged at most once and started at most once, for whatever agent.
  lemma EventsRunOnce(c: Connection, i: nat, j: nat)
    requires Fits(c) && j < i < |c.history|
    ensures c.history[i].Started? && c.history[j].Started? ==> c.history[i].id != c.history[j].id
    ensures AllAccepted(c.history)[c.history[i].id] <= 1
  {
    var h, id := c.history, c.history[i].id;
    if h[i].Started? && h[j].Started? && h[i].id == h[j].id {
      StartedIsAccepted(h, h[i].key, i);
      StartedIsAccepted(h, h[j].key, j);
      AgentsShareAccepted(h, h[j].key, h[i].key, id);
      assert false;
    }
  }

  // For each agent one event may be running and one queued behind it.
  lemma OneRunsAndOneWaits(c: Connection, k: Key)
    requires Fits(c) && k in c.lanes
    ensures var l := c.lanes[k];
      |l.queue| <= 1 && l.capacity == 1 && |l.accepted| - l.ended - Aborts(l.log) <= 2
  {
    assert AgentFits(c, k);
    OutstandingIsBounded(c.lanes[k]);
  }

  // When the loop has closed its lanes every one of them is cancelled, and there are no new ones.
  lemma NoLaneOutlivesStore(c: Connection, m: Move)
    requires Fits(c) && c.phase == Closing({}) && CanMove(c, m)
    ensures forall k | k in c.lanes :: c.lanes[k].cancelled
    ensures Next(c, m).phase == Closing({}) && Next(c, m).lanes.Keys == c.lanes.Keys
  {
  }

  /* ---- Acknowledged events run ---- */

  // The gate of an acknowledged event is open, unless the receive loop is about to open it.
  ghost predicate GateFits(c: Connection, k: Key, i: nat) {
    i < |AcceptedIds(c.history, k)| ==>
      || i in LaneOf(c, k).open
      || ((c.phase.Remembering? || c.phase.Releasing?) && c.phase.event.key == k && c.phase.event.gate == i)
  }

  ghost predicate GatesFit(c: Connection) {
    forall k, i: nat :: GateFits(c, k, i)
  }

  lemma OpenStays(l: Lane, a: Action)
    requires Enabled(l, a)
    ensures l.open <= Apply(l, a).open && CloseOf(l).open == l.open
  {
  }

  lemma MoveKeepsGate(c: Connection, m: Move, k: Key, i: nat)
    requires Fits(c) && CanMove(c, m) && GateFits(c, k, i)
    ensures GateFits(Next(c, m), k, i)
  {
    match m
    case Receive(id, target) => HistoryNext(c.history, Refused(id), k);
    case SendAccepted(sent) => SendKeepsGate(c, sent, k, i);
    case InLane(key, a) =>
      StartedNext(c.history, c.lanes[key], key, a, k);
      OpenStays(c.lanes[key], a);
    case CloseLane(key) => OpenStays(LaneOf(c, key), Cancel);
    case _ =>
  }

  lemma SendKeepsGate(c: Connection, sent: bool, k: Key, i: nat)
    requires Fits(c) && CanMove(c, SendAccepted(sent)) && GateFits(c, k, i)
    ensures GateFits(Next(c, SendAccepted(sent)), k, i)
  {
    HistoryNext(c.history, Accepted(c.phase.event.id, c.phase.event.key), k);
  }

  lemma {:induction false} RunKeepsGates(c: Connection, moves: seq<Move>)
    requires Fits(c) && GatesFit(c) && IsRun(c, moves)
    ensures GatesFit(After(c, moves))
    decreases |moves|
  {
    if moves != [] {
      forall k, i: nat
        ensures GateFits(Next(c, moves[0]), k, i)
      {
        MoveKeepsGate(c, moves[0], k, i);
      }
      MoveKeepsFit(c, moves[0]);
      RunKeepsGates(Next(c, moves[0]), moves[1..]);
    }
  }

  lemma TaskWaits(l: Lane)
    requires Invariant(l) && l.worker.Waiting?
    ensures |l.log| < |l.accepted| && l.worker.task == l.accepted[|l.log|]
  {
    assert (Disposed(l.log) + [l.worker.task] + l.queue)[|l.log|] == l.worker.task;
  }

  // While the loop receives, the worker of an open lane with work to do can go on, whichever agent it is for; so
  // every event that was acknowledged starts.
  lemma AcknowledgedMove(c: Connection, k: Key) returns (a: Action)
    requires Fits(c) && GatesFit(c) && c.phase.Receiving? && k in c.lanes && !c.lanes[k].cancelled
    requires |StartedIds(c.history, k)| < |AcceptedIds(c.history, k)|
    ensures IsWorkerAction(a) && CanMove(c, InLane(k, a))
    ensures var d := Next(c, InLane(k, a));
      !d.lanes[k].cancelled && WorkLeft(d.lanes[k]) < WorkLeft(c.lanes[k]) && AllRan(d.lanes[k].log)
  {
    assert AgentFits(c, k);
    var l := c.lanes[k];
    if l.worker.Waiting? {
      TaskWaits(l);
      assert GateFits(c, k, |l.log|);
    }
    AllRuns(l.log);
    a := OpenLaneMoves(l);
    OpenLaneProgresses(l, a);
  }

  /* ---- The lanes of a connection as objects ---- */

  class LaneStore {
    const queueSize: nat
    var lanes: map<Key, ExecutionLane>
    var closed: bool

    // No two agents share a lane.
    ghost predicate Separate()
      reads this`lanes
    {
      forall j, k | j in lanes && k in lanes && j != k :: lanes[j] != lanes[k]
    }

    constructor (queueSize: nat)
      ensures lanes == map[] && !closed && this.queueSize == queueSize && Separate()
    {
      this.queueSize, lanes, closed := queueSize, map[], false;
    }

    ghost function Views(): map<Key, Lane>
      reads this`lanes, lanes.Values
    {
      map k | k in lanes :: lanes[k].View()
    }

    method GetOrCreate(key: Key) returns (lane: Option<ExecutionLane>)
      modifies this`lanes
      ensures lane.None? <==> old(closed)
      ensures closed ==> lanes == old(lanes)
      ensures !closed && key in old(lanes) ==> lanes == old(lanes) && lane == Some(lanes[key])
      ensures old(Separate()) ==> Separate()
      ensures Views() == if closed || key in old(lanes) then old(Views()) else old(Views())[key := NewLane(queueSize)]
      ensures lane.Some? ==>
        key in lanes && lanes[key] == lane.value && (lane.value in old(lanes.Values) || fresh(lane.value))
      ensures lane.Some? ==> key in Views() && Views()[key] == lane.value.View()
      ensures !closed && key !in old(lanes) ==>
        fresh(lane.value) && lane.value.View() == NewLane(queueSize) && lanes == old(lanes)[key := lane.value]
    {
      if closed {
        return None;
      }
      if key in lanes {
        return Some(lanes[key]);
      }
      var created := new ExecutionLane(queueSize);
      lanes := lanes[key := created];
      lane := Some(created);
    }

    // Closes every lane, as the moves CloseLane do; one that is closed already is left to whoever closed it.
    method Close()
      requires Separate()
      modifies this`closed, lanes.Values
      ensures closed && lanes == old(lanes)
      ensures Views() == if old(closed) then old(Views()) else ClosedViews(old(Views()), {})
    {
      if closed {
        return;
      }
      closed := true;
      CloseAll();
    }

    method CloseAll()
      requires Separate()
      modifies lanes.Values
      ensures Views() == ClosedViews(old(Views()), {})
    {
      ghost var before := Views();
      NoneClosed(before);
      var left := lanes.Keys;
      while left != {}
        invariant left <= before.Keys && Views() == ClosedViews(before, left)
        decreases |left|
      {
        var k :| k in left;
        CloseOneMore(before, left, k);
        CloseLaneOf(k);
        left := left - {k};
      }
    }

    method CloseLaneOf(k: Key)
      requires Separate() && k in Views()
      modifies lanes[k]
      ensures Views() == old(Views())[k := CloseOf(old(Views())[k])]
    {
      assert forall j | j in lanes && j != k :: lanes[j] != lanes[k];
      lanes[k].Close();
    }
  }

  // The lanes once those that are not left are closed.
  function ClosedViews(views: map<Key, Lane>, left: set<Key>): map<Key, Lane> {
    map k | k in views :: if k in left then views[k] else CloseOf(views[k])
  }

  lemma NoneClosed(views: map<Key, Lane>)
    ensures ClosedViews(views, views.Keys) == views
  {
  }

  lemma CloseOneMore(views: map<Key, Lane>, left: set<Key>, k: Key)
    requires k in left && k in views
    ensures k in ClosedViews(views, left)
    ensures ClosedViews(views, left)[k := CloseOf(ClosedViews(views, left)[k])] == ClosedViews(views, left - {k})
  {
  }

  // The lane of an event that was enqueued, and let go once its acknowledgement was sent.
  function OfferedTo(l: Lane, id: string, sent: bool): Lane
    requires EnqueueError(l).None?
  {
    var offered := Apply(l, Enqueue(Task(id, Some(|l.accepted|))));
    if sent then Apply(offered, Admit(|l.accepted|)) else offered
  }

  predicate Admits(c: Connection, id: string, k: Key) {
    c.phase.Receiving? && id != "" && id !in c.seen && EnqueueError(LaneOf(c, k)).None?
  }

  // The connection after an event was admitted, in the one sequence of moves that admits it.
  function Admitted(c: Connection, id: string, k: Key): Connection
    requires Admits(c, id, k)
  {
    c.(lanes := c.lanes[k := OfferedTo(LaneOf(c, k), id, true)],
       seen := c.seen + {id}, history := c.history + [Accepted(id, k)])
  }

  // The lane of the agent is open and not full, whatever its worker does, or there is none yet.
  ghost predicate HasRoom(lanes: map<Key, Lane>, k: Key) {
    k in lanes ==> !lanes[k].closed && |lanes[k].queue| < lanes[k].capacity
  }

  // The event is the last one in the queue of its agent, and the other lanes are as they were.
  ghost predicate Queues(before: map<Key, Lane>, after: map<Key, Lane>, k: Key, id: string) {
    && after.Keys == before.Keys + {k} && (forall j | j in before && j != k :: after[j] == before[j])
    && after[k].queue != [] && after[k].queue[|after[k].queue| - 1].id == id
    && after[k].queue[..|after[k].queue| - 1] == if k in before then before[k].queue else []
  }

  lemma AdmitsTells(c: Connection, id: string, k: Key)
    ensures Admits(c, id, k) <==> c.phase.Receiving? && id != "" && id !in c.seen && HasRoom(c.lanes, k)
    ensures Admits(c, id, k) ==>
      forall sent :: Queues(c.lanes, c.lanes[k := OfferedTo(LaneOf(c, k), id, sent)], k, id)
  {
  }

  datatype AckStatus = AckAccepted | AckDuplicate | AckRejected

  // An event that is new to the connection, on the lane of its agent.
  ghost predicate Routed(c: Connection, id: string, k: Key, sent: bool, closed: bool, ack: AckStatus,
                         views: map<Key, Lane>, seen: set<string>) {
    var l := LaneOf(c, k);
    if closed then ack == AckRejected && views == c.lanes && seen == c.seen
    else if EnqueueError(l).Some? then ack == AckRejected && views == c.lanes[k := l] && seen == c.seen
    else
      && ack == AckAccepted && views == c.lanes[k := OfferedTo(l, id, sent)]
      && seen == if sent then c.seen + {id} else c.seen
  }

  lemma OfferIsRouted(c: Connection, id: string, k: Key, sent: bool, ack: AckStatus, found: map<Key, Lane>, l: Lane,
                      views: map<Key, Lane>, seen: set<string>)
    requires found == (if k in c.lanes then c.lanes else c.lanes[k := NewLane(DEFAULT_QUEUE_SIZE)]) && k in found
    requires l == found[k]
    requires if EnqueueError(l).Some? then ack == AckRejected && seen == c.seen && views == found
             else
               && ack == AckAccepted && seen == (if sent then c.seen + {id} else c.seen)
               && views == found[k := OfferedTo(l, id, sent)]
    ensures Routed(c, id, k, sent, false, ack, views, seen)
  {
  }

  lemma RoutedMoves(c: Connection, id: string, k: Key, sent: bool, ack: AckStatus, views: map<Key, Lane>,
                    seen: set<string>)
    requires c.phase.Receiving? && id != "" && id !in c.seen && Routed(c, id, k, sent, false, ack, views, seen)
    ensures ack == AckAccepted <==> Admits(c, id, k)
    ensures ack != AckAccepted ==>
      c.(seen := seen, lanes := views, history := c.history + [Refused(id)]) == Next(c, Receive(id, Some(k)))
    ensures ack == AckAccepted && sent ==>
      c.(seen := seen, lanes := views, history := c.history + [Accepted(id, k)]) == Admitted(c, id, k)
    ensures ack == AckAccepted && !sent ==> seen == c.seen && views == Next(c, Receive(id, Some(k))).lanes
  {
  }

  lemma AdmissionMoves(c: Connection, id: string, k: Key)
    requires Admits(c, id, k)
    ensures IsRun(c, [Receive(id, Some(k)), SendAccepted(true), Remember, Release])
    ensures After(c, [Receive(id, Some(k)), SendAccepted(true), Remember, Release]) == Admitted(c, id, k)
  {
    var c1 := Next(c, Receive(id, Some(k)));
    var c2 := Next(c1, SendAccepted(true));
    var c3 := Next(c2, Remember);
    MoveOf(c3, Release, []);
    MoveOf(c2, Remember, [Release]);
    MoveOf(c1, SendAccepted(true), [Remember, Release]);
    MoveOf(c, Receive(id, Some(k)), [SendAccepted(true), Remember, Release]);
    assert Next(c3, Release) == Admitted(c, id, k);
  }

  lemma MoveOf(c: Connection, m: Move, rest: seq<Move>)
    requires CanMove(c, m) && IsRun(Next(c, m), rest)
    ensures IsRun(c, [m] + rest) && After(c, [m] + rest) == After(Next(c, m), rest)
  {
    assert ([m] + rest)[1..] == rest;
  }

  class Receiver {
    const store: LaneStore
    var seen: set<string>

    constructor (store: LaneStore)
      ensures this.store == store && seen == {}
    {
      this.store, seen := store, {};
    }

    // The connection between two messages, with what has been acknowledged and started so far.
    ghost function View(history: seq<Entry>): Connection
      reads this, store, store.lanes.Values
    {
      Connection(Receiving, seen, store.Views(), None, history)
    }

    // The moves of the receive loop for one event in a row: it is refused, or it is admitted, or the
    // acknowledgement of an event that was enqueued does not reach the adapter.
    method DispatchGameEvent(id: string, target: Option<Key>, sent: bool, ghost history: seq<Entry>)
      returns (ack: AckStatus)
      requires store.Separate() && store.queueSize == DEFAULT_QUEUE_SIZE
      modifies this`seen, store`lanes, store.lanes.Values
      ensures store.Separate()
      ensures ack == AckDuplicate <==> id != "" && id in old(seen)
      ensures ack == AckAccepted <==>
        && !store.closed && id != "" && id !in old(seen) && target.Some?
        && HasRoom(old(store.Views()), target.value)
      ensures ack == AckAccepted ==> Queues(old(store.Views()), store.Views(), target.value, id)
      ensures store.closed ==> View(history) == old(View(history))
      ensures !store.closed && ack != AckAccepted ==>
        View(history + [Refused(id)]) == Next(old(View(history)), Receive(id, target))
      ensures ack == AckAccepted && sent ==>
        View(history + [Accepted(id, target.value)]) == Admitted(old(View(history)), id, target.value)
      ensures ack == AckAccepted && !sent ==>
        seen == old(seen) && store.Views() == Next(old(View(history)), Receive(id, target)).lanes
    {
      if id == "" {
        return AckRejected;
      }
      if id in seen {
        return AckDuplicate;
      }
      if target.None? {
        return AckRejected;
      }
      ghost var c := View(history);
      ack := Route(id, target.value, sent, c);
      if !store.closed {
        RoutedMoves(c, id, target.value, sent, ack, store.Views(), seen);
        AdmitsTells(c, id, target.value);
      }
    }

    // Takes an event that is new to the lane of its agent.
    method Route(id: string, k: Key, sent: bool, ghost c: Connection) returns (ack: AckStatus)
      requires store.Separate() && store.queueSize == DEFAULT_QUEUE_SIZE && id != "" && id !in seen
      requires c.seen == seen && c.lanes == store.Views()
      modifies this`seen, store`lanes, store.lanes.Values
      ensures store.Separate() && Routed(c, id, k, sent, store.closed, ack, store.Views(), seen)
    {
      var lane := store.GetOrCreate(k);
      if lane.None? {
        return AckRejected;
      }
      ghost var views, l := store.Views(), lane.value.View();
      ack := Offer(id, k, lane.value, sent);
      OfferIsRouted(c, id, k, sent, ack, views, l, store.Views(), seen);
    }

    // Enqueues the event; once its acknowledgement was sent it is remembered and its task is let go.
    method Offer(id: string, k: Key, lane: ExecutionLane, sent: bool) returns (ack: AckStatus)
      requires store.Separate() && k in store.lanes && store.lanes[k] == lane && id !in seen
      modifies this`seen, lane
      ensures var l := old(lane.View());
        if EnqueueError(l).Some? then ack == AckRejected && seen == old(seen) && store.Views() == old(store.Views())
        else
          && ack == AckAccepted && seen == (if sent then old(seen) + {id} else old(seen))
          && store.Views() == old(store.Views())[k := OfferedTo(l, id, sent)]
    {
      var gate := |lane.accepted|;
      var error := lane.Enqueue(Task(id, Some(gate)));
      if error.Some? {
        return AckRejected;
      }
      if sent {
        seen := seen + {id};
        lane.Admit(gate);
      }
      ack := AckAccepted;
    }
  }
}

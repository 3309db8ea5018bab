/**
 How calls to the adapter meet its replies (runtime/internal/gateway/stream_environment.go).  Each call
 registers a slot with small buffered channels; the receive loop delivers into the slots; the caller takes what
 is there or gives up when its context is done.

 The environment is a state machine over the atomic steps of the callers and of the receive loop.  Where a
 select has several branches ready, each is a step of its own.
 */
module StreamEnvironment {
  import opened Common
  import BatchProtocol

  const UPDATE_CAPACITY := 8

  datatype ActionReply = ActionReply(actionId: string, result: BatchProtocol.ActionResult)

  datatype ActionUpdate = ActionUpdate(actionId: string, starts: bool)

  datatype Observation = Observation(worldId: string, entityId: string, revision: nat)

  datatype CallError = ContextDone | SendFailed | StreamClosed | AdapterFailed(code: string) | ScopeMismatch

  // Where a call is; one that starts an action returns at its first start update and is waited for later.
  datatype Stage = Sending(starts: bool) | Submitting | Starting | Started(update: ActionUpdate) | Waiting
                 | Returned(reply: Result<ActionReply, CallError>)

  // The deliveries are the history of the slot.
  datatype ActionSlot = ActionSlot(
    id: string, stage: Stage, updates: seq<Result<ActionUpdate, CallError>>,
    results: Option<Result<ActionReply, CallError>>,
    delivered: seq<ActionReply>, deliveredUpdates: seq<ActionUpdate>)

  datatype ObservationStage = Asking | Expecting | Answered(reply: Result<Observation, CallError>)

  datatype ObservationSlot = ObservationSlot(worldId: string, entityId: string, stage: ObservationStage,
                                             channel: Option<Result<Observation, CallError>>)

  // A delivery into a full observation channel holds up the receive loop.
  datatype Held = Held(slot: nat, value: Result<Observation, CallError>)

  datatype Env = Env(
    pendingActions: map<string, nat>, actions: seq<ActionSlot>,
    pendingObservations: set<nat>, observations: seq<ObservationSlot>, held: Option<Held>)

  const NEW_ENV := Env(map[], [], {}, [], None)

  datatype Step =
    // Callers of actions.
    | Register(id: string, starts: bool)
    | Sent(slot: nat, ok: bool)
    | TakeResult(slot: nat)
    | TakeUpdate(slot: nat)
    | Wait(id: string, expired: bool)
    | Expire(slot: nat)
    // Callers of observations.
    | Observe(worldId: string, entityId: string)
    | ObserveSent(slot: nat, ok: bool)
    | TakeObservation(slot: nat)
    | ExpireObservation(slot: nat)
    // The receive loop.
    | DeliverResult(reply: ActionReply)
    | DeliverUpdate(update: ActionUpdate)
    | DeliverObservation(correlation: nat, observation: Observation)
    | FailObservation(correlation: nat, code: string)
    | LetGo
    | FailAll

  predicate Takes(s: Stage) {
    s.Submitting? || s.Starting? || s.Waiting?
  }

  predicate Enabled(e: Env, s: Step) {
    match s
    case Register(id, _) => id != ""
    case Sent(n, _) => n < |e.actions| && e.actions[n].stage.Sending?
    case TakeResult(n) => n < |e.actions| && Takes(e.actions[n].stage) && e.actions[n].results.Some?
    case TakeUpdate(n) => n < |e.actions| && e.actions[n].stage.Starting? && e.actions[n].updates != []
    case Wait(id, expired) =>
      !expired && id in e.pendingActions ==>
        e.pendingActions[id] < |e.actions| && e.actions[e.pendingActions[id]].stage.Started?
    case Expire(n) => n < |e.actions| && Takes(e.actions[n].stage)
    case Observe(w, id) => w != "" && id != ""
    case ObserveSent(n, _) => n < |e.observations| && e.observations[n].stage.Asking?
    case TakeObservation(n) => n < |e.observations| && e.observations[n].stage.Expecting? &&
        e.observations[n].channel.Some?
    case ExpireObservation(n) => n < |e.observations| && e.observations[n].stage.Expecting?
    case LetGo => e.held.Some? && e.held.value.slot < |e.observations| &&
        e.observations[e.held.value.slot].channel.None?
    case _ => e.held.None?
  }

  // The call is over; whatever is registered under its id is not any more.
  function Return(e: Env, n: nat, reply: Result<ActionReply, CallError>): Env
    requires n < |e.actions|
  {
    e.(actions := e.actions[n := e.actions[n].(stage := Returned(reply))],
       pendingActions := e.pendingActions - {e.actions[n].id})
  }

  function Answer(e: Env, n: nat, reply: Result<Observation, CallError>): Env
    requires n < |e.observations|
  {
    e.(observations := e.observations[n := e.observations[n].(stage := Answered(reply))],
       pendingObservations := e.pendingObservations - {n})
  }

  function WithResult(s: ActionSlot, r: Result<ActionReply, CallError>): ActionSlot {
    if s.results.None? then s.(results := Some(r)) else s
  }

  function WithUpdate(s: ActionSlot, u: Result<ActionUpdate, CallError>): ActionSlot {
    if |s.updates| < UPDATE_CAPACITY then s.(updates := s.updates + [u]) else s
  }

  function Put(e: Env, n: nat, value: Result<Observation, CallError>): Env
    requires n < |e.observations|
  {
    if e.observations[n].channel.None?
        then e.(observations := e.observations[n := e.observations[n].(channel := Some(value))])
    else e.(held := Some(Held(n, value)))
  }

  function FailedAction(e: Env, n: nat): ActionSlot
    requires n < |e.actions|
  {
    var s := e.actions[n];
    if n in e.pendingActions.Values then WithResult(WithUpdate(s, Err(StreamClosed)), Err(StreamClosed)) else s
  }

  function FailedObservation(e: Env, n: nat): ObservationSlot
    requires n < |e.observations|
  {
    var s := e.observations[n];
    if n in e.pendingObservations && s.channel.None? then s.(channel := Some(Err(StreamClosed))) else s
  }

  function Apply(e: Env, s: Step): Env
    requires Enabled(e, s)
  {
    match s
    case Register(id, starts) =>
      e.(actions := e.actions + [ActionSlot(id, Sending(starts), [], None, [], [])],
         pendingActions := e.pendingActions[id := |e.actions|])
    case Sent(n, ok) =>
      if !ok then Return(e, n, Err(SendFailed))
      else e.(actions := e.actions[n := e.actions[n].(stage := if e.actions[n].stage.starts then Starting
                                                      else Submitting)])
    case TakeResult(n) =>
      Return(e.(actions := e.actions[n := e.actions[n].(results := None)]), n, e.actions[n].results.value)
    case TakeUpdate(n) =>
      var u := e.actions[n].updates[0];
      var rest := e.(actions := e.actions[n := e.actions[n].(updates := e.actions[n].updates[1..])]);
      if u.Err? then Return(rest, n, Err(u.error))
      else if u.value.starts then rest.(actions := rest.actions[n := rest.actions[n].(stage := Started(u.value))])
      else rest
    case Wait(id, expired) =>
      if expired || id !in e.pendingActions then e
      else var n := e.pendingActions[id]; e.(actions := e.actions[n := e.actions[n].(stage := Waiting)])
    case Expire(n) => Return(e, n, Err(ContextDone))
    case Observe(w, id) =>
      e.(observations := e.observations + [ObservationSlot(w, id, Asking, None)],
         pendingObservations := e.pendingObservations + {|e.observations|})
    case ObserveSent(n, ok) =>
      if !ok then Answer(e, n, Err(SendFailed))
      else e.(observations := e.observations[n := e.observations[n].(stage := Expecting)])
    case TakeObservation(n) =>
      Answer(e.(observations := e.observations[n := e.observations[n].(channel := None)]), n,
             e.observations[n].channel.value)
    case ExpireObservation(n) => Answer(e, n, Err(ContextDone))
    case DeliverResult(r) =>
      if r.actionId !in e.pendingActions || e.pendingActions[r.actionId] >= |e.actions| then e
      else
        var n := e.pendingActions[r.actionId];
        var t := WithResult(e.actions[n], Ok(r));
        e.(actions := e.actions[n := t.(delivered := t.delivered + [r])])
    case DeliverUpdate(u) =>
      if u.actionId !in e.pendingActions || e.pendingActions[u.actionId] >= |e.actions| then e
      else
        var n := e.pendingActions[u.actionId];
        var t := WithUpdate(e.actions[n], Ok(u));
        e.(actions := e.actions[n := t.(deliveredUpdates := t.deliveredUpdates + [u])])
    case DeliverObservation(n, o) =>
      if n !in e.pendingObservations || n >= |e.observations| then e
      else if o.worldId != e.observations[n].worldId || o.entityId != e.observations[n].entityId
          then Put(e, n, Err(ScopeMismatch))
      else Put(e, n, Ok(o))
    case FailObservation(n, code) =>
      if n !in e.pendingObservations || n >= |e.observations| then e else Put(e, n, Err(AdapterFailed(code)))
    case LetGo =>
      var h := e.held.value;
      e.(observations := e.observations[h.slot := e.observations[h.slot].(channel := Some(h.value))], held := None)
    case FailAll =>
      e.(actions := seq(|e.actions|, n requires 0 <= n < |e.actions| => FailedAction(e, n)),
         observations := seq(|e.observations|, n requires 0 <= n < |e.observations| => FailedObservation(e, n)),
         pendingActions := map[], pendingObservations := {})
  }

  /* ---- What every reachable environment satisfies ---- */

  // What waits in the channel, or was returned, is the first result delivered.
  ghost predicate ActionFits(s: ActionSlot) {
    && (forall r | r in s.delivered :: r.actionId == s.id)
    && (forall u | u in s.deliveredUpdates :: u.actionId == s.id)
    && (forall u | u in s.updates :: u.Ok? ==> u.value in s.deliveredUpdates)
    && |s.updates| <= UPDATE_CAPACITY
    && (!s.stage.Returned? && s.results.None? ==> s.delivered == [])
    && (s.results.Some? && s.results.value.Ok? && !s.stage.Returned? ==>
        s.delivered != [] && s.results.value.value == s.delivered[0])
    && (s.stage.Returned? && s.stage.reply.Ok? ==> s.delivered != [] && s.stage.reply.value == s.delivered[0])
    && (s.stage.Started? ==> s.stage.update in s.deliveredUpdates && s.stage.update.starts)
  }

  predicate Matches(s: ObservationSlot, r: Result<Observation, CallError>) {
    r.Ok? ==> r.value.worldId == s.worldId && r.value.entityId == s.entityId
  }

  ghost predicate ObservationFits(s: ObservationSlot) {
    (s.channel.Some? ==> Matches(s, s.channel.value)) && (s.stage.Answered? ==> Matches(s, s.stage.reply))
  }

  ghost predicate Registered(e: Env) {
    && (forall id | id in e.pendingActions ::
        e.pendingActions[id] < |e.actions| && e.actions[e.pendingActions[id]].id == id)
    && (forall n | n in e.pendingObservations :: n < |e.observations|)
    && (e.held.Some? ==>
          && e.held.value.slot < |e.observations|
          && Matches(e.observations[e.held.value.slot], e.held.value.value))
  }

  ghost predicate Fits(e: Env) {
    && (forall n | 0 <= n < |e.actions| :: ActionFits(e.actions[n]))
    && (forall n | 0 <= n < |e.observations| :: ObservationFits(e.observations[n]))
    && Registered(e)
  }

  lemma ChangeAction(e: Env, n: nat, t: ActionSlot)
    requires Fits(e) && n < |e.actions| && ActionFits(t) && t.id == e.actions[n].id
    ensures Fits(e.(actions := e.actions[n := t]))
  {
  }

  lemma ChangeObservation(e: Env, n: nat, t: ObservationSlot)
    requires Fits(e) && n < |e.observations| && ObservationFits(t)
    requires t.worldId == e.observations[n].worldId && t.entityId == e.observations[n].entityId
    ensures Fits(e.(observations := e.observations[n := t]))
  {
  }

  lemma ReturnFits(e: Env, n: nat, reply: Result<ActionReply, CallError>)
    requires Fits(e) && n < |e.actions|
    requires reply.Ok? ==> e.actions[n].delivered != [] && reply.value == e.actions[n].delivered[0]
    ensures Fits(Return(e, n, reply))
  {
  }

  lemma AnswerFits(e: Env, n: nat, reply: Result<Observation, CallError>)
    requires Fits(e) && n < |e.observations| && Matches(e.observations[n], reply)
    ensures Fits(Answer(e, n, reply))
  {
  }

  lemma PutFits(e: Env, n: nat, value: Result<Observation, CallError>)
    requires Fits(e) && n < |e.observations| && Matches(e.observations[n], value)
    ensures Fits(Put(e, n, value))
  {
  }

  lemma ResultArrives(s: ActionSlot, r: ActionReply)
    requires ActionFits(s) && r.actionId == s.id
    ensures ActionFits(WithResult(s, Ok(r)).(delivered := s.delivered + [r]))
  {
  }

  lemma UpdateArrives(s: ActionSlot, u: ActionUpdate)
    requires ActionFits(s) && u.actionId == s.id
    ensures ActionFits(WithUpdate(s, Ok(u)).(deliveredUpdates := s.deliveredUpdates + [u]))
  {
  }

  lemma CallerKeepsFit(e: Env, s: Step)
    requires Fits(e) && Enabled(e, s) && (s.Register? || s.Sent? || s.TakeResult? || s.Wait? || s.Expire?)
    ensures Fits(Apply(e, s))
  {
    match s
    case Register(id, starts) =>
    case Sent(n, ok) =>
      if ok {
        ChangeAction(e, n, e.actions[n].(stage := if e.actions[n].stage.starts then Starting else Submitting));
      } else {
        ReturnFits(e, n, Err(SendFailed));
      }
    case TakeResult(n) => TakeResultFits(e, n);
    case Wait(id, expired) =>
      if !expired && id in e.pendingActions {
        ChangeAction(e, e.pendingActions[id], e.actions[e.pendingActions[id]].(stage := Waiting));
      }
    case Expire(n) => ReturnFits(e, n, Err(ContextDone));
  }

  lemma TakeResultFits(e: Env, n: nat)
    requires Fits(e) && Enabled(e, TakeResult(n))
    ensures Fits(Apply(e, TakeResult(n)))
  {
  }

  lemma TakeUpdateFits(e: Env, n: nat)
    requires Fits(e) && Enabled(e, TakeUpdate(n))
    ensures Fits(Apply(e, TakeUpdate(n)))
  {
    var s := e.actions[n];
    var u, t := s.updates[0], s.(updates := s.updates[1..]);
    assert u in s.updates;
    ChangeAction(e, n, t);
    var rest := e.(actions := e.actions[n := t]);
    if u.Err? {
      ReturnFits(rest, n, Err(u.error));
    } else if u.value.starts {
      ChangeAction(rest, n, t.(stage := Started(u.value)));
    }
  }

  lemma ObserverKeepsFit(e: Env, s: Step)
    requires Fits(e) && Enabled(e, s) && (s.Observe? || s.ObserveSent? || s.TakeObservation? || s.ExpireObservation?)
    ensures Fits(Apply(e, s))
  {
    match s
    case Observe(w, id) =>
    case ObserveSent(n, ok) =>
      if ok {
        ChangeObservation(e, n, e.observations[n].(stage := Expecting));
      } else {
        AnswerFits(e, n, Err(SendFailed));
      }
    case TakeObservation(n) =>
      ChangeObservation(e, n, e.observations[n].(channel := None));
      AnswerFits(e.(observations := e.observations[n := e.observations[n].(channel := None)]), n,
                 e.observations[n].channel.value);
    case ExpireObservation(n) => AnswerFits(e, n, Err(ContextDone));
  }

  lemma DeliveryKeepsFit(e: Env, s: Step)
    requires Fits(e) && Enabled(e, s)
    requires (s.DeliverResult? || s.DeliverUpdate? || s.DeliverObservation? || s.FailObservation? || s.LetGo?)
    ensures Fits(Apply(e, s))
  {
    match s
    case DeliverResult(r) =>
      if r.actionId in e.pendingActions {
        var n := e.pendingActions[r.actionId];
        ResultArrives(e.actions[n], r);
        ChangeAction(e, n, WithResult(e.actions[n], Ok(r)).(delivered := e.actions[n].delivered + [r]));
      }
    case DeliverUpdate(u) =>
      if u.actionId in e.pendingActions {
        var n := e.pendingActions[u.actionId];
        UpdateArrives(e.actions[n], u);
        ChangeAction(e, n, WithUpdate(e.actions[n], Ok(u)).(deliveredUpdates := e.actions[n].deliveredUpdates + [u]));
      }
    case DeliverObservation(n, o) =>
      if n in e.pendingObservations {
        var m := o.worldId == e.observations[n].worldId && o.entityId == e.observations[n].entityId;
        PutFits(e, n, if m then Ok(o) else Err(ScopeMismatch));
      }
    case FailObservation(n, code) =>
      if n in e.pendingObservations {
        PutFits(e, n, Err(AdapterFailed(code)));
      }
    case LetGo =>
      var h := e.held.value;
      ChangeObservation(e, h.slot, e.observations[h.slot].(channel := Some(h.value)));
  }

  lemma FailAllKeepsFit(e: Env)
    requires Fits(e) && e.held.None?
    ensures Fits(Apply(e, FailAll))
  {
  }

  lemma StepKeepsFit(e: Env, s: Step)
    requires Fits(e) && Enabled(e, s)
    ensures Fits(Apply(e, s))
  {
    if s.FailAll? {
      FailAllKeepsFit(e);
    } else if s.TakeUpdate? {
      TakeUpdateFits(e, s.slot);
    } else if s.Observe? || s.ObserveSent? || s.TakeObservation? || s.ExpireObservation? {
      ObserverKeepsFit(e, s);
    } else if s.Register? || s.Sent? || s.TakeResult? || s.Wait? || s.Expire? {
      CallerKeepsFit(e, s);
    } else {
      DeliveryKeepsFit(e, s);
    }
  }

  /* ---- Runs ---- */

  ghost predicate IsRun(e: Env, steps: seq<Step>)
    decreases |steps|
  {
    steps == [] || (Enabled(e, steps[0]) && IsRun(Apply(e, steps[0]), steps[1..]))
  }

  ghost function After(e: Env, steps: seq<Step>): Env
    requires IsRun(e, steps)
    decreases |steps|
  {
    if steps == [] then e else After(Apply(e, steps[0]), steps[1..])
  }

  lemma {:induction false} RunKeepsFit(e: Env, steps: seq<Step>)
    requires Fits(e) && IsRun(e, steps)
    ensures Fits(After(e, steps))
    decreases |steps|
  {
    if steps != [] {
      StepKeepsFit(e, steps[0]);
      RunKeepsFit(Apply(e, steps[0]), steps[1..]);
    }
  }

  // What a step delivers to call n, which it does when the call is registered under the id of the result.
  ghost function Delivery(e: Env, s: Step, n: nat): seq<ActionReply> {
    if s.DeliverResult? && s.reply.actionId in e.pendingActions && e.pendingActions[s.reply.actionId] == n &&
        n < |e.actions|
    then [s.reply] else []
  }

  // All that a run delivers to call n, in order.
  ghost function Deliveries(e: Env, steps: seq<Step>, n: nat): seq<ActionReply>
    requires IsRun(e, steps)
    decreases |steps|
  {
    if steps == [] then [] else Delivery(e, steps[0], n) + Deliveries(Apply(e, steps[0]), steps[1..], n)
  }

  function DeliveredTo(e: Env, n: nat): seq<ActionReply> {
    if n < |e.actions| then e.actions[n].delivered else []
  }

  lemma StepDelivers(e: Env, s: Step, n: nat)
    requires Enabled(e, s)
    ensures DeliveredTo(Apply(e, s), n) == DeliveredTo(e, n) + Delivery(e, s, n)
    ensures |Apply(e, s).actions| >= |e.actions|
  {
  }

  lemma {:induction false} RunDelivers(e: Env, steps: seq<Step>, n: nat)
    requires IsRun(e, steps)
    ensures DeliveredTo(After(e, steps), n) == DeliveredTo(e, n) + Deliveries(e, steps, n)
    decreases |steps|
  {
    if steps != [] {
      StepDelivers(e, steps[0], n);
      RunDelivers(Apply(e, steps[0]), steps[1..], n);
      JoinIsAssociative(DeliveredTo(e, n), Delivery(e, steps[0], n), Deliveries(Apply(e, steps[0]), steps[1..], n));
    }
  }

  // Whatever the interleaving: a result that a call returns carries the id of the call and is the first one that
  // was delivered to it, also when it arrived before anyone waited.
  lemma FirstResultIsReturned(steps: seq<Step>, n: nat)
    requires IsRun(NEW_ENV, steps) && n < |After(NEW_ENV, steps).actions|
    ensures var s := After(NEW_ENV, steps).actions[n];
      s.stage.Returned? && s.stage.reply.Ok? ==>
        && s.stage.reply.value.actionId == s.id
        && Deliveries(NEW_ENV, steps, n) != [] && s.stage.reply.value == Deliveries(NEW_ENV, steps, n)[0]
  {
    RunKeepsFit(NEW_ENV, steps);
    RunDelivers(NEW_ENV, steps, n);
    var s := After(NEW_ENV, steps).actions[n];
    assert ActionFits(s);
    assert [] + Deliveries(NEW_ENV, steps, n) == Deliveries(NEW_ENV, steps, n);
    assert s.stage.Returned? && s.stage.reply.Ok? ==> s.delivered[0] in s.delivered;
  }

  // A start update that a call returns was sent for its action and says that the action starts.
  lemma StartIsForItsAction(e: Env, n: nat)
    requires Fits(e) && n < |e.actions| && e.actions[n].stage.Started?
    ensures e.actions[n].stage.update.starts && e.actions[n].stage.update.actionId == e.actions[n].id
  {
  }

  // A delivery changes at most the call that is registered under its id; unknown ids change nothing.
  lemma OtherCallsAreUnchanged(e: Env, s: Step, id: string, n: nat)
    requires Fits(e) && Enabled(e, s) && n < |e.actions|
    requires (s.DeliverResult? && s.reply.actionId == id) || (s.DeliverUpdate? && s.update.actionId == id)
    ensures Apply(e, s).pendingActions == e.pendingActions && Apply(e, s).observations == e.observations
    ensures id !in e.pendingActions || e.pendingActions[id] != n ==> Apply(e, s).actions[n] == e.actions[n]
    ensures e.actions[n].id != id ==> Apply(e, s).actions[n] == e.actions[n]
  {
  }

  // A second result for a call does not replace the first.
  lemma LaterResultIsIgnored(e: Env, r: ActionReply, n: nat)
    requires Fits(e) && e.held.None? && n < |e.actions| && e.actions[n].results.Some?
    ensures Apply(e, DeliverResult(r)).actions[n].results == e.actions[n].results
    ensures Apply(e, DeliverResult(r)).actions[n].stage == e.actions[n].stage
  {
  }

  // An observation that is returned is of the world and the entity that were asked for.
  lemma ObservationIsAsRequested(steps: seq<Step>, n: nat)
    requires IsRun(NEW_ENV, steps) && n < |After(NEW_ENV, steps).observations|
    ensures var s := After(NEW_ENV, steps).observations[n];
      s.stage.Answered? && s.stage.reply.Ok? ==>
        s.stage.reply.value.worldId == s.worldId && s.stage.reply.value.entityId == s.entityId
  {
    RunKeepsFit(NEW_ENV, steps);
  }

  /* ---- How long an action stays registered ---- */

  // The step ends a wait for the action.
  predicate EndsWait(e: Env, s: Step, id: string)
    requires Enabled(e, s)
  {
    || s == Wait(id, true)
    || ((s.TakeResult? || s.Expire?) && e.actions[s.slot].stage.Waiting? && e.actions[s.slot].id == id)
  }

  // After a wait the action is still registered exactly when the wait found its context done at once.
  lemma OnlyExpiredWaitLeavesEntry(e: Env, s: Step, id: string)
    requires Fits(e) && Enabled(e, s) && EndsWait(e, s, id)
    ensures id in Apply(e, s).pendingActions <==> s == Wait(id, true) && id in e.pendingActions
  {
  }

  // Such a run: the action starts, and the wait for it comes with a context that is done.
  lemma ExpiredWaitLeavesEntry()
    ensures var steps := [Register("a", true), Sent(0, true), DeliverUpdate(ActionUpdate("a", true)), TakeUpdate(0),
                          Wait("a", true)];
      && IsRun(NEW_ENV, steps)
      && After(NEW_ENV, steps).pendingActions == map["a" := 0] && After(NEW_ENV, steps).actions[0].stage.Started?
  {
    var e1 := Apply(NEW_ENV, Register("a", true));
    var e2 := Apply(e1, Sent(0, true));
    var e3 := Apply(e2, DeliverUpdate(ActionUpdate("a", true)));
    var e4 := Apply(e3, TakeUpdate(0));
    RunOf(e4, Wait("a", true), []);
    RunOf(e3, TakeUpdate(0), [Wait("a", true)]);
    RunOf(e2, DeliverUpdate(ActionUpdate("a", true)), [TakeUpdate(0), Wait("a", true)]);
    RunOf(e1, Sent(0, true), [DeliverUpdate(ActionUpdate("a", true)), TakeUpdate(0), Wait("a", true)]);
    RunOf(NEW_ENV, Register("a", true), [Sent(0, true), DeliverUpdate(ActionUpdate("a", true)), TakeUpdate(0),
                                         Wait("a", true)]);
  }

  lemma RunOf(e: Env, s: Step, rest: seq<Step>)
    requires Enabled(e, s) && IsRun(Apply(e, s), rest)
    ensures IsRun(e, [s] + rest) && After(e, [s] + rest) == After(Apply(e, s), rest)
  {
    assert ([s] + rest)[1..] == rest;
  }

  // The entry of the action goes or is replaced: the stream fails, the id is registered again, or a call under the
  // id returns.
  predicate Unregisters(e: Env, s: Step, id: string)
    requires Enabled(e, s)
  {
    || s.FailAll?
    || (s.Register? && s.id == id)
    || (s.Sent? && !s.ok && e.actions[s.slot].id == id)
    || ((s.TakeResult? || s.Expire?) && e.actions[s.slot].id == id)
    || (s.TakeUpdate? && e.actions[s.slot].updates[0].Err? && e.actions[s.slot].id == id)
  }

  // These steps and no others change the entry.
  lemma EntryChanges(e: Env, s: Step, id: string)
    requires Fits(e) && Enabled(e, s) && id in e.pendingActions
    ensures Unregisters(e, s, id) <==>
      (id in Apply(e, s).pendingActions ==> Apply(e, s).pendingActions[id] != e.pendingActions[id])
  {
  }

  ghost predicate NeverUnregisters(e: Env, steps: seq<Step>, id: string)
    requires IsRun(e, steps)
    decreases |steps|
  {
    steps == [] || (!Unregisters(e, steps[0], id) && NeverUnregisters(Apply(e, steps[0]), steps[1..], id))
  }

  // An entry, for one that of an expired wait, stays through every run without such a step.
  lemma {:induction false} EntryStays(e: Env, steps: seq<Step>, id: string)
    requires Fits(e) && id in e.pendingActions && IsRun(e, steps) && NeverUnregisters(e, steps, id)
    ensures id in After(e, steps).pendingActions && After(e, steps).pendingActions[id] == e.pendingActions[id]
    decreases |steps|
  {
    if steps != [] {
      EntryChanges(e, steps[0], id);
      StepKeepsFit(e, steps[0]);
      EntryStays(Apply(e, steps[0]), steps[1..], id);
    }
  }

  /* ---- When the receive loop is held up ---- */

  // Answering an observation, with what was observed or with an error, can hold up the receive loop: exactly when
  // the call has an answer waiting already.
  lemma AnswerHoldsLoop(e: Env, n: nat, o: Observation, code: string)
    requires Fits(e) && e.held.None?
    ensures Apply(e, DeliverObservation(n, o)).held.Some? <==>
      n in e.pendingObservations && e.observations[n].channel.Some?
    ensures Apply(e, FailObservation(n, code)).held.Some? <==>
      n in e.pendingObservations && e.observations[n].channel.Some?
  {
  }

  // The receive loop waits for a caller that has left without taking the answer it had.
  ghost predicate HeldForGood(e: Env) {
    && e.held.Some? && e.held.value.slot < |e.observations|
    && e.observations[e.held.value.slot].channel.Some? && e.observations[e.held.value.slot].stage.Answered?
  }

  lemma HeldLoopStays(e: Env, s: Step)
    requires HeldForGood(e) && Enabled(e, s)
    ensures HeldForGood(Apply(e, s)) && Apply(e, s).held == e.held
  {
  }

  // Then it never goes on, in any run.
  lemma {:induction false} HeldLoopNeverGoesOn(e: Env, steps: seq<Step>)
    requires HeldForGood(e) && IsRun(e, steps)
    ensures HeldForGood(After(e, steps)) && After(e, steps).held == e.held
    decreases |steps|
  {
    if steps != [] {
      HeldLoopStays(e, steps[0]);
      HeldLoopNeverGoesOn(Apply(e, steps[0]), steps[1..]);
    }
  }

  // Such a run: the adapter answers an observation twice before the caller, whose context is done, looks.
  lemma LoopCanBeHeldForGood(o: Observation)
    ensures var steps := [Observe("w", "n"), ObserveSent(0, true), DeliverObservation(0, o), DeliverObservation(0, o),
                          ExpireObservation(0)];
      IsRun(NEW_ENV, steps) && HeldForGood(After(NEW_ENV, steps))
  {
    var twice := DeliverObservation(0, o);
    var e1 := Apply(NEW_ENV, Observe("w", "n"));
    var e2 := Apply(e1, ObserveSent(0, true));
    var e3 := Apply(e2, twice);
    var e4 := Apply(e3, twice);
    RunOf(e4, ExpireObservation(0), []);
    RunOf(e3, twice, [ExpireObservation(0)]);
    RunOf(e2, twice, [twice, ExpireObservation(0)]);
    RunOf(e1, ObserveSent(0, true), [twice, twice, ExpireObservation(0)]);
    RunOf(NEW_ENV, Observe("w", "n"), [ObserveSent(0, true), twice, twice, ExpireObservation(0)]);
    assert [Observe("w", "n"), ObserveSent(0, true), twice, twice, ExpireObservation(0)]
        == [Observe("w", "n")] + [ObserveSent(0, true), twice, twice, ExpireObservation(0)];
  }

  lemma ValuesWithout(m: map<string, nat>, id: string)
    requires id in m
    ensures forall n :: n in m.Values <==> n == m[id] || n in (m - {id}).Values
  {
    var rest := m - {id};
    forall n | n in m.Values
      ensures n == m[id] || n in rest.Values
    {
      var j :| j in m && m[j] == n;
      assert j != id ==> j in rest && rest[j] == n;
    }
  }

  // The calls that are still registered have not failed yet, the others have.
  ghost predicate FailedSoFar(before: Env, pending: map<string, nat>, actions: seq<ActionSlot>) {
    && pending.Keys <= before.pendingActions.Keys && |actions| == |before.actions|
    && (forall id | id in pending :: pending[id] == before.pendingActions[id])
    && (forall n | 0 <= n < |actions| ::
        actions[n] == if n in pending.Values then before.actions[n] else FailedAction(before, n))
  }

  lemma FailOne(before: Env, pending: map<string, nat>, actions: seq<ActionSlot>, id: string)
    requires FailedSoFar(before, pending, actions) && Registered(before) && id in pending
    ensures pending[id] < |actions| && actions[pending[id]] == before.actions[pending[id]]
    ensures pending[id] in before.pendingActions.Values
    ensures FailedSoFar(before, pending - {id}, actions[pending[id] := FailedAction(before, pending[id])])
  {
    ValuesWithout(pending, id);
    var n, rest := pending[id], pending - {id};
    assert forall j | j in rest :: before.actions[rest[j]].id == j;
  }

  /* ---- The receive loop's side as an object ---- */

  class PendingCalls {
    var pendingActions: map<string, nat>
    var actions: seq<ActionSlot>
    var pendingObservations: set<nat>
    var observations: seq<ObservationSlot>
    var held: Option<Held>

    constructor ()
      ensures View() == NEW_ENV && Fits(View())
    {
      pendingActions, actions, pendingObservations, observations, held := map[], [], {}, [], None;
    }

    ghost function View(): Env
      reads this
    {
      Env(pendingActions, actions, pendingObservations, observations, held)
    }

    method ResolveActionResult(r: ActionReply)
      requires Fits(View()) && held.None?
      modifies this`actions
      ensures View() == Apply(old(View()), DeliverResult(r)) && Fits(View())
      ensures r.actionId !in pendingActions ==> actions == old(actions)
      ensures r.actionId in pendingActions ==>
        var before := old(actions)[pendingActions[r.actionId]];
        actions == old(actions)[pendingActions[r.actionId] := before.(
            results := if before.results.None? then Some(Ok(r)) else before.results,
            delivered := before.delivered + [r])]
    {
      StepKeepsFit(View(), DeliverResult(r));
      if r.actionId !in pendingActions {
        return;
      }
      var n := pendingActions[r.actionId];
      var slot := actions[n];
      if slot.results.None? {
        slot := slot.(results := Some(Ok(r)));
      }
      actions := actions[n := slot.(delivered := slot.delivered + [r])];
    }

    method ResolveActionStatusUpdate(u: ActionUpdate)
      requires Fits(View()) && held.None?
      modifies this`actions
      ensures View() == Apply(old(View()), DeliverUpdate(u)) && Fits(View())
      ensures u.actionId !in pendingActions ==> actions == old(actions)
      ensures u.actionId in pendingActions ==>
        var before := old(actions)[pendingActions[u.actionId]];
        actions == old(actions)[pendingActions[u.actionId] := before.(
            updates := if |before.updates| < 8 then before.updates + [Ok(u)] else before.updates,
            deliveredUpdates := before.deliveredUpdates + [u])]
    {
      StepKeepsFit(View(), DeliverUpdate(u));
      if u.actionId !in pendingActions {
        return;
      }
      var n := pendingActions[u.actionId];
      var slot := actions[n];
      if |slot.updates| < UPDATE_CAPACITY {
        slot := slot.(updates := slot.updates + [Ok(u)]);
      }
      actions := actions[n := slot.(deliveredUpdates := slot.deliveredUpdates + [u])];
    }

    method ResolveObservation(correlation: nat, o: Observation)
      requires Fits(View()) && held.None?
      modifies this`observations, this`held
      ensures View() == Apply(old(View()), DeliverObservation(correlation, o)) && Fits(View())
      ensures correlation !in pendingObservations ==> observations == old(observations) && held.None?
      ensures correlation in pendingObservations ==>
        var before := old(observations)[correlation];
        var matches := o.worldId == before.worldId && o.entityId == before.entityId;
        var value := if matches then Ok(o) else Err(ScopeMismatch);
        if before.channel.None?
        then observations == old(observations)[correlation := before.(channel := Some(value))] && held.None?
        else observations == old(observations) && held == Some(Held(correlation, value))
    {
      StepKeepsFit(View(), DeliverObservation(correlation, o));
      if correlation !in pendingObservations {
        return;
      }
      var slot := observations[correlation];
      var value := if o.worldId != slot.worldId || o.entityId != slot.entityId then Err(ScopeMismatch) else Ok(o);
      if slot.channel.None? {
        observations := observations[correlation := slot.(channel := Some(value))];
      } else {
        held := Some(Held(correlation, value));
      }
    }

    // Unregisters every call and leaves each a failure, unless something waits for it already.
    method FailAllPending()
      requires Fits(View()) && held.None?
      modifies this`pendingActions, this`actions, this`pendingObservations, this`observations
      ensures View() == Apply(old(View()), FailAll) && Fits(View())
    {
      ghost var before := View();
      StepKeepsFit(View(), FailAll);
      FailObservations(before);
      FailActions(before);
    }

    method FailObservations(ghost before: Env)
      requires before == View() && Fits(before)
      modifies this`pendingObservations, this`observations
      ensures pendingObservations == {} && |observations| == |before.observations|
      ensures forall n | 0 <= n < |observations| :: observations[n] == FailedObservation(before, n)
    {
      while pendingObservations != {}
        invariant pendingObservations <= before.pendingObservations && |observations| == |before.observations|
        invariant forall n | 0 <= n < |observations| ::
          observations[n] == if n in pendingObservations then before.observations[n] else FailedObservation(before, n)
        decreases |pendingObservations|
      {
        var n :| n in pendingObservations;
        pendingObservations := pendingObservations - {n};
        if observations[n].channel.None? {
          observations := observations[n := observations[n].(channel := Some(Err(StreamClosed)))];
        }
      }
    }

    method FailActions(ghost before: Env)
      requires before.pendingActions == pendingActions && before.actions == actions && Registered(before)
      modifies this`pendingActions, this`actions
      ensures pendingActions == map[] && |actions| == |before.actions|
      ensures forall n | 0 <= n < |actions| :: actions[n] == FailedAction(before, n)
    {
      while pendingActions != map[]
        invariant FailedSoFar(before, pendingActions, actions)
        decreases |pendingActions.Keys|
      {
        var id :| id in pendingActions;
        FailAction(before, id);
      }
    }

    method FailAction(ghost before: Env, id: string)
      requires FailedSoFar(before, pendingActions, actions) && Registered(before) && id in pendingActions
      modifies this`pendingActions, this`actions
      ensures FailedSoFar(before, pendingActions, actions) && pendingActions == old(pendingActions) - {id}
    {
      var n := pendingActions[id];
      FailOne(before, pendingActions, actions, id);
      var slot := actions[n];
      if |slot.updates| < UPDATE_CAPACITY {
        slot := slot.(updates := slot.updates + [Err(StreamClosed)]);
      }
      if slot.results.None? {
        slot := slot.(results := Some(Err(StreamClosed)));
      }
      assert slot == FailedAction(before, n);
      pendingActions := pendingActions - {id};
      actions := actions[n := slot];
    }
  }
}

/**
 What a caller of the adapter gets (runtime/internal/gateway/stream_environment.go:56-334): laws about the steps and
 the runs of the stream environment, in terms of what was delivered.
 */
module StreamLaws {
  import opened Common
  import opened StreamEnvironment

  /* ---- Answers to an observation ---- */

  // What a step answers to call n while it is registered: the observation that was asked for, that another one came,
  // the error of the adapter, or the end of the stream.
  ghost function AnswerBy(e: Env, s: Step, n: nat): seq<Result<Observation, CallError>> {
    if n !in e.pendingObservations || n >= |e.observations| then []
    else
      match s
      case DeliverObservation(m, o) =>
        if m != n then []
        else if o.worldId == e.observations[n].worldId && o.entityId == e.observations[n].entityId then [Ok(o)]
        else [Err(ScopeMismatch)]
      case FailObservation(m, code) => if m != n then [] else [Err(AdapterFailed(code))]
      case FailAll => [Err(StreamClosed)]
      case _ => []
  }

  ghost function AnswersBy(e: Env, steps: seq<Step>, n: nat): seq<Result<Observation, CallError>>
    requires IsRun(e, steps)
    decreases |steps|
  {
    if steps == [] then [] else AnswerBy(e, steps[0], n) + AnswersBy(Apply(e, steps[0]), steps[1..], n)
  }

  // A call that still waits has the first answer in its channel; one that is over returned the first answer, or its
  // request was not sent, or its context was done.
  ghost predicate HasFirst(s: ObservationSlot, answers: seq<Result<Observation, CallError>>) {
    match s.stage
    case Answered(reply) =>
      reply == Err(SendFailed) || reply == Err(ContextDone) || (answers != [] && reply == answers[0])
    case _ => s.channel == if answers == [] then None else Some(answers[0])
  }

  // The loop is held up by a second answer only.
  ghost predicate HeldFits(e: Env) {
    e.held.Some? && e.held.value.slot < |e.observations| ==>
      var s := e.observations[e.held.value.slot]; s.channel.Some? || s.stage.Answered?
  }

  ghost predicate AnswersFit(e: Env, n: nat, answers: seq<Result<Observation, CallError>>) {
    HeldFits(e) && if n < |e.observations| then HasFirst(e.observations[n], answers) else answers == []
  }

  lemma DeliveryAnswers(e: Env, s: Step, n: nat, answers: seq<Result<Observation, CallError>>)
    requires Fits(e) && Enabled(e, s) && AnswersFit(e, n, answers)
    requires s.DeliverObservation? || s.FailObservation? || s.FailAll?
    ensures AnswersFit(Apply(e, s), n, answers + AnswerBy(e, s, n))
  {
  }

  lemma StepAnswers(e: Env, s: Step, n: nat, answers: seq<Result<Observation, CallError>>)
    requires Fits(e) && Enabled(e, s) && AnswersFit(e, n, answers)
    ensures AnswersFit(Apply(e, s), n, answers + AnswerBy(e, s, n))
  {
    if s.DeliverObservation? || s.FailObservation? || s.FailAll? {
      DeliveryAnswers(e, s, n, answers);
    } else {
      assert answers + AnswerBy(e, s, n) == answers;
    }
  }

  lemma {:induction false} RunAnswers(e: Env, steps: seq<Step>, n: nat, answers: seq<Result<Observation, CallError>>)
    requires Fits(e) && IsRun(e, steps) && AnswersFit(e, n, answers)
    ensures AnswersFit(After(e, steps), n, answers + AnswersBy(e, steps, n))
    decreases |steps|
  {
    if steps != [] {
      StepKeepsFit(e, steps[0]);
      StepAnswers(e, steps[0], n, answers);
      RunAnswers(Apply(e, steps[0]), steps[1..], n, answers + AnswerBy(e, steps[0], n));
      JoinIsAssociative(answers, AnswerBy(e, steps[0], n), AnswersBy(Apply(e, steps[0]), steps[1..], n));
    } else {
      assert answers + AnswersBy(e, steps, n) == answers;
    }
  }

  // Whatever the interleaving, a caller gets the first answer that was given while it was registered.
  lemma FirstAnswerIsReturned(steps: seq<Step>, n: nat)
    requires IsRun(NEW_ENV, steps) && n < |After(NEW_ENV, steps).observations|
    ensures HasFirst(After(NEW_ENV, steps).observations[n], AnswersBy(NEW_ENV, steps, n))
  {
    RunAnswers(NEW_ENV, steps, n, []);
    assert [] + AnswersBy(NEW_ENV, steps, n) == AnswersBy(NEW_ENV, steps, n);
  }

  // An observation of what was asked for arrives as it is; any other arrives as a mismatch.
  lemma ObservationArrives(e: Env, n: nat, o: Observation)
    requires Fits(e) && e.held.None? && n in e.pendingObservations && e.observations[n].channel.None?
    ensures var s := e.observations[n];
      Apply(e, DeliverObservation(n, o)) == e.(observations := e.observations[n := s.(channel :=
        Some(if o.worldId == s.worldId && o.entityId == s.entityId then Ok(o) else Err(ScopeMismatch)))])
  {
  }

  /* ---- Replies to an action ---- */

  // What a step replies to call n while it is registered: a result under its id, or the end of the stream.
  ghost function ReplyBy(e: Env, s: Step, n: nat): seq<Result<ActionReply, CallError>> {
    if n >= |e.actions| then []
    else
      match s
      case DeliverResult(r) =>
        if r.actionId in e.pendingActions && e.pendingActions[r.actionId] == n then [Ok(r)] else []
      case FailAll => if n in e.pendingActions.Values then [Err(StreamClosed)] else []
      case _ => []
  }

  ghost function RepliesBy(e: Env, steps: seq<Step>, n: nat): seq<Result<ActionReply, CallError>>
    requires IsRun(e, steps)
    decreases |steps|
  {
    if steps == [] then [] else ReplyBy(e, steps[0], n) + RepliesBy(Apply(e, steps[0]), steps[1..], n)
  }

  // A call that still goes on has the first reply in its channel; one that is over returned it, or ended early.
  ghost predicate HasFirstReply(s: ActionSlot, replies: seq<Result<ActionReply, CallError>>) {
    match s.stage
    case Returned(reply) => (reply.Err? && reply.error in {SendFailed, ContextDone, StreamClosed})
                            || (replies != [] && reply == replies[0])
    case _ => s.results == (if replies == [] then None else Some(replies[0]))
              && forall u | u in s.updates && u.Err? :: u.error == StreamClosed
  }

  ghost predicate RepliesFit(e: Env, n: nat, replies: seq<Result<ActionReply, CallError>>) {
    if n < |e.actions| then HasFirstReply(e.actions[n], replies) else replies == []
  }

  lemma ResultReplies(e: Env, r: ActionReply, n: nat, replies: seq<Result<ActionReply, CallError>>)
    requires Fits(e) && e.held.None? && RepliesFit(e, n, replies)
    ensures RepliesFit(Apply(e, DeliverResult(r)), n, replies + ReplyBy(e, DeliverResult(r), n))
  {
  }

  lemma UpdateReplies(e: Env, u: ActionUpdate, n: nat, replies: seq<Result<ActionReply, CallError>>)
    requires Fits(e) && e.held.None? && RepliesFit(e, n, replies)
    ensures RepliesFit(Apply(e, DeliverUpdate(u)), n, replies)
  {
  }

  lemma FailureReplies(e: Env, n: nat, replies: seq<Result<ActionReply, CallError>>)
    requires Fits(e) && e.held.None? && RepliesFit(e, n, replies)
    ensures RepliesFit(Apply(e, FailAll), n, replies + ReplyBy(e, FailAll, n))
  {
    if n < |e.actions| {
      assert Apply(e, FailAll).actions[n] == FailedAction(e, n);
    }
  }

  lemma CallerReplies(e: Env, s: Step, n: nat, replies: seq<Result<ActionReply, CallError>>)
    requires Fits(e) && Enabled(e, s) && RepliesFit(e, n, replies)
    requires !s.DeliverResult? && !s.DeliverUpdate? && !s.FailAll?
    ensures RepliesFit(Apply(e, s), n, replies)
  {
    if s.TakeUpdate? {
      UpdateTaken(e, s.slot, n, replies);
    }
  }

  lemma UpdateTaken(e: Env, slot: nat, n: nat, replies: seq<Result<ActionReply, CallError>>)
    requires Fits(e) && Enabled(e, TakeUpdate(slot)) && RepliesFit(e, n, replies)
    ensures RepliesFit(Apply(e, TakeUpdate(slot)), n, replies)
  {
    assert e.actions[slot].updates[0] in e.actions[slot].updates;
  }

  lemma StepReplies(e: Env, s: Step, n: nat, replies: seq<Result<ActionReply, CallError>>)
    requires Fits(e) && Enabled(e, s) && RepliesFit(e, n, replies)
    ensures RepliesFit(Apply(e, s), n, replies + ReplyBy(e, s, n))
  {
    if s.DeliverResult? {
      ResultReplies(e, s.reply, n, replies);
    } else if s.FailAll? {
      FailureReplies(e, n, replies);
    } else {
      assert replies + ReplyBy(e, s, n) == replies;
      if s.DeliverUpdate? {
        UpdateReplies(e, s.update, n, replies);
      } else {
        CallerReplies(e, s, n, replies);
      }
    }
  }

  lemma {:induction false} RunReplies(e: Env, steps: seq<Step>, n: nat, replies: seq<Result<ActionReply, CallError>>)
    requires Fits(e) && IsRun(e, steps) && RepliesFit(e, n, replies)
    ensures RepliesFit(After(e, steps), n, replies + RepliesBy(e, steps, n))
    decreases |steps|
  {
    if steps != [] {
      StepKeepsFit(e, steps[0]);
      StepReplies(e, steps[0], n, replies);
      RunReplies(Apply(e, steps[0]), steps[1..], n, replies + ReplyBy(e, steps[0], n));
      JoinIsAssociative(replies, ReplyBy(e, steps[0], n), RepliesBy(Apply(e, steps[0]), steps[1..], n));
    } else {
      assert replies + RepliesBy(e, steps, n) == replies;
    }
  }

  // Whatever the interleaving, the first reply to an action waits for its caller until it is taken or given up.
  lemma FirstReplyIsReturned(steps: seq<Step>, n: nat)
    requires IsRun(NEW_ENV, steps) && n < |After(NEW_ENV, steps).actions|
    ensures HasFirstReply(After(NEW_ENV, steps).actions[n], RepliesBy(NEW_ENV, steps, n))
  {
    RunReplies(NEW_ENV, steps, n, []);
    assert [] + RepliesBy(NEW_ENV, steps, n) == RepliesBy(NEW_ENV, steps, n);
  }

  // How a call that starts or submits an action can end: it takes what is in its channel, an update that is an
  // error, or its context ends it, or it could not be sent.
  lemma CallReturns(e: Env, s: Step, n: nat)
    requires Fits(e) && Enabled(e, s) && n < |e.actions| && !e.actions[n].stage.Returned?
    ensures var before, after := e.actions[n].stage, Apply(e, s).actions[n].stage;
      && (s == TakeResult(n) ==> e.actions[n].results.Some? && after == Returned(e.actions[n].results.value))
      && (s == Expire(n) ==> after == Returned(Err(ContextDone)))
      && (s == Sent(n, false) ==> after == Returned(Err(SendFailed)))
      && (s == TakeUpdate(n) ==>
          var u := e.actions[n].updates[0];
          after == if u.Err? then Returned(Err(u.error)) else if u.value.starts then Started(u.value) else before)
      && (after.Returned? ==> s == TakeResult(n) || s == Expire(n) || s == Sent(n, false) || s == TakeUpdate(n))
  {
  }

  // When a call can take what it waits for: whatever it does with the action, a result; only when starting, an update.
  lemma CallCanTake(e: Env, n: nat)
    requires Fits(e) && n < |e.actions|
    ensures var s := e.actions[n];
      && (Enabled(e, TakeResult(n)) <==>
          s.results.Some? && (s.stage == Submitting || s.stage == Starting || s.stage == Waiting))
      && (Enabled(e, TakeUpdate(n)) <==> s.updates != [] && s.stage == Starting)
      && (Enabled(e, Expire(n)) <==> s.stage == Submitting || s.stage == Starting || s.stage == Waiting)
  {
  }

  // How a call goes on: it is registered, sent, and starts or submits its action; a wait takes up a started one.
  lemma CallGoesOn(e: Env, s: Step)
    requires Fits(e) && Enabled(e, s)
    ensures s.Register? ==>
      Apply(e, s) == e.(actions := e.actions + [ActionSlot(s.id, Sending(s.starts), [], None, [], [])],
                        pendingActions := e.pendingActions[s.id := |e.actions|])
    ensures s.Sent? && s.ok ==>
      Apply(e, s).actions[s.slot].stage == if e.actions[s.slot].stage.starts then Starting else Submitting
    ensures s.Wait? && !s.expired && s.id in e.pendingActions ==>
      Apply(e, s).actions[e.pendingActions[s.id]].stage == Waiting
    ensures s.Wait? && (s.expired || s.id !in e.pendingActions) ==> Apply(e, s) == e
  {
  }

  // How a call for an observation goes on and ends; when it is over it is not registered any more.
  lemma ObservationReturns(e: Env, s: Step)
    requires Fits(e) && Enabled(e, s)
    ensures s.Observe? ==>
      Apply(e, s) == e.(observations := e.observations + [ObservationSlot(s.worldId, s.entityId, Asking, None)],
                        pendingObservations := e.pendingObservations + {|e.observations|})
    ensures s.ObserveSent? && s.ok ==> Apply(e, s).observations[s.slot].stage == Expecting
    ensures s.ObserveSent? && !s.ok ==> Apply(e, s).observations[s.slot].stage == Answered(Err(SendFailed))
    ensures s.ExpireObservation? ==> Apply(e, s).observations[s.slot].stage == Answered(Err(ContextDone))
    ensures s.TakeObservation? ==>
      e.observations[s.slot].channel.Some?
      && Apply(e, s).observations[s.slot].stage == Answered(e.observations[s.slot].channel.value)
    ensures (s.ObserveSent? && !s.ok) || s.ExpireObservation? || s.TakeObservation? ==>
      Apply(e, s).pendingObservations == e.pendingObservations - {s.slot}
  {
  }

  // When the stream fails nothing stays registered, and every call that was learns of it where there is room.
  lemma FailureTells(e: Env, n: nat)
    requires Fits(e) && e.held.None?
    ensures var f := Apply(e, FailAll);
      && f.pendingActions == map[] && f.pendingObservations == {} && f.held.None?
      && |f.actions| == |e.actions| && |f.observations| == |e.observations|
      && (n < |e.actions| ==>
          var s := e.actions[n];
          f.actions[n] == if n !in e.pendingActions.Values then s else s.(
              updates := if |s.updates| < 8 then s.updates + [Err(StreamClosed)] else s.updates,
              results := if s.results.None? then Some(Err(StreamClosed)) else s.results))
      && (n < |e.observations| ==>
          var s := e.observations[n];
          f.observations[n] == if n in e.pendingObservations && s.channel.None?
                               then s.(channel := Some(Err(StreamClosed))) else s)
  {
  }
}

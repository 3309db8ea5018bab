/**
 The interaction reservations of the Stardew adapter (adapters/stardew/src/Runtime/InteractionContextStore.cs):
 contexts by event id, and the event id in flight for each world, npc and player.

 The two dictionaries of the class are specified by functions on a pair of maps; the laws are about these.
 */
module InteractionStore {
  import opened Common
  import opened Text

  datatype Snapshot = Snapshot(eventId: string, worldId: string, npcEntityId: string, playerEntityId: string,
                               conversationId: string)

  datatype InteractionKey = InteractionKey(worldId: string, npcEntityId: string, playerEntityId: string)

  datatype Pending = Pending(snapshot: Snapshot, committed: bool)

  datatype Store = Store(contexts: map<string, Pending>, inFlight: map<InteractionKey, string>)

  // An id that is blank is an argument error.
  datatype ArgumentError = ArgumentError(name: string)

  datatype Reservation = Reserved | InFlight

  function KeyOf(s: Snapshot): InteractionKey {
    InteractionKey(TrimSpace(s.worldId), TrimSpace(s.npcEntityId), TrimSpace(s.playerEntityId))
  }

  function EventOf(s: Snapshot): string {
    TrimSpace(s.eventId)
  }

  // The first id of the snapshot that is blank.
  function BlankId(s: Snapshot): Option<ArgumentError> {
    if TrimSpace(s.eventId) == "" then Some(ArgumentError("EventId"))
    else BlankKey(s.worldId, s.npcEntityId, s.playerEntityId)
  }

  function BlankKey(worldId: string, npcEntityId: string, playerEntityId: string): Option<ArgumentError> {
    if TrimSpace(worldId) == "" then Some(ArgumentError("worldId"))
    else if TrimSpace(npcEntityId) == "" then Some(ArgumentError("npcEntityId"))
    else if TrimSpace(playerEntityId) == "" then Some(ArgumentError("playerEntityId"))
    else None
  }

  /* ---- What the operations do ---- */

  function FreeIfHeld(s: Store, key: InteractionKey, event: string): Store {
    if key in s.inFlight && s.inFlight[key] == event then s.(inFlight := s.inFlight - {key}) else s
  }

  function Hold(s: Store, snapshot: Snapshot): Store {
    Store(s.contexts[EventOf(snapshot) := Pending(snapshot, false)], s.inFlight[KeyOf(snapshot) := EventOf(snapshot)])
  }

  predicate IsCommitted(s: Store, event: string) {
    event in s.contexts && s.contexts[event].committed
  }

  predicate HeldByOther(s: Store, snapshot: Snapshot) {
    KeyOf(snapshot) in s.inFlight && s.inFlight[KeyOf(snapshot)] != EventOf(snapshot)
  }

  predicate Reserves(s: Store, snapshot: Snapshot) {
    IsCommitted(s, EventOf(snapshot)) || !HeldByOther(s, snapshot)
  }

  function Reserve(s: Store, snapshot: Snapshot): Store {
    var event := EventOf(snapshot);
    if IsCommitted(s, event) || HeldByOther(s, snapshot) then s
    else Hold(if event in s.contexts then FreeIfHeld(s, KeyOf(s.contexts[event].snapshot), event) else s, snapshot)
  }

  // A handoff takes a free key, its own key, or that of a committed event of the same conversation.
  predicate HandsOff(s: Store, snapshot: Snapshot) {
    HeldByOther(s, snapshot) ==>
      var existing := s.inFlight[KeyOf(snapshot)];
      IsCommitted(s, existing) && s.contexts[existing].snapshot.conversationId == snapshot.conversationId
  }

  function Handoff(s: Store, snapshot: Snapshot): Store {
    if !HandsOff(s, snapshot) then s
    else if HeldByOther(s, snapshot) then Hold(s.(contexts := s.contexts - {s.inFlight[KeyOf(snapshot)]}), snapshot)
    else Hold(s, snapshot)
  }

  function CommitEvent(s: Store, event: string): Store {
    if event in s.contexts then s.(contexts := s.contexts[event := s.contexts[event].(committed := true)]) else s
  }

  function Remove(s: Store, event: string): Store {
    if event !in s.contexts then s
    else FreeIfHeld(s.(contexts := s.contexts - {event}), KeyOf(s.contexts[event].snapshot), event)
  }

  function DiscardEvent(s: Store, event: string): Store {
    if IsCommitted(s, event) then s else Remove(s, event)
  }

  /* ---- The two dictionaries stay inverse ---- */

  ghost predicate Inverse(s: Store) {
    && (forall e | e in s.contexts ::
        KeyOf(s.contexts[e].snapshot) in s.inFlight && s.inFlight[KeyOf(s.contexts[e].snapshot)] == e)
    && (forall k | k in s.inFlight :: s.inFlight[k] in s.contexts && KeyOf(s.contexts[s.inFlight[k]].snapshot) == k)
  }

  // Each world, npc and player has at most one live interaction, and it is the one in flight.
  lemma OneInteractionPerKey(s: Store, d: string, e: string)
    requires Inverse(s) && d in s.contexts && e in s.contexts
    requires KeyOf(s.contexts[d].snapshot) == KeyOf(s.contexts[e].snapshot)
    ensures d == e
  {
  }

  lemma ReserveKeepsInverse(s: Store, snapshot: Snapshot)
    requires Inverse(s)
    ensures Inverse(Reserve(s, snapshot))
  {
  }

  lemma CommitKeepsInverse(s: Store, event: string)
    requires Inverse(s)
    ensures Inverse(CommitEvent(s, event))
  {
  }

  lemma RemoveKeepsInverse(s: Store, event: string)
    requires Inverse(s)
    ensures Inverse(Remove(s, event)) && Inverse(DiscardEvent(s, event))
  {
  }

  // The event id of the handoff is held under another key.
  predicate HeldElsewhere(s: Store, snapshot: Snapshot) {
    EventOf(snapshot) in s.contexts && KeyOf(s.contexts[EventOf(snapshot)].snapshot) != KeyOf(snapshot)
  }

  lemma HandoffKeeps(s: Store, snapshot: Snapshot)
    requires Inverse(s) && HandsOff(s, snapshot) && !HeldElsewhere(s, snapshot)
    ensures Inverse(Handoff(s, snapshot))
  {
  }

  lemma HandoffBreaks(s: Store, snapshot: Snapshot)
    requires Inverse(s) && HandsOff(s, snapshot) && HeldElsewhere(s, snapshot)
    ensures !Inverse(Handoff(s, snapshot))
  {
    var t, event := Handoff(s, snapshot), EventOf(snapshot);
    var other := KeyOf(s.contexts[event].snapshot);
    assert other in t.inFlight && t.inFlight[other] == event;
    assert KeyOf(t.contexts[event].snapshot) != other;
  }

  // A handoff keeps the dictionaries inverse unless it is accepted for an event id held under another key.
  lemma HandoffKeepsInverse(s: Store, snapshot: Snapshot)
    requires Inverse(s)
    ensures Inverse(Handoff(s, snapshot)) <==> !(HandsOff(s, snapshot) && HeldElsewhere(s, snapshot))
  {
    if HandsOff(s, snapshot) {
      if HeldElsewhere(s, snapshot) {
        HandoffBreaks(s, snapshot);
      } else {
        HandoffKeeps(s, snapshot);
      }
    }
  }

  // Such a handoff: the second one reuses the event id for another player.
  lemma HandoffCanBreakInverse()
    ensures var first := Snapshot("e", "w", "n", "p", "c");
            var second := Snapshot("e", "w", "n", "q", "c");
            var s := Handoff(Store(map[], map[]), first);
      Inverse(s) && HandsOff(s, second) && !Inverse(Handoff(s, second))
  {
    var first := Snapshot("e", "w", "n", "p", "c");
    var second := Snapshot("e", "w", "n", "q", "c");
    assert TrimSpace("e") == "e" && TrimSpace("w") == "w" && TrimSpace("n") == "n" && TrimSpace("p") == "p" &&
        TrimSpace("q") == "q";
    var s := Handoff(Store(map[], map[]), first);
    HandoffKeepsInverse(Store(map[], map[]), first);
    HandoffKeepsInverse(s, second);
  }

  // An accepted handoff displaces at most one event, which was committed, of the same conversation and key;
  // every other interaction stays as it is.
  lemma HandoffDisplaces(s: Store, snapshot: Snapshot, d: string)
    requires Inverse(s) && d in s.contexts && d != EventOf(snapshot)
    ensures var t := Handoff(s, snapshot);
      if d in t.contexts then t.contexts[d] == s.contexts[d]
      else
        && s.contexts[d].committed && s.contexts[d].snapshot.conversationId == snapshot.conversationId
        && KeyOf(s.contexts[d].snapshot) == KeyOf(snapshot) && t.inFlight[KeyOf(snapshot)] == EventOf(snapshot)
  {
  }

  lemma GoneIsUntouched(s: Store, event: string)
    requires event !in s.contexts
    ensures Remove(s, event) == s && DiscardEvent(s, event) == s && CommitEvent(s, event) == s
  {
  }

  /* ---- Runs ---- */

  datatype Operation = DoReserve(snapshot: Snapshot) | DoHandoff(snapshot: Snapshot) | DoCommit(event: string)
                     | DoDiscard(event: string) | DoRelease(event: string) | DoClear

  function Do(s: Store, op: Operation): Store {
    match op
    case DoReserve(x) => Reserve(s, x)
    case DoHandoff(x) => Handoff(s, x)
    case DoCommit(e) => CommitEvent(s, e)
    case DoDiscard(e) => DiscardEvent(s, e)
    case DoRelease(e) => Remove(s, e)
    case DoClear => Store(map[], map[])
  }

  function DoAll(s: Store, ops: seq<Operation>): Store {
    if ops == [] then s else Do(DoAll(s, ops[..|ops| - 1]), ops[|ops| - 1])
  }

  predicate Holds(op: Operation, event: string) {
    (op.DoReserve? || op.DoHandoff?) && EventOf(op.snapshot) == event
  }

  // No event id is used under two keys: every id has a home.
  ghost predicate HasHomes(ops: seq<Operation>, home: string -> InteractionKey) {
    forall i | 0 <= i < |ops| && (ops[i].DoReserve? || ops[i].DoHandoff?) ::
        KeyOf(ops[i].snapshot) == home(EventOf(ops[i].snapshot))
  }

  ghost predicate AtHome(s: Store, home: string -> InteractionKey) {
    forall e | e in s.contexts :: KeyOf(s.contexts[e].snapshot) == home(e)
  }

  lemma OperationKeepsHome(s: Store, op: Operation, home: string -> InteractionKey)
    requires AtHome(s, home) && ((op.DoReserve? || op.DoHandoff?) ==> KeyOf(op.snapshot) == home(EventOf(op.snapshot)))
    ensures AtHome(Do(s, op), home)
  {
  }

  lemma OperationKeepsInverse(s: Store, op: Operation, home: string -> InteractionKey)
    requires Inverse(s) && AtHome(s, home)
    requires ((op.DoReserve? || op.DoHandoff?) ==> KeyOf(op.snapshot) == home(EventOf(op.snapshot)))
    ensures Inverse(Do(s, op))
  {
    match op
    case DoReserve(x) => ReserveKeepsInverse(s, x);
    case DoHandoff(x) => HandoffKeepsInverse(s, x);
    case DoCommit(e) => CommitKeepsInverse(s, e);
    case DoDiscard(e) => RemoveKeepsInverse(s, e);
    case DoRelease(e) => RemoveKeepsInverse(s, e);
    case DoClear =>
  }

  // Where no event id is used under two keys the dictionaries are inverse after every run.
  lemma {:induction false} RunKeepsInverse(ops: seq<Operation>, home: string -> InteractionKey)
    requires HasHomes(ops, home)
    ensures Inverse(DoAll(Store(map[], map[]), ops)) && AtHome(DoAll(Store(map[], map[]), ops), home)
  {
    if ops != [] {
      var n := |ops| - 1;
      RunKeepsInverse(ops[..n], home);
      var s := DoAll(Store(map[], map[]), ops[..n]);
      OperationKeepsInverse(s, ops[n], home);
      OperationKeepsHome(s, ops[n], home);
    }
  }

  // An event that is gone, for one because it was displaced, stays gone until it is reserved again; releasing it
  // at any time until then changes nothing.
  lemma {:induction false} GoneStaysGone(s: Store, ops: seq<Operation>, event: string)
    requires event !in s.contexts && forall i | 0 <= i < |ops| :: !Holds(ops[i], event)
    ensures event !in DoAll(s, ops).contexts && Remove(DoAll(s, ops), event) == DoAll(s, ops)
  {
    if ops != [] {
      GoneStaysGone(s, ops[..|ops| - 1], event);
    }
  }

  // The event d that a handoff displaced was committed and of the same conversation.  However late it is released,
  // that frees nothing, and the key stays with the event of the handoff until another operation takes it.
  lemma LateReleaseFreesNothing(s: Store, snapshot: Snapshot, d: string, ops: seq<Operation>)
    requires Inverse(s) && d in s.contexts && d != EventOf(snapshot) && d !in Handoff(s, snapshot).contexts
    requires forall i | 0 <= i < |ops| :: !Holds(ops[i], d)
    ensures IsCommitted(s, d) && s.contexts[d].snapshot.conversationId == snapshot.conversationId
    ensures var t := Handoff(s, snapshot); Remove(t, d) == t && t.inFlight[KeyOf(snapshot)] == EventOf(snapshot)
    ensures var t := DoAll(Handoff(s, snapshot), ops);
      Remove(t, d) == t && DiscardEvent(t, d) == t && CommitEvent(t, d) == t
  {
    HandoffDisplaces(s, snapshot, d);
    GoneIsUntouched(Handoff(s, snapshot), d);
    GoneStaysGone(Handoff(s, snapshot), ops, d);
    GoneIsUntouched(DoAll(Handoff(s, snapshot), ops), d);
  }

  /* ---- The store as an object ---- */

  class InteractionContextStore {
    var contexts: map<string, Pending>
    var inFlightByKey: map<InteractionKey, string>

    function View(): Store
      reads this
    {
      Store(contexts, inFlightByKey)
    }

    constructor ()
      ensures View() == Store(map[], map[]) && Inverse(View())
    {
      contexts, inFlightByKey := map[], map[];
    }

    method TryReserve(snapshot: Snapshot) returns (r: Result<Reservation, ArgumentError>)
      modifies this
      ensures BlankId(snapshot).Some? ==> r == Err(BlankId(snapshot).value) && View() == old(View())
      ensures BlankId(snapshot).None? ==>
        && r == Ok(if Reserves(old(View()), snapshot) then Reserved else InFlight)
        && View() == Reserve(old(View()), snapshot)
    {
      if BlankId(snapshot).Some? {
        return Err(BlankId(snapshot).value);
      }
      var event, key := EventOf(snapshot), KeyOf(snapshot);
      if event in contexts && contexts[event].committed {
        return Ok(Reserved);
      }
      if key in inFlightByKey && inFlightByKey[key] != event {
        return Ok(InFlight);
      }
      if event in contexts {
        RemoveInFlightIfMatches(contexts[event].snapshot, event);
      }
      contexts := contexts[event := Pending(snapshot, false)];
      inFlightByKey := inFlightByKey[key := event];
      r := Ok(Reserved);
    }

    // Whether an interaction of the world, npc and player is live.
    method IsInFlight(worldId: string, npcEntityId: string, playerEntityId: string)
      returns (r: Result<bool, ArgumentError>)
      ensures r.Err? <==> TrimSpace(worldId) == "" || TrimSpace(npcEntityId) == "" || TrimSpace(playerEntityId) == ""
      ensures var key := InteractionKey(TrimSpace(worldId), TrimSpace(npcEntityId), TrimSpace(playerEntityId));
        Inverse(View()) && r.Ok? ==> (r.value <==> exists e :: e in contexts && KeyOf(contexts[e].snapshot) == key)
    {
      var blank := BlankKey(worldId, npcEntityId, playerEntityId);
      if blank.Some? {
        return Err(blank.value);
      }
      var key := InteractionKey(TrimSpace(worldId), TrimSpace(npcEntityId), TrimSpace(playerEntityId));
      assert Inverse(View()) && key in inFlightByKey ==> inFlightByKey[key] in contexts;
      r := Ok(key in inFlightByKey);
    }

    method TryReserveHandoff(snapshot: Snapshot) returns (r: Result<Reservation, ArgumentError>)
      modifies this
      ensures BlankId(snapshot).Some? ==> r == Err(BlankId(snapshot).value) && View() == old(View())
      ensures BlankId(snapshot).None? ==>
        && r == Ok(if HandsOff(old(View()), snapshot) then Reserved else InFlight)
        && View() == Handoff(old(View()), snapshot)
    {
      if BlankId(snapshot).Some? {
        return Err(BlankId(snapshot).value);
      }
      var event, key := EventOf(snapshot), KeyOf(snapshot);
      if key !in inFlightByKey || inFlightByKey[key] == event {
        contexts := contexts[event := Pending(snapshot, false)];
        inFlightByKey := inFlightByKey[key := event];
        return Ok(Reserved);
      }
      var existing := inFlightByKey[key];
      if existing !in contexts || !contexts[existing].committed
         || contexts[existing].snapshot.conversationId != snapshot.conversationId {
        return Ok(InFlight);
      }
      contexts := contexts - {existing};
      contexts := contexts[event := Pending(snapshot, false)];
      inFlightByKey := inFlightByKey[key := event];
      r := Ok(Reserved);
    }

    method Commit(eventId: string) returns (r: Result<(), ArgumentError>)
      modifies this`contexts
      ensures TrimSpace(eventId) == "" ==> r == Err(ArgumentError("eventId")) && View() == old(View())
      ensures TrimSpace(eventId) != "" ==> r.Ok? && View() == CommitEvent(old(View()), TrimSpace(eventId))
    {
      var event := TrimSpace(eventId);
      if event == "" {
        return Err(ArgumentError("eventId"));
      }
      if event in contexts {
        contexts := contexts[event := contexts[event].(committed := true)];
      }
      r := Ok(());
    }

    // Drops an interaction that is not committed and returns what it held.
    method DiscardPending(eventId: string) returns (r: Result<Option<Snapshot>, ArgumentError>)
      modifies this
      ensures TrimSpace(eventId) == "" ==> r == Err(ArgumentError("eventId")) && View() == old(View())
      ensures TrimSpace(eventId) != "" ==>
        var event, was := TrimSpace(eventId), old(View());
        && View() == DiscardEvent(was, event)
        && r == Ok(if event in was.contexts && !was.contexts[event].committed
                   then Some(was.contexts[event].snapshot) else None)
    {
      var event := TrimSpace(eventId);
      if event == "" {
        return Err(ArgumentError("eventId"));
      }
      if event !in contexts || contexts[event].committed {
        return Ok(None);
      }
      var snapshot := contexts[event].snapshot;
      contexts := contexts - {event};
      RemoveInFlightIfMatches(snapshot, event);
      r := Ok(Some(snapshot));
    }

    // Drops an interaction, committed or not, and returns what it held.
    method Release(eventId: string) returns (r: Result<Option<Snapshot>, ArgumentError>)
      modifies this
      ensures TrimSpace(eventId) == "" ==> r == Err(ArgumentError("eventId")) && View() == old(View())
      ensures TrimSpace(eventId) != "" ==>
        var event, was := TrimSpace(eventId), old(View());
        && View() == Remove(was, event)
        && r == Ok(if event in was.contexts then Some(was.contexts[event].snapshot) else None)
    {
      var event := TrimSpace(eventId);
      if event == "" {
        return Err(ArgumentError("eventId"));
      }
      if event !in contexts {
        return Ok(None);
      }
      var snapshot := contexts[event].snapshot;
      contexts := contexts - {event};
      RemoveInFlightIfMatches(snapshot, event);
      r := Ok(Some(snapshot));
    }

    // Only a committed interaction is visible to actions.
    method TryGet(eventId: string) returns (r: Result<Option<Snapshot>, ArgumentError>)
      ensures TrimSpace(eventId) == "" <==> r.Err?
      ensures r.Ok? ==> (r.value.Some? <==> IsCommitted(View(), TrimSpace(eventId)))
      ensures r.Ok? && r.value.Some? ==> r.value.value == contexts[TrimSpace(eventId)].snapshot
    {
      var event := TrimSpace(eventId);
      if event == "" {
        return Err(ArgumentError("eventId"));
      }
      if event !in contexts || !contexts[event].committed {
        return Ok(None);
      }
      r := Ok(Some(contexts[event].snapshot));
    }

    method Clear()
      modifies this
      ensures View() == Store(map[], map[]) && Inverse(View())
    {
      contexts, inFlightByKey := map[], map[];
    }

    method RemoveInFlightIfMatches(snapshot: Snapshot, event: string)
      modifies this`inFlightByKey
      ensures View() == FreeIfHeld(old(View()), KeyOf(snapshot), event)
    {
      var key := KeyOf(snapshot);
      if key in inFlightByKey && inFlightByKey[key] == event {
        inFlightByKey := inFlightByKey - {key};
      }
    }
  }
}

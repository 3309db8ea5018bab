/**
 What the operations on interactions do (adapters/stardew/src/Runtime/InteractionContextStore.cs:44-166): laws about
 every store, entry by entry.
 */
module InteractionLaws {
  import opened Common
  import opened Text
  import opened InteractionStore

  // The key and the id of a snapshot are its trimmed ids.
  lemma IdsAreTrimmed(x: Snapshot)
    ensures KeyOf(x) == InteractionKey(TrimSpace(x.worldId), TrimSpace(x.npcEntityId), TrimSpace(x.playerEntityId))
    ensures EventOf(x) == TrimSpace(x.eventId)
  {
  }

  // A snapshot is refused for the first of its ids that is blank.
  lemma BlankIdTells(x: Snapshot)
    ensures BlankId(x).None? <==>
      && TrimSpace(x.eventId) != "" && TrimSpace(x.worldId) != ""
      && TrimSpace(x.npcEntityId) != "" && TrimSpace(x.playerEntityId) != ""
    ensures BlankId(x) == Some(ArgumentError("EventId")) <==> TrimSpace(x.eventId) == ""
    ensures BlankId(x) == Some(ArgumentError("worldId")) <==> TrimSpace(x.eventId) != "" && TrimSpace(x.worldId) == ""
    ensures BlankId(x) == Some(ArgumentError("playerEntityId")) <==>
      && TrimSpace(x.eventId) != "" && TrimSpace(x.worldId) != ""
      && TrimSpace(x.npcEntityId) != "" && TrimSpace(x.playerEntityId) == ""
  {
  }

  // The event of the snapshot is held under its key and waits to be committed.
  ghost predicate IsHeld(t: Store, x: Snapshot) {
    && EventOf(x) in t.contexts && t.contexts[EventOf(x)] == Pending(x, false)
    && KeyOf(x) in t.inFlight && t.inFlight[KeyOf(x)] == EventOf(x)
  }

  // Nothing but what belongs to these events and keys has changed.
  ghost predicate SameBut(s: Store, t: Store, events: set<string>, keys: set<InteractionKey>) {
    && (forall e | e !in events :: (e in t.contexts <==> e in s.contexts))
    && (forall e | e !in events && e in s.contexts :: t.contexts[e] == s.contexts[e])
    && (forall k | k !in keys :: (k in t.inFlight <==> k in s.inFlight))
    && (forall k | k !in keys && k in s.inFlight :: t.inFlight[k] == s.inFlight[k])
  }

  lemma SameThrough(s: Store, t: Store, u: Store, a: set<string>, b: set<string>, j: set<InteractionKey>,
                    k: set<InteractionKey>)
    requires SameBut(s, t, a, j) && SameBut(t, u, b, k)
    ensures SameBut(s, u, a + b, j + k)
  {
  }

  lemma HoldTells(s: Store, x: Snapshot)
    ensures IsHeld(Hold(s, x), x) && SameBut(s, Hold(s, x), {EventOf(x)}, {KeyOf(x)})
  {
  }

  lemma FreeTells(s: Store, k: InteractionKey, e: string)
    ensures var t := FreeIfHeld(s, k, e);
      && SameBut(s, t, {}, {k}) && (k in t.inFlight ==> k in s.inFlight && t.inFlight[k] == s.inFlight[k] != e)
  {
  }

  // The event is held under one key.
  ghost predicate HeldOnce(t: Store, x: Snapshot) {
    forall j | j in t.inFlight && t.inFlight[j] == EventOf(x) :: j == KeyOf(x)
  }

  // A committed event is left as it is, and a key in flight for another event is refused.  Any other reservation
  // holds the event under its key and nowhere else.
  lemma ReserveTells(s: Store, x: Snapshot)
    ensures var e, k, t := EventOf(x), KeyOf(x), Reserve(s, x);
      if e in s.contexts && s.contexts[e].committed then Reserves(s, x) && t == s
      else if k in s.inFlight && s.inFlight[k] != e then !Reserves(s, x) && t == s
      else
        && Reserves(s, x) && IsHeld(t, x)
        && SameBut(s, t, {e}, if e in s.contexts then {k, KeyOf(s.contexts[e].snapshot)} else {k})
  {
    var e := EventOf(x);
    if e in s.contexts {
      MoveTells(s, x, KeyOf(s.contexts[e].snapshot));
    } else {
      HoldTells(s, x);
    }
  }

  lemma MoveTells(s: Store, x: Snapshot, was: InteractionKey)
    ensures var t := Hold(FreeIfHeld(s, was, EventOf(x)), x);
      IsHeld(t, x) && SameBut(s, t, {EventOf(x)}, {KeyOf(x), was})
  {
    var freed := FreeIfHeld(s, was, EventOf(x));
    FreeTells(s, was, EventOf(x));
    HoldTells(freed, x);
    SameThrough(s, freed, Hold(freed, x), {}, {EventOf(x)}, {was}, {KeyOf(x)});
    assert {was} + {KeyOf(x)} == {KeyOf(x), was};
  }

  lemma ReservedIsHeldOnce(s: Store, x: Snapshot)
    requires Inverse(s) && IsHeld(Reserve(s, x), x)
    ensures HeldOnce(Reserve(s, x), x)
  {
    ReserveKeepsInverse(s, x);
  }

  // A handoff is refused exactly where the key is in flight for another event that is not committed or is of another
  // conversation; an event in flight that it replaces is gone.
  lemma HandoffTells(s: Store, x: Snapshot)
    requires Inverse(s)
    ensures var e, k, t := EventOf(x), KeyOf(x), Handoff(s, x);
      if !(k in s.inFlight && s.inFlight[k] != e) then
        HandsOff(s, x) && IsHeld(t, x) && SameBut(s, t, {e}, {k})
      else
        var d := s.inFlight[k];
        if s.contexts[d].committed && s.contexts[d].snapshot.conversationId == x.conversationId
        then HandsOff(s, x) && IsHeld(t, x) && d !in t.contexts && SameBut(s, t, {e, d}, {k})
        else !HandsOff(s, x) && t == s
  {
    if HandsOff(s, x) {
      if HeldByOther(s, x) {
        var d := s.inFlight[KeyOf(x)];
        DisplaceTells(s, x, d);
      } else {
        HoldTells(s, x);
      }
    }
  }

  lemma DisplaceTells(s: Store, x: Snapshot, d: string)
    requires d != EventOf(x)
    ensures var t := Hold(s.(contexts := s.contexts - {d}), x);
      IsHeld(t, x) && d !in t.contexts && SameBut(s, t, {EventOf(x), d}, {KeyOf(x)})
  {
    var without := s.(contexts := s.contexts - {d});
    HoldTells(without, x);
    SameThrough(s, without, Hold(without, x), {d}, {EventOf(x)}, {}, {KeyOf(x)});
    assert {d} + {EventOf(x)} == {EventOf(x), d};
  }

  lemma CommitTells(s: Store, e: string)
    ensures var t := CommitEvent(s, e);
      && SameBut(s, t, {e}, {}) && (e in t.contexts <==> e in s.contexts)
      && (e in s.contexts ==> t.contexts[e] == Pending(s.contexts[e].snapshot, true))
  {
  }

  // A released event is gone, and its key is free; discarding leaves a committed event as it is.
  lemma RemoveTells(s: Store, e: string)
    requires Inverse(s)
    ensures var t := Remove(s, e);
      && e !in t.contexts && (e !in s.contexts ==> t == s)
      && (e in s.contexts ==>
          var k := KeyOf(s.contexts[e].snapshot); k !in t.inFlight && SameBut(s, t, {e}, {k}))
    ensures DiscardEvent(s, e) == if e in s.contexts && s.contexts[e].committed then s else Remove(s, e)
  {
  }

  // Where the dictionaries are not inverse, the key is left to the event that holds it.
  lemma RemoveLeavesOthers(s: Store, e: string, k: InteractionKey)
    requires k in s.inFlight && s.inFlight[k] != e
    ensures k in Remove(s, e).inFlight && Remove(s, e).inFlight[k] == s.inFlight[k]
  {
  }

  // After an interaction was released the same world, npc and player can be reserved for any event that is not
  // held, and the event can be reserved again.
  lemma ReleaseMakesRoom(s: Store, e: string, x: Snapshot)
    requires Inverse(s) && e in s.contexts && KeyOf(s.contexts[e].snapshot) == KeyOf(x)
    ensures Reserves(Remove(s, e), x) && HandsOff(Remove(s, e), x)
  {
    RemoveTells(s, e);
  }
}

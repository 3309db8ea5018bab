/**
 Which agent an event is for (runtime/internal/gateway/gateway.go:329-428, runtime/internal/session/identity.go:14-30).
 */
module AgentTarget {
  import opened Common
  import opened Text
  import opened Entities

  datatype AgentSessionKey = AgentSessionKey(gameId: string, worldId: string, entityId: string)

  datatype GameEvent = GameEvent(eventId: string, eventType: string, worldId: string, targetEntityId: string,
                                 entities: seq<Option<EntityRef>>)

  datatype RejectCode = EventTypeMissing | TargetEntityMissing | TargetEntityConflict | TargetEntityNotInEvent
                      | IdentityScopeMissing

  datatype Resolved = Resolved(key: AgentSessionKey, target: EntityRef)

  function NormalizeEntityRef(e: EntityRef): EntityRef {
    EntityRef(TrimSpace(e.entityId), TrimSpace(e.entityType), TrimSpace(e.displayName), TrimSpace(e.definitionId))
  }

  // Entity i of the event is a reference to the target.
  predicate Refers(entities: seq<Option<EntityRef>>, id: string, i: int) {
    0 <= i < |entities| && entities[i].Some? && TrimSpace(entities[i].value.entityId) == id
  }

  // Two references to the target differ.
  ghost predicate Conflicting(entities: seq<Option<EntityRef>>, id: string) {
    exists i, j :: Refers(entities, id, i) && Refers(entities, id, j)
      && NormalizeEntityRef(entities[i].value) != NormalizeEntityRef(entities[j].value)
  }

  // Two references say the same, apart from white space around it.
  ghost predicate Same(a: EntityRef, b: EntityRef) {
    && TrimSpace(a.entityId) == TrimSpace(b.entityId) && TrimSpace(a.entityType) == TrimSpace(b.entityType)
    && TrimSpace(a.displayName) == TrimSpace(b.displayName) && TrimSpace(a.definitionId) == TrimSpace(b.definitionId)
  }

  lemma ReferenceTells(entities: seq<Option<EntityRef>>, id: string, i: nat)
    requires i < |entities|
    ensures Refers(entities, id, i) <==> entities[i].Some? && TrimSpace(entities[i].value.entityId) == id
  {
  }

  lemma SameIsNormalized(a: EntityRef, b: EntityRef)
    ensures Same(a, b) <==> NormalizeEntityRef(a) == NormalizeEntityRef(b)
  {
  }

  // References conflict exactly when two of them differ in more than white space.
  lemma ConflictTells(entities: seq<Option<EntityRef>>, id: string)
    ensures Conflicting(entities, id) <==>
      exists i, j :: Refers(entities, id, i) && Refers(entities, id, j) && !Same(entities[i].value, entities[j].value)
  {
    if Conflicting(entities, id) {
      var i, j :| Refers(entities, id, i) && Refers(entities, id, j)
        && NormalizeEntityRef(entities[i].value) != NormalizeEntityRef(entities[j].value);
      SameIsNormalized(entities[i].value, entities[j].value);
    }
    if i, j :| Refers(entities, id, i) && Refers(entities, id, j) && !Same(entities[i].value, entities[j].value) {
      SameIsNormalized(entities[i].value, entities[j].value);
    }
  }

  method CanonicalTargetEntity(entities: seq<Option<EntityRef>>, id: string)
    returns (r: Result<Option<EntityRef>, RejectCode>)
    ensures r.Err? ==> r.error == TargetEntityConflict
    ensures r.Err? <==> Conflicting(entities, id)
    ensures r == Ok(None) <==> forall i :: !Refers(entities, id, i)
    ensures r.Ok? && r.value.Some? ==>
      forall i | Refers(entities, id, i) :: r.value.value == NormalizeEntityRef(entities[i].value)
  {
    var resolved: Option<EntityRef> := None;
    ghost var first := 0;
    for i := 0 to |entities|
      invariant resolved.None? ==> forall k | k < i :: !Refers(entities, id, k)
      invariant resolved.Some? ==> 0 <= first < i && Refers(entities, id, first)
      invariant resolved.Some? ==>
        forall k | k < i && Refers(entities, id, k) :: resolved.value == NormalizeEntityRef(entities[k].value)
    {
      if entities[i].None? {
        continue;
      }
      var normalized := NormalizeEntityRef(entities[i].value);
      if normalized.entityId != id {
        continue;
      }
      assert Refers(entities, id, i);
      if resolved.None? {
        resolved, first := Some(normalized), i;
        continue;
      }
      if resolved.value != normalized {
        assert NormalizeEntityRef(entities[first].value) == resolved.value;
        return Err(TargetEntityConflict);
      }
    }
    if resolved.Some? {
      assert Refers(entities, id, first);
    }
    r := Ok(resolved);
  }

  // The references to the target are there and agree.
  ghost predicate RefersTo(entities: seq<Option<EntityRef>>, id: string, target: EntityRef) {
    && (exists i :: Refers(entities, id, i))
    && forall i | Refers(entities, id, i) :: NormalizeEntityRef(entities[i].value) == target
  }

  // Why an event is for no agent: the first of these, in this order, that applies.
  ghost function RejectionOf(gameId: string, event: GameEvent): Option<RejectCode> {
    var id := TrimSpace(event.targetEntityId);
    if TrimSpace(event.eventType) == "" then Some(EventTypeMissing)
    else if id == "" then Some(TargetEntityMissing)
    else if Conflicting(event.entities, id) then Some(TargetEntityConflict)
    else if forall i :: !Refers(event.entities, id, i) then Some(TargetEntityNotInEvent)
    else if TrimSpace(gameId) == "" || TrimSpace(event.worldId) == "" then Some(IdentityScopeMissing)
    else None
  }

  // The target is this reference without white space around its parts, and has this id.
  ghost predicate IsTrimmed(target: EntityRef, e: EntityRef, id: string) {
    && target.entityId == TrimSpace(e.entityId) == id && target.entityType == TrimSpace(e.entityType)
    && target.displayName == TrimSpace(e.displayName) && target.definitionId == TrimSpace(e.definitionId)
  }

  // An event is for an agent exactly when its type and all parts of the identity are given and every reference
  // to its target agrees; the agent is then named by the trimmed ids of the game, the world and the target.
  method ResolveAgentTarget(gameId: string, event: GameEvent) returns (r: Result<Resolved, RejectCode>)
    ensures r.Ok? <==>
      && TrimSpace(event.eventType) != "" && TrimSpace(event.targetEntityId) != ""
      && TrimSpace(gameId) != "" && TrimSpace(event.worldId) != ""
      && exists target :: RefersTo(event.entities, TrimSpace(event.targetEntityId), target)
    ensures r.Ok? ==>
      && r.value.key == AgentSessionKey(TrimSpace(gameId), TrimSpace(event.worldId), TrimSpace(event.targetEntityId))
      && RefersTo(event.entities, TrimSpace(event.targetEntityId), r.value.target)
    ensures r.Ok? ==> exists i :: 0 <= i < |event.entities| && event.entities[i].Some?
                        && IsTrimmed(r.value.target, event.entities[i].value, TrimSpace(event.targetEntityId))
    ensures RejectionOf(gameId, event) == if r.Ok? then None else Some(r.error)
  {
    if TrimSpace(event.eventType) == "" {
      return Err(EventTypeMissing);
    }
    var id := TrimSpace(event.targetEntityId);
    if id == "" {
      return Err(TargetEntityMissing);
    }
    var target := CanonicalTargetEntity(event.entities, id);
    if target.Err? {
      assert forall t :: !RefersTo(event.entities, id, t);
      return Err(target.error);
    }
    if target.value.None? {
      return Err(TargetEntityNotInEvent);
    }
    assert RefersTo(event.entities, id, target.value.value);
    ghost var i :| Refers(event.entities, id, i);
    assert IsTrimmed(target.value.value, event.entities[i].value, id);
    TrimTwice(gameId);
    TrimTwice(event.worldId);
    TrimTwice(event.targetEntityId);
    var key := Resolve(TrimSpace(gameId), TrimSpace(event.worldId), target.value.value.entityId);
    if key.None? {
      return Err(IdentityScopeMissing);
    }
    r := Ok(Resolved(key.value, target.value.value));
  }

  function Resolve(gameId: string, worldId: string, entityId: string): Option<AgentSessionKey> {
    if TrimSpace(gameId) == "" || TrimSpace(worldId) == "" || TrimSpace(entityId) == "" then None
    else Some(AgentSessionKey(gameId, worldId, entityId))
  }
}

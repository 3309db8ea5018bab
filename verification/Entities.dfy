/** References to the entities of a game world (the EntityRef message of the protocol). */
module Entities {

  datatype EntityRef = EntityRef(entityId: string, entityType: string, displayName: string, definitionId: string)
}

/** Entities as the group accessor sees them: an identity and a set of
    component types that changes in place. */
module Entities {
  import opened Groups

  /** Stands for the entity's Guid. */
  type EntityId = nat

  class Entity {
    const id: EntityId
    var components: set<ComponentType>

    /** A new entity carries no components. */
    constructor (id: EntityId)
      ensures this.id == id && components == {}
    {
      this.id := id;
      components := {};
    }

    /** The entity now carries a component of type `componentType`. */
    method AddComponent(componentType: ComponentType)
      modifies this`components
      ensures components == old(components) + {componentType}
    {
      components := components + {componentType};
    }

    /** The entity no longer carries a component of type `componentType`. */
    method RemoveComponent(componentType: ComponentType)
      modifies this`components
      ensures components == old(components) - {componentType}
    {
      components := components - {componentType};
    }
  }
}

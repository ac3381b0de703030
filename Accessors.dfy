/** The cacheable group accessor: a live set of the entities of one group,
    updated in place by the four lifecycle events once monitoring has started.
    Each handler is specified by GroupCache.Step, whose properties (frame,
    idempotence, keeping the cache equal to the group's view) are proved there. */
module Accessors {
  import opened Groups
  import opened GroupCache
  import opened Entities

  class CacheableGroupAccessor {
    const accessorToken: GroupAccessorToken
    var cachedEntities: set<Entity>
    /** Whether the accessor is subscribed to the four event streams. */
    var monitoring: bool

    /** The cache starts as the caller's entities, taken as given. */
    constructor (accessorToken: GroupAccessorToken, initialEntities: seq<Entity>)
      ensures this.accessorToken == accessorToken && !monitoring
      ensures cachedEntities == set e | e in initialEntities
      ensures Distinct(initialEntities) ==> |cachedEntities| == |initialEntities|
    {
      this.accessorToken := accessorToken;
      cachedEntities := Snapshot(initialEntities);
      monitoring := false;
    }

    /** Subscribes to the four event streams; the cache itself is not touched. */
    method MonitorEntityChanges()
      modifies this`monitoring
      ensures monitoring
    {
      monitoring := true;
    }

    /** An entity joined the pool: cache it if it matches the group. */
    method OnEntityAdded(entity: Entity)
      modifies this`cachedEntities
      ensures cachedEntities == Step(accessorToken, old(cachedEntities), EntityAdded(entity), entity.components)
    {
      if !Matches(accessorToken, entity.components) {
        return;
      }
      cachedEntities := cachedEntities + {entity};
    }

    /** An entity left the pool: drop it if it is cached, whatever it carries. */
    method OnEntityRemoved(entity: Entity)
      modifies this`cachedEntities
      ensures cachedEntities == Step(accessorToken, old(cachedEntities), EntityRemoved(entity), entity.components)
    {
      if entity in cachedEntities {
        cachedEntities := cachedEntities - {entity};
      }
    }

    /** A component was added to `entity`: re-check all its current components
        and cache it if it is not cached yet and now matches. */
    method OnComponentAdded(entity: Entity, component: ComponentType)
      modifies this`cachedEntities
      ensures cachedEntities == Step(accessorToken, old(cachedEntities), ComponentAdded(entity, component), entity.components)
    {
      if entity !in cachedEntities && Matches(accessorToken, entity.components) {
        cachedEntities := cachedEntities + {entity};
      }
    }

    /** A component was removed from `entity`: if it is cached, re-check all its
        current components and evict it when they no longer match. */
    method OnComponentRemoved(entity: Entity, component: ComponentType)
      modifies this`cachedEntities
      ensures cachedEntities == Step(accessorToken, old(cachedEntities), ComponentRemoved(entity, component), entity.components)
    {
      if entity in cachedEntities {
        if Matches(accessorToken, entity.components) {
          return;
        }
        cachedEntities := cachedEntities - {entity};
      }
    }

    /** An event published on one of the four streams. Before monitoring has
        started nothing is subscribed and the event goes unseen. */
    method Receive(event: LifecycleEvent<Entity>)
      modifies this`cachedEntities
      ensures cachedEntities == if monitoring
        then Step(accessorToken, old(cachedEntities), event, event.entity.components)
        else old(cachedEntities)
    {
      if !monitoring {
        return;
      }
      match event
      case EntityAdded(e) => OnEntityAdded(e);
      case EntityRemoved(e) => OnEntityRemoved(e);
      case ComponentAdded(e, t) => OnComponentAdded(e, t);
      case ComponentRemoved(e, t) => OnComponentRemoved(e, t);
    }
  }

  /** The pool's entities as a world of `GroupCache`: each with its current component types. */
  ghost function PoolWorld(pool: set<Entity>): World<Entity>
    reads pool
  {
    map e | e in pool :: e.components
  }

  /** A component is added to an entity of the pool and the entity's
      ComponentAdded event reaches a monitoring accessor: a cache equal to the
      group's view of the pool stays equal to it. */
  method AddComponentAndPublish(accessor: CacheableGroupAccessor, pool: set<Entity>,
                                entity: Entity, component: ComponentType)
    requires accessor.monitoring && entity in pool
    requires accessor.cachedEntities == View(accessor.accessorToken, PoolWorld(pool))
    modifies entity`components, accessor`cachedEntities
    ensures entity.components == old(entity.components) + {component}
    ensures accessor.cachedEntities == View(accessor.accessorToken, PoolWorld(pool))
  {
    ghost var world := PoolWorld(pool);
    entity.AddComponent(component);
    accessor.Receive(ComponentAdded(entity, component));
    assert PoolWorld(pool) == Apply(world, AddComponent(entity, component));
    StepKeepsView(accessor.accessorToken, old(accessor.cachedEntities), world, AddComponent(entity, component));
  }

  /** A component is removed from an entity of the pool and the entity's
      ComponentRemoved event reaches a monitoring accessor: a cache equal to the
      group's view of the pool stays equal to it. */
  method RemoveComponentAndPublish(accessor: CacheableGroupAccessor, pool: set<Entity>,
                                   entity: Entity, component: ComponentType)
    requires accessor.monitoring && entity in pool
    requires accessor.cachedEntities == View(accessor.accessorToken, PoolWorld(pool))
    modifies entity`components, accessor`cachedEntities
    ensures entity.components == old(entity.components) - {component}
    ensures accessor.cachedEntities == View(accessor.accessorToken, PoolWorld(pool))
  {
    ghost var world := PoolWorld(pool);
    entity.RemoveComponent(component);
    accessor.Receive(ComponentRemoved(entity, component));
    assert PoolWorld(pool) == Apply(world, RemoveComponent(entity, component));
    StepKeepsView(accessor.accessorToken, old(accessor.cachedEntities), world, RemoveComponent(entity, component));
  }
}

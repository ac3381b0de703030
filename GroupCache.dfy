/** The cache of a group accessor as a value: how one lifecycle event changes
    the set of cached entities, and why that keeps the cache equal to the set
    of entities that match the group. The class in Accessors.dfy is specified
    by these functions. */
module GroupCache {
  import opened Groups

  /** The four lifecycle events an accessor listens to. Component events also
      name the component type that was added or removed. */
  datatype LifecycleEvent<E> =
    | EntityAdded(entity: E)
    | EntityRemoved(entity: E)
    | ComponentAdded(entity: E, component: ComponentType)
    | ComponentRemoved(entity: E, component: ComponentType)

  /** No entity occurs twice in `s`. */
  predicate Distinct<E(==)>(s: seq<E>)
  {
    forall i, j :: 0 <= i < j < |s| ==> s[i] != s[j]
  }

  /** The cache an accessor starts with: the caller's entities, taken as given
      (they are not filtered against the token). */
  function Snapshot<E(==)>(entities: seq<E>): (r: set<E>)
    ensures forall e :: e in r ==> e in entities
    ensures forall i :: 0 <= i < |entities| ==> entities[i] in r
    ensures Distinct(entities) ==> |r| == |entities|
  {
    if entities == [] then {}
    else
      var rest := Snapshot(entities[1..]);
      assert Distinct(entities) ==> entities[0] !in entities[1..];
      {entities[0]} + rest
  }

  /** The cache after one event, where `current` is the component set the
      event's entity carries when the event is handled (so a component event
      sees the entity with the component already added or removed). */
  function Step<E(==)>(token: GroupAccessorToken, cache: set<E>, event: LifecycleEvent<E>,
                       current: set<ComponentType>): (r: set<E>)
    ensures r - {event.entity} == cache - {event.entity}
  {
    match event
    case EntityAdded(e) =>
      if Matches(token, current) then cache + {e} else cache
    case EntityRemoved(e) =>
      if e in cache then cache - {e} else cache
    case ComponentAdded(e, _) =>
      if e !in cache && Matches(token, current) then cache + {e} else cache
    case ComponentRemoved(e, _) =>
      if e in cache && !Matches(token, current) then cache - {e} else cache
  }

  /** Removing an entity that is not cached, or a component event for an
      entity that is neither cached nor matching, leaves the cache as it is. */
  lemma StepIgnoresUnrelated<E>(token: GroupAccessorToken, cache: set<E>, e: E,
                                t: ComponentType, current: set<ComponentType>)
    requires e !in cache
    ensures Step(token, cache, EntityRemoved(e), current) == cache
    ensures !Matches(token, current) ==> Step(token, cache, ComponentAdded(e, t), current) == cache
    ensures !Matches(token, current) ==> Step(token, cache, ComponentRemoved(e, t), current) == cache
    ensures !Matches(token, current) ==> Step(token, cache, EntityAdded(e), current) == cache
  {
  }

  /** Handling the same event twice, with the entity unchanged in between,
      gives the same cache as handling it once. */
  lemma StepIdempotent<E>(token: GroupAccessorToken, cache: set<E>, event: LifecycleEvent<E>,
                          current: set<ComponentType>)
    ensures Step(token, Step(token, cache, event, current), event, current) == Step(token, cache, event, current)
  {
  }

  /** Component events re-check the entity's whole component set: which
      component the event names does not change the outcome. */
  lemma StepIgnoresNamedComponent<E>(token: GroupAccessorToken, cache: set<E>, e: E,
                                     t: ComponentType, u: ComponentType, current: set<ComponentType>)
    ensures Step(token, cache, ComponentAdded(e, t), current) == Step(token, cache, ComponentAdded(e, u), current)
    ensures Step(token, cache, ComponentRemoved(e, t), current) == Step(token, cache, ComponentRemoved(e, u), current)
  {
  }

  /** An event as it reaches the accessor, with the entity's components at that moment. */
  datatype Delivery<E> = Delivery(event: LifecycleEvent<E>, current: set<ComponentType>)

  /** The entities the deliveries' events name. */
  function Named<E(==)>(deliveries: seq<Delivery<E>>): set<E>
  {
    set i | 0 <= i < |deliveries| :: deliveries[i].event.entity
  }

  /** The cache after handling `deliveries` one after another, in delivery
      order. Only entities that some event names can change membership. */
  function Replay<E(==)>(token: GroupAccessorToken, cache: set<E>, deliveries: seq<Delivery<E>>): (r: set<E>)
    ensures r - Named(deliveries) == cache - Named(deliveries)
    decreases |deliveries|
  {
    if deliveries == [] then cache
    else
      var next := Step(token, cache, deliveries[0].event, deliveries[0].current);
      var r := Replay(token, next, deliveries[1..]);
      assert Named(deliveries) == {deliveries[0].event.entity} + Named(deliveries[1..]) by {
        forall x | x in Named(deliveries)
          ensures x in {deliveries[0].event.entity} + Named(deliveries[1..])
        {
          var i :| 0 <= i < |deliveries| && deliveries[i].event.entity == x;
          if i > 0 {
            assert deliveries[1..][i - 1] == deliveries[i];
          }
        }
      }
      var rest := Named(deliveries[1..]);
      assert r - rest == next - rest;
      assert next - {deliveries[0].event.entity} == cache - {deliveries[0].event.entity};
      assert r - Named(deliveries) == (r - rest) - {deliveries[0].event.entity};
      r
  }

  // ---------------------------------------------------------------------
  // The cache as an incremental view of the entities in the pool.
  // ---------------------------------------------------------------------

  /** The entities currently in the pool, each with its current component
      types. The token's pool takes no part in matching and events carry no
      pool, so one world stands for the entities of every pool together.
      The view theorems below assume that component changes happen only to
      entities of the world (`Permitted`); `OutsideComponentEventLeavesView`
      shows what happens otherwise. */
  type World<E> = map<E, set<ComponentType>>

  /** The entities of the world that currently match the group: the reference
      the cache is measured against. */
  function View<E(==)>(token: GroupAccessorToken, world: World<E>): set<E>
  {
    set e | e in world && Matches(token, world[e])
  }

  /** A change made to the entities of the world; each one publishes one lifecycle event. */
  datatype Change<E> =
    | AddEntity(entity: E, components: set<ComponentType>)
    | RemoveEntity(entity: E)
    | AddComponent(entity: E, component: ComponentType)
    | RemoveComponent(entity: E, component: ComponentType)

  /** Entities are added only when not yet in the world; component changes happen
      only to entities of the world. The accessor itself does not rely on this:
      an entity outside the world (removed, or never added) still publishes
      component events, and those are handled like any other. */
  predicate Permitted<E(==)>(world: World<E>, change: Change<E>)
  {
    match change
    case AddEntity(e, _) => e !in world
    case RemoveEntity(_) => true
    case AddComponent(e, _) => e in world
    case RemoveComponent(e, _) => e in world
  }

  /** The entities of the world after the change. */
  function Apply<E(==)>(world: World<E>, change: Change<E>): World<E>
    requires Permitted(world, change)
  {
    match change
    case AddEntity(e, cs) => world[e := cs]
    case RemoveEntity(e) => world - {e}
    case AddComponent(e, t) => world[e := world[e] + {t}]
    case RemoveComponent(e, t) => world[e := world[e] - {t}]
  }

  /** The event the change publishes, with the entity's components as the
      accessor sees them when it handles the event. */
  function Raise<E(==)>(world: World<E>, change: Change<E>): Delivery<E>
    requires Permitted(world, change)
  {
    match change
    case AddEntity(e, cs) => Delivery(EntityAdded(e), cs)
    case RemoveEntity(e) => Delivery(EntityRemoved(e), if e in world then world[e] else {})
    case AddComponent(e, t) => Delivery(ComponentAdded(e, t), world[e] + {t})
    case RemoveComponent(e, t) => Delivery(ComponentRemoved(e, t), world[e] - {t})
  }

  /** Every cached entity is in the world and matches the group. */
  ghost predicate Sound<E>(token: GroupAccessorToken, cache: set<E>, world: World<E>)
  {
    forall e :: e in cache ==> e in world && Matches(token, world[e])
  }

  /** Every entity of the world that matches the group is cached. */
  ghost predicate Complete<E>(token: GroupAccessorToken, cache: set<E>, world: World<E>)
  {
    forall e :: e in world && Matches(token, world[e]) ==> e in cache
  }

  /** Handling the event a change publishes keeps a sound cache sound. */
  lemma StepKeepsSound<E>(token: GroupAccessorToken, cache: set<E>, world: World<E>, change: Change<E>)
    requires Permitted(world, change) && Sound(token, cache, world)
    ensures Sound(token, Step(token, cache, Raise(world, change).event, Raise(world, change).current),
                  Apply(world, change))
  {
    var d, w' := Raise(world, change), Apply(world, change);
    var c' := Step(token, cache, d.event, d.current);
    forall x | x in c'
      ensures x in w' && Matches(token, w'[x])
    {
      if x != change.entity {
        assert x in cache;
      } else {
        match change
        case AddEntity(e, cs) =>
        case RemoveEntity(e) =>
        case AddComponent(e, t) =>
          if e in cache {
            MatchAfterAdd(token, world[e], t);
          }
        case RemoveComponent(e, t) =>
      }
    }
  }

  /** Handling the event a change publishes keeps a complete cache complete. */
  lemma StepKeepsComplete<E>(token: GroupAccessorToken, cache: set<E>, world: World<E>, change: Change<E>)
    requires Permitted(world, change) && Complete(token, cache, world)
    ensures Complete(token, Step(token, cache, Raise(world, change).event, Raise(world, change).current),
                     Apply(world, change))
  {
    var d, w' := Raise(world, change), Apply(world, change);
    var c' := Step(token, cache, d.event, d.current);
    forall x | x in w' && Matches(token, w'[x])
      ensures x in c'
    {
      if x != change.entity {
        assert x in world && w'[x] == world[x];
      } else {
        match change
        case AddEntity(e, cs) =>
        case RemoveEntity(e) =>
        case AddComponent(e, t) =>
        case RemoveComponent(e, t) =>
          MatchAfterRemove(token, world[e], t);
      }
    }
  }

  /** A cache equal to the view stays equal to the view after one change and its event. */
  lemma StepKeepsView<E>(token: GroupAccessorToken, cache: set<E>, world: World<E>, change: Change<E>)
    requires Permitted(world, change) && cache == View(token, world)
    ensures Step(token, cache, Raise(world, change).event, Raise(world, change).current)
            == View(token, Apply(world, change))
  {
    StepKeepsSound(token, cache, world, change);
    StepKeepsComplete(token, cache, world, change);
  }

  /** Every change of the sequence is permitted in the world it is applied to. */
  predicate PermittedRun<E(==)>(world: World<E>, changes: seq<Change<E>>)
    decreases |changes|
  {
    changes == [] || (Permitted(world, changes[0]) && PermittedRun(Apply(world, changes[0]), changes[1..]))
  }

  /** The entities of the world after the whole sequence of changes. */
  function Run<E(==)>(world: World<E>, changes: seq<Change<E>>): World<E>
    requires PermittedRun(world, changes)
    decreases |changes|
  {
    if changes == [] then world else Run(Apply(world, changes[0]), changes[1..])
  }

  /** The events the sequence of changes publishes, in order. */
  function Deliveries<E(==)>(world: World<E>, changes: seq<Change<E>>): seq<Delivery<E>>
    requires PermittedRun(world, changes)
    decreases |changes|
  {
    if changes == [] then [] else [Raise(world, changes[0])] + Deliveries(Apply(world, changes[0]), changes[1..])
  }

  /** A cache that starts as the view and handles every published event, in
      order, ends as the view of the final world. */
  lemma {:induction false} ReplayKeepsView<E>(token: GroupAccessorToken, world: World<E>, changes: seq<Change<E>>)
    requires PermittedRun(world, changes)
    ensures Replay(token, View(token, world), Deliveries(world, changes)) == View(token, Run(world, changes))
    decreases |changes|
  {
    if changes != [] {
      var d := Raise(world, changes[0]);
      StepKeepsView(token, View(token, world), world, changes[0]);
      assert Deliveries(world, changes)[1..] == Deliveries(Apply(world, changes[0]), changes[1..]);
      ReplayKeepsView(token, Apply(world, changes[0]), changes[1..]);
    }
  }

  /** A cache seeded with matching entities of the world (a subset of the view)
      never holds an entity that is outside the world or does not match. */
  lemma {:induction false} ReplayKeepsSound<E>(token: GroupAccessorToken, cache: set<E>, world: World<E>,
                                               changes: seq<Change<E>>)
    requires PermittedRun(world, changes) && Sound(token, cache, world)
    ensures Sound(token, Replay(token, cache, Deliveries(world, changes)), Run(world, changes))
    decreases |changes|
  {
    if changes != [] {
      var d := Raise(world, changes[0]);
      StepKeepsSound(token, cache, world, changes[0]);
      assert Deliveries(world, changes)[1..] == Deliveries(Apply(world, changes[0]), changes[1..]);
      ReplayKeepsSound(token, Step(token, cache, d.event, d.current), Apply(world, changes[0]), changes[1..]);
    }
  }

  /** A component event for an entity outside the world still caches the
      entity when it matches, so the cache no longer equals the view: the view
      theorems need their `Permitted` assumption. */
  lemma OutsideComponentEventLeavesView<E>(token: GroupAccessorToken, world: World<E>, e: E,
                                           t: ComponentType, current: set<ComponentType>)
    requires e !in world && Matches(token, current)
    ensures e in Step(token, View(token, world), ComponentAdded(e, t), current)
    ensures Step(token, View(token, world), ComponentAdded(e, t), current) != View(token, world)
  {
    assert e !in View(token, world);
  }

  /** A seed whose every entity is in the world and matches gives a sound cache. */
  lemma SnapshotSound<E>(token: GroupAccessorToken, entities: seq<E>, world: World<E>)
    requires forall i :: 0 <= i < |entities| ==> entities[i] in world && Matches(token, world[entities[i]])
    ensures Sound(token, Snapshot(entities), world)
  {
    forall e | e in Snapshot(entities)
      ensures e in world && Matches(token, world[e])
    {
      var i :| 0 <= i < |entities| && entities[i] == e;
    }
  }
}

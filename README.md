# EcsRx cacheable group accessor, modelled in Dafny

EcsRx groups entities by the component types they carry. A group is named by a
`GroupAccessorToken`: a set of required component types and the name of a pool
(`"default"` in the fixture). A `CacheableGroupAccessor` holds the live set of
entities of one group. It is created from a caller-supplied list of entities,
which it takes as given. After `MonitorEntityChanges` it handles four lifecycle
events, each of which updates the cache in place:

- `EntityAdded` caches the entity if it carries every required type.
- `EntityRemoved` drops the entity whatever it carries.
- `ComponentAdded` re-checks the entity's current components and caches it if they match.
- `ComponentRemoved` re-checks a cached entity's current components and evicts it if they no longer match.

The implementation file of the accessor is not part of this model. Its
behaviour is taken from the test fixture `CacheableGroupAccessorTests`. The
fixture's five tests are replayed as methods in `AccessorScenarios.dfy`.

Layout:

- `Groups.dfy`: the token and the match rule ("the required types are a subset of the entity's types").
- `GroupCache.dfy`: the cache as a value. `Step` is one event; `Replay` is a sequence of events.
  It also proves that the cache is an incremental view. The world is the
  entities currently in the pool, each with its current component types; it is
  not split by pool. Handling the event that each change to the world publishes
  keeps the cache equal to the set of matching entities of the world
  (`StepKeepsView`, `ReplayKeepsView`). These theorems assume that component
  changes happen only to entities of the world.
- `Entities.dfy`: an entity as an object with an id and a mutable set of component types.
- `Accessors.dfy`: the accessor as a class with a mutable `cachedEntities` set.
  It has one method per event handler, plus `Receive`, which stands for delivery on a subscribed stream.
  `AddComponentAndPublish` and `RemoveComponentAndPublish` tie the class to the
  view theorems: for a set of entity objects as the pool, a component change and
  its event keep a cache that equals the pool's view equal to it.
- `AccessorScenarios.dfy`: the fixture's tests.

Modelling choices:

- Event delivery is a direct call of `Receive`. Each stream mock in the fixture is
  a reactive property that hands its initial event to the subscriber as soon as
  monitoring starts. The scenarios therefore call `Receive` with that seed event
  first, right after `MonitorEntityChanges`.
- The cache is a set of entity objects, and membership is object identity. The
  fixture's entities are distinct objects with distinct Guids, so identity and
  id equality agree in every test. The entity's Guid is a plain `nat` id.
- Component types are their type names (`string`). Component instances are not
  modelled; an event names the component's type.
- The token's pool name is carried but plays no part in matching, because no test
  varies it. The world of `GroupCache` is therefore not a per-pool view.
- Component events are not restricted to entities in the pool: every entity
  holds the event system (line 25), and the fixture sends component events for
  entities that were never added (lines 111, 142, 150-151). The accessor handles
  them like any other, so a matching entity outside the pool gets cached
  (`OutsideComponentEventLeavesView`). The view theorems exclude this case.
- The constructor takes its list as given. The fixture never seeds a
  non-matching entity: its first test uses a token that requires nothing, and
  the other seeded tests pass only matching entities. `SnapshotSound` states when
  such a seed gives a sound cache.

## Model

| member | source | states |
|---|---|---|
| `Groups.Matches` | src/Assets/Tests/Editor/CacheGroupAccessorTests.cs:21-50 | the match rule: an entity belongs to the group when it carries every required type; a token with no required types, as at line 21, matches every component set, whatever its pool |
| `Groups.MatchAfterAdd` | src/Assets/Tests/Editor/CacheGroupAccessorTests.cs:150-154 | gaining a type never loses a match; it creates a match exactly when every other required type was already carried |
| `Groups.MatchAfterRemove` | src/Assets/Tests/Editor/CacheGroupAccessorTests.cs:118-122 | losing a type keeps a match exactly when the entity matched before and the type is not required |
| `GroupCache.Snapshot` | src/Assets/Tests/Editor/CacheGroupAccessorTests.cs:23-35 | the initial cache holds exactly the listed entities, and its size is the list length when no entity is listed twice |
| `GroupCache.Step` | src/Assets/Tests/Editor/CacheGroupAccessorTests.cs:118-125 | one event changes at most the membership of the event's own entity |
| `GroupCache.StepIgnoresUnrelated` | src/Assets/Tests/Editor/CacheGroupAccessorTests.cs:82-91 | removing an uncached entity is a no-op; component and add events for an uncached non-matching entity are no-ops |
| `GroupCache.StepIdempotent` | src/Assets/Tests/Editor/CacheGroupAccessorTests.cs:52-58 | derived property (no test delivers an event twice): handling the same event twice, with the entity unchanged, gives the same cache as handling it once |
| `GroupCache.StepIgnoresNamedComponent` | src/Assets/Tests/Editor/CacheGroupAccessorTests.cs:118-122 | a component event's outcome depends on the entity's whole current component set, not on the component it names |
| `GroupCache.Replay` | src/Assets/Tests/Editor/CacheGroupAccessorTests.cs:88-91 | events handled one after another in delivery order; over any sequence, an entity that no event names keeps its cache membership |
| `GroupCache.StepKeepsSound` | src/Assets/Tests/Editor/CacheGroupAccessorTests.cs:95-126 | after a permitted change and its event, every cached entity is still in the world and matching |
| `GroupCache.StepKeepsComplete` | src/Assets/Tests/Editor/CacheGroupAccessorTests.cs:129-158 | after a permitted change and its event, every matching entity of the world is still cached |
| `GroupCache.StepKeepsView` | src/Assets/Tests/Editor/CacheGroupAccessorTests.cs:39-158 | against `View`, the set of entities of the world whose current components match the token: a cache equal to the view stays equal to the view of the changed world after any permitted change and its event |
| `GroupCache.ReplayKeepsView` | src/Assets/Tests/Editor/CacheGroupAccessorTests.cs:39-158 | a cache seeded with the view and fed every published event in order ends equal to the view of the final entities |
| `GroupCache.ReplayKeepsSound` | src/Assets/Tests/Editor/CacheGroupAccessorTests.cs:115-125 | a cache seeded with matching entities of the world only ever holds matching entities of the world, over any permitted run |
| `GroupCache.OutsideComponentEventLeavesView` | src/Assets/Tests/Editor/CacheGroupAccessorTests.cs:150-151 | a ComponentAdded event for a matching entity outside the world caches it, so the cache then differs from the view |
| `GroupCache.SnapshotSound` | src/Assets/Tests/Editor/CacheGroupAccessorTests.cs:85 | a seed list of matching entities of the world gives a sound initial cache |
| `Entities.Entity.constructor` | src/Assets/Tests/Editor/CacheGroupAccessorTests.cs:25 | a new entity has the given id and no components |
| `Entities.Entity.AddComponent` | src/Assets/Tests/Editor/CacheGroupAccessorTests.cs:46-47 | the entity's component types gain exactly the given type |
| `Entities.Entity.RemoveComponent` | src/Assets/Tests/Editor/CacheGroupAccessorTests.cs:118 | the entity's component types lose exactly the given type |
| `Accessors.CacheableGroupAccessor.constructor` | src/Assets/Tests/Editor/CacheGroupAccessorTests.cs:30-35 | the cache is exactly the set of given entities, its size the list length for a list without repeats; monitoring is off |
| `Accessors.CacheableGroupAccessor.MonitorEntityChanges` | src/Assets/Tests/Editor/CacheGroupAccessorTests.cs:56 | monitoring is on; the cache is unchanged |
| `Accessors.CacheableGroupAccessor.OnEntityAdded` | src/Assets/Tests/Editor/CacheGroupAccessorTests.cs:52-61 | the new cache is `Step` of the old one for an EntityAdded event and the entity's current components |
| `Accessors.CacheableGroupAccessor.OnEntityRemoved` | src/Assets/Tests/Editor/CacheGroupAccessorTests.cs:82-91 | the new cache is `Step` of the old one for an EntityRemoved event |
| `Accessors.CacheableGroupAccessor.OnComponentAdded` | src/Assets/Tests/Editor/CacheGroupAccessorTests.cs:142-157 | the new cache is `Step` of the old one for a ComponentAdded event and the entity's current components |
| `Accessors.CacheableGroupAccessor.OnComponentRemoved` | src/Assets/Tests/Editor/CacheGroupAccessorTests.cs:111-125 | the new cache is `Step` of the old one for a ComponentRemoved event and the entity's current components |
| `Accessors.AddComponentAndPublish` | src/Assets/Tests/Editor/CacheGroupAccessorTests.cs:150-151 | for an entity of the pool, adding a component and delivering its ComponentAdded event keeps an accessor cache that equals the pool's view equal to it |
| `Accessors.RemoveComponentAndPublish` | src/Assets/Tests/Editor/CacheGroupAccessorTests.cs:118-119 | for an entity of the pool, removing a component and delivering its ComponentRemoved event keeps an accessor cache that equals the pool's view equal to it |
| `Accessors.CacheableGroupAccessor.Receive` | src/Assets/Tests/Editor/CacheGroupAccessorTests.cs:58 | while monitoring, an event updates the cache as `Step` says; before monitoring it changes nothing |
| `AccessorScenarios.ShouldIncludeEntitySnapshotOnCreation` | src/Assets/Tests/Editor/CacheGroupAccessorTests.cs:18-36 | the cache holds three entities and each of the three given entities |
| `AccessorScenarios.ShouldOnlyCacheApplicableEntityWhenApplicableEntityAdded` | src/Assets/Tests/Editor/CacheGroupAccessorTests.cs:39-62 | after the seed event and one more EntityAdded, the cache is exactly the entity that carries One and Two |
| `AccessorScenarios.ShouldOnlyRemoveApplicableEntityWhenEntityRemoved` | src/Assets/Tests/Editor/CacheGroupAccessorTests.cs:65-92 | the seed removal of an uncached entity changes nothing; removing one cached entity leaves exactly the other |
| `AccessorScenarios.ShouldOnlyRemoveEntityWhenComponentsNoLongerMatchGroup` | src/Assets/Tests/Editor/CacheGroupAccessorTests.cs:95-126 | losing One evicts an entity, losing Three keeps one; the cache ends as exactly the kept entity |
| `AccessorScenarios.ShouldOnlyAddEntityWhenComponentsMatchGroup` | src/Assets/Tests/Editor/CacheGroupAccessorTests.cs:129-158 | gaining One while carrying Two caches an entity, gaining Three while lacking Two does not; the cache ends as exactly the added entity |

## Left out

- The accessor registry and token equality and hashing: they do not appear in the fixture, so there is nothing to model them against.
- Disposal of the four subscriptions: the fixture never disposes an accessor.
- Guarding against a second `MonitorEntityChanges`: the fixture calls it once. Calling it again here only sets the flag again.
- The reactive streams and the mocked event system and pool: event delivery is the direct call `Receive`.
- An entity publishing its own component events from `AddComponent` and `RemoveComponent`: in the fixture the event system is a mock that publishes nothing, so the tests raise the events by hand.
- Duplicate entries: the cache is a set. The constructor's count equals the list length only for a list without repeats.
- `src/Assets/EcsRx/Unity/MonoBehaviours/RegisterAsEntity.cs`: Unity and dependency-injection wiring that uses reflection to create components. It is host-runtime glue.
- `src/Assets/EcsRx.Examples/AutoRegisterSystems/Systems/DefaultViewResolver.cs`: it creates a Unity cube as an entity's view. This is rendering glue.

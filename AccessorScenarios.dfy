/** The accessor's test fixture replayed against the model. Each event-stream
    mock in the fixture is seeded with an initial event that it delivers as soon
    as monitoring starts; here that seed event is the first `Receive` after
    `MonitorEntityChanges`. */
module AccessorScenarios {
  import opened Groups
  import opened GroupCache
  import opened Entities
  import opened Accessors

  const TestComponentOne: ComponentType := "TestComponentOne"
  const TestComponentTwo: ComponentType := "TestComponentTwo"
  const TestComponentThree: ComponentType := "TestComponentThree"

  /** The group used by all but the first test: component types One and Two. */
  const OneAndTwo: GroupAccessorToken := GroupAccessorToken({TestComponentOne, TestComponentTwo}, "default")

  /** The cache holds exactly the three entities it was created with. */
  method ShouldIncludeEntitySnapshotOnCreation() returns (cached: set<Entity>, snapshot: seq<Entity>)
    ensures |snapshot| == 3 && |cached| == 3
    ensures snapshot[0] in cached && snapshot[1] in cached && snapshot[2] in cached
  {
    var token := GroupAccessorToken({}, "default");
    var first := new Entity(0);
    var second := new Entity(1);
    var third := new Entity(2);
    snapshot := [first, second, third];
    var accessor := new CacheableGroupAccessor(token, snapshot);
    cached := accessor.cachedEntities;
  }

  /** Of two added entities only the one carrying both One and Two is cached. */
  method ShouldOnlyCacheApplicableEntityWhenApplicableEntityAdded()
    returns (cached: set<Entity>, applicable: Entity, unapplicable: Entity)
    ensures cached == {applicable} && unapplicable !in cached
  {
    applicable := new Entity(0);
    applicable.AddComponent(TestComponentOne);
    applicable.AddComponent(TestComponentTwo);
    unapplicable := new Entity(1);
    unapplicable.AddComponent(TestComponentOne);

    var accessor := new CacheableGroupAccessor(OneAndTwo, []);
    accessor.MonitorEntityChanges();
    accessor.Receive(EntityAdded(applicable));
    accessor.Receive(EntityAdded(unapplicable));
    cached := accessor.cachedEntities;
  }

  /** Removing one of two cached entities keeps the other; the seed event
      removes an entity that was never cached and changes nothing. */
  method ShouldOnlyRemoveApplicableEntityWhenEntityRemoved()
    returns (cached: set<Entity>, removed: Entity, kept: Entity)
    ensures cached == {kept} && removed !in cached
  {
    removed := new Entity(0);
    removed.AddComponent(TestComponentOne);
    removed.AddComponent(TestComponentTwo);
    kept := new Entity(1);
    kept.AddComponent(TestComponentOne);
    kept.AddComponent(TestComponentTwo);
    var unapplicable := new Entity(2);
    unapplicable.AddComponent(TestComponentOne);

    var accessor := new CacheableGroupAccessor(OneAndTwo, [removed, kept]);
    assert accessor.cachedEntities == {removed, kept};
    accessor.MonitorEntityChanges();
    accessor.Receive(EntityRemoved(unapplicable));
    accessor.Receive(EntityRemoved(removed));
    cached := accessor.cachedEntities;
  }

  /** Losing required type One evicts an entity; losing type Three, which the
      group does not require, keeps it. The seed event names a fresh entity
      without components and changes nothing. */
  method ShouldOnlyRemoveEntityWhenComponentsNoLongerMatchGroup()
    returns (cached: set<Entity>, evicted: Entity, kept: Entity)
    ensures cached == {kept} && evicted !in cached
  {
    evicted := new Entity(0);
    evicted.AddComponent(TestComponentOne);
    evicted.AddComponent(TestComponentTwo);
    kept := new Entity(1);
    kept.AddComponent(TestComponentOne);
    kept.AddComponent(TestComponentTwo);
    kept.AddComponent(TestComponentThree);
    var seedEntity := new Entity(2);

    var accessor := new CacheableGroupAccessor(OneAndTwo, [evicted, kept]);
    assert accessor.cachedEntities == {evicted, kept};
    accessor.MonitorEntityChanges();
    accessor.Receive(ComponentRemoved(seedEntity, TestComponentOne));

    evicted.RemoveComponent(TestComponentOne);
    accessor.Receive(ComponentRemoved(evicted, TestComponentOne));
    kept.RemoveComponent(TestComponentThree);
    accessor.Receive(ComponentRemoved(kept, TestComponentThree));
    cached := accessor.cachedEntities;
  }

  /** Gaining One while already carrying Two caches an entity; gaining Three
      while lacking Two does not. The seed event names a fresh entity without
      components and changes nothing. */
  method ShouldOnlyAddEntityWhenComponentsMatchGroup()
    returns (cached: set<Entity>, added: Entity, ignored: Entity)
    ensures cached == {added} && ignored !in cached
  {
    added := new Entity(0);
    added.AddComponent(TestComponentTwo);
    ignored := new Entity(1);
    ignored.AddComponent(TestComponentOne);
    var seedEntity := new Entity(2);

    var accessor := new CacheableGroupAccessor(OneAndTwo, []);
    accessor.MonitorEntityChanges();
    accessor.Receive(ComponentAdded(seedEntity, TestComponentOne));
    assert accessor.cachedEntities == {};

    added.AddComponent(TestComponentOne);
    accessor.Receive(ComponentAdded(added, TestComponentOne));
    ignored.AddComponent(TestComponentThree);
    accessor.Receive(ComponentAdded(ignored, TestComponentThree));
    cached := accessor.cachedEntities;
  }
}

/** Group accessor tokens and the rule that decides whether an entity belongs to a group. */
module Groups {

  /** A component type, identified by its type name. */
  type ComponentType = string

  /** A group: the component types an entity must carry, plus the name of the
      pool the group is evaluated in (for instance "default"). */
  datatype GroupAccessorToken = GroupAccessorToken(componentTypes: set<ComponentType>, pool: string)

  /** An entity whose current component types are `components` belongs to the
      group of `token` when it carries every required type. The check looks at
      the whole current component set each time; nothing is cached per entity.
      A token that requires nothing matches every entity, in every pool. */
  predicate Matches(token: GroupAccessorToken, components: set<ComponentType>)
    ensures token.componentTypes == {} ==> Matches(token, components)
  {
    token.componentTypes <= components
  }

  /** Gaining a component type never loses a match, and it creates one exactly
      when that type was the only required type the entity lacked. */
  lemma MatchAfterAdd(token: GroupAccessorToken, components: set<ComponentType>, added: ComponentType)
    ensures Matches(token, components) ==> Matches(token, components + {added})
    ensures Matches(token, components + {added}) <==> token.componentTypes - {added} <= components
  {
  }

  /** Losing a component type keeps a match exactly when the entity matched
      before and the lost type is not one the token requires. */
  lemma MatchAfterRemove(token: GroupAccessorToken, components: set<ComponentType>, removed: ComponentType)
    ensures Matches(token, components - {removed}) <==> Matches(token, components) && removed !in token.componentTypes
  {
    if removed in token.componentTypes {
      assert removed !in components - {removed};
    }
  }
}

/**
 * `LazyServiceLocator`: a dictionary from a type name to a factory
 * (`() -> Any`) that is run on every lookup. The ghost log `invocations`
 * records, in order, the type names whose factory has been run, so that the
 * contracts can say when a factory is invoked and when it is not.
 */
module LazyLocator {
  import opened Wrappers
  import opened Registry

  class LazyServiceLocator<Dependency> {
    /** `services: [String : () -> Any]` */
    var services: map<string, () -> Dependency>
    /** The type names whose factory has been called so far, oldest first. */
    ghost var invocations: seq<string>

    constructor ()
      ensures services == map[] && invocations == []
    {
      services := map[];
      invocations := [];
    }

    /**
     * `getDependency`: runs the factory stored under `typeName`, afresh on
     * every call (nothing is cached), or returns none when there is none.
     */
    method GetDependency(typeName: string) returns (r: Option<Dependency>)
      modifies this
      ensures services == old(services)
      ensures typeName !in services ==> r == None && invocations == old(invocations)
      ensures typeName in services ==>
                r == Some(services[typeName]()) && invocations == old(invocations) + [typeName]
    {
      var initializer := Lookup(services, typeName);
      if initializer.None? {
        return None;
      }
      invocations := invocations + [typeName];
      r := Some(initializer.value());
    }

    /**
     * `addDependency(initializer:)`: stores the factory unless `typeName` is
     * already taken; the factory is not run.
     */
    method AddDependency(typeName: string, initializer: () -> Dependency)
      modifies this
      ensures services == Register(old(services), typeName, initializer)
      ensures old(typeName in services) ==> services == old(services)
      ensures old(typeName !in services) ==> services[typeName] == initializer
      ensures forall other :: other != typeName && other in old(services) ==>
                other in services && services[other] == old(services)[other]
      ensures invocations == old(invocations)
    {
      if typeName !in services {
        services := services[typeName := initializer];
      }
    }
  }

  /**
   * From any state, two registrations under one type name keep the earlier
   * factory if there was one, else the first of the two; two lookups then run
   * that factory twice, once per lookup.
   */
  method AddTwiceThenLookUpTwice<Dependency>(
    locator: LazyServiceLocator<Dependency>, typeName: string, first: () -> Dependency, second: () -> Dependency)
    returns (found: Option<Dependency>, again: Option<Dependency>)
    modifies locator
    ensures typeName in locator.services
    ensures locator.services[typeName] == if typeName in old(locator.services) then old(locator.services)[typeName] else first
    ensures found == Some(locator.services[typeName]()) && again == found
    ensures locator.invocations == old(locator.invocations) + [typeName, typeName]
  {
    locator.AddDependency(typeName, first);
    locator.AddDependency(typeName, second);
    found := locator.GetDependency(typeName);
    again := locator.GetDependency(typeName);
  }
}

/**
 * `ServiceLocator`: a dictionary from a type name to a stored instance.
 * Swift's generic `T` and `String(describing: T.self)` become the type-name
 * key the caller passes; instances are opaque values of type `Dependency`.
 */
module EagerLocator {
  import opened Wrappers
  import opened Registry

  class ServiceLocator<Dependency> {
    /** `services: [String : Any]` */
    var services: map<string, Dependency>

    /** The shared instance starts with no registrations. */
    constructor ()
      ensures services == map[]
    {
      services := map[];
    }

    /** `getDependency`: the instance stored under `typeName`, or none. */
    function GetDependency(typeName: string): (r: Option<Dependency>)
      reads this
      ensures r.None? <==> typeName !in services
      ensures r.Some? ==> r.value == services[typeName]
    {
      Lookup(services, typeName)
    }

    /** `addDependency`: stores `dependency` unless `typeName` is already taken. */
    method AddDependency(typeName: string, dependency: Dependency)
      modifies this
      ensures services == Register(old(services), typeName, dependency)
      ensures old(typeName in services) ==> services == old(services)
      ensures GetDependency(typeName) == Some(old(GetDependency(typeName)).GetOr(dependency))
      ensures forall other :: other != typeName ==> GetDependency(other) == old(GetDependency(other))
    {
      if typeName !in services {
        services := services[typeName := dependency];
      }
    }
  }

  /**
   * From any state, two registrations under one type name leave the lookup
   * at the earlier instance if there was one, else at the first of the two;
   * every other type name looks up as before.
   */
  method AddTwiceKeepsFirst<Dependency>(locator: ServiceLocator<Dependency>, typeName: string, first: Dependency, second: Dependency)
    returns (found: Option<Dependency>)
    modifies locator
    ensures found == Some(old(locator.GetDependency(typeName)).GetOr(first))
    ensures found == locator.GetDependency(typeName)
    ensures forall other :: other != typeName ==> locator.GetDependency(other) == old(locator.GetDependency(other))
  {
    locator.AddDependency(typeName, first);
    locator.AddDependency(typeName, second);
    found := locator.GetDependency(typeName);
  }
}

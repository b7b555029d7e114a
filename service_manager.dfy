/** The service locator of the application: a registry from names to
    service objects, created with the configuration manager and the
    database manager registered, and emptied on shutdown. Python dictionaries
    remember insertion order, so the registry keeps the order of its names
    next to the map. */
module ServiceRegistry {
  import opened Options
  import opened Sequences
  import opened Sorting

  class ServiceManager<S(==)> {
    /** `self._services`. */
    var services: map<string, S>
    /** The names of `self._services`, in insertion order. */
    var order: seq<string>

    ghost predicate Valid()
      reads this
    {
      && (forall n :: n in services <==> n in order)
      && Distinct(order)
    }

    /** `_setup` with `_register_core_services`: the configuration manager
        and the database manager, under "config" and "database". */
    constructor(config: S, database: S)
      ensures Valid()
      ensures services == map["config" := config, "database" := database]
      ensures order == ["config", "database"]
    {
      services := map[];
      order := [];
      new;
      RegisterService("config", config);
      RegisterService("database", database);
    }

    /** `register_service`: stores the service under the name, replacing any
        earlier one; a new name goes last in the listing, a replaced one
        keeps its place. */
    method RegisterService(name: string, service: S)
      requires Valid()
      modifies this
      ensures Valid()
      ensures services == old(services)[name := service]
      ensures order == if name in old(services) then old(order) else old(order) + [name]
      ensures HasService(name) && GetService(name) == Some(service)
    {
      if name !in services {
        order := order + [name];
      }
      services := services[name := service];
    }

    /** `get_service`: the service registered under the name, None when
        there is none. */
    function GetService(name: string): (r: Option<S>)
      reads this
      ensures r.Some? <==> name in services
      ensures r.Some? ==> r.value == services[name]
    {
      if name in services then Some(services[name]) else None
    }

    /** `has_service`. */
    function HasService(name: string): (r: bool)
      reads this
      ensures r <==> GetService(name).Some?
    {
      name in services
    }

    /** `unregister_service`: removes the name and reports whether it was
        registered; every other name keeps its service and its place. */
    method UnregisterService(name: string) returns (removed: bool)
      requires Valid()
      modifies this
      ensures Valid()
      ensures removed <==> old(HasService(name))
      ensures services == old(services) - {name}
      ensures order == Filter(old(order), (n: string) => n != name)
      ensures !HasService(name)
      ensures forall n :: n != name ==> GetService(n) == old(GetService(n))
    {
      FilterKeepsDistinct(order, (n: string) => n != name);
      forall n
        ensures n in Filter(order, (n: string) => n != name) <==> n in order && n != name
      {
        FilterMember(order, (n: string) => n != name, n);
      }
      if name in services {
        services := services - {name};
        order := Filter(order, (n: string) => n != name);
        return true;
      }
      FilterAll(order, (n: string) => n != name);
      return false;
    }

    /** `list_services`: every registered name once, in insertion order. */
    function ListServices(): (r: seq<string>)
      reads this
      ensures r == order
      ensures Valid() ==> Distinct(r) && forall n :: n in r <==> HasService(n)
    {
      order
    }

    /** `get_config_manager`. */
    function GetConfigManager(): (r: Option<S>)
      reads this
      ensures r.Some? <==> HasService("config")
      ensures r.Some? ==> r.value == services["config"]
    {
      GetService("config")
    }

    /** `get_database_manager`. */
    function GetDatabaseManager(): (r: Option<S>)
      reads this
      ensures r.Some? <==> HasService("database")
      ensures r.Some? ==> r.value == services["database"]
    {
      GetService("database")
    }

    /** The registry part of `shutdown`: every service is dropped. */
    method Shutdown()
      modifies this
      ensures Valid()
      ensures services == map[] && order == []
      ensures forall n :: !HasService(n)
    {
      services := map[];
      order := [];
    }
  }

  /** The registry checks of `test_service_manager`, run on a fresh
      manager: the core services are present and listed, and a custom
      service can be registered, read back and removed. */
  method ServiceManagerScenario<S(==)>(config: S, database: S, custom: S) returns (ok: bool)
    ensures ok
  {
    var service := new ServiceManager(config, database);
    ok := service.HasService("config") && service.HasService("database");
    ok := ok && service.GetConfigManager().Some? && service.GetDatabaseManager().Some?;
    var names := service.ListServices();
    ok := ok && |names| >= 2 && "config" in names && "database" in names;
    service.RegisterService("test_service", custom);
    ok := ok && service.HasService("test_service");
    var retrieved := service.GetService("test_service");
    ok := ok && retrieved == Some(custom);
    var _ := service.UnregisterService("test_service");
    ok := ok && !service.HasService("test_service");
  }
}

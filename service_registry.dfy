/**
 * The service registry (app/core/service_registry.py): a table of
 * `ServiceInfo` records keyed by service name, kept in the order in which
 * names were first registered (the iteration order of a Python dict).
 */
module Registry {
  import opened Wrappers
  import opened Seqs

  /** The `ServiceInfo` dataclass, with its two defaulted fields. */
  datatype ServiceInfo = ServiceInfo(
    name: string,
    description: string,
    version: string,
    endpoints: seq<string>,
    status: string := "active",
    dependencies: Option<seq<string>> := None)

  predicate IsActive(s: ServiceInfo) {
    s.status == "active"
  }

  /** A record built without `status` or `dependencies` is active and has no dependencies. */
  lemma ServiceInfoDefaults(name: string, description: string, version: string, endpoints: seq<string>)
    ensures var s := ServiceInfo(name, description, version, endpoints);
      IsActive(s) && s.dependencies == None
  {
  }

  /** The PDF service registered at start-up. */
  const PdfConversion: ServiceInfo :=
    ServiceInfo("PDF Conversion", "Convert URLs and HTML to PDF documents", "1.0.0",
                ["/api/v1/pdf/url", "/api/v1/pdf/html"],
                dependencies := Some(["playwright", "chromium"]))

  /** The system service registered at start-up. */
  const SystemManagement: ServiceInfo :=
    ServiceInfo("System Management", "Service health, logging, and system information", "1.0.0",
                ["/api/v1/system/health", "/api/v1/system/info", "/api/v1/system/logs"])

  /** The records of `services` listed in the order of `names`. */
  function ValuesIn(names: seq<string>, services: map<string, ServiceInfo>): (r: seq<ServiceInfo>)
    requires forall n :: n in names ==> n in services
    ensures |r| == |names|
    ensures forall i :: 0 <= i < |names| ==> r[i] == services[names[i]]
  {
    if names == [] then [] else [services[names[0]]] + ValuesIn(names[1..], services)
  }

  /** The endpoint lists of `infos`, concatenated in order. */
  function Endpoints(infos: seq<ServiceInfo>): seq<string> {
    if infos == [] then []
    else Endpoints(infos[..|infos| - 1]) + infos[|infos| - 1].endpoints
  }

  /** The total number of endpoints the services of `infos` declare. */
  function EndpointCount(infos: seq<ServiceInfo>): nat {
    if infos == [] then 0
    else EndpointCount(infos[..|infos| - 1]) + |infos[|infos| - 1].endpoints|
  }

  /**
   * The concatenation holds every endpoint of every service and nothing
   * else, and is as long as all endpoint lists together.
   */
  lemma {:induction false} EndpointsSpec(infos: seq<ServiceInfo>)
    ensures |Endpoints(infos)| == EndpointCount(infos)
    ensures forall e :: e in Endpoints(infos) <==> exists i :: 0 <= i < |infos| && e in infos[i].endpoints
  {
    if infos != [] {
      var front := infos[..|infos| - 1];
      var last := infos[|infos| - 1];
      EndpointsSpec(front);
      forall e ensures e in Endpoints(infos) <==> exists i :: 0 <= i < |infos| && e in infos[i].endpoints {
        if e in Endpoints(front) {
          var i :| 0 <= i < |front| && e in front[i].endpoints;
          assert infos[i] == front[i];
        }
        if exists i :: 0 <= i < |infos| && e in infos[i].endpoints {
          var i :| 0 <= i < |infos| && e in infos[i].endpoints;
          if i < |front| {
            assert front[i] == infos[i];
          }
        }
      }
    }
  }

  /** The loop of `get_all_endpoints`: `extend` the result with each service's endpoints in turn. */
  method ExtendAll(infos: seq<ServiceInfo>) returns (endpoints: seq<string>)
    ensures endpoints == Endpoints(infos)
  {
    endpoints := [];
    for i := 0 to |infos|
      invariant endpoints == Endpoints(infos[..i])
    {
      assert infos[..i + 1][..i] == infos[..i];
      endpoints := endpoints + infos[i].endpoints;
    }
    assert infos[..|infos|] == infos;
  }

  /**
   * The endpoints of a table listed in the order of `names` are those of
   * its records and no others, however the order of names is chosen.
   */
  lemma EndpointsOfTable(names: seq<string>, services: map<string, ServiceInfo>)
    requires forall n :: n in names <==> n in services
    ensures forall e :: e in Endpoints(ValuesIn(names, services)) <==>
              exists n :: n in services && e in services[n].endpoints
  {
    var infos := ValuesIn(names, services);
    EndpointsSpec(infos);
    forall e ensures e in Endpoints(infos) <==> exists n :: n in services && e in services[n].endpoints {
      if exists n :: n in services && e in services[n].endpoints {
        var n :| n in services && e in services[n].endpoints;
        var i :| 0 <= i < |names| && names[i] == n;
        assert infos[i] == services[n];
      }
    }
  }

  /**
   * `ServiceRegistry`: `services` is the `_services` dict and `names` its
   * key order. Valid() says the two describe the same table and that each
   * record is filed under its own name.
   */
  class ServiceRegistry {
    var names: seq<string>
    var services: map<string, ServiceInfo>

    ghost predicate Valid()
      reads this
    {
      && Distinct(names)
      && (forall n :: n in names <==> n in services)
      && (forall n :: n in services ==> services[n].name == n)
    }

    /** `__init__`: an empty table, then the two core services in order. */
    constructor ()
      ensures Valid()
      ensures names == ["PDF Conversion", "System Management"]
      ensures services == map["PDF Conversion" := PdfConversion, "System Management" := SystemManagement]
    {
      names := [];
      services := map[];
      new;
      RegisterService(PdfConversion);
      RegisterService(SystemManagement);
    }

    /**
     * `register_service`: file the record under its name. A new name goes
     * to the end of the order; an existing one keeps its place and its
     * record is replaced. Every other entry is unchanged.
     */
    method RegisterService(info: ServiceInfo)
      requires Valid()
      modifies this
      ensures Valid()
      ensures services == old(services)[info.name := info]
      ensures names == if info.name in old(services) then old(names) else old(names) + [info.name]
      ensures GetService(info.name) == Some(info)
      ensures forall n :: n != info.name ==> GetService(n) == old(GetService(n))
    {
      if info.name !in services {
        names := names + [info.name];
      }
      services := services[info.name := info];
    }

    /** `get_service`: the record filed under `name`, or None for an unknown name. */
    function GetService(name: string): (r: Option<ServiceInfo>)
      reads this
      requires Valid()
      ensures r.Some? <==> name in names
      ensures r.Some? ==> r.value == services[name] && r.value.name == name
    {
      if name in services then Some(services[name]) else None
    }

    /**
     * `list_services`: every record once, in first-registration order; there
     * are as many as there are distinct registered names.
     */
    function ListServices(): (r: seq<ServiceInfo>)
      reads this
      requires Valid()
      ensures |r| == |names| == |services|
      ensures forall i :: 0 <= i < |r| ==> r[i] == services[names[i]] && r[i].name == names[i]
      ensures Distinct(r)
    {
      DistinctCard(names);
      assert services.Keys == set n | n in names;
      ValuesIn(names, services)
    }

    /**
     * `get_active_services`: the active records, in the order of
     * `list_services`, every one of them.
     */
    function GetActiveServices(): (r: seq<ServiceInfo>)
      reads this
      requires Valid()
      ensures IsSubsequence(r, ListServices())
      ensures forall s :: s in r ==> IsActive(s)
      ensures forall s :: s in ListServices() && IsActive(s) ==> s in r
      ensures Distinct(r) && |r| <= |ListServices()|
    {
      FilterSpec(ListServices(), IsActive);
      FilterDistinct(ListServices(), IsActive);
      Filter(ListServices(), IsActive)
    }

    /** `get_service_endpoints`: each registered name mapped to its endpoint list, and no other key. */
    function GetServiceEndpoints(): (r: map<string, seq<string>>)
      reads this
      requires Valid()
      ensures r.Keys == set n | n in names
      ensures forall n :: n in r ==> r[n] == GetService(n).value.endpoints
    {
      map n | n in services :: services[n].endpoints
    }

    /** `get_all_endpoints`: the endpoint lists of the services concatenated in registration order. */
    method GetAllEndpoints() returns (endpoints: seq<string>)
      requires Valid()
      ensures endpoints == Endpoints(ListServices())
    {
      endpoints := ExtendAll(ListServices());
    }

    /**
     * What `get_all_endpoints` returns holds every endpoint of every
     * registered service and nothing else, and is as long as all endpoint
     * lists together.
     */
    lemma AllEndpointsSpec()
      requires Valid()
      ensures |Endpoints(ListServices())| == EndpointCount(ListServices())
      ensures forall e :: e in Endpoints(ListServices()) <==>
                exists n :: n in services && e in services[n].endpoints
    {
      var infos := ListServices();
      EndpointsSpec(infos);
      assert infos == ValuesIn(names, services);
      EndpointsOfTable(names, services);
    }
  }
}

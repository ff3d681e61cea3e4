/**
 The resource store behind the controller's client: the API server's maps of
 WebPages, Deployments and Services, and the semantics of the three calls the
 controller makes on it (Get, Create, Update).

 Whether the server serves a call or fails it (network trouble, a stale cache,
 a conflict) is not something the controller decides: every call takes a
 `Fault`, the error the server answers that call with, or None when the server
 serves it normally.
 */
module Store {

  import opened Wrappers
  import opened Objects

  datatype ApiError = NotFound | AlreadyExists | Failed(reason: string)

  /** The error the API server answers one call with; None when it serves the call. */
  type Fault = Option<ApiError>

  /** What a Get hands back: the stored object or the error. */
  datatype Fetched<T> = Found(obj: T) | Error(err: ApiError)

  function Get<T>(m: map<NamespacedName, T>, key: NamespacedName, fault: Fault): Fetched<T>
  {
    if fault.Some? then Error(fault.value)
    else if key in m then Found(m[key])
    else Error(NotFound)
  }

  /** The error a Create of an object under `key` ends with, None when it is stored. */
  function CreateError<T>(m: map<NamespacedName, T>, key: NamespacedName, fault: Fault): Option<ApiError>
  {
    if fault.Some? then fault
    else if key in m then Some(AlreadyExists)
    else None
  }

  /** The error an Update of the object under `key` ends with, None when it is stored. */
  function UpdateError<T>(m: map<NamespacedName, T>, key: NamespacedName, fault: Fault): Option<ApiError>
  {
    if fault.Some? then fault
    else if key !in m then Some(NotFound)
    else None
  }

  /** The map after a write of `obj` under `key` that ended with `err`. */
  function Applied<T>(m: map<NamespacedName, T>, key: NamespacedName, obj: T, err: Option<ApiError>): map<NamespacedName, T>
  {
    if err.None? then m[key := obj] else m
  }

  /** A snapshot of the whole store. */
  datatype Cluster = Cluster(
    webPages: map<NamespacedName, WebPage>,
    deployments: map<NamespacedName, Deployment>,
    services: map<NamespacedName, Service>)

  /** Every object is stored under its own namespace/name. */
  ghost predicate WellFormed(c: Cluster)
  {
    && (forall k :: k in c.webPages ==> KeyOf(c.webPages[k].meta) == k)
    && (forall k :: k in c.deployments ==> KeyOf(c.deployments[k].meta) == k)
    && (forall k :: k in c.services ==> KeyOf(c.services[k].meta) == k)
  }

  /** A write request the server received, whether it then succeeded or failed. */
  datatype Write = CreateDep(deployment: Deployment) | CreateSvc(service: Service) | UpdateDep(deployment: Deployment)

  /** The store as the controller's client sees it: three maps it reads and writes in place,
      and a journal of every write request issued against it. */
  class ApiServer {

    var webPages: map<NamespacedName, WebPage>
    var deployments: map<NamespacedName, Deployment>
    var services: map<NamespacedName, Service>
    ghost var journal: seq<Write>

    function State(): Cluster
      reads this
    {
      Cluster(webPages, deployments, services)
    }

    constructor (init: Cluster)
      ensures State() == init && journal == []
    {
      webPages, deployments, services := init.webPages, init.deployments, init.services;
      journal := [];
    }

    method GetWebPage(key: NamespacedName, fault: Fault) returns (r: Fetched<WebPage>)
      ensures fault.Some? ==> r == Error(fault.value)
      ensures fault.None? ==> (r.Found? <==> key in webPages)
      ensures r.Found? ==> key in webPages && r.obj == webPages[key]
      ensures r == Get(webPages, key, fault)
    {
      if fault.Some? {
        r := Error(fault.value);
      } else if key in webPages {
        r := Found(webPages[key]);
      } else {
        r := Error(NotFound);
      }
    }

    method GetDeployment(key: NamespacedName, fault: Fault) returns (r: Fetched<Deployment>)
      ensures fault.Some? ==> r == Error(fault.value)
      ensures fault.None? ==> (r.Found? <==> key in deployments)
      ensures r.Found? ==> key in deployments && r.obj == deployments[key]
      ensures r == Get(deployments, key, fault)
    {
      if fault.Some? {
        r := Error(fault.value);
      } else if key in deployments {
        r := Found(deployments[key]);
      } else {
        r := Error(NotFound);
      }
    }

    method GetService(key: NamespacedName, fault: Fault) returns (r: Fetched<Service>)
      ensures fault.Some? ==> r == Error(fault.value)
      ensures fault.None? ==> (r.Found? <==> key in services)
      ensures r.Found? ==> key in services && r.obj == services[key]
      ensures r == Get(services, key, fault)
    {
      if fault.Some? {
        r := Error(fault.value);
      } else if key in services {
        r := Found(services[key]);
      } else {
        r := Error(NotFound);
      }
    }

    method CreateDeployment(d: Deployment, fault: Fault) returns (err: Option<ApiError>)
      modifies this
      ensures err == CreateError(old(deployments), KeyOf(d.meta), fault)
      ensures deployments == Applied(old(deployments), KeyOf(d.meta), d, err)
      ensures webPages == old(webPages) && services == old(services)
      ensures journal == old(journal) + [CreateDep(d)]
    {
      var key := KeyOf(d.meta);
      if fault.Some? {
        err := fault;
      } else if key in deployments {
        err := Some(AlreadyExists);
      } else {
        err := None;
        deployments := deployments[key := d];
      }
      journal := journal + [CreateDep(d)];
    }

    method CreateService(s: Service, fault: Fault) returns (err: Option<ApiError>)
      modifies this
      ensures err == CreateError(old(services), KeyOf(s.meta), fault)
      ensures services == Applied(old(services), KeyOf(s.meta), s, err)
      ensures webPages == old(webPages) && deployments == old(deployments)
      ensures journal == old(journal) + [CreateSvc(s)]
    {
      var key := KeyOf(s.meta);
      if fault.Some? {
        err := fault;
      } else if key in services {
        err := Some(AlreadyExists);
      } else {
        err := None;
        services := services[key := s];
      }
      journal := journal + [CreateSvc(s)];
    }

    method UpdateDeployment(d: Deployment, fault: Fault) returns (err: Option<ApiError>)
      modifies this
      ensures err == UpdateError(old(deployments), KeyOf(d.meta), fault)
      ensures deployments == Applied(old(deployments), KeyOf(d.meta), d, err)
      ensures webPages == old(webPages) && services == old(services)
      ensures journal == old(journal) + [UpdateDep(d)]
    {
      var key := KeyOf(d.meta);
      if fault.Some? {
        err := fault;
      } else if key !in deployments {
        err := Some(NotFound);
      } else {
        err := None;
        deployments := deployments[key := d];
      }
      journal := journal + [UpdateDep(d)];
    }
  }
}

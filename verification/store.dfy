/** The cluster as a linearizable store, and the effect of every API and Helm call the operator makes. */
module Store {
  import opened Model

  datatype World = World(
    now: Time,
    nextVersion: nat,                          // resource versions are drawn from one counter
    envs: map<string, EphemeralEnv>,           // by name: names are assumed distinct across namespaces
    namespaces: map<string, Namespace>,
    objs: map<Key, Obj>,
    services: map<string, seq<Service>>,       // by namespace, in list order
    templates: map<(string, string), seq<Component>>,
    releases: set<ReleaseKey>)                 // Helm releases of which a record exists

  datatype Call =
    | GetEnv(name: string)
    | UpdateEnv(name: string, copy: EphemeralEnv)
    | UpdateStatus(name: string, copy: EphemeralEnv)
    | GetNamespace(ns: string)
    | CreateNamespace(ns: string, labels: map<string, string>)
    | UpdateNamespace(ns: string, seen: Namespace, labels: map<string, string>)
    | DeleteNamespace(ns: string)
    | GetObj(key: Key)
    | CreateObj(key: Key, obj: Obj)
    | UpdateObj(key: Key, was: Obj, obj: Obj)
    | DeleteObj(key: Key)
    | GetTemplate(ns: string, name: string)
    | ListServices(ns: string)
    | CheckInstalled(release: ReleaseKey)
    | Install(release: ReleaseKey)
    | Uninstall(release: ReleaseKey)

  datatype Reply =
    | Done
    | Failure
    | NotFound
    | AnEnv(env: EphemeralEnv)
    | ANamespace(seenNs: Namespace)
    | AnObj(seenObj: Obj)
    | ATemplate(components: seq<Component>)
    | SomeServices(services: seq<Service>)
    | Presence(present: bool)

  /** How a call goes wrong: it never reached the server, or it took effect and the answer was lost,
      or (release look-ups only) the look-up failed and was reported as "not installed". */
  datatype Fault = NoFault | NeverSent | AnswerLost | LookupHidden

  datatype Result = Result(w: World, reply: Reply)

  predicate AcceptsObjects(w: World, ns: string) {
    ns in w.namespaces && !w.namespaces[ns].terminating
  }

  /** A write of a resource bumps its version, unless it changes nothing; a resource marked for
      deletion disappears with its last finalizer. */
  function PutEnv(w: World, name: string, env: EphemeralEnv): World
    requires name in w.envs
  {
    if env == w.envs[name] then w
    else if env.deleting && env.finalizers == {} then w.(envs := w.envs - {name}, nextVersion := w.nextVersion + 1)
    else w.(envs := w.envs[name := env.(resourceVersion := w.nextVersion)], nextVersion := w.nextVersion + 1)
  }

  /** Optimistic concurrency: a write is accepted only from a copy of the current version. */
  predicate Current(w: World, name: string, copy: EphemeralEnv) {
    name in w.envs && w.envs[name].resourceVersion == copy.resourceVersion && w.envs[name].uid == copy.uid
  }

  function ServicesIn(w: World, n: string): seq<Service> {
    if n in w.services then w.services[n] else []
  }

  function Read(w: World, req: Call): Reply {
    match req
    case GetEnv(x) => if x in w.envs then AnEnv(w.envs[x]) else NotFound
    case GetNamespace(n) => if n in w.namespaces then ANamespace(w.namespaces[n]) else NotFound
    case GetObj(k) => if k in w.objs then AnObj(w.objs[k]) else NotFound
    case GetTemplate(n, t) => if (n, t) in w.templates then ATemplate(w.templates[(n, t)]) else NotFound
    case ListServices(n) => SomeServices(ServicesIn(w, n))
    case CheckInstalled(r) => Presence(r in w.releases)
    case _ => Failure
  }

  /** `UpdateEnv` writes the main resource and leaves the status, `UpdateStatus` the reverse. */
  function WriteEnv(w: World, x: string, copy: EphemeralEnv, statusOnly: bool): Result {
    if x !in w.envs then Result(w, NotFound)
    else if !Current(w, x, copy) then Result(w, Failure)
    else
      var cur := w.envs[x];
      var put := if statusOnly then cur.(status := copy.status) else cur.(spec := copy.spec, finalizers := copy.finalizers);
      Result(PutEnv(w, x, put), Done)
  }

  function WriteNs(w: World, req: Call): Result {
    match req
    case CreateNamespace(n, labels) =>
      if n in w.namespaces then Result(w, Failure)
      else Result(w.(namespaces := w.namespaces[n := Namespace(labels, false)]), Done)
    case UpdateNamespace(n, seen, labels) =>
      if n !in w.namespaces then Result(w, NotFound)
      else if w.namespaces[n] != seen then Result(w, Failure)
      else Result(w.(namespaces := w.namespaces[n := seen.(labels := labels)]), Done)
    case DeleteNamespace(n) =>
      if n !in w.namespaces then Result(w, NotFound)
      else Result(w.(namespaces := w.namespaces[n := w.namespaces[n].(terminating := true)]), Done)
    case _ => Result(w, Failure)
  }

  function WriteObj(w: World, req: Call): Result {
    match req
    case CreateObj(k, o) =>
      if k in w.objs || !AcceptsObjects(w, k.namespace) then Result(w, Failure)
      else Result(w.(objs := w.objs[k := o]), Done)
    case UpdateObj(k, was, o) =>
      if k !in w.objs then Result(w, NotFound)
      else if w.objs[k] != was then Result(w, Failure)
      else Result(w.(objs := w.objs[k := o]), Done)
    case DeleteObj(k) =>
      if k !in w.objs then Result(w, NotFound)
      else Result(w.(objs := w.objs - {k}), Done)
    case _ => Result(w, Failure)
  }

  /** Installing over an existing record upgrades it. */
  function WriteRelease(w: World, req: Call): Result {
    match req
    case Install(r) =>
      if !AcceptsObjects(w, r.namespace) then Result(w, Failure)
      else Result(w.(releases := w.releases + {r}), Done)
    case Uninstall(r) =>
      if r !in w.releases then Result(w, Failure)
      else Result(w.(releases := w.releases - {r}), Done)
    case _ => Result(w, Failure)
  }

  function Effect(w: World, req: Call): Result {
    match req
    case UpdateEnv(x, copy) => WriteEnv(w, x, copy, false)
    case UpdateStatus(x, copy) => WriteEnv(w, x, copy, true)
    case CreateNamespace(_, _) | UpdateNamespace(_, _, _) | DeleteNamespace(_) => WriteNs(w, req)
    case CreateObj(_, _) | UpdateObj(_, _, _) | DeleteObj(_) => WriteObj(w, req)
    case Install(_) | Uninstall(_) => WriteRelease(w, req)
    case _ => Result(w, Read(w, req))
  }

  function Exec(w: World, req: Call, f: Fault): Result {
    match f
    case NoFault => Effect(w, req)
    case NeverSent => Result(w, Failure)
    case AnswerLost => Result(Effect(w, req).w, Failure)
    case LookupHidden => Result(w, if req.CheckInstalled? then Presence(false) else Failure)
  }
}

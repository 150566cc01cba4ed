/** The whole protocol: one reconcile worker per environment, extend requests from the UI, users,
    the namespace controller, other tenants of the cluster, and the clock, in any interleaving. */
module Protocol {
  import opened Model
  import opened Store
  import opened Machine

  /** An extend-TTL request between its read and its write. */
  datatype Extension = Extension(env: string, base: EphemeralEnv, at: Time, duration: Time)

  /** History of the expiry of the current incarnation of a resource: the first value stored, and the
      sum of the extensions the server accepted since. */
  datatype Ledger = Ledger(first: Time, added: Time)

  datatype Global = Global(
    w: World,
    locals: map<string, Local>,
    extensions: map<nat, Extension>,
    ledgers: map<string, Ledger>)

  datatype Event =
    | Work(x: string, fault: Fault)                               // next micro-step of x's worker
    | ExtendRead(id: nat, env: string, duration: Time)            // extendTTL up to its write
    | ExtendWrite(id: nat, fault: Fault)
    | CreateEnv(env: string, namespace: string, spec: Spec, finalizers: set<string>)
    | DeleteEnv(env: string)
    | EditEnv(env: string, spec: Spec, finalizers: set<string>)   // a user may only touch foreign finalizers
    | FinishNs(ns: string)                                        // namespace controller: termination done
    | ReapObj(key: Key)                                           // namespace controller: on its way there
    | OtherNs(ns: string, labels: map<string, string>)            // somebody creates a namespace without the prefix
    | DropOtherNs(ns: string)
    | Relabel(ns: string, labels: map<string, string>)
    | Meddle(key: Key, obj: Option<Obj>)                          // somebody writes or deletes an object
    | Workload(ns: string, services: seq<Service>)
    | Publish(ns: string, template: string, components: Option<seq<Component>>)
    | Tick(seconds: nat)

  const NoEnv := EphemeralEnv(0, 0, "", 0, false, {},
                              Spec(None, [], None, NoTtl, None, None, Gateway("", "", "", "", 0)), EmptyStatus)

  const IdleLocal := Local(Idle(PassResult(0, false)), NoEnv, "", [], [], None)

  function LocalOf(g: Global, x: string): Local {
    if x in g.locals then g.locals[x] else IdleLocal
  }

  // ---------------------------------------------------------------- the ledger

  function Expiry(w: World, x: string): Option<Time> {
    if x in w.envs then w.envs[x].status.expirationTime else None
  }

  /** The ledger opens when a write of x stores an expiry where there was none. */
  function Opened(ledgers: map<string, Ledger>, x: string, before: World, after: World): map<string, Ledger> {
    if Expiry(before, x).None? && Expiry(after, x).Some? then ledgers[x := Ledger(Expiry(after, x).value, 0)] else ledgers
  }

  function Extended(u: Extension): EphemeralEnv {
    var from := if u.base.status.expirationTime.Some? then u.base.status.expirationTime.value else u.at;
    u.base.(status := u.base.status.(expirationTime := Some(from + u.duration)))
  }

  /** The server accepts the write of an extension; the answer may still get lost. */
  predicate Accepted(w: World, u: Extension, f: Fault) {
    (f.NoFault? || f.AnswerLost?) && Current(w, u.env, u.base)
  }

  function Credit(ledgers: map<string, Ledger>, u: Extension): map<string, Ledger> {
    if u.env in ledgers then ledgers[u.env := ledgers[u.env].(added := ledgers[u.env].added + u.duration)] else ledgers
  }

  // ---------------------------------------------------------------- events

  function DoWork(cfg: Config, g: Global, x: string, f: Fault): Global {
    var s := Step(cfg, x, g.w, LocalOf(g, x), f);
    g.(w := s.w, locals := g.locals[x := s.l], ledgers := Opened(g.ledgers, x, g.w, s.w))
  }

  function DoExtendWrite(g: Global, id: nat, f: Fault): Global {
    if id !in g.extensions then g
    else
      var u := g.extensions[id];
      var w := Exec(g.w, UpdateStatus(u.env, Extended(u)), f).w;
      var ledgers := if !Accepted(g.w, u, f) then g.ledgers
                     else if u.base.status.expirationTime.None? then Opened(g.ledgers, u.env, g.w, w)
                     else Credit(g.ledgers, u);
      g.(w := w, extensions := g.extensions - {id}, ledgers := ledgers)
  }

  function DoCreate(g: Global, x: string, ns: string, spec: Spec, finalizers: set<string>): Global {
    if x in g.w.envs then g
    else
      var env := EphemeralEnv(g.w.nextVersion, g.w.nextVersion, ns, g.w.now, false, finalizers, spec, EmptyStatus);
      g.(w := g.w.(envs := g.w.envs[x := env], nextVersion := g.w.nextVersion + 1), ledgers := g.ledgers - {x})
  }

  function DoDelete(w: World, x: string): World {
    if x !in w.envs then w
    else if w.envs[x].finalizers == {} then w.(envs := w.envs - {x})
    else PutEnv(w, x, w.envs[x].(deleting := true))
  }

  function DoEdit(w: World, x: string, spec: Spec, finalizers: set<string>): World {
    if x !in w.envs then w
    else PutEnv(w, x, w.envs[x].(spec := spec, finalizers := (finalizers - {FINALIZER}) + (w.envs[x].finalizers * {FINALIZER})))
  }

  predicate Terminating(w: World, n: string) {
    n in w.namespaces && w.namespaces[n].terminating
  }

  predicate Live(w: World, n: string) {
    n in w.namespaces && !w.namespaces[n].terminating
  }

  function DoFinishNs(w: World, n: string): World {
    if !Terminating(w, n) then w
    else w.(namespaces := w.namespaces - {n},
            objs := map k | k in w.objs && k.namespace != n :: w.objs[k],
            services := w.services - {n},
            releases := set r | r in w.releases && r.namespace != n)
  }

  function Ambient(w: World, e: Event): World {
    match e
    case DeleteEnv(x) => DoDelete(w, x)
    case EditEnv(x, spec, finalizers) => DoEdit(w, x, spec, finalizers)
    case FinishNs(n) => DoFinishNs(w, n)
    case ReapObj(k) => if Terminating(w, k.namespace) then w.(objs := w.objs - {k}) else w
    case OtherNs(n, labels) =>
      if EnvPrefixed(n) || n in w.namespaces then w else w.(namespaces := w.namespaces[n := Namespace(labels, false)])
    case DropOtherNs(n) =>
      if EnvPrefixed(n) || n !in w.namespaces then w else w.(namespaces := w.namespaces[n := w.namespaces[n].(terminating := true)])
    case Relabel(n, labels) =>
      if n !in w.namespaces then w else w.(namespaces := w.namespaces[n := w.namespaces[n].(labels := labels)])
    case Meddle(k, o) => w.(objs := if o.Some? then w.objs[k := o.value] else w.objs - {k})
    case Workload(n, services) => w.(services := w.services[n := services])
    case Publish(n, t, cs) => w.(templates := if cs.Some? then w.templates[(n, t) := cs.value] else w.templates - {(n, t)})
    case Tick(d) => w.(now := w.now + d)
    case _ => w
  }

  function Apply(cfg: Config, g: Global, e: Event): Global {
    match e
    case Work(x, f) => DoWork(cfg, g, x, f)
    case ExtendRead(id, x, d) =>
      if x in g.w.envs then g.(extensions := g.extensions[id := Extension(x, g.w.envs[x], g.w.now, d)]) else g
    case ExtendWrite(id, f) => DoExtendWrite(g, id, f)
    case CreateEnv(x, ns, spec, finalizers) => DoCreate(g, x, ns, spec, finalizers)
    case _ => g.(w := Ambient(g.w, e))
  }

  function Run(cfg: Config, g: Global, es: seq<Event>): Global {
    if es == [] then g else Apply(cfg, Run(cfg, g, es[..|es| - 1]), es[|es| - 1])
  }

  /** Before the operator ever ran: no environments, no namespaces with its prefix. */
  predicate Initial(g: Global) {
    && g.w.envs == map[] && g.locals == map[] && g.extensions == map[] && g.ledgers == map[]
    && (forall n :: n in g.w.namespaces ==> !EnvPrefixed(n))
  }

  lemma RunConcat(cfg: Config, g: Global, a: seq<Event>, b: seq<Event>)
    ensures Run(cfg, g, a + b) == Run(cfg, Run(cfg, g, a), b)
  {
    hide Apply;
    if b == [] {
      assert a + b == a;
    } else {
      RunConcat(cfg, g, a, b[..|b| - 1]);
      assert (a + b)[..|a + b| - 1] == a + b[..|b| - 1];
    }
  }

  lemma RunNothing(cfg: Config, g: Global)
    ensures Run(cfg, g, []) == g
  {
  }

  lemma RunSnoc(cfg: Config, g: Global, es: seq<Event>, e: Event)
    ensures Run(cfg, g, es + [e]) == Apply(cfg, Run(cfg, g, es), e)
  {
    hide Apply;
    assert (es + [e])[..|es|] == es;
  }
}

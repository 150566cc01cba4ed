/** What a pass without a fault leaves in the cluster, in so many words. */
module Contents {
  import opened Model
  import opened Text
  import opened Discovery
  import opened Store
  import opened Machine
  import opened Progress
  import opened Protocol
  import opened Runs
  import opened Pass
  import opened Backing
  import opened Calm
  import opened Faultless
  import opened Converge
  import opened History

  /** The labels that mark what belongs to environment x. */
  function Mark(x: string): map<string, string> {
    map["app.kubernetes.io/managed-by" := "ephemeral-operator", "ephemeral.ephemeralenv.io/owner" := x]
  }

  /** The object is there with this content and these labels; it keeps any other label it had. */
  predicate Has(w: World, v: World, k: Key, labels: map<string, string>, body: Body) {
    k in v.objs && v.objs[k] == Obj((if k in w.objs then w.objs[k].labels else map[]) + labels, body)
  }

  /** The content found under a key, or that of a new object. */
  function Found(w: World, k: Key, initial: Body): Body {
    if k in w.objs then w.objs[k].body else initial
  }

  /** The template that the specification refers to, by default in the resource's own namespace. */
  function TemplateFound(w: World, env: EphemeralEnv): Option<seq<Component>> {
    match env.spec.templateRef
    case None => None
    case Some(t) =>
      var key := (if t.namespace == "" then env.namespace else t.namespace, t.name);
      if key in w.templates then Some(w.templates[key]) else None
  }

  /** What is to be deployed. */
  function ComponentsOf(w: World, env: EphemeralEnv): seq<Component> {
    if env.spec.components != [] then env.spec.components
    else if TemplateFound(w, env).Some? then TemplateFound(w, env).value
    else match env.spec.helm
      case Some(h) => [Component(h.chart.name, h.chart, h.valuesParse, true)]
      case None => []
  }

  /** The name by which a service is preferred: i and k are the places of the first primary components. */
  function Preference(w: World, env: EphemeralEnv, i: nat, k: nat): string {
    if i < |env.spec.components| then env.spec.components[i].name
    else if TemplateFound(w, env).Some? && k < |TemplateFound(w, env).value| then TemplateFound(w, env).value[k].name
    else if env.spec.helm.Some? then env.spec.helm.value.chart.name
    else ""
  }

  function Services(w: World, x: string): seq<Service> {
    if "env-" + x in w.services then w.services["env-" + x] else []
  }

  /** The service a route is to point at: the named one, or the best fit among those listed. */
  ghost predicate Backs(x: string, w: World, name: string)
    requires x in w.envs
  {
    var env := w.envs[x];
    if env.spec.servicePort.None? then name == env.spec.gateway.serviceName
    else exists i: nat, k: nat, s: Service ::
      && PrimaryAt(env.spec.components, i) && PrimaryAt(if TemplateFound(w, env).Some? then TemplateFound(w, env).value else [], k)
      && BestFit(Services(w, x), env.spec.servicePort.value, Preference(w, env, i, k), s) && s.name == name
  }

  function Port(spec: Spec): int {
    match spec.servicePort
    case Some(p) => p
    case None => spec.gateway.targetPort
  }

  // ---------------------------------------------------------------- the leaves

  lemma TemplateMeans(w: World, env: EphemeralEnv)
    ensures env.spec.templateRef.Some? ==> TemplateAt(w, env) == TemplateFound(w, env)
  {
  }

  lemma ListedMeans(w: World, env: EphemeralEnv)
    ensures Resolve(env.spec, TemplateAt(w, env)) == ComponentsOf(w, env)
  {
    TemplateMeans(w, env);
    ResolveMeans(env.spec, TemplateAt(w, env));
    hide Resolve, TemplateAt;
  }

  lemma FirstPlace(cs: seq<Component>) returns (i: nat)
    ensures PrimaryAt(cs, i)
  {
    i := 0;
    while i < |cs| && !cs[i].primary
      invariant i <= |cs| && forall j :: 0 <= j < i ==> !cs[j].primary
    {
      i := i + 1;
    }
  }

  lemma BackendMeans(x: string, w: World)
    requires x in w.envs
    ensures Served(x, w) ==> Backs(x, w, BackendName(x, w))
    ensures Served(x, w) <==> w.envs[x].spec.servicePort.None? || exists s :: s in Services(w, x) && Fits(s, w.envs[x].spec.servicePort.value)
  {
    hide Discover, PrimaryName, Fits, BestFit, TemplateFound, TemplateAt, PrimaryAt;
    var env := w.envs[x];
    if env.spec.servicePort.Some? {
      var port, t := env.spec.servicePort.value, TemplateAt(w, env);
      assert RoutePort(env.spec) == port && ServicesAt(w, x) == Services(w, x);
      TemplateMeans(w, env);
      assert env.spec.templateRef.None? ==> TemplateFound(w, env) == None by { if env.spec.templateRef.None? { NoTemplate(w, env); } }
      var i := FirstPlace(env.spec.components);
      var k := FirstPlace(if TemplateFound(w, env).Some? then TemplateFound(w, env).value else []);
      assert (if env.spec.templateRef.Some? && t.Some? then t.value else []) == (if TemplateFound(w, env).Some? then TemplateFound(w, env).value else []);
      PrimaryNameMeans(env.spec, t, i, k);
      DiscoverMeans(Services(w, x), port, PrimaryName(env.spec, t));
      if Served(x, w) {
        assert PrimaryName(env.spec, t) == Preference(w, env, i, k);
        var s :| BestFit(Services(w, x), port, Preference(w, env, i, k), s) && s.name == BackendName(x, w);
      }
    }
  }

  lemma NoTemplate(w: World, env: EphemeralEnv)
    requires env.spec.templateRef.None?
    ensures TemplateFound(w, env) == None
  {
  }

  /** What a stage makes of what it finds, spelled out for each. */
  lemma StageMeans(cfg: Config, x: string, spec: Spec, service: string, was: Option<Obj>)
    ensures var ns := "env-" + x; var gw := spec.gateway; var kept := if was.Some? then was.value.labels else map[];
      && StageObj(cfg, x, spec, NsName(x), service, SaStage, was) == Obj(kept + Mark(x), if was.Some? then was.value.body else Bare)
      && StageObj(cfg, x, spec, NsName(x), service, RoleStage, was) == Obj(kept + Mark(x), FullAccess)
      && StageObj(cfg, x, spec, NsName(x), service, BindingStage, was) == Obj(kept + Mark(x), BindsDeveloper(ns))
      && StageObj(cfg, x, spec, NsName(x), service, PolicyStage, was) == Obj(kept + Mark(x), if was.Some? then was.value.body else DenyAll)
      && StageObj(cfg, x, spec, NsName(x), service, GrantStage, was) == Obj(kept + Mark(x), GrantFrom(gw.namespace))
      && StageObj(cfg, x, spec, NsName(x), service, AppStage, was)
         == Obj(kept + Mark(x), RouteTo(gw.name, gw.namespace, gw.domainPrefix + ".preview.example.com", service, ns, Port(spec)))
      && StageObj(cfg, x, spec, NsName(x), service, AdminStage, was)
         == Obj(kept + (Mark(x) + map["ephemeral.ephemeralenv.io/route-type" := "admin"]),
                RouteTo(gw.name, gw.namespace, "admin." + gw.domainPrefix + ".preview.example.com", cfg.operatorService, cfg.operatorNamespace, 8080))
  {
    Dotted(spec.gateway.domainPrefix);
    Dotted("admin." + spec.gateway.domainPrefix);
    assert map[] + Mark(x) == Mark(x) && map[] + (Mark(x) + map["ephemeral.ephemeralenv.io/route-type" := "admin"]) == Mark(x) + map["ephemeral.ephemeralenv.io/route-type" := "admin"];
  }

  lemma Dotted(s: string)
    ensures s + "." + "preview.example.com" == s + ".preview.example.com"
  {
    assert "." + "preview.example.com" == ".preview.example.com";
  }

  lemma KeysMean(x: string, spec: Spec)
    ensures NsName(x) == "env-" + x && NsName(x) != "" && OwnerLabels(x) == Mark(x)
    ensures var ns := "env-" + x;
      && StageKey(x, spec, NsName(x), SaStage) == Key(ServiceAccount, ns, "developer-access")
      && StageKey(x, spec, NsName(x), RoleStage) == Key(Role, ns, "ns-admin")
      && StageKey(x, spec, NsName(x), BindingStage) == Key(RoleBinding, ns, "developer-access-ns-admin")
      && StageKey(x, spec, NsName(x), PolicyStage) == Key(NetworkPolicy, ns, "deny-all")
      && StageKey(x, spec, NsName(x), GrantStage) == Key(ReferenceGrant, ns, "grant-" + x)
      && StageKey(x, spec, NsName(x), AppStage) == Key(HTTPRoute, spec.gateway.namespace, "route-" + x)
      && StageKey(x, spec, NsName(x), AdminStage) == Key(HTTPRoute, spec.gateway.namespace, "admin-route-" + x)
  {
  }

  lemma WantedMeans(cfg: Config, x: string, spec: Spec)
    ensures Wanted(cfg, x, spec, SaStage) && Wanted(cfg, x, spec, RoleStage) && Wanted(cfg, x, spec, BindingStage) && Wanted(cfg, x, spec, AppStage)
    ensures Wanted(cfg, x, spec, PolicyStage) <==> spec.isolation != Some(false)
    ensures Wanted(cfg, x, spec, GrantStage) <==> spec.gateway.namespace != "env-" + x
    ensures Wanted(cfg, x, spec, AdminStage) <==> cfg.operatorService != "" && cfg.operatorNamespace != ""
  {
  }

  // ---------------------------------------------------------------- together

  /** Each stage asked for has made of what it found what it makes. */
  lemma StagesMade(cfg: Config, x: string, w: World, v: World, st: Stage)
    requires Kin(x, w, v) && ObjsGrown(cfg, x, w, v) && Settled(cfg, x, v) && Asked(cfg, x, w, st)
    ensures var k := StageKey(x, w.envs[x].spec, NsName(x), st);
      k in v.objs && v.objs[k] == StageObj(cfg, x, w.envs[x].spec, NsName(x), BackendName(x, w), st, Stored(w, k))
  {
    hide Kin, StageKey, StageObj, NsName, BackendName, Labelled, TemplateAt, Resolve, Release, Wanted, Served;
    SameAsked(cfg, x, w, v, st);
    assert InPlace(cfg, x, v.objs, v.envs[x].spec, BackendName(x, v), st);
  }

  /** What must be there after a pass. */
  ghost predicate Furnished(cfg: Config, x: string, w: World, v: World)
    requires x in w.envs
  {
    var env := w.envs[x]; var spec := env.spec; var gw := spec.gateway; var ns := "env-" + x;
    var sa, policy := Key(ServiceAccount, ns, "developer-access"), Key(NetworkPolicy, ns, "deny-all");
    && Has(w, v, sa, Mark(x), Found(w, sa, Bare))
    && Has(w, v, Key(Role, ns, "ns-admin"), Mark(x), FullAccess)
    && Has(w, v, Key(RoleBinding, ns, "developer-access-ns-admin"), Mark(x), BindsDeveloper(ns))
    && (spec.isolation != Some(false) ==> Has(w, v, policy, Mark(x), Found(w, policy, DenyAll)))
    && (gw.namespace != ns ==> Has(w, v, Key(ReferenceGrant, ns, "grant-" + x), Mark(x), GrantFrom(gw.namespace)))
  }

  ghost predicate Routed(cfg: Config, x: string, w: World, v: World, service: string)
    requires x in w.envs
  {
    var gw := w.envs[x].spec.gateway;
    && Has(w, v, Key(HTTPRoute, gw.namespace, "route-" + x), Mark(x),
           RouteTo(gw.name, gw.namespace, gw.domainPrefix + ".preview.example.com", service, "env-" + x, Port(w.envs[x].spec)))
    && (cfg.operatorService != "" && cfg.operatorNamespace != "" ==>
          Has(w, v, Key(HTTPRoute, gw.namespace, "admin-route-" + x), Mark(x) + map["ephemeral.ephemeralenv.io/route-type" := "admin"],
              RouteTo(gw.name, gw.namespace, "admin." + gw.domainPrefix + ".preview.example.com", cfg.operatorService, cfg.operatorNamespace, 8080)))
  }

  /** The keys under which a pass may write. */
  predicate MayWrite(cfg: Config, x: string, w: World, k: Key, routes: bool)
    requires x in w.envs
  {
    var spec := w.envs[x].spec; var ns := "env-" + x;
    || k in {Key(ServiceAccount, ns, "developer-access"), Key(Role, ns, "ns-admin"), Key(RoleBinding, ns, "developer-access-ns-admin")}
    || (k == Key(NetworkPolicy, ns, "deny-all") && spec.isolation != Some(false))
    || (k == Key(ReferenceGrant, ns, "grant-" + x) && spec.gateway.namespace != ns)
    || (routes && k == Key(HTTPRoute, spec.gateway.namespace, "route-" + x))
    || (routes && k == Key(HTTPRoute, spec.gateway.namespace, "admin-route-" + x) && cfg.operatorService != "" && cfg.operatorNamespace != "")
  }

  lemma AllMade(cfg: Config, x: string, w: World, v: World)
    requires Kin(x, w, v) && ObjsGrown(cfg, x, w, v) && Settled(cfg, x, v)
    ensures x in w.envs
    ensures forall st :: Asked(cfg, x, w, st) ==>
      var k := StageKey(x, w.envs[x].spec, NsName(x), st);
      k in v.objs && v.objs[k] == StageObj(cfg, x, w.envs[x].spec, NsName(x), BackendName(x, w), st, Stored(w, k))
  {
    hide ObjsGrown, Settled, StageKey, StageObj, NsName, BackendName, Asked;
    forall st | Asked(cfg, x, w, st) ensures var k := StageKey(x, w.envs[x].spec, NsName(x), st);
      k in v.objs && v.objs[k] == StageObj(cfg, x, w.envs[x].spec, NsName(x), BackendName(x, w), st, Stored(w, k))
    {
      StagesMade(cfg, x, w, v, st);
    }
  }

  lemma AccessMade(cfg: Config, x: string, w: World, v: World)
    requires Kin(x, w, v) && ObjsGrown(cfg, x, w, v) && Settled(cfg, x, v)
    ensures var ns := "env-" + x; var sa := Key(ServiceAccount, ns, "developer-access");
      && Has(w, v, sa, Mark(x), Found(w, sa, Bare))
      && Has(w, v, Key(Role, ns, "ns-admin"), Mark(x), FullAccess)
      && Has(w, v, Key(RoleBinding, ns, "developer-access-ns-admin"), Mark(x), BindsDeveloper(ns))
  {
    hide ObjsGrown, Settled, StageKey, StageObj, NsName, BackendName, Wanted, Served, OwnerLabels, Mark, Port;
    AllMade(cfg, x, w, v);
    hide Kin;
    KeysMean(x, w.envs[x].spec);
    forall was: Option<Obj> { StageMeans(cfg, x, w.envs[x].spec, BackendName(x, w), was); }
    assert Asked(cfg, x, w, SaStage) && Asked(cfg, x, w, RoleStage) && Asked(cfg, x, w, BindingStage) by { WantedMeans(cfg, x, w.envs[x].spec); }
  }

  lemma FurnishedAll(cfg: Config, x: string, w: World, v: World)
    requires Kin(x, w, v) && ObjsGrown(cfg, x, w, v) && Settled(cfg, x, v)
    ensures Furnished(cfg, x, w, v)
  {
    hide ObjsGrown, Settled, StageKey, StageObj, NsName, BackendName, Wanted, Served, OwnerLabels, Mark, Port;
    AccessMade(cfg, x, w, v);
    AllMade(cfg, x, w, v);
    hide Kin;
    var spec := w.envs[x].spec;
    KeysMean(x, spec);
    WantedMeans(cfg, x, spec);
    forall was: Option<Obj> { StageMeans(cfg, x, spec, BackendName(x, w), was); }
  }

  lemma RoutedAll(cfg: Config, x: string, w: World, v: World)
    requires Kin(x, w, v) && ObjsGrown(cfg, x, w, v) && Settled(cfg, x, v) && Served(x, w)
    ensures Routed(cfg, x, w, v, BackendName(x, w))
  {
    hide ObjsGrown, Settled, StageKey, StageObj, NsName, BackendName, Wanted, Served, OwnerLabels, Mark, Port;
    AllMade(cfg, x, w, v);
    hide Kin;
    var spec := w.envs[x].spec;
    KeysMean(x, spec);
    WantedMeans(cfg, x, spec);
    forall was: Option<Obj> { StageMeans(cfg, x, spec, BackendName(x, w), was); }
    assert Asked(cfg, x, w, AppStage);
  }

  lemma OthersKept(cfg: Config, x: string, w: World, v: World, k: Key)
    requires x in w.envs && ObjsGrown(cfg, x, w, v) && !MayWrite(cfg, x, w, k, Served(x, w))
    ensures Stored(v, k) == Stored(w, k)
  {
    hide StageGrown, StageKey, NsName, BackendName, Wanted, Served, Stored;
    KeysMean(x, w.envs[x].spec);
    WantedMeans(cfg, x, w.envs[x].spec);
  }

  /** A namespace that is there, with the owner's labels on top of those it had; a new one is live. */
  predicate NamespaceMarked(x: string, w: World, v: World) {
    var n := "env-" + x;
    && n in v.namespaces
    && v.namespaces[n] == if n in w.namespaces then w.namespaces[n].(labels := w.namespaces[n].labels + Mark(x)) else Namespace(Mark(x), false)
  }

  lemma NamespaceMade(x: string, w: World, v: World)
    requires NsGrown(x, w, v) && Labelled(x, v)
    ensures NamespaceMarked(x, w, v)
  {
    assert map[] + Mark(x) == Mark(x);
  }

  function ReleaseOf(x: string, c: Component): ReleaseKey {
    ReleaseKey("env-" + x, "env-" + x + "-" + Sanitize(c.name))
  }

  lemma ReleaseMeans(x: string, c: Component)
    ensures Release(x, NsName(x), c) == ReleaseOf(x, c) && Release(x, "", c).name == "env-" + x + "-" + Sanitize(c.name)
  {
  }

  /** The releases after a pass: those of the listed components besides those there were. */
  ghost predicate ReleasesMade(cfg: Config, x: string, w: World, v: World)
    requires x in w.envs
  {
    forall r :: r in v.releases <==> r in w.releases || (cfg.helm && exists c :: c in ComponentsOf(w, w.envs[x]) && r == ReleaseOf(x, c))
  }

  lemma ReleasesAll(cfg: Config, x: string, w: World, v: World)
    requires Kin(x, w, v) && Settled(cfg, x, v) && v.releases <= w.releases + AskedReleases(cfg, x, w)
    ensures ReleasesMade(cfg, x, w, v)
  {
    hide Asked, Labelled, InPlace, Release, ReleaseOf, NsName, ComponentsOf, Resolve, TemplateAt, Deadline, Open;
    KinBackend(x, w, v);
    ListedMeans(w, w.envs[x]);
    forall c { ReleaseMeans(x, c); }
  }

  /** Some service can be pointed at. */
  predicate HasBackend(x: string, w: World)
    requires x in w.envs
  {
    w.envs[x].spec.servicePort.None? || exists s :: s in Services(w, x) && Fits(s, w.envs[x].spec.servicePort.value)
  }

  /** A pass without a fault, from any fit cluster, whatever objects and releases it found: the namespace and
      each object are there with exactly this content, keeping their other labels; routes if there is a
      service to point them at, and else as they were; a release for each component listed; and nothing else
      has changed. */
  lemma PassContents(cfg: Config, x: string, g: Global, fates: seq<Fate>)
    requires Startable(cfg, x, g, fates) && Faults(OnePass(cfg, x, g, fates).rest) == Faults(fates)
    ensures var w, v := g.w, OnePass(cfg, x, g, fates).g.w;
      && NamespaceMarked(x, w, v) && Furnished(cfg, x, w, v) && ReleasesMade(cfg, x, w, v)
      && (HasBackend(x, w) ==> exists name :: Backs(x, w, name) && Routed(cfg, x, w, v, name))
      && (forall n :: n != "env-" + x ==> (n in v.namespaces <==> n in w.namespaces) && (n in w.namespaces ==> v.namespaces[n] == w.namespaces[n]))
      && (forall k :: !MayWrite(cfg, x, w, k, HasBackend(x, w)) ==> (k in v.objs <==> k in w.objs) && (k in w.objs ==> v.objs[k] == w.objs[k]))
  {
    hide OnePass, Fit, Undisturbed, Elapsed, Backend, Settled, Kin, TemplateAt, Served, RoutesSame, AskedReleases, ObjsGrown, NsGrown, MayWrite,
         Furnished, Routed, ReleasesMade, NamespaceMarked, Backs, BackendName, Labelled, HasBackend;
    var w, v := g.w, OnePass(cfg, x, g, fates).g.w;
    CalmPass(cfg, x, g, fates);
    CleanPassSettles(cfg, x, g, fates);
    assert NsGrown(x, w, v) && ObjsGrown(cfg, x, w, v);
    SettledLabelled(cfg, x, v);
    NamespaceMade(x, w, v);
    OnlyOwnNs(x, w, v);
    FurnishedAll(cfg, x, w, v);
    ReleasesAll(cfg, x, w, v);
    assert Served(x, w) <==> HasBackend(x, w) by { BackendMeans(x, w); BackendExists(x, w); }
    if Served(x, w) {
      RoutedAll(cfg, x, w, v);
      BackendMeans(x, w);
    }
    forall k | !MayWrite(cfg, x, w, k, HasBackend(x, w)) ensures (k in v.objs <==> k in w.objs) && (k in w.objs ==> v.objs[k] == w.objs[k]) {
      OthersKept(cfg, x, w, v, k);
    }
  }

  lemma BackendExists(x: string, w: World)
    requires x in w.envs
    ensures HasBackend(x, w) <==> w.envs[x].spec.servicePort.None? || exists s :: s in Services(w, x) && Fits(s, w.envs[x].spec.servicePort.value)
  {
  }

  lemma OnlyOwnNs(x: string, w: World, v: World)
    requires NsGrown(x, w, v)
    ensures forall n :: n != "env-" + x ==> (n in v.namespaces <==> n in w.namespaces) && (n in w.namespaces ==> v.namespaces[n] == w.namespaces[n])
  {
  }

  lemma KinRefl(x: string, w: World)
    requires x in w.envs
    ensures Kin(x, w, w)
  {
    hide Deadline, Open;
    assert w.envs[x].status == w.envs[x].status;
  }

  /** Where everything is in place after however many passes with whatever faults, it is with this content. */
  lemma SettledContents(cfg: Config, x: string, w: World)
    requires Settled(cfg, x, w)
    ensures x in w.envs && NamespaceMarked(x, w, w) && Furnished(cfg, x, w, w) && ReleasesMade(cfg, x, w, w)
    ensures HasBackend(x, w) ==> exists name :: Backs(x, w, name) && Routed(cfg, x, w, w, name)
  {
    hide Settled, Kin, TemplateAt, Served, AskedReleases, ObjsGrown, NsGrown, Furnished, Routed, ReleasesMade, NamespaceMarked, Backs, BackendName, Labelled, HasBackend;
    SettledFinalizer(cfg, x, w);
    KinRefl(x, w);
    SameGrown(cfg, x, w, w);
    NsKeptGrown(x, w, w);
    SettledLabelled(cfg, x, w);
    NamespaceMade(x, w, w);
    FurnishedAll(cfg, x, w, w);
    ReleasesAll(cfg, x, w, w);
    BackendMeans(x, w);
    BackendExists(x, w);
    if Served(x, w) { RoutedAll(cfg, x, w, w); }
  }
}

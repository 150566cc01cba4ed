/** Runs from an initial cluster to the states in which a promise fails. */
module Reached {
  import opened Model
  import opened Discovery
  import opened Store
  import opened Machine
  import opened Progress
  import opened Teardown
  import opened Calls
  import opened Protocol
  import opened Runs
  import opened Pass
  import opened Backing
  import opened Calm
  import opened Faultless
  import opened Converge
  import opened History
  import opened Expiry

  // ---------------------------------------------------------------- a stranded route

  lemma RouteUp(cfg: Config, x: string, w: World)
    requires Settled(cfg, x, w) && Served(x, w)
    ensures x in w.envs && FINALIZER in w.envs[x].finalizers && AppRoute(x, w.envs[x].spec.gateway.namespace) in w.objs && NsName(x) in w.namespaces
  {
    assert Asked(cfg, x, w, AppStage);
    hide StageObj, BackendName, NsName, Served;
  }

  lemma StaysLive(x: string, w: World, v: World)
    requires Kin(x, w, v) && !Terminating(w, NsName(x)) && NsName(x) in v.namespaces
    ensures Live(v, NsName(x))
  {
    hide NsName, Deadline;
    assert Open(w, x, NsName(x));
  }

  lemma FetchExpired(cfg: Config, g: Global, x: string)
    requires LocalOf(g, x).pc.Idle? && Standing(x, g.w) && FINALIZER in g.w.envs[x].finalizers && g.w.now > Deadline(g.w.envs[x])
    ensures var h := DoWork(cfg, g, x, NoFault);
      h.w == g.w && LocalOf(h, x).pc == GetRoute(Expiring) && LocalOf(h, x).env.spec == g.w.envs[x].spec
  {
  }

  lemma PassWithin(cfg: Config, g: Global, x: string, e: Event, h: Global) returns (es: seq<Event>)
    requires h == Apply(cfg, g, e) && LocalOf(h, x).pc.Idle?
    ensures Run(cfg, g, es) == OnePass(cfg, x, h, []).g
  {
    hide OnePass, Apply, Run;
    PassIsRun(cfg, x, h, []);
    var pass := Script(x, [], |OnePass(cfg, x, h, []).calls|);
    assert Run(cfg, g, [e]) == h by { RunNothing(cfg, g); RunSnoc(cfg, g, [], e); assert [] + [e] == [e]; }
    RunConcat(cfg, g, [e], pass);
    es := [e] + pass;
  }

  /** A new environment's first pass, and the fetch of a pass after its deadline. */
  lemma RunToTakedown(cfg: Config, g: Global, x: string, ns: string, spec: Spec) returns (es: seq<Event>)
    requires Initial(g) && Live(g.w, spec.gateway.namespace) && spec.servicePort.None? && !cfg.helm
    ensures var h := Run(cfg, g, es);
      && LocalOf(h, x).pc == GetRoute(Expiring) && LocalOf(h, x).env.spec == spec
      && Live(h.w, NsName(x)) && AppRoute(x, spec.gateway.namespace) in h.w.objs
  {
    hide Run, OnePass, DoWork, NsName, Settled, Kin, Fit, Activates, RouteName, Served, Undisturbed, Elapsed, TemplateAt, AskedReleases;
    var e, h := CreateEnv(x, ns, spec, {}), DoCreate(g, x, ns, spec, {});
    assert !Terminating(h.w, NsName(x)) by { NsNamePrefixed(x); }
    NewStartable(cfg, g, x, ns, spec);
    NamedServed(x, h.w);
    CalmPass(cfg, x, h, []);
    CleanPassSettles(cfg, x, h, []);
    var c := OnePass(cfg, x, h, []).g;
    KinBackend(x, h.w, c.w);
    RouteUp(cfg, x, c.w);
    StaysLive(x, h.w, c.w);
    es := PassWithin(cfg, g, x, e, h);
    var late := Deadline(c.w.envs[x]) - c.w.now + 1;
    assert late >= 0 by { NothingElapses(); }
    RunSnoc(cfg, g, es, Tick(late));
    RunSnoc(cfg, g, es + [Tick(late)], Work(x, NoFault));
    var d := c.(w := c.w.(now := c.w.now + late));
    assert Apply(cfg, c, Tick(late)) == d;
    FetchExpired(cfg, d, x);
    es := es + [Tick(late)] + [Work(x, NoFault)];
  }

  lemma NothingElapses()
    ensures Elapsed([]) == 0
  {
  }

  /** From any initial cluster with a live gateway namespace, one failing call is enough: a new environment
      without charts is put up without a fault, outlives its time, and one lost route look-up later its
      route has no namespace behind it. */
  lemma RouteStranded(cfg: Config, g: Global, x: string, ns: string, spec: Spec)
    requires Initial(g) && Live(g.w, spec.gateway.namespace) && spec.servicePort.None? && !cfg.helm
    ensures exists es :: var h := Run(cfg, g, es);
      && LocalOf(h, x).pc == GetRoute(Expiring) && Live(h.w, NsName(x)) && AppRoute(x, spec.gateway.namespace) in h.w.objs
      && !RoutesBacked(Run(cfg, g, es + [Work(x, NeverSent), Work(x, NoFault), Work(x, NoFault)]).w, x)
  {
    hide Run, NsName, RouteName, RoutesBacked, Live;
    var es := RunToTakedown(cfg, g, x, ns, spec);
    SwallowedFaultStrands(cfg, Run(cfg, g, es), x, spec.gateway.namespace);
    RunConcat(cfg, g, es, [Work(x, NeverSent), Work(x, NoFault), Work(x, NoFault)]);
  }

  // ---------------------------------------------------------------- an early takedown

  /** An environment on its way to its first object, before its time, while no expiry has been stored. */
  predicate Starting(g: Global, x: string, spec: Spec, pc: Pc) {
    && x in g.w.envs && LocalOf(g, x).pc == pc
    && var env := g.w.envs[x];
    && !env.deleting && env.spec == spec && env.status.expirationTime.None? && g.w.now <= CalculateExpirationTime(env)
    && (pc.AddFinalizer? ==> LocalOf(g, x).env == env.(finalizers := env.finalizers + {FINALIZER}))
    && (!pc.AddFinalizer? && !pc.Idle? ==> FINALIZER in env.finalizers)
    && (pc.GetNs? || pc.PutNs? || pc.GetStage? || pc.Save? ==> LocalOf(g, x).env.status.expirationTime.Some?)
  }

  lemma FetchNew(cfg: Config, g: Global, x: string, spec: Spec, last: PassResult)
    requires Starting(g, x, spec, Idle(last)) && FINALIZER !in g.w.envs[x].finalizers
    ensures var h := DoWork(cfg, g, x, NoFault); h.w == g.w && Starting(h, x, spec, AddFinalizer)
  {
  }

  lemma FinalizeNew(cfg: Config, g: Global, x: string, spec: Spec)
    requires Starting(g, x, spec, AddFinalizer)
    ensures var h := DoWork(cfg, g, x, NoFault);
      Starting(h, x, spec, Refetch) && h.w == g.w.(envs := h.w.envs, nextVersion := h.w.nextVersion)
  {
  }

  lemma RefetchNew(cfg: Config, g: Global, x: string, spec: Spec)
    requires Starting(g, x, spec, Refetch)
    ensures var h := DoWork(cfg, g, x, NoFault); h.w == g.w && Starting(h, x, spec, GetNs)
  {
    hide NsName;
  }

  lemma FindNew(cfg: Config, g: Global, x: string, spec: Spec)
    requires Starting(g, x, spec, GetNs) && NsName(x) !in g.w.namespaces
    ensures var h := DoWork(cfg, g, x, NoFault); h.w == g.w && Starting(h, x, spec, PutNs(None))
  {
    hide NsName;
  }

  lemma NamespaceNew(cfg: Config, g: Global, x: string, spec: Spec)
    requires Starting(g, x, spec, PutNs(None)) && NsName(x) !in g.w.namespaces
    ensures var h := DoWork(cfg, g, x, NoFault);
      Starting(h, x, spec, GetStage(SaStage)) && h.w == g.w.(namespaces := h.w.namespaces) && Live(h.w, NsName(x))
  {
    hide NsName;
  }

  lemma AccessFails(cfg: Config, g: Global, x: string, spec: Spec)
    requires Starting(g, x, spec, GetStage(SaStage))
    ensures var h := DoWork(cfg, g, x, NeverSent); h.w == g.w && Starting(h, x, spec, Save(StepFailed))
  {
    hide NsName;
  }

  lemma SaveFails(cfg: Config, g: Global, x: string, spec: Spec)
    requires Starting(g, x, spec, Save(StepFailed))
    ensures var h := DoWork(cfg, g, x, NeverSent); h.w == g.w && LocalOf(h, x).pc.Idle?
  {
    hide NsName;
  }

  lemma OneWork(cfg: Config, g: Global, es: seq<Event>, x: string, f: Fault, h: Global)
    requires Run(cfg, g, es) == h
    ensures Run(cfg, g, es + [Work(x, f)]) == DoWork(cfg, h, x, f)
  {
    hide DoWork;
    RunSnoc(cfg, g, es, Work(x, f));
  }

  lemma TwoWorks(cfg: Config, g: Global, x: string, e: Fault, f: Fault)
    ensures Run(cfg, g, [Work(x, e), Work(x, f)]) == DoWork(cfg, DoWork(cfg, g, x, e), x, f)
  {
    hide DoWork, Run;
    RunNothing(cfg, g);
    OneWork(cfg, g, [], x, e, g);
    assert [] + [Work(x, e)] == [Work(x, e)] && [Work(x, e)] + [Work(x, f)] == [Work(x, e), Work(x, f)];
    OneWork(cfg, g, [Work(x, e)], x, f, DoWork(cfg, g, x, e));
  }

  /** Created, fetched, given its finalizer. */
  lemma RunToRefetch(cfg: Config, g: Global, x: string, ns: string, spec: Spec) returns (es: seq<Event>)
    requires Initial(g)
    ensures var h := Run(cfg, g, es); Starting(h, x, spec, Refetch) && h.w == g.w.(envs := h.w.envs, nextVersion := h.w.nextVersion)
  {
    hide Run, DoWork;
    var e, h := CreateEnv(x, ns, spec, {}), DoCreate(g, x, ns, spec, {});
    assert Run(cfg, g, [e]) == h by { RunNothing(cfg, g); RunSnoc(cfg, g, [], e); assert [] + [e] == [e]; }
    FetchNew(cfg, h, x, spec, PassResult(0, false));
    FinalizeNew(cfg, DoWork(cfg, h, x, NoFault), x, spec);
    TwoWorks(cfg, h, x, NoFault, NoFault);
    es := [e] + [Work(x, NoFault), Work(x, NoFault)];
    RunConcat(cfg, g, [e], [Work(x, NoFault), Work(x, NoFault)]);
  }

  /** Nothing but calls of x's worker. */
  predicate OwnCalls(es: seq<Event>, x: string) {
    forall i :: 0 <= i < |es| ==> es[i].Work? && es[i].x == x
  }

  /** Fetched again, found to have no namespace, and given one. */
  lemma RunToAccess(cfg: Config, g: Global, x: string, spec: Spec) returns (es: seq<Event>)
    requires (Starting(g, x, spec, Refetch) || Starting(g, x, spec, GetNs)) && NsName(x) !in g.w.namespaces
    ensures var h := Run(cfg, g, es);
      Starting(h, x, spec, GetStage(SaStage)) && h.w == g.w.(namespaces := h.w.namespaces) && Live(h.w, NsName(x))
    ensures OwnCalls(es, x)
  {
    hide Run, DoWork, NsName, Starting, Live;
    RunNothing(cfg, g);
    var h := g;
    es := [];
    if Starting(g, x, spec, Refetch) {
      RefetchNew(cfg, g, x, spec);
      OneWork(cfg, g, es, x, NoFault, g);
      h := DoWork(cfg, g, x, NoFault);
      es := es + [Work(x, NoFault)];
    }
    FindNew(cfg, h, x, spec);
    var h1 := DoWork(cfg, h, x, NoFault);
    NamespaceNew(cfg, h1, x, spec);
    OneWork(cfg, g, es, x, NoFault, h);
    OneWork(cfg, g, es + [Work(x, NoFault)], x, NoFault, h1);
    es := es + [Work(x, NoFault)] + [Work(x, NoFault)];
  }

  /** Then an access step and the status write fail. */
  lemma RunToFailure(cfg: Config, g: Global, x: string, spec: Spec)
    requires Starting(g, x, spec, GetStage(SaStage))
    ensures var h := Run(cfg, g, [Work(x, NeverSent), Work(x, NeverSent)]); h.w == g.w && LocalOf(h, x).pc.Idle?
  {
    hide Run, DoWork, Starting;
    AccessFails(cfg, g, x, spec);
    SaveFails(cfg, DoWork(cfg, g, x, NeverSent), x, spec);
    TwoWorks(cfg, g, x, NeverSent, NeverSent);
  }

  lemma RunToUnstored(cfg: Config, g: Global, x: string, ns: string, spec: Spec) returns (es: seq<Event>)
    requires Initial(g) && !cfg.helm && Key(HTTPRoute, spec.gateway.namespace, RouteName(x)) !in g.w.objs
    ensures Unstored(cfg, Run(cfg, g, es), x)
  {
    hide Run, NsName, RouteName;
    NsNamePrefixed(x);
    es := RunToRefetch(cfg, g, x, ns, spec);
    var h1 := Run(cfg, g, es);
    var later := RunToAccess(cfg, h1, x, spec);
    RunConcat(cfg, g, es, later);
    var h2 := Run(cfg, g, es + later);
    RunToFailure(cfg, h2, x, spec);
    var failing := [Work(x, NeverSent), Work(x, NeverSent)];
    RunConcat(cfg, g, es + later, failing);
    es := es + later + failing;
    var late := CalculateExpirationTime(h2.w.envs[x]) - h2.w.now + 1;
    RunSnoc(cfg, g, es, Tick(late));
    es := es + [Tick(late)];
  }

  /** From any initial cluster: if the first pass of a new environment fails before it has stored the status
      and the next one comes after creation plus TTL, an extension accepted meanwhile does not save the
      namespace from being deleted before its ledger's first expiry. */
  lemma TakenDownEarly(cfg: Config, g: Global, x: string, ns: string, spec: Spec, id: nat, d: Time)
    requires Initial(g) && !cfg.helm && d > 0 && Key(HTTPRoute, spec.gateway.namespace, RouteName(x)) !in g.w.objs
    ensures exists es :: var h := Run(cfg, g, es);
      LocalOf(h, x).pc == DelNs(Expiring) && LocalOf(h, x).found.None? && x in h.ledgers && h.ledgers[x].first > h.w.now
  {
    hide Run, NsName, RouteName, Unstored;
    var es := RunToUnstored(cfg, g, x, ns, spec);
    EarlyTakedown(cfg, Run(cfg, g, es), x, id, d);
    RunConcat(cfg, g, es, [Work(x, NoFault), ExtendRead(id, x, d), ExtendWrite(id, NoFault), Work(x, NoFault), Work(x, NoFault)]);
  }
}

/** Routes always have a live namespace and a grant behind them. */
module Backing {
  import opened Model
  import opened Store
  import opened Machine
  import opened Progress
  import opened Teardown
  import opened Calls
  import opened Protocol
  import opened Scope
  import opened Runs
  import opened Extensions
  import opened Orphans

  function AppRoute(x: string, ns: string): Key { Key(HTTPRoute, ns, RouteName(x)) }
  function Grant(x: string): Key { Key(ReferenceGrant, NsName(x), GrantName(x)) }

  /** A route of x, wherever it is: the environment is live, the route lies where the resource says,
      and a route from another namespace has its ReferenceGrant. */
  ghost predicate RoutesBacked(w: World, x: string) {
    forall ns :: AppRoute(x, ns) in w.objs ==>
      && Live(w, NsName(x))
      && x in w.envs && w.envs[x].spec.gateway.namespace == ns
      && (ns != NsName(x) ==> Grant(x) in w.objs && w.objs[Grant(x)].body == GrantFrom(ns))
  }

  ghost predicate NoRoute(w: World, x: string) {
    forall ns :: AppRoute(x, ns) !in w.objs
  }

  /** The stage's object is stored, and the mutation of this pass would not change it. */
  predicate InPlace(cfg: Config, x: string, objs: map<Key, Obj>, spec: Spec, service: string, st: Stage) {
    var k := StageKey(x, spec, NsName(x), st);
    k in objs && StageObj(cfg, x, spec, NsName(x), service, st, Some(objs[k])) == objs[k]
  }

  /** What lies behind the worker is in place; the app route is left out of account unless `route`. */
  ghost predicate Placed(cfg: Config, x: string, objs: map<Key, Obj>, releases: set<ReleaseKey>, l: Local, route: bool) {
    && (forall st :: Needed(x, l.env.spec, st) && Pos(st) <= Passed(l) && (st.AppStage? ==> route) ==>
          InPlace(cfg, x, objs, l.env.spec, l.service, st))
    && (forall c :: c in Claimed(l) ==> Release(x, NsName(x), c) in releases)
  }

  /** The events of a quiet run. Nobody else writes x's objects; its gateway namespace is not edited; no
      create path starts in a terminating namespace; clean-up of the route succeeds. */
  predicate Quiet(g: Global, e: Event, x: string) {
    var l := LocalOf(g, x);
    match e
    case Meddle(k, _) => !Owned(x, k)
    case EditEnv(y, spec, _) => y == x && x in g.w.envs ==> spec.gateway.namespace == g.w.envs[x].spec.gateway.namespace
    case Work(y, f) =>
      y == x ==>
        && (l.pc.GetNs? ==> !Terminating(g.w, NsName(x)))
        && (l.pc.GetRoute? ==> f.NoFault?)
        && (l.pc.DelRoute? ==> f.NoFault? || f.AnswerLost?)
    case _ => true
  }

  predicate Raised(pc: Pc) { Building(pc) || pc == Save(Activated) }

  /** The worker's copy names the same gateway namespace as the stored resource. */
  ghost predicate SameGateway(g: Global, x: string) {
    var l := LocalOf(g, x);
    && ((Holding(l.pc) && !l.pc.Refetch?) || (l.pc.AddFinalizer? && Current(g.w, x, l.env)) ==>
          x in g.w.envs && g.w.envs[x].spec.gateway.namespace == l.env.spec.gateway.namespace)
  }

  ghost predicate Backed(cfg: Config, g: Global, x: string) {
    var l := LocalOf(g, x);
    && RoutesBacked(g.w, x)
    && (Raised(l.pc) ==> Live(g.w, NsName(x)) && Placed(cfg, x, g.w.objs, g.w.releases, l, false))
    && (PastRoute(l.pc) ==> NoRoute(g.w, x))
    && (l.pc.PutNs? && l.pc.seenNs.Some? ==> !l.pc.seenNs.value.terminating)
  }

  // ---------------------------------------------------------------- objects of one environment

  lemma StageKeysDiffer(x: string, spec: Spec, st: Stage, st': Stage)
    requires st != st'
    ensures StageKey(x, spec, NsName(x), st) != StageKey(x, spec, NsName(x), st')
  {
    hide NsName;
    RouteNamesDisjoint(x, x);
  }

  /** Ensuring an object twice is ensuring it once. */
  lemma StageObjIdempotent(cfg: Config, x: string, spec: Spec, active: string, service: string, st: Stage, was: Option<Obj>)
    ensures var o := StageObj(cfg, x, spec, active, service, st, was);
      StageObj(cfg, x, spec, active, service, st, Some(o)) == o
  {
    hide NsName, Hostname, AdminHostname, OwnerLabels, AdminLabels;
    var o := StageObj(cfg, x, spec, active, service, st, was);
    assert o.labels + StageLabels(x, st) == o.labels;
  }

  lemma StageOwned(x: string, spec: Spec, st: Stage)
    ensures Owned(x, StageKey(x, spec, NsName(x), st))
    ensures StageKey(x, spec, NsName(x), st).namespace == (if st.AppStage? || st.AdminStage? then spec.gateway.namespace else NsName(x))
    ensures st.GrantStage? ==> StageKey(x, spec, NsName(x), st) == Grant(x)
    ensures !st.AppStage? ==> forall ns :: StageKey(x, spec, NsName(x), st) != AppRoute(x, ns)
    ensures st.AppStage? ==> StageKey(x, spec, NsName(x), st) == AppRoute(x, spec.gateway.namespace)
    ensures !st.GrantStage? ==> StageKey(x, spec, NsName(x), st) != Grant(x)
  {
    NsNamePrefixed(x);
    RouteNamesDisjoint(x, x);
    hide NsName, RouteName, AdminRouteName;
  }

  /** Only the route's content depends on the chosen service. */
  lemma ServiceOnlyInRoute(cfg: Config, x: string, objs: map<Key, Obj>, spec: Spec, service: string, service': string, st: Stage)
    requires st.AppStage? ==> service == service'
    ensures InPlace(cfg, x, objs, spec, service, st) == InPlace(cfg, x, objs, spec, service', st)
  {
    hide NsName, Hostname, AdminHostname, OwnerLabels, AdminLabels;
  }

  lemma PlacedFrame(cfg: Config, x: string, w: World, v: World, l: Local, route: bool)
    requires Placed(cfg, x, w.objs, w.releases, l, route)
    requires forall st :: Needed(x, l.env.spec, st) && (st.AppStage? ==> route && Pos(st) <= Passed(l)) ==>
               var k := StageKey(x, l.env.spec, NsName(x), st);
               k in w.objs ==> k in v.objs && v.objs[k] == w.objs[k]
    requires forall r :: r in w.releases && r.namespace == NsName(x) ==> r in v.releases
    ensures Placed(cfg, x, v.objs, v.releases, l, route)
  {
    hide StageObj, NsName, Needed, Passed, Claimed, StageKey;
  }

  // ---------------------------------------------------------------- one step of x's worker

  lemma ConfirmedInPlace(cfg: Config, x: string, w: World, l: Local, f: Fault, st: Stage)
    requires Raised(l.pc) && l.env.status.activeNamespace == NsName(x)
    requires StageConfirmed(cfg, x, l, Step(cfg, x, w, l, f).reply, st)
    ensures InPlace(cfg, x, Step(cfg, x, w, l, f).w.objs, l.env.spec, l.service, st)
  {
    hide Next, NsName, StageKey, StageObj;
    if l.pc.PutStage? { StageObjIdempotent(cfg, x, l.env.spec, NsName(x), l.service, st, l.pc.seen); }
  }

  lemma ConfirmedRelease(cfg: Config, x: string, w: World, l: Local, f: Fault, c: Component)
    requires Raised(l.pc) && l.env.status.activeNamespace == NsName(x)
    requires ReleaseConfirmed(l, Step(cfg, x, w, l, f).reply, c)
    ensures Release(x, NsName(x), c) in Step(cfg, x, w, l, f).w.releases
  {
    hide Next, NsName, Release, AcceptsObjects;
  }

  /** What a building step does to objects and releases. */
  lemma BuildStep(cfg: Config, x: string, w: World, l: Local, f: Fault)
    requires Building(l.pc) && l.env.status.activeNamespace == NsName(x)
    ensures var v := Step(cfg, x, w, l, f).w;
      && v == w.(objs := v.objs, releases := v.releases)
      && w.releases <= v.releases
      && (v.objs == w.objs || (l.pc.PutStage? && var k := StageKey(x, l.env.spec, NsName(x), l.pc.stage);
            v.objs == w.objs[k := StageObj(cfg, x, l.env.spec, NsName(x), l.service, l.pc.stage, l.pc.seen)]))
  {
    hide Next, NsName, StageKey, StageObj, AcceptsObjects, Release, LegacyRelease, WriteEnv, WriteNs;
    StepParts(cfg, x, w, l, f);
  }

  lemma PlacedAfter(cfg: Config, x: string, w: World, l: Local, f: Fault, route: bool)
    requires Built(cfg, x, l) && Building(l.pc) && Placed(cfg, x, w.objs, w.releases, l, route)
    ensures var s := Step(cfg, x, w, l, f); Raised(s.l.pc) ==> Placed(cfg, x, s.w.objs, s.w.releases, s.l, route)
  {
    hide Step, Built, NsName, StageKey, StageObj, InPlace, Release, Needed, StageConfirmed, ReleaseConfirmed, Passed, Claimed;
    var s := Step(cfg, x, w, l, f);
    BuiltActive(cfg, x, l);
    BuildStep(cfg, x, w, l, f);
    assert Advances(cfg, x, l, s.l, s.reply) by { StepParts(cfg, x, w, l, f); NextBuilding(cfg, x, l, s.reply, w.now); }
    if Raised(s.l.pc) {
      forall st | Needed(x, l.env.spec, st) && Pos(st) <= Passed(s.l) && (st.AppStage? ==> route)
        ensures InPlace(cfg, x, s.w.objs, l.env.spec, s.l.service, st)
      {
        if StageConfirmed(cfg, x, l, s.reply, st) {
          ConfirmedInPlace(cfg, x, w, l, f, st);
        } else {
          StillInPlace(cfg, x, w, l, f, st);
        }
        ServiceOnlyInRoute(cfg, x, s.w.objs, l.env.spec, l.service, s.l.service, st);
      }
      forall c | c in Claimed(s.l) ensures Release(x, NsName(x), c) in s.w.releases {
        if ReleaseConfirmed(l, s.reply, c) { ConfirmedRelease(cfg, x, w, l, f, c); }
      }
    }
  }

  lemma StillInPlace(cfg: Config, x: string, w: World, l: Local, f: Fault, st: Stage)
    requires Building(l.pc) && l.env.status.activeNamespace == NsName(x)
    requires InPlace(cfg, x, w.objs, l.env.spec, l.service, st)
    ensures InPlace(cfg, x, Step(cfg, x, w, l, f).w.objs, l.env.spec, l.service, st)
  {
    hide Step, NsName, StageKey, StageObj;
    BuildStep(cfg, x, w, l, f);
    if l.pc.PutStage? && l.pc.stage != st { StageKeysDiffer(x, l.env.spec, st, l.pc.stage); }
    if l.pc.PutStage? && l.pc.stage == st { StageObjIdempotent(cfg, x, l.env.spec, NsName(x), l.service, st, l.pc.seen); }
  }

  /** Writing an object of the create path keeps every route backed. */
  lemma RoutesBackedAfter(cfg: Config, x: string, w: World, l: Local, f: Fault)
    requires Built(cfg, x, l) && Building(l.pc) && Placed(cfg, x, w.objs, w.releases, l, false)
    requires RoutesBacked(w, x) && Live(w, NsName(x)) && x in w.envs && w.envs[x].spec.gateway.namespace == l.env.spec.gateway.namespace
    ensures RoutesBacked(Step(cfg, x, w, l, f).w, x)
  {
    hide Step, Built, NsName, StageKey, StageObj, Claimed;
    BuiltActive(cfg, x, l);
    BuildStep(cfg, x, w, l, f);
    if l.pc.PutStage? {
      StageOwned(x, l.env.spec, l.pc.stage);
      var gw := l.env.spec.gateway.namespace;
      if l.pc.stage.AppStage? && gw != NsName(x) {
        assert InPlace(cfg, x, w.objs, l.env.spec, l.service, GrantStage);
        StageOwned(x, l.env.spec, GrantStage);
        GrantContent(cfg, x, l.env.spec, l.service, Some(w.objs[Grant(x)]));
      }
      if l.pc.stage.GrantStage? { GrantContent(cfg, x, l.env.spec, l.service, l.pc.seen); }
    }
  }

  lemma GrantContent(cfg: Config, x: string, spec: Spec, service: string, was: Option<Obj>)
    ensures StageObj(cfg, x, spec, NsName(x), service, GrantStage, was).body == GrantFrom(spec.gateway.namespace)
  {
  }

  lemma BackedBuilding(cfg: Config, g: Global, x: string, f: Fault)
    requires Backed(cfg, g, x) && SameGateway(g, x) && Shaped(cfg, g, x) && Building(LocalOf(g, x).pc)
    ensures Backed(cfg, DoWork(cfg, g, x, f), x)
  {
    hide Step, Next, Built, NsName, Placed, RoutesBacked, Opened, Passed;
    var w, l := g.w, LocalOf(g, x);
    var s := Step(cfg, x, w, l, f);
    BuiltActive(cfg, x, l);
    PlacedAfter(cfg, x, w, l, f, false);
    RoutesBackedAfter(cfg, x, w, l, f);
    BuildStep(cfg, x, w, l, f);
    assert Kept(l, s.l) && (s.l.pc.Save? || Building(s.l.pc)) by {
      StepParts(cfg, x, w, l, f);
      NextBuilding(cfg, x, l, s.reply, w.now);
    }
  }

  /** Calls on the namespace itself. */
  lemma NsCalls(cfg: Config, x: string, w: World, l: Local, f: Fault)
    requires l.pc.GetNs? || l.pc.PutNs? || l.pc.DelNs?
    ensures var s := Step(cfg, x, w, l, f);
      && s.w == w.(namespaces := s.w.namespaces)
      && (!l.pc.DelNs? && Live(w, NsName(x)) ==> Live(s.w, NsName(x)))
      && (l.pc.PutNs? && (l.pc.seenNs.Some? ==> !l.pc.seenNs.value.terminating) && s.reply.Done? ==> Live(s.w, NsName(x)))
      && (l.pc.GetNs? && s.reply.ANamespace? ==> s.w == w && NsName(x) in w.namespaces && w.namespaces[NsName(x)] == s.reply.seenNs)
  {
    hide Next, NsName, Request, Exec, Live;
    NsRequests(cfg, x, l);
    if l.pc.GetNs? { NsReading(w, NsName(x), f); }
    else if l.pc.PutNs? { NsPutting(w, NsName(x), OwnerLabels(x), l.pc.seenNs, f); }
    else { NsDeleting(w, NsName(x), f); }
  }

  lemma NsRequests(cfg: Config, x: string, l: Local)
    ensures l.pc.GetNs? ==> Request(cfg, x, l) == GetNamespace(NsName(x))
    ensures l.pc.PutNs? ==> Request(cfg, x, l) == PutNsCall(NsName(x), OwnerLabels(x), l.pc.seenNs)
    ensures l.pc.DelNs? ==> Request(cfg, x, l) == DeleteNamespace(NsName(x))
  {
    hide NsName, OwnerLabels;
  }

  function PutNsCall(n: string, labels: map<string, string>, seen: Option<Namespace>): Call {
    if seen.None? then CreateNamespace(n, labels) else UpdateNamespace(n, seen.value, seen.value.labels + labels)
  }

  lemma NsReading(w: World, n: string, f: Fault)
    ensures var d := Exec(w, GetNamespace(n), f);
      d.w == w && (d.reply.ANamespace? ==> n in w.namespaces && w.namespaces[n] == d.reply.seenNs)
      && (d.reply.NotFound? ==> n !in w.namespaces) && (f.NoFault? ==> d.reply.NotFound? || d.reply.ANamespace?)
  {
    hide WriteEnv, WriteNs, WriteObj, WriteRelease;
  }

  lemma NsPutting(w: World, n: string, labels: map<string, string>, seen: Option<Namespace>, f: Fault)
    ensures var d := Exec(w, PutNsCall(n, labels, seen), f);
      && d.w == w.(namespaces := d.w.namespaces)
      && (forall m :: m != n ==> (m in d.w.namespaces <==> m in w.namespaces) && (m in w.namespaces ==> d.w.namespaces[m] == w.namespaces[m]))
      && (Terminating(d.w, n) <==> Terminating(w, n)) && (Live(w, n) ==> Live(d.w, n))
      && (d.reply.Done? ==> n in d.w.namespaces && d.w.namespaces[n].labels + labels == d.w.namespaces[n].labels
                            && ((seen.Some? ==> !seen.value.terminating) ==> Live(d.w, n)))
      && (f.NoFault? && seen == (if n in w.namespaces then Some(w.namespaces[n]) else None) ==> d.reply.Done?)
  {
    hide WriteEnv, WriteObj, WriteRelease, Read;
    if seen.Some? { assert seen.value.labels + labels + labels == seen.value.labels + labels; }
  }

  lemma NsDeleting(w: World, n: string, f: Fault)
    ensures var d := Exec(w, DeleteNamespace(n), f); d.w == w.(namespaces := d.w.namespaces)
  {
    hide WriteEnv, WriteObj, WriteRelease, Read;
  }

  lemma FirstPlaced(cfg: Config, x: string, w: World, l: Local, now: Time, route: bool)
    ensures Placed(cfg, x, w.objs, w.releases, NsEnsured(x, l, now), route)
    ensures NsEnsured(x, l, now).env.spec == l.env.spec && NsEnsured(x, l, now).env.uid == l.env.uid
    ensures NsEnsured(x, l, now).pc == GetStage(SaStage)
    ensures FailStep(l, NamespaceStep).pc == Save(StepFailed) && FailStep(l, NamespaceStep).env.spec == l.env.spec
  {
    hide InPlace, Release;
  }

  lemma BackedNs(cfg: Config, g: Global, x: string, f: Fault)
    requires Backed(cfg, g, x) && (LocalOf(g, x).pc.GetNs? || LocalOf(g, x).pc.PutNs?)
    requires Quiet(g, Work(x, f), x)
    ensures Backed(cfg, DoWork(cfg, g, x, f), x)
  {
    hide Step, Next, NsName, Placed, Opened, NsEnsured, FailStep, RoutesBacked, Live;
    var w, l := g.w, LocalOf(g, x);
    var s := Step(cfg, x, w, l, f);
    NsCalls(cfg, x, w, l, f);
    RoutesKept(x, w, s.w);
    NsLeads(cfg, x, w, l, f);
    if l.pc.GetNs? && s.reply.ANamespace? { LiveSeen(w, x); }
  }

  lemma LiveSeen(w: World, x: string)
    requires !Terminating(w, NsName(x)) && NsName(x) in w.namespaces
    ensures Live(w, NsName(x))
  {
  }

  lemma RoutesKept(x: string, w: World, v: World)
    requires RoutesBacked(w, x) && v == w.(namespaces := v.namespaces) && (Live(w, NsName(x)) ==> Live(v, NsName(x)))
    ensures RoutesBacked(v, x)
  {
    hide NsName, Live, RouteName, GrantName;
  }

  /** From the namespace calls the pass comes to its first object, writes the namespace, or gives up. */
  lemma NsLeads(cfg: Config, x: string, w: World, l: Local, f: Fault)
    requires l.pc.GetNs? || l.pc.PutNs?
    ensures var s := Step(cfg, x, w, l, f);
      && (Raised(s.l.pc) ==> (l.pc.GetNs? && s.reply.ANamespace?) || (l.pc.PutNs? && s.reply.Done?))
      && (Raised(s.l.pc) ==> Placed(cfg, x, s.w.objs, s.w.releases, s.l, false))
      && !PastRoute(s.l.pc) && !Tearing(s.l.pc)
      && (s.l.pc.PutNs? ==> l.pc.GetNs? && (s.l.pc.seenNs.Some? ==> s.reply == ANamespace(s.l.pc.seenNs.value)))
  {
    hide Step, Next, NsName, Placed, NsEnsured, FailStep;
    var s := Step(cfg, x, w, l, f);
    StepParts(cfg, x, w, l, f);
    NextOpening(cfg, x, l, s.reply, w.now);
    FirstPlaced(cfg, x, s.w, l, w.now, false);
  }

  /** A teardown step only removes objects, and the route is gone before anything else goes. */
  lemma TearStep(cfg: Config, x: string, w: World, l: Local, f: Fault)
    requires Tearing(l.pc)
    ensures var v := Step(cfg, x, w, l, f).w;
      && v == w.(objs := v.objs, namespaces := v.namespaces, releases := v.releases)
      && (forall k :: k in v.objs ==> k in w.objs && v.objs[k] == w.objs[k])
      && (Grant(x) in w.objs ==> Grant(x) in v.objs)
      && (l.pc.DelNs? || v.namespaces == w.namespaces)
  {
    hide Next, NsName, AcceptsObjects, Release, LegacyRelease, WriteEnv, WriteNs, WriteRelease, RouteName, AdminRouteName, GrantName, Read;
    StepParts(cfg, x, w, l, f);
  }

  lemma RouteGone(cfg: Config, x: string, w: World, l: Local, f: Fault)
    requires (l.pc.GetRoute? && f.NoFault?) || (l.pc.DelRoute? && (f.NoFault? || f.AnswerLost?))
    ensures var s := Step(cfg, x, w, l, f);
      (l.pc.GetRoute? && s.reply.AnObj?) || AppRoute(x, l.env.spec.gateway.namespace) !in s.w.objs
  {
    hide Next, NsName, AcceptsObjects, WriteEnv, WriteNs, WriteRelease, RouteName, AdminRouteName, GrantName;
  }

  /** Taking objects away, but not the grant, and the namespace only once there is no route. */
  lemma TearRoutes(x: string, w: World, v: World)
    requires RoutesBacked(w, x) && v.envs == w.envs
    requires forall k :: k in v.objs ==> k in w.objs && v.objs[k] == w.objs[k]
    requires Grant(x) in w.objs ==> Grant(x) in v.objs
    requires v.namespaces == w.namespaces || NoRoute(w, x)
    ensures RoutesBacked(v, x) && (NoRoute(w, x) ==> NoRoute(v, x))
  {
    hide NsName, RouteName, GrantName;
  }

  lemma RouteTaken(x: string, w: World, v: World, ns: string)
    requires RoutesBacked(w, x) && v.envs == w.envs && x in w.envs && w.envs[x].spec.gateway.namespace == ns
    requires forall k :: k in v.objs ==> k in w.objs
    requires AppRoute(x, ns) !in v.objs
    ensures NoRoute(v, x)
  {
    hide NsName, RouteName, GrantName, Live;
  }

  lemma TearFacts(g: Global, x: string, f: Fault)
    requires SameGateway(g, x) && Tearing(LocalOf(g, x).pc) && Quiet(g, Work(x, f), x)
    ensures var l := LocalOf(g, x);
      && (l.pc.GetRoute? ==> f.NoFault?) && (l.pc.DelRoute? ==> f.NoFault? || f.AnswerLost?)
      && x in g.w.envs && g.w.envs[x].spec.gateway.namespace == l.env.spec.gateway.namespace
  {
  }

  lemma TearsOn(cfg: Config, x: string, w: World, l: Local, f: Fault)
    requires Tearing(l.pc)
    ensures var s := Step(cfg, x, w, l, f);
      && !Raised(s.l.pc) && !s.l.pc.PutNs?
      && (PastRoute(s.l.pc) ==> PastRoute(l.pc) || l.pc.DelRoute? || (l.pc.GetRoute? && !s.reply.AnObj?))
      && (l.pc.DelNs? ==> PastRoute(l.pc))
  {
    hide Step, Next, NsGoing;
    StepParts(cfg, x, w, l, f);
    NextTearing(cfg, x, l, Step(cfg, x, w, l, f).reply, w.now);
  }

  lemma BackedTearing(cfg: Config, g: Global, x: string, f: Fault)
    requires Backed(cfg, g, x) && SameGateway(g, x) && Tearing(LocalOf(g, x).pc)
    requires Quiet(g, Work(x, f), x)
    ensures Backed(cfg, DoWork(cfg, g, x, f), x)
  {
    hide Step, NsName, Placed, Opened, RoutesBacked, NoRoute, Live, Quiet, SameGateway, Raised, PastRoute, Tearing;
    var w, l := g.w, LocalOf(g, x);
    var s := Step(cfg, x, w, l, f);
    TearFacts(g, x, f);
    TearStep(cfg, x, w, l, f);
    TearsOn(cfg, x, w, l, f);
    TearRoutes(x, w, s.w);
    if PastRoute(s.l.pc) && !PastRoute(l.pc) {
      RouteGone(cfg, x, w, l, f);
      RouteTaken(x, w, s.w, l.env.spec.gateway.namespace);
    }
  }

  // ---------------------------------------------------------------- the copy's gateway namespace

  lemma NextSpec(cfg: Config, x: string, l: Local, r: Reply, now: Time)
    requires Building(l.pc) ==> Built(cfg, x, l)
    ensures var m := Next(cfg, x, l, r, now);
      && (m.pc.Idle? || m.env.spec == (if r.AnEnv? && ReadsEnv(l.pc) then r.env.spec else l.env.spec))
      && (m.pc.AddFinalizer? ==> r.AnEnv? && l.pc.Idle? && m.env.resourceVersion == r.env.resourceVersion && m.env.uid == r.env.uid)
  {
    hide Next, Built;
    if Building(l.pc) { NextBuilding(cfg, x, l, r, now); }
    else if Tearing(l.pc) { NextTearing(cfg, x, l, r, now); }
    else { NextOpening(cfg, x, l, r, now); }
  }

  lemma GatewayWrite(cfg: Config, g: Global, x: string, f: Fault)
    requires WritesEnv(LocalOf(g, x).pc)
    ensures SameGateway(DoWork(cfg, g, x, f), x)
  {
    hide Step, Next;
    var w, l := g.w, LocalOf(g, x);
    var s := Step(cfg, x, w, l, f);
    StepParts(cfg, x, w, l, f);
    NextOpening(cfg, x, l, s.reply, w.now);
  }

  lemma GatewayWork(cfg: Config, g: Global, x: string, f: Fault)
    requires SameGateway(g, x) && Safe(g, x) && Shaped(cfg, g, x)
    ensures SameGateway(DoWork(cfg, g, x, f), x)
  {
    hide Step, Next, NsName, Opened, Built, Live;
    var w, l := g.w, LocalOf(g, x);
    if WritesEnv(l.pc) {
      GatewayWrite(cfg, g, x, f);
    } else {
      var s := Step(cfg, x, w, l, f);
      StepParts(cfg, x, w, l, f);
      NextSpec(cfg, x, l, s.reply, w.now);
      NextHolds(cfg, x, l, s.reply, w.now);
      hide WritesNs, WritesObj, WritesRelease;
    }
  }

  lemma BackedWriting(cfg: Config, g: Global, x: string, f: Fault)
    requires Backed(cfg, g, x) && SameGateway(g, x) && Safe(g, x) && WritesEnv(LocalOf(g, x).pc)
    ensures Backed(cfg, DoWork(cfg, g, x, f), x)
  {
    hide Step, Next, NsName, Opened, Placed;
    var w, l := g.w, LocalOf(g, x);
    var s := Step(cfg, x, w, l, f);
    WriteOutcome(cfg, x, w, l, f);
    NextOpening(cfg, x, l, s.reply, w.now);
  }

  lemma BackedReading(cfg: Config, g: Global, x: string, f: Fault)
    requires Backed(cfg, g, x) && ReadsEnv(LocalOf(g, x).pc)
    ensures Backed(cfg, DoWork(cfg, g, x, f), x)
  {
    hide Step, Next, NsName, Opened, Placed;
    var w, l := g.w, LocalOf(g, x);
    var s := Step(cfg, x, w, l, f);
    StepParts(cfg, x, w, l, f);
    NextOpening(cfg, x, l, s.reply, w.now);
  }

  // ---------------------------------------------------------------- everybody else

  lemma NeededOwned(x: string, spec: Spec, w: World, y: string)
    requires x != y
    ensures forall st :: !Owned(y, StageKey(x, spec, NsName(x), st))
    ensures forall ns :: !Owned(y, AppRoute(x, ns))
    ensures !Owned(y, Grant(x))
    ensures forall r: ReleaseKey :: r.namespace == NsName(x) ==> !OwnedRelease(y, r)
  {
    hide StageKey, NsName, RouteName;
    forall st ensures !Owned(y, StageKey(x, spec, NsName(x), st)) {
      StageOwned(x, spec, st);
      OwnersDisjoint(x, y, StageKey(x, spec, NsName(x), st), ReleaseKey("", ""));
    }
    forall ns ensures !Owned(y, AppRoute(x, ns)) { OwnersDisjoint(x, y, AppRoute(x, ns), ReleaseKey("", "")); }
    OwnersDisjoint(x, y, Grant(x), ReleaseKey("", ""));
    forall r: ReleaseKey | r.namespace == NsName(x) ensures !OwnedRelease(y, r) { OwnersDisjoint(x, y, Grant(x), r); }
  }

  lemma BackedOther(cfg: Config, g: Global, y: string, f: Fault, x: string)
    requires x != y && Backed(cfg, g, x) && Shaped(cfg, g, y)
    ensures Backed(cfg, DoWork(cfg, g, y, f), x)
  {
    hide Step, NsName, Opened, ShapedLocal, OnlyTouches, Placed, RoutesBacked, NoRoute, Live;
    var l := LocalOf(g, x);
    var v := Step(cfg, y, g.w, LocalOf(g, y), f).w;
    WorkOnlyTouches(cfg, y, g.w, LocalOf(g, y), f);
    RoutesSpared(x, y, g.w, v);
    if Raised(l.pc) { PlaceSpared(cfg, x, y, g.w, v, l); }
  }

  lemma RoutesSpared(x: string, y: string, w: World, v: World)
    requires x != y && OnlyTouches(w, v, y)
    ensures RoutesBacked(w, x) ==> RoutesBacked(v, x)
    ensures NoRoute(w, x) ==> NoRoute(v, x)
    ensures Live(v, NsName(x)) == Live(w, NsName(x))
  {
    hide NsName, Owned, OwnedRelease, RouteName, GrantName;
    NsNameInjective(x, y);
    NeededOwned(x, NoEnv.spec, w, y);
  }

  lemma PlaceSpared(cfg: Config, x: string, y: string, w: World, v: World, l: Local)
    requires x != y && OnlyTouches(w, v, y) && Placed(cfg, x, w.objs, w.releases, l, false)
    ensures Placed(cfg, x, v.objs, v.releases, l, false)
  {
    hide NsName, StageKey, Owned, OwnedRelease, Needed, Placed;
    NeededOwned(x, l.env.spec, w, y);
    PlacedFrame(cfg, x, w, v, l, false);
  }

  lemma GatewayOutside(g: Global, h: Global, x: string)
    requires SameGateway(g, x) && Safe(g, x) && Accounted(g, x) && LocalOf(h, x) == LocalOf(g, x)
    requires Outside(g.w, h.w, x)
    requires x in h.w.envs ==> h.w.envs[x].spec.gateway.namespace == g.w.envs[x].spec.gateway.namespace
    ensures SameGateway(h, x)
  {
    hide NsName, Live;
  }

  /** Objects and releases may go, but not those of a live environment's namespace or a placed route. */
  ghost predicate Erodes(w: World, v: World, x: string, spec: Spec) {
    && v.envs == w.envs
    && (Live(w, NsName(x)) <==> Live(v, NsName(x)))
    && (forall k :: Owned(x, k) && k in v.objs ==> k in w.objs && v.objs[k] == w.objs[k])
    && (Live(w, NsName(x)) ==> forall k :: Owned(x, k) && k in w.objs && !k.kind.HTTPRoute? ==> k in v.objs)
    && (Live(w, NsName(x)) ==> forall r :: r in w.releases && r.namespace == NsName(x) ==> r in v.releases)
  }

  lemma BackedEroded(cfg: Config, g: Global, h: Global, x: string)
    requires Backed(cfg, g, x) && h == g.(w := h.w)
    requires Erodes(g.w, h.w, x, LocalOf(g, x).env.spec)
    ensures Backed(cfg, h, x)
  {
    hide NsName, StageKey, Needed, Live, RouteName, GrantName;
    var l := LocalOf(g, x);
    assert Owned(x, Grant(x)) && forall ns :: Owned(x, AppRoute(x, ns)) by { RouteOwned(x); }
    if Raised(l.pc) {
      forall st ensures var k := StageKey(x, l.env.spec, NsName(x), st);
        Owned(x, k) && (!st.AppStage? && Needed(x, l.env.spec, st) ==> !k.kind.HTTPRoute?) && (st.AppStage? ==> k == AppRoute(x, l.env.spec.gateway.namespace))
      {
        StageOwned(x, l.env.spec, st);
        StageKinds(x, l.env.spec, st);
      }
      PlacedFrame(cfg, x, g.w, h.w, l, false);
    }
    hide Placed;
  }

  lemma RouteOwned(x: string)
    ensures Owned(x, Grant(x)) && forall ns :: Owned(x, AppRoute(x, ns))
  {
  }

  lemma StageKinds(x: string, spec: Spec, st: Stage)
    ensures !st.AppStage? && Needed(x, spec, st) ==> !StageKey(x, spec, NsName(x), st).kind.HTTPRoute?
  {
  }

  lemma ErodesFinish(g: Global, n: string, x: string)
    requires Quiet(g, FinishNs(n), x)
    requires forall ns :: AppRoute(x, ns) in g.w.objs ==> Live(g.w, NsName(x))
    ensures Erodes(g.w, DoFinishNs(g.w, n), x, LocalOf(g, x).env.spec)
  {
    hide NsName, RouteName, AdminRouteName, GrantName;
  }

  lemma ErodesQuiet(g: Global, e: Event, x: string)
    requires Quiet(g, e, x)
    requires e.ReapObj? || e.OtherNs? || e.DropOtherNs? || e.Relabel? || e.Meddle? || e.Workload? || e.Publish? || e.Tick?
    requires forall ns :: AppRoute(x, ns) in g.w.objs ==> Live(g.w, NsName(x))
    ensures Erodes(g.w, Ambient(g.w, e), x, LocalOf(g, x).env.spec)
  {
    NsNamePrefixed(x);
    RouteOwned(x);
    hide NsName, RouteName, AdminRouteName, GrantName, PutEnv, DoFinishNs, DoEdit, DoDelete;
  }

  lemma BackedAmbient(cfg: Config, g: Global, e: Event, x: string)
    requires Backed(cfg, g, x) && SameGateway(g, x) && Safe(g, x) && Accounted(g, x)
    requires Quiet(g, e, x)
    requires !e.Work? && !e.ExtendRead? && !e.ExtendWrite? && !e.CreateEnv?
    ensures var h := g.(w := Ambient(g.w, e)); Backed(cfg, h, x) && SameGateway(h, x)
  {
    hide Placed, NsName, PutEnv, DoFinishNs, DoEdit, DoDelete;
    var h := g.(w := Ambient(g.w, e));
    AmbientEnv(g.w, e, x);
    if e.DeleteEnv? || e.EditEnv? {
      EnvEvent(g.w, e, x);
      BackedEnv(cfg, g, e, x);
    } else {
      if e.FinishNs? { ErodesFinish(g, e.ns, x); } else { ErodesQuiet(g, e, x); }
      BackedEroded(cfg, g, h, x);
    }
    hide Ambient, Backed;
    GatewayOutside(g, h, x);
  }

  lemma EnvEvent(w: World, e: Event, x: string)
    requires e.DeleteEnv? || e.EditEnv?
    ensures var v := Ambient(w, e);
      && v == w.(envs := v.envs, nextVersion := v.nextVersion)
      && (x in v.envs && x in w.envs ==> v.envs[x].spec == w.envs[x].spec || (e.EditEnv? && e.env == x && v.envs[x].spec == e.spec))
  {
    hide PutEnv;
    match e
    case DeleteEnv(y) => if y in w.envs { PutEnvFrame(w, y, w.envs[y].(deleting := true)); PutEnvParts(w, y, w.envs[y].(deleting := true)); }
    case EditEnv(y, spec, fs) => if y in w.envs { EditParts(w, y, spec, fs); PutEnvFrame(w, y, Edited(w.envs[y], spec, fs)); PutEnvParts(w, y, Edited(w.envs[y], spec, fs)); }
  }

  lemma BackedEnv(cfg: Config, g: Global, e: Event, x: string)
    requires Backed(cfg, g, x) && Safe(g, x)
    requires Quiet(g, e, x) && (e.DeleteEnv? || e.EditEnv?)
    ensures Backed(cfg, g.(w := Ambient(g.w, e)), x)
  {
    hide Ambient, NsName, Placed;
    AmbientEnv(g.w, e, x);
    EnvEvent(g.w, e, x);
  }

  lemma BackedExtend(cfg: Config, g: Global, id: nat, f: Fault, x: string)
    requires Backed(cfg, g, x) && SameGateway(g, x) && Safe(g, x) && Accounted(g, x)
    ensures var h := DoExtendWrite(g, id, f); Backed(cfg, h, x) && SameGateway(h, x)
  {
    hide NsName, Placed, PutEnv, Opened, Credit;
    if id in g.extensions {
      var u := g.extensions[id];
      ExtendWrites(g, id, f);
      if Accepted(g.w, u, f) {
        PutEnvParts(g.w, u.env, g.w.envs[u.env].(status := Extended(u).status));
        PutEnvFrame(g.w, u.env, g.w.envs[u.env].(status := Extended(u).status));
      }
      hide DoExtendWrite;
    }
  }

  lemma BackedWork(cfg: Config, g: Global, x: string, f: Fault)
    requires Backed(cfg, g, x) && SameGateway(g, x) && Safe(g, x) && Shaped(cfg, g, x)
    requires Quiet(g, Work(x, f), x)
    ensures var h := DoWork(cfg, g, x, f); Backed(cfg, h, x) && SameGateway(h, x)
  {
    hide Backed, SameGateway, DoWork, Safe, Shaped, Quiet;
    GatewayWork(cfg, g, x, f);
    var pc := LocalOf(g, x).pc;
    if Building(pc) { BackedBuilding(cfg, g, x, f); }
    else if pc.GetNs? || pc.PutNs? { BackedNs(cfg, g, x, f); }
    else if Tearing(pc) { BackedTearing(cfg, g, x, f); }
    else if WritesEnv(pc) { BackedWriting(cfg, g, x, f); }
    else { BackedReading(cfg, g, x, f); }
  }

  lemma BackedApply(cfg: Config, g: Global, e: Event, x: string)
    requires Backed(cfg, g, x) && SameGateway(g, x) && Safe(g, x) && Accounted(g, x) && Shaped(cfg, g, x)
    requires e.Work? ==> Shaped(cfg, g, e.x)
    requires Quiet(g, e, x)
    ensures var h := Apply(cfg, g, e); Backed(cfg, h, x) && SameGateway(h, x)
  {
    hide Ambient, DoExtendWrite, DoWork, Placed, NsName, Shaped, Quiet, PutEnv;
    match e
    case Work(y, f) =>
      if y == x { BackedWork(cfg, g, x, f); }
      else { BackedOther(cfg, g, y, f, x); GatewayOther(cfg, g, y, f, x); }
    case ExtendWrite(id, f) => BackedExtend(cfg, g, id, f, x);
    case ExtendRead(_, _, _) =>
    case CreateEnv(_, _, _, _) =>
    case _ => BackedAmbient(cfg, g, e, x);
  }

  lemma GatewayOther(cfg: Config, g: Global, y: string, f: Fault, x: string)
    requires x != y && SameGateway(g, x)
    ensures SameGateway(DoWork(cfg, g, y, f), x)
  {
    hide Step;
    StepStatus(cfg, y, g.w, LocalOf(g, y), f);
  }

  ghost predicate QuietRun(cfg: Config, g: Global, es: seq<Event>, x: string) {
    es == [] || (QuietRun(cfg, g, es[..|es| - 1], x) && Quiet(Run(cfg, g, es[..|es| - 1]), es[|es| - 1], x))
  }

  lemma {:induction false} BackedRun(cfg: Config, g: Global, es: seq<Event>, x: string)
    requires Initial(g) && NoRoute(g.w, x) && QuietRun(cfg, g, es, x)
    ensures Backed(cfg, Run(cfg, g, es), x) && SameGateway(Run(cfg, g, es), x)
  {
    hide Apply, Quiet, Backed, SameGateway, Shaped, Safe, Accounted;
    if es == [] {
      BackedInitially(cfg, g, x);
    } else {
      var before, e := es[..|es| - 1], es[|es| - 1];
      BackedRun(cfg, g, before, x);
      ShapedRun(cfg, g, before, x);
      if e.Work? { ShapedRun(cfg, g, before, e.x); }
      SafeRun(cfg, g, before, x);
      AccountedRun(cfg, g, before, x);
      BackedApply(cfg, Run(cfg, g, before), e, x);
    }
  }

  lemma BackedInitially(cfg: Config, g: Global, x: string)
    requires Initial(g) && NoRoute(g.w, x)
    ensures Backed(cfg, g, x) && SameGateway(g, x)
  {
    hide NsName, Placed;
  }

  // ---------------------------------------------------------------- the results

  /** At every micro-step of every quiet run, while building up and while tearing down. */
  lemma {:induction false} RoutesAlwaysBacked(cfg: Config, g: Global, es: seq<Event>, x: string)
    requires Initial(g) && NoRoute(g.w, x) && QuietRun(cfg, g, es, x)
    ensures RoutesBacked(Run(cfg, g, es).w, x)
  {
    hide Run, RoutesBacked, QuietRun, NoRoute;
    BackedRun(cfg, g, es, x);
  }

  /** Whenever a route is about to be written, in any run at all: its backend is the service named in the
      spec or, in discovery mode, a service of the listing that was eligible, and the port is the one looked for. */
  lemma {:induction false} RouteNamesItsBackend(cfg: Config, g: Global, es: seq<Event>, x: string)
    requires Initial(g)
    requires var pc := LocalOf(Run(cfg, g, es), x).pc; pc.PutStage? && pc.stage == AppStage
    ensures var l := LocalOf(Run(cfg, g, es), x); var spec := l.env.spec;
      && StageObj(cfg, x, spec, l.env.status.activeNamespace, l.service, AppStage, l.pc.seen).body
           == RouteTo(spec.gateway.name, spec.gateway.namespace, spec.gateway.domainPrefix + ".preview.example.com", l.service, "env-" + x,
                      if spec.servicePort.Some? then spec.servicePort.value else spec.gateway.targetPort)
      && (spec.servicePort.None? ==> l.service == spec.gateway.serviceName)
      && (spec.servicePort.Some? ==> exists s :: s in l.listed && s.name == l.service && Discovery.Fits(s, spec.servicePort.value))
  {
    hide Run, Discovery.Fits, Discovery.Eligible;
    ShapedRun(cfg, g, es, x);
    var l := LocalOf(Run(cfg, g, es), x);
    assert "." + "preview.example.com" == ".preview.example.com";
    assert Hostname(l.env.spec) == l.env.spec.gateway.domainPrefix + ".preview.example.com";
    if l.env.spec.servicePort.Some? {
      var s :| s in l.listed && s.name == l.service && Discovery.Eligible(s, l.env.spec.servicePort.value);
      Discovery.EligibleMeans(s, l.env.spec.servicePort.value);
    }
  }

  /** The listing in a worker's history is what the store listed at that moment. */
  lemma ListedFromStore(cfg: Config, x: string, w: World, l: Local, f: Fault)
    requires Built(cfg, x, l) && l.pc.List?
    ensures var s := Step(cfg, x, w, l, f);
      !GaveUp(s.l) ==> f.NoFault? && s.l.listed == ServicesIn(w, NsName(x))
  {
    hide NsName, Discovery.Choose, Discovery.Matching, Discovery.PrimaryName, FailStep;
  }

  lemma RouteSkipped(cfg: Config, g: Global, x: string)
    requires LocalOf(g, x).pc == GetRoute(Expiring) && !cfg.helm
    ensures var h := DoWork(cfg, g, x, NeverSent);
      h == g.(locals := h.locals, ledgers := h.ledgers) && LocalOf(h, x) == LocalOf(g, x).(pc := FindNs(Expiring))
  {
    hide NsName, RouteName;
  }

  lemma NsFound(cfg: Config, g: Global, x: string)
    requires LocalOf(g, x).pc == FindNs(Expiring) && Live(g.w, NsName(x))
    ensures var h := DoWork(cfg, g, x, NoFault);
      h == g.(locals := h.locals) && LocalOf(h, x) == LocalOf(g, x).(pc := DelNs(Expiring))
  {
    hide NsName, RouteName;
  }

  lemma NsDeleted(cfg: Config, g: Global, x: string)
    requires LocalOf(g, x).pc == DelNs(Expiring) && Live(g.w, NsName(x))
    ensures var h := DoWork(cfg, g, x, NoFault); h.w.objs == g.w.objs && !Live(h.w, NsName(x))
  {
    hide NsName, RouteName;
  }

  /** Why quiet runs need the route calls to succeed: errors of route clean-up are passed over, so one
      failing look-up during expiry leaves the route behind while the namespace goes. */
  lemma SwallowedFaultStrands(cfg: Config, g: Global, x: string, ns: string)
    requires LocalOf(g, x).pc == GetRoute(Expiring) && !cfg.helm && Live(g.w, NsName(x)) && AppRoute(x, ns) in g.w.objs
    ensures !RoutesBacked(Run(cfg, g, [Work(x, NeverSent), Work(x, NoFault), Work(x, NoFault)]).w, x)
  {
    hide Run, DoWork, NsName, RouteName, Live;
    var e0, e1 := Work(x, NeverSent), Work(x, NoFault);
    assert [] + [e0] == [e0] && [e0] + [e1] == [e0, e1] && [e0, e1] + [e1] == [e0, e1, e1];
    assert Run(cfg, g, []) == g by { RunNothing(cfg, g); }
    RunSnoc(cfg, g, [], e0);
    RouteSkipped(cfg, g, x);
    RunSnoc(cfg, g, [e0], e1);
    LiveKept(g, Run(cfg, g, [e0]), x);
    NsFound(cfg, Run(cfg, g, [e0]), x);
    RunSnoc(cfg, g, [e0, e1], e1);
    LiveKept(g, Run(cfg, g, [e0, e1]), x);
    NsDeleted(cfg, Run(cfg, g, [e0, e1]), x);
  }

  lemma LiveKept(g: Global, h: Global, x: string)
    requires h.w == g.w
    ensures Live(h.w, NsName(x)) == Live(g.w, NsName(x))
  {
  }
}

/** What the operator controls depends on what is asked for, not on what was there before. */
module History {
  import opened Model
  import opened Discovery
  import opened Store
  import opened Machine
  import opened Progress
  import opened Teardown
  import opened Calls
  import opened Protocol
  import opened Runs
  import opened Pass
  import opened Backing
  import opened Calm
  import opened Faultless
  import opened Converge

  /** Whether the operator rewrites the whole content of a stage's object, or only its labels. */
  predicate Governs(st: Stage) { !st.SaStage? && !st.PolicyStage? }

  /** The fields of an object that the operator controls. */
  datatype Enforced = Enforced(labels: map<string, string>, body: Option<Body>)

  function EnforcedOf(x: string, st: Stage, o: Obj): Enforced {
    Enforced(map k | k in StageLabels(x, st) && k in o.labels :: o.labels[k], if Governs(st) then Some(o.body) else None)
  }

  /** What they must be: no word of prior contents. */
  function Prescribed(cfg: Config, x: string, spec: Spec, service: string, st: Stage): Enforced {
    Enforced(StageLabels(x, st), if Governs(st) then Some(StageObj(cfg, x, spec, NsName(x), service, st, None).body) else None)
  }

  lemma PlacePrescribes(cfg: Config, x: string, objs: map<Key, Obj>, spec: Spec, service: string, st: Stage)
    requires InPlace(cfg, x, objs, spec, service, st)
    ensures EnforcedOf(x, st, objs[StageKey(x, spec, NsName(x), st)]) == Prescribed(cfg, x, spec, service, st)
  {
    hide NsName, Hostname, AdminHostname, OwnerLabels, AdminLabels, StageKey;
    var o := objs[StageKey(x, spec, NsName(x), st)];
    assert o.labels + StageLabels(x, st) == o.labels;
    assert (map k | k in StageLabels(x, st) && k in o.labels :: o.labels[k]) == StageLabels(x, st);
  }

  /** Everything asked for is in place: nothing is left to do for a pass that finds it. */
  ghost predicate Settled(cfg: Config, x: string, w: World) {
    && x in w.envs && FINALIZER in w.envs[x].finalizers && Labelled(x, w)
    && var env := w.envs[x];
    && (forall st :: Asked(cfg, x, w, st) ==> InPlace(cfg, x, w.objs, env.spec, BackendName(x, w), st))
    && (cfg.helm ==> forall c :: c in Resolve(env.spec, TemplateAt(w, env)) ==> Release(x, NsName(x), c) in w.releases)
  }

  /** At the last call a clean pass has put all in place. */
  lemma CleanSettles(cfg: Config, x: string, w: World, l: Local)
    requires Clean(cfg, x, w, l) && l.pc.Save?
    ensures Settled(cfg, x, w) && (l.pc == Save(Activated) <==> Served(x, w)) && (l.pc == Save(Waiting) <==> !Served(x, w))
  {
    hide NsName, InPlace, Release, TemplateAt, ServicesAt, Backend, Resolve, Labelled;
    TrackFresh(cfg, x, w, l);
    hide OnTrack;
    if l.pc == Save(Activated) {
      assert Claimed(l) == l.resolved && AtRoute(l);
      forall st | Asked(cfg, x, w, st) ensures InPlace(cfg, x, w.objs, l.env.spec, l.service, st) {
        if st.AdminStage? { assert AdminInPlace(cfg, x, w.objs, l); } else { assert Needed(x, l.env.spec, st) && Pos(st) <= Passed(l); }
      }
    }
  }

  lemma SettledStays(cfg: Config, x: string, w: World, v: World)
    requires Settled(cfg, x, w) && Kin(x, w, v) && v.objs == w.objs && v.namespaces == w.namespaces
    ensures Settled(cfg, x, v)
  {
    hide NsName, InPlace, Release, Backend, Resolve, Deadline, TemplateAt, ServicesAt, Wanted, OwnerLabels;
    KinBackend(x, w, v);
    forall st | Asked(cfg, x, v, st) ensures InPlace(cfg, x, v.objs, v.envs[x].spec, BackendName(x, v), st) {
      assert Asked(cfg, x, w, st);
    }
  }

  /** The releases deployed are those the resource reports. */
  predicate Reported(cfg: Config, x: string, w: World) {
    && x in w.envs && w.envs[x].status.activeNamespace == NsName(x)
    && var cs := Resolve(w.envs[x].spec, TemplateAt(w, w.envs[x]));
    (cfg.helm && cs != [] ==> Reports(x, w.envs[x].status.components, cs))
  }

  lemma CleanReports(cfg: Config, x: string, w: World, l: Local)
    requires Clean(cfg, x, w, l) && l.pc == Save(Activated)
    ensures l.env.status.activeNamespace == NsName(x)
    ensures var cs := Resolve(l.env.spec, TemplateAt(w, w.envs[x])); cfg.helm && cs != [] ==> Reports(x, l.env.status.components, cs)
  {
    hide NsName, Placed, AdminInPlace, Labelled, TemplateAt, ServicesAt, Backend, Resolve, Reports, Resolvable, ServiceChosen;
    TrackActive(cfg, x, w, l);
    hide OnTrack;
  }

  lemma RestrainedStays(cfg: Config, x: string, w: World, v: World, u: World)
    requires Restrained(cfg, x, w, v) && u.objs == v.objs && u.namespaces == v.namespaces && u.releases == v.releases
    ensures Restrained(cfg, x, w, u)
  {
    hide Served, AskedReleases, NsName, OwnerLabels, StageKey, StageObj, Asked, BackendName;
  }

  /** A pass in which no call fails, from any fit cluster: everything asked for is in place, but for the
      routes if no service qualifies. Then the pass waits and every route is as it was; otherwise it has
      stored Active and the releases. Nothing is added or changed that is not asked for. */
  lemma CleanPassSettles(cfg: Config, x: string, g: Global, fates: seq<Fate>)
    requires Startable(cfg, x, g, fates) && Faults(OnePass(cfg, x, g, fates).rest) == Faults(fates)
    ensures var c := OnePass(cfg, x, g, fates);
      && Startable(cfg, x, c.g, c.rest) && Kin(x, g.w, c.g.w) && Settled(cfg, x, c.g.w)
      && (Served(x, g.w) ==> Activates(x, c) && Reported(cfg, x, c.g.w))
      && (!Served(x, g.w) ==> c.g.w.envs[x].status.message == WaitingMessage && RoutesSame(g.w, c.g.w))
      && Restrained(cfg, x, g.w, c.g.w)
  {
    hide OnePass, Fit, Undisturbed, Elapsed, Backend, Settled, Kin, Clean, TemplateAt, ServicesAt, Activates, Resolve, Served, Reports, NsName, ObjsGrown, NsGrown, RoutesSame, AskedReleases;
    var c := OnePass(cfg, x, g, fates);
    CalmPass(cfg, x, g, fates);
    var v, l := CleanPass(cfg, x, g, fates);
    FinaleStores(cfg, x, v, l, c);
    KinBackend(x, g.w, v);
    KinBackend(x, v, c.g.w);
    CleanSettles(cfg, x, v, l);
    SettledStays(cfg, x, v, c.g.w);
    RestrainedStays(cfg, x, g.w, v, c.g.w);
    if l.pc == Save(Activated) { CleanReports(cfg, x, v, l); }
  }

  /** A gateway that stands and values that parse are all that a new environment needs. */
  lemma NewStartable(cfg: Config, g: Global, x: string, ns: string, spec: Spec)
    requires Initial(g) && Live(g.w, spec.gateway.namespace)
    requires cfg.helm ==> forall t :: Parses(Resolve(spec, t))
    ensures var h := DoCreate(g, x, ns, spec, {});
      Startable(cfg, x, h, []) && h.w == g.w.(envs := h.w.envs, nextVersion := h.w.nextVersion) && h.w.envs[x].spec == spec
  {
    hide Parses, Resolve, TemplateAt, Wanted, Release;
    var h := DoCreate(g, x, ns, spec, {});
    NsNamePrefixed(x);
    forall st ensures Open(h.w, x, StageKey(x, spec, NsName(x), st).namespace) {
      assert NsName(x) != "";
      assert StageKey(x, spec, NsName(x), st).namespace in {NsName(x), spec.gateway.namespace};
    }
  }

  lemma NamedServed(x: string, w: World)
    requires x in w.envs && w.envs[x].spec.servicePort.None?
    ensures Served(x, w)
  {
  }

  // ---------------------------------------------------------------- two histories

  lemma SettledPrescribed(cfg: Config, x: string, w: World, st: Stage)
    requires Settled(cfg, x, w) && Asked(cfg, x, w, st)
    ensures var spec := w.envs[x].spec; var k := StageKey(x, spec, NsName(x), st);
      k in w.objs && EnforcedOf(x, st, w.objs[k]) == Prescribed(cfg, x, spec, BackendName(x, w), st)
  {
    hide NsName, EnforcedOf, Prescribed, TemplateAt, BackendName, StageKey, StageObj, Labelled, Served;
    PlacePrescribes(cfg, x, w.objs, w.envs[x].spec, BackendName(x, w), st);
  }

  /** The labels of the environment's namespace that the operator controls. */
  function NsEnforced(x: string, w: World): map<string, string> {
    if NsName(x) !in w.namespaces then map[]
    else map k | k in OwnerLabels(x) && k in w.namespaces[NsName(x)].labels :: w.namespaces[NsName(x)].labels[k]
  }

  lemma LabelledEnforced(x: string, w: World)
    requires Labelled(x, w)
    ensures NsEnforced(x, w) == OwnerLabels(x)
  {
    hide NsName, OwnerLabels;
    var labels := w.namespaces[NsName(x)].labels;
    assert labels + OwnerLabels(x) == labels;
  }

  /** Two clusters with any objects, namespaces, releases and any history of x's status, where x has the
      same specification, the services listed and the template are the same: a pass without a fault
      leaves the same fields, the operator's, in every object it is responsible for and in the namespace. */
  lemma HistoryIndependence(cfg: Config, x: string, g: Global, fates: seq<Fate>, g': Global, fates': seq<Fate>, st: Stage)
    requires Startable(cfg, x, g, fates) && Faults(fates) == 0
    requires Startable(cfg, x, g', fates') && Faults(fates') == 0
    requires g.w.envs[x].spec == g'.w.envs[x].spec
    requires ServicesAt(g.w, x) == ServicesAt(g'.w, x) && TemplateAt(g.w, g.w.envs[x]) == TemplateAt(g'.w, g'.w.envs[x])
    requires Asked(cfg, x, g.w, st)
    ensures var k := StageKey(x, g.w.envs[x].spec, NsName(x), st);
      var v, v' := OnePass(cfg, x, g, fates).g.w, OnePass(cfg, x, g', fates').g.w;
      && k in v.objs && k in v'.objs && EnforcedOf(x, st, v.objs[k]) == EnforcedOf(x, st, v'.objs[k])
      && NsEnforced(x, v) == NsEnforced(x, v') == OwnerLabels(x)
  {
    hide OnePass, Fit, Undisturbed, Elapsed, Backend, Settled, Kin, TemplateAt, ServicesAt, Activates, EnforcedOf, Prescribed, StageKey, NsName, Wanted, NsEnforced, OwnerLabels;
    var c, c' := OnePass(cfg, x, g, fates), OnePass(cfg, x, g', fates');
    CalmPass(cfg, x, g, fates);
    CalmPass(cfg, x, g', fates');
    CleanPassSettles(cfg, x, g, fates);
    CleanPassSettles(cfg, x, g', fates');
    KinBackend(x, g.w, c.g.w);
    KinBackend(x, g'.w, c'.g.w);
    SettledPrescribed(cfg, x, c.g.w, st);
    SettledPrescribed(cfg, x, c'.g.w, st);
    SettledLabelled(cfg, x, c.g.w);
    SettledLabelled(cfg, x, c'.g.w);
    LabelledEnforced(x, c.g.w);
    LabelledEnforced(x, c'.g.w);
  }

  lemma SettledLabelled(cfg: Config, x: string, w: World)
    requires Settled(cfg, x, w)
    ensures Labelled(x, w)
  {
  }

  /** The cluster with this object where the route of the given stage belongs. */
  function WithRoute(g: Global, x: string, st: Stage, o: Obj): Global
    requires x in g.w.envs
  {
    g.(w := g.w.(objs := g.w.objs[StageKey(x, g.w.envs[x].spec, NsName(x), st) := o]))
  }

  lemma RouteStartable(cfg: Config, x: string, g: Global, fates: seq<Fate>, st: Stage, o: Obj)
    requires Startable(cfg, x, g, fates)
    ensures var h := WithRoute(g, x, st, o);
      Startable(cfg, x, h, fates) && h.w == g.w.(objs := h.w.objs) && TemplateAt(h.w, h.w.envs[x]) == TemplateAt(g.w, g.w.envs[x]) && (Served(x, h.w) <==> Served(x, g.w))
  {
    hide NsName, Wanted, Resolve, StageKey, Backend, Parses, Undisturbed, Elapsed, Deadline, Release;
    SameTemplates(g.w, WithRoute(g, x, st, o).w, g.w.envs[x]);
    hide TemplateAt;
  }

  /** The operator's fields of a route after a pass without a fault that found this object in its place. */
  ghost function RouteAfter(cfg: Config, x: string, g: Global, fates: seq<Fate>, st: Stage, o: Obj): Option<Enforced>
    requires LocalOf(g, x).pc.Idle? && x in g.w.envs
  {
    var objs := OnePass(cfg, x, WithRoute(g, x, st, o), fates).g.w.objs;
    var k := StageKey(x, g.w.envs[x].spec, NsName(x), st);
    if k in objs then Some(EnforcedOf(x, st, objs[k])) else None
  }

  lemma RouteUntouched(cfg: Config, x: string, g: Global, fates: seq<Fate>, st: Stage, o: Obj)
    requires Startable(cfg, x, g, fates) && Faults(fates) == 0 && OnRoute(st) && !Served(x, g.w)
    ensures RouteAfter(cfg, x, g, fates, st, o) == Some(EnforcedOf(x, st, o))
  {
    hide OnePass, Fit, Undisturbed, Elapsed, Settled, Kin, Served, EnforcedOf, TemplateAt, Activates, NsName;
    var h := WithRoute(g, x, st, o);
    RouteStartable(cfg, x, g, fates, st, o);
    CalmPass(cfg, x, h, fates);
    CleanPassSettles(cfg, x, h, fates);
  }

  /** Of a route the same holds exactly when there is a service: what a pass without a fault leaves does not
      depend on what was in its place. Without one the pass leaves there whatever it found. */
  lemma RouteDeterminedExactly(cfg: Config, x: string, g: Global, fates: seq<Fate>, st: Stage)
    requires Startable(cfg, x, g, fates) && Faults(fates) == 0 && OnRoute(st) && Wanted(cfg, x, g.w.envs[x].spec, st)
    ensures Served(x, g.w) <==> forall o, o' :: RouteAfter(cfg, x, g, fates, st, o) == RouteAfter(cfg, x, g, fates, st, o')
  {
    hide OnePass, Fit, Undisturbed, Elapsed, Wanted, Served, TemplateAt, StageKey, NsName, EnforcedOf, RouteAfter;
    if Served(x, g.w) {
      forall o, o' ensures RouteAfter(cfg, x, g, fates, st, o) == RouteAfter(cfg, x, g, fates, st, o') {
        RouteStartable(cfg, x, g, fates, st, o);
        RouteStartable(cfg, x, g, fates, st, o');
        HistoryIndependence(cfg, x, WithRoute(g, x, st, o), fates, WithRoute(g, x, st, o'), fates, st);
        RouteRead(cfg, x, g, fates, st, o);
        RouteRead(cfg, x, g, fates, st, o');
      }
    } else {
      var o, o' := Obj(map[], Foreign(0)), Obj(map[], Foreign(1));
      RouteUntouched(cfg, x, g, fates, st, o);
      RouteUntouched(cfg, x, g, fates, st, o');
      assert EnforcedOf(x, st, o) != EnforcedOf(x, st, o') by { ForeignDiffer(x, st); }
    }
  }

  lemma RouteRead(cfg: Config, x: string, g: Global, fates: seq<Fate>, st: Stage, o: Obj)
    requires LocalOf(g, x).pc.Idle? && x in g.w.envs
    ensures var objs := OnePass(cfg, x, WithRoute(g, x, st, o), fates).g.w.objs; var k := StageKey(x, g.w.envs[x].spec, NsName(x), st);
      RouteAfter(cfg, x, g, fates, st, o) == if k in objs then Some(EnforcedOf(x, st, objs[k])) else None
  {
    hide OnePass, StageKey, NsName, EnforcedOf;
  }

  lemma ForeignDiffer(x: string, st: Stage)
    requires OnRoute(st)
    ensures EnforcedOf(x, st, Obj(map[], Foreign(0))) != EnforcedOf(x, st, Obj(map[], Foreign(1)))
  {
    assert EnforcedOf(x, st, Obj(map[], Foreign(0))).body == Some(Foreign(0));
    assert EnforcedOf(x, st, Obj(map[], Foreign(1))).body == Some(Foreign(1));
  }

  // ---------------------------------------------------------------- nothing left to do

  /** A pass that writes nothing but the status. */
  predicate Silent(cfg: Config, x: string, l: Local) {
    && !l.pc.AddFinalizer? && !l.pc.Refetch? && !l.pc.PutNs? && !l.pc.PutStage? && !l.pc.Deploy?
  }

  /** The object the pass asks for is there with the content it wants. */
  lemma ReadInPlace(cfg: Config, x: string, w: World, l: Local)
    requires Settled(cfg, x, w) && Clean(cfg, x, w, l) && l.pc.GetStage?
    ensures StageConfirmed(cfg, x, l, Step(cfg, x, w, l, NoFault).reply, l.pc.stage) && l.env.spec == w.envs[x].spec
  {
    hide Next, NsName, StageKey, StageObj, Backend, TemplateAt, ServicesAt, Built, Labelled, Resolve;
    var st := l.pc.stage;
    TrackBuilt(cfg, x, w, l);
    TrackFreshly(cfg, x, w, l);
    TrackWanted(cfg, x, w, l);
    hide OnTrack;
    assert AtRoute(l) <==> OnRoute(st);
    assert Asked(cfg, x, w, st);
    ServiceOnlyInRoute(cfg, x, w.objs, l.env.spec, BackendName(x, w), l.service, st);
    BuildingReads(cfg, x, w, l, NoFault);
  }

  lemma TrackWanted(cfg: Config, x: string, w: World, l: Local)
    requires OnTrack(cfg, x, w, l) && l.pc.GetStage?
    ensures Wanted(cfg, x, l.env.spec, l.pc.stage)
  {
  }

  lemma TrackFreshly(cfg: Config, x: string, w: World, l: Local)
    requires OnTrack(cfg, x, w, l) && Creating(l.pc)
    ensures Fresh(w, x, l) && l.env.spec == w.envs[x].spec
  {
  }

  lemma SilentStage(cfg: Config, x: string, w: World, l: Local)
    requires Settled(cfg, x, w) && Clean(cfg, x, w, l) && Silent(cfg, x, l) && l.pc.GetStage?
    ensures var s := Step(cfg, x, w, l, NoFault); s.l == StageEnsured(cfg, l, l.pc.stage, w.now) && Silent(cfg, x, s.l)
  {
    hide Step, NsName, StageKey, StageObj, Settled, Clean, StageEnsured, Wanted;
    var s := Step(cfg, x, w, l, NoFault);
    ReadInPlace(cfg, x, w, l);
    assert l.env.status.activeNamespace == NsName(x) by { CleanTrack(cfg, x, w, l); TrackBuilt(cfg, x, w, l); }
    StepParts(cfg, x, w, l, NoFault);
    StageOnward(cfg, l, l.pc.stage, w.now);
    assert !s.l.pc.Refetch? && !s.l.pc.AddFinalizer? && !s.l.pc.PutNs? by { CleanTrack(cfg, x, w, l); TrackBuilt(cfg, x, w, l); NextStays(cfg, x, l, s.reply, w.now); }
  }

  lemma NextStays(cfg: Config, x: string, l: Local, r: Reply, now: Time)
    requires Built(cfg, x, l) && Building(l.pc)
    ensures var m := Next(cfg, x, l, r, now); (m.pc.Save? || Building(m.pc)) && m.env.spec == l.env.spec
  {
    hide Next, Built;
    NextBuilding(cfg, x, l, r, now);
  }

  /** Every release asked for is found. */
  lemma ChecksPresent(cfg: Config, x: string, w: World, l: Local)
    requires Settled(cfg, x, w) && Clean(cfg, x, w, l) && l.pc.Check?
    ensures Step(cfg, x, w, l, NoFault).reply == Presence(true)
    ensures |l.pc.done| < |l.pc.todo|
  {
    hide Next, NsName, Backend, TemplateAt, ServicesAt, Labelled, Resolve, InPlace;
    TrackBuilt(cfg, x, w, l);
    TrackFreshly(cfg, x, w, l);
    hide OnTrack;
    BuiltChecks(cfg, x, l);
    hide Built;
    ReleaseNames(x, l.pc.todo[|l.pc.done|]);
    hide Release;
    assert l.pc.todo[|l.pc.done|] in Resolve(w.envs[x].spec, TemplateAt(w, w.envs[x]));
  }

  lemma BuiltChecks(cfg: Config, x: string, l: Local)
    requires Built(cfg, x, l) && l.pc.Check?
    ensures |l.pc.done| < |l.pc.todo| && cfg.helm
  {
  }

  lemma ReleaseNames(x: string, c: Component)
    ensures Release(x, NsName(x), c).namespace == NsName(x) && Release(x, NsName(x), c).name == Release(x, "", c).name
  {
  }

  lemma SilentHelm(cfg: Config, x: string, w: World, l: Local)
    requires Settled(cfg, x, w) && Clean(cfg, x, w, l) && Silent(cfg, x, l) && Building(l.pc) && !l.pc.GetStage?
    ensures var s := Step(cfg, x, w, l, NoFault); Silent(cfg, x, s.l)
  {
    hide Step, NsName, StageKey, StageObj, Settled, Clean, OnTrack, Built, Matching, Choose, PrimaryName, Resolve, Deployed, FailHelm, Release;
    var s := Step(cfg, x, w, l, NoFault);
    CleanTrack(cfg, x, w, l);
    TrackBuilt(cfg, x, w, l);
    StepParts(cfg, x, w, l, NoFault);
    DeployedLeads(l, [], [], w.now);
    if l.pc.Check? {
      ChecksPresent(cfg, x, w, l);
      var c := l.pc.todo[|l.pc.done|];
      DeployedLeads(l, l.pc.todo, l.pc.done + [ComponentStatus(c.name, Release(x, "", c).name, AlreadyInstalled)], w.now);
    }
  }

  /** Called for a settled environment, a pass only reads until it stores the status. */
  lemma SilentStep(cfg: Config, x: string, w: World, l: Local)
    requires Settled(cfg, x, w) && Fit(cfg, x, w) && w.now <= Deadline(w.envs[x])
    requires Silent(cfg, x, l) && (l.pc.Idle? || Clean(cfg, x, w, l)) && !l.pc.Save?
    ensures var s := Step(cfg, x, w, l, NoFault); s.w == w && Silent(cfg, x, s.l)
  {
    hide Step, Next, NsName, Settled, Clean, Wanted, OnTrack, Labelled, NsEnsured, FailStep;
    var s := Step(cfg, x, w, l, NoFault);
    if !l.pc.Idle? { CleanTrack(cfg, x, w, l); TrackPcs(cfg, x, w, l); TrackFinalizer(cfg, x, w, l); }
    StepParts(cfg, x, w, l, NoFault);
    if l.pc.GetStage? { SilentStage(cfg, x, w, l); }
    else if Building(l.pc) { SilentHelm(cfg, x, w, l); }
    else {
      NextOpening(cfg, x, l, s.reply, w.now);
      OwnWrite(cfg, x, w, l);
      SettledFinalizer(cfg, x, w);
      if l.pc.GetNs? {
        NsTracked(cfg, x, w, l, NoFault);
        TrackSound(cfg, x, w, l);
        NsEnsuredBuilt(cfg, x, l, w.now);
      }
    }
  }

  lemma SettledFinalizer(cfg: Config, x: string, w: World)
    requires Settled(cfg, x, w)
    ensures x in w.envs && FINALIZER in w.envs[x].finalizers
    ensures NsName(x) in w.namespaces && w.namespaces[NsName(x)].labels + OwnerLabels(x) == w.namespaces[NsName(x)].labels
  {
  }
}

/** What a pass knows while none of its calls has failed. */
module Faultless {
  import opened Model
  import opened Discovery
  import opened Store
  import opened Machine
  import opened Progress
  import opened Teardown
  import opened Calls
  import opened Protocol
  import opened Runs
  import opened Pass
  import opened Backing
  import opened Calm

  function ServicesAt(w: World, x: string): seq<Service> {
    ServicesIn(w, NsName(x))
  }

  /** The service the route must point at, as a function of the spec, the services listed, and the
      template outcome; none when no service qualifies. */
  function Backend(spec: Spec, services: seq<Service>, template: Option<seq<Component>>): Option<string> {
    if spec.servicePort.None? then Some(spec.gateway.serviceName)
    else Discover(services, RoutePort(spec), PrimaryName(spec, template))
  }

  /** Some service qualifies, or the specification names one. */
  predicate Served(x: string, w: World) {
    x in w.envs && Backend(w.envs[x].spec, ServicesAt(w, x), TemplateAt(w, w.envs[x])).Some?
  }

  lemma KinBackend(x: string, w: World, v: World)
    requires Kin(x, w, v)
    ensures x in w.envs && x in v.envs && v.envs[x].spec == w.envs[x].spec
    ensures TemplateAt(v, v.envs[x]) == TemplateAt(w, w.envs[x]) && ServicesAt(v, x) == ServicesAt(w, x)
    ensures Served(x, v) <==> Served(x, w)
  {
    SameTemplates(w, v, w.envs[x]);
    SameTemplate(v, w.envs[x], v.envs[x]);
  }

  predicate AtRoute(l: Local) {
    Raised(l.pc) && (Passed(l) >= 7 || l.pc == GetStage(AppStage) || (l.pc.PutStage? && l.pc.stage == AppStage))
  }

  /** The worker's view agrees with the components and the backend that the cluster determines. */
  ghost predicate Knows(cfg: Config, l: Local, t: Option<seq<Component>>, ss: seq<Service>) {
    var spec := l.env.spec;
    && !l.pc.Idle?
    && (GaveUp(l) ==> l.pc == Save(Waiting) && l.env.status.message == WaitingMessage && Backend(spec, ss, t).None?)
    && (l.pc.ResolveAgain? ==> Resolve(spec, t) != [])
    && (l.pc.Check? || l.pc.Deploy? ==> l.pc.todo == Resolve(spec, t))
    && (l.pc.AskPrimary? ==> l.listed == ss)
    && (Raised(l.pc) && Passed(l) >= HelmPos(l) && cfg.helm ==> l.resolved == Resolve(spec, t))
    && (AtRoute(l) ==> Backend(spec, ss, t) == Some(l.service))
  }

  lemma NoTemplateRead(spec: Spec, t: Option<seq<Component>>)
    ensures !ReadsTemplate(spec) ==> Resolve(spec, t) == Resolve(spec, None)
    ensures !PrimaryReadsTemplate(spec) ==> PrimaryName(spec, t) == PrimaryName(spec, None)
  {
    hide FirstPrimary;
  }

  lemma NamedBackend(cfg: Config, x: string, l: Local, t: Option<seq<Component>>, ss: seq<Service>)
    requires Raised(l.pc) && Built(cfg, x, l) && !Discovers(l) && AtRoute(l)
    ensures Backend(l.env.spec, ss, t) == Some(l.service)
  {
  }

  /** The object is in place. */
  lemma StageKnown(cfg: Config, x: string, l: Local, r: Reply, now: Time, t: Option<seq<Component>>, ss: seq<Service>)
    requires Built(cfg, x, l) && Knows(cfg, l, t, ss) && (l.pc.GetStage? || l.pc.PutStage?)
    requires if l.pc.GetStage? then r.NotFound? || r.AnObj? else r.Done?
    ensures Knows(cfg, Next(cfg, x, l, r, now), t, ss)
  {
    hide Next, StageEnsured, StageFailed, StageObj, Resolve, Backend, Built, Claimed, HelmFlag, ReadsTemplate;
    var m := Next(cfg, x, l, r, now);
    NextBuilding(cfg, x, l, r, now);
    StageLeads(cfg, x, l, r, now);
    NoTemplateRead(l.env.spec, t);
    UnresolvedYet(cfg, x, l);
    if !m.pc.PutStage? {
      assert Needed(x, m.env.spec, AppStage);
      if Raised(m.pc) && AtRoute(m) && !Discovers(m) { NamedBackend(cfg, x, m, t, ss); }
      assert Needed(x, m.env.spec, AppStage) && Pos(AppStage) <= Passed(m) ==> Pos(AppStage) <= Passed(l) || StageConfirmed(cfg, x, l, r, AppStage);
    }
  }

  lemma UnresolvedYet(cfg: Config, x: string, l: Local)
    requires Built(cfg, x, l) && (l.pc.GetStage? || l.pc.PutStage?)
    ensures Passed(l) < HelmPos(l) ==> l.resolved == []
  {
  }

  lemma StageLeads(cfg: Config, x: string, l: Local, r: Reply, now: Time)
    requires Built(cfg, x, l) && (l.pc.GetStage? || l.pc.PutStage?)
    requires if l.pc.GetStage? then r.NotFound? || r.AnObj? else r.Done?
    ensures var m := Next(cfg, x, l, r, now);
      if m.pc.PutStage? then m == l.(pc := m.pc) && m.pc.stage == l.pc.stage
      else
        && Onward(m, l.env.spec) && StageConfirmed(cfg, x, l, r, l.pc.stage)
        && (!Discovers(l) || Pos(l.pc.stage) < 6 ==> Skips(cfg, m, l.env.spec))
        && (l.pc.stage.AppStage? && AdminWanted(cfg) ==> m.pc == GetStage(AdminStage))
  {
    hide StageEnsured, StageFailed, StageObj, Resolve, Skips;
    StageOnward(cfg, l, l.pc.stage, now);
  }

  lemma ResolveKnown(cfg: Config, x: string, l: Local, r: Reply, now: Time, t: Option<seq<Component>>, ss: seq<Service>)
    requires Built(cfg, x, l) && Knows(cfg, l, t, ss) && (l.pc.ResolveFirst? || l.pc.ResolveAgain?)
    requires TemplateOf(r) == t
    ensures Knows(cfg, Next(cfg, x, l, r, now), t, ss)
  {
    hide Resolve, Backend, ServiceChosen, Matching, Choose, PrimaryName, OnTearing, Fetched, OnNsRead;
    var m := Next(cfg, x, l, r, now);
    NextBuilding(cfg, x, l, r, now);
    if Raised(m.pc) && AtRoute(m) && !Discovers(m) { NamedBackend(cfg, x, m, t, ss); }
    hide Claimed, HelmFlag, Needed;
  }

  lemma DeployKnown(cfg: Config, x: string, l: Local, r: Reply, now: Time, t: Option<seq<Component>>, ss: seq<Service>)
    requires Built(cfg, x, l) && Knows(cfg, l, t, ss) && (l.pc.Check? || l.pc.Deploy?) && Parses(l.pc.todo)
    requires if l.pc.Check? then r.Presence? else r.Done?
    ensures Knows(cfg, Next(cfg, x, l, r, now), t, ss)
  {
    hide Resolve, Backend, Reports, Resolvable, HelmReported, Release, Deployed, FailHelm, ServiceChosen,
         OnTearing, Fetched, Begin, OnNsRead, OnStageRead, OnStageWritten, ResolvedFirst, ResolvedAgain, Listed, Chosen;
    var m := Next(cfg, x, l, r, now);
    NextBuilding(cfg, x, l, r, now);
    var c := l.pc.todo[|l.pc.done|];
    var done := l.pc.done + [ComponentStatus(c.name, Release(x, "", c).name, AlreadyInstalled)];
    var done' := l.pc.done + [ComponentStatus(c.name, Release(x, "", c).name, Installed(now))];
    var l' := if c.primary then SetStatus(l, l.env.status.(helmRelease := Release(x, "", c).name)) else l;
    DeployedLeads(l, l.pc.todo, done, now);
    DeployedLeads(l', l.pc.todo, done', now);
    NextWhence(cfg, x, l, r, now);
    hide Next;
    if Raised(m.pc) && AtRoute(m) && !Discovers(m) { NamedBackend(cfg, x, m, t, ss); }
    hide Claimed, HelmFlag, Needed;
  }

  lemma DiscoverKnown(cfg: Config, x: string, l: Local, r: Reply, now: Time, t: Option<seq<Component>>, ss: seq<Service>)
    requires Built(cfg, x, l) && Knows(cfg, l, t, ss) && (l.pc.List? || l.pc.AskPrimary?)
    requires if l.pc.List? then r == SomeServices(ss) else TemplateOf(r) == t
    ensures Knows(cfg, Next(cfg, x, l, r, now), t, ss)
  {
    hide Resolve, Matching, Choose, PrimaryName, HelmReported, ServiceChosen, OnTearing, Fetched, OnNsRead;
    NoTemplateRead(l.env.spec, t);
    hide PrimaryReadsTemplate;
  }

  // ---------------------------------------------------------------- together with the cluster

  predicate AdminInPlace(cfg: Config, x: string, objs: map<Key, Obj>, l: Local) {
    AdminWanted(cfg) && Passed(l) >= 8 ==> InPlace(cfg, x, objs, l.env.spec, l.service, AdminStage)
  }

  /** The namespace is there and carries the owner's labels. */
  predicate Labelled(x: string, w: World) {
    NsName(x) in w.namespaces && w.namespaces[NsName(x)].labels + OwnerLabels(x) == w.namespaces[NsName(x)].labels
  }

  /** The stages of the routes. */
  predicate OnRoute(st: Stage) { st.AppStage? || st.AdminStage? }

  /** Everything asked for is in place, but for the routes. */
  ghost predicate Grounded(cfg: Config, x: string, w: World, spec: Spec, cs: seq<Component>) {
    && Labelled(x, w)
    && (forall st :: Wanted(cfg, x, spec, st) && !OnRoute(st) ==> InPlace(cfg, x, w.objs, spec, "", st))
    && (cfg.helm ==> forall c :: c in cs ==> Release(x, NsName(x), c) in w.releases)
  }

  ghost predicate Clean(cfg: Config, x: string, w: World, l: Local) {
    && OnTrack(cfg, x, w, l) && x in w.envs
    && (Creating(l.pc) || l.pc.Refetch? ==> FINALIZER in w.envs[x].finalizers)
    && Knows(cfg, l, TemplateAt(w, w.envs[x]), ServicesAt(w, x))
    && (l.pc.Deploy? && |l.pc.done| < |l.pc.todo| ==> Release(x, NsName(x), l.pc.todo[|l.pc.done|]) !in w.releases)
    && (Raised(l.pc) ==> Placed(cfg, x, w.objs, w.releases, l, true) && AdminInPlace(cfg, x, w.objs, l) && Labelled(x, w))
    && (l.pc == Save(Waiting) ==> Grounded(cfg, x, w, w.envs[x].spec, Resolve(w.envs[x].spec, TemplateAt(w, w.envs[x]))))
  }

  /** In a fit cluster a building call that meets no fault gets the answer the pass needs. */
  lemma CallsSucceed(cfg: Config, x: string, w: World, l: Local)
    requires Clean(cfg, x, w, l) && Fit(cfg, x, w) && Building(l.pc)
    ensures var r := Step(cfg, x, w, l, NoFault).reply;
      match l.pc
      case GetStage(_) => r.NotFound? || r.AnObj?
      case PutStage(_, _) => r.Done?
      case ResolveFirst => TemplateOf(r) == TemplateAt(w, w.envs[x])
      case ResolveAgain => TemplateOf(r) == TemplateAt(w, w.envs[x])
      case Check(todo, done) => |done| < |todo| && r == Presence(Release(x, NsName(x), todo[|done|]) in w.releases)
      case Deploy(_, _) => r.Done?
      case List => r == SomeServices(ServicesAt(w, x))
      case _ => TemplateOf(r) == TemplateAt(w, w.envs[x])
  {
    hide Next, NsName, StageKey, StageObj, Built, Parses, TemplateAt, TemplateRequest, Resolve, OnTrack, Knows, Able, Release, LegacyRelease, Labelled, Placed, AdminInPlace;
    TrackBuilt(cfg, x, w, l);
    TrackFresher(cfg, x, w, l);
    BuildingReads(cfg, x, w, l, NoFault);
    SameTemplate(w, l.env, w.envs[x]);
    if l.pc.PutStage? { RoomForStage(cfg, x, w, l); }
    if l.pc.Check? || l.pc.Deploy? { BuiltDeploys(cfg, x, l); }
    if l.pc.Deploy? { RoomForRelease(cfg, x, w, l); ReleaseNs(x, l.pc.todo[|l.pc.done|]); }
  }

  lemma RoomForStage(cfg: Config, x: string, w: World, l: Local)
    requires OnTrack(cfg, x, w, l) && Fit(cfg, x, w) && l.pc.PutStage?
    ensures var k := StageKey(x, l.env.spec, NsName(x), l.pc.stage);
      if l.pc.seen.Some? then k in w.objs && w.objs[k] == l.pc.seen.value else k !in w.objs && AcceptsObjects(w, k.namespace)
  {
    hide NsName, StageKey, Sound, Resolve, TemplateAt, Wanted;
  }

  lemma RoomForRelease(cfg: Config, x: string, w: World, l: Local)
    requires Clean(cfg, x, w, l) && Fit(cfg, x, w) && l.pc.Deploy? && cfg.helm && |l.pc.done| < |l.pc.todo|
    ensures AcceptsObjects(w, NsName(x))
  {
    hide NsName, StageKey, Sound, Resolve, TemplateAt, ServicesAt, Wanted, Release, Labelled, Placed, AdminInPlace, Backend;
    TrackFresher(cfg, x, w, l);
    assert l.pc.todo[|l.pc.done|] in Resolve(w.envs[x].spec, TemplateAt(w, w.envs[x]));
  }

  lemma TrackFresher(cfg: Config, x: string, w: World, l: Local)
    requires OnTrack(cfg, x, w, l) && Building(l.pc)
    ensures x in w.envs && l.env.spec == w.envs[x].spec && l.env.namespace == w.envs[x].namespace && NsName(x) in w.namespaces
  {
  }

  lemma BuiltDeploys(cfg: Config, x: string, l: Local)
    requires Built(cfg, x, l) && (l.pc.Check? || l.pc.Deploy?)
    ensures |l.pc.done| < |l.pc.todo| && cfg.helm
  {
  }

  lemma AdminStays(cfg: Config, x: string, w: World, l: Local)
    requires Clean(cfg, x, w, l) && Fit(cfg, x, w) && Building(l.pc)
    ensures var s := Step(cfg, x, w, l, NoFault); Raised(s.l.pc) ==> AdminInPlace(cfg, x, s.w.objs, s.l)
  {
    hide Step, Next, NsName, Built, StageKey, StageObj, InPlace, Claimed, HelmFlag, OnTrack, Knows, Labelled, Placed, Able;
    var s := Step(cfg, x, w, l, NoFault);
    TrackBuilt(cfg, x, w, l);
    StepParts(cfg, x, w, l, NoFault);
    NextBuilding(cfg, x, l, s.reply, w.now);
    CallsSucceed(cfg, x, w, l);
    if l.pc.GetStage? || l.pc.PutStage? { StageLeads(cfg, x, l, s.reply, w.now); }
    if Raised(s.l.pc) && AdminWanted(cfg) && Passed(s.l) >= 8 {
      assert Needed(x, s.l.env.spec, AppStage);
      if Passed(l) >= 8 {
        StillInPlace(cfg, x, w, l, NoFault, AdminStage);
      } else {
        assert StageConfirmed(cfg, x, l, s.reply, AdminStage);
        ConfirmedInPlace(cfg, x, w, l, NoFault, AdminStage);
      }
      ServiceOnlyInRoute(cfg, x, s.w.objs, l.env.spec, l.service, s.l.service, AdminStage);
    }
  }

  /** A component that is about to be installed was looked up and not found. */
  lemma DeploysMissing(cfg: Config, x: string, w: World, l: Local)
    requires Clean(cfg, x, w, l) && Fit(cfg, x, w) && Building(l.pc)
    ensures var s := Step(cfg, x, w, l, NoFault);
      s.l.pc.Deploy? && |s.l.pc.done| < |s.l.pc.todo| ==> Release(x, NsName(x), s.l.pc.todo[|s.l.pc.done|]) !in s.w.releases
  {
    hide Step, Next, NsName, Built, Knows, OnTrack, Placed, AdminInPlace, Labelled, Able, Release;
    var s := Step(cfg, x, w, l, NoFault);
    TrackBuilt(cfg, x, w, l);
    StepParts(cfg, x, w, l, NoFault);
    if l.pc.Check? {
      CallsSucceed(cfg, x, w, l);
      CheckLeads(cfg, x, l, s.reply, w.now);
    } else {
      assert !s.l.pc.Deploy? by { OnlyChecksDeploy(cfg, x, l, s.reply, w.now); }
    }
  }

  lemma CheckLeads(cfg: Config, x: string, l: Local, r: Reply, now: Time)
    requires l.pc.Check?
    ensures var m := Next(cfg, x, l, r, now); m.pc.Deploy? ==> m.pc.todo == l.pc.todo && m.pc.done == l.pc.done && r == Presence(false)
  {
    hide Release, SetCondition;
  }

  lemma OnlyChecksDeploy(cfg: Config, x: string, l: Local, r: Reply, now: Time)
    requires Built(cfg, x, l) && Building(l.pc) && !l.pc.Check?
    ensures !Next(cfg, x, l, r, now).pc.Deploy?
  {
    hide Next, Built;
    NextBuilding(cfg, x, l, r, now);
  }

  /** A pass only waits for want of a service, when everything before is behind it. */
  lemma OnlyDiscoveryWaits(cfg: Config, x: string, l: Local, r: Reply, now: Time)
    requires Built(cfg, x, l) && Building(l.pc) && Next(cfg, x, l, r, now).pc == Save(Waiting)
    ensures l.pc.List? || l.pc.AskPrimary?
  {
    hide StageEnsured, StageFailed, StageObj, Resolve, Deployed, Release, Matching, Choose, PrimaryName, OnTearing, Fetched, OnNsRead, Built, SetCondition;
    if l.pc.GetStage? || l.pc.PutStage? {
      StageOnward(cfg, l, l.pc.stage, now);
      FailureSaved(cfg, l, l.pc.stage, now);
    } else if !l.pc.List? && !l.pc.AskPrimary? {
      HelmNeverWaits(cfg, x, l, r, now);
    }
  }

  lemma FailureSaved(cfg: Config, l: Local, st: Stage, now: Time)
    ensures StageFailed(cfg, l, st, now).pc != Save(Waiting)
  {
    StageOnward(cfg, l, st, now);
    hide AfterRoutes;
  }

  lemma HelmNeverWaits(cfg: Config, x: string, l: Local, r: Reply, now: Time)
    requires l.pc.ResolveFirst? || l.pc.ResolveAgain? || l.pc.Check? || l.pc.Deploy?
    ensures OnBuilding(cfg, x, l, r, now).pc != Save(Waiting)
  {
    hide Resolve, Release, SetCondition;
  }

  lemma WaitingGrounded(cfg: Config, x: string, w: World, l: Local)
    requires Clean(cfg, x, w, l) && (l.pc.List? || l.pc.AskPrimary?)
    ensures Grounded(cfg, x, w, w.envs[x].spec, Resolve(w.envs[x].spec, TemplateAt(w, w.envs[x])))
  {
    hide NsName, InPlace, Release, TemplateAt, ServicesAt, Backend, Resolve, Labelled, AdminInPlace;
    TrackFresher(cfg, x, w, l);
    assert Discovers(l) by { TrackBuilt(cfg, x, w, l); BuiltDiscovers(cfg, x, l); }
    hide OnTrack;
    assert Claimed(l) == l.resolved && Passed(l) == 6;
    forall st | Wanted(cfg, x, l.env.spec, st) && !OnRoute(st) ensures InPlace(cfg, x, w.objs, l.env.spec, "", st) {
      assert Needed(x, l.env.spec, st) && Pos(st) <= Passed(l);
      ServiceOnlyInRoute(cfg, x, w.objs, l.env.spec, l.service, "", st);
    }
  }

  lemma BuiltDiscovers(cfg: Config, x: string, l: Local)
    requires Built(cfg, x, l) && (l.pc.List? || l.pc.AskPrimary?)
    ensures Discovers(l)
  {
  }

  /** Discovery itself writes nothing. */
  lemma DiscoveryReads(cfg: Config, x: string, w: World, l: Local, f: Fault)
    requires l.pc.List? || l.pc.AskPrimary?
    ensures Step(cfg, x, w, l, f).w == w
  {
    hide Step, Next;
    StepParts(cfg, x, w, l, f);
  }

  lemma CleanBuilding(cfg: Config, x: string, w: World, l: Local)
    requires Clean(cfg, x, w, l) && Fit(cfg, x, w) && Building(l.pc)
    ensures var s := Step(cfg, x, w, l, NoFault); Clean(cfg, x, s.w, s.l)
  {
    hide Step, Next, NsName, Built, OnTrack, Placed, AdminInPlace, Parses, Able, Backend, ServicesAt, Release;
    var s := Step(cfg, x, w, l, NoFault);
    var t, ss := TemplateAt(w, w.envs[x]), ServicesAt(w, x);
    TrackBuilt(cfg, x, w, l);
    TrackFresher(cfg, x, w, l);
    TrackBuilding(cfg, x, w, l, NoFault);
    SameTemplates(w, s.w, w.envs[x]);
    PlacedAfter(cfg, x, w, l, NoFault, true);
    AdminStays(cfg, x, w, l);
    StepParts(cfg, x, w, l, NoFault);
    CallsSucceed(cfg, x, w, l);
    DeploysMissing(cfg, x, w, l);
    if s.l.pc == Save(Waiting) {
      OnlyDiscoveryWaits(cfg, x, l, s.reply, w.now);
      WaitingGrounded(cfg, x, w, l);
      DiscoveryReads(cfg, x, w, l, NoFault);
    }
    hide Grounded;
    assert l.pc.Check? || l.pc.Deploy? ==> Parses(l.pc.todo) by { if l.pc.Check? || l.pc.Deploy? { BuiltDeploys(cfg, x, l); } }
    assert Knows(cfg, l, t, ss);
    hide TemplateAt, Fit, Knows;
    if l.pc.GetStage? || l.pc.PutStage? { StageKnown(cfg, x, l, s.reply, w.now, t, ss); }
    else if l.pc.ResolveFirst? || l.pc.ResolveAgain? { ResolveKnown(cfg, x, l, s.reply, w.now, t, ss); }
    else if l.pc.Check? || l.pc.Deploy? { DeployKnown(cfg, x, l, s.reply, w.now, t, ss); }
    else { DiscoverKnown(cfg, x, l, s.reply, w.now, t, ss); }
    assert ServicesAt(s.w, x) == ss by { SameServices(w, s.w, x); }
  }

  lemma SameServices(w: World, v: World, x: string)
    requires v.services == w.services
    ensures ServicesAt(v, x) == ServicesAt(w, x)
  {
  }

  lemma TrackBuilt(cfg: Config, x: string, w: World, l: Local)
    requires OnTrack(cfg, x, w, l)
    ensures Building(l.pc) || l.pc == Save(Activated) ==> Built(cfg, x, l) && l.env.status.activeNamespace == NsName(x) && l.env.status.expirationTime.Some?
  {
    SoundBuilt(cfg, x, l);
  }

  lemma OwnWrite(cfg: Config, x: string, w: World, l: Local)
    requires x in w.envs
    ensures ReadsEnv(l.pc) ==> Step(cfg, x, w, l, NoFault).reply == AnEnv(w.envs[x])
  {
    hide Next;
    FetchesOwn(cfg, x, l);
  }

  /** What the first calls of a pass lead to. */
  lemma CleanOpening(cfg: Config, x: string, w: World, l: Local)
    requires OnTrack(cfg, x, w, l) && Fit(cfg, x, w) && w.now <= Deadline(w.envs[x])
    requires !Building(l.pc) && !l.pc.Save? && (l.pc.Idle? || Clean(cfg, x, w, l))
    ensures var s := Step(cfg, x, w, l, NoFault); Clean(cfg, x, s.w, s.l)
  {
    hide Step, OnTrack, Clean, Fit;
    TrackPcs(cfg, x, w, l);
    TrackFinalizer(cfg, x, w, l);
    assert Standing(x, w) by { FitStands(cfg, x, w); }
    TrackStep(cfg, x, w, l, NoFault);
    if l.pc.GetNs? || l.pc.PutNs? { CleanNs(cfg, x, w, l); } else { CleanFetching(cfg, x, w, l); }
  }

  lemma FitStands(cfg: Config, x: string, w: World)
    requires Fit(cfg, x, w)
    ensures Standing(x, w)
  {
    hide Able;
  }

  lemma CleanFetching(cfg: Config, x: string, w: World, l: Local)
    requires OnTrack(cfg, x, w, l) && Standing(x, w) && w.now <= Deadline(w.envs[x])
    requires l.pc.Idle? || l.pc.AddFinalizer? || (l.pc.Refetch? && Clean(cfg, x, w, l))
    requires var s := Step(cfg, x, w, l, NoFault); OnTrack(cfg, x, s.w, s.l) && Kin(x, w, s.w)
    ensures var s := Step(cfg, x, w, l, NoFault); Clean(cfg, x, s.w, s.l)
  {
    hide Step, Next, NsName, Built, OnTrack, Placed, TemplateAt, ServicesAt, Backend, Resolve, Labelled, Kin;
    var s := Step(cfg, x, w, l, NoFault);
    TrackFinalizer(cfg, x, w, l);
    KinDeadline(x, w, s.w);
    StepParts(cfg, x, w, l, NoFault);
    NextOpening(cfg, x, l, s.reply, w.now);
    OwnWrite(cfg, x, w, l);
    if l.pc.AddFinalizer? { WriteOutcome(cfg, x, w, l, NoFault); }
  }

  lemma CleanNs(cfg: Config, x: string, w: World, l: Local)
    requires Clean(cfg, x, w, l) && (l.pc.GetNs? || l.pc.PutNs?)
    requires var s := Step(cfg, x, w, l, NoFault); OnTrack(cfg, x, s.w, s.l)
    ensures var s := Step(cfg, x, w, l, NoFault); Clean(cfg, x, s.w, s.l)
  {
    hide Step, Next, NsName, Built, OnTrack, NsEnsured, Placed, TemplateAt, ServicesAt, Backend, Resolve, FailStep, Labelled, Grounded, OwnerLabels;
    var s := Step(cfg, x, w, l, NoFault);
    StepParts(cfg, x, w, l, NoFault);
    NextOpening(cfg, x, l, s.reply, w.now);
    NsAnswered(cfg, x, w, l);
    TrackSound(cfg, x, w, l);
    NsEnsuredBuilt(cfg, x, l, w.now);
    FirstPlaced(cfg, x, s.w, l, w.now, true);
  }

  predicate NsAnswers(x: string, w: World, l: Local, r: Reply) {
    if l.pc.GetNs? then r.NotFound? || r.ANamespace? else r.Done?
  }

  lemma NsAnswered(cfg: Config, x: string, w: World, l: Local)
    requires OnTrack(cfg, x, w, l) && (l.pc.GetNs? || l.pc.PutNs?)
    ensures var s := Step(cfg, x, w, l, NoFault); NsAnswers(x, w, l, s.reply) && (Raised(s.l.pc) ==> Labelled(x, s.w))
  {
    hide Step, Sound, Next, OwnerLabels, NsEnsured, FailStep;
    var s := Step(cfg, x, w, l, NoFault);
    NsTracked(cfg, x, w, l, NoFault);
    StepParts(cfg, x, w, l, NoFault);
    NextOpening(cfg, x, l, s.reply, w.now);
  }

  lemma TrackFinalizer(cfg: Config, x: string, w: World, l: Local)
    requires OnTrack(cfg, x, w, l)
    ensures l.pc.AddFinalizer? ==> Current(w, x, l.env) && FINALIZER in l.env.finalizers
    ensures l.pc.DropFinalizer? || l.pc.SaveExpired? ==> false
  {
  }

  lemma TrackSound(cfg: Config, x: string, w: World, l: Local)
    requires OnTrack(cfg, x, w, l)
    ensures Sound(cfg, x, l)
    ensures l.pc.GetNs? || l.pc.PutNs? ==> l.env.status.expirationTime.Some? && l.resolved == []
  {
  }

  // ---------------------------------------------------------------- what a pass leaves alone

  ghost predicate RoutesSame(w: World, v: World) {
    forall k: Key :: k.kind.HTTPRoute? ==> (k in v.objs <==> k in w.objs) && (k in w.objs ==> v.objs[k] == w.objs[k])
  }

  lemma CleanSparesRoutes(cfg: Config, x: string, w: World, l: Local)
    requires (l.pc.Idle? || l.pc.AddFinalizer? || l.pc.Refetch? || Creating(l.pc)) && (Building(l.pc) ==> Clean(cfg, x, w, l))
    requires x in w.envs && !Served(x, w)
    ensures RoutesSame(w, Step(cfg, x, w, l, NoFault).w)
  {
    hide Step, Next, NsName, StageObj, StageKey, Backend, TemplateAt, ServicesAt, Placed, AdminInPlace, Labelled, Grounded, Resolve, Built;
    StepParts(cfg, x, w, l, NoFault);
    if Building(l.pc) {
      TrackBuilt(cfg, x, w, l);
      TrackFresher(cfg, x, w, l);
      BuildStep(cfg, x, w, l, NoFault);
      if l.pc.PutStage? {
        assert !OnRoute(l.pc.stage);
        StageKinds(x, l.env.spec, l.pc.stage);
        assert Needed(x, l.env.spec, l.pc.stage) by { WantedNeeded(cfg, x, w, l); }
      }
    }
  }

  /** The releases that x's specification asks for. */
  function AskedReleases(cfg: Config, x: string, w: World): set<ReleaseKey>
    requires x in w.envs
  {
    if !cfg.helm then {} else set c | c in Resolve(w.envs[x].spec, TemplateAt(w, w.envs[x])) :: Release(x, NsName(x), c)
  }

  lemma CleanInstalls(cfg: Config, x: string, w: World, l: Local)
    requires (l.pc.Idle? || l.pc.AddFinalizer? || l.pc.Refetch? || Creating(l.pc)) && (Building(l.pc) ==> Clean(cfg, x, w, l))
    requires x in w.envs
    ensures Step(cfg, x, w, l, NoFault).w.releases <= w.releases + AskedReleases(cfg, x, w)
  {
    hide Step, Next, NsName, Backend, TemplateAt, ServicesAt, Placed, AdminInPlace, Labelled, Grounded, Resolve, Built, Release;
    StepParts(cfg, x, w, l, NoFault);
    if l.pc.Deploy? {
      TrackBuilt(cfg, x, w, l);
      TrackFresher(cfg, x, w, l);
      BuiltDeploys(cfg, x, l);
      InstallsOne(cfg, x, w, l);
      assert l.pc.todo[|l.pc.done|] in Resolve(w.envs[x].spec, TemplateAt(w, w.envs[x]));
    }
  }

  lemma InstallsOne(cfg: Config, x: string, w: World, l: Local)
    requires l.pc.Deploy? && |l.pc.done| < |l.pc.todo| && l.env.status.activeNamespace == NsName(x)
    ensures Step(cfg, x, w, l, NoFault).w.releases <= w.releases + {Release(x, NsName(x), l.pc.todo[|l.pc.done|])}
  {
    hide Next, NsName, Release, AcceptsObjects;
  }

  // ---------------------------------------------------------------- what it makes of what it finds

  /** The service behind the routes; without one no route is asked for. */
  function BackendName(x: string, w: World): string
    requires x in w.envs
  {
    var b := Backend(w.envs[x].spec, ServicesAt(w, x), TemplateAt(w, w.envs[x]));
    if b.Some? then b.value else ""
  }

  /** What a pass can put in place: the routes only if there is a service to point them at. */
  predicate Asked(cfg: Config, x: string, w: World, st: Stage) {
    x in w.envs && Wanted(cfg, x, w.envs[x].spec, st) && (OnRoute(st) ==> Served(x, w))
  }

  /** The object under a stage's key is as it was, or what the stage makes of what was there. */
  predicate StageGrown(cfg: Config, x: string, w: World, v: World, st: Stage)
    requires x in w.envs
  {
    var spec := w.envs[x].spec;
    var k := StageKey(x, spec, NsName(x), st);
    Stored(v, k) == Stored(w, k) || Stored(v, k) == Some(StageObj(cfg, x, spec, NsName(x), BackendName(x, w), st, Stored(w, k)))
  }

  /** Objects that are not asked for are left alone. */
  ghost predicate ObjsGrown(cfg: Config, x: string, w: World, v: World)
    requires x in w.envs
  {
    && (forall st :: Asked(cfg, x, w, st) ==> StageGrown(cfg, x, w, v, st))
    && (forall k :: (forall st :: Asked(cfg, x, w, st) ==> StageKey(x, w.envs[x].spec, NsName(x), st) != k) ==> Stored(v, k) == Stored(w, k))
  }

  /** The environment's namespace is as it was, or has got the owner's labels; other namespaces are left alone. */
  ghost predicate NsGrown(x: string, w: World, v: World) {
    var n := NsName(x);
    && (forall m :: m != n ==> (m in v.namespaces <==> m in w.namespaces) && (m in w.namespaces ==> v.namespaces[m] == w.namespaces[m]))
    && (n in w.namespaces ==>
          && n in v.namespaces
          && (v.namespaces[n] == w.namespaces[n] || v.namespaces[n] == w.namespaces[n].(labels := w.namespaces[n].labels + OwnerLabels(x))))
    && (n !in w.namespaces && n in v.namespaces ==> v.namespaces[n] == Namespace(OwnerLabels(x), false))
  }

  lemma StageGrownTrans(cfg: Config, x: string, w: World, v: World, u: World, st: Stage)
    requires x in w.envs && x in v.envs && v.envs[x].spec == w.envs[x].spec && BackendName(x, v) == BackendName(x, w)
    requires StageGrown(cfg, x, w, v, st) && StageGrown(cfg, x, v, u, st)
    ensures StageGrown(cfg, x, w, u, st)
  {
    StageObjIdempotent(cfg, x, w.envs[x].spec, NsName(x), BackendName(x, w), st, Stored(w, StageKey(x, w.envs[x].spec, NsName(x), st)));
    hide StageObj, StageKey, NsName, BackendName;
  }

  lemma SameAsked(cfg: Config, x: string, w: World, v: World, st: Stage)
    requires Kin(x, w, v)
    ensures x in w.envs && x in v.envs && v.envs[x].spec == w.envs[x].spec && BackendName(x, v) == BackendName(x, w)
    ensures Asked(cfg, x, v, st) <==> Asked(cfg, x, w, st)
  {
    KinBackend(x, w, v);
    hide Kin, Backend, TemplateAt, ServicesAt, Wanted;
  }

  lemma ObjsGrownTrans(cfg: Config, x: string, w: World, v: World, u: World)
    requires Kin(x, w, v) && ObjsGrown(cfg, x, w, v) && ObjsGrown(cfg, x, v, u)
    ensures ObjsGrown(cfg, x, w, u)
  {
    hide Kin, StageGrown, Asked, StageKey, NsName, Stored;
    forall st ensures Asked(cfg, x, v, st) <==> Asked(cfg, x, w, st) { SameAsked(cfg, x, w, v, st); }
    SameAsked(cfg, x, w, v, SaStage);
    forall st | Asked(cfg, x, w, st) ensures StageGrown(cfg, x, w, u, st) { StageGrownTrans(cfg, x, w, v, u, st); }
  }

  lemma NsGrownTrans(x: string, w: World, v: World, u: World)
    requires NsGrown(x, w, v) && NsGrown(x, v, u)
    ensures NsGrown(x, w, u)
  {
    hide NsName, OwnerLabels;
    var n := NsName(x);
    if n in w.namespaces { assert w.namespaces[n].labels + OwnerLabels(x) + OwnerLabels(x) == w.namespaces[n].labels + OwnerLabels(x); }
    assert OwnerLabels(x) + OwnerLabels(x) == OwnerLabels(x);
  }

  /** A write of the create path, seen from its own stage and from any other key. */
  lemma WriteGrows(cfg: Config, x: string, w: World, l: Local)
    requires Clean(cfg, x, w, l) && l.pc.PutStage?
    ensures x in w.envs && Asked(cfg, x, w, l.pc.stage)
    ensures var v := Step(cfg, x, w, l, NoFault).w; var k := StageKey(x, w.envs[x].spec, NsName(x), l.pc.stage);
      v.objs == w.objs || v.objs == w.objs[k := StageObj(cfg, x, w.envs[x].spec, NsName(x), BackendName(x, w), l.pc.stage, Stored(w, k))]
  {
    hide Step, Next, NsName, StageObj, StageKey, Backend, TemplateAt, ServicesAt, Placed, AdminInPlace, Labelled, Grounded, Resolve, Built;
    TrackBuilt(cfg, x, w, l);
    TrackFresher(cfg, x, w, l);
    BuildStep(cfg, x, w, l, NoFault);
    var k := StageKey(x, w.envs[x].spec, NsName(x), l.pc.stage);
    assert OnRoute(l.pc.stage) ==> AtRoute(l);
    ServiceApart(cfg, x, l.env.spec, l.service, BackendName(x, w), l.pc.stage, Stored(w, k));
  }

  lemma ServiceApart(cfg: Config, x: string, spec: Spec, service: string, service': string, st: Stage, was: Option<Obj>)
    requires st.AppStage? ==> service == service'
    ensures StageObj(cfg, x, spec, NsName(x), service, st, was) == StageObj(cfg, x, spec, NsName(x), service', st, was)
  {
    hide NsName, Hostname, AdminHostname;
  }

  lemma SameGrown(cfg: Config, x: string, w: World, v: World)
    requires x in w.envs && v.objs == w.objs
    ensures ObjsGrown(cfg, x, w, v)
  {
    hide Asked, StageObj, StageKey, NsName, BackendName;
  }

  lemma CleanGrows(cfg: Config, x: string, w: World, l: Local)
    requires (l.pc.Idle? || l.pc.AddFinalizer? || l.pc.Refetch? || Creating(l.pc)) && (Building(l.pc) ==> Clean(cfg, x, w, l))
    requires x in w.envs
    ensures ObjsGrown(cfg, x, w, Step(cfg, x, w, l, NoFault).w)
  {
    hide Step, Next, Asked, Clean, StageObj, StageKey, NsName, BackendName, ObjsGrown;
    var v := Step(cfg, x, w, l, NoFault).w;
    StepParts(cfg, x, w, l, NoFault);
    if l.pc.PutStage? {
      WriteGrows(cfg, x, w, l);
      if v.objs != w.objs { OneGrown(cfg, x, w, v, l.pc.stage); } else { SameGrown(cfg, x, w, v); }
    } else {
      SameGrown(cfg, x, w, v);
    }
  }

  lemma OneGrown(cfg: Config, x: string, w: World, v: World, st: Stage)
    requires x in w.envs && Asked(cfg, x, w, st)
    requires var k := StageKey(x, w.envs[x].spec, NsName(x), st);
      v.objs == w.objs[k := StageObj(cfg, x, w.envs[x].spec, NsName(x), BackendName(x, w), st, Stored(w, k))]
    ensures ObjsGrown(cfg, x, w, v)
  {
    hide Asked, StageObj, StageKey, NsName, BackendName, StageGrown;
    forall u | Asked(cfg, x, w, u) ensures StageGrown(cfg, x, w, v, u) { OneStageGrown(cfg, x, w, v, st, u); }
  }

  lemma OneStageGrown(cfg: Config, x: string, w: World, v: World, st: Stage, u: Stage)
    requires x in w.envs
    requires var k := StageKey(x, w.envs[x].spec, NsName(x), st);
      v.objs == w.objs[k := StageObj(cfg, x, w.envs[x].spec, NsName(x), BackendName(x, w), st, Stored(w, k))]
    ensures StageGrown(cfg, x, w, v, u)
  {
    hide StageObj, StageKey, NsName, BackendName;
    if u != st { StageKeysDiffer(x, w.envs[x].spec, u, st); }
  }

  lemma NsCallGrows(cfg: Config, x: string, w: World, l: Local)
    requires l.pc.GetNs? || (l.pc.PutNs? && l.pc.seenNs == (if NsName(x) in w.namespaces then Some(w.namespaces[NsName(x)]) else None))
    ensures NsGrown(x, w, Step(cfg, x, w, l, NoFault).w)
  {
    hide Next, NsName, OwnerLabels, WriteEnv, WriteObj, WriteRelease;
  }

  lemma TrackNsSeen(cfg: Config, x: string, w: World, l: Local)
    requires Clean(cfg, x, w, l) && l.pc.PutNs?
    ensures l.pc.seenNs == (if NsName(x) in w.namespaces then Some(w.namespaces[NsName(x)]) else None)
  {
  }

  lemma CleanNsGrows(cfg: Config, x: string, w: World, l: Local)
    requires l.pc.Idle? || (Clean(cfg, x, w, l) && (l.pc.AddFinalizer? || l.pc.Refetch? || Creating(l.pc)))
    ensures NsGrown(x, w, Step(cfg, x, w, l, NoFault).w)
  {
    hide Step, Next, Clean, NsName, OwnerLabels, NsGrown;
    StepParts(cfg, x, w, l, NoFault);
    if l.pc.GetNs? || l.pc.PutNs? {
      if l.pc.PutNs? { TrackNsSeen(cfg, x, w, l); }
      NsCallGrows(cfg, x, w, l);
    } else {
      NsKeptGrown(x, w, Step(cfg, x, w, l, NoFault).w);
    }
  }

  lemma NsKeptGrown(x: string, w: World, v: World)
    requires v.namespaces == w.namespaces
    ensures NsGrown(x, w, v)
  {
    hide NsName, OwnerLabels;
  }

  /** No release appears that is not asked for, without a service no route changes, and every object and
      the namespace are as they were or what is to be made of them. */
  ghost predicate Restrained(cfg: Config, x: string, w: World, v: World) {
    && x in w.envs && v.releases <= w.releases + AskedReleases(cfg, x, w) && (!Served(x, w) ==> RoutesSame(w, v))
    && ObjsGrown(cfg, x, w, v) && NsGrown(x, w, v)
  }

  lemma RestrainedTrans(cfg: Config, x: string, w: World, v: World, u: World)
    requires Kin(x, w, v) && Restrained(cfg, x, w, v) && Restrained(cfg, x, v, u)
    ensures Restrained(cfg, x, w, u)
  {
    hide Served, Kin, TemplateAt, Resolve, Release, NsName, ObjsGrown, NsGrown;
    KinBackend(x, w, v);
    ObjsGrownTrans(cfg, x, w, v, u);
    NsGrownTrans(x, w, v, u);
  }

  lemma CleanRestrained(cfg: Config, x: string, w: World, u: World, l: Local, v: World)
    requires Kin(x, w, u) && u.objs == w.objs && u.releases == w.releases && u.namespaces == w.namespaces
    requires v == Step(cfg, x, u, l, NoFault).w
    requires l.pc.Idle? || (Clean(cfg, x, u, l) && (l.pc.AddFinalizer? || l.pc.Refetch? || Creating(l.pc)))
    ensures Restrained(cfg, x, w, v)
  {
    hide Kin, Clean, Step, Served, TemplateAt, Resolve, Release, NsName, ObjsGrown, NsGrown;
    KinBackend(x, w, u);
    CleanInstalls(cfg, x, u, l);
    if !Served(x, w) { CleanSparesRoutes(cfg, x, u, l); }
    CleanGrows(cfg, x, u, l);
    SameGrown(cfg, x, w, u);
    ObjsGrownTrans(cfg, x, w, u, v);
    CleanNsGrows(cfg, x, u, l);
    NsKeptGrown(x, w, u);
    NsGrownTrans(x, w, u, v);
  }

  lemma WantedNeeded(cfg: Config, x: string, w: World, l: Local)
    requires OnTrack(cfg, x, w, l) && l.pc.PutStage? && !OnRoute(l.pc.stage)
    ensures Needed(x, l.env.spec, l.pc.stage)
  {
  }
}

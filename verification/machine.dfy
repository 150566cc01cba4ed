/** One reconcile pass as a state machine over API calls: between two calls nothing but local
    bookkeeping happens, so a pass is a sequence of `Request`, reply, `Next`. */
module Machine {
  import opened Model
  import opened Text
  import opened Discovery
  import opened Store

  datatype Config = Config(helm: bool, operatorService: string, operatorNamespace: string)

  /** The objects of the create path, in the order in which they are ensured. */
  datatype Stage = SaStage | RoleStage | BindingStage | PolicyStage | GrantStage | AppStage | AdminStage

  /** Which teardown a pass is in. */
  datatype Path = Deleting | Expiring

  datatype Outcome = Activated | StepFailed | Waiting

  datatype PassResult = PassResult(requeueAfter: Time, error: bool)

  datatype Pc =
    | Idle(last: PassResult)                                    // next: fetch the resource
    | AddFinalizer | Refetch
    | GetNs | PutNs(seenNs: Option<Namespace>)
    | GetStage(stage: Stage) | PutStage(stage: Stage, seen: Option<Obj>)
    | ResolveFirst | ResolveAgain                               // template reads
    | Check(todo: seq<Component>, done: seq<ComponentStatus>)
    | Deploy(todo: seq<Component>, done: seq<ComponentStatus>)
    | List | AskPrimary(matches: seq<Service>)
    | Save(outcome: Outcome)
    | GetAdmin | DelAdmin
    | GetRoute(path: Path) | DelRoute(path: Path)
    | CheckTracked(path: Path, i: nat) | DelTracked(path: Path, i: nat)
    | CheckLegacy(path: Path) | DelLegacy(path: Path)
    | FindNs(path: Path) | DelNs(path: Path)
    | DropFinalizer
    | SaveExpired(cleaned: bool)

  /** A worker's state: where it is, its private copy of the resource, the backend service of the
      route, and three history variables of the pass - the components deployed, the services listed,
      and the expiry that the resource came with. */
  datatype Local = Local(pc: Pc, env: EphemeralEnv, service: string,
                         resolved: seq<Component>, listed: seq<Service>, found: Option<Time>)

  // ---------------------------------------------------------------- desired objects

  function StageKey(x: string, spec: Spec, active: string, st: Stage): Key {
    match st
    case SaStage => Key(ServiceAccount, if active == "" then NsName(x) else active, "developer-access")
    case RoleStage => Key(Role, if active == "" then NsName(x) else active, "ns-admin")
    case BindingStage => Key(RoleBinding, if active == "" then NsName(x) else active, "developer-access-ns-admin")
    case PolicyStage => Key(NetworkPolicy, active, "deny-all")
    case GrantStage => Key(ReferenceGrant, active, GrantName(x))
    case AppStage => Key(HTTPRoute, spec.gateway.namespace, RouteName(x))
    case AdminStage => Key(HTTPRoute, spec.gateway.namespace, AdminRouteName(x))
  }

  function StageLabels(x: string, st: Stage): map<string, string> {
    if st.AdminStage? then AdminLabels(x) else OwnerLabels(x)
  }

  function RoutePort(spec: Spec): int {
    if spec.servicePort.Some? then spec.servicePort.value else spec.gateway.targetPort
  }

  function Hostname(spec: Spec): string { spec.gateway.domainPrefix + "." + BASE_DOMAIN }
  function AdminHostname(spec: Spec): string { "admin." + spec.gateway.domainPrefix + "." + BASE_DOMAIN }

  /** The mutation applied to an object that was found (or not) under the stage's key. The service
      account and an existing network policy keep whatever content they have. */
  function StageObj(cfg: Config, x: string, spec: Spec, active: string, service: string, st: Stage, was: Option<Obj>): Obj {
    var gw := spec.gateway;
    var labels := if was.Some? then was.value.labels + StageLabels(x, st) else StageLabels(x, st);
    Obj(labels,
        match st
        case SaStage => if was.Some? then was.value.body else Bare
        case RoleStage => FullAccess
        case BindingStage => BindsDeveloper(if active == "" then NsName(x) else active)
        case PolicyStage => if was.Some? then was.value.body else DenyAll
        case GrantStage => GrantFrom(gw.namespace)
        case AppStage => RouteTo(gw.name, gw.namespace, Hostname(spec), service, active, RoutePort(spec))
        case AdminStage => RouteTo(gw.name, gw.namespace, AdminHostname(spec), cfg.operatorService, cfg.operatorNamespace, 8080))
  }

  function Release(x: string, active: string, c: Component): ReleaseKey {
    ReleaseKey(active, "env-" + x + "-" + Sanitize(c.name))
  }

  function LegacyRelease(x: string, active: string): ReleaseKey {
    ReleaseKey(active, "env-" + x)
  }

  // ---------------------------------------------------------------- the next call

  function Request(cfg: Config, x: string, l: Local): Call {
    var active := l.env.status.activeNamespace;
    var gwNs := l.env.spec.gateway.namespace;
    match l.pc
    case Idle(_) => GetEnv(x)
    case AddFinalizer => UpdateEnv(x, l.env)
    case Refetch => GetEnv(x)
    case GetNs => GetNamespace(NsName(x))
    case PutNs(None) => CreateNamespace(NsName(x), OwnerLabels(x))
    case PutNs(Some(ns)) => UpdateNamespace(NsName(x), ns, ns.labels + OwnerLabels(x))
    case GetStage(st) => GetObj(StageKey(x, l.env.spec, active, st))
    case PutStage(st, None) => CreateObj(StageKey(x, l.env.spec, active, st), StageObj(cfg, x, l.env.spec, active, l.service, st, None))
    case PutStage(st, Some(o)) => UpdateObj(StageKey(x, l.env.spec, active, st), o, StageObj(cfg, x, l.env.spec, active, l.service, st, Some(o)))
    case ResolveFirst => TemplateRequest(l.env)
    case ResolveAgain => TemplateRequest(l.env)
    case Check(todo, done) => CheckInstalled(if |done| < |todo| then Release(x, active, todo[|done|]) else LegacyRelease(x, active))
    case Deploy(todo, done) => Install(if |done| < |todo| then Release(x, active, todo[|done|]) else LegacyRelease(x, active))
    case List => ListServices(active)
    case AskPrimary(_) => TemplateRequest(l.env)
    case Save(_) => UpdateStatus(x, l.env)
    case GetAdmin => GetObj(Key(HTTPRoute, gwNs, AdminRouteName(x)))
    case DelAdmin => DeleteObj(Key(HTTPRoute, gwNs, AdminRouteName(x)))
    case GetRoute(_) => GetObj(Key(HTTPRoute, gwNs, RouteName(x)))
    case DelRoute(_) => DeleteObj(Key(HTTPRoute, gwNs, RouteName(x)))
    case CheckTracked(_, i) => CheckInstalled(ReleaseKey(active, TrackedName(x, l.env, i)))
    case DelTracked(_, i) => Uninstall(ReleaseKey(active, TrackedName(x, l.env, i)))
    case CheckLegacy(_) => CheckInstalled(LegacyRelease(x, active))
    case DelLegacy(_) => Uninstall(LegacyRelease(x, active))
    case FindNs(_) => GetNamespace(NsName(x))
    case DelNs(_) => DeleteNamespace(NsName(x))
    case DropFinalizer => UpdateEnv(x, l.env)
    case SaveExpired(_) => UpdateStatus(x, l.env)
  }

  function TemplateRequest(env: EphemeralEnv): Call {
    match env.spec.templateRef
    case Some(t) => GetTemplate(if t.namespace == "" then env.namespace else t.namespace, t.name)
    case None => GetTemplate(env.namespace, "")
  }

  function TrackedName(x: string, env: EphemeralEnv, i: nat): string {
    if i < |env.status.components| then env.status.components[i].releaseName else LegacyRelease(x, "").name
  }

  // ---------------------------------------------------------------- local steps

  function SetStatus(l: Local, s: Status): Local { l.(env := l.env.(status := s)) }

  function Finish(l: Local, requeueAfter: Time, error: bool): Local {
    l.(pc := Idle(PassResult(requeueAfter, error)))
  }

  function RequeueAt(expiration: Time, now: Time): Time {
    if expiration - now < 0 then 1 else expiration - now
  }

  /** After the first read: deletion, finalizer, or straight on. */
  function Fetched(l: Local, env: EphemeralEnv, now: Time): Local {
    var l := l.(env := env);
    if env.deleting then
      if FINALIZER in env.finalizers then l.(pc := GetAdmin) else Finish(l, 0, false)
    else if FINALIZER !in env.finalizers then
      l.(pc := AddFinalizer, env := env.(finalizers := env.finalizers + {FINALIZER}))
    else Begin(l, env, now)
  }

  function Stamped(env: EphemeralEnv): EphemeralEnv {
    var s := env.status;
    env.(status := s.(phase := if s.phase == Unset then Pending else s.phase,
                      expirationTime := if s.expirationTime.None? then Some(CalculateExpirationTime(env)) else s.expirationTime))
  }

  /** Stamp phase and expiry, then either tear down or build up. */
  function Begin(l: Local, env: EphemeralEnv, now: Time): Local {
    var l := l.(service := "", resolved := [], listed := [], found := env.status.expirationTime);
    var stamped := Stamped(env);
    if IsExpired(stamped, now) then
      var s := SetCondition(stamped.status.(phase := Expired, message := ExpiredMessage), EnvironmentExpired, true, now);
      l.(pc := GetRoute(Expiring), env := stamped.(status := s))
    else l.(pc := GetNs, env := stamped)
  }

  function FailStep(l: Local, step: CreateStep): Local {
    SetStatus(l, l.env.status.(phase := Failed, message := StepMessage(step))).(pc := Save(StepFailed))
  }

  function FailHelm(l: Local, now: Time): Local {
    var s := l.env.status.(phase := Failed, message := HelmMessage);
    SetStatus(l, SetCondition(s, HelmDeployed, false, now)).(pc := Save(StepFailed))
  }

  function NsEnsured(x: string, l: Local, now: Time): Local {
    SetStatus(l, SetCondition(l.env.status.(activeNamespace := NsName(x)), NamespaceReady, true, now)).(pc := GetStage(SaStage))
  }

  function StageStep(st: Stage): CreateStep {
    match st
    case PolicyStage => PolicyStep
    case GrantStage => GrantStep
    case AppStage => RouteStep
    case _ => RbacStep
  }

  /** What a stage writes into the status once its object is in place. */
  function StageStatus(s: Status, spec: Spec, st: Stage, now: Time): Status {
    match st
    case PolicyStage => SetCondition(s, NetworkPolicyApplied, true, now)
    case AppStage => SetCondition(s.(accessURL := "https://" + Hostname(spec)), HTTPRouteReady, true, now)
    case AdminStage => s.(adminURL := "https://" + AdminHostname(spec))
    case _ => s
  }

  function StageEnsured(cfg: Config, l: Local, st: Stage, now: Time): Local {
    var l := SetStatus(l, StageStatus(l.env.status, l.env.spec, st, now));
    match st
    case SaStage => l.(pc := GetStage(RoleStage))
    case RoleStage => l.(pc := GetStage(BindingStage))
    case BindingStage => if IsolationEnabled(l.env.spec) then l.(pc := GetStage(PolicyStage)) else AfterPolicy(cfg, l, now)
    case PolicyStage => AfterPolicy(cfg, l, now)
    case GrantStage => AfterGrant(cfg, l, now)
    case AppStage => if cfg.operatorService != "" && cfg.operatorNamespace != "" then l.(pc := GetStage(AdminStage)) else AfterRoutes(cfg, l, now)
    case AdminStage => AfterRoutes(cfg, l, now)
  }

  function StageFailed(cfg: Config, l: Local, st: Stage, now: Time): Local {
    // the dashboard route is optional
    if st.AdminStage? then AfterRoutes(cfg, l, now) else FailStep(l, StageStep(st))
  }

  function AfterPolicy(cfg: Config, l: Local, now: Time): Local {
    if l.env.spec.gateway.namespace != l.env.status.activeNamespace then l.(pc := GetStage(GrantStage)) else AfterGrant(cfg, l, now)
  }

  function AfterGrant(cfg: Config, l: Local, now: Time): Local {
    if l.env.spec.servicePort.Some? then StartHelm(cfg, l, now)
    else l.(pc := GetStage(AppStage), service := l.env.spec.gateway.serviceName)
  }

  function AfterRoutes(cfg: Config, l: Local, now: Time): Local {
    if l.env.spec.servicePort.None? then StartHelm(cfg, l, now) else Activate(l, now)
  }

  function Activate(l: Local, now: Time): Local {
    SetStatus(l, l.env.status.(phase := Active, message := ActiveMessage, lastReconcile := Some(now))).(pc := Save(Activated))
  }

  function StartHelm(cfg: Config, l: Local, now: Time): Local {
    if !cfg.helm then AfterHelm(l, now)
    else if ReadsTemplate(l.env.spec) then l.(pc := ResolveFirst)
    else ResolvedFirst(l, Resolve(l.env.spec, None), now)
  }

  /** Nothing to deploy skips Helm; otherwise the list is resolved a second time for the deployment. */
  function ResolvedFirst(l: Local, cs: seq<Component>, now: Time): Local {
    if cs == [] then AfterHelm(l, now)
    else if ReadsTemplate(l.env.spec) then l.(pc := ResolveAgain)
    else ResolvedAgain(l, Resolve(l.env.spec, None), now)
  }

  function ResolvedAgain(l: Local, cs: seq<Component>, now: Time): Local {
    if cs == [] then FailHelm(l, now) else l.(pc := Check(cs, []), resolved := cs)
  }

  function Deployed(l: Local, todo: seq<Component>, done: seq<ComponentStatus>, now: Time): Local {
    if |done| < |todo| then l.(pc := Check(todo, done))
    else AfterHelm(SetStatus(l, SetCondition(l.env.status.(components := done), HelmDeployed, true, now)), now)
  }

  function AfterHelm(l: Local, now: Time): Local {
    if l.env.spec.servicePort.Some? then l.(pc := List) else Activate(l, now)
  }

  function Wait(l: Local): Local {
    SetStatus(l, l.env.status.(message := WaitingMessage)).(pc := Save(Waiting))
  }

  function Listed(l: Local, services: seq<Service>): Local {
    var l := l.(listed := services);
    var matches := Matching(services, RoutePort(l.env.spec));
    if |matches| == 0 then Wait(l)
    else if |matches| == 1 then l.(pc := GetStage(AppStage), service := matches[0].name)
    else if PrimaryReadsTemplate(l.env.spec) then l.(pc := AskPrimary(matches))
    else Chosen(l, matches, None)
  }

  function Chosen(l: Local, matches: seq<Service>, template: Option<seq<Component>>): Local {
    if matches == [] then Wait(l)
    else l.(pc := GetStage(AppStage), service := Choose(matches, PrimaryName(l.env.spec, template)))
  }

  function TemplateOf(r: Reply): Option<seq<Component>> {
    if r.ATemplate? then Some(r.components) else None
  }

  function NextTracked(cs: seq<ComponentStatus>, i: nat): nat
    decreases |cs| - i
  {
    if i < |cs| && cs[i].releaseName == "" then NextTracked(cs, i + 1) else i
  }

  function TrackedFrom(l: Local, p: Path, i: nat): Local {
    var j := NextTracked(l.env.status.components, i);
    if j < |l.env.status.components| then l.(pc := CheckTracked(p, j)) else l.(pc := FindNs(p))
  }

  function UninstallFrom(cfg: Config, l: Local, p: Path): Local {
    if !cfg.helm then l.(pc := FindNs(p))
    else if l.env.status.components != [] then TrackedFrom(l, p, 0)
    else l.(pc := CheckLegacy(p))
  }

  function NsCleaned(l: Local, p: Path, now: Time): Local {
    match p
    case Deleting => l.(pc := DropFinalizer, env := l.env.(finalizers := l.env.finalizers - {FINALIZER}))
    case Expiring => SetStatus(l, l.env.status.(lastReconcile := Some(now))).(pc := SaveExpired(true))
  }

  function NsNotCleaned(l: Local, p: Path): Local {
    match p
    case Deleting => Finish(l, 5, true)
    case Expiring => SetStatus(l, l.env.status.(message := CleanupFailedMessage)).(pc := SaveExpired(false))
  }

  // ---------------------------------------------------------------- reacting to a reply

  function OnNsRead(x: string, l: Local, r: Reply, now: Time): Local {
    if r.NotFound? then l.(pc := PutNs(None))
    else if !r.ANamespace? then FailStep(l, NamespaceStep)
    else if r.seenNs.labels + OwnerLabels(x) == r.seenNs.labels then NsEnsured(x, l, now)
    else l.(pc := PutNs(Some(r.seenNs)))
  }

  /** Create-or-update writes only what the mutation changes. */
  function OnStageRead(cfg: Config, x: string, l: Local, st: Stage, r: Reply, now: Time): Local {
    if r.NotFound? then l.(pc := PutStage(st, None))
    else if !r.AnObj? then StageFailed(cfg, l, st, now)
    else if StageObj(cfg, x, l.env.spec, l.env.status.activeNamespace, l.service, st, Some(r.seenObj)) == r.seenObj then StageEnsured(cfg, l, st, now)
    else l.(pc := PutStage(st, Some(r.seenObj)))
  }

  function OnStageWritten(cfg: Config, l: Local, st: Stage, r: Reply, now: Time): Local {
    if r.Done? then StageEnsured(cfg, l, st, now) else StageFailed(cfg, l, st, now)
  }

  function OnChecked(x: string, l: Local, todo: seq<Component>, done: seq<ComponentStatus>, r: Reply, now: Time): Local {
    if !r.Presence? || |done| >= |todo| then FailHelm(l, now)
    else
      var c := todo[|done|];
      if r.present then Deployed(l, todo, done + [ComponentStatus(c.name, Release(x, "", c).name, AlreadyInstalled)], now)
      else if !c.valuesParse then FailHelm(l, now)
      else l.(pc := Deploy(todo, done))
  }

  function OnInstalled(x: string, l: Local, todo: seq<Component>, done: seq<ComponentStatus>, r: Reply, now: Time): Local {
    if !r.Done? || |done| >= |todo| then FailHelm(l, now)
    else
      var c := todo[|done|];
      var name := Release(x, "", c).name;
      var l := if c.primary then SetStatus(l, l.env.status.(helmRelease := name)) else l;
      Deployed(l, todo, done + [ComponentStatus(c.name, name, Installed(now))], now)
  }

  function OnSaved(l: Local, outcome: Outcome, r: Reply, now: Time): Local {
    match outcome
    case StepFailed => Finish(l, 0, true)
    case Waiting => Finish(l, 5, false)
    case Activated =>
      if r.Done? && l.env.status.expirationTime.Some? then Finish(l, RequeueAt(l.env.status.expirationTime.value, now), false)
      else Finish(l, 0, true)
  }

  function OnNsFound(l: Local, p: Path, r: Reply, now: Time): Local {
    if r.NotFound? || (r.ANamespace? && r.seenNs.terminating) then NsCleaned(l, p, now)
    else if r.ANamespace? then l.(pc := DelNs(p))
    else NsNotCleaned(l, p)
  }

  function OnBuilding(cfg: Config, x: string, l: Local, r: Reply, now: Time): Local {
    match l.pc
    case GetStage(st) => OnStageRead(cfg, x, l, st, r, now)
    case PutStage(st, _) => OnStageWritten(cfg, l, st, r, now)
    case ResolveFirst => ResolvedFirst(l, Resolve(l.env.spec, TemplateOf(r)), now)
    case ResolveAgain => ResolvedAgain(l, Resolve(l.env.spec, TemplateOf(r)), now)
    case Check(todo, done) => OnChecked(x, l, todo, done, r, now)
    case Deploy(todo, done) => OnInstalled(x, l, todo, done, r, now)
    case List => if r.SomeServices? then Listed(l, r.services) else Wait(l)
    case AskPrimary(matches) => Chosen(l, matches, TemplateOf(r))
    case _ => l
  }

  /** Errors of route and release clean-up are passed over; only the namespace decides. */
  function OnTearing(cfg: Config, l: Local, r: Reply, now: Time): Local {
    match l.pc
    case GetAdmin => if r.AnObj? then l.(pc := DelAdmin) else l.(pc := GetRoute(Deleting))
    case DelAdmin => l.(pc := GetRoute(Deleting))
    case GetRoute(p) => if r.AnObj? then l.(pc := DelRoute(p)) else UninstallFrom(cfg, l, p)
    case DelRoute(p) => UninstallFrom(cfg, l, p)
    case CheckTracked(p, i) => if r.Presence? && r.present then l.(pc := DelTracked(p, i)) else TrackedFrom(l, p, i + 1)
    case DelTracked(p, i) => TrackedFrom(l, p, i + 1)
    case CheckLegacy(p) => if r.Presence? && r.present then l.(pc := DelLegacy(p)) else l.(pc := FindNs(p))
    case DelLegacy(p) => l.(pc := FindNs(p))
    case FindNs(p) => OnNsFound(l, p, r, now)
    case DelNs(p) => if r.Done? || r.NotFound? then NsCleaned(l, p, now) else NsNotCleaned(l, p)
    case _ => l
  }

  function Next(cfg: Config, x: string, l: Local, r: Reply, now: Time): Local {
    match l.pc
    case Idle(_) => if r.AnEnv? then Fetched(l, r.env, now) else Finish(l, 0, !r.NotFound?)
    case AddFinalizer => if r.Done? then l.(pc := Refetch) else Finish(l, 0, true)
    case Refetch => if r.AnEnv? then Begin(l, r.env, now) else Finish(l, 0, true)
    case GetNs => OnNsRead(x, l, r, now)
    case PutNs(_) => if r.Done? then NsEnsured(x, l, now) else FailStep(l, NamespaceStep)
    case Save(outcome) => OnSaved(l, outcome, r, now)
    case DropFinalizer => Finish(l, 0, !r.Done?)
    case SaveExpired(cleaned) => if cleaned then Finish(l, 0, !r.Done?) else Finish(l, 30, true)
    case GetAdmin | DelAdmin | GetRoute(_) | DelRoute(_) | CheckTracked(_, _) | DelTracked(_, _)
       | CheckLegacy(_) | DelLegacy(_) | FindNs(_) | DelNs(_) => OnTearing(cfg, l, r, now)
    case _ => OnBuilding(cfg, x, l, r, now)
  }

  datatype Stepped = Stepped(w: World, l: Local, reply: Reply)

  /** One micro-step of a worker: its next call meets the store, and it reacts to the reply. */
  function Step(cfg: Config, x: string, w: World, l: Local, f: Fault): Stepped {
    var r := Exec(w, Request(cfg, x, l), f);
    Stepped(r.w, Next(cfg, x, l, r.reply, w.now), r.reply)
  }
}

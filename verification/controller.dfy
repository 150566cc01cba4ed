/** The reconciler as it is written: one method per step, updating its copy of the resource and the
    cluster in place. Each method is shown to follow the protocol, call by call. */
module Controller {
  import opened Model
  import opened Text
  import opened Discovery
  import opened ServiceSearch
  import opened Store
  import opened Machine
  import opened Progress
  import opened Teardown
  import opened Protocol
  import opened Pass
  import opened ClusterState

  /** The worker's state with its copy replaced. */
  function With(l: Local, e: EphemeralEnv): Local { l.(env := e) }

  /** What follows the RBAC trio, and what follows the app route. */
  function AfterAccess(cfg: Config, l: Local, now: Time): Local {
    if IsolationEnabled(l.env.spec) then l.(pc := GetStage(PolicyStage)) else AfterPolicy(cfg, l, now)
  }

  function AfterApp(cfg: Config, l: Local, now: Time): Local {
    if cfg.operatorService != "" && cfg.operatorNamespace != "" then l.(pc := GetStage(AdminStage)) else AfterRoutes(cfg, l, now)
  }

  // ---------------------------------------------------------------- continuations do not look at the pc

  lemma HelmPcIrrelevant(cfg: Config, l: Local, p: Pc, now: Time)
    ensures StartHelm(cfg, l.(pc := p), now) == StartHelm(cfg, l, now)
  {
    hide Resolve, SetCondition;
  }

  lemma StagePcIrrelevant(cfg: Config, l: Local, p: Pc, st: Stage, now: Time)
    ensures StageEnsured(cfg, l.(pc := p), st, now) == StageEnsured(cfg, l, st, now)
    ensures StageFailed(cfg, l.(pc := p), st, now) == StageFailed(cfg, l, st, now)
  {
    hide StartHelm, StageStatus, IsolationEnabled;
    var m := SetStatus(l, StageStatus(l.env.status, l.env.spec, st, now));
    HelmPcIrrelevant(cfg, l, p, now);
    HelmPcIrrelevant(cfg, m, p, now);
  }

  /** Only the route's content depends on the backend service. */
  lemma ServiceOnlyOnRoute(cfg: Config, x: string, spec: Spec, active: string, service: string, service': string, st: Stage, was: Option<Obj>)
    requires st.AppStage? ==> service == service'
    ensures StageObj(cfg, x, spec, active, service, st, was) == StageObj(cfg, x, spec, active, service', st, was)
  {
  }

  lemma ReadStage(cfg: Config, x: string, l: Local, st: Stage, r: Reply, now: Time)
    ensures Request(cfg, x, l.(pc := GetStage(st))) == GetObj(StageKey(x, l.env.spec, l.env.status.activeNamespace, st))
    ensures Next(cfg, x, l.(pc := GetStage(st)), r, now) ==
      if r.NotFound? then l.(pc := PutStage(st, None))
      else if !r.AnObj? then StageFailed(cfg, l, st, now)
      else if StageObj(cfg, x, l.env.spec, l.env.status.activeNamespace, l.service, st, Some(r.seenObj)) == r.seenObj then StageEnsured(cfg, l, st, now)
      else l.(pc := PutStage(st, Some(r.seenObj)))
  {
    hide StageEnsured, StageFailed, StageObj, StageKey;
    StagePcIrrelevant(cfg, l, GetStage(st), st, now);
  }

  lemma WriteStage(cfg: Config, x: string, l: Local, service: string, st: Stage, was: Option<Obj>, r: Reply, now: Time)
    requires st.AppStage? ==> service == l.service
    ensures var key := StageKey(x, l.env.spec, l.env.status.activeNamespace, st);
      var obj := StageObj(cfg, x, l.env.spec, l.env.status.activeNamespace, service, st, was);
      && obj == StageObj(cfg, x, l.env.spec, l.env.status.activeNamespace, l.service, st, was)
      && Request(cfg, x, l.(pc := PutStage(st, was))) == (if was.None? then CreateObj(key, obj) else UpdateObj(key, was.value, obj))
    ensures Next(cfg, x, l.(pc := PutStage(st, was)), r, now) == if r.Done? then StageEnsured(cfg, l, st, now) else StageFailed(cfg, l, st, now)
  {
    ServiceOnlyOnRoute(cfg, x, l.env.spec, l.env.status.activeNamespace, service, l.service, st, was);
    hide StageEnsured, StageFailed, StageObj, StageKey;
    StagePcIrrelevant(cfg, l, PutStage(st, was), st, now);
  }

  lemma NsRead(cfg: Config, x: string, l: Local, r: Reply, now: Time)
    ensures Request(cfg, x, l.(pc := GetNs)) == GetNamespace(NsName(x))
    ensures Next(cfg, x, l.(pc := GetNs), r, now) ==
      if r.NotFound? then l.(pc := PutNs(None))
      else if !r.ANamespace? then FailStep(l, NamespaceStep)
      else if r.seenNs.labels + OwnerLabels(x) == r.seenNs.labels then NsEnsured(x, l, now)
      else l.(pc := PutNs(Some(r.seenNs)))
  {
    hide SetCondition, NsName;
  }

  lemma NsWrite(cfg: Config, x: string, l: Local, was: Option<Namespace>, r: Reply, now: Time)
    ensures Request(cfg, x, l.(pc := PutNs(was))) ==
      if was.None? then CreateNamespace(NsName(x), OwnerLabels(x)) else UpdateNamespace(NsName(x), was.value, was.value.labels + OwnerLabels(x))
    ensures Next(cfg, x, l.(pc := PutNs(was)), r, now) == if r.Done? then NsEnsured(x, l, now) else FailStep(l, NamespaceStep)
  {
    hide SetCondition, NsName, OwnerLabels;
  }

  // ---------------------------------------------------------------- Helm

  /** Where the worker stands before and after resolving the components, the first or the second time. */
  function ResolveStart(l: Local, again: bool, now: Time): Local {
    if ReadsTemplate(l.env.spec) then l.(pc := if again then ResolveAgain else ResolveFirst)
    else ResolveEnd(l, again, Resolve(l.env.spec, None), now)
  }

  function ResolveEnd(l: Local, again: bool, cs: seq<Component>, now: Time): Local {
    if again then ResolvedAgain(l, cs, now) else ResolvedFirst(l, cs, now)
  }

  /** Between two components, and after the last. */
  function DeployPoint(l: Local, todo: seq<Component>, done: seq<ComponentStatus>, now: Time): Local {
    if |done| < |todo| then l.(pc := Check(todo, done))
    else AfterHelm(SetStatus(l, Model.SetCondition(l.env.status.(components := done), HelmDeployed, true, now)), now)
  }

  lemma ReadTemplate(cfg: Config, x: string, l: Local, again: bool, r: Reply, now: Time)
    ensures var p := if again then ResolveAgain else ResolveFirst;
      Request(cfg, x, l.(pc := p)) == TemplateRequest(l.env)
      && Next(cfg, x, l.(pc := p), r, now) == ResolveEnd(l, again, Resolve(l.env.spec, TemplateOf(r)), now)
  {
    hide Resolve, SetCondition, TemplateOf;
  }

  lemma CheckRelease(cfg: Config, x: string, l: Local, todo: seq<Component>, done: seq<ComponentStatus>, r: Reply, now: Time)
    requires |done| < |todo|
    ensures var c := todo[|done|]; var here := l.(pc := Check(todo, done));
      && Request(cfg, x, here) == CheckInstalled(Release(x, l.env.status.activeNamespace, c))
      && Next(cfg, x, here, r, now) ==
           if !r.Presence? then FailHelm(l, now)
           else if r.present then Deployed(l, todo, done + [ComponentStatus(c.name, Release(x, "", c).name, AlreadyInstalled)], now)
           else if !c.valuesParse then FailHelm(l, now)
           else l.(pc := Deploy(todo, done))
  {
    hide SetCondition, Release, Sanitize;
  }

  lemma InstallRelease(cfg: Config, x: string, l: Local, todo: seq<Component>, done: seq<ComponentStatus>, r: Reply, now: Time)
    requires |done| < |todo|
    ensures var c := todo[|done|]; var here := l.(pc := Deploy(todo, done)); var name := Release(x, "", c).name;
      && Request(cfg, x, here) == Install(Release(x, l.env.status.activeNamespace, c))
      && Next(cfg, x, here, r, now) ==
           if !r.Done? then FailHelm(l, now)
           else Deployed(if c.primary then SetStatus(l, l.env.status.(helmRelease := name)) else l, todo, done + [ComponentStatus(c.name, name, Installed(now))], now)
  {
    hide SetCondition, Release, Sanitize;
  }

  // ---------------------------------------------------------------- discovery

  lemma ListReply(w: World, n: string, f: Fault)
    ensures var r := Exec(w, ListServices(n), f).reply; if f.NoFault? then r == SomeServices(ServicesIn(w, n)) else !r.SomeServices?
  {
  }

  /** Where the worker stands once several services match. */
  function AskStart(l: Local, matches: seq<Service>): Local {
    if PrimaryReadsTemplate(l.env.spec) then l.(pc := AskPrimary(matches)) else Chosen(l, matches, None)
  }

  lemma ListServicesCall(cfg: Config, x: string, l: Local, r: Reply, now: Time)
    ensures Request(cfg, x, l.(pc := List)) == ListServices(l.env.status.activeNamespace)
    ensures Next(cfg, x, l.(pc := List), r, now) ==
      if !r.SomeServices? then Wait(l)
      else
        var l' := l.(listed := r.services); var matches := Matching(r.services, RoutePort(l.env.spec));
        if matches == [] then Wait(l') else if |matches| == 1 then l'.(pc := GetStage(AppStage), service := matches[0].name) else AskStart(l', matches)
  {
    hide Matching, Choose, PrimaryName, PrimaryReadsTemplate;
  }

  lemma AskCall(cfg: Config, x: string, l: Local, matches: seq<Service>, r: Reply, now: Time)
    ensures Request(cfg, x, l.(pc := AskPrimary(matches))) == TemplateRequest(l.env)
    ensures Next(cfg, x, l.(pc := AskPrimary(matches)), r, now) == Chosen(l, matches, TemplateOf(r))
  {
    hide Choose, PrimaryName;
  }

  // ---------------------------------------------------------------- ends and teardown

  lemma SaveCall(cfg: Config, x: string, l: Local, outcome: Outcome, r: Reply, now: Time)
    ensures Request(cfg, x, l.(pc := Save(outcome))) == UpdateStatus(x, l.env)
    ensures Next(cfg, x, l.(pc := Save(outcome)), r, now).pc == Idle(
      match outcome
      case StepFailed => PassResult(0, true)
      case Waiting => PassResult(5, false)
      case Activated =>
        if r.Done? && l.env.status.expirationTime.Some? then PassResult(RequeueAt(l.env.status.expirationTime.value, now), false) else PassResult(0, true))
  {
  }

  lemma RouteCall(cfg: Config, x: string, l: Local, p: Path, r: Reply, now: Time)
    ensures var k := Key(HTTPRoute, l.env.spec.gateway.namespace, RouteName(x));
      && Request(cfg, x, l.(pc := GetRoute(p))) == GetObj(k) && Request(cfg, x, l.(pc := DelRoute(p))) == DeleteObj(k)
    ensures Next(cfg, x, l.(pc := GetRoute(p)), r, now) == if r.AnObj? then l.(pc := DelRoute(p)) else UninstallFrom(cfg, l, p)
    ensures Next(cfg, x, l.(pc := DelRoute(p)), r, now) == UninstallFrom(cfg, l, p)
  {
    hide NextTracked, RouteName, SetCondition;
  }

  lemma AdminCall(cfg: Config, x: string, l: Local, r: Reply, now: Time)
    ensures var k := Key(HTTPRoute, l.env.spec.gateway.namespace, AdminRouteName(x));
      && Request(cfg, x, l.(pc := GetAdmin)) == GetObj(k) && Request(cfg, x, l.(pc := DelAdmin)) == DeleteObj(k)
    ensures Next(cfg, x, l.(pc := GetAdmin), r, now) == if r.AnObj? then l.(pc := DelAdmin) else l.(pc := GetRoute(Deleting))
    ensures Next(cfg, x, l.(pc := DelAdmin), r, now) == l.(pc := GetRoute(Deleting))
  {
    hide NextTracked, AdminRouteName, SetCondition;
  }

  lemma TrackedCall(cfg: Config, x: string, l: Local, p: Path, i: nat, r: Reply, now: Time)
    requires i < |l.env.status.components|
    ensures var k := ReleaseKey(l.env.status.activeNamespace, l.env.status.components[i].releaseName);
      && Request(cfg, x, l.(pc := CheckTracked(p, i))) == CheckInstalled(k) && Request(cfg, x, l.(pc := DelTracked(p, i))) == Uninstall(k)
    ensures Next(cfg, x, l.(pc := CheckTracked(p, i)), r, now) == if r.Presence? && r.present then l.(pc := DelTracked(p, i)) else TrackedFrom(l, p, i + 1)
    ensures Next(cfg, x, l.(pc := DelTracked(p, i)), r, now) == TrackedFrom(l, p, i + 1)
  {
    hide NextTracked, SetCondition;
  }

  lemma LegacyCall(cfg: Config, x: string, l: Local, p: Path, r: Reply, now: Time)
    ensures var k := LegacyRelease(x, l.env.status.activeNamespace);
      && Request(cfg, x, l.(pc := CheckLegacy(p))) == CheckInstalled(k) && Request(cfg, x, l.(pc := DelLegacy(p))) == Uninstall(k)
    ensures Next(cfg, x, l.(pc := CheckLegacy(p)), r, now) == if r.Presence? && r.present then l.(pc := DelLegacy(p)) else l.(pc := FindNs(p))
    ensures Next(cfg, x, l.(pc := DelLegacy(p)), r, now) == l.(pc := FindNs(p))
  {
    hide NextTracked, SetCondition, LegacyRelease;
  }

  lemma NsCall(cfg: Config, x: string, l: Local, p: Path, r: Reply, now: Time)
    ensures Request(cfg, x, l.(pc := FindNs(p))) == GetNamespace(NsName(x)) && Request(cfg, x, l.(pc := DelNs(p))) == DeleteNamespace(NsName(x))
    ensures Next(cfg, x, l.(pc := FindNs(p)), r, now) ==
      if r.NotFound? || (r.ANamespace? && r.seenNs.terminating) then NsCleaned(l, p, now)
      else if r.ANamespace? then l.(pc := DelNs(p))
      else NsNotCleaned(l, p)
    ensures Next(cfg, x, l.(pc := DelNs(p)), r, now) == if r.Done? || r.NotFound? then NsCleaned(l, p, now) else NsNotCleaned(l, p)
  {
    hide NextTracked, NsName;
  }

  /** The worker at the start of a pass over this resource. */
  function Started(l: Local, e: EphemeralEnv): Local {
    l.(env := e, service := "", resolved := [], listed := [], found := e.status.expirationTime)
  }

  function MarkedExpired(e: EphemeralEnv, now: Time): EphemeralEnv {
    e.(status := Model.SetCondition(e.status.(phase := Expired, message := ExpiredMessage), EnvironmentExpired, true, now))
  }

  /** Steps 4 to 6: stamp, then tear down or build up. */
  function Starting(l: Local, e: EphemeralEnv, now: Time): Local {
    if IsExpired(Stamped(e), now) then Started(l, e).(pc := GetRoute(Expiring), env := MarkedExpired(Stamped(e), now))
    else Started(l, e).(pc := GetNs, env := Stamped(e))
  }

  lemma StartingForgets(l: Local, e: EphemeralEnv, e': EphemeralEnv, now: Time)
    ensures Starting(With(l, e), e', now) == Starting(l, e', now)
  {
  }

  lemma FetchCall(cfg: Config, x: string, l: Local, r: Reply, now: Time)
    requires l.pc.Idle?
    ensures Request(cfg, x, l) == GetEnv(x)
    ensures var m := Next(cfg, x, l, r, now);
      if !r.AnEnv? then m.pc == Idle(PassResult(0, !r.NotFound?))
      else if r.env.deleting then
        if FINALIZER in r.env.finalizers then m == With(l, r.env).(pc := GetAdmin) else m.pc == Idle(PassResult(0, false))
      else if FINALIZER !in r.env.finalizers then m == l.(pc := AddFinalizer, env := r.env.(finalizers := r.env.finalizers + {FINALIZER}))
      else m == Starting(l, r.env, now)
  {
    hide SetCondition;
  }

  lemma FinalizerCalls(cfg: Config, x: string, l: Local, r: Reply, now: Time)
    ensures Request(cfg, x, l.(pc := AddFinalizer)) == UpdateEnv(x, l.env) && Request(cfg, x, l.(pc := Refetch)) == GetEnv(x)
    ensures Next(cfg, x, l.(pc := AddFinalizer), r, now) == if r.Done? then l.(pc := Refetch) else l.(pc := Idle(PassResult(0, true)))
    ensures Next(cfg, x, l.(pc := Refetch), r, now) == if r.AnEnv? then Starting(l, r.env, now) else l.(pc := Idle(PassResult(0, true)))
    ensures Request(cfg, x, l.(pc := DropFinalizer)) == UpdateEnv(x, l.env)
    ensures Next(cfg, x, l.(pc := DropFinalizer), r, now) == l.(pc := Idle(PassResult(0, !r.Done?)))
  {
    hide SetCondition;
  }

  lemma ExpiredCall(cfg: Config, x: string, l: Local, cleaned: bool, r: Reply, now: Time)
    ensures Request(cfg, x, l.(pc := SaveExpired(cleaned))) == UpdateStatus(x, l.env)
    ensures Next(cfg, x, l.(pc := SaveExpired(cleaned)), r, now).pc == Idle(if cleaned then PassResult(0, !r.Done?) else PassResult(30, true))
  {
    hide SetCondition;
  }

  /** When nothing is to be deployed Helm is passed over; otherwise the list is resolved once more. */
  lemma HelmDecides(cfg: Config, l: Local, cs: seq<Component>, now: Time)
    ensures StartHelm(cfg, l, now) == if cfg.helm then ResolveStart(l, false, now) else AfterHelm(l, now)
    ensures ResolveEnd(l, false, cs, now) == if cs == [] then AfterHelm(l, now) else ResolveStart(l, true, now)
  {
    hide Resolve, AfterHelm, ResolvedAgain;
  }

  /** The answer to the next call, if it reads this template, by default from the given namespace. */
  function TemplateReply(cfg: Config, x: string, g: Global, fates: seq<Fate>, namespace: string, ref: TemplateRef): Reply {
    Exec(Met(cfg, x, g, fates), Call.GetTemplate(if ref.namespace == "" then namespace else ref.namespace, ref.name), NextFate(fates).fault).reply
  }

  /** The name that prefers a service: of the first primary component of the specification, else of the
      template if there is one, else the chart's. */
  ghost predicate NameOfPrimary(spec: Spec, template: Option<seq<Component>>, name: string) {
    var read := if spec.templateRef.Some? && template.Some? then template.value else [];
    forall i: nat, k: nat :: PrimaryAt(spec.components, i) && PrimaryAt(read, k) ==>
      name == if i < |spec.components| then spec.components[i].name
              else if k < |read| then read[k].name
              else if spec.helm.Some? then spec.helm.value.chart.name
              else ""
  }

  lemma NamesPrimary(spec: Spec, template: Option<seq<Component>>)
    ensures NameOfPrimary(spec, template, PrimaryName(spec, template))
  {
    hide PrimaryName, PrimaryAt;
    var read := if spec.templateRef.Some? && template.Some? then template.value else [];
    forall i: nat, k: nat | PrimaryAt(spec.components, i) && PrimaryAt(read, k)
      ensures PrimaryName(spec, template) ==
        if i < |spec.components| then spec.components[i].name
        else if k < |read| then read[k].name
        else if spec.helm.Some? then spec.helm.value.chart.name
        else ""
    {
      PrimaryNameMeans(spec, template, i, k);
    }
  }

  lemma ConditionSet(s: Status, t: ConditionType, value: bool, now: Time)
    ensures var r := Model.SetCondition(s, t, value, now);
      r == s.(conditions := r.conditions) && t in r.conditions && r.conditions[t].status == value
  {
  }

  class Reconciler {
    const cfg: Config
    const cluster: Cluster

    constructor (cluster: Cluster)
      ensures this.cluster == cluster && this.cfg == cluster.cfg
    {
      this.cluster, this.cfg := cluster, cluster.cfg;
    }

    /** Read the object under a key; create it, update it if the mutation changes it, or leave it. */
    method CreateOrUpdate(x: string, env: EnvObject, service: string, st: Stage, ghost l: Local, ghost end: Completion) returns (ok: bool, now: Time)
      requires cluster.cfg == cfg && cluster.OnCourse(x, end)
      requires cluster.Here(x) == With(l, env.Value()).(pc := GetStage(st)) && (st.AppStage? ==> l.service == service)
      modifies cluster
      ensures cluster.OnCourse(x, end)
      ensures cluster.Here(x) == if ok then StageEnsured(cfg, With(l, env.Value()), st, now) else StageFailed(cfg, With(l, env.Value()), st, now)
    {
      hide StageEnsured, StageFailed, StageObj, StageKey, Next, Request, Cluster.OnCourse, Cluster.Here;
      var active := env.status.activeNamespace;
      var key := StageKey(x, env.spec, active, st);
      ghost var here := With(l, env.Value());
      var r;
      ReadStage(cfg, x, here, st, Failure, 0);
      r, now := cluster.Do(x, GetObj(key), end);
      ReadStage(cfg, x, here, st, r, now);
      if r.NotFound? {
        WriteStage(cfg, x, here, service, st, None, Failure, 0);
        r, now := cluster.Do(x, CreateObj(key, StageObj(cfg, x, env.spec, active, service, st, None)), end);
        WriteStage(cfg, x, here, service, st, None, r, now);
        ok := r.Done?;
      } else if r.AnObj? {
        var was := r.seenObj;
        var want := StageObj(cfg, x, env.spec, active, service, st, Some(was));
        WriteStage(cfg, x, here, service, st, Some(was), Failure, 0);
        if want == was {
          ok := true;
        } else {
          r, now := cluster.Do(x, UpdateObj(key, was, want), end);
          WriteStage(cfg, x, here, service, st, Some(was), r, now);
          ok := r.Done?;
        }
      } else {
        ok := false;
      }
    }

    method CreateOrLabelNamespace(x: string, env: EnvObject, ghost l: Local, ghost end: Completion) returns (ok: bool, now: Time)
      requires cluster.cfg == cfg && cluster.OnCourse(x, end)
      requires cluster.Here(x) == With(l, env.Value()).(pc := GetNs)
      modifies cluster
      ensures cluster.OnCourse(x, end)
      ensures cluster.Here(x) == if ok then NsEnsured(x, With(l, env.Value()), now) else FailStep(With(l, env.Value()), NamespaceStep)
    {
      hide Next, Request, FailStep, NsEnsured, OwnerLabels, NsName, Cluster.OnCourse, Cluster.Here;
      var name := NsName(x);
      ghost var here := With(l, env.Value());
      NsRead(cfg, x, here, Failure, 0);
      var r;
      r, now := cluster.Do(x, GetNamespace(name), end);
      NsRead(cfg, x, here, r, now);
      if r.NotFound? {
        NsWrite(cfg, x, here, None, Failure, 0);
        r, now := cluster.Do(x, CreateNamespace(name, OwnerLabels(x)), end);
        NsWrite(cfg, x, here, None, r, now);
        ok := r.Done?;
      } else if r.ANamespace? {
        var was := r.seenNs;
        var labels := was.labels + OwnerLabels(x);
        if labels == was.labels {
          ok := true;
        } else {
          NsWrite(cfg, x, here, Some(was), Failure, 0);
          r, now := cluster.Do(x, UpdateNamespace(name, was, labels), end);
          NsWrite(cfg, x, here, Some(was), r, now);
          ok := r.Done?;
        }
      } else {
        ok := false;
      }
    }

    method EnsureNamespace(x: string, env: EnvObject, ghost l: Local, ghost end: Completion) returns (ok: bool)
      requires cluster.cfg == cfg && cluster.OnCourse(x, end)
      requires cluster.Here(x) == With(l, env.Value()).(pc := GetNs)
      modifies cluster, env`status
      ensures cluster.OnCourse(x, end)
      ensures ok ==> cluster.Here(x) == With(l, env.Value()).(pc := GetStage(SaStage))
      ensures !ok ==> env.Value() == old(env.Value()) && cluster.Here(x) == FailStep(With(l, env.Value()), NamespaceStep)
    {
      hide FailStep, SetCondition, NsName, Cluster.OnCourse, Cluster.Here;
      var now;
      ok, now := CreateOrLabelNamespace(x, env, l, end);
      if ok {
        env.status := env.status.(activeNamespace := NsName(x));
        env.SetCondition(NamespaceReady, true, now);
      }
    }

    method EnsureDeveloperAccessRBAC(x: string, env: EnvObject, ghost l: Local, ghost end: Completion) returns (ok: bool, now: Time)
      requires cluster.cfg == cfg && cluster.OnCourse(x, end)
      requires cluster.Here(x) == With(l, env.Value()).(pc := GetStage(SaStage))
      modifies cluster
      ensures cluster.OnCourse(x, end)
      ensures cluster.Here(x) == if ok then AfterAccess(cfg, With(l, env.Value()), now) else FailStep(With(l, env.Value()), RbacStep)
    {
      hide FailStep, AfterPolicy, Cluster.OnCourse, Cluster.Here;
      ok, now := CreateOrUpdate(x, env, "", SaStage, l, end);
      if !ok { return; }
      ok, now := CreateOrUpdate(x, env, "", RoleStage, l, end);
      if !ok { return; }
      ok, now := CreateOrUpdate(x, env, "", BindingStage, l, end);
    }

    method EnsureNetworkPolicy(x: string, env: EnvObject, at: Time, ghost l: Local, ghost end: Completion) returns (ok: bool, now: Time)
      requires cluster.cfg == cfg && cluster.OnCourse(x, end)
      requires cluster.Here(x) == AfterAccess(cfg, With(l, env.Value()), at)
      modifies cluster, env`status
      ensures cluster.OnCourse(x, end)
      ensures ok ==> cluster.Here(x) == AfterPolicy(cfg, With(l, env.Value()), now)
      ensures !ok ==> env.Value() == old(env.Value()) && cluster.Here(x) == FailStep(With(l, env.Value()), PolicyStep)
    {
      hide FailStep, AfterPolicy, SetCondition, Cluster.OnCourse, Cluster.Here;
      if !IsolationEnabled(env.spec) { return true, at; }
      ok, now := CreateOrUpdate(x, env, "", PolicyStage, l, end);
      if ok { env.SetCondition(NetworkPolicyApplied, true, now); }
    }

    method EnsureReferenceGrant(x: string, env: EnvObject, at: Time, ghost l: Local, ghost end: Completion) returns (ok: bool, now: Time)
      requires cluster.cfg == cfg && cluster.OnCourse(x, end)
      requires cluster.Here(x) == AfterPolicy(cfg, With(l, env.Value()), at)
      modifies cluster
      ensures cluster.OnCourse(x, end)
      ensures cluster.Here(x) == if ok then AfterGrant(cfg, With(l, env.Value()), now) else FailStep(With(l, env.Value()), GrantStep)
    {
      hide FailStep, AfterGrant, Cluster.OnCourse, Cluster.Here;
      if env.spec.gateway.namespace == env.status.activeNamespace { return true, at; }
      ok, now := CreateOrUpdate(x, env, "", GrantStage, l, end);
    }

    method EnsureHTTPRoute(x: string, env: EnvObject, service: string, ghost l: Local, ghost end: Completion) returns (ok: bool, now: Time)
      requires cluster.cfg == cfg && cluster.OnCourse(x, end)
      requires cluster.Here(x) == With(l, env.Value()).(pc := GetStage(AppStage)) && l.service == service
      modifies cluster, env`status
      ensures cluster.OnCourse(x, end)
      ensures ok ==> cluster.Here(x) == AfterApp(cfg, With(l, env.Value()), now)
      ensures !ok ==> env.Value() == old(env.Value()) && cluster.Here(x) == FailStep(With(l, env.Value()), RouteStep)
    {
      hide FailStep, AfterRoutes, SetCondition, Hostname, Cluster.OnCourse, Cluster.Here;
      ok, now := CreateOrUpdate(x, env, service, AppStage, l, end);
      if ok {
        env.status := env.status.(accessURL := "https://" + Hostname(env.spec));
        env.SetCondition(HTTPRouteReady, true, now);
      }
    }

    /** The dashboard route is optional: a failure changes nothing but the status field it would have set. */
    method EnsureAdminHTTPRoute(x: string, env: EnvObject, ghost l: Local, ghost end: Completion) returns (ok: bool, now: Time)
      requires cluster.cfg == cfg && cluster.OnCourse(x, end)
      requires cluster.Here(x) == With(l, env.Value()).(pc := GetStage(AdminStage))
      modifies cluster, env`status
      ensures cluster.OnCourse(x, end)
      ensures cluster.Here(x) == AfterRoutes(cfg, With(l, env.Value()), now)
      ensures !ok ==> env.Value() == old(env.Value())
    {
      hide FailStep, AfterRoutes, AdminHostname, Cluster.OnCourse, Cluster.Here;
      ok, now := CreateOrUpdate(x, env, "", AdminStage, l, end);
      if ok { env.status := env.status.(adminURL := "https://" + AdminHostname(env.spec)); }
    }

    // -------------------------------------------------------------- components

    /** The template the specification refers to, if it can be read. */
    method GetTemplate(x: string, env: EnvObject, ghost end: Completion) returns (template: Option<seq<Component>>, now: Time, ghost r: Reply)
      requires cluster.cfg == cfg && cluster.OnCourse(x, end) && !cluster.Here(x).pc.Idle?
      requires env.spec.templateRef.Some? && Request(cfg, x, cluster.Here(x)) == TemplateRequest(env.Value())
      modifies cluster
      ensures cluster.OnCourse(x, end)
      ensures template == TemplateOf(r) && cluster.Here(x) == Next(cfg, x, old(cluster.Here(x)), r, now)
      ensures r == TemplateReply(cfg, x, old(cluster.g), old(cluster.fates), env.namespace, env.spec.templateRef.value)
    {
      hide Next, Request, Cluster.OnCourse, Cluster.Here;
      var ref := env.spec.templateRef.value;
      var namespace := ref.namespace;
      if namespace == "" { namespace := env.namespace; }
      var reply;
      reply, now := cluster.Do(x, Call.GetTemplate(namespace, ref.name), end);
      r := reply;
      template := if reply.ATemplate? then Some(reply.components) else None;
    }

    /** Components first, then the template, then the legacy Helm field. */
    method ResolveComponents(x: string, env: EnvObject, again: bool, at: Time, ghost l: Local, ghost end: Completion) returns (cs: seq<Component>, now: Time)
      requires cluster.cfg == cfg && cluster.OnCourse(x, end)
      requires cluster.Here(x) == ResolveStart(With(l, env.Value()), again, at)
      modifies cluster
      ensures cluster.OnCourse(x, end)
      ensures cluster.Here(x) == ResolveEnd(With(l, env.Value()), again, cs, now)
      ensures exists t :: cs == Resolve(env.spec, t)
      ensures env.spec.components != [] ==> cs == env.spec.components
      ensures env.spec.components == [] ==>
        var r := if env.spec.templateRef.Some? then TemplateReply(cfg, x, old(cluster.g), old(cluster.fates), env.namespace, env.spec.templateRef.value) else NotFound;
        cs == if r.ATemplate? then r.components
              else if env.spec.helm.Some? then [Component(env.spec.helm.value.chart.name, env.spec.helm.value.chart, env.spec.helm.value.valuesParse, true)]
              else []
    {
      hide Next, Request, ResolvedFirst, ResolvedAgain, TemplateReply, Cluster.OnCourse, Cluster.Here;
      now := at;
      ghost var t: Option<seq<Component>> := None;
      if |env.spec.components| > 0 {
        assert env.spec.components == Resolve(env.spec, None);
        return env.spec.components, now;
      }
      if env.spec.templateRef.Some? {
        var template;
        ghost var r;
        ReadTemplate(cfg, x, With(l, env.Value()), again, Failure, 0);
        template, now, r := GetTemplate(x, env, end);
        ReadTemplate(cfg, x, With(l, env.Value()), again, r, now);
        t := TemplateOf(r);
        if template.Some? {
          assert template.value == Resolve(env.spec, t);
          return template.value, now;
        }
      }
      cs := [];
      if env.spec.helm.Some? {
        var helm := env.spec.helm.value;
        cs := [Component(helm.chart.name, helm.chart, helm.valuesParse, true)];
      }
      assert cs == Resolve(env.spec, t);
    }

    /** Deploy one component unless its release is on record, and report on it. */
    method DeployComponent(x: string, env: EnvObject, comp: Component, ghost l: Local, ghost todo: seq<Component>, ghost done: seq<ComponentStatus>, ghost end: Completion)
      returns (ok: bool, note: ComponentStatus, now: Time)
      requires cluster.cfg == cfg && cluster.OnCourse(x, end)
      requires |done| < |todo| && comp == todo[|done|] && cluster.Here(x) == With(l, env.Value()).(pc := Check(todo, done))
      modifies cluster, env`status
      ensures cluster.OnCourse(x, end)
      ensures cluster.Here(x) == if ok then Deployed(With(l, env.Value()), todo, done + [note], now) else FailHelm(With(l, env.Value()), now)
    {
      hide Next, Request, Deployed, FailHelm, Sanitize, Cluster.OnCourse, Cluster.Here;
      ghost var here := With(l, env.Value());
      var fragment := SanitizeName(comp.name);
      var releaseName := "env-" + x + "-" + fragment;
      var release := ReleaseKey(env.status.activeNamespace, releaseName);
      note := ComponentStatus(comp.name, releaseName, AlreadyInstalled);
      CheckRelease(cfg, x, here, todo, done, Failure, 0);
      var r;
      r, now := cluster.Do(x, CheckInstalled(release), end);
      CheckRelease(cfg, x, here, todo, done, r, now);
      if !r.Presence? { return false, note, now; }
      if r.present { return true, note, now; }
      if !comp.valuesParse { return false, note, now; }
      InstallRelease(cfg, x, here, todo, done, Failure, 0);
      r, now := cluster.Do(x, Install(release), end);
      InstallRelease(cfg, x, here, todo, done, r, now);
      if !r.Done? { return false, note, now; }
      note := note.(note := Installed(now));
      if comp.primary { env.status := env.status.(helmRelease := releaseName); }
      return true, note, now;
    }

    /** Resolve the list once more and deploy it in order, reporting only when all of it is deployed. */
    method EnsureHelmRelease(x: string, env: EnvObject, at: Time, ghost l: Local, ghost end: Completion) returns (ok: bool, now: Time, ghost cs: seq<Component>)
      requires cluster.cfg == cfg && cluster.OnCourse(x, end)
      requires cluster.Here(x) == ResolveStart(With(l, env.Value()), true, at)
      modifies cluster, env`status
      ensures cluster.OnCourse(x, end)
      ensures ok ==> cluster.Here(x) == AfterHelm(With(l, env.Value()).(resolved := cs), now)
      ensures !ok ==> cluster.Here(x) == FailHelm(With(l, env.Value()).(resolved := cs), now)
    {
      hide Next, Request, FailHelm, AfterHelm, SetCondition, Resolve, Cluster.OnCourse, Cluster.Here;
      var components;
      components, now := ResolveComponents(x, env, true, at, l, end);
      cs := if components == [] then l.resolved else components;
      if |components| == 0 { return false, now, cs; }
      var statuses := [];
      ghost var l' := l.(resolved := components);
      for i := 0 to |components|
        invariant cluster.OnCourse(x, end) && |statuses| == i
        invariant cluster.Here(x) == DeployPoint(With(l', env.Value()), components, statuses, now)
      {
        var note;
        ok, note, now := DeployComponent(x, env, components[i], l', components, statuses, end);
        if !ok { return false, now, cs; }
        statuses := statuses + [note];
      }
      env.status := env.status.(components := statuses);
      env.SetCondition(HelmDeployed, true, now);
      ok := true;
    }

    // -------------------------------------------------------------- discovery

    /** The name of the primary component: from the specification, else the template, else the Helm chart. */
    method GetPrimaryComponentName(x: string, env: EnvObject, ghost matches: seq<Service>, ghost l: Local, ghost end: Completion)
      returns (name: string, ghost template: Option<seq<Component>>)
      requires cluster.cfg == cfg && cluster.OnCourse(x, end)
      requires cluster.Here(x) == AskStart(With(l, env.Value()), matches)
      requires matches != []
      modifies cluster
      ensures cluster.OnCourse(x, end)
      ensures name == PrimaryName(env.spec, template) && cluster.Here(x) == Chosen(With(l, env.Value()), matches, template)
      ensures env.spec.templateRef.Some? && (forall c :: c in env.spec.components ==> !c.primary) ==>
        template == TemplateOf(TemplateReply(cfg, x, old(cluster.g), old(cluster.fates), env.namespace, env.spec.templateRef.value))
      ensures NameOfPrimary(env.spec, template, name)
    {
      hide Next, Request, Chosen, FirstPrimary, TemplateReply, NameOfPrimary, Cluster.OnCourse, Cluster.Here;
      template := None;
      var own := FindPrimary(env.spec.components);
      FirstPrimaryFound(env.spec.components);
      NamesPrimary(env.spec, None);
      if own.Some? {
        assert Chosen(With(l, env.Value()), matches, None) == Chosen(With(l, env.Value()), matches, template);
        return own.value, template;
      }
      if env.spec.templateRef.Some? {
        var read;
        ghost var r;
        var now;
        AskCall(cfg, x, With(l, env.Value()), matches, Failure, 0);
        read, now, r := GetTemplate(x, env, end);
        AskCall(cfg, x, With(l, env.Value()), matches, r, now);
        template := TemplateOf(r);
        NamesPrimary(env.spec, template);
        if read.Some? {
          var theirs := FindPrimary(read.value);
          if theirs.Some? { return theirs.value, template; }
        }
      }
      if env.spec.helm.Some? { return env.spec.helm.value.chart.name, template; }
      name := "";
    }

    /** The service in the environment's namespace that exposes the port. */
    method DiscoverService(x: string, env: EnvObject, port: int, ghost l: Local, ghost end: Completion)
      returns (found: bool, name: string, ghost services: seq<Service>)
      requires cluster.cfg == cfg && cluster.OnCourse(x, end)
      requires cluster.Here(x) == With(l, env.Value()).(pc := List) && port == RoutePort(env.spec)
      modifies cluster
      ensures cluster.OnCourse(x, end)
      ensures found ==> cluster.Here(x) == With(l, env.Value()).(pc := GetStage(AppStage), service := name, listed := services)
      ensures found ==> exists template :: Discover(services, port, PrimaryName(env.spec, template)) == Some(name)
      ensures !found ==> cluster.Here(x) == Wait(With(l, env.Value()).(listed := services))
      ensures !found ==> !NextFate(old(cluster.fates)).fault.NoFault? || Matching(services, port) == []
      ensures found || NextFate(old(cluster.fates)).fault.NoFault? ==>
        NextFate(old(cluster.fates)).fault.NoFault? && services == ServicesIn(Met(cfg, x, old(cluster.g), old(cluster.fates)), env.status.activeNamespace)
    {
      hide Next, Request, Wait, Matching, Choose, PrimaryName, AskStart, Run, Cluster.OnCourse, Cluster.Here;
      name, services := "", l.listed;
      ListServicesCall(cfg, x, With(l, env.Value()), Failure, 0);
      var r, now := cluster.Do(x, ListServices(env.status.activeNamespace), end);
      ListServicesCall(cfg, x, With(l, env.Value()), r, now);
      ListReply(Met(cfg, x, old(cluster.g), old(cluster.fates)), env.status.activeNamespace, NextFate(old(cluster.fates)).fault);
      hide Exec;
      if !r.SomeServices? { return false, name, services; }
      services := r.services;
      var matching := FilterServices(r.services, port);
      if |matching| == 0 { return false, name, services; }
      if |matching| == 1 {
        assert Discover(services, port, PrimaryName(env.spec, None)) == Some(matching[0].name);
        return true, matching[0].name, services;
      }
      var component;
      ghost var template;
      component, template := GetPrimaryComponentName(x, env, matching, l.(listed := services), end);
      name := ChooseService(matching, component);
      assert Discover(services, port, PrimaryName(env.spec, template)) == Some(name);
      found := true;
    }

    // -------------------------------------------------------------- failed steps

    /** A failed step stores phase Failed with its text; whether that succeeds or not, the error stands. */
    method ReconcileStepOnError(x: string, env: EnvObject, step: CreateStep, ghost l: Local, ghost end: Completion) returns (result: PassResult)
      requires cluster.cfg == cfg && cluster.OnCourse(x, end)
      requires cluster.Here(x) == FailStep(With(l, env.Value()), step)
      modifies cluster, env`status
      ensures cluster.Finished(x, end, result) && result == PassResult(0, true)
      ensures env.status == old(env.status).(phase := Failed, message := StepMessage(step))
    {
      hide Next, Request, Cluster.OnCourse, Cluster.Here;
      env.status := env.status.(phase := Failed, message := StepMessage(step));
      SaveCall(cfg, x, With(l, env.Value()), StepFailed, Failure, 0);
      var r, now := cluster.Do(x, UpdateStatus(x, env.Value()), end);
      SaveCall(cfg, x, With(l, env.Value()), StepFailed, r, now);
      cluster.Ended(x, end);
      result := PassResult(0, true);
    }

    method ReconcileHelmFailed(x: string, env: EnvObject, at: Time, ghost l: Local, ghost end: Completion) returns (result: PassResult)
      requires cluster.cfg == cfg && cluster.OnCourse(x, end)
      requires cluster.Here(x) == FailHelm(With(l, env.Value()), at)
      modifies cluster, env`status
      ensures cluster.Finished(x, end, result) && result == PassResult(0, true)
      ensures env.status == old(env.status).(phase := Failed, message := HelmMessage, conditions := env.status.conditions)
      ensures HelmDeployed in env.status.conditions && !env.status.conditions[HelmDeployed].status
    {
      hide Next, Request, Model.SetCondition, Cluster.OnCourse, Cluster.Here;
      env.status := env.status.(phase := Failed, message := HelmMessage);
      env.SetCondition(HelmDeployed, false, at);
      ConditionSet(old(env.status).(phase := Failed, message := HelmMessage), HelmDeployed, false, at);
      SaveCall(cfg, x, With(l, env.Value()), StepFailed, Failure, 0);
      var r, now := cluster.Do(x, UpdateStatus(x, env.Value()), end);
      SaveCall(cfg, x, With(l, env.Value()), StepFailed, r, now);
      cluster.Ended(x, end);
      result := PassResult(0, true);
    }

    // -------------------------------------------------------------- clean-up

    method CleanupAdminHTTPRoute(x: string, env: EnvObject, ghost l: Local, ghost end: Completion)
      requires cluster.cfg == cfg && cluster.OnCourse(x, end)
      requires cluster.Here(x) == With(l, env.Value()).(pc := GetAdmin)
      modifies cluster
      ensures cluster.OnCourse(x, end)
      ensures cluster.Here(x) == With(l, env.Value()).(pc := GetRoute(Deleting))
    {
      hide Next, Request, Cluster.OnCourse, Cluster.Here;
      var key := Key(HTTPRoute, env.spec.gateway.namespace, AdminRouteName(x));
      AdminCall(cfg, x, With(l, env.Value()), Failure, 0);
      var r, now := cluster.Do(x, GetObj(key), end);
      AdminCall(cfg, x, With(l, env.Value()), r, now);
      if r.AnObj? {
        r, now := cluster.Do(x, DeleteObj(key), end);
        AdminCall(cfg, x, With(l, env.Value()), r, now);
      }
    }

    method CleanupHTTPRoute(x: string, env: EnvObject, path: Path, ghost l: Local, ghost end: Completion)
      requires cluster.cfg == cfg && cluster.OnCourse(x, end)
      requires cluster.Here(x) == With(l, env.Value()).(pc := GetRoute(path))
      modifies cluster
      ensures cluster.OnCourse(x, end)
      ensures cluster.Here(x) == UninstallFrom(cfg, With(l, env.Value()), path)
    {
      hide Next, Request, UninstallFrom, Cluster.OnCourse, Cluster.Here;
      var key := Key(HTTPRoute, env.spec.gateway.namespace, RouteName(x));
      RouteCall(cfg, x, With(l, env.Value()), path, Failure, 0);
      var r, now := cluster.Do(x, GetObj(key), end);
      RouteCall(cfg, x, With(l, env.Value()), path, r, now);
      if r.AnObj? {
        r, now := cluster.Do(x, DeleteObj(key), end);
        RouteCall(cfg, x, With(l, env.Value()), path, r, now);
      }
    }

    /** Every tracked release in turn, a failure with one not keeping it from the next; without any, the
        release under its legacy name. */
    method UninstallHelmRelease(x: string, env: EnvObject, path: Path, ghost l: Local, ghost end: Completion)
      requires cluster.cfg == cfg && cluster.OnCourse(x, end)
      requires cluster.Here(x) == UninstallFrom(cfg, With(l, env.Value()), path)
      modifies cluster
      ensures cluster.OnCourse(x, end)
      ensures cluster.Here(x) == With(l, env.Value()).(pc := FindNs(path))
    {
      hide Next, Request, LegacyRelease, Cluster.OnCourse, Cluster.Here;
      if !cfg.helm { return; }
      var namespace := env.status.activeNamespace;
      var tracked := env.status.components;
      ghost var here := With(l, env.Value());
      var r, now;
      if |tracked| > 0 {
        for i := 0 to |tracked|
          invariant cluster.OnCourse(x, end) && cluster.Here(x) == TrackedFrom(here, path, i)
        {
          if tracked[i].releaseName == "" { continue; }
          var release := ReleaseKey(namespace, tracked[i].releaseName);
          TrackedCall(cfg, x, here, path, i, Failure, 0);
          r, now := cluster.Do(x, CheckInstalled(release), end);
          TrackedCall(cfg, x, here, path, i, r, now);
          if !r.Presence? { continue; }
          if !r.present { continue; }
          r, now := cluster.Do(x, Uninstall(release), end);
          TrackedCall(cfg, x, here, path, i, r, now);
        }
        return;
      }
      var legacy := LegacyRelease(x, namespace);
      LegacyCall(cfg, x, here, path, Failure, 0);
      r, now := cluster.Do(x, CheckInstalled(legacy), end);
      LegacyCall(cfg, x, here, path, r, now);
      if r.Presence? && r.present {
        r, now := cluster.Do(x, Uninstall(legacy), end);
        LegacyCall(cfg, x, here, path, r, now);
      }
    }

    method CleanupNamespace(x: string, env: EnvObject, path: Path, ghost l: Local, ghost end: Completion) returns (ok: bool, now: Time)
      requires cluster.cfg == cfg && cluster.OnCourse(x, end)
      requires cluster.Here(x) == With(l, env.Value()).(pc := FindNs(path))
      modifies cluster
      ensures cluster.OnCourse(x, end)
      ensures cluster.Here(x) == if ok then NsCleaned(With(l, env.Value()), path, now) else NsNotCleaned(With(l, env.Value()), path)
    {
      hide Next, Request, NsCleaned, Cluster.OnCourse, Cluster.Here;
      ghost var here := With(l, env.Value());
      NsCall(cfg, x, here, path, Failure, 0);
      var r;
      r, now := cluster.Do(x, GetNamespace(NsName(x)), end);
      NsCall(cfg, x, here, path, r, now);
      if r.NotFound? { return true, now; }
      if !r.ANamespace? { return false, now; }
      if r.seenNs.terminating { return true, now; }
      r, now := cluster.Do(x, DeleteNamespace(NsName(x)), end);
      NsCall(cfg, x, here, path, r, now);
      ok := r.Done? || r.NotFound?;
    }

    // -------------------------------------------------------------- the pass

    method HandleDeletion(x: string, env: EnvObject, ghost l: Local, ghost end: Completion) returns (result: PassResult)
      requires cluster.cfg == cfg && cluster.OnCourse(x, end)
      requires if FINALIZER in env.finalizers then cluster.Here(x) == With(l, env.Value()).(pc := GetAdmin) else cluster.Here(x).pc == Idle(PassResult(0, false))
      modifies cluster, env`finalizers
      ensures cluster.Finished(x, end, result)
    {
      hide Next, Request, UninstallFrom, Cluster.OnCourse, Cluster.Here;
      if FINALIZER !in env.finalizers {
        cluster.Ended(x, end);
        return PassResult(0, false);
      }
      CleanupAdminHTTPRoute(x, env, l, end);
      CleanupHTTPRoute(x, env, Deleting, l, end);
      UninstallHelmRelease(x, env, Deleting, l, end);
      var ok, now := CleanupNamespace(x, env, Deleting, l, end);
      if !ok {
        cluster.Ended(x, end);
        return PassResult(5, true);
      }
      env.finalizers := env.finalizers - {FINALIZER};
      FinalizerCalls(cfg, x, With(l, env.Value()), Failure, 0);
      var r;
      r, now := cluster.Do(x, UpdateEnv(x, env.Value()), end);
      FinalizerCalls(cfg, x, With(l, env.Value()), r, now);
      cluster.Ended(x, end);
      result := PassResult(0, !r.Done?);
    }

    method HandleExpiration(x: string, env: EnvObject, at: Time, ghost l: Local, ghost end: Completion) returns (result: PassResult)
      requires cluster.cfg == cfg && cluster.OnCourse(x, end)
      requires cluster.Here(x) == With(l, MarkedExpired(env.Value(), at)).(pc := GetRoute(Expiring))
      modifies cluster, env`status
      ensures cluster.Finished(x, end, result)
    {
      hide Next, Request, UninstallFrom, SetCondition, Cluster.OnCourse, Cluster.Here;
      env.status := env.status.(phase := Expired, message := ExpiredMessage);
      env.SetCondition(EnvironmentExpired, true, at);
      CleanupHTTPRoute(x, env, Expiring, l, end);
      UninstallHelmRelease(x, env, Expiring, l, end);
      var ok, now := CleanupNamespace(x, env, Expiring, l, end);
      env.status := if ok then env.status.(lastReconcile := Some(now)) else env.status.(message := CleanupFailedMessage);
      ExpiredCall(cfg, x, With(l, env.Value()), ok, Failure, 0);
      var r;
      r, now := cluster.Do(x, UpdateStatus(x, env.Value()), end);
      ExpiredCall(cfg, x, With(l, env.Value()), ok, r, now);
      cluster.Ended(x, end);
      result := if ok then PassResult(0, !r.Done?) else PassResult(30, true);
    }

    /** Deploy with Helm if there is a client and anything to deploy. */
    method DeployWithHelm(x: string, env: EnvObject, at: Time, ghost l: Local, ghost end: Completion) returns (ok: bool, now: Time, ghost cs: seq<Component>)
      requires cluster.cfg == cfg && cluster.OnCourse(x, end)
      requires cluster.Here(x) == StartHelm(cfg, With(l, env.Value()), at)
      modifies cluster, env`status
      ensures cluster.OnCourse(x, end)
      ensures cluster.Here(x) == if ok then AfterHelm(With(l, env.Value()).(resolved := cs), now) else FailHelm(With(l, env.Value()).(resolved := cs), now)
    {
      hide Next, Request, StartHelm, AfterHelm, FailHelm, ResolveStart, ResolveEnd, Cluster.OnCourse, Cluster.Here;
      cs := l.resolved;
      HelmDecides(cfg, With(l, env.Value()), [], at);
      if !cfg.helm { return true, at, cs; }
      var components;
      components, now := ResolveComponents(x, env, false, at, l, end);
      HelmDecides(cfg, With(l, env.Value()), components, now);
      if |components| > 0 {
        ok, now, cs := EnsureHelmRelease(x, env, now, l, end);
      } else {
        ok := true;
      }
    }

    /** Steps 7 to 9: the namespace and what belongs into it whatever is deployed. */
    method EnsureInfrastructure(x: string, env: EnvObject, ghost l: Local, ghost end: Completion) returns (failed: Option<CreateStep>, now: Time)
      requires cluster.cfg == cfg && cluster.OnCourse(x, end)
      requires cluster.Here(x) == With(l, env.Value()).(pc := GetNs)
      modifies cluster, env`status
      ensures cluster.OnCourse(x, end)
      ensures failed.None? ==> cluster.Here(x) == AfterGrant(cfg, With(l, env.Value()), now)
      ensures failed.Some? ==> cluster.Here(x) == FailStep(With(l, env.Value()), failed.value)
    {
      hide FailStep, AfterGrant, AfterPolicy, AfterAccess, Cluster.OnCourse, Cluster.Here;
      var ok;
      now := 0;
      ok := EnsureNamespace(x, env, l, end);
      if !ok { return Some(NamespaceStep), now; }
      ok, now := EnsureDeveloperAccessRBAC(x, env, l, end);
      if !ok { return Some(RbacStep), now; }
      ok, now := EnsureNetworkPolicy(x, env, now, l, end);
      if !ok { return Some(PolicyStep), now; }
      ok, now := EnsureReferenceGrant(x, env, now, l, end);
      if !ok { return Some(GrantStep), now; }
      failed := None;
    }

    /** Store phase Active, and ask to be woken at the expiry. */
    method Conclude(x: string, env: EnvObject, at: Time, ghost l: Local, ghost end: Completion) returns (result: PassResult)
      requires cluster.cfg == cfg && cluster.OnCourse(x, end)
      requires cluster.Here(x) == Activate(With(l, env.Value()), at) && env.status.expirationTime.Some?
      modifies cluster, env`status
      ensures cluster.Finished(x, end, result)
    {
      hide Next, Request, Cluster.OnCourse, Cluster.Here;
      env.status := env.status.(phase := Active, message := ActiveMessage, lastReconcile := Some(at));
      SaveCall(cfg, x, With(l, env.Value()), Activated, Failure, 0);
      var r, now := cluster.Do(x, UpdateStatus(x, env.Value()), end);
      SaveCall(cfg, x, With(l, env.Value()), Activated, r, now);
      cluster.Ended(x, end);
      if !r.Done? { return PassResult(0, true); }
      var requeueAfter := env.status.expirationTime.value - now;
      if requeueAfter < 0 { requeueAfter := 1; }
      result := PassResult(requeueAfter, false);
    }

    /** Steps 10 to 12 for a service known by name: the routes first, then Helm. */
    method ServeNamed(x: string, env: EnvObject, at: Time, ghost l: Local, ghost end: Completion) returns (result: PassResult)
      requires cluster.cfg == cfg && cluster.OnCourse(x, end)
      requires env.spec.servicePort.None? && cluster.Here(x) == AfterGrant(cfg, With(l, env.Value()), at)
      modifies cluster, env`status
      ensures cluster.Finished(x, end, result)
    {
      hide Next, Request, StartHelm, FailHelm, FailStep, Activate, Cluster.OnCourse, Cluster.Here;
      ghost var l' := l.(service := env.spec.gateway.serviceName);
      var ok, now := EnsureHTTPRoute(x, env, env.spec.gateway.serviceName, l', end);
      if !ok {
        result := ReconcileStepOnError(x, env, RouteStep, l', end);
        return;
      }
      if cfg.operatorService != "" && cfg.operatorNamespace != "" {
        ok, now := EnsureAdminHTTPRoute(x, env, l', end);
      }
      ghost var cs;
      ok, now, cs := DeployWithHelm(x, env, now, l', end);
      l' := l'.(resolved := cs);
      if !ok {
        result := ReconcileHelmFailed(x, env, now, l', end);
        return;
      }
      ExpiryKept(x, env, now, l', end);
      result := Conclude(x, env, now, l', end);
    }

    /** Steps 10 to 12 for a service to be discovered: Helm first, then the routes, once there is a service. */
    method ServeDiscovered(x: string, env: EnvObject, at: Time, ghost l: Local, ghost end: Completion) returns (result: PassResult)
      requires cluster.cfg == cfg && cluster.OnCourse(x, end)
      requires env.spec.servicePort.Some? && cluster.Here(x) == AfterGrant(cfg, With(l, env.Value()), at)
      modifies cluster, env`status
      ensures cluster.Finished(x, end, result)
    {
      hide Next, Request, StartHelm, FailHelm, FailStep, Activate, Wait, Cluster.OnCourse, Cluster.Here;
      var ok, now;
      ghost var cs;
      ok, now, cs := DeployWithHelm(x, env, at, l, end);
      ghost var l' := l.(resolved := cs);
      if !ok {
        result := ReconcileHelmFailed(x, env, now, l', end);
        return;
      }
      var name;
      ghost var services;
      ok, name, services := DiscoverService(x, env, env.spec.servicePort.value, l', end);
      l' := l'.(listed := services);
      if !ok {
        result := AwaitService(x, env, l', end);
        return;
      }
      l' := l'.(service := name);
      ok, now := EnsureHTTPRoute(x, env, name, l', end);
      if !ok {
        result := ReconcileStepOnError(x, env, RouteStep, l', end);
        return;
      }
      if cfg.operatorService != "" && cfg.operatorNamespace != "" {
        ok, now := EnsureAdminHTTPRoute(x, env, l', end);
      }
      ExpiryKept(x, env, now, l', end);
      result := Conclude(x, env, now, l', end);
    }

    /** No service yet: say so, and look again in five seconds. */
    method AwaitService(x: string, env: EnvObject, ghost l: Local, ghost end: Completion) returns (result: PassResult)
      requires cluster.cfg == cfg && cluster.OnCourse(x, end)
      requires cluster.Here(x) == Wait(With(l, env.Value()))
      modifies cluster, env`status
      ensures cluster.Finished(x, end, result) && result == PassResult(5, false)
    {
      hide Next, Request, Cluster.OnCourse, Cluster.Here;
      env.status := env.status.(message := WaitingMessage);
      SaveCall(cfg, x, With(l, env.Value()), Waiting, Failure, 0);
      var r, now := cluster.Do(x, UpdateStatus(x, env.Value()), end);
      SaveCall(cfg, x, With(l, env.Value()), Waiting, r, now);
      cluster.Ended(x, end);
      result := PassResult(5, false);
    }

    /** A state about to be stored as Active has its expiry: the course of the pass says so. */
    lemma ExpiryKept(x: string, env: EnvObject, now: Time, l: Local, end: Completion)
      requires cluster.OnCourse(x, end) && cluster.Here(x) == Activate(With(l, env.Value()), now)
      ensures env.status.expirationTime.Some?
    {
      SoundBuilt(cluster.cfg, x, cluster.Here(x));
    }

    /** Steps 4 to 12, on a copy that was read at time `at`. */
    method ReconcileFetched(x: string, env: EnvObject, at: Time, ghost l: Local, ghost end: Completion) returns (result: PassResult)
      requires cluster.cfg == cfg && cluster.OnCourse(x, end)
      requires cluster.Here(x) == Starting(l, env.Value(), at)
      modifies cluster, env`status
      ensures cluster.Finished(x, end, result)
    {
      hide Next, Request, FailStep, AfterGrant, SetCondition, Cluster.OnCourse, Cluster.Here;
      ghost var l' := Started(l, env.Value());
      if env.status.phase == Unset { env.status := env.status.(phase := Pending); }
      if env.status.expirationTime.None? {
        env.status := env.status.(expirationTime := Some(CalculateExpirationTime(env.Value())));
      }
      assert env.Value() == Stamped(old(env.Value()));
      if IsExpired(env.Value(), at) {
        result := HandleExpiration(x, env, at, l', end);
        return;
      }
      var failed, now := EnsureInfrastructure(x, env, l', end);
      if failed.Some? {
        result := ReconcileStepOnError(x, env, failed.value, l', end);
      } else if env.spec.servicePort.Some? {
        result := ServeDiscovered(x, env, now, l', end);
      } else {
        result := ServeNamed(x, env, now, l', end);
      }
    }

    /** Step 3: the finalizer goes in before anything is created, and the copy is read anew. */
    method AddFinalizerAndRefetch(x: string, env: EnvObject, ghost l: Local, ghost end: Completion) returns (ok: bool, now: Time)
      requires cluster.cfg == cfg && cluster.OnCourse(x, end)
      requires cluster.Here(x) == l.(pc := AddFinalizer, env := env.Value().(finalizers := env.finalizers + {FINALIZER}))
      modifies cluster, env
      ensures ok ==> cluster.OnCourse(x, end) && cluster.Here(x) == Starting(l, env.Value(), now)
      ensures !ok ==> cluster.Finished(x, end, PassResult(0, true))
    {
      hide Next, Request, Starting, Cluster.OnCourse, Cluster.Here;
      env.finalizers := env.finalizers + {FINALIZER};
      ghost var l' := With(l, env.Value());
      FinalizerCalls(cfg, x, l', Failure, 0);
      var r;
      r, now := cluster.Do(x, UpdateEnv(x, env.Value()), end);
      FinalizerCalls(cfg, x, l', r, now);
      if !r.Done? {
        cluster.Ended(x, end);
        return false, now;
      }
      r, now := cluster.Do(x, GetEnv(x), end);
      FinalizerCalls(cfg, x, l', r, now);
      if !r.AnEnv? {
        cluster.Ended(x, end);
        return false, now;
      }
      env.Load(r.env);
      StartingForgets(l, l'.env, r.env, now);
      ok := true;
    }

    /** One pass over the resource x: whatever the cluster, the faults and the others do, it ends in exactly
        the state, with exactly the result, that the protocol's pass comes to. */
    method Reconcile(x: string) returns (result: PassResult)
      requires cluster.cfg == cfg && cluster.Here(x).pc.Idle?
      modifies cluster
      ensures cluster.Finished(x, OnePass(cfg, x, old(cluster.g), old(cluster.fates)), result)
    {
      hide Next, Request, Starting, OnePass, Cluster.OnCourse;
      ghost var l := cluster.Here(x);
      FetchCall(cfg, x, l, Failure, 0);
      ghost var end := OnePass(cfg, x, cluster.g, cluster.fates);
      var r, now := cluster.Fetch(x, GetEnv(x));
      FetchCall(cfg, x, l, r, now);
      if r.NotFound? {
        cluster.Ended(x, end);
        return PassResult(0, false);
      }
      if !r.AnEnv? {
        cluster.Ended(x, end);
        return PassResult(0, true);
      }
      var env := new EnvObject(r.env);
      if env.deleting {
        result := HandleDeletion(x, env, l, end);
        return;
      }
      if FINALIZER !in env.finalizers {
        var ok;
        ok, now := AddFinalizerAndRefetch(x, env, l, end);
        if !ok { return PassResult(0, true); }
      }
      result := ReconcileFetched(x, env, now, l, end);
    }
  }
}

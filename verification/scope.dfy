/** Everything a pass for one environment writes is keyed by that environment's name. */
module Scope {
  import opened Model
  import opened Store
  import opened Machine
  import opened Progress
  import opened Teardown
  import opened Protocol

  predicate Owned(x: string, k: Key) {
    if k.kind.HTTPRoute? then k.name == RouteName(x) || k.name == AdminRouteName(x) else k.namespace == NsName(x)
  }

  lemma OwnersDisjoint(x: string, y: string, k: Key, r: ReleaseKey)
    requires x != y
    ensures !(Owned(x, k) && Owned(y, k)) && !(OwnedRelease(x, r) && OwnedRelease(y, r))
  {
    RouteNamesDisjoint(x, y);
    RouteNamesDisjoint(y, x);
    NsNameInjective(x, y);
    NsNamePrefixed(x);
    NsNamePrefixed(y);
    assert ("env-" + x)[4..] == x && ("env-" + y)[4..] == y;
  }

  /** Without an active namespace in the status the Helm client works in its default namespace, "". */
  predicate OwnedRelease(x: string, r: ReleaseKey) {
    r.namespace == NsName(x) || r == LegacyRelease(x, "")
  }

  ghost predicate OnlyTouches(w: World, v: World, x: string) {
    && v.now == w.now && v.services == w.services && v.templates == w.templates && v.nextVersion >= w.nextVersion
    && (forall y :: y != x ==> (y in v.envs <==> y in w.envs) && (y in w.envs ==> v.envs[y] == w.envs[y]))
    && (forall n :: n != NsName(x) ==> (n in v.namespaces <==> n in w.namespaces) && (n in w.namespaces ==> v.namespaces[n] == w.namespaces[n]))
    && (forall k :: !Owned(x, k) ==> (k in v.objs <==> k in w.objs) && (k in w.objs ==> v.objs[k] == w.objs[k]))
    && (forall r :: !OwnedRelease(x, r) ==> (r in v.releases <==> r in w.releases))
  }

  // ---------------------------------------------------------------- the shape of copies

  predicate ShapedEnv(x: string, env: EphemeralEnv) {
    && (env.status.activeNamespace == "" || env.status.activeNamespace == NsName(x))
    && (env.status.components != [] ==> env.status.activeNamespace == NsName(x))
  }

  ghost predicate ShapedLocal(cfg: Config, x: string, l: Local) {
    && ShapedEnv(x, l.env)
    && Sound(cfg, x, l)
    && (TakingDown(l.pc) ==> l.env.status.phase == Expired)
  }

  ghost predicate Shaped(cfg: Config, g: Global, x: string) {
    && (x in g.w.envs ==> ShapedEnv(x, g.w.envs[x]))
    && ShapedLocal(cfg, x, LocalOf(g, x))
    && (forall id :: id in g.extensions && g.extensions[id].env == x ==> ShapedEnv(x, g.extensions[id].base))
  }

  lemma BuildingShaped(cfg: Config, x: string, l: Local, r: Reply, now: Time)
    requires ShapedLocal(cfg, x, l) && Building(l.pc)
    ensures var m := Next(cfg, x, l, r, now); ShapedEnv(x, m.env) && !TakingDown(m.pc)
  {
    hide Next, Built, NsName, HelmPos, Passed, Claimed, Needed;
    BuiltActive(cfg, x, l);
    NextBuilding(cfg, x, l, r, now);
  }

  lemma TearingShaped(cfg: Config, x: string, l: Local, r: Reply, now: Time)
    requires ShapedLocal(cfg, x, l) && Tearing(l.pc)
    ensures var m := Next(cfg, x, l, r, now); ShapedEnv(x, m.env) && (TakingDown(m.pc) ==> m.env.status.phase == Expired)
  {
    hide Next, Built, NsName;
    NextTearing(cfg, x, l, r, now);
  }

  lemma NextShaped(cfg: Config, x: string, l: Local, r: Reply, now: Time)
    requires ShapedLocal(cfg, x, l)
    requires r.AnEnv? ==> ShapedEnv(x, r.env)
    ensures ShapedLocal(cfg, x, Next(cfg, x, l, r, now))
  {
    hide Next, Built, NsName, NsEnsured, FailStep, Sound;
    NextSound(cfg, x, l, r, now);
    if Building(l.pc) {
      BuildingShaped(cfg, x, l, r, now);
    } else if Tearing(l.pc) {
      TearingShaped(cfg, x, l, r, now);
    } else {
      NextOpening(cfg, x, l, r, now);
      if l.pc.GetNs? || l.pc.PutNs? { SoundBuilt(cfg, x, l); NsEnsuredBuilt(cfg, x, l, now); FailStepShape(x, l); }
    }
  }

  lemma FailStepShape(x: string, l: Local)
    requires ShapedEnv(x, l.env)
    ensures FailStep(l, NamespaceStep).pc == Save(StepFailed) && ShapedEnv(x, FailStep(l, NamespaceStep).env)
  {
  }

  // ---------------------------------------------------------------- requests stay in scope

  predicate Scoped(x: string, req: Call) {
    match req
    case UpdateEnv(y, _) => y == x
    case UpdateStatus(y, _) => y == x
    case CreateNamespace(n, _) => n == NsName(x)
    case UpdateNamespace(n, _, _) => n == NsName(x)
    case DeleteNamespace(n) => n == NsName(x)
    case CreateObj(k, _) => Owned(x, k)
    case UpdateObj(k, _, _) => Owned(x, k)
    case DeleteObj(k) => Owned(x, k)
    case Install(r) => OwnedRelease(x, r)
    case Uninstall(r) => OwnedRelease(x, r)
    case _ => true
  }

  lemma RequestScoped(cfg: Config, x: string, l: Local)
    requires ShapedLocal(cfg, x, l)
    ensures Scoped(x, Request(cfg, x, l))
  {
    hide StageObj, StageLabels;
  }

  lemma PutEnvTouches(w: World, x: string, env: EphemeralEnv)
    requires x in w.envs
    ensures OnlyTouches(w, PutEnv(w, x, env), x)
  {
    hide Owned, OwnedRelease;
  }

  lemma EnvEffectScoped(w: World, req: Call, x: string)
    requires Scoped(x, req) && (req.UpdateEnv? || req.UpdateStatus?)
    ensures OnlyTouches(w, Effect(w, req).w, x)
  {
    hide OnlyTouches, PutEnv, AcceptsObjects, WriteNs, WriteObj, WriteRelease;
    NothingTouched(w, x);
    if x in w.envs {
      PutEnvTouches(w, x, w.envs[x].(status := req.copy.status));
      PutEnvTouches(w, x, w.envs[x].(spec := req.copy.spec, finalizers := req.copy.finalizers));
    }
  }

  lemma NsEffectScoped(w: World, req: Call, x: string)
    requires Scoped(x, req) && (req.CreateNamespace? || req.UpdateNamespace? || req.DeleteNamespace?)
    ensures OnlyTouches(w, Effect(w, req).w, x)
  {
    hide NsName, Owned, OwnedRelease, AcceptsObjects, PutEnv;
  }

  lemma ReleaseEffectScoped(w: World, req: Call, x: string)
    requires Scoped(x, req) && (req.Install? || req.Uninstall?)
    ensures OnlyTouches(w, Effect(w, req).w, x)
  {
    hide NsName, Owned, OwnedRelease, AcceptsObjects, PutEnv;
  }

  lemma ObjEffectScoped(w: World, req: Call, x: string)
    requires Scoped(x, req) && (req.CreateObj? || req.UpdateObj? || req.DeleteObj?)
    ensures OnlyTouches(w, Effect(w, req).w, x)
  {
    hide NsName, Owned, OwnedRelease, AcceptsObjects, PutEnv;
  }

  lemma EffectScoped(w: World, req: Call, x: string)
    requires Scoped(x, req)
    ensures OnlyTouches(w, Effect(w, req).w, x)
  {
    hide OnlyTouches, Scoped, WriteEnv, WriteNs, WriteObj, WriteRelease;
    NothingTouched(w, x);
    if req.UpdateEnv? || req.UpdateStatus? { EnvEffectScoped(w, req, x); }
    else if req.CreateNamespace? || req.UpdateNamespace? || req.DeleteNamespace? { NsEffectScoped(w, req, x); }
    else if req.Install? || req.Uninstall? { ReleaseEffectScoped(w, req, x); }
    else if req.CreateObj? || req.UpdateObj? || req.DeleteObj? { ObjEffectScoped(w, req, x); }
  }

  /** Any micro-step for x, with any fault, leaves everything that is not keyed by x alone. */
  lemma WorkOnlyTouches(cfg: Config, x: string, w: World, l: Local, f: Fault)
    requires ShapedLocal(cfg, x, l)
    ensures OnlyTouches(w, Step(cfg, x, w, l, f).w, x)
  {
    hide Effect, Request, Next, OnlyTouches, Scoped;
    RequestScoped(cfg, x, l);
    EffectScoped(w, Request(cfg, x, l), x);
    assert OnlyTouches(w, w, x) by { NothingTouched(w, x); }
  }

  lemma NothingTouched(w: World, x: string)
    ensures OnlyTouches(w, w, x)
  {
  }
}

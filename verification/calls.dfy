/** Which part of the cluster each call of a pass can change. */
module Calls {
  import opened Model
  import opened Store
  import opened Machine
  import opened Progress
  import opened Teardown

  predicate WritesEnv(pc: Pc) { pc.AddFinalizer? || pc.DropFinalizer? || pc.Save? || pc.SaveExpired? }
  predicate WritesNs(pc: Pc) { pc.PutNs? || pc.DelNs? }
  predicate WritesObj(pc: Pc) { pc.PutStage? || pc.DelAdmin? || pc.DelRoute? }
  predicate WritesRelease(pc: Pc) { pc.Deploy? || pc.DelTracked? || pc.DelLegacy? }
  predicate ReadsEnv(pc: Pc) { pc.Idle? || pc.Refetch? }

  predicate EnvCall(req: Call) { req.UpdateEnv? || req.UpdateStatus? }
  predicate NsCall(req: Call) { req.CreateNamespace? || req.UpdateNamespace? || req.DeleteNamespace? }
  predicate ObjCall(req: Call) { req.CreateObj? || req.UpdateObj? || req.DeleteObj? }
  predicate ReleaseCall(req: Call) { req.Install? || req.Uninstall? }

  lemma RequestKind(cfg: Config, x: string, l: Local)
    ensures var req := Request(cfg, x, l);
      && (EnvCall(req) <==> WritesEnv(l.pc)) && (NsCall(req) <==> WritesNs(l.pc))
      && (ObjCall(req) <==> WritesObj(l.pc)) && (ReleaseCall(req) <==> WritesRelease(l.pc))
      && (req.GetEnv? <==> ReadsEnv(l.pc))
  {
    hide StageObj, StageKey, StageLabels, OwnerLabels, TrackedName, LegacyRelease, Release, NsName, AdminRouteName, RouteName;
  }

  ghost predicate Spares(w: World, v: World, req: Call) {
    && v.now == w.now && v.services == w.services && v.templates == w.templates
    && (!EnvCall(req) ==> v.envs == w.envs && v.nextVersion == w.nextVersion)
    && (!NsCall(req) ==> v.namespaces == w.namespaces)
    && (!ObjCall(req) ==> v.objs == w.objs)
    && (!ReleaseCall(req) ==> v.releases == w.releases)
  }

  lemma WriteKind(w: World, req: Call, x: string, copy: EphemeralEnv, statusOnly: bool)
    ensures var v := WriteEnv(w, x, copy, statusOnly).w;
      v == w.(envs := v.envs, nextVersion := v.nextVersion) && !WriteEnv(w, x, copy, statusOnly).reply.AnEnv?
    ensures var v := WriteNs(w, req).w; v == w.(namespaces := v.namespaces) && !WriteNs(w, req).reply.AnEnv?
    ensures var v := WriteObj(w, req).w; v == w.(objs := v.objs) && !WriteObj(w, req).reply.AnEnv?
    ensures var v := WriteRelease(w, req).w; v == w.(releases := v.releases) && !WriteRelease(w, req).reply.AnEnv?
  {
    hide AcceptsObjects, Current;
  }

  lemma EffectKind(w: World, req: Call)
    ensures Spares(w, Effect(w, req).w, req)
    ensures Effect(w, req).reply.AnEnv? ==> req.GetEnv? && req.name in w.envs && Effect(w, req).reply.env == w.envs[req.name]
    ensures req.GetEnv? && req.name !in w.envs ==> !Effect(w, req).reply.AnEnv?
  {
    hide WriteEnv, WriteNs, WriteObj, WriteRelease;
    if EnvCall(req) { WriteKind(w, req, req.name, req.copy, req.UpdateStatus?); }
    else { WriteKind(w, req, "", NoCopy(), false); }
  }

  function NoCopy(): EphemeralEnv {
    EphemeralEnv(0, 0, "", 0, false, {}, Spec(None, [], None, NoTtl, None, None, Gateway("", "", "", "", 0)), EmptyStatus)
  }

  /** One micro-step in parts. */
  ghost predicate Parts(cfg: Config, x: string, w: World, l: Local, s: Stepped) {
    && s.w.now == w.now && s.w.services == w.services && s.w.templates == w.templates
    && (!WritesEnv(l.pc) ==> s.w.envs == w.envs && s.w.nextVersion == w.nextVersion)
    && (!WritesNs(l.pc) ==> s.w.namespaces == w.namespaces)
    && (!WritesObj(l.pc) ==> s.w.objs == w.objs)
    && (!WritesRelease(l.pc) ==> s.w.releases == w.releases)
    && (s.reply.AnEnv? ==> ReadsEnv(l.pc) && x in w.envs && s.reply.env == w.envs[x])
    && s.l == Next(cfg, x, l, s.reply, w.now)
  }

  lemma ExecKind(w: World, req: Call, f: Fault)
    ensures Spares(w, Exec(w, req, f).w, req)
    ensures Exec(w, req, f).reply.AnEnv? ==> req.GetEnv? && req.name in w.envs && Exec(w, req, f).reply.env == w.envs[req.name]
  {
    hide Effect, EnvCall, NsCall, ObjCall, ReleaseCall;
    EffectKind(w, req);
  }

  lemma StepParts(cfg: Config, x: string, w: World, l: Local, f: Fault)
    ensures Parts(cfg, x, w, l, Step(cfg, x, w, l, f))
  {
    hide Request, Exec, Next, EnvCall, NsCall, ObjCall, ReleaseCall, WritesEnv, WritesNs, WritesObj, WritesRelease;
    ExecKind(w, Request(cfg, x, l), f);
    RequestKind(cfg, x, l);
    FetchesOwn(cfg, x, l);
  }

  lemma FetchesOwn(cfg: Config, x: string, l: Local)
    ensures ReadsEnv(l.pc) ==> Request(cfg, x, l) == GetEnv(x)
    ensures l.pc.AddFinalizer? || l.pc.DropFinalizer? ==> Request(cfg, x, l) == UpdateEnv(x, l.env)
    ensures l.pc.Save? || l.pc.SaveExpired? ==> Request(cfg, x, l) == UpdateStatus(x, l.env)
    ensures WritesEnv(l.pc) ==> EnvCall(Request(cfg, x, l)) && Request(cfg, x, l).name == x
  {
    hide StageObj, StageKey, StageLabels, OwnerLabels, TrackedName, LegacyRelease, Release, NsName, AdminRouteName, RouteName;
  }

  /** A write of the resource that the server takes (the answer may get lost). */
  predicate Taken(w: World, x: string, copy: EphemeralEnv, f: Fault) {
    (f.NoFault? || f.AnswerLost?) && Current(w, x, copy)
  }

  /** What a step that writes the resource does to the store. */
  lemma EnvStep(cfg: Config, x: string, w: World, l: Local, f: Fault)
    requires WritesEnv(l.pc)
    ensures var s := Step(cfg, x, w, l, f);
      s.w == (if !Taken(w, x, l.env, f) then w
              else if l.pc.Save? || l.pc.SaveExpired? then PutEnv(w, x, w.envs[x].(status := l.env.status))
              else PutEnv(w, x, w.envs[x].(spec := l.env.spec, finalizers := l.env.finalizers)))
      && (s.reply.Done? <==> f.NoFault? && Taken(w, x, l.env, f))
      && !s.reply.AnEnv?
  {
    hide Next, PutEnv, Request;
    FetchesOwn(cfg, x, l);
  }
}

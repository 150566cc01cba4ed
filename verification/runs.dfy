/** Whole runs: what holds of every environment's copies, and what one environment's work leaves alone. */
module Runs {
  import opened Model
  import opened Store
  import opened Machine
  import opened Protocol
  import opened Teardown
  import opened Calls
  import opened Scope

  // ---------------------------------------------------------------- what reaches the stored resource

  lemma PutEnvParts(w: World, x: string, env: EphemeralEnv)
    requires x in w.envs
    ensures var v := PutEnv(w, x, env);
      && (v == w || v.nextVersion == w.nextVersion + 1)
      && (x in v.envs ==> (v == w && v.envs[x] == env) || v.envs[x] == env.(resourceVersion := w.nextVersion))
      && (v == w <==> env == w.envs[x])
      && (x !in v.envs ==> env.deleting && env.finalizers == {})
      && (forall y :: y != x ==> (y in v.envs <==> y in w.envs) && (y in w.envs ==> v.envs[y] == w.envs[y]))
  {
  }

  lemma PutEnvFrame(w: World, x: string, env: EphemeralEnv)
    requires x in w.envs
    ensures PutEnv(w, x, env) == w.(envs := PutEnv(w, x, env).envs, nextVersion := PutEnv(w, x, env).nextVersion)
  {
  }

  /** What is left of the resource after a step of its worker that writes it. */
  lemma WriteOutcome(cfg: Config, x: string, w: World, l: Local, f: Fault)
    requires WritesEnv(l.pc)
    ensures var v := Step(cfg, x, w, l, f).w; var saving := l.pc.Save? || l.pc.SaveExpired?;
      && v == w.(envs := v.envs, nextVersion := v.nextVersion)
      && (v == w || (Taken(w, x, l.env, f) && v.nextVersion == w.nextVersion + 1))
      && (Taken(w, x, l.env, f) ==>
            if x in v.envs then
              && (v == w || v.envs[x].resourceVersion == w.nextVersion)
              && v.envs[x] == w.envs[x].(resourceVersion := v.envs[x].resourceVersion,
                                         status := if saving then l.env.status else w.envs[x].status,
                                         spec := if saving then w.envs[x].spec else l.env.spec,
                                         finalizers := if saving then w.envs[x].finalizers else l.env.finalizers)
            else w.envs[x].deleting && (if saving then w.envs[x].finalizers == {} else l.env.finalizers == {}))
    ensures var s := Step(cfg, x, w, l, f);
      (s.reply.Done? <==> f.NoFault? && Taken(w, x, l.env, f)) && !s.reply.AnEnv? && s.l == Next(cfg, x, l, s.reply, w.now)
  {
    hide Step, PutEnv, Next;
    StepParts(cfg, x, w, l, f);
    EnvStep(cfg, x, w, l, f);
    if Taken(w, x, l.env, f) {
      if l.pc.Save? || l.pc.SaveExpired? {
        PutEnvParts(w, x, w.envs[x].(status := l.env.status));
      } else {
        PutEnvParts(w, x, w.envs[x].(spec := l.env.spec, finalizers := l.env.finalizers));
      }
    }
  }

  /** Only its own worker and extend requests change the status of a resource. */
  lemma StepStatus(cfg: Config, x: string, w: World, l: Local, f: Fault)
    ensures var v := Step(cfg, x, w, l, f).w;
      && (x in v.envs ==> x in w.envs && v.envs[x].uid == w.envs[x].uid && (v.envs[x].status == w.envs[x].status || v.envs[x].status == l.env.status))
      && (forall y :: y != x ==> (y in v.envs <==> y in w.envs) && (y in w.envs ==> v.envs[y] == w.envs[y]))
      && v.nextVersion >= w.nextVersion
  {
    hide Step, PutEnv;
    StepParts(cfg, x, w, l, f);
    if WritesEnv(l.pc) {
      EnvStep(cfg, x, w, l, f);
      if x in w.envs {
        PutEnvParts(w, x, w.envs[x].(status := l.env.status));
        PutEnvParts(w, x, w.envs[x].(spec := l.env.spec, finalizers := l.env.finalizers));
      }
    }
  }

  /** The write of an extension, like any status write, is taken only from a current copy. */
  lemma ExtendWrites(g: Global, id: nat, f: Fault)
    requires id in g.extensions
    ensures var u := g.extensions[id]; var g' := DoExtendWrite(g, id, f);
      g' == g.(w := if Accepted(g.w, u, f) then PutEnv(g.w, u.env, g.w.envs[u.env].(status := Extended(u).status)) else g.w,
               extensions := g.extensions - {id}, ledgers := g'.ledgers)
  {
    hide PutEnv, Opened, Credit;
  }

  /** Users and controllers leave status, identity and our finalizer of a resource alone. */
  ghost predicate Outside(w: World, v: World, x: string) {
    && v.nextVersion >= w.nextVersion
    && (x in v.envs ==> x in w.envs)
    && (x in v.envs ==>
          && v.envs[x].status == w.envs[x].status && v.envs[x].uid == w.envs[x].uid && v.envs[x].created == w.envs[x].created
          && (v.envs[x] == w.envs[x] || (v.envs[x].resourceVersion == w.nextVersion && v.nextVersion == w.nextVersion + 1)))
    && (x in w.envs && FINALIZER in w.envs[x].finalizers ==> x in v.envs && FINALIZER in v.envs[x].finalizers)
  }

  lemma AmbientEnv(w: World, e: Event, x: string)
    ensures Outside(w, Ambient(w, e), x)
  {
    hide DoFinishNs, EnvPrefixed, PutEnv;
    match e
    case DeleteEnv(y) => if y in w.envs { PutEnvParts(w, y, w.envs[y].(deleting := true)); }
    case EditEnv(y, spec, fs) => if y in w.envs { EditParts(w, y, spec, fs); PutEnvParts(w, y, Edited(w.envs[y], spec, fs)); }
    case FinishNs(n) => FinishParts(w, n);
    case _ =>
  }

  lemma FinishParts(w: World, n: string)
    ensures var v := DoFinishNs(w, n); v.envs == w.envs && v.nextVersion == w.nextVersion && v.now == w.now
  {
  }

  lemma EditParts(w: World, y: string, spec: Spec, fs: set<string>)
    requires y in w.envs
    ensures DoEdit(w, y, spec, fs) == PutEnv(w, y, Edited(w.envs[y], spec, fs))
  {
  }

  function Edited(env: EphemeralEnv, spec: Spec, fs: set<string>): EphemeralEnv {
    env.(spec := spec, finalizers := (fs - {FINALIZER}) + (env.finalizers * {FINALIZER}))
  }

  // ---------------------------------------------------------------- shapes in every run

  lemma LocalShape(cfg: Config, x: string, l: Local)
    requires ShapedLocal(cfg, x, l)
    ensures ShapedEnv(x, l.env)
  {
  }

  lemma ShapedWork(cfg: Config, g: Global, x: string, f: Fault)
    requires Shaped(cfg, g, x)
    ensures Shaped(cfg, DoWork(cfg, g, x, f), x)
  {
    hide Step, ShapedLocal, Opened, NsName, Next;
    var l := LocalOf(g, x);
    StepStatus(cfg, x, g.w, l, f);
    StepParts(cfg, x, g.w, l, f);
    LocalShape(cfg, x, l);
    NextShaped(cfg, x, l, Step(cfg, x, g.w, l, f).reply, g.w.now);
  }

  lemma ShapedExtend(cfg: Config, g: Global, id: nat, f: Fault, x: string)
    requires Shaped(cfg, g, x)
    ensures Shaped(cfg, DoExtendWrite(g, id, f), x)
  {
    hide ShapedLocal, Opened, Credit, NsName, PutEnv;
    if id in g.extensions {
      var u := g.extensions[id];
      ExtendWrites(g, id, f);
      if Accepted(g.w, u, f) { PutEnvParts(g.w, u.env, g.w.envs[u.env].(status := Extended(u).status)); }
      hide DoExtendWrite;
    }
  }

  lemma ShapedApply(cfg: Config, g: Global, e: Event, x: string)
    requires Shaped(cfg, g, x)
    ensures Shaped(cfg, Apply(cfg, g, e), x)
  {
    hide Step, ShapedLocal, NsName, Ambient, DoExtendWrite;
    match e
    case Work(y, f) =>
      if y == x { ShapedWork(cfg, g, x, f); } else { StepStatus(cfg, y, g.w, LocalOf(g, y), f); }
    case ExtendWrite(id, f) => ShapedExtend(cfg, g, id, f, x);
    case ExtendRead(_, _, _) =>
    case CreateEnv(_, _, _, _) =>
    case _ => AmbientEnv(g.w, e, x);
  }

  lemma ShapedInitially(cfg: Config, g: Global, x: string)
    requires Initial(g)
    ensures Shaped(cfg, g, x)
  {
  }

  lemma {:induction false} ShapedRun(cfg: Config, g: Global, es: seq<Event>, x: string)
    requires Initial(g)
    ensures Shaped(cfg, Run(cfg, g, es), x)
  {
    hide Apply, Shaped, Initial;
    if es == [] {
      ShapedInitially(cfg, g, x);
    } else {
      ShapedRun(cfg, g, es[..|es| - 1], x);
      ShapedApply(cfg, Run(cfg, g, es[..|es| - 1]), es[|es| - 1], x);
    }
  }
}

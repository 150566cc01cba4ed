/** A live environment namespace always has its resource, and the resource its finalizer. */
module Orphans {
  import opened Model
  import opened Store
  import opened Machine
  import opened Progress
  import opened Teardown
  import opened Calls
  import opened Protocol
  import opened Scope
  import opened Runs

  /** The worker relies on the finalizer it has seen or added. */
  predicate Holding(pc: Pc) {
    pc.Refetch? || Creating(pc) || Tearing(pc) || pc.DropFinalizer? || pc.SaveExpired?
  }

  predicate Anchored(w: World, x: string) {
    x in w.envs && FINALIZER in w.envs[x].finalizers
  }

  ghost predicate Safe(g: Global, x: string) {
    var l := LocalOf(g, x);
    && (Live(g.w, NsName(x)) ==> Anchored(g.w, x))
    && (Holding(l.pc) ==> Anchored(g.w, x) && (!l.pc.Refetch? ==> g.w.envs[x].uid == l.env.uid))
    && (l.pc.DropFinalizer? ==> !Live(g.w, NsName(x)) && FINALIZER !in l.env.finalizers)
    && (l.pc.AddFinalizer? ==> FINALIZER in l.env.finalizers)
  }

  lemma NextHolds(cfg: Config, x: string, l: Local, r: Reply, now: Time)
    requires Building(l.pc) ==> Built(cfg, x, l)
    requires r.AnEnv? ==> ReadsEnv(l.pc)
    requires l.pc.Refetch? && r.AnEnv? ==> FINALIZER in r.env.finalizers
    ensures var m := Next(cfg, x, l, r, now);
      && (Holding(m.pc) ==>
            (r.AnEnv? && FINALIZER in r.env.finalizers && m.env.uid == r.env.uid && !m.pc.Refetch?)
            || (l.pc.AddFinalizer? && m.pc.Refetch? && r.Done?)
            || (Holding(l.pc) && !l.pc.Refetch? && !m.pc.Refetch? && m.env.uid == l.env.uid))
      && (m.pc.DropFinalizer? ==> Tearing(l.pc) && NsGoing(l, r) && FINALIZER !in m.env.finalizers)
      && (m.pc.AddFinalizer? ==> FINALIZER in m.env.finalizers)
      && (WritesEnv(l.pc) && !l.pc.AddFinalizer? ==> m.pc.Idle?)
  {
    hide Next, Built;
    if Building(l.pc) { NextBuilding(cfg, x, l, r, now); }
    else if Tearing(l.pc) { NextTearing(cfg, x, l, r, now); }
    else { NextOpening(cfg, x, l, r, now); }
  }

  /** The calls on the environment's namespace: creation only in `PutNs`, deletion only in `DelNs`. */
  lemma NsStep(cfg: Config, x: string, w: World, l: Local, f: Fault)
    ensures var s := Step(cfg, x, w, l, f);
      && (Live(s.w, NsName(x)) && !Live(w, NsName(x)) ==> l.pc.PutNs?)
      && (Tearing(l.pc) && NsGoing(l, s.reply) ==> !Live(s.w, NsName(x)))
  {
    hide Next, StageObj, StageKey, StageLabels, OwnerLabels, TrackedName, LegacyRelease, Release, NsName, AdminRouteName, RouteName, WriteEnv, WriteObj, WriteRelease;
    StepParts(cfg, x, w, l, f);
  }

  lemma SafeWrite(cfg: Config, g: Global, x: string, f: Fault)
    requires Safe(g, x) && WritesEnv(LocalOf(g, x).pc)
    ensures Safe(DoWork(cfg, g, x, f), x)
  {
    hide Step, Next, NsName, Live;
    var w, l := g.w, LocalOf(g, x);
    var s := Step(cfg, x, w, l, f);
    WriteOutcome(cfg, x, w, l, f);
    NsFrame(w, s.w, x);
    NextHolds(cfg, x, l, s.reply, w.now);
  }

  lemma SafeWork(cfg: Config, g: Global, x: string, f: Fault)
    requires Safe(g, x) && Shaped(cfg, g, x)
    ensures Safe(DoWork(cfg, g, x, f), x)
  {
    hide Step, Next, Built, NsName, NsGoing, Live, Opened;
    var w, l := g.w, LocalOf(g, x);
    var s := Step(cfg, x, w, l, f);
    if WritesEnv(l.pc) {
      SafeWrite(cfg, g, x, f);
    } else {
      StepParts(cfg, x, w, l, f);
      NextHolds(cfg, x, l, s.reply, w.now);
      NsStep(cfg, x, w, l, f);
    }
  }

  lemma NsFrame(w: World, v: World, x: string)
    requires v.namespaces == w.namespaces
    ensures Live(v, NsName(x)) == Live(w, NsName(x))
  {
  }

  lemma AmbientNs(w: World, e: Event, x: string)
    ensures Live(Ambient(w, e), NsName(x)) ==> Live(w, NsName(x))
  {
    hide NsName, PutEnv;
    NsNamePrefixed(x);
    match e
    case DeleteEnv(y) => if y in w.envs { PutEnvFrame(w, y, w.envs[y].(deleting := true)); }
    case EditEnv(y, spec, fs) => if y in w.envs { EditParts(w, y, spec, fs); PutEnvFrame(w, y, Edited(w.envs[y], spec, fs)); }
    case _ =>
  }

  lemma SafeAmbient(g: Global, e: Event, x: string)
    requires Safe(g, x)
    ensures Safe(g.(w := Ambient(g.w, e)), x)
  {
    hide Ambient, NsName, Live;
    AmbientEnv(g.w, e, x);
    AmbientNs(g.w, e, x);
  }

  lemma SafeApply(cfg: Config, g: Global, e: Event, x: string)
    requires Safe(g, x) && Shaped(cfg, g, x) && (e.Work? ==> Shaped(cfg, g, e.x))
    ensures Safe(Apply(cfg, g, e), x)
  {
    hide Step, Shaped, Ambient, DoExtendWrite, NsName, DoWork;
    match e
    case Work(y, f) =>
      if y == x { SafeWork(cfg, g, x, f); } else { SafeOther(cfg, g, y, f, x); }
    case ExtendWrite(id, f) => SafeExtend(g, id, f, x);
    case ExtendRead(_, _, _) =>
    case CreateEnv(_, _, _, _) =>
    case _ => SafeAmbient(g, e, x);
  }

  /** Another environment's worker neither makes x's namespace nor touches its resource. */
  lemma SafeOther(cfg: Config, g: Global, y: string, f: Fault, x: string)
    requires x != y && Safe(g, x) && Shaped(cfg, g, y)
    ensures Safe(DoWork(cfg, g, y, f), x)
  {
    hide Step, NsName;
    WorkOnlyTouches(cfg, y, g.w, LocalOf(g, y), f);
    NsNameInjective(x, y);
  }

  lemma SafeExtend(g: Global, id: nat, f: Fault, x: string)
    requires Safe(g, x)
    ensures Safe(DoExtendWrite(g, id, f), x)
  {
    hide PutEnv, NsName;
    if id in g.extensions {
      var u := g.extensions[id];
      ExtendWrites(g, id, f);
      if Accepted(g.w, u, f) {
        PutEnvParts(g.w, u.env, g.w.envs[u.env].(status := Extended(u).status));
        hide DoExtendWrite;
        assert PutEnv(g.w, u.env, g.w.envs[u.env].(status := Extended(u).status)).namespaces == g.w.namespaces by { PutEnvFrame(g.w, u.env, g.w.envs[u.env].(status := Extended(u).status)); }
      }
    }
  }

  lemma {:induction false} SafeRun(cfg: Config, g: Global, es: seq<Event>, x: string)
    requires Initial(g)
    ensures Safe(Run(cfg, g, es), x)
  {
    hide Apply, Built, NsName;
    if es == [] {
      NsNamePrefixed(x);
    } else {
      var h, e := Run(cfg, g, es[..|es| - 1]), es[|es| - 1];
      SafeRun(cfg, g, es[..|es| - 1], x);
      ShapedRun(cfg, g, es[..|es| - 1], x);
      if e.Work? { ShapedRun(cfg, g, es[..|es| - 1], e.x); }
      SafeApply(cfg, h, e, x);
    }
  }

  /** At every micro-step of every run, with any call failing and users deleting and re-creating the
      resource at any point: a namespace that exists and is not terminating is not an orphan. */
  lemma {:induction false} NoOrphanNamespace(cfg: Config, g: Global, es: seq<Event>, x: string)
    requires Initial(g)
    ensures var w := Run(cfg, g, es).w;
      Live(w, NsName(x)) ==> x in w.envs && FINALIZER in w.envs[x].finalizers
  {
    hide Run, NsName;
    SafeRun(cfg, g, es, x);
  }
}

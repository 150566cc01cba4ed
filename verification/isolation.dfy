/** Environments do not interfere with each other. */
module Isolation {
  import opened Model
  import opened Store
  import opened Machine
  import opened Progress
  import opened Teardown
  import opened Calls
  import opened Protocol
  import opened Scope
  import opened Runs
  import opened Pass
  import opened Backing
  import opened Calm

  /** Everything that belongs to y is the same: resource, namespace, objects, releases, services, worker. */
  ghost predicate Untouched(g: Global, h: Global, y: string) {
    && (y in h.w.envs <==> y in g.w.envs) && (y in g.w.envs ==> h.w.envs[y] == g.w.envs[y])
    && (NsName(y) in h.w.namespaces <==> NsName(y) in g.w.namespaces)
    && (NsName(y) in g.w.namespaces ==> h.w.namespaces[NsName(y)] == g.w.namespaces[NsName(y)])
    && (forall k :: Owned(y, k) ==> (k in h.w.objs <==> k in g.w.objs) && (k in g.w.objs ==> h.w.objs[k] == g.w.objs[k]))
    && (forall r :: OwnedRelease(y, r) ==> (r in h.w.releases <==> r in g.w.releases))
    && (NsName(y) in h.w.services <==> NsName(y) in g.w.services)
    && (NsName(y) in g.w.services ==> h.w.services[NsName(y)] == g.w.services[NsName(y)])
    && LocalOf(h, y) == LocalOf(g, y)
    && (y in h.ledgers <==> y in g.ledgers) && (y in g.ledgers ==> h.ledgers[y] == g.ledgers[y])
  }

  /** y's routes lie outside the environments' namespaces. */
  ghost predicate RoutesOutside(g: Global, y: string) {
    && (y in g.w.envs ==> !EnvPrefixed(g.w.envs[y].spec.gateway.namespace))
    && (!LocalOf(g, y).pc.Idle? ==> !EnvPrefixed(LocalOf(g, y).env.spec.gateway.namespace))
    && (forall k :: k in g.w.objs && k.kind.HTTPRoute? && Owned(y, k) ==> !EnvPrefixed(k.namespace))
  }

  /** No user points y's gateway into an environment's namespace, or puts y's routes there. */
  predicate Respects(e: Event, y: string) {
    match e
    case CreateEnv(x, _, spec, _) => x == y ==> !EnvPrefixed(spec.gateway.namespace)
    case EditEnv(x, spec, _) => x == y ==> !EnvPrefixed(spec.gateway.namespace)
    case Meddle(k, o) => o.Some? && k.kind.HTTPRoute? && Owned(y, k) ==> !EnvPrefixed(k.namespace)
    case _ => true
  }

  predicate RespectedRun(es: seq<Event>, y: string) {
    forall i :: 0 <= i < |es| ==> Respects(es[i], y)
  }

  // ---------------------------------------------------------------- where routes get written

  lemma WrittenOutside(cfg: Config, y: string, w: World, l: Local, f: Fault)
    requires ShapedLocal(cfg, y, l) && !EnvPrefixed(l.env.spec.gateway.namespace)
    ensures var v := Step(cfg, y, w, l, f).w;
      forall k :: k in v.objs && k !in w.objs && k.kind.HTTPRoute? ==> k.namespace == l.env.spec.gateway.namespace
  {
    hide Next, NsName, StageObj, AcceptsObjects, Release, LegacyRelease, WriteEnv, WriteNs, WriteRelease, Read, TrackedName, TemplateRequest, OwnerLabels, AdminRouteName, RouteName, Sound;
    StepParts(cfg, y, w, l, f);
  }

  lemma OutsideWork(cfg: Config, g: Global, y: string, f: Fault)
    requires RoutesOutside(g, y) && Shaped(cfg, g, y)
    ensures RoutesOutside(DoWork(cfg, g, y, f), y)
  {
    hide Step, Next, Opened, EnvPrefixed, Owned, Built;
    var w, l := g.w, LocalOf(g, y);
    var s := Step(cfg, y, w, l, f);
    StepParts(cfg, y, w, l, f);
    SoundBuilt(cfg, y, l);
    NextSpec(cfg, y, l, s.reply, w.now);
    if WritesEnv(l.pc) { WriteOutcome(cfg, y, w, l, f); }
    if WritesObj(l.pc) { WrittenOutside(cfg, y, w, l, f); }
    assert l.pc.Idle? && !s.l.pc.Idle? ==> s.reply.AnEnv? by { NextOpening(cfg, y, l, s.reply, w.now); }
    hide ShapedLocal, WritesNs, WritesRelease;
  }

  lemma OutsideOther(cfg: Config, g: Global, x: string, f: Fault, y: string)
    requires x != y && RoutesOutside(g, y) && Shaped(cfg, g, x)
    ensures RoutesOutside(DoWork(cfg, g, x, f), y)
  {
    hide Step, Opened, EnvPrefixed, Owned, OwnedRelease, ShapedLocal;
    WorkOnlyTouches(cfg, x, g.w, LocalOf(g, x), f);
    forall k | Owned(y, k) ensures !Owned(x, k) { OwnersDisjoint(x, y, k, ReleaseKey("", "")); }
  }

  lemma OutsideAmbient(cfg: Config, g: Global, e: Event, y: string)
    requires RoutesOutside(g, y) && Respects(e, y)
    requires !e.Work? && !e.ExtendWrite? && !e.ExtendRead? && !e.CreateEnv?
    ensures RoutesOutside(g.(w := Ambient(g.w, e)), y)
  {
    hide EnvPrefixed, Owned, PutEnv, DoEdit, DoDelete;
    if e.DeleteEnv? || e.EditEnv? { EnvEvent(g.w, e, y); AmbientEnv(g.w, e, y); hide Ambient; }
  }

  lemma OutsideExtend(g: Global, id: nat, f: Fault, y: string)
    requires RoutesOutside(g, y)
    ensures RoutesOutside(DoExtendWrite(g, id, f), y)
  {
    hide EnvPrefixed, Owned, PutEnv, Opened, Credit;
    if id in g.extensions {
      var u := g.extensions[id];
      ExtendWrites(g, id, f);
      if Accepted(g.w, u, f) {
        PutEnvParts(g.w, u.env, g.w.envs[u.env].(status := Extended(u).status));
        PutEnvFrame(g.w, u.env, g.w.envs[u.env].(status := Extended(u).status));
      }
      hide DoExtendWrite;
    }
  }

  lemma {:induction false} OutsideRun(cfg: Config, g: Global, es: seq<Event>, y: string)
    requires Initial(g) && RespectedRun(es, y)
    requires forall k :: k in g.w.objs && k.kind.HTTPRoute? && Owned(y, k) ==> !EnvPrefixed(k.namespace)
    ensures RoutesOutside(Run(cfg, g, es), y)
  {
    hide Ambient, DoExtendWrite, DoWork, Shaped, Owned, EnvPrefixed;
    if es != [] {
      var before, e := es[..|es| - 1], es[|es| - 1];
      OutsideRun(cfg, g, before, y);
      var h := Run(cfg, g, before);
      hide Run;
      match e
      case Work(x, f) =>
        ShapedRun(cfg, g, before, x);
        if x == y { OutsideWork(cfg, h, y, f); } else { OutsideOther(cfg, h, x, f, y); }
      case ExtendWrite(id, f) => OutsideExtend(h, id, f, y);
      case ExtendRead(_, _, _) =>
      case CreateEnv(_, _, _, _) =>
      case _ => OutsideAmbient(cfg, h, e, y);
      RunSnoc(cfg, g, before, e);
      assert before + [e] == es;
    }
  }

  // ---------------------------------------------------------------- the result

  lemma WorkLeaves(cfg: Config, g: Global, x: string, f: Fault, y: string)
    requires x != y && Shaped(cfg, g, x)
    ensures Untouched(g, DoWork(cfg, g, x, f), y)
  {
    hide Step, Owned, OwnedRelease, ShapedLocal, NsName;
    WorkOnlyTouches(cfg, x, g.w, LocalOf(g, x), f);
    NsNameInjective(x, y);
    forall k | Owned(y, k) ensures !Owned(x, k) { OwnersDisjoint(x, y, k, ReleaseKey("", "")); }
    forall r: ReleaseKey | OwnedRelease(y, r) ensures !OwnedRelease(x, r) { OwnersDisjoint(x, y, Key(Role, "", ""), r); }
  }

  lemma FinishLeaves(g: Global, x: string, y: string)
    requires x != y && RoutesOutside(g, y)
    ensures Untouched(g, g.(w := DoFinishNs(g.w, NsName(x))), y)
  {
    NsNameInjective(x, y);
    NsNamePrefixed(x);
    hide NsName, EnvPrefixed, RouteName, AdminRouteName;
    forall k | Owned(y, k) && k in g.w.objs ensures k.namespace != NsName(x) {}
    forall r: ReleaseKey | OwnedRelease(y, r) ensures r.namespace != NsName(x) {}
  }

  /** The namespace controller taking an object of x's namespace on the way. */
  lemma ReapLeaves(g: Global, x: string, k: Key, y: string)
    requires x != y && RoutesOutside(g, y) && k.namespace == NsName(x)
    ensures Untouched(g, g.(w := Ambient(g.w, ReapObj(k))), y)
  {
    NsNameInjective(x, y);
    NsNamePrefixed(x);
    hide NsName, EnvPrefixed, RouteName, AdminRouteName, Terminating;
  }

  lemma UntouchedTrans(g: Global, h: Global, i: Global, y: string)
    requires Untouched(g, h, y) && Untouched(h, i, y)
    ensures Untouched(g, i, y)
  {
    hide NsName, Owned, OwnedRelease, LocalOf;
  }

  lemma TimeLeaves(g: Global, d: nat, y: string)
    ensures Untouched(g, g.(w := Later(g.w, d)), y)
  {
  }

  /** One call of a pass for x that only time precedes. */
  lemma MeetLeaves(cfg: Config, x: string, g: Global, fate: Fate, y: string)
    requires x != y && Shaped(cfg, g, x) && Ticks(fate.before)
    ensures Untouched(g, Meet(cfg, x, g, fate), y) && Shaped(cfg, Meet(cfg, x, g, fate), x)
  {
    hide Run, DoWork, Untouched, Shaped;
    OnlyTime(cfg, x, g, fate.before);
    var h := g.(w := Later(g.w, Seconds(fate.before)));
    assert Shaped(cfg, h, x) by { ShapedLater(cfg, g, Seconds(fate.before), x); }
    TimeLeaves(g, Seconds(fate.before), y);
    WorkLeaves(cfg, h, x, fate.fault, y);
    UntouchedTrans(g, h, DoWork(cfg, h, x, fate.fault), y);
    ShapedWork(cfg, h, x, fate.fault);
  }

  lemma ShapedLater(cfg: Config, g: Global, d: nat, x: string)
    requires Shaped(cfg, g, x)
    ensures Shaped(cfg, g.(w := Later(g.w, d)), x)
  {
    hide ShapedLocal, ShapedEnv;
  }

  lemma {:induction false} CompleteLeaves(cfg: Config, x: string, g: Global, fates: seq<Fate>, y: string)
    requires x != y && Shaped(cfg, g, x) && Undisturbed(fates) && Sound(cfg, x, LocalOf(g, x))
    ensures Untouched(g, Complete(cfg, x, g, fates).g, y)
    decreases Part(LocalOf(g, x).pc), Ahead(LocalOf(g, x)), Turn(LocalOf(g, x).pc), Left(LocalOf(g, x))
  {
    hide Meet, Sound, Untouched, Shaped, Part, Ahead, Turn, Left;
    if LocalOf(g, x).pc.Idle? {
      assert Untouched(g, g, y) by { TimeLeaves(g, 0, y); assert g.(w := Later(g.w, 0)) == g; }
    } else {
      var h := Meet(cfg, x, g, NextFate(fates));
      MeetMoves(cfg, x, g, NextFate(fates));
      MeetLeaves(cfg, x, g, NextFate(fates), y);
      CompleteLeaves(cfg, x, h, LaterFates(fates), y);
      UntouchedTrans(g, h, Complete(cfg, x, h, LaterFates(fates)).g, y);
    }
  }

  lemma PassLeaves(cfg: Config, x: string, g: Global, fates: seq<Fate>, y: string)
    requires x != y && Shaped(cfg, g, x) && Undisturbed(fates) && LocalOf(g, x).pc.Idle?
    ensures Untouched(g, OnePass(cfg, x, g, fates).g, y)
  {
    hide Meet, Sound, Untouched, Shaped;
    var h := Meet(cfg, x, g, NextFate(fates));
    IdleSound(cfg, x, LocalOf(g, x));
    MeetMoves(cfg, x, g, NextFate(fates));
    MeetLeaves(cfg, x, g, NextFate(fates), y);
    CompleteLeaves(cfg, x, h, LaterFates(fates), y);
    UntouchedTrans(g, h, Complete(cfg, x, h, LaterFates(fates)).g, y);
  }

  /** In every run in which y's gateway stays out of the environments' namespaces: any micro-step for
      another environment x, with any fault - building up, tearing down, storing a status -, and every event
      of the end of x's namespace leave everything of y as it was. */
  lemma {:induction false} NonInterference(cfg: Config, g: Global, es: seq<Event>, x: string, y: string, f: Fault, k: Key)
    requires Initial(g) && RespectedRun(es, y) && x != y && k.namespace == NsName(x)
    requires forall k :: k in g.w.objs && k.kind.HTTPRoute? && Owned(y, k) ==> !EnvPrefixed(k.namespace)
    ensures var h := Run(cfg, g, es);
      && Untouched(h, Apply(cfg, h, Work(x, f)), y)
      && Untouched(h, Apply(cfg, h, FinishNs(NsName(x))), y)
      && Untouched(h, Apply(cfg, h, ReapObj(k)), y)
  {
    hide Run, Untouched, RoutesOutside, DoWork, DoFinishNs, Owned, Terminating;
    ShapedRun(cfg, g, es, x);
    OutsideRun(cfg, g, es, y);
    WorkLeaves(cfg, Run(cfg, g, es), x, f, y);
    FinishLeaves(Run(cfg, g, es), x, y);
    ReapLeaves(Run(cfg, g, es), x, k, y);
  }

  /** So does a whole pass for x from any state of any run, with any of its calls failing. */
  lemma {:induction false} PassNonInterference(cfg: Config, g: Global, es: seq<Event>, x: string, y: string, fates: seq<Fate>)
    requires Initial(g) && x != y && Undisturbed(fates) && LocalOf(Run(cfg, g, es), x).pc.Idle?
    ensures Untouched(Run(cfg, g, es), OnePass(cfg, x, Run(cfg, g, es), fates).g, y)
  {
    hide Run, Untouched, OnePass, Shaped;
    ShapedRun(cfg, g, es, x);
    PassLeaves(cfg, x, Run(cfg, g, es), fates, y);
  }
}

/** Expiry is final, and it never comes before the time a pass has seen. */
module Expiry {
  import opened Model
  import opened Store
  import opened Machine
  import opened Progress
  import opened Teardown
  import opened Calls
  import opened Protocol
  import opened Scope
  import opened Runs
  import opened Extensions
  import opened Orphans
  import Backing

  // ---------------------------------------------------------------- never early

  predicate NonNegative(g: Global, e: Event, x: string) {
    e.ExtendWrite? && e.id in g.extensions && g.extensions[e.id].env == x ==> g.extensions[e.id].duration >= 0
  }

  ghost predicate NonNegativeRun(cfg: Config, g: Global, es: seq<Event>, x: string) {
    es == [] || (NonNegativeRun(cfg, g, es[..|es| - 1], x) && NonNegative(Run(cfg, g, es[..|es| - 1]), es[|es| - 1], x))
  }

  /** What a takedown knows: its time has come, by the expiry it found or by creation plus TTL. */
  predicate Due(g: Global, x: string) {
    var l := LocalOf(g, x);
    TakingDown(l.pc) ==>
      && l.env.status.expirationTime.Some? && g.w.now > l.env.status.expirationTime.value
      && (if l.found.Some? then
            l.env.status.expirationTime == l.found && x in g.ledgers && g.ledgers[x].first <= l.found.value
          else l.env.status.expirationTime.value == l.env.created + GetTtl(l.env.spec))
  }

  predicate Grown(g: Global, x: string) {
    x in g.w.envs && x in g.ledgers ==> g.ledgers[x].added >= 0
  }

  lemma NextTakesDown(cfg: Config, x: string, l: Local, r: Reply, now: Time)
    requires Building(l.pc) ==> Built(cfg, x, l)
    ensures var m := Next(cfg, x, l, r, now);
      TakingDown(m.pc) ==>
        || (TakingDown(l.pc) && m.found == l.found && m.env.status.expirationTime == l.env.status.expirationTime
            && m.env.created == l.env.created && m.env.spec == l.env.spec && m.env.status.phase == l.env.status.phase)
        || (ReadsEnv(l.pc) && r.AnEnv? && m.found == r.env.status.expirationTime
            && m.env.created == r.env.created && m.env.spec == r.env.spec && m.env.status.phase == Expired
            && IsExpired(Stamped(r.env), now) && m.env.status.expirationTime == Stamped(r.env).status.expirationTime)
  {
    hide Next, Built;
    if Building(l.pc) { NextBuilding(cfg, x, l, r, now); }
    else if Tearing(l.pc) { NextTearing(cfg, x, l, r, now); }
    else { NextOpening(cfg, x, l, r, now); }
  }

  lemma DueWork(cfg: Config, g: Global, x: string, f: Fault)
    requires Due(g, x) && Grown(g, x) && Accounted(g, x) && Safe(g, x) && Shaped(cfg, g, x)
    ensures var h := DoWork(cfg, g, x, f); Due(h, x) && Grown(h, x)
  {
    hide Step, Next, NsName, Built, Live;
    var w, l := g.w, LocalOf(g, x);
    var s := Step(cfg, x, w, l, f);
    StepParts(cfg, x, w, l, f);
    NextTakesDown(cfg, x, l, s.reply, w.now);
    if WritesEnv(l.pc) { WriteOutcome(cfg, x, w, l, f); }
    hide WritesNs, WritesObj, WritesRelease;
  }

  lemma DueApply(cfg: Config, g: Global, e: Event, x: string)
    requires Due(g, x) && Grown(g, x) && Accounted(g, x) && Safe(g, x) && Shaped(cfg, g, x)
    requires NonNegative(g, e, x)
    ensures var h := Apply(cfg, g, e); Due(h, x) && Grown(h, x)
  {
    hide Step, NsName, Live, Ambient, DoExtendWrite, DoWork, Shaped;
    match e
    case Work(y, f) =>
      if y == x { DueWork(cfg, g, x, f); } else { DueOther(cfg, g, y, f, x); }
    case ExtendWrite(id, f) => DueExtend(cfg, g, id, f, x);
    case ExtendRead(_, _, _) =>
    case CreateEnv(_, _, _, _) =>
    case _ => AmbientEnv(g.w, e, x); ClockForward(g.w, e);
  }

  lemma ClockForward(w: World, e: Event)
    ensures Ambient(w, e).now >= w.now
  {
    hide EnvPrefixed;
  }

  lemma DueOther(cfg: Config, g: Global, y: string, f: Fault, x: string)
    requires x != y && Due(g, x) && Grown(g, x)
    ensures var h := DoWork(cfg, g, y, f); Due(h, x) && Grown(h, x)
  {
    hide Step;
    StepStatus(cfg, y, g.w, LocalOf(g, y), f);
    StepParts(cfg, y, g.w, LocalOf(g, y), f);
  }

  lemma DueExtend(cfg: Config, g: Global, id: nat, f: Fault, x: string)
    requires Due(g, x) && Grown(g, x) && Accounted(g, x) && NonNegative(g, ExtendWrite(id, f), x)
    ensures var h := DoExtendWrite(g, id, f); Due(h, x) && Grown(h, x)
  {
    hide PutEnv;
    if id in g.extensions {
      var u := g.extensions[id];
      ExtendWrites(g, id, f);
      if Accepted(g.w, u, f) {
        PutEnvParts(g.w, u.env, g.w.envs[u.env].(status := Extended(u).status));
        PutEnvFrame(g.w, u.env, g.w.envs[u.env].(status := Extended(u).status));
      }
    }
  }

  lemma {:induction false} DueRun(cfg: Config, g: Global, es: seq<Event>, x: string)
    requires Initial(g) && NonNegativeRun(cfg, g, es, x)
    ensures Due(Run(cfg, g, es), x) && Grown(Run(cfg, g, es), x)
  {
    hide Apply, NonNegative, Due, Grown, Accounted, Safe, Shaped;
    if es == [] {
      assert Due(g, x) && Grown(g, x) by { DueInitially(g, x); }
    } else {
      var before := es[..|es| - 1];
      DueRun(cfg, g, before, x);
      AccountedRun(cfg, g, before, x);
      SafeRun(cfg, g, before, x);
      ShapedRun(cfg, g, before, x);
      DueApply(cfg, Run(cfg, g, before), es[|es| - 1], x);
    }
  }

  lemma DueInitially(g: Global, x: string)
    requires Initial(g)
    ensures Due(g, x) && Grown(g, x)
  {
  }

  /** The namespace is deleted on expiry only after the expiry the pass found - which is never before
      the first one stored - or, if it found none, after creation plus TTL. */
  lemma {:induction false} NeverEarly(cfg: Config, g: Global, es: seq<Event>, x: string)
    requires Initial(g) && NonNegativeRun(cfg, g, es, x)
    requires LocalOf(Run(cfg, g, es), x).pc == DelNs(Expiring)
    ensures var h := Run(cfg, g, es); var l := LocalOf(h, x);
      if l.found.Some? then x in h.ledgers && h.ledgers[x].first <= l.found.value < h.w.now
      else CalculateExpirationTime(l.env) < h.w.now
  {
    hide Run;
    DueRun(cfg, g, es, x);
  }

  // ---------------------------------------------------------------- absorbing

  predicate NotExtended(g: Global, e: Event, x: string) {
    e.ExtendWrite? && e.id in g.extensions && g.extensions[e.id].env == x ==> !Accepted(g.w, g.extensions[e.id], e.fault)
  }

  ghost predicate UnextendedRun(cfg: Config, g: Global, es: seq<Event>, x: string) {
    es == [] || (UnextendedRun(cfg, g, es[..|es| - 1], x) && NotExtended(Run(cfg, g, es[..|es| - 1]), es[|es| - 1], x))
  }

  /** Of the incarnation `uid` of x: expired for good. */
  ghost predicate Absorbed(g: Global, x: string, uid: nat, expiry: Time, phase: Phase) {
    var l := LocalOf(g, x);
    && uid < g.w.nextVersion
    && (x in g.w.envs && g.w.envs[x].uid == uid ==>
          && g.w.envs[x].status.expirationTime == Some(expiry) && expiry < g.w.now
          && !Creating(l.pc)
          && (g.w.envs[x].status.phase == phase || g.w.envs[x].status.phase == Expired)
          && (TakingDown(l.pc) ==> l.env.status.phase == Expired))
  }

  lemma NextCreates(cfg: Config, x: string, l: Local, r: Reply, now: Time)
    requires !Creating(l.pc)
    ensures Creating(Next(cfg, x, l, r, now).pc) ==> ReadsEnv(l.pc) && r.AnEnv? && !IsExpired(Stamped(r.env), now)
  {
    hide Next;
    if Tearing(l.pc) { NextTearing(cfg, x, l, r, now); } else { NextOpening(cfg, x, l, r, now); }
  }

  lemma AbsorbedWrite(cfg: Config, g: Global, x: string, f: Fault, uid: nat, expiry: Time, phase: Phase)
    requires Absorbed(g, x, uid, expiry, phase) && Accounted(g, x) && Safe(g, x) && WritesEnv(LocalOf(g, x).pc)
    requires x in g.w.envs && g.w.envs[x].uid == uid
    ensures Absorbed(DoWork(cfg, g, x, f), x, uid, expiry, phase)
  {
    hide Step, Next, Opened, NsName, Live;
    var w, l := g.w, LocalOf(g, x);
    var s := Step(cfg, x, w, l, f);
    WriteOutcome(cfg, x, w, l, f);
    NextCreates(cfg, x, l, s.reply, w.now);
    NextTakesDown(cfg, x, l, s.reply, w.now);
  }

  lemma AbsorbedWork(cfg: Config, g: Global, x: string, f: Fault, uid: nat, expiry: Time, phase: Phase)
    requires Absorbed(g, x, uid, expiry, phase) && Accounted(g, x) && Safe(g, x)
    ensures Absorbed(DoWork(cfg, g, x, f), x, uid, expiry, phase)
  {
    hide Step, Next, Opened, NsName, Live;
    var w, l := g.w, LocalOf(g, x);
    if x !in w.envs || w.envs[x].uid != uid {
      StepStatus(cfg, x, w, l, f);
    } else if WritesEnv(l.pc) {
      AbsorbedWrite(cfg, g, x, f, uid, expiry, phase);
    } else {
      var s := Step(cfg, x, w, l, f);
      StepParts(cfg, x, w, l, f);
      NextCreates(cfg, x, l, s.reply, w.now);
      NextTakesDown(cfg, x, l, s.reply, w.now);
    }
  }

  lemma AbsorbedApply(cfg: Config, g: Global, e: Event, x: string, uid: nat, expiry: Time, phase: Phase)
    requires Absorbed(g, x, uid, expiry, phase) && Accounted(g, x) && Safe(g, x) && NotExtended(g, e, x)
    ensures Absorbed(Apply(cfg, g, e), x, uid, expiry, phase)
  {
    hide Step, NsName, Live, Ambient, DoExtendWrite, DoWork, Accounted;
    match e
    case Work(y, f) =>
      if y == x { AbsorbedWork(cfg, g, x, f, uid, expiry, phase); } else { AbsorbedOther(cfg, g, y, f, x, uid, expiry, phase); }
    case ExtendWrite(id, f) => AbsorbedExtend(g, id, f, x, uid, expiry, phase);
    case ExtendRead(_, _, _) =>
    case CreateEnv(_, _, _, _) =>
    case _ => AmbientEnv(g.w, e, x); ClockForward(g.w, e);
  }

  lemma AbsorbedOther(cfg: Config, g: Global, y: string, f: Fault, x: string, uid: nat, expiry: Time, phase: Phase)
    requires x != y && Absorbed(g, x, uid, expiry, phase)
    ensures Absorbed(DoWork(cfg, g, y, f), x, uid, expiry, phase)
  {
    hide Step, Opened;
    StepStatus(cfg, y, g.w, LocalOf(g, y), f);
    StepParts(cfg, y, g.w, LocalOf(g, y), f);
  }

  lemma AbsorbedExtend(g: Global, id: nat, f: Fault, x: string, uid: nat, expiry: Time, phase: Phase)
    requires Absorbed(g, x, uid, expiry, phase) && NotExtended(g, ExtendWrite(id, f), x)
    ensures Absorbed(DoExtendWrite(g, id, f), x, uid, expiry, phase)
  {
    hide PutEnv, Opened, Credit;
    if id in g.extensions {
      var u := g.extensions[id];
      ExtendWrites(g, id, f);
      if Accepted(g.w, u, f) {
        PutEnvParts(g.w, u.env, g.w.envs[u.env].(status := Extended(u).status));
        PutEnvFrame(g.w, u.env, g.w.envs[u.env].(status := Extended(u).status));
      }
    }
  }

  lemma {:induction false} AbsorbedRun(cfg: Config, g: Global, es: seq<Event>, more: seq<Event>, x: string, uid: nat, expiry: Time, phase: Phase)
    requires Initial(g) && Absorbed(Run(cfg, g, es), x, uid, expiry, phase)
    requires UnextendedRun(cfg, Run(cfg, g, es), more, x)
    ensures Absorbed(Run(cfg, Run(cfg, g, es), more), x, uid, expiry, phase)
  {
    hide Apply, Absorbed, Accounted, Safe, NotExtended;
    if more != [] {
      var before := more[..|more| - 1];
      AbsorbedRun(cfg, g, es, before, x, uid, expiry, phase);
      RunConcat(cfg, g, es, before);
      AccountedRun(cfg, g, es + before, x);
      SafeRun(cfg, g, es + before, x);
      AbsorbedApply(cfg, Run(cfg, Run(cfg, g, es), before), more[|more| - 1], x, uid, expiry, phase);
    }
  }

  /** From the first expiry pass on, if no further extension is accepted: however the run goes on, no pass
      for this incarnation is in the create path, and its stored phase is what it was or Expired. */
  lemma {:induction false} ExpiryAbsorbs(cfg: Config, g: Global, es: seq<Event>, more: seq<Event>, x: string)
    requires Initial(g)
    requires var h := Run(cfg, g, es);
      x in h.w.envs && TakingDown(LocalOf(h, x).pc) && IsExpired(h.w.envs[x], h.w.now)
      && UnextendedRun(cfg, h, more, x)
    ensures var h := Run(cfg, g, es); var k := Run(cfg, h, more);
      x in k.w.envs && k.w.envs[x].uid == h.w.envs[x].uid ==>
        !Creating(LocalOf(k, x).pc) && k.w.envs[x].status.phase in {h.w.envs[x].status.phase, Expired}
  {
    var h := Run(cfg, g, es);
    hide Run;
    AccountedRun(cfg, g, es, x);
    ShapedRun(cfg, g, es, x);
    AbsorbedRun(cfg, g, es, more, x, h.w.envs[x].uid, h.w.envs[x].status.expirationTime.value, h.w.envs[x].status.phase);
  }

  // ---------------------------------------------------------------- when it is early after all

  /** An environment whose expiry was never stored (its passes so far failed to write the status), past
      creation plus TTL, with a live namespace and nothing else to clean up. */
  predicate Unstored(cfg: Config, g: Global, x: string) {
    && x in g.w.envs && LocalOf(g, x).pc.Idle? && !cfg.helm
    && Live(g.w, NsName(x)) && Key(HTTPRoute, g.w.envs[x].spec.gateway.namespace, RouteName(x)) !in g.w.objs
    && (var env := g.w.envs[x];
        !env.deleting && FINALIZER in env.finalizers && env.status.expirationTime.None? && CalculateExpirationTime(env) < g.w.now)
  }

  lemma FetchUnstored(cfg: Config, g: Global, x: string)
    requires Unstored(cfg, g, x)
    ensures var h := DoWork(cfg, g, x, NoFault); var l := LocalOf(h, x);
      && h == g.(locals := h.locals) && l.pc == GetRoute(Expiring) && l.env.spec == g.w.envs[x].spec && l.found.None?
  {
    hide NsName, RouteName;
  }

  lemma ExtendUnstored(g: Global, x: string, id: nat, d: Time)
    requires x in g.w.envs && g.w.envs[x].status.expirationTime.None?
    requires id in g.extensions && g.extensions[id] == Extension(x, g.w.envs[x], g.w.now, d)
    requires g.w.envs[x].deleting ==> g.w.envs[x].finalizers != {}
    ensures var h := DoExtendWrite(g, id, NoFault);
      && h.locals == g.locals && h.w == g.w.(envs := h.w.envs, nextVersion := h.w.nextVersion)
      && x in h.w.envs && h.w.envs[x].status.expirationTime == Some(g.w.now + d)
      && x in h.ledgers && h.ledgers[x] == Ledger(g.w.now + d, 0)
  {
  }

  lemma SkipRoute(cfg: Config, g: Global, x: string)
    requires var l := LocalOf(g, x); l.pc == GetRoute(Expiring) && Key(HTTPRoute, l.env.spec.gateway.namespace, RouteName(x)) !in g.w.objs
    requires !cfg.helm
    ensures var h := DoWork(cfg, g, x, NoFault);
      h == g.(locals := h.locals, ledgers := h.ledgers) && LocalOf(h, x) == LocalOf(g, x).(pc := FindNs(Expiring))
      && h.ledgers == g.ledgers
  {
    hide NsName, RouteName;
  }

  /** A fetch, and an extension read and accepted after it. */
  lemma ExtendedMeanwhile(cfg: Config, g: Global, x: string, id: nat, d: Time)
    requires Unstored(cfg, g, x) && d > 0
    ensures var h := Run(cfg, g, [Work(x, NoFault), ExtendRead(id, x, d), ExtendWrite(id, NoFault)]); var l := LocalOf(h, x);
      && l.pc == GetRoute(Expiring) && l.env.spec == g.w.envs[x].spec && l.found.None?
      && h.w == g.w.(envs := h.w.envs, nextVersion := h.w.nextVersion) && x in h.ledgers && h.ledgers[x].first > h.w.now
  {
    hide Run, DoWork, DoExtendWrite, NsName, RouteName, Ambient, Live;
    var e1, e2, e3 := Work(x, NoFault), ExtendRead(id, x, d), ExtendWrite(id, NoFault);
    assert [] + [e1] == [e1] && [e1] + [e2] == [e1, e2] && [e1, e2] + [e3] == [e1, e2, e3];
    assert Run(cfg, g, []) == g by { RunNothing(cfg, g); }
    RunSnoc(cfg, g, [], e1);
    FetchUnstored(cfg, g, x);
    RunSnoc(cfg, g, [e1], e2);
    RunSnoc(cfg, g, [e1, e2], e3);
    ExtendUnstored(Run(cfg, g, [e1, e2]), x, id, d);
  }

  /** `NeverEarly` cannot promise more: if no expiry was stored when the pass began, an extension accepted
      during the pass opens the ledger in the future, and the namespace is deleted all the same. */
  lemma EarlyTakedown(cfg: Config, g: Global, x: string, id: nat, d: Time)
    requires Unstored(cfg, g, x) && d > 0
    ensures var es := [Work(x, NoFault), ExtendRead(id, x, d), ExtendWrite(id, NoFault), Work(x, NoFault), Work(x, NoFault)];
      var h := Run(cfg, g, es);
      LocalOf(h, x).pc == DelNs(Expiring) && LocalOf(h, x).found.None? && x in h.ledgers && h.ledgers[x].first > h.w.now
  {
    hide Run, DoWork, NsName, RouteName;
    var e1 := Work(x, NoFault);
    var es := [e1, ExtendRead(id, x, d), ExtendWrite(id, NoFault)];
    assert es + [e1] + [e1] == [e1, ExtendRead(id, x, d), ExtendWrite(id, NoFault), e1, e1];
    ExtendedMeanwhile(cfg, g, x, id, d);
    RunSnoc(cfg, g, es, e1);
    SkipRoute(cfg, Run(cfg, g, es), x);
    RunSnoc(cfg, g, es + [e1], e1);
    Backing.NsFound(cfg, Run(cfg, g, es + [e1]), x);
  }
}

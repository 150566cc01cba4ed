/** Deletion terminates: only failing namespace and finalizer calls can hold it up. */
module Removal {
  import opened Model
  import opened Store
  import opened Machine
  import opened Progress
  import opened Teardown
  import opened Calls
  import opened Protocol
  import opened Runs
  import opened Pass

  /** Between the calls time passes and the namespace controller does its work, no more. */
  predicate Helpful(es: seq<Event>) { forall i :: 0 <= i < |es| ==> es[i].Tick? || es[i].FinishNs? || es[i].ReapObj? }
  predicate Helped(fates: seq<Fate>) { forall i :: 0 <= i < |fates| ==> Helpful(fates[i].before) }

  /** Nothing but objects and terminating namespaces has gone. */
  ghost predicate Fades(w: World, v: World) {
    && v.envs == w.envs && v.nextVersion == w.nextVersion
    && (forall k :: k in v.objs ==> k in w.objs)
    && (forall n :: Live(v, n) ==> Live(w, n))
  }

  lemma FadesTrans(w: World, v: World, u: World)
    requires Fades(w, v) && Fades(v, u)
    ensures Fades(w, u)
  {
    hide Live;
  }

  lemma FadesOne(cfg: Config, g: Global, e: Event)
    requires e.Tick? || e.FinishNs? || e.ReapObj?
    ensures Fades(g.w, Apply(cfg, g, e).w)
  {
    hide DoEdit, DoDelete, EnvPrefixed, DoWork, DoExtendWrite, DoCreate;
  }

  lemma {:induction false} FadesBetween(cfg: Config, x: string, g: Global, es: seq<Event>)
    requires Helpful(es)
    ensures Fades(g.w, Run(cfg, g, Others(x, es)).w)
  {
    hide Apply, Fades;
    if es == [] {
      assert Fades(g.w, g.w) by { FadesSelf(g.w); }
    } else {
      var before, e := es[..|es| - 1], es[|es| - 1];
      FadesBetween(cfg, x, g, before);
      RunSnoc(cfg, g, Others(x, before), e);
      FadesOne(cfg, Run(cfg, g, Others(x, before)), e);
      FadesTrans(g.w, Run(cfg, g, Others(x, before)).w, Run(cfg, g, Others(x, es)).w);
    }
  }

  lemma FadesSelf(w: World)
    ensures Fades(w, w)
  {
  }

  // ---------------------------------------------------------------- one step

  /** Marked for deletion, and our finalizer holds it. */
  predicate Doomed(w: World, x: string) {
    x in w.envs && w.envs[x].deleting && FINALIZER in w.envs[x].finalizers
  }

  function Routes(x: string, ns: string): (Key, Key) {
    (Key(HTTPRoute, ns, AdminRouteName(x)), Key(HTTPRoute, ns, RouteName(x)))
  }

  /** A point of a deletion pass: the copy is current, and what lies behind is gone if its calls were fine. */
  ghost predicate Removing(w: World, x: string, l: Local, routesFine: bool) {
    && Doomed(w, x)
    && l.env.spec == w.envs[x].spec && l.env.uid == w.envs[x].uid && l.env.resourceVersion == w.envs[x].resourceVersion
    && (Tearing(l.pc) ==> PathOf(l.pc).Deleting? && l.env.finalizers == w.envs[x].finalizers)
    && (l.pc.DropFinalizer? ==> !Live(w, NsName(x)) && l.env.finalizers == w.envs[x].finalizers - {FINALIZER})
    && (Tearing(l.pc) || l.pc.DropFinalizer?)
    && (routesFine ==>
          && (!l.pc.GetAdmin? && !l.pc.DelAdmin? ==> Routes(x, l.env.spec.gateway.namespace).0 !in w.objs)
          && (PastRoute(l.pc) ==> Routes(x, l.env.spec.gateway.namespace).1 !in w.objs))
  }

  predicate Critical(pc: Pc) { pc.Idle? || pc.FindNs? || pc.DelNs? || pc.DropFinalizer? }
  predicate RouteCall(pc: Pc) { pc.GetAdmin? || pc.DelAdmin? || pc.GetRoute? || pc.DelRoute? }

  function CriticalFaults(calls: seq<Moment>): nat {
    if calls == [] then 0 else (if Critical(calls[0].pc) && !calls[0].fault.NoFault? then 1 else 0) + CriticalFaults(calls[1..])
  }

  predicate RouteCallsFine(calls: seq<Moment>) {
    calls == [] || ((RouteCall(calls[0].pc) ==> calls[0].fault.NoFault?) && RouteCallsFine(calls[1..]))
  }

  /** The resource is gone, or what holds it are the finalizers of others; and so is its namespace. */
  ghost predicate Released(w: World, x: string) {
    && !Live(w, NsName(x))
    && (x in w.envs ==> FINALIZER !in w.envs[x].finalizers)
  }

  lemma RemovingFades(w: World, v: World, x: string, l: Local, routesFine: bool)
    requires Removing(w, x, l, routesFine) && Fades(w, v)
    ensures Removing(v, x, l, routesFine)
  {
    hide NsName, RouteName, AdminRouteName;
  }

  /** The calls on the routes and on the namespace. */
  lemma RemovalCalls(cfg: Config, x: string, w: World, l: Local, f: Fault)
    requires Tearing(l.pc)
    ensures var s := Step(cfg, x, w, l, f); var ns := l.env.spec.gateway.namespace;
      && Fades(w, s.w)
      && (f.NoFault? && l.pc.GetAdmin? && !s.reply.AnObj? ==> Routes(x, ns).0 !in s.w.objs)
      && (f.NoFault? && l.pc.DelAdmin? ==> Routes(x, ns).0 !in s.w.objs)
      && (f.NoFault? && l.pc.GetRoute? && !s.reply.AnObj? ==> Routes(x, ns).1 !in s.w.objs)
      && (f.NoFault? && l.pc.DelRoute? ==> Routes(x, ns).1 !in s.w.objs)
      && (f.NoFault? && l.pc.FindNs? ==> s.reply.NotFound? || s.reply.ANamespace?)
      && (f.NoFault? && l.pc.DelNs? ==> s.reply.NotFound? || s.reply.Done?)
      && (NsGoing(l, s.reply) ==> !Live(s.w, NsName(x)))
  {
    hide Next, NsName, RouteName, AdminRouteName, Release, LegacyRelease, StageObj, StageKey, OwnerLabels, AcceptsObjects, WriteEnv, TrackedName;
    StepParts(cfg, x, w, l, f);
  }

  lemma AdminFirst(cfg: Config, x: string, l: Local, r: Reply, now: Time)
    requires Tearing(l.pc)
    ensures var m := Next(cfg, x, l, r, now);
      && !m.pc.GetAdmin? && (m.pc.DelAdmin? ==> l.pc.GetAdmin?) && (l.pc.GetAdmin? && r.AnObj? ==> m.pc.DelAdmin?)
      && (l.pc.GetRoute? && r.AnObj? ==> m.pc.DelRoute?)
      && (l.pc.FindNs? && r.ANamespace? && !r.seenNs.terminating ==> m.pc.DelNs?)
  {
    hide TrackedFrom, UninstallFrom;
    if l.pc.GetRoute? || l.pc.DelRoute? { UninstallKeeps(cfg, l, PathOf(l.pc), 0); }
    if l.pc.CheckTracked? || l.pc.DelTracked? { UninstallKeeps(cfg, l, PathOf(l.pc), l.pc.i + 1); }
  }

  lemma RemovingStep(cfg: Config, x: string, w: World, l: Local, f: Fault, routesFine: bool)
    requires Removing(w, x, l, routesFine) && Tearing(l.pc)
    ensures var s := Step(cfg, x, w, l, f); var fine := routesFine && (RouteCall(l.pc) ==> f.NoFault?);
      && Doomed(s.w, x)
      && (if s.l.pc.Idle? then Critical(l.pc) && !f.NoFault? else Removing(s.w, x, s.l, fine))
  {
    hide Step, Next, NsName, RouteName, AdminRouteName;
    var s := Step(cfg, x, w, l, f);
    RemovalCalls(cfg, x, w, l, f);
    StepParts(cfg, x, w, l, f);
    NextTearing(cfg, x, l, s.reply, w.now);
    AdminFirst(cfg, x, l, s.reply, w.now);
  }

  lemma DroppingStep(cfg: Config, x: string, w: World, l: Local, f: Fault, routesFine: bool)
    requires Removing(w, x, l, routesFine) && l.pc.DropFinalizer?
    ensures var s := Step(cfg, x, w, l, f); var keys := Routes(x, w.envs[x].spec.gateway.namespace);
      && s.l.pc.Idle?
      && (if f.NoFault? || f.AnswerLost? then
            && Released(s.w, x) && (routesFine ==> keys.0 !in s.w.objs && keys.1 !in s.w.objs)
            && (w.envs[x].finalizers == {FINALIZER} ==> x !in s.w.envs)
          else Doomed(s.w, x))
  {
    hide Step, Next, NsName, RouteName, AdminRouteName;
    var s := Step(cfg, x, w, l, f);
    WriteOutcome(cfg, x, w, l, f);
    StepParts(cfg, x, w, l, f);
    NextOpening(cfg, x, l, s.reply, w.now);
    EnvStep(cfg, x, w, l, f);
  }

  // ---------------------------------------------------------------- a deletion pass

  predicate RoutesGone(w: World, x: string, ns: string) {
    Routes(x, ns).0 !in w.objs && Routes(x, ns).1 !in w.objs
  }

  /** How a pass for a doomed resource ends. */
  ghost predicate RemovalEnds(x: string, env: EphemeralEnv, c: Completion, calls: seq<Moment>, routesFine: bool) {
    && Helped(c.rest)
    && (Doomed(c.g.w, x) ==> CriticalFaults(calls) > 0 && c.g.w.envs[x] == env)
    && (!Doomed(c.g.w, x) ==>
          && Released(c.g.w, x)
          && (env.finalizers == {FINALIZER} ==> x !in c.g.w.envs)
          && (routesFine && RouteCallsFine(calls) ==> RoutesGone(c.g.w, x, env.spec.gateway.namespace)))
  }

  lemma FirstCall(m: Moment, calls: seq<Moment>)
    ensures CriticalFaults([m] + calls) == (if Critical(m.pc) && !m.fault.NoFault? then 1 else 0) + CriticalFaults(calls)
    ensures RouteCallsFine([m] + calls) <==> (RouteCall(m.pc) ==> m.fault.NoFault?) && RouteCallsFine(calls)
  {
    assert ([m] + calls)[1..] == calls;
  }

  lemma HelpedMeet(cfg: Config, x: string, g: Global, fates: seq<Fate>)
    requires Helped(fates)
    ensures var v := Disturbed(cfg, x, g, NextFate(fates)).w; var h := Meet(cfg, x, g, NextFate(fates));
      && Helped(LaterFates(fates)) && Fades(g.w, v)
      && h.w == Step(cfg, x, v, LocalOf(g, x), NextFate(fates).fault).w && LocalOf(h, x) == Step(cfg, x, v, LocalOf(g, x), NextFate(fates).fault).l
  {
    hide Run, Step, Fades, Meet;
    FadesBetween(cfg, x, g, NextFate(fates).before);
    MeetLocal(cfg, x, g, NextFate(fates));
  }

  lemma {:induction false} RemovalComplete(cfg: Config, x: string, g: Global, fates: seq<Fate>, routesFine: bool)
    requires Sound(cfg, x, LocalOf(g, x)) && Helped(fates)
    requires Removing(g.w, x, LocalOf(g, x), routesFine)
    ensures var c := Complete(cfg, x, g, fates); RemovalEnds(x, g.w.envs[x], c, c.calls, routesFine)
    decreases Part(LocalOf(g, x).pc), Ahead(LocalOf(g, x)), Turn(LocalOf(g, x).pc), Left(LocalOf(g, x))
  {
    hide Meet, Sound, Step, Fades, Run, Part, Ahead, Turn, Left, NsName, RouteName, AdminRouteName, Helped, CriticalFaults, RouteCallsFine, Live;
    var fate, here := NextFate(fates), LocalOf(g, x);
    var h, v := Meet(cfg, x, g, fate), Disturbed(cfg, x, g, fate).w;
    MeetMoves(cfg, x, g, fate);
    HelpedMeet(cfg, x, g, fates);
    RemovingFades(g.w, v, x, here, routesFine);
    FadesEnvs(g.w, v);
    var d := Complete(cfg, x, h, LaterFates(fates));
    FirstCall(Moment(here.pc, fate.fault), d.calls);
    if here.pc.DropFinalizer? {
      DroppingStep(cfg, x, v, here, fate.fault, routesFine);
      if !(fate.fault.NoFault? || fate.fault.AnswerLost?) { EnvsAfter(cfg, x, v, here, fate.fault); }
    } else {
      var fine := routesFine && (RouteCall(here.pc) ==> fate.fault.NoFault?);
      RemovingStep(cfg, x, v, here, fate.fault, routesFine);
      EnvsAfter(cfg, x, v, here, fate.fault);
      if !LocalOf(h, x).pc.Idle? { RemovalComplete(cfg, x, h, LaterFates(fates), fine); }
    }
  }

  lemma FadesEnvs(w: World, v: World)
    requires Fades(w, v)
    ensures v.envs == w.envs
  {
  }

  lemma EnvsAfter(cfg: Config, x: string, w: World, l: Local, f: Fault)
    requires Tearing(l.pc) || (l.pc.DropFinalizer? && !(f.NoFault? || f.AnswerLost?))
    ensures Step(cfg, x, w, l, f).w.envs == w.envs
  {
    hide Step, Next;
    StepParts(cfg, x, w, l, f);
    if l.pc.DropFinalizer? { EnvStep(cfg, x, w, l, f); }
  }

  lemma RemovalFetch(cfg: Config, x: string, w: World, l: Local, f: Fault)
    requires l.pc.Idle? && Doomed(w, x)
    ensures var s := Step(cfg, x, w, l, f);
      s.w == w && (if s.l.pc.Idle? then !f.NoFault? else Removing(w, x, s.l, true))
  {
    hide Step, Next, NsName, RouteName, AdminRouteName;
    var s := Step(cfg, x, w, l, f);
    StepParts(cfg, x, w, l, f);
    NextOpening(cfg, x, l, s.reply, w.now);
    if f.NoFault? { Reads(cfg, x, w, l); }
  }

  lemma Reads(cfg: Config, x: string, w: World, l: Local)
    requires x in w.envs && ReadsEnv(l.pc)
    ensures Step(cfg, x, w, l, NoFault).reply == AnEnv(w.envs[x])
  {
    hide Next;
    FetchesOwn(cfg, x, l);
  }

  lemma RemovalPass(cfg: Config, x: string, g: Global, fates: seq<Fate>)
    requires LocalOf(g, x).pc.Idle? && Helped(fates) && Doomed(g.w, x)
    ensures var c := OnePass(cfg, x, g, fates); RemovalEnds(x, g.w.envs[x], c, c.calls, true)
  {
    hide Meet, Sound, Step, Fades, Run, NsName, RouteName, AdminRouteName, Helped, CriticalFaults, RouteCallsFine, Live, Removing;
    var fate, here := NextFate(fates), LocalOf(g, x);
    var h, v := Meet(cfg, x, g, fate), Disturbed(cfg, x, g, fate).w;
    IdleSound(cfg, x, here);
    MeetMoves(cfg, x, g, fate);
    HelpedMeet(cfg, x, g, fates);
    FadesEnvs(g.w, v);
    RemovalFetch(cfg, x, v, here, fate.fault);
    var d := Complete(cfg, x, h, LaterFates(fates));
    FirstCall(Moment(here.pc, fate.fault), d.calls);
    if !LocalOf(h, x).pc.Idle? { RemovalComplete(cfg, x, h, LaterFates(fates), true); }
  }

  /** The critical calls - fetch, namespace, finalizer - that fail in the first n passes. */
  ghost function CriticalIn(cfg: Config, x: string, g: Global, fates: seq<Fate>, n: nat): nat
    requires LocalOf(g, x).pc.Idle?
    decreases n
  {
    if n == 0 then 0
    else
      var c := OnePass(cfg, x, g, fates);
      CriticalFaults(c.calls) + CriticalIn(cfg, x, c.g, c.rest, n - 1)
  }

  /** What a resource under deletion comes to. */
  ghost predicate TakenDown(x: string, env: EphemeralEnv, c: Completion) {
    && Released(c.g.w, x)
    && (env.finalizers == {FINALIZER} ==> x !in c.g.w.envs)
    && (RouteCallsFine(c.calls) ==> RoutesGone(c.g.w, x, env.spec.gateway.namespace))
  }

  /** From any state with the deletion timestamp set: if at most k critical calls fail in the next k + 1
      passes, one of these passes removes our finalizer - and with it the resource, unless others hold it -
      with the namespace absent or terminating; route and release calls may fail as they like, but if no
      route call failed in that pass, neither route remains in the gateway namespace. */
  lemma {:induction false} DeletionTerminates(cfg: Config, x: string, g: Global, fates: seq<Fate>, k: nat)
    requires LocalOf(g, x).pc.Idle? && Helped(fates) && Doomed(g.w, x)
    requires CriticalIn(cfg, x, g, fates, k + 1) <= k
    ensures exists i: nat :: i <= k && TakenDown(x, g.w.envs[x], Nth(cfg, x, g, fates, i))
    decreases k
  {
    hide OnePass, Helped, Released, RoutesGone, RouteCallsFine, CriticalFaults;
    var c := OnePass(cfg, x, g, fates);
    RemovalPass(cfg, x, g, fates);
    if Doomed(c.g.w, x) {
      assert CriticalIn(cfg, x, g, fates, k + 1) == CriticalFaults(c.calls) + CriticalIn(cfg, x, c.g, c.rest, k);
      assert k > 0;
      DeletionTerminates(cfg, x, c.g, c.rest, k - 1);
      var i: nat :| i <= k - 1 && TakenDown(x, g.w.envs[x], Nth(cfg, x, c.g, c.rest, i));
      assert Nth(cfg, x, g, fates, i + 1) == Nth(cfg, x, c.g, c.rest, i);
    } else {
      assert Nth(cfg, x, g, fates, 0) == c;
    }
  }
}

/** What a takedown leaves of the route: exactly when it strands one. */
module Stranding {
  import opened Model
  import opened Store
  import opened Machine
  import opened Progress
  import opened Teardown
  import opened Calls
  import opened Protocol
  import opened Runs
  import opened Pass
  import opened Backing
  import opened Calm
  import opened Uninstalling

  function RouteOf(x: string, l: Local): Key { AppRoute(x, l.env.spec.gateway.namespace) }

  /** The delete of the route, or of the namespace, was carried out. */
  predicate Deletes(m: Moment, route: bool) {
    TakesEffect(m.fault) && (if route then m.pc.DelRoute? else m.pc.DelNs?)
  }

  predicate Deleted(calls: seq<Moment>, route: bool) {
    exists k :: 0 <= k < |calls| && Deletes(calls[k], route)
  }

  predicate Held(w: World, x: string) { x in w.envs && FINALIZER in w.envs[x].finalizers }

  /** From the route on: the finalizer is only about to go once the namespace is. */
  predicate Descending(w: World, x: string, l: Local) {
    && ((Tearing(l.pc) && !l.pc.GetAdmin? && !l.pc.DelAdmin?) || l.pc.DropFinalizer? || l.pc.SaveExpired? || l.pc.Idle?)
    && (l.pc.DropFinalizer? ==> !Live(w, NsName(x)))
  }

  /** The route goes with its delete, the namespace with its own, and the resource not before it. */
  ghost predicate Outcome(w: World, v: World, x: string, l: Local, routeDeleted: bool, nsDeleted: bool) {
    && v.objs == (if routeDeleted then w.objs - {RouteOf(x, l)} else w.objs)
    && (Live(v, NsName(x)) <==> Live(w, NsName(x)) && !nsDeleted)
    && (Held(w, x) && Live(v, NsName(x)) ==> Held(v, x) && v.envs[x].spec == w.envs[x].spec)
  }

  lemma NsTaken(w: World, n: string, f: Fault)
    ensures var d := Exec(w, DeleteNamespace(n), f);
      && (Live(d.w, n) <==> Live(w, n) && !TakesEffect(f))
      && (d.reply.Done? || d.reply.NotFound? ==> !Live(d.w, n))
  {
    hide WriteEnv, WriteObj, WriteRelease, Read;
  }

  lemma DescendNs(cfg: Config, x: string, w: World, l: Local, f: Fault)
    requires l.pc.FindNs? || l.pc.DelNs?
    ensures var s := Step(cfg, x, w, l, f);
      && (Live(s.w, NsName(x)) <==> Live(w, NsName(x)) && !(l.pc.DelNs? && TakesEffect(f)))
      && (NsGoing(l, s.reply) ==> !Live(s.w, NsName(x)))
  {
    hide Next, NsName, Exec, Live;
    if l.pc.FindNs? { NsReading(w, NsName(x), f); NotLive(w, NsName(x), Exec(w, GetNamespace(NsName(x)), f).reply); } else { NsTaken(w, NsName(x), f); }
  }

  lemma NotLive(w: World, n: string, r: Reply)
    requires r.ANamespace? ==> n in w.namespaces && w.namespaces[n] == r.seenNs
    requires r.NotFound? ==> n !in w.namespaces
    ensures r.NotFound? || (r.ANamespace? && r.seenNs.terminating) ==> !Live(w, n)
  {
  }

  lemma DescendRoute(cfg: Config, x: string, w: World, l: Local, f: Fault)
    requires l.pc.DelRoute?
    ensures Step(cfg, x, w, l, f).w.objs == if TakesEffect(f) then w.objs - {RouteOf(x, l)} else w.objs
  {
    hide Next, RouteName, WriteEnv, WriteNs, WriteRelease;
    assert RouteOf(x, l) !in w.objs ==> w.objs - {RouteOf(x, l)} == w.objs;
  }

  lemma SameLive(w: World, v: World, n: string)
    requires v.namespaces == w.namespaces
    ensures Live(v, n) <==> Live(w, n)
  {
  }

  lemma Descends(cfg: Config, x: string, w: World, l: Local, f: Fault)
    requires Descending(w, x, l) && !l.pc.Idle?
    ensures var s := Step(cfg, x, w, l, f); var m := Moment(l.pc, f);
      && Outcome(w, s.w, x, l, Deletes(m, true), Deletes(m, false))
      && Descending(s.w, x, s.l) && RouteOf(x, s.l) == RouteOf(x, l)
  {
    hide Step, Next, NsName, NsGoing, Live, TakesEffect, RouteName;
    var s := Step(cfg, x, w, l, f);
    StepParts(cfg, x, w, l, f);
    if Tearing(l.pc) { NextTearing(cfg, x, l, s.reply, w.now); } else { NextOpening(cfg, x, l, s.reply, w.now); }
    if l.pc.FindNs? || l.pc.DelNs? { DescendNs(cfg, x, w, l, f); } else { SameLive(w, s.w, NsName(x)); }
    if l.pc.DelRoute? { DescendRoute(cfg, x, w, l, f); }
    assert Held(w, x) && Live(w, NsName(x)) ==> Held(s.w, x) && s.w.envs[x].spec == w.envs[x].spec by {
      if l.pc.SaveExpired? { SaveHolds(cfg, x, w, l, f); }
    }
  }

  lemma SaveHolds(cfg: Config, x: string, w: World, l: Local, f: Fault)
    requires l.pc.SaveExpired?
    ensures var v := Step(cfg, x, w, l, f).w; Held(w, x) ==> Held(v, x) && v.envs[x].spec == w.envs[x].spec
  {
    hide Step;
    WriteOutcome(cfg, x, w, l, f);
  }

  lemma DeletedFirst(m: Moment, calls: seq<Moment>, route: bool)
    ensures Deleted([m] + calls, route) <==> Deletes(m, route) || Deleted(calls, route)
  {
    var all := [m] + calls;
    if Deleted(calls, route) {
      var k :| 0 <= k < |calls| && Deletes(calls[k], route);
      assert all[k + 1] == calls[k];
    }
    if Deleted(all, route) && !Deletes(m, route) {
      var k :| 0 <= k < |all| && Deletes(all[k], route);
      assert all[k] == calls[k - 1];
    }
    assert all[0] == m;
  }

  lemma OutcomesMeet(w: World, v: World, u: World, x: string, l: Local, l': Local, m: Moment, calls: seq<Moment>)
    requires Outcome(w, v, x, l, Deletes(m, true), Deletes(m, false)) && RouteOf(x, l') == RouteOf(x, l)
    requires Outcome(v, u, x, l', Deleted(calls, true), Deleted(calls, false))
    ensures Outcome(w, u, x, l, Deleted([m] + calls, true), Deleted([m] + calls, false))
  {
    hide Deleted, Deletes, NsName, Live, RouteOf;
    DeletedFirst(m, calls, true);
    DeletedFirst(m, calls, false);
    var k := RouteOf(x, l);
    assert w.objs - {k} - {k} == w.objs - {k};
  }

  lemma NothingHappens(w: World, x: string, l: Local)
    ensures Outcome(w, w, x, l, Deleted([], true), Deleted([], false))
  {
    hide NsName, Live;
  }

  lemma TimePassed(w: World, v: World, u: World, x: string, l: Local, route: bool, ns: bool)
    requires v == w.(now := v.now)
    ensures Outcome(v, u, x, l, route, ns) ==> Outcome(w, u, x, l, route, ns)
    ensures Descending(w, x, l) ==> Descending(v, x, l)
  {
    SameLive(w, v, NsName(x));
    hide NsName, Live, RouteOf;
  }

  lemma {:induction false} DescentEnds(cfg: Config, x: string, g: Global, fates: seq<Fate>)
    requires Sound(cfg, x, LocalOf(g, x)) && Descending(g.w, x, LocalOf(g, x)) && Undisturbed(fates)
    ensures var c := Complete(cfg, x, g, fates);
      Outcome(g.w, c.g.w, x, LocalOf(g, x), Deleted(c.calls, true), Deleted(c.calls, false))
    decreases Part(LocalOf(g, x).pc), Ahead(LocalOf(g, x)), Turn(LocalOf(g, x).pc), Left(LocalOf(g, x))
  {
    hide Meet, Sound, Step, Outcome, Deleted, Deletes, RouteOf, Part, Ahead, Turn, Left;
    var fate, here := NextFate(fates), LocalOf(g, x);
    if here.pc.Idle? {
      NothingHappens(g.w, x, here);
    } else {
      var v := Later(g.w, Seconds(fate.before));
      var h := Meet(cfg, x, g, fate);
      MeetMoves(cfg, x, g, fate);
      CalmMeet(cfg, x, g, fate);
      var c := Complete(cfg, x, g, fates);
      TimePassed(g.w, v, c.g.w, x, here, Deleted(c.calls, true), Deleted(c.calls, false));
      hide Descending;
      Descends(cfg, x, v, here, fate.fault);
      DescentEnds(cfg, x, h, LaterFates(fates));
      var d := Complete(cfg, x, h, LaterFates(fates));
      OutcomesMeet(v, h.w, d.g.w, x, here, LocalOf(h, x), Moment(here.pc, fate.fault), d.calls);
    }
  }

  /** A takedown or deletion that has yet to deal with the route, any of its calls failing, the routes backed
      before: they are backed afterwards exactly if there was none, or its delete was carried out, or the
      delete of the namespace was not. */
  lemma TakedownBacksRoutes(cfg: Config, x: string, g: Global, fates: seq<Fate>)
    requires LocalOf(g, x).pc.GetRoute? && Undisturbed(fates)
    requires RoutesBacked(g.w, x) && (x in g.w.envs ==> Held(g.w, x) && g.w.envs[x].spec.gateway.namespace == LocalOf(g, x).env.spec.gateway.namespace)
    ensures var c := FromHere(cfg, x, g, fates);
      RoutesBacked(c.g.w, x) <==> NoRoute(g.w, x) || Deleted(c.calls, true) || !Deleted(c.calls, false)
  {
    hide Complete, Deleted, NsName, RouteName, Live;
    EarlySound(cfg, x, LocalOf(g, x));
    DescentEnds(cfg, x, g, fates);
    var c := FromHere(cfg, x, g, fates);
    assert forall ns :: AppRoute(x, ns) in g.w.objs ==> AppRoute(x, ns) == RouteOf(x, LocalOf(g, x));
    GrantApart(x, LocalOf(g, x));
  }

  lemma GrantApart(x: string, l: Local)
    ensures Grant(x) != RouteOf(x, l)
  {
  }
}

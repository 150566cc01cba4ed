/** When a takedown comes before the first expiry ever stored, and when it cannot. */
module Earliness {
  import opened Model
  import opened Store
  import opened Machine
  import opened Progress
  import opened Teardown
  import opened Calls
  import opened Protocol
  import opened Scope
  import opened Runs
  import opened Extensions
  import opened Orphans
  import opened Pass
  import opened Reached
  import Backing
  import E = Expiry

  /** The first expiry stored for this incarnation of x is not yet past. */
  predicate Early(g: Global, x: string) {
    x in g.ledgers && g.ledgers[x].first >= g.w.now
  }

  /** What x can do by itself: its worker's calls, its extensions - and, where asked for, time passing. */
  predicate Own(e: Event, x: string, clock: bool) {
    match e
    case Work(y, _) => y == x
    case ExtendRead(_, y, _) => y == x
    case ExtendWrite(_, _) => true
    case Tick(_) => clock
    case _ => false
  }

  predicate AllOwn(es: seq<Event>, x: string, clock: bool) {
    forall i :: 0 <= i < |es| ==> Own(es[i], x, clock)
  }

  /** Such a continuation, with any faults and non-negative extensions, is about to delete x's namespace
      on expiry too early. */
  ghost predicate TakesEarly(cfg: Config, g: Global, x: string, more: seq<Event>, clock: bool) {
    && AllOwn(more, x, clock) && E.NonNegativeRun(cfg, g, more, x)
    && LocalOf(Run(cfg, g, more), x).pc == DelNs(Expiring) && Early(Run(cfg, g, more), x)
  }

  /** Creation plus TTL has not passed. */
  predicate TimeLeft(w: World, x: string) {
    x in w.envs && w.now <= CalculateExpirationTime(w.envs[x])
  }

  /** The state in which it can come to that: no expiry has been stored, and the namespace is live and x
      past its time - or, if there is time to pass, can still be made live and past. */
  predicate Exposed(w: World, x: string, clock: bool) {
    && x in w.envs && !w.envs[x].deleting && w.envs[x].status.expirationTime.None?
    && if Live(w, NsName(x)) then clock || !TimeLeft(w, x) else clock && NsName(x) !in w.namespaces && TimeLeft(w, x)
  }

  // ---------------------------------------------------------------- only from there

  /** The worker acts on a resource that it took for one not being deleted. */
  predicate Acting(pc: Pc) { pc.AddFinalizer? || pc.Refetch? || Creating(pc) || TakingDown(pc) }

  /** What a continuation from a store w0 and an idle worker keeps of the resource. */
  predicate SinceTerms(w0: World, g: Global, x: string, clock: bool) {
    var l := LocalOf(g, x);
    && w0.now <= g.w.now && (!clock ==> g.w.now == w0.now)
    && (x in g.w.envs ==> x in w0.envs && SameTerms(w0.envs[x], g.w.envs[x]))
    && (l.pc.AddFinalizer? || Tearing(l.pc) || l.pc.DropFinalizer? ==> x in w0.envs && l.env.spec == w0.envs[x].spec)
    && (Acting(l.pc) ==> x in w0.envs && !w0.envs[x].deleting)
    && (Protocol.Expiry(w0, x).Some? ==> x in g.ledgers)
  }

  /** How the pass under way began. */
  predicate SinceBegun(w0: World, g: Global, x: string) {
    var l := LocalOf(g, x);
    && (Creating(l.pc) ==> TimeLeft(w0, x) || x in g.ledgers)
    && (TakingDown(l.pc) && l.found.None? ==> x in w0.envs && Protocol.Expiry(w0, x).None? && CalculateExpirationTime(w0.envs[x]) < g.w.now)
  }

  /** A namespace that was not live then was made by a pass that had the time, or found an expiry. */
  predicate SinceNs(w0: World, g: Global, x: string) {
    var l := LocalOf(g, x);
    && (Terminating(w0, NsName(x)) ==> Terminating(g.w, NsName(x)))
    && (Live(g.w, NsName(x)) && !Live(w0, NsName(x)) ==> TimeLeft(w0, x) || (x in g.ledgers && !(TakingDown(l.pc) && l.found.None?)))
    && (l.pc.DelNs? ==> Live(g.w, NsName(x)))
  }

  predicate Since(w0: World, g: Global, x: string, clock: bool) {
    SinceTerms(w0, g, x, clock) && SinceBegun(w0, g, x) && SinceNs(w0, g, x)
  }

  predicate SameTerms(env: EphemeralEnv, env': EphemeralEnv) {
    env'.created == env.created && env'.spec == env.spec && env'.deleting == env.deleting
  }

  /** What a step of x's own worker does to the namespace. */
  lemma NsMoves(cfg: Config, x: string, w: World, l: Local, f: Fault)
    ensures var s := Step(cfg, x, w, l, f);
      && (Terminating(w, NsName(x)) ==> Terminating(s.w, NsName(x)))
      && (Live(s.w, NsName(x)) && !Live(w, NsName(x)) ==> l.pc.PutNs?)
      && (l.pc.FindNs? && s.reply.ANamespace? && !s.reply.seenNs.terminating ==> Live(s.w, NsName(x)))
  {
    hide Step, Next, NsName, Exec, Request, Terminating, Live;
    NsStep(cfg, x, w, l, f);
    StepParts(cfg, x, w, l, f);
    if l.pc.PutNs? || l.pc.DelNs? || l.pc.FindNs? { NsMovesTo(cfg, x, w, l, f); } else { SameNs(w, Step(cfg, x, w, l, f).w, NsName(x)); }
  }

  lemma SameNs(w: World, v: World, n: string)
    requires v.namespaces == w.namespaces
    ensures (Terminating(v, n) <==> Terminating(w, n)) && (Live(v, n) <==> Live(w, n))
  {
  }

  lemma NsMovesTo(cfg: Config, x: string, w: World, l: Local, f: Fault)
    requires l.pc.PutNs? || l.pc.DelNs? || l.pc.FindNs?
    ensures var s := Step(cfg, x, w, l, f);
      && (Terminating(w, NsName(x)) ==> Terminating(s.w, NsName(x)))
      && (l.pc.FindNs? && s.reply.ANamespace? && !s.reply.seenNs.terminating ==> Live(s.w, NsName(x)))
  {
    hide Next, NsName, WriteEnv, WriteObj, WriteRelease, OwnerLabels;
  }

  /** Where a local state after a step comes from. */
  lemma LocalMoves(cfg: Config, x: string, l: Local, r: Reply, now: Time)
    requires Building(l.pc) ==> Built(cfg, x, l)
    requires r.AnEnv? ==> ReadsEnv(l.pc)
    ensures var m := Next(cfg, x, l, r, now);
      && (m.pc.AddFinalizer? || Tearing(m.pc) || m.pc.DropFinalizer? ==> (r.AnEnv? && m.env.spec == r.env.spec) || (Tearing(l.pc) && m.env.spec == l.env.spec))
      && (Acting(m.pc) ==> Acting(l.pc) || (l.pc.Idle? && r.AnEnv? && !r.env.deleting))
      && (m.pc.DelNs? ==> l.pc.FindNs? && r.ANamespace? && !r.seenNs.terminating)
      && (Creating(m.pc) ==> Creating(l.pc) || (ReadsEnv(l.pc) && r.AnEnv? && !IsExpired(Stamped(r.env), now)))
  {
    hide Next, Built, NsGoing, NsEnsured, FailStep;
    if Building(l.pc) { NextBuilding(cfg, x, l, r, now); }
    else if Tearing(l.pc) { NextTearing(cfg, x, l, r, now); }
    else { NextOpening(cfg, x, l, r, now); if l.pc.GetNs? || l.pc.PutNs? { OpensStage(x, l, now); } }
  }

  lemma OpensStage(x: string, l: Local, now: Time)
    ensures NsEnsured(x, l, now).pc.GetStage? && FailStep(l, NamespaceStep).pc.Save?
  {
  }

  /** The terms of the resource are out of its own worker's reach. */
  lemma TermsStay(cfg: Config, x: string, w: World, l: Local, f: Fault)
    requires x in w.envs && (l.pc.AddFinalizer? || l.pc.DropFinalizer? ==> l.env.spec == w.envs[x].spec)
    ensures var v := Step(cfg, x, w, l, f).w; x in v.envs ==> SameTerms(w.envs[x], v.envs[x])
  {
    hide Step;
    StepParts(cfg, x, w, l, f);
    if WritesEnv(l.pc) { WriteOutcome(cfg, x, w, l, f); }
  }

  lemma TermsWork(cfg: Config, w0: World, g: Global, x: string, f: Fault, clock: bool)
    requires SinceTerms(w0, g, x, clock) && Shaped(cfg, g, x)
    ensures SinceTerms(w0, DoWork(cfg, g, x, f), x, clock)
  {
    hide Step, Next, Built, Shaped;
    var w, l := g.w, LocalOf(g, x);
    var s := Step(cfg, x, w, l, f);
    ShapedBuilt(cfg, g, x);
    StepParts(cfg, x, w, l, f);
    StepStatus(cfg, x, w, l, f);
    LocalMoves(cfg, x, l, s.reply, w.now);
    if x in w.envs { TermsStay(cfg, x, w, l, f); }
    hide Acting;
  }

  lemma BegunWork(cfg: Config, w0: World, g: Global, x: string, f: Fault, clock: bool)
    requires SinceTerms(w0, g, x, clock) && SinceBegun(w0, g, x) && Accounted(g, x) && Shaped(cfg, g, x)
    ensures SinceBegun(w0, DoWork(cfg, g, x, f), x)
  {
    hide Step, Next, Built, Shaped, CopyAgrees, Acting;
    var w, l := g.w, LocalOf(g, x);
    var s := Step(cfg, x, w, l, f);
    ShapedBuilt(cfg, g, x);
    StepParts(cfg, x, w, l, f);
    LocalMoves(cfg, x, l, s.reply, w.now);
    E.NextTakesDown(cfg, x, l, s.reply, w.now);
  }

  lemma NsWork(cfg: Config, w0: World, g: Global, x: string, f: Fault)
    requires SinceBegun(w0, g, x) && SinceNs(w0, g, x) && Accounted(g, x) && Safe(g, x) && Shaped(cfg, g, x)
    ensures SinceNs(w0, DoWork(cfg, g, x, f), x)
  {
    hide Step, Next, Built, Shaped, CopyAgrees, NsName, Live, Terminating, Acting;
    var w, l := g.w, LocalOf(g, x);
    var s := Step(cfg, x, w, l, f);
    ShapedBuilt(cfg, g, x);
    StepParts(cfg, x, w, l, f);
    LocalMoves(cfg, x, l, s.reply, w.now);
    E.NextTakesDown(cfg, x, l, s.reply, w.now);
    NsMoves(cfg, x, w, l, f);
  }

  lemma ShapedBuilt(cfg: Config, g: Global, x: string)
    requires Shaped(cfg, g, x)
    ensures Building(LocalOf(g, x).pc) ==> Built(cfg, x, LocalOf(g, x))
  {
    SoundBuilt(cfg, x, LocalOf(g, x));
  }

  lemma SinceExtend(w0: World, g: Global, x: string, id: nat, f: Fault, clock: bool)
    requires Since(w0, g, x, clock)
    ensures Since(w0, DoExtendWrite(g, id, f), x, clock)
  {
    hide PutEnv, Opened, Credit, NsName, Acting, Extended, Live, Terminating;
    if id in g.extensions {
      var u := g.extensions[id];
      ExtendWrites(g, id, f);
      LedgersOpen(g, id, f, x);
      if Accepted(g.w, u, f) {
        PutEnvParts(g.w, u.env, g.w.envs[u.env].(status := Extended(u).status));
        PutEnvFrame(g.w, u.env, g.w.envs[u.env].(status := Extended(u).status));
      }
      SameNs(g.w, DoExtendWrite(g, id, f).w, NsName(x));
      hide DoExtendWrite;
    }
  }

  lemma LedgersOpen(g: Global, id: nat, f: Fault, x: string)
    ensures var h := DoExtendWrite(g, id, f); h.locals == g.locals && (x in g.ledgers ==> x in h.ledgers)
  {
    hide Exec, Accepted, Extended;
  }

  lemma SinceQuiet(cfg: Config, w0: World, g: Global, e: Event, x: string, clock: bool)
    requires Since(w0, g, x, clock) && Own(e, x, clock) && !e.Work? && !e.ExtendWrite?
    ensures Since(w0, Apply(cfg, g, e), x, clock)
  {
    hide NsName, Acting, DoWork, DoExtendWrite, TimeLeft, SameTerms;
    SameNs(g.w, Apply(cfg, g, e).w, NsName(x));
    hide Live, Terminating;
  }

  lemma SinceApply(cfg: Config, w0: World, g: Global, e: Event, x: string, clock: bool)
    requires Since(w0, g, x, clock) && Own(e, x, clock) && Accounted(g, x) && Safe(g, x) && Shaped(cfg, g, x)
    ensures Since(w0, Apply(cfg, g, e), x, clock)
  {
    hide DoWork, DoExtendWrite, Ambient, Accounted, Safe, Shaped, SinceTerms, SinceBegun, SinceNs;
    match e
    case Work(y, f) =>
      TermsWork(cfg, w0, g, x, f, clock);
      BegunWork(cfg, w0, g, x, f, clock);
      NsWork(cfg, w0, g, x, f);
    case ExtendWrite(id, f) => SinceExtend(w0, g, x, id, f, clock);
    case _ => SinceQuiet(cfg, w0, g, e, x, clock);
  }

  lemma SinceNow(g: Global, x: string, clock: bool)
    requires LocalOf(g, x).pc.Idle? && Accounted(g, x)
    ensures Since(g.w, g, x, clock)
  {
    hide NsName, CopyAgrees;
  }

  lemma {:induction false} SinceRun(cfg: Config, g: Global, es: seq<Event>, more: seq<Event>, x: string, clock: bool)
    requires Initial(g) && LocalOf(Run(cfg, g, es), x).pc.Idle? && AllOwn(more, x, clock)
    ensures Since(Run(cfg, g, es).w, Run(cfg, Run(cfg, g, es), more), x, clock)
  {
    hide Apply, Since, Accounted, Safe, Shaped, Initial;
    var h := Run(cfg, g, es);
    if more == [] {
      AccountedRun(cfg, g, es, x);
      SinceNow(h, x, clock);
    } else {
      var before := more[..|more| - 1];
      SinceRun(cfg, g, es, before, x, clock);
      RunConcat(cfg, g, es, before);
      AccountedRun(cfg, g, es + before, x);
      SafeRun(cfg, g, es + before, x);
      ShapedRun(cfg, g, es + before, x);
      SinceApply(cfg, h.w, Run(cfg, h, before), more[|more| - 1], x, clock);
    }
  }

  lemma {:induction false} NonNegativeConcat(cfg: Config, g: Global, es: seq<Event>, more: seq<Event>, x: string)
    requires E.NonNegativeRun(cfg, g, es, x) && E.NonNegativeRun(cfg, Run(cfg, g, es), more, x)
    ensures E.NonNegativeRun(cfg, g, es + more, x)
  {
    hide E.NonNegative, Run;
    if more == [] {
      assert es + more == es;
    } else {
      var before := more[..|more| - 1];
      NonNegativeConcat(cfg, g, es, before, x);
      RunConcat(cfg, g, es, before);
      assert (es + more)[..|es + more| - 1] == es + before;
    }
  }

  /** An early takedown began with nothing stored, after creation plus TTL. */
  lemma EarlyExposed(cfg: Config, g: Global, es: seq<Event>, more: seq<Event>, x: string, clock: bool)
    requires Initial(g) && E.NonNegativeRun(cfg, g, es, x) && LocalOf(Run(cfg, g, es), x).pc.Idle?
    requires TakesEarly(cfg, Run(cfg, g, es), x, more, clock)
    ensures Exposed(Run(cfg, g, es).w, x, clock)
  {
    hide Run, E.NonNegativeRun, NsName, AllOwn;
    NonNegativeConcat(cfg, g, es, more, x);
    RunConcat(cfg, g, es, more);
    E.NeverEarly(cfg, g, es + more, x);
    SinceRun(cfg, g, es, more, x, clock);
  }

  // ---------------------------------------------------------------- and always from there

  lemma FetchLate(cfg: Config, g: Global, x: string)
    requires LocalOf(g, x).pc.Idle? && x in g.w.envs && FINALIZER in g.w.envs[x].finalizers
    requires var env := g.w.envs[x]; !env.deleting && env.status.expirationTime.None? && CalculateExpirationTime(env) < g.w.now
    ensures var h := DoWork(cfg, g, x, NoFault);
      h == g.(locals := h.locals) && LocalOf(h, x).pc == GetRoute(Expiring)
  {
  }

  /** On the way from the route to the namespace. */
  predicate Nearing(pc: Pc) { Tearing(pc) && PathOf(pc).Expiring? && !pc.DelNs? }

  lemma NearerNs(cfg: Config, g: Global, x: string)
    requires Nearing(LocalOf(g, x).pc) && !LocalOf(g, x).pc.FindNs? && Sound(cfg, x, LocalOf(g, x))
    ensures var h := DoWork(cfg, g, x, NoFault); var l, m := LocalOf(g, x), LocalOf(h, x);
      && h == g.(w := g.w.(objs := h.w.objs, releases := h.w.releases), locals := h.locals)
      && Nearing(m.pc) && Sound(cfg, x, m)
      && (if Turn(m.pc) != Turn(l.pc) then Turn(m.pc) < Turn(l.pc) else Left(m) < Left(l))
  {
    hide Step, Next, Sound, NsGoing, Turn, Left;
    var l := LocalOf(g, x);
    var s := Step(cfg, x, g.w, l, NoFault);
    StepParts(cfg, x, g.w, l, NoFault);
    NextTearing(cfg, x, l, s.reply, g.w.now);
    NextSound(cfg, x, l, s.reply, g.w.now);
    NextCloser(cfg, x, l, s.reply, g.w.now);
  }

  lemma {:induction false} ToNamespace(cfg: Config, g: Global, x: string) returns (es: seq<Event>)
    requires Nearing(LocalOf(g, x).pc) && Sound(cfg, x, LocalOf(g, x)) && Live(g.w, NsName(x))
    ensures var h := Run(cfg, g, es);
      && h == g.(w := g.w.(objs := h.w.objs, releases := h.w.releases), locals := h.locals)
      && LocalOf(h, x).pc == DelNs(Expiring)
    ensures OwnCalls(es, x)
    decreases Turn(LocalOf(g, x).pc), Left(LocalOf(g, x))
  {
    hide Run, DoWork, NsName, Sound, Turn, Left, Live;
    var e := Work(x, NoFault);
    RunNothing(cfg, g);
    OneWork(cfg, g, [], x, NoFault, g);
    assert [] + [e] == [e];
    if LocalOf(g, x).pc.FindNs? {
      Backing.NsFound(cfg, g, x);
      es := [e];
    } else {
      NearerNs(cfg, g, x);
      var h := DoWork(cfg, g, x, NoFault);
      SameNs(g.w, h.w, NsName(x));
      var later := ToNamespace(cfg, h, x);
      es := [e] + later;
      RunConcat(cfg, g, [e], later);
    }
  }

  lemma {:induction false} CallsNonNegative(cfg: Config, g: Global, es: seq<Event>, x: string, clock: bool)
    requires forall i :: 0 <= i < |es| ==> (es[i].Work? && es[i].x == x) || (clock && es[i].Tick?)
    ensures E.NonNegativeRun(cfg, g, es, x) && AllOwn(es, x, clock)
  {
    hide Run;
    if es != [] { CallsNonNegative(cfg, g, es[..|es| - 1], x, clock); }
  }

  /** An extension read and accepted at once. */
  function Extend(x: string, d: Time): seq<Event> { [ExtendRead(0, x, d), ExtendWrite(0, NoFault)] }

  lemma ExtendRuns(cfg: Config, g: Global, x: string, d: nat)
    requires x in g.w.envs
    ensures var e := ExtendRead(0, x, d); var f := ExtendWrite(0, NoFault); var h := Apply(cfg, g, e);
      && Run(cfg, g, Extend(x, d)) == DoExtendWrite(h, 0, NoFault) && h.w == g.w && h.locals == g.locals && h.ledgers == g.ledgers
      && h.extensions[0] == Extension(x, g.w.envs[x], g.w.now, d) && 0 in h.extensions
      && E.NonNegativeRun(cfg, g, Extend(x, d), x) && AllOwn(Extend(x, d), x, false)
  {
    hide Run, DoExtendWrite;
    var e, f := ExtendRead(0, x, d), ExtendWrite(0, NoFault);
    RunNothing(cfg, g);
    RunSnoc(cfg, g, [], e);
    RunSnoc(cfg, g, [e], f);
    assert [] + [e] == [e] && [e] + [f] == [e, f];
    assert [e, f][..1] == [e] && [e][..0] == [];
    assert E.NonNegativeRun(cfg, g, [e], x) by { assert E.NonNegativeRun(cfg, g, [], x) && E.NonNegative(g, e, x); }
    assert E.NonNegative(Run(cfg, g, [e]), f, x);
  }

  /** Where nothing is stored, it is the first expiry, and not yet past. */
  lemma ExtendAtLast(cfg: Config, g: Global, x: string, d: nat)
    requires x in g.w.envs && (g.w.envs[x].deleting ==> g.w.envs[x].finalizers != {}) && g.w.envs[x].status.expirationTime.None?
    ensures var h := Run(cfg, g, Extend(x, d)); LocalOf(h, x) == LocalOf(g, x) && Early(h, x)
  {
    hide Run, DoExtendWrite;
    ExtendRuns(cfg, g, x, d);
    E.ExtendUnstored(Apply(cfg, g, ExtendRead(0, x, d)), x, 0, d);
  }

  /** Where one is stored, the first expiry stays what it was. */
  lemma ExtendAgain(cfg: Config, g: Global, x: string, d: nat)
    requires x in g.w.envs && x in g.ledgers && Accounted(g, x)
    ensures var h := Run(cfg, g, Extend(x, d));
      LocalOf(h, x) == LocalOf(g, x) && h.w.now == g.w.now && x in h.ledgers && h.ledgers[x].first == g.ledgers[x].first
  {
    hide Run, PutEnv, CopyAgrees, E.NonNegativeRun;
    ExtendRuns(cfg, g, x, d);
    var h := Apply(cfg, g, ExtendRead(0, x, d));
    ExtendWrites(h, 0, NoFault);
    if Accepted(h.w, h.extensions[0], NoFault) { PutEnvFrame(h.w, x, h.w.envs[x].(status := Extended(h.extensions[0]).status)); }
  }

  /** At the very last call, in any run, whatever its pass has found and torn down: the takedown is early, or
      one extension still makes it so, exactly if the pass found no expiry and what has been stored since,
      if anything, is not past. */
  lemma LastMoment(cfg: Config, g: Global, es: seq<Event>, x: string)
    requires Initial(g) && E.NonNegativeRun(cfg, g, es, x) && LocalOf(Run(cfg, g, es), x).pc == DelNs(Expiring)
    ensures var h := Run(cfg, g, es);
      Early(h, x) || (exists d: nat :: Early(Run(cfg, h, Extend(x, d)), x))
      <==> LocalOf(h, x).found.None? && (x in h.ledgers ==> h.ledgers[x].first >= h.w.now)
  {
    hide Run, E.NonNegativeRun, NsName, Extend;
    var h := Run(cfg, g, es);
    AccountedRun(cfg, g, es, x);
    SafeRun(cfg, g, es, x);
    E.NeverEarly(cfg, g, es, x);
    if x in h.ledgers {
      forall d: nat ensures Early(Run(cfg, h, Extend(x, d)), x) <==> Early(h, x) { ExtendAgain(cfg, h, x, d); }
    } else {
      ExtendAtLast(cfg, h, x, 0);
    }
  }

  lemma OwnConcat(a: seq<Event>, b: seq<Event>, x: string, clock: bool)
    requires AllOwn(a, x, clock) && (AllOwn(b, x, clock) || AllOwn(b, x, false))
    ensures AllOwn(a + b, x, clock)
  {
  }

  /** A live namespace, past its time. */
  lemma LateTakesEarly(cfg: Config, g: Global, x: string, clock: bool) returns (more: seq<Event>)
    requires LocalOf(g, x).pc.Idle? && Anchored(g.w, x) && Exposed(g.w, x, false)
    ensures TakesEarly(cfg, g, x, more, clock)
  {
    hide Run, DoWork, NsName, Live, E.NonNegativeRun, AllOwn, Early;
    FetchLate(cfg, g, x);
    OneWork(cfg, g, [], x, NoFault, g) by { RunNothing(cfg, g); }
    assert [] + [Work(x, NoFault)] == [Work(x, NoFault)];
    var h := DoWork(cfg, g, x, NoFault);
    RouteSound(cfg, x, LocalOf(h, x));
    var walk := ToNamespace(cfg, h, x);
    RunConcat(cfg, g, [Work(x, NoFault)], walk);
    var calls := [Work(x, NoFault)] + walk;
    var k := Run(cfg, g, calls);
    CallsNonNegative(cfg, g, calls, x, clock);
    ExtendRuns(cfg, k, x, 0);
    ExtendAtLast(cfg, k, x, 0);
    var last := Extend(x, 0);
    RunConcat(cfg, g, calls, last);
    NonNegativeConcat(cfg, g, calls, last, x);
    OwnConcat(calls, last, x, clock);
    more := calls + last;
  }

  lemma RouteSound(cfg: Config, x: string, l: Local)
    requires l.pc.GetRoute?
    ensures Sound(cfg, x, l)
  {
  }

  lemma TakesLater(cfg: Config, g: Global, x: string, first: seq<Event>, more: seq<Event>)
    requires forall i :: 0 <= i < |first| ==> (first[i].Work? && first[i].x == x) || first[i].Tick?
    requires TakesEarly(cfg, Run(cfg, g, first), x, more, true)
    ensures TakesEarly(cfg, g, x, first + more, true)
  {
    hide Run, E.NonNegativeRun, AllOwn, Early;
    CallsNonNegative(cfg, g, first, x, true);
    RunConcat(cfg, g, first, more);
    NonNegativeConcat(cfg, g, first, more, x);
    OwnConcat(first, more, x, true);
  }

  lemma FetchReady(cfg: Config, g: Global, x: string, spec: Spec, last: PassResult)
    requires Starting(g, x, spec, Idle(last)) && FINALIZER in g.w.envs[x].finalizers
    ensures var h := DoWork(cfg, g, x, NoFault); h.w == g.w && Starting(h, x, spec, GetNs)
  {
    hide NsName;
  }

  /** The first calls of a pass with time left. */
  lemma FetchStarts(cfg: Config, g: Global, x: string, spec: Spec, last: PassResult) returns (es: seq<Event>)
    requires Starting(g, x, spec, Idle(last))
    ensures var h := Run(cfg, g, es);
      && (Starting(h, x, spec, Refetch) || Starting(h, x, spec, GetNs)) && h.w.namespaces == g.w.namespaces
    ensures OwnCalls(es, x)
  {
    hide Run, DoWork, Starting;
    assert x in g.w.envs by { StartingHas(g, x, spec, Idle(last)); }
    if FINALIZER in g.w.envs[x].finalizers {
      es := [Work(x, NoFault)];
      OneWork(cfg, g, [], x, NoFault, g) by { RunNothing(cfg, g); }
      assert [] + [Work(x, NoFault)] == es;
      FetchReady(cfg, g, x, spec, last);
    } else {
      FetchNew(cfg, g, x, spec, last);
      FinalizeNew(cfg, DoWork(cfg, g, x, NoFault), x, spec);
      TwoWorks(cfg, g, x, NoFault, NoFault);
      es := [Work(x, NoFault), Work(x, NoFault)];
    }
  }

  lemma StartingHas(g: Global, x: string, spec: Spec, pc: Pc)
    requires Starting(g, x, spec, pc)
    ensures x in g.w.envs
  {
  }

  lemma StartingKeeps(g: Global, h: Global, x: string, spec: Spec, pc: Pc)
    requires Starting(g, x, spec, pc) && !pc.Idle? && !pc.AddFinalizer? && h.w == g.w && Live(g.w, NsName(x))
    ensures Anchored(h.w, x) && Live(h.w, NsName(x)) && Exposed(h.w, x, true)
  {
    SameNs(g.w, h.w, NsName(x));
    hide NsName, Live;
  }

  /** A pass with time left that makes the namespace and fails before it stores the status. */
  lemma MakesExposed(cfg: Config, g: Global, x: string) returns (es: seq<Event>)
    requires LocalOf(g, x).pc.Idle? && Exposed(g.w, x, true) && !Live(g.w, NsName(x))
    ensures var h := Run(cfg, g, es);
      LocalOf(h, x).pc.Idle? && Anchored(h.w, x) && Live(h.w, NsName(x)) && Exposed(h.w, x, true)
    ensures OwnCalls(es, x)
  {
    hide Run, DoWork, NsName, Live, Starting, Anchored, Exposed, OwnCalls;
    var spec, last := ExposedStarts(g, x);
    var first := FetchStarts(cfg, g, x, spec, last);
    var h := Run(cfg, g, first);
    var later := RunToAccess(cfg, h, x, spec);
    var k := Run(cfg, h, later);
    RunToFailure(cfg, k, x, spec);
    var failing := [Work(x, NeverSent), Work(x, NeverSent)];
    StartingKeeps(k, Run(cfg, k, failing), x, spec, GetStage(SaStage));
    RunConcat(cfg, g, first, later);
    RunConcat(cfg, g, first + later, failing);
    CallsConcat(first, later, failing, x) by { assert OwnCalls(failing, x) by { TwoCalls(x); } }
    es := first + later + failing;
  }

  lemma ExposedStarts(g: Global, x: string) returns (spec: Spec, last: PassResult)
    requires LocalOf(g, x).pc.Idle? && Exposed(g.w, x, true) && !Live(g.w, NsName(x))
    ensures Starting(g, x, spec, Idle(last)) && NsName(x) !in g.w.namespaces
  {
    spec, last := g.w.envs[x].spec, LocalOf(g, x).pc.last;
  }

  lemma TwoCalls(x: string)
    ensures OwnCalls([Work(x, NeverSent), Work(x, NeverSent)], x)
  {
  }

  lemma CallsConcat(a: seq<Event>, b: seq<Event>, c: seq<Event>, x: string)
    requires OwnCalls(a, x) && OwnCalls(b, x) && OwnCalls(c, x)
    ensures OwnCalls(a + b + c, x)
  {
  }

  /** A live namespace, with time to pass. */
  lemma LiveTakesEarly(cfg: Config, g: Global, x: string) returns (more: seq<Event>)
    requires LocalOf(g, x).pc.Idle? && Anchored(g.w, x) && Live(g.w, NsName(x)) && Exposed(g.w, x, true)
    ensures TakesEarly(cfg, g, x, more, true)
  {
    hide Run, NsName, Live, TakesEarly, Exposed;
    var seconds := LateAfter(g, x);
    var tick, h := Tick(seconds), g.(w := g.w.(now := g.w.now + seconds));
    assert Run(cfg, g, [tick]) == h by { RunNothing(cfg, g); RunSnoc(cfg, g, [], tick); assert [] + [tick] == [tick]; }
    var later := LateTakesEarly(cfg, h, x, true);
    TakesLater(cfg, g, x, [tick], later);
    more := [tick] + later;
  }

  lemma LateAfter(g: Global, x: string) returns (seconds: nat)
    requires Live(g.w, NsName(x)) && Exposed(g.w, x, true)
    ensures Exposed(g.w.(now := g.w.now + seconds), x, false)
  {
    hide NsName, Live;
    var due := CalculateExpirationTime(g.w.envs[x]);
    seconds := if due < g.w.now then 0 else due - g.w.now + 1;
    SameNs(g.w, g.w.(now := g.w.now + seconds), NsName(x));
  }

  /** From an idle worker in any run - with or without time passing, any calls of its own failing, any
      non-negative extensions - x can come to be taken down before the first expiry ever stored exactly if
      it is exposed: nothing is stored yet, and its namespace is live and it is past creation plus TTL; or,
      if time may pass, its namespace is live, or absent with time left to make it. */
  lemma EarlyExactly(cfg: Config, g: Global, es: seq<Event>, x: string, clock: bool)
    requires Initial(g) && E.NonNegativeRun(cfg, g, es, x) && LocalOf(Run(cfg, g, es), x).pc.Idle?
    ensures var h := Run(cfg, g, es);
      (exists more :: TakesEarly(cfg, h, x, more, clock)) <==> Exposed(h.w, x, clock)
  {
    hide Run, E.NonNegativeRun, TakesEarly, Exposed, NsName, Live;
    var h := Run(cfg, g, es);
    if more :| TakesEarly(cfg, h, x, more, clock) { EarlyExposed(cfg, g, es, more, x, clock); }
    if Exposed(h.w, x, clock) {
      NoOrphanNamespace(cfg, g, es, x);
      var more := ExposedTakesEarly(cfg, h, x, clock);
    }
  }

  lemma ExposedTakesEarly(cfg: Config, g: Global, x: string, clock: bool) returns (more: seq<Event>)
    requires LocalOf(g, x).pc.Idle? && (Live(g.w, NsName(x)) ==> Anchored(g.w, x)) && Exposed(g.w, x, clock)
    ensures TakesEarly(cfg, g, x, more, clock)
  {
    hide Run, TakesEarly, NsName, Live;
    if !clock {
      more := LateTakesEarly(cfg, g, x, false);
    } else if Live(g.w, NsName(x)) {
      more := LiveTakesEarly(cfg, g, x);
    } else {
      var first := MakesExposed(cfg, g, x);
      var later := LiveTakesEarly(cfg, Run(cfg, g, first), x);
      TakesLater(cfg, g, x, first, later);
      more := first + later;
    }
  }
}

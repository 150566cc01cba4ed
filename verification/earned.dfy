/** Active is earned: what a pass that stores phase Active has seen in place, in that very pass. */
module Earning {
  import opened Model
  import opened Text
  import opened Discovery
  import opened Store
  import opened Machine
  import opened Progress
  import opened Teardown
  import opened Calls
  import opened Protocol
  import opened Scope
  import opened Runs
  import opened Pass
  import opened Backing
  import opened Calm
  import opened Faultless

  /** Something a pass makes sure of. */
  datatype Fact = NsFact | StageFact(spec: Spec, service: string, stage: Stage) | ReleaseFact(component: Component)
                | TemplateFact(key: (string, string), components: seq<Component>)

  predicate TrueAt(cfg: Config, x: string, w: World, fact: Fact) {
    match fact
    case NsFact => Labelled(x, w)
    case StageFact(spec, service, st) => InPlace(cfg, x, w.objs, spec, service, st)
    case ReleaseFact(c) => Release(x, NsName(x), c) in w.releases
    case TemplateFact(key, cs) => key in w.templates && w.templates[key] == cs
  }

  /** The first call of a pass for x. */
  predicate BeginsPass(g: Global, e: Event, x: string) {
    e.Work? && e.x == x && LocalOf(g, x).pc.Idle?
  }

  /** After some call of x's current pass the cluster was so. */
  ghost predicate InThisPass(cfg: Config, g: Global, es: seq<Event>, x: string, fact: Fact) {
    es != [] &&
    var before, e := es[..|es| - 1], es[|es| - 1];
    || (e.Work? && e.x == x && TrueAt(cfg, x, Run(cfg, g, es).w, fact))
    || (!BeginsPass(Run(cfg, g, before), e, x) && InThisPass(cfg, g, before, x, fact))
  }

  /** Only the route's content depends on the service. */
  function Wants(l: Local, st: Stage): Fact {
    StageFact(l.env.spec, if st.AppStage? then l.service else "", st)
  }

  /** Everything behind the worker was seen in place in its current pass. */
  ghost predicate Seen(cfg: Config, g: Global, es: seq<Event>, x: string, l: Local) {
    && InThisPass(cfg, g, es, x, NsFact)
    && (forall st :: Needed(x, l.env.spec, st) && Pos(st) <= Passed(l) ==> InThisPass(cfg, g, es, x, Wants(l, st)))
    && (forall c :: c in Claimed(l) ==> InThisPass(cfg, g, es, x, ReleaseFact(c)))
  }

  lemma Carried(cfg: Config, g: Global, es: seq<Event>, e: Event, x: string, fact: Fact)
    requires !BeginsPass(Run(cfg, g, es), e, x) && InThisPass(cfg, g, es, x, fact)
    ensures InThisPass(cfg, g, es + [e], x, fact)
  {
    hide Run, TrueAt;
    assert (es + [e])[..|es|] == es;
  }

  lemma Witnessed(cfg: Config, g: Global, es: seq<Event>, f: Fault, x: string, fact: Fact)
    requires TrueAt(cfg, x, DoWork(cfg, Run(cfg, g, es), x, f).w, fact)
    ensures InThisPass(cfg, g, es + [Work(x, f)], x, fact)
  {
    hide Run, TrueAt, DoWork;
    RunSnoc(cfg, g, es, Work(x, f));
  }

  // ---------------------------------------------------------------- the worker's own steps

  lemma SeenBuilding(cfg: Config, g: Global, es: seq<Event>, x: string, f: Fault)
    requires var l := LocalOf(Run(cfg, g, es), x); Building(l.pc) && Built(cfg, x, l) && Seen(cfg, g, es, x, l)
    ensures var m := LocalOf(Run(cfg, g, es + [Work(x, f)]), x); Raised(m.pc) ==> Seen(cfg, g, es + [Work(x, f)], x, m)
  {
    hide Run, Step, Next, Built, NsName, StageKey, StageObj, InPlace, Release, StageConfirmed, ReleaseConfirmed, Passed, Claimed, TrueAt, InThisPass, HelmFlag;
    var h := Run(cfg, g, es);
    var l, es' := LocalOf(h, x), es + [Work(x, f)];
    var s := Step(cfg, x, h.w, l, f);
    RunSnoc(cfg, g, es, Work(x, f));
    BuiltActive(cfg, x, l);
    StepParts(cfg, x, h.w, l, f);
    NextBuilding(cfg, x, l, s.reply, h.w.now);
    if Raised(s.l.pc) {
      Carried(cfg, g, es, Work(x, f), x, NsFact);
      forall st | Needed(x, s.l.env.spec, st) && Pos(st) <= Passed(s.l) ensures InThisPass(cfg, g, es', x, Wants(s.l, st)) {
        if StageConfirmed(cfg, x, l, s.reply, st) {
          ConfirmedInPlace(cfg, x, h.w, l, f, st);
          WantsTrue(cfg, x, s.w, s.l, l.service, st);
          Witnessed(cfg, g, es, f, x, Wants(s.l, st));
        } else {
          Carried(cfg, g, es, Work(x, f), x, Wants(l, st));
          assert st.AppStage? ==> Passed(l) >= 7;
        }
      }
      forall c | c in Claimed(s.l) ensures InThisPass(cfg, g, es', x, ReleaseFact(c)) {
        if c in Claimed(l) {
          Carried(cfg, g, es, Work(x, f), x, ReleaseFact(c));
        } else {
          ConfirmedRelease(cfg, x, h.w, l, f, c);
          assert TrueAt(cfg, x, s.w, ReleaseFact(c)) by { ReleaseTrue(cfg, x, s.w, c); }
          Witnessed(cfg, g, es, f, x, ReleaseFact(c));
        }
      }
    }
  }

  lemma ReleaseTrue(cfg: Config, x: string, w: World, c: Component)
    requires Release(x, NsName(x), c) in w.releases
    ensures TrueAt(cfg, x, w, ReleaseFact(c))
  {
  }

  lemma WantsTrue(cfg: Config, x: string, w: World, m: Local, service: string, st: Stage)
    requires InPlace(cfg, x, w.objs, m.env.spec, service, st) && (st.AppStage? ==> m.service == service)
    ensures TrueAt(cfg, x, w, Wants(m, st))
  {
    ServiceOnlyInRoute(cfg, x, w.objs, m.env.spec, service, if st.AppStage? then m.service else "", st);
    hide InPlace;
  }

  /** The namespace has just been ensured. */
  lemma SeenNs(cfg: Config, g: Global, es: seq<Event>, x: string, f: Fault)
    requires var l := LocalOf(Run(cfg, g, es), x); l.pc.GetNs? || l.pc.PutNs?
    ensures var m := LocalOf(Run(cfg, g, es + [Work(x, f)]), x); Raised(m.pc) ==> Seen(cfg, g, es + [Work(x, f)], x, m)
  {
    hide Run, Step, Next, NsName, NsEnsured, FailStep, InThisPass, OwnerLabels, Needed, Placed;
    var h := Run(cfg, g, es);
    var l := LocalOf(h, x);
    var s := Step(cfg, x, h.w, l, f);
    RunSnoc(cfg, g, es, Work(x, f));
    StepParts(cfg, x, h.w, l, f);
    NextOpening(cfg, x, l, s.reply, h.w.now);
    FirstPlaced(cfg, x, s.w, l, h.w.now, true);
    NsAnswer(cfg, x, h.w, l, f);
    NsSeen(x, l, h.w.now);
    if Raised(s.l.pc) { Witnessed(cfg, g, es, f, x, NsFact); }
  }

  lemma NsSeen(x: string, l: Local, now: Time)
    ensures Claimed(NsEnsured(x, l, now)) == [] && Passed(NsEnsured(x, l, now)) == 0
    ensures FailStep(l, NamespaceStep).pc == Save(StepFailed)
  {
  }

  lemma NsAnswer(cfg: Config, x: string, w: World, l: Local, f: Fault)
    requires l.pc.GetNs? || l.pc.PutNs?
    ensures var s := Step(cfg, x, w, l, f);
      && (l.pc.GetNs? && s.reply.ANamespace? && s.reply.seenNs.labels + OwnerLabels(x) == s.reply.seenNs.labels ==> Labelled(x, s.w))
      && (l.pc.PutNs? && s.reply.Done? ==> Labelled(x, s.w))
  {
    hide Next, NsName, Request, Exec, OwnerLabels;
    NsRequests(cfg, x, l);
    if l.pc.GetNs? { NsReading(w, NsName(x), f); } else { NsPutting(w, NsName(x), OwnerLabels(x), l.pc.seenNs, f); }
  }

  /** Nothing else leads into the create path's building part. */
  lemma RaisedFrom(cfg: Config, x: string, l: Local, r: Reply, now: Time)
    requires !Building(l.pc) && !l.pc.GetNs? && !l.pc.PutNs?
    ensures !Raised(Next(cfg, x, l, r, now).pc)
  {
    hide Next, NsGoing;
    if Tearing(l.pc) { NextTearing(cfg, x, l, r, now); } else { NextOpening(cfg, x, l, r, now); }
  }

  lemma SeenWork(cfg: Config, g: Global, es: seq<Event>, x: string, f: Fault)
    requires var l := LocalOf(Run(cfg, g, es), x); Sound(cfg, x, l) && (Raised(l.pc) ==> Seen(cfg, g, es, x, l))
    ensures var m := LocalOf(Run(cfg, g, es + [Work(x, f)]), x); Raised(m.pc) ==> Seen(cfg, g, es + [Work(x, f)], x, m)
  {
    hide Run, Step, Next, Seen;
    var h := Run(cfg, g, es);
    var l := LocalOf(h, x);
    SoundBuilt(cfg, x, l);
    if Building(l.pc) { SeenBuilding(cfg, g, es, x, f); }
    else if l.pc.GetNs? || l.pc.PutNs? { SeenNs(cfg, g, es, x, f); }
    else {
      RunSnoc(cfg, g, es, Work(x, f));
      StepParts(cfg, x, h.w, l, f);
      RaisedFrom(cfg, x, l, Step(cfg, x, h.w, l, f).reply, h.w.now);
    }
  }

  lemma SeenOther(cfg: Config, g: Global, es: seq<Event>, e: Event, x: string)
    requires !(e.Work? && e.x == x) && Seen(cfg, g, es, x, LocalOf(Run(cfg, g, es), x))
    ensures Seen(cfg, g, es + [e], x, LocalOf(Run(cfg, g, es + [e]), x))
  {
    hide Run, Apply, InThisPass, Needed, Passed, Claimed;
    RunSnoc(cfg, g, es, e);
    OtherKeepsLocal(cfg, x, Run(cfg, g, es), e);
    var l := LocalOf(Run(cfg, g, es), x);
    Carried(cfg, g, es, e, x, NsFact);
    forall st | Needed(x, l.env.spec, st) && Pos(st) <= Passed(l) ensures InThisPass(cfg, g, es + [e], x, Wants(l, st)) { Carried(cfg, g, es, e, x, Wants(l, st)); }
    forall c | c in Claimed(l) ensures InThisPass(cfg, g, es + [e], x, ReleaseFact(c)) { Carried(cfg, g, es, e, x, ReleaseFact(c)); }
  }

  // ---------------------------------------------------------------- where the components come from

  /** The template a specification refers to, by default in the resource's own namespace. */
  function TemplateKey(env: EphemeralEnv): (string, string)
    requires env.spec.templateRef.Some?
  {
    var ref := env.spec.templateRef.value;
    (if ref.namespace == "" then env.namespace else ref.namespace, ref.name)
  }

  /** The chart of the legacy field as a component. */
  function Legacy(spec: Spec): seq<Component> {
    match spec.helm
    case Some(h) => [Component(h.chart.name, h.chart, h.valuesParse, true)]
    case None => []
  }

  /** The pass has its list of components. */
  predicate Listing(cfg: Config, l: Local) {
    cfg.helm && (l.pc.Check? || l.pc.Deploy? || (Raised(l.pc) && Passed(l) >= HelmPos(l)))
  }

  /** The list is that of the specification; without one that of a template as it was read in this pass, or
      the legacy chart. */
  ghost predicate Sourced(cfg: Config, g: Global, es: seq<Event>, x: string, l: Local) {
    var spec := l.env.spec;
    if spec.components != [] then l.resolved == spec.components
    else l.resolved == Legacy(spec) || (spec.templateRef.Some? && InThisPass(cfg, g, es, x, TemplateFact(TemplateKey(l.env), l.resolved)))
  }

  predicate SourcedNow(cfg: Config, x: string, w: World, l: Local) {
    var spec := l.env.spec;
    if spec.components != [] then l.resolved == spec.components
    else l.resolved == Legacy(spec) || (spec.templateRef.Some? && TrueAt(cfg, x, w, TemplateFact(TemplateKey(l.env), l.resolved)))
  }

  lemma Unread(cfg: Config, x: string, w: World, l: Local)
    requires !ReadsTemplate(l.env.spec) && l.resolved == Resolve(l.env.spec, None)
    ensures SourcedNow(cfg, x, w, l)
  {
    ResolveMeans(l.env.spec, None);
    hide Resolve;
  }

  lemma ReadNow(cfg: Config, x: string, w: World, l: Local, m: Local, r: Reply)
    requires ReadsTemplate(l.env.spec) && m.resolved == Resolve(l.env.spec, TemplateOf(r)) && m.env.spec == l.env.spec && m.env.namespace == l.env.namespace
    requires r.ATemplate? ==> TrueAt(cfg, x, w, TemplateFact(TemplateKey(l.env), r.components))
    ensures SourcedNow(cfg, x, w, m)
  {
    ResolveMeans(l.env.spec, TemplateOf(r));
    hide Resolve;
  }

  lemma TemplateAnswer(cfg: Config, x: string, w: World, l: Local, f: Fault)
    requires (l.pc.ResolveFirst? || l.pc.ResolveAgain?) && l.env.spec.templateRef.Some?
    ensures var s := Step(cfg, x, w, l, f); s.reply.ATemplate? ==> TrueAt(cfg, x, s.w, TemplateFact(TemplateKey(l.env), s.reply.components))
  {
    hide Next;
  }

  lemma AdminSkips(cfg: Config, l: Local, now: Time)
    requires !Discovers(l)
    ensures Skips(cfg, StageFailed(cfg, l, AdminStage, now), l.env.spec)
  {
    HelmOnward(cfg, l, now);
    hide StartHelm, Skips;
  }

  lemma TodoResolved(cfg: Config, x: string, l: Local)
    requires Built(cfg, x, l) && l.pc.Check?
    ensures l.pc.todo == l.resolved
  {
  }

  /** A stage of the create path leads to a list only if no template is to be read. */
  lemma StageSkips(cfg: Config, x: string, l: Local, r: Reply, now: Time)
    requires Built(cfg, x, l) && (l.pc.GetStage? || l.pc.PutStage?) && cfg.helm && Passed(l) < HelmPos(l)
    ensures var m := OnBuilding(cfg, x, l, r, now); (Onward(m, l.env.spec) && Skips(cfg, m, l.env.spec)) || (m.pc.PutStage? && m == l.(pc := m.pc) && m.pc.stage == l.pc.stage) || m.pc == Save(StepFailed)
  {
    hide StageEnsured, StageFailed, StageObj, Resolve, Built, Skips;
    StageOnward(cfg, l, l.pc.stage, now);
    StageFailsOnly(cfg, l, l.pc.stage, now);
    if l.pc.stage.AdminStage? { AdminSkips(cfg, l, now); }
    hide Onward;
  }

  lemma StageFailsOnly(cfg: Config, l: Local, st: Stage, now: Time)
    ensures !st.AdminStage? ==> StageFailed(cfg, l, st, now).pc == Save(StepFailed)
  {
    hide AfterRoutes;
  }

  /** A step after which the pass has its list has it from there. */
  lemma PicksStage(cfg: Config, x: string, w: World, l: Local, r: Reply, now: Time)
    requires Built(cfg, x, l) && (l.pc.GetStage? || l.pc.PutStage?) && !Listing(cfg, l)
    ensures var m := Next(cfg, x, l, r, now); Listing(cfg, m) ==> SourcedNow(cfg, x, w, m)
  {
    hide OnBuilding, Resolve, Built, SourcedNow, OnTearing, Fetched, OnNsRead, Needed, Claimed, HelmFlag, StageConfirmed;
    var m := Next(cfg, x, l, r, now);
    if Listing(cfg, m) {
      NextBuilding(cfg, x, l, r, now);
      StageSkips(cfg, x, l, r, now);
      UnresolvedYet(cfg, x, l);
      if m.pc.Check? { TodoResolved(cfg, x, m); }
      Unread(cfg, x, w, m);
    }
  }

  lemma ReadsAgain(cfg: Config, x: string, l: Local)
    requires Built(cfg, x, l) && (l.pc.ResolveFirst? || l.pc.ResolveAgain?)
    ensures ReadsTemplate(l.env.spec) && l.resolved == [] && l.env.spec.templateRef.Some?
  {
  }

  lemma ResolveLists(cfg: Config, x: string, l: Local, r: Reply, now: Time)
    requires Built(cfg, x, l) && (l.pc.ResolveFirst? || l.pc.ResolveAgain?)
    ensures var m := OnBuilding(cfg, x, l, r, now);
      Listing(cfg, m) ==> m.resolved == Resolve(l.env.spec, TemplateOf(r)) && m.env.spec == l.env.spec && m.env.namespace == l.env.namespace
  {
    ReadsAgain(cfg, x, l);
    hide Resolve, Built;
  }

  lemma PicksResolve(cfg: Config, x: string, w: World, l: Local, f: Fault)
    requires Built(cfg, x, l) && (l.pc.ResolveFirst? || l.pc.ResolveAgain?)
    ensures var s := Step(cfg, x, w, l, f); Listing(cfg, s.l) ==> SourcedNow(cfg, x, s.w, s.l)
  {
    hide Step, Resolve, Built, SourcedNow, OnTearing, Fetched, OnNsRead, OnBuilding, Listing;
    var s := Step(cfg, x, w, l, f);
    StepParts(cfg, x, w, l, f);
    ReadsAgain(cfg, x, l);
    ResolveLists(cfg, x, l, s.reply, w.now);
    TemplateAnswer(cfg, x, w, l, f);
    if Listing(cfg, s.l) { ReadNow(cfg, x, s.w, l, s.l, s.reply); }
  }

  /** Once it has its list it keeps it. */
  lemma KeepsList(cfg: Config, x: string, l: Local, r: Reply, now: Time)
    requires Built(cfg, x, l) && Building(l.pc) && Listing(cfg, l)
    ensures var m := Next(cfg, x, l, r, now); Listing(cfg, m) ==> m.resolved == l.resolved && m.env.spec == l.env.spec && m.env.namespace == l.env.namespace
    ensures !l.pc.ResolveFirst? && !l.pc.ResolveAgain?
  {
    hide Next, Built, Needed, Claimed, HelmFlag, StageConfirmed, AddsClaim;
    NextBuilding(cfg, x, l, r, now);
  }

  lemma ListsFrom(cfg: Config, x: string, l: Local)
    requires Built(cfg, x, l) && Building(l.pc) && cfg.helm && !Listing(cfg, l)
    ensures l.pc.GetStage? || l.pc.PutStage? || l.pc.ResolveFirst? || l.pc.ResolveAgain?
  {
  }

  lemma SourcedBuilding(cfg: Config, g: Global, es: seq<Event>, x: string, f: Fault)
    requires var l := LocalOf(Run(cfg, g, es), x); Building(l.pc) && Built(cfg, x, l) && (Listing(cfg, l) ==> Sourced(cfg, g, es, x, l))
    ensures var m := LocalOf(Run(cfg, g, es + [Work(x, f)]), x); Listing(cfg, m) ==> Sourced(cfg, g, es + [Work(x, f)], x, m)
  {
    hide Run, Step, Next, Built, Listing, TrueAt, InThisPass, Legacy, TemplateKey;
    var h := Run(cfg, g, es);
    var l, es' := LocalOf(h, x), es + [Work(x, f)];
    var s := Step(cfg, x, h.w, l, f);
    RunSnoc(cfg, g, es, Work(x, f));
    StepParts(cfg, x, h.w, l, f);
    if Listing(cfg, s.l) {
      if Listing(cfg, l) {
        KeepsList(cfg, x, l, s.reply, h.w.now);
        if l.env.spec.templateRef.Some? && InThisPass(cfg, g, es, x, TemplateFact(TemplateKey(l.env), l.resolved)) {
          Carried(cfg, g, es, Work(x, f), x, TemplateFact(TemplateKey(l.env), l.resolved));
        }
        if l.env.spec.templateRef.Some? { SameKey(l, s.l); }
      } else {
        assert cfg.helm by { ListingHelm(cfg, s.l); }
        ListsFrom(cfg, x, l);
        if l.pc.GetStage? || l.pc.PutStage? { PicksStage(cfg, x, s.w, l, s.reply, h.w.now); } else { PicksResolve(cfg, x, h.w, l, f); }
        if s.l.env.spec.templateRef.Some? && TrueAt(cfg, x, s.w, TemplateFact(TemplateKey(s.l.env), s.l.resolved)) {
          Witnessed(cfg, g, es, f, x, TemplateFact(TemplateKey(s.l.env), s.l.resolved));
        }
      }
    }
  }

  lemma ListingHelm(cfg: Config, l: Local)
    requires Listing(cfg, l)
    ensures cfg.helm && Raised(l.pc)
  {
  }

  lemma SameKey(l: Local, m: Local)
    requires m.env.spec == l.env.spec && m.env.namespace == l.env.namespace && l.env.spec.templateRef.Some?
    ensures TemplateKey(m.env) == TemplateKey(l.env)
  {
  }

  lemma SourcedWork(cfg: Config, g: Global, es: seq<Event>, x: string, f: Fault)
    requires var l := LocalOf(Run(cfg, g, es), x); Sound(cfg, x, l) && (Listing(cfg, l) ==> Sourced(cfg, g, es, x, l))
    ensures var m := LocalOf(Run(cfg, g, es + [Work(x, f)]), x); Listing(cfg, m) ==> Sourced(cfg, g, es + [Work(x, f)], x, m)
  {
    hide Run, Step, Next, Sourced, Listing, NsEnsured, FailStep;
    var h := Run(cfg, g, es);
    var l := LocalOf(h, x);
    SoundBuilt(cfg, x, l);
    if Building(l.pc) { SourcedBuilding(cfg, g, es, x, f); }
    else {
      var m := Step(cfg, x, h.w, l, f).l;
      RunSnoc(cfg, g, es, Work(x, f));
      StepParts(cfg, x, h.w, l, f);
      assert !Listing(cfg, m) by {
        if Listing(cfg, m) { ListingHelm(cfg, m); }
        if l.pc.GetNs? || l.pc.PutNs? {
          NextOpening(cfg, x, l, Step(cfg, x, h.w, l, f).reply, h.w.now);
          NotListing(cfg, x, l, h.w.now);
        } else {
          RaisedFrom(cfg, x, l, Step(cfg, x, h.w, l, f).reply, h.w.now);
        }
      }
    }
  }

  lemma NotListing(cfg: Config, x: string, l: Local, now: Time)
    ensures !Listing(cfg, NsEnsured(x, l, now)) && !Listing(cfg, FailStep(l, NamespaceStep)) && !Listing(cfg, l.(pc := PutNs(None)))
    ensures forall n :: !Listing(cfg, l.(pc := PutNs(n)))
  {
  }

  lemma SourcedOther(cfg: Config, g: Global, es: seq<Event>, e: Event, x: string)
    requires !(e.Work? && e.x == x) && Sourced(cfg, g, es, x, LocalOf(Run(cfg, g, es), x))
    ensures Sourced(cfg, g, es + [e], x, LocalOf(Run(cfg, g, es + [e]), x))
  {
    hide Run, Apply, InThisPass, Legacy, TemplateKey;
    RunSnoc(cfg, g, es, e);
    OtherKeepsLocal(cfg, x, Run(cfg, g, es), e);
    var l := LocalOf(Run(cfg, g, es), x);
    if l.env.spec.templateRef.Some? && InThisPass(cfg, g, es, x, TemplateFact(TemplateKey(l.env), l.resolved)) {
      Carried(cfg, g, es, e, x, TemplateFact(TemplateKey(l.env), l.resolved));
    }
  }

  lemma {:induction false} SourcedRun(cfg: Config, g: Global, es: seq<Event>, x: string)
    requires Initial(g)
    ensures var l := LocalOf(Run(cfg, g, es), x); Listing(cfg, l) ==> Sourced(cfg, g, es, x, l)
  {
    hide Apply, Sourced, Run, Listing;
    if es == [] {
      RunNothing(cfg, g);
      if Listing(cfg, LocalOf(g, x)) { ListingHelm(cfg, LocalOf(g, x)); RaisedNot(g, x); }
    } else {
      var before, e := es[..|es| - 1], es[|es| - 1];
      assert es == before + [e];
      SourcedRun(cfg, g, before, x);
      ShapedRun(cfg, g, before, x);
      assert Sound(cfg, x, LocalOf(Run(cfg, g, before), x)) by { ShapedSound(cfg, Run(cfg, g, before), x); }
      if e.Work? && e.x == x {
        SourcedWork(cfg, g, before, x, e.fault);
      } else {
        RunSnoc(cfg, g, before, e);
        OtherKeepsLocal(cfg, x, Run(cfg, g, before), e);
        if Listing(cfg, LocalOf(Run(cfg, g, before), x)) { SourcedOther(cfg, g, before, e, x); }
      }
    }
  }

  lemma {:induction false} SeenRun(cfg: Config, g: Global, es: seq<Event>, x: string)
    requires Initial(g)
    ensures var l := LocalOf(Run(cfg, g, es), x); Raised(l.pc) ==> Seen(cfg, g, es, x, l)
  {
    hide Apply, Seen, Run, Raised;
    if es == [] {
      RunNothing(cfg, g);
      assert !Raised(LocalOf(g, x).pc) by { RaisedNot(g, x); }
    } else {
      var before, e := es[..|es| - 1], es[|es| - 1];
      assert es == before + [e];
      SeenRun(cfg, g, before, x);
      ShapedRun(cfg, g, before, x);
      assert Sound(cfg, x, LocalOf(Run(cfg, g, before), x)) by { ShapedSound(cfg, Run(cfg, g, before), x); }
      if e.Work? && e.x == x {
        SeenWork(cfg, g, before, x, e.fault);
      } else {
        RunSnoc(cfg, g, before, e);
        OtherKeepsLocal(cfg, x, Run(cfg, g, before), e);
        if Raised(LocalOf(Run(cfg, g, before), x).pc) { SeenOther(cfg, g, before, e, x); }
      }
    }
  }

  lemma RaisedNot(g: Global, x: string)
    requires Initial(g)
    ensures !Raised(LocalOf(g, x).pc)
  {
  }

  lemma ShapedSound(cfg: Config, g: Global, x: string)
    requires Shaped(cfg, g, x)
    ensures Sound(cfg, x, LocalOf(g, x))
  {
  }

  /** At whatever point of whatever run: a pass that is about to store phase Active has, in that pass, found
      or put in place the namespace with its labels, the RBAC trio, the policy when isolated, the grant when
      cross-namespace, and the app route to the service it has chosen; and with a Helm client a release
      record of every component it resolved, which its report lists in order. */
  lemma {:induction false} ActiveIsEarned(cfg: Config, g: Global, es: seq<Event>, x: string)
    requires Initial(g) && LocalOf(Run(cfg, g, es), x).pc == Save(Activated)
    ensures var l := LocalOf(Run(cfg, g, es), x); var spec := l.env.spec;
      && l.env.status.phase == Active
      && InThisPass(cfg, g, es, x, NsFact)
      && (forall st: Stage :: st.SaStage? || st.RoleStage? || st.BindingStage? ==> InThisPass(cfg, g, es, x, StageFact(spec, "", st)))
      && (spec.isolation != Some(false) ==> InThisPass(cfg, g, es, x, StageFact(spec, "", PolicyStage)))
      && (spec.gateway.namespace != "env-" + x ==> InThisPass(cfg, g, es, x, StageFact(spec, "", GrantStage)))
      && InThisPass(cfg, g, es, x, StageFact(spec, l.service, AppStage)) && ServiceChosen(spec, l.listed, l.service)
      && (cfg.helm ==>
            && Sourced(cfg, g, es, x, l) && (l.resolved != [] ==> Reports(x, l.env.status.components, l.resolved))
            && (forall c :: c in l.resolved ==> InThisPass(cfg, g, es, x, ReleaseFact(c))))
  {
    hide Run, InThisPass, NsName, ServiceChosen, Resolvable, Reports, Sourced;
    SeenRun(cfg, g, es, x);
    SourcedRun(cfg, g, es, x);
    ShapedRun(cfg, g, es, x);
    var l := LocalOf(Run(cfg, g, es), x);
    assert Built(cfg, x, l) by { ShapedSound(cfg, Run(cfg, g, es), x); SoundBuilt(cfg, x, l); }
    hide Shaped;
    StageSeen(cfg, g, es, x, l, SaStage, "");
    StageSeen(cfg, g, es, x, l, RoleStage, "");
    StageSeen(cfg, g, es, x, l, BindingStage, "");
    assert NsName(x) == "env-" + x by { OwnNs(x); }
    if l.env.spec.isolation != Some(false) { StageSeen(cfg, g, es, x, l, PolicyStage, ""); }
    if l.env.spec.gateway.namespace != NsName(x) { StageSeen(cfg, g, es, x, l, GrantStage, ""); }
    StageSeen(cfg, g, es, x, l, AppStage, l.service);
  }

  lemma OwnNs(x: string)
    ensures NsName(x) == "env-" + x
  {
  }

  lemma StageSeen(cfg: Config, g: Global, es: seq<Event>, x: string, l: Local, st: Stage, service: string)
    requires Seen(cfg, g, es, x, l) && Pos(st) <= Passed(l) && Needed(x, l.env.spec, st)
    requires service == if st.AppStage? then l.service else ""
    ensures InThisPass(cfg, g, es, x, StageFact(l.env.spec, service, st))
  {
    hide InThisPass, Needed;
  }

  // ---------------------------------------------------------------- and still so

  /** The event takes nothing of x's away. */
  predicate Spares(g: Global, e: Event, x: string) {
    match e
    case Meddle(k, _) => !Owned(x, k)
    case ReapObj(k) => !Owned(x, k)
    case FinishNs(n) => n != NsName(x) && forall k :: k in g.w.objs && Owned(x, k) ==> k.namespace != n
    case _ => true
  }

  /** Since x's current pass began nobody has taken anything of x's away. Earlier passes do not matter. */
  ghost predicate SparedSince(cfg: Config, g: Global, es: seq<Event>, x: string) {
    es == [] ||
    var h, e := Run(cfg, g, es[..|es| - 1]), es[|es| - 1];
    BeginsPass(h, e, x) || (Spares(h, e, x) && SparedSince(cfg, g, es[..|es| - 1], x))
  }

  ghost predicate InPlaceNow(cfg: Config, x: string, g: Global) {
    Raised(LocalOf(g, x).pc) ==> NsName(x) in g.w.namespaces && Placed(cfg, x, g.w.objs, g.w.releases, LocalOf(g, x), true)
  }

  lemma NowBuilding(cfg: Config, g: Global, x: string, f: Fault)
    requires InPlaceNow(cfg, x, g) && Sound(cfg, x, LocalOf(g, x)) && Building(LocalOf(g, x).pc)
    ensures InPlaceNow(cfg, x, DoWork(cfg, g, x, f))
  {
    hide Step, Placed, NsName, Built, Opened;
    SoundBuilt(cfg, x, LocalOf(g, x));
    PlacedAfter(cfg, x, g.w, LocalOf(g, x), f, true);
    BuildStep(cfg, x, g.w, LocalOf(g, x), f);
    hide Sound;
  }

  lemma NowNs(cfg: Config, g: Global, x: string, f: Fault)
    requires LocalOf(g, x).pc.GetNs? || LocalOf(g, x).pc.PutNs?
    ensures InPlaceNow(cfg, x, DoWork(cfg, g, x, f))
  {
    hide Step, Next, Placed, NsName, NsEnsured, FailStep, OwnerLabels, Opened;
    var l := LocalOf(g, x);
    var s := Step(cfg, x, g.w, l, f);
    StepParts(cfg, x, g.w, l, f);
    NextOpening(cfg, x, l, s.reply, g.w.now);
    FirstPlaced(cfg, x, s.w, l, g.w.now, true);
    NsAnswer(cfg, x, g.w, l, f);
    NsSeen(x, l, g.w.now);
  }

  lemma NowWork(cfg: Config, g: Global, x: string, f: Fault)
    requires InPlaceNow(cfg, x, g) && Sound(cfg, x, LocalOf(g, x))
    ensures InPlaceNow(cfg, x, DoWork(cfg, g, x, f))
  {
    hide Step, Next, Placed, NsName, Sound, Opened;
    var l := LocalOf(g, x);
    if Building(l.pc) { NowBuilding(cfg, g, x, f); }
    else if l.pc.GetNs? || l.pc.PutNs? { NowNs(cfg, g, x, f); }
    else {
      StepParts(cfg, x, g.w, l, f);
      RaisedFrom(cfg, x, l, Step(cfg, x, g.w, l, f).reply, g.w.now);
    }
  }

  /** What x owns, its namespace included, is still there. */
  ghost predicate Keeps(w: World, v: World, x: string) {
    && (NsName(x) in w.namespaces ==> NsName(x) in v.namespaces)
    && (forall k :: Owned(x, k) && k in w.objs ==> k in v.objs && v.objs[k] == w.objs[k])
    && (forall r :: r in w.releases && r.namespace == NsName(x) ==> r in v.releases)
  }

  lemma NowKept(cfg: Config, g: Global, h: Global, x: string)
    requires InPlaceNow(cfg, x, g) && Keeps(g.w, h.w, x) && LocalOf(h, x) == LocalOf(g, x)
    ensures InPlaceNow(cfg, x, h)
  {
    hide Placed, NsName, StageKey, Needed, Owned;
    var l := LocalOf(g, x);
    if Raised(l.pc) {
      forall st ensures Owned(x, StageKey(x, l.env.spec, NsName(x), st)) { StageOwned(x, l.env.spec, st); }
      PlacedFrame(cfg, x, g.w, h.w, l, true);
    }
  }

  lemma OtherKeeps(cfg: Config, g: Global, y: string, f: Fault, x: string)
    requires x != y && Shaped(cfg, g, y)
    ensures Keeps(g.w, DoWork(cfg, g, y, f).w, x)
  {
    hide Step, NsName, Owned, OwnedRelease, Opened, ShapedLocal;
    WorkOnlyTouches(cfg, y, g.w, LocalOf(g, y), f);
    NsNameInjective(x, y);
    forall k | Owned(x, k) ensures !Owned(y, k) { OwnersDisjoint(x, y, k, ReleaseKey("", "")); }
    NeededOwned(x, NoEnv.spec, g.w, y);
  }

  lemma AmbientKeeps(g: Global, e: Event, x: string)
    requires Spares(g, e, x) && !e.Work? && !e.ExtendRead? && !e.ExtendWrite? && !e.CreateEnv?
    ensures Keeps(g.w, Ambient(g.w, e), x)
  {
    hide NsName, Owned, PutEnv, EnvPrefixed, DoEdit, DoDelete;
    if e.DeleteEnv? || e.EditEnv? { EnvEvent(g.w, e, x); hide Ambient; }
  }

  lemma ExtendSpares(g: Global, id: nat, f: Fault, x: string)
    ensures Keeps(g.w, DoExtendWrite(g, id, f).w, x)
  {
    hide NsName, Owned, PutEnv, Opened, Credit;
    if id in g.extensions {
      var u := g.extensions[id];
      ExtendWrites(g, id, f);
      if Accepted(g.w, u, f) { PutEnvFrame(g.w, u.env, g.w.envs[u.env].(status := Extended(u).status)); }
      hide DoExtendWrite;
    }
  }

  lemma NowApply(cfg: Config, g: Global, e: Event, x: string)
    requires InPlaceNow(cfg, x, g) && Shaped(cfg, g, x) && (e.Work? ==> Shaped(cfg, g, e.x))
    requires Spares(g, e, x)
    ensures InPlaceNow(cfg, x, Apply(cfg, g, e))
  {
    hide InPlaceNow, DoWork, DoExtendWrite, Ambient, Keeps, Spares, Shaped, LocalOf;
    ShapedSound(cfg, g, x);
    if e.Work? && e.x == x {
      NowWork(cfg, g, x, e.fault);
    } else {
      OtherKeepsLocal(cfg, x, g, e);
      match e {
        case Work(y, f) => OtherKeeps(cfg, g, y, f, x);
        case ExtendWrite(id, f) => ExtendSpares(g, id, f, x);
        case ExtendRead(_, _, _) => KeepsSame(cfg, g, e, x);
        case CreateEnv(_, _, _, _) => KeepsSame(cfg, g, e, x);
        case _ => AmbientKeeps(g, e, x);
      }
      NowKept(cfg, g, Apply(cfg, g, e), x);
    }
  }

  lemma KeepsSame(cfg: Config, g: Global, e: Event, x: string)
    requires e.CreateEnv? || e.ExtendRead?
    ensures Keeps(g.w, Apply(cfg, g, e).w, x)
  {
    hide NsName, Owned;
  }

  lemma NowBegins(cfg: Config, g: Global, x: string, f: Fault)
    requires LocalOf(g, x).pc.Idle?
    ensures InPlaceNow(cfg, x, DoWork(cfg, g, x, f))
  {
    hide Step, Next, Placed, NsName, Opened;
    StepParts(cfg, x, g.w, LocalOf(g, x), f);
    RaisedFrom(cfg, x, LocalOf(g, x), Step(cfg, x, g.w, LocalOf(g, x), f).reply, g.w.now);
  }

  lemma {:induction false} NowRun(cfg: Config, g: Global, es: seq<Event>, x: string)
    requires Initial(g) && SparedSince(cfg, g, es, x)
    ensures InPlaceNow(cfg, x, Run(cfg, g, es))
  {
    hide Apply, InPlaceNow, Run, Spares, Shaped, BeginsPass;
    if es == [] {
      RunNothing(cfg, g);
      RaisedNot(g, x);
      assert InPlaceNow(cfg, x, g) by { NotRaisedNow(cfg, g, x); }
    } else {
      var before, e := es[..|es| - 1], es[|es| - 1];
      assert es == before + [e];
      var h := Run(cfg, g, before);
      RunSnoc(cfg, g, before, e);
      if BeginsPass(h, e, x) {
        BeginsNow(cfg, h, e, x);
      } else {
        NowRun(cfg, g, before, x);
        ShapedRun(cfg, g, before, x);
        if e.Work? { ShapedRun(cfg, g, before, e.x); }
        NowApply(cfg, h, e, x);
      }
    }
  }

  lemma NotRaisedNow(cfg: Config, g: Global, x: string)
    requires !Raised(LocalOf(g, x).pc)
    ensures InPlaceNow(cfg, x, g)
  {
  }

  lemma BeginsNow(cfg: Config, g: Global, e: Event, x: string)
    requires BeginsPass(g, e, x)
    ensures InPlaceNow(cfg, x, Apply(cfg, g, e))
  {
    hide DoWork, InPlaceNow;
    NowBegins(cfg, g, x, e.fault);
  }

  /** If in addition nobody took anything of x's away since that pass began - whatever happened to x before -,
      all of it is in place when Active is stored. */
  lemma {:induction false} ActiveIsInPlace(cfg: Config, g: Global, es: seq<Event>, x: string)
    requires Initial(g) && SparedSince(cfg, g, es, x) && LocalOf(Run(cfg, g, es), x).pc == Save(Activated)
    ensures var h := Run(cfg, g, es); var l := LocalOf(h, x);
      && NsName(x) in h.w.namespaces
      && (forall st :: Needed(x, l.env.spec, st) ==> InPlace(cfg, x, h.w.objs, l.env.spec, l.service, st))
      && (forall c :: c in l.resolved ==> Release(x, NsName(x), c) in h.w.releases)
  {
    hide Run, InPlace, NsName, SparedSince, Release, Needed;
    NowRun(cfg, g, es, x);
    var l := LocalOf(Run(cfg, g, es), x);
    assert Claimed(l) == l.resolved && Passed(l) == 9;
    forall st | Needed(x, l.env.spec, st) ensures Pos(st) <= Passed(l) {}
  }

  // ---------------------------------------------------------------- what is installed

  /** A worker about to install has found the values of the component at hand to parse. */
  predicate Parsed(l: Local) {
    l.pc.Deploy? ==> |l.pc.done| < |l.pc.todo| && l.pc.todo[|l.pc.done|].valuesParse
  }

  lemma CheckedParses(x: string, l: Local, todo: seq<Component>, done: seq<ComponentStatus>, r: Reply, now: Time)
    ensures Parsed(OnChecked(x, l, todo, done, r, now))
  {
    hide SetCondition, Release;
  }

  lemma NextParsed(cfg: Config, x: string, l: Local, r: Reply, now: Time)
    requires Building(l.pc) ==> Built(cfg, x, l)
    ensures Parsed(Next(cfg, x, l, r, now))
  {
    hide Built, Parsed, OnChecked, OnInstalled, OnTearing, Fetched, Begin, NsEnsured, FailStep, OnStageRead, OnStageWritten, Listed, Chosen, ResolvedFirst, ResolvedAgain;
    var m := Next(cfg, x, l, r, now);
    if l.pc.Check? { CheckedParses(x, l, l.pc.todo, l.pc.done, r, now); }
    else { assert !m.pc.Deploy? by { OnlyChecked(cfg, x, l, r, now); } NotInstalling(m); }
  }

  lemma NotInstalling(m: Local)
    requires !m.pc.Deploy?
    ensures Parsed(m)
  {
  }

  lemma OnlyChecked(cfg: Config, x: string, l: Local, r: Reply, now: Time)
    requires !l.pc.Check? && (Building(l.pc) ==> Built(cfg, x, l))
    ensures !Next(cfg, x, l, r, now).pc.Deploy?
  {
    hide Next, Built, NsEnsured, FailStep;
    if Building(l.pc) { NextBuilding(cfg, x, l, r, now); }
    else if Tearing(l.pc) { NextTearing(cfg, x, l, r, now); }
    else { NextOpening(cfg, x, l, r, now); NsNoInstall(x, l, now); }
  }

  lemma NsNoInstall(x: string, l: Local, now: Time)
    ensures !NsEnsured(x, l, now).pc.Deploy? && !FailStep(l, NamespaceStep).pc.Deploy?
  {
  }

  lemma {:induction false} ParsedRun(cfg: Config, g: Global, es: seq<Event>, x: string)
    requires Initial(g)
    ensures Parsed(LocalOf(Run(cfg, g, es), x))
  {
    hide Apply, Parsed, Shaped;
    if es == [] {
      NotInstalling(IdleLocal);
    } else {
      var before, e := es[..|es| - 1], es[|es| - 1];
      var h := Run(cfg, g, before);
      ParsedRun(cfg, g, before, x);
      ShapedRun(cfg, g, before, x);
      if e.Work? && e.x == x { ParsedWork(cfg, h, x, e.fault); } else { OtherKeepsLocal(cfg, x, h, e); }
    }
  }

  lemma ParsedWork(cfg: Config, g: Global, x: string, f: Fault)
    requires Shaped(cfg, g, x)
    ensures Parsed(LocalOf(Apply(cfg, g, Work(x, f)), x))
  {
    hide Parsed, Step, Next, Built, Opened, ShapedEnv;
    SoundBuilt(cfg, x, LocalOf(g, x));
    StepParts(cfg, x, g.w, LocalOf(g, x), f);
    NextParsed(cfg, x, LocalOf(g, x), Step(cfg, x, g.w, LocalOf(g, x), f).reply, g.w.now);
  }

  /** The record a call of the pass adds. */
  lemma RecordAdded(cfg: Config, x: string, w: World, l: Local, f: Fault, r: ReleaseKey)
    requires ShapedLocal(cfg, x, l) && Parsed(l) && r !in w.releases && r in Step(cfg, x, w, l, f).w.releases
    ensures cfg.helm && Listing(cfg, l) && exists i :: 0 <= i < |l.resolved| && Recorded(x, l.resolved, i, r)
  {
    hide Next, Exec, Built, ShapedEnv;
    StepParts(cfg, x, w, l, f);
    assert l.pc.Deploy? by { OnlyInstalls(cfg, x, w, l, f, r); }
    InstallAtHand(cfg, x, l);
    Installed(cfg, x, w, l, f, r);
    assert Recorded(x, l.resolved, |l.pc.done|, r);
  }

  /** The release of the i-th component of the list, whose values parse. */
  predicate Recorded(x: string, cs: seq<Component>, i: int, r: ReleaseKey)
    requires 0 <= i < |cs|
  {
    cs[i].valuesParse && r == ReleaseKey("env-" + x, "env-" + x + "-" + Sanitize(cs[i].name))
  }

  lemma OnlyInstalls(cfg: Config, x: string, w: World, l: Local, f: Fault, r: ReleaseKey)
    requires WritesRelease(l.pc) && r !in w.releases && r in Step(cfg, x, w, l, f).w.releases
    ensures l.pc.Deploy?
  {
    hide Next, Release, LegacyRelease, TrackedName, WriteEnv, WriteNs, WriteObj;
  }

  lemma InstallAtHand(cfg: Config, x: string, l: Local)
    requires Sound(cfg, x, l) && l.pc.Deploy?
    ensures cfg.helm && l.resolved == l.pc.todo && Listing(cfg, l) && l.env.status.activeNamespace == NsName(x)
  {
  }

  lemma Installed(cfg: Config, x: string, w: World, l: Local, f: Fault, r: ReleaseKey)
    requires l.pc.Deploy? && |l.pc.done| < |l.pc.todo| && l.env.status.activeNamespace == NsName(x)
    requires r !in w.releases && r in Step(cfg, x, w, l, f).w.releases
    ensures r == ReleaseKey("env-" + x, "env-" + x + "-" + Sanitize(l.pc.todo[|l.pc.done|].name))
  {
    hide Next, WriteEnv, WriteNs, WriteObj, Sanitize;
  }

  /** In every run: a release that the worker of an environment puts on record is that of a component of the
      list its pass has resolved, and the values of that component parse. */
  lemma {:induction false} InstallsListed(cfg: Config, g: Global, es: seq<Event>, x: string, f: Fault, r: ReleaseKey)
    requires Initial(g)
    requires r !in Run(cfg, g, es).w.releases && r in Run(cfg, g, es + [Work(x, f)]).w.releases
    ensures var l := LocalOf(Run(cfg, g, es), x);
      && cfg.helm && Sourced(cfg, g, es, x, l)
      && exists i :: 0 <= i < |l.resolved| && Recorded(x, l.resolved, i, r)
  {
    hide Run, Step, Opened, Parsed, Sourced, Listing, Recorded, ShapedEnv;
    var h := Run(cfg, g, es);
    ParsedRun(cfg, g, es, x);
    ShapedRun(cfg, g, es, x);
    SourcedRun(cfg, g, es, x);
    RunSnoc(cfg, g, es, Work(x, f));
    RecordAdded(cfg, x, h.w, LocalOf(h, x), f, r);
  }

  // ---------------------------------------------------------------- in which order

  /** Everything a workload relies on comes before the routes and before Helm, and of these two the routes come
      first for a named service, Helm for a discovered one: at a call of the one kind, in any run, the other
      has been seen in place in the same pass. */
  lemma {:induction false} CreateOrder(cfg: Config, g: Global, es: seq<Event>, x: string)
    requires Initial(g)
    requires var pc := LocalOf(Run(cfg, g, es), x).pc; OfHelm(pc) || OfRoutes(pc)
    ensures var l := LocalOf(Run(cfg, g, es), x); var spec := l.env.spec;
      && InThisPass(cfg, g, es, x, NsFact)
      && (forall st: Stage :: st.SaStage? || st.RoleStage? || st.BindingStage? ==> InThisPass(cfg, g, es, x, StageFact(spec, "", st)))
      && (spec.isolation != Some(false) ==> InThisPass(cfg, g, es, x, StageFact(spec, "", PolicyStage)))
      && (spec.gateway.namespace != "env-" + x ==> InThisPass(cfg, g, es, x, StageFact(spec, "", GrantStage)))
      && (OfHelm(l.pc) && spec.servicePort.None? ==> InThisPass(cfg, g, es, x, StageFact(spec, spec.gateway.serviceName, AppStage)))
      && (OfRoutes(l.pc) && spec.servicePort.Some? && cfg.helm ==>
            Sourced(cfg, g, es, x, l) && forall c :: c in l.resolved ==> InThisPass(cfg, g, es, x, ReleaseFact(c)))
  {
    hide Run, InThisPass, NsName, Sourced;
    SeenRun(cfg, g, es, x);
    SourcedRun(cfg, g, es, x);
    ShapedRun(cfg, g, es, x);
    var l := LocalOf(Run(cfg, g, es), x);
    ShapedSound(cfg, Run(cfg, g, es), x);
    hide Shaped;
    assert NsName(x) == "env-" + x by { OwnNs(x); }
    WhereOrdered(cfg, x, l);
    hide Sound, OfHelm, OfRoutes, Passed, Claimed, Listing, Raised;
    StageSeen(cfg, g, es, x, l, SaStage, "");
    StageSeen(cfg, g, es, x, l, RoleStage, "");
    StageSeen(cfg, g, es, x, l, BindingStage, "");
    if l.env.spec.isolation != Some(false) { StageSeen(cfg, g, es, x, l, PolicyStage, ""); }
    if l.env.spec.gateway.namespace != NsName(x) { StageSeen(cfg, g, es, x, l, GrantStage, ""); }
    if OfHelm(l.pc) && l.env.spec.servicePort.None? { StageSeen(cfg, g, es, x, l, AppStage, l.service); }
  }

  predicate OfHelm(pc: Pc) { pc.ResolveFirst? || pc.ResolveAgain? || pc.Check? || pc.Deploy? }

  predicate OfRoutes(pc: Pc) { (pc.GetStage? || pc.PutStage?) && (pc.stage.AppStage? || pc.stage.AdminStage?) }

  lemma WhereOrdered(cfg: Config, x: string, l: Local)
    requires Sound(cfg, x, l) && (OfHelm(l.pc) || OfRoutes(l.pc))
    ensures Raised(l.pc) && Passed(l) >= 5
    ensures OfHelm(l.pc) && l.env.spec.servicePort.None? ==> Passed(l) >= 7 && l.service == l.env.spec.gateway.serviceName
    ensures OfRoutes(l.pc) && l.env.spec.servicePort.Some? && cfg.helm ==> Listing(cfg, l) && Claimed(l) == l.resolved
  {
  }
}

/** How long an environment lives: what a pass makes of the time-to-live it finds, and what it stores. */
module LifeTime {
  import opened Model
  import opened Discovery
  import opened Store
  import opened Machine
  import opened Progress
  import opened Teardown
  import opened Calls
  import opened Protocol
  import opened Scope
  import opened Runs
  import opened Pass
  import opened Calm
  import opened Converge
  import E = Expiry

  /** The expiry a pass goes by: the one it found, else so many seconds after creation as the specification
      says, a day if it says nothing that parses. */
  predicate Due(found: Option<Time>, created: Time, ttl: Ttl, due: Time) {
    match found
    case Some(e) => due == e
    case None => if ttl.Lasting? then due == created + ttl.seconds else due == created + 86400
  }

  lemma StampMeans(env: EphemeralEnv, now: Time)
    ensures var s := Stamped(env).status;
      && s.expirationTime.Some? && Due(env.status.expirationTime, env.created, env.spec.ttl, s.expirationTime.value)
      && (IsExpired(Stamped(env), now) <==> now > s.expirationTime.value)
      && s.phase == (if env.status.phase == Unset then Pending else env.status.phase)
      && s == env.status.(phase := s.phase, expirationTime := s.expirationTime) && Stamped(env) == env.(status := s)
  {
  }

  /** A pass that has fetched a resource to work on, at once or after adding the finalizer, goes on with a copy
      that expires when it is due, and takes the expiry branch exactly if that is past. */
  lemma FetchDecides(cfg: Config, g: Global, x: string, due: Time)
    requires var l := LocalOf(g, x); (l.pc.Idle? && x in g.w.envs && !g.w.envs[x].deleting && FINALIZER in g.w.envs[x].finalizers) || (l.pc.Refetch? && x in g.w.envs)
    requires var env := g.w.envs[x]; Due(env.status.expirationTime, env.created, env.spec.ttl, due)
    ensures var m := LocalOf(DoWork(cfg, g, x, NoFault), x);
      && m.env.status.expirationTime == Some(due) && m.found == g.w.envs[x].status.expirationTime
      && m.env.created == g.w.envs[x].created && m.env.spec == g.w.envs[x].spec
      && m.pc == if g.w.now > due then GetRoute(Expiring) else GetNs
  {
    StampMeans(g.w.envs[x], g.w.now);
    hide Stamped, IsExpired, SetCondition, Due;
  }

  /** A worker that builds up or takes down goes by that expiry. */
  predicate Timed(l: Local) {
    Creating(l.pc) || TakingDown(l.pc) ==>
      && l.env.status.expirationTime.Some?
      && Due(l.found, l.env.created, l.env.spec.ttl, l.env.status.expirationTime.value)
  }

  lemma NextTimed(cfg: Config, x: string, l: Local, r: Reply, now: Time)
    requires Timed(l) && (Building(l.pc) ==> Built(cfg, x, l)) && (r.AnEnv? ==> ReadsEnv(l.pc))
    ensures Timed(Next(cfg, x, l, r, now))
  {
    hide Next, Built, Due, Timed;
    if Building(l.pc) { BuildingTimed(cfg, x, l, r, now); }
    else if Tearing(l.pc) { TearingTimed(cfg, x, l, r, now); }
    else { OpeningTimed(cfg, x, l, r, now); }
  }

  lemma BuildingTimed(cfg: Config, x: string, l: Local, r: Reply, now: Time)
    requires Timed(l) && Building(l.pc) && Built(cfg, x, l)
    ensures Timed(Next(cfg, x, l, r, now))
  {
    hide Next, Built, Due, Needed, StageConfirmed, AddsClaim, Claimed, Passed, HelmFlag;
    NextBuilding(cfg, x, l, r, now);
    FoundKept(cfg, x, l, r, now);
  }

  lemma TearingTimed(cfg: Config, x: string, l: Local, r: Reply, now: Time)
    requires Timed(l) && Tearing(l.pc)
    ensures Timed(Next(cfg, x, l, r, now))
  {
    hide Next, Due, NsGoing;
    NextTearing(cfg, x, l, r, now);
  }

  lemma OpeningTimed(cfg: Config, x: string, l: Local, r: Reply, now: Time)
    requires Timed(l) && !Building(l.pc) && !Tearing(l.pc) && (r.AnEnv? ==> ReadsEnv(l.pc))
    ensures Timed(Next(cfg, x, l, r, now))
  {
    hide Next, Due, NsEnsured, FailStep, Stamped, IsExpired;
    if r.AnEnv? { StampMeans(r.env, now); }
    NextOpening(cfg, x, l, r, now);
    OpeningKept(x, l, now);
  }

  lemma OpeningKept(x: string, l: Local, now: Time)
    ensures var m := NsEnsured(x, l, now); m.found == l.found && m.env == l.env.(status := m.env.status) && m.env.status.expirationTime == l.env.status.expirationTime
    ensures var m := FailStep(l, NamespaceStep); m.found == l.found && m.env == l.env.(status := m.env.status) && m.env.status.expirationTime == l.env.status.expirationTime
  {
  }

  /** What the pass found is not forgotten while it builds up. */
  lemma FoundKept(cfg: Config, x: string, l: Local, r: Reply, now: Time)
    requires Building(l.pc)
    ensures Next(cfg, x, l, r, now).found == l.found
  {
    hide Resolve, StageObj, StageStatus, SetCondition, Release, Matching, Choose, PrimaryName, OnTearing, Fetched, OnNsRead, IsolationEnabled;
    StageFound(cfg, l, now);
    hide StageEnsured, StageFailed;
  }

  lemma StageFound(cfg: Config, l: Local, now: Time)
    ensures forall st :: StageEnsured(cfg, l, st, now).found == l.found && StageFailed(cfg, l, st, now).found == l.found
  {
    hide Resolve, StageStatus, SetCondition, IsolationEnabled;
  }

  lemma {:induction false} TimedRun(cfg: Config, g: Global, es: seq<Event>, x: string)
    requires Initial(g)
    ensures Timed(LocalOf(Run(cfg, g, es), x))
  {
    hide Apply, Timed, Due, Shaped;
    if es == [] {
      assert Timed(IdleLocal) by { IdleTimed(); }
    } else {
      var before, e := es[..|es| - 1], es[|es| - 1];
      var h := Run(cfg, g, before);
      TimedRun(cfg, g, before, x);
      ShapedRun(cfg, g, before, x);
      if e.Work? && e.x == x { TimedWork(cfg, h, x, e.fault); } else { OtherKeepsLocal(cfg, x, h, e); }
    }
  }

  lemma IdleTimed()
    ensures Timed(IdleLocal)
  {
  }

  lemma TimedWork(cfg: Config, g: Global, x: string, f: Fault)
    requires Timed(LocalOf(g, x)) && Shaped(cfg, g, x)
    ensures Timed(LocalOf(Apply(cfg, g, Work(x, f)), x))
  {
    hide Timed, Step, Next, Built, Opened, ShapedEnv;
    SoundBuilt(cfg, x, LocalOf(g, x));
    StepParts(cfg, x, g.w, LocalOf(g, x), f);
    NextTimed(cfg, x, LocalOf(g, x), Step(cfg, x, g.w, LocalOf(g, x), f).reply, g.w.now);
  }

  /** In every run: a status that a pass stores, Active, waiting, failed or expired, has the expiry the pass
      found, or, if it found none, that of the specification. */
  lemma {:induction false} StoresDue(cfg: Config, g: Global, es: seq<Event>, x: string, f: Fault)
    requires Initial(g)
    requires var h := Run(cfg, g, es); var l := LocalOf(h, x); (l.pc.Save? || l.pc.SaveExpired?) && Taken(h.w, x, l.env, f)
    ensures var h := Run(cfg, g, es); var l := LocalOf(h, x); var v := Run(cfg, g, es + [Work(x, f)]).w;
      x in v.envs ==>
        && v.envs[x].status.expirationTime.Some?
        && Due(l.found, l.env.created, l.env.spec.ttl, v.envs[x].status.expirationTime.value)
  {
    hide Run, Due, Step, Opened;
    var h := Run(cfg, g, es);
    TimedRun(cfg, g, es, x);
    RunSnoc(cfg, g, es, Work(x, f));
    WriteOutcome(cfg, x, h.w, LocalOf(h, x), f);
  }

  /** Over a whole pass that only its own failing calls disturb: an environment that had no expiry stored has
      none still, or the one of its specification. */
  lemma PassStoresDue(cfg: Config, x: string, g: Global, fates: seq<Fate>)
    requires Willing(x, g, fates) && g.w.envs[x].status.expirationTime.None?
    ensures var v := OnePass(cfg, x, g, fates).g.w; var env := g.w.envs[x];
      x in v.envs && (v.envs[x].status.expirationTime.Some? ==> Due(None, env.created, env.spec.ttl, v.envs[x].status.expirationTime.value))
  {
    hide OnePass, Undisturbed, Elapsed, Fit;
    CalmPass(cfg, x, g, fates);
  }
}

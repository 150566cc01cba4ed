/** What a worker's private state says outside the create path: starting, tearing down, finishing. */
module Teardown {
  import opened Model
  import opened Discovery
  import opened Store
  import opened Machine
  import opened Progress

  predicate Tearing(pc: Pc) {
    pc.GetAdmin? || pc.DelAdmin? || pc.GetRoute? || pc.DelRoute? || pc.CheckTracked? || pc.DelTracked?
    || pc.CheckLegacy? || pc.DelLegacy? || pc.FindNs? || pc.DelNs?
  }

  predicate Creating(pc: Pc) { pc.GetNs? || pc.PutNs? || Building(pc) || pc.Save? }

  /** The route of the environment has been dealt with. */
  predicate PastRoute(pc: Pc) {
    pc.CheckTracked? || pc.DelTracked? || pc.CheckLegacy? || pc.DelLegacy? || pc.FindNs? || pc.DelNs? || pc.DropFinalizer? || pc.SaveExpired?
  }

  function PathOf(pc: Pc): Path
    requires Tearing(pc)
  {
    match pc
    case GetRoute(p) => p
    case DelRoute(p) => p
    case CheckTracked(p, _) => p
    case DelTracked(p, _) => p
    case CheckLegacy(p) => p
    case DelLegacy(p) => p
    case FindNs(p) => p
    case DelNs(p) => p
    case _ => Deleting
  }

  /** The worker is taking an expired environment down. */
  predicate TakingDown(pc: Pc) {
    pc.SaveExpired? || (Tearing(pc) && PathOf(pc).Expiring?)
  }

  /** The reply shows the namespace gone or on its way. */
  predicate NsGoing(l: Local, r: Reply) {
    || (l.pc.FindNs? && (r.NotFound? || (r.ANamespace? && r.seenNs.terminating)))
    || (l.pc.DelNs? && (r.Done? || r.NotFound?))
  }

  /** A step of a teardown stays on its path and only ends it after the namespace was dealt with. */
  predicate Unwinds(l: Local, m: Local, r: Reply)
    requires Tearing(l.pc)
  {
    && m == l.(pc := m.pc, env := m.env)
    && m.env == l.env.(status := m.env.status, finalizers := m.env.finalizers)
    && m.env.status == l.env.status.(lastReconcile := m.env.status.lastReconcile, message := m.env.status.message)
    && m.env.finalizers == (if m.pc.DropFinalizer? then l.env.finalizers - {FINALIZER} else l.env.finalizers)
    && (Tearing(m.pc) || m.pc.DropFinalizer? || m.pc.SaveExpired? || m.pc == Idle(PassResult(5, true)))
    && (Tearing(m.pc) ==> PathOf(m.pc) == PathOf(l.pc))
    && (m.pc.DropFinalizer? ==> PathOf(l.pc).Deleting? && NsGoing(l, r))
    && (m.pc.SaveExpired? ==> PathOf(l.pc).Expiring? && (m.pc.cleaned <==> NsGoing(l, r)))
    && (m.pc.Idle? ==> PathOf(l.pc).Deleting? && (l.pc.FindNs? || l.pc.DelNs?) && !NsGoing(l, r))
    && (PastRoute(l.pc) ==> !m.pc.GetAdmin? && !m.pc.DelAdmin? && !m.pc.GetRoute? && !m.pc.DelRoute?)
    && (PastRoute(m.pc) && !PastRoute(l.pc) ==> l.pc.DelRoute? || (l.pc.GetRoute? && !r.AnObj?))
    && !m.pc.GetAdmin? && (m.pc.DelAdmin? ==> l.pc.GetAdmin?)
    && (m.pc.CheckTracked? ==> m.pc.i < |l.env.status.components|)
    && (m.pc.DelTracked? ==> l.pc.CheckTracked? && l.pc.i == m.pc.i)
    && (m.pc.DelRoute? ==> l.pc.GetRoute? && r.AnObj?)
    && (m.pc.DelNs? ==> l.pc.FindNs? && r.ANamespace? && !r.seenNs.terminating)
    && (m.pc.DropFinalizer? || m.pc.SaveExpired? || m.pc.Idle? || m.pc.DelNs? ==> l.pc.FindNs? || l.pc.DelNs?)
  }

  lemma UninstallKeeps(cfg: Config, l: Local, p: Path, i: nat)
    ensures var m := TrackedFrom(l, p, i); m == l.(pc := m.pc) && (m.pc == FindNs(p) || (m.pc.CheckTracked? && m.pc.path == p && m.pc.i < |l.env.status.components|))
    ensures var m := UninstallFrom(cfg, l, p); m == l.(pc := m.pc) && (m.pc == FindNs(p) || m.pc == CheckLegacy(p) || (m.pc.CheckTracked? && m.pc.path == p && m.pc.i < |l.env.status.components|))
  {
    hide NextTracked;
  }

  lemma NsTearing(cfg: Config, l: Local, r: Reply, now: Time)
    requires l.pc.FindNs? || l.pc.DelNs?
    ensures Unwinds(l, OnTearing(cfg, l, r, now), r)
  {
    hide TrackedFrom, UninstallFrom;
  }

  lemma AdminTearing(cfg: Config, l: Local, r: Reply, now: Time)
    requires l.pc.GetAdmin? || l.pc.DelAdmin?
    ensures Unwinds(l, OnTearing(cfg, l, r, now), r)
  {
    hide TrackedFrom, UninstallFrom, OnNsFound, NsCleaned, NsNotCleaned;
  }

  lemma RouteTearing(cfg: Config, l: Local, r: Reply, now: Time)
    requires l.pc.GetRoute? || l.pc.DelRoute?
    ensures Unwinds(l, OnTearing(cfg, l, r, now), r)
  {
    hide TrackedFrom, UninstallFrom, OnNsFound, NsCleaned, NsNotCleaned;
    UninstallKeeps(cfg, l, PathOf(l.pc), 0);
  }

  lemma ReleaseTearing(cfg: Config, l: Local, r: Reply, now: Time)
    requires l.pc.CheckTracked? || l.pc.DelTracked? || l.pc.CheckLegacy? || l.pc.DelLegacy?
    ensures Unwinds(l, OnTearing(cfg, l, r, now), r)
  {
    hide TrackedFrom, UninstallFrom, OnNsFound, NsCleaned, NsNotCleaned;
    if l.pc.CheckTracked? || l.pc.DelTracked? { UninstallKeeps(cfg, l, PathOf(l.pc), l.pc.i + 1); }
  }

  lemma NextTearing(cfg: Config, x: string, l: Local, r: Reply, now: Time)
    requires Tearing(l.pc)
    ensures Unwinds(l, Next(cfg, x, l, r, now), r)
  {
    hide OnTearing, OnBuilding, Fetched, Begin, OnSaved, OnNsRead, NsEnsured, FailStep, Unwinds;
    if l.pc.FindNs? || l.pc.DelNs? { NsTearing(cfg, l, r, now); }
    else if l.pc.GetAdmin? || l.pc.DelAdmin? { AdminTearing(cfg, l, r, now); }
    else if l.pc.GetRoute? || l.pc.DelRoute? { RouteTearing(cfg, l, r, now); }
    else { ReleaseTearing(cfg, l, r, now); }
  }

  /** How a pass begins from a read of the resource. */
  predicate Begins(m: Local, env: EphemeralEnv, now: Time) {
    var e := Stamped(env);
    && m.service == "" && m.resolved == [] && m.listed == [] && m.found == env.status.expirationTime
    && if IsExpired(e, now) then
         && m.pc == GetRoute(Expiring)
         && m.env == e.(status := SetCondition(e.status.(phase := Expired, message := ExpiredMessage), EnvironmentExpired, true, now))
       else m.pc.GetNs? && m.env == e
  }

  lemma BeginBegins(l: Local, env: EphemeralEnv, now: Time)
    ensures Begins(Begin(l, env, now), env, now)
  {
  }

  predicate Ends(l: Local, m: Local, r: Reply) {
    m.pc.Idle? && (m.env == l.env || (r.AnEnv? && m.env == r.env))
  }

  /** How the steps up to the first object follow from their replies. */
  predicate Opens(x: string, l: Local, m: Local, r: Reply, now: Time) {
    match l.pc
    case Idle(_) =>
      if !r.AnEnv? then Ends(l, m, r)
      else if r.env.deleting then
        if FINALIZER in r.env.finalizers then m.pc.GetAdmin? && m.env == r.env else Ends(l, m, r)
      else if FINALIZER !in r.env.finalizers then
        m.pc.AddFinalizer? && m.env == r.env.(finalizers := r.env.finalizers + {FINALIZER})
      else Begins(m, r.env, now)
    case AddFinalizer => if r.Done? then m == l.(pc := Refetch) else Ends(l, m, r)
    case Refetch => if r.AnEnv? then Begins(m, r.env, now) else Ends(l, m, r)
    case GetNs =>
      if r.NotFound? then m == l.(pc := PutNs(None))
      else if r.ANamespace? && r.seenNs.labels + OwnerLabels(x) != r.seenNs.labels then m == l.(pc := PutNs(Some(r.seenNs)))
      else if r.ANamespace? then m == NsEnsured(x, l, now)
      else m == FailStep(l, NamespaceStep)
    case PutNs(_) => if r.Done? then m == NsEnsured(x, l, now) else m == FailStep(l, NamespaceStep)
    case Save(_) => Ends(l, m, r)
    case DropFinalizer => Ends(l, m, r)
    case SaveExpired(_) => Ends(l, m, r)
    case _ => true
  }

  lemma NextOpening(cfg: Config, x: string, l: Local, r: Reply, now: Time)
    ensures Opens(x, l, Next(cfg, x, l, r, now), r, now)
  {
    hide OnBuilding, OnTearing, Begin, Begins, NsEnsured, FailStep;
    if r.AnEnv? {
      BeginBegins(l, r.env, now);
      BeginBegins(l.(env := r.env), r.env, now);
    }
  }

  // ---------------------------------------------------------------- sound local states

  /** What the code at each point relies on: every state of a pass has it. */
  ghost predicate Sound(cfg: Config, x: string, l: Local) {
    && (Building(l.pc) || l.pc == Save(Activated) ==> Built(cfg, x, l))
    && (l.pc.GetNs? || l.pc.PutNs? ==> l.env.status.expirationTime.Some? && l.resolved == [])
    && (l.pc.CheckTracked? || l.pc.DelTracked? ==> l.pc.i < |l.env.status.components|)
  }

  lemma BuiltActive(cfg: Config, x: string, l: Local)
    requires Built(cfg, x, l)
    ensures l.env.status.activeNamespace == NsName(x) && l.env.status.expirationTime.Some?
  {
  }

  lemma SoundBuilt(cfg: Config, x: string, l: Local)
    requires Sound(cfg, x, l)
    ensures Building(l.pc) || l.pc == Save(Activated) ==> Built(cfg, x, l) && l.env.status.activeNamespace == NsName(x) && l.env.status.expirationTime.Some?
    ensures l.pc.Check? || l.pc.Deploy? ==> cfg.helm
    ensures l.pc.GetNs? || l.pc.PutNs? ==> l.env.status.expirationTime.Some? && l.resolved == []
  {
  }

  lemma NsEnsuredBuilt(cfg: Config, x: string, l: Local, now: Time)
    requires l.env.status.expirationTime.Some? && l.resolved == []
    ensures var m := NsEnsured(x, l, now);
      Built(cfg, x, m) && m.pc == GetStage(SaStage) && m.env == l.env.(status := m.env.status)
      && m.env.status.activeNamespace == NsName(x) && m.env.status.components == l.env.status.components
      && m.env.status.expirationTime == l.env.status.expirationTime
    ensures FailStep(l, NamespaceStep).pc == Save(StepFailed)
  {
  }

  lemma BuildingSound(cfg: Config, x: string, l: Local, r: Reply, now: Time)
    requires Sound(cfg, x, l) && Building(l.pc)
    ensures Sound(cfg, x, Next(cfg, x, l, r, now))
  {
    hide Next, Built, Claimed, Needed, HelmFlag, StageConfirmed, AddsClaim, Passed;
    NextBuilding(cfg, x, l, r, now);
  }

  lemma TearingSound(cfg: Config, x: string, l: Local, r: Reply, now: Time)
    requires Sound(cfg, x, l) && Tearing(l.pc)
    ensures Sound(cfg, x, Next(cfg, x, l, r, now))
  {
    hide Next, Built, NsGoing;
    NextTearing(cfg, x, l, r, now);
  }

  /** A reply of any kind, with any content, leads to a sound state. */
  lemma NextSound(cfg: Config, x: string, l: Local, r: Reply, now: Time)
    requires Sound(cfg, x, l)
    ensures Sound(cfg, x, Next(cfg, x, l, r, now))
  {
    hide Next, Built, NsEnsured, FailStep;
    if Building(l.pc) { BuildingSound(cfg, x, l, r, now); }
    else if Tearing(l.pc) { TearingSound(cfg, x, l, r, now); }
    else {
      NextOpening(cfg, x, l, r, now);
      if l.pc.GetNs? || l.pc.PutNs? { NsEnsuredBuilt(cfg, x, l, now); }
    }
  }
}

/** A settled environment stays as it is: later passes only refresh the time of the last one. */
module Steadiness {
  import opened Model
  import opened Discovery
  import opened Store
  import opened Machine
  import opened Progress
  import opened Teardown
  import opened Calls
  import opened Protocol
  import opened Runs
  import opened Pass
  import opened Backing
  import opened Calm
  import opened Faultless
  import opened Converge
  import opened History

  predicate Holds(s: Status, t: ConditionType) {
    t in s.conditions && s.conditions[t].status
  }

  /** The report on components that were all found installed. */
  function Notes(x: string, cs: seq<Component>): seq<ComponentStatus> {
    if cs == [] then [] else Notes(x, cs[..|cs| - 1]) + [Note(x, cs[|cs| - 1])]
  }

  function Note(x: string, c: Component): ComponentStatus {
    ComponentStatus(c.name, Release(x, "", c).name, AlreadyInstalled)
  }

  function HelmStatus(s: Status, notes: seq<ComponentStatus>, now: Time): Status {
    SetCondition(s.(components := notes), HelmDeployed, true, now)
  }

  /** The last step before the status is stored. */
  function Closed(pc: Pc, s: Status, now: Time): Status {
    if pc == Save(Activated) then s.(phase := Active, message := ActiveMessage, lastReconcile := Some(now))
    else if pc == Save(Waiting) then s.(message := WaitingMessage)
    else s
  }

  /** What a pass for a settled environment writes into its copy of the status at each step. */
  function Written(cfg: Config, x: string, l: Local, m: Local, now: Time): Status {
    var s := l.env.status;
    match l.pc
    case GetStage(st) => Closed(m.pc, StageStatus(s, l.env.spec, st, now), now)
    case Check(todo, done) =>
      if |done| >= |todo| || m.pc.Check? then s
      else Closed(m.pc, HelmStatus(s, done + [Note(x, todo[|done|])], now), now)
    case _ => Closed(m.pc, s, now)
  }

  lemma HelmWrites(cfg: Config, l: Local, now: Time)
    ensures var m := AfterHelm(l, now); m.env.status == Closed(m.pc, l.env.status, now) && (m.pc.List? || m.pc == Save(Activated))
    ensures var m := StartHelm(cfg, l, now); m.env.status == Closed(m.pc, l.env.status, now)
  {
    hide Resolve;
  }

  lemma StageWrites(cfg: Config, l: Local, st: Stage, now: Time)
    ensures var m := StageEnsured(cfg, l, st, now); m.env.status == Closed(m.pc, StageStatus(l.env.status, l.env.spec, st, now), now)
  {
    hide StartHelm, StageStatus, IsolationEnabled;
    var m := SetStatus(l, StageStatus(l.env.status, l.env.spec, st, now));
    HelmWrites(cfg, m, now);
    HelmWrites(cfg, m.(service := m.env.spec.gateway.serviceName), now);
  }

  lemma SettledWrites(cfg: Config, x: string, w: World, l: Local)
    requires Settled(cfg, x, w) && Clean(cfg, x, w, l) && Silent(cfg, x, l) && Building(l.pc)
    requires Clean(cfg, x, w, Step(cfg, x, w, l, NoFault).l)
    ensures var s := Step(cfg, x, w, l, NoFault);
      && s.l.env.status == Written(cfg, x, l, s.l, w.now)
      && (l.pc.Check? ==> |l.pc.done| < |l.pc.todo|)
      && (l.pc.Check? && s.l.pc.Check? ==> s.l.pc.todo == l.pc.todo && s.l.pc.done == l.pc.done + [Note(x, l.pc.todo[|l.pc.done|])])
      && (!l.pc.Check? && s.l.pc.Check? ==> s.l.pc.done == [])
      && (l.pc.Check? && !s.l.pc.Check? ==> |l.pc.done| + 1 == |l.pc.todo|)
      && (GaveUp(s.l) ==> s.l.pc == Save(Waiting) && (l.pc.List? || l.pc.AskPrimary?))
  {
    hide Step, NsName, StageKey, StageObj, Settled, Clean, OnTrack, Built, Matching, Choose, PrimaryName, Resolve, Release, StageEnsured, StageStatus;
    var s := Step(cfg, x, w, l, NoFault);
    assert GaveUp(s.l) ==> s.l.pc == Save(Waiting) by { GivesUpWaiting(cfg, x, w, l); }
    CleanTrack(cfg, x, w, l);
    TrackBuilt(cfg, x, w, l);
    StepParts(cfg, x, w, l, NoFault);
    if s.l.pc == Save(Waiting) { OnlyDiscoveryWaits(cfg, x, l, s.reply, w.now); }
    if l.pc.GetStage? {
      SilentStage(cfg, x, w, l);
      StageWrites(cfg, l, l.pc.stage, w.now);
      StageChecks(cfg, l, l.pc.stage, w.now);
    } else if l.pc.Check? {
      ChecksPresent(cfg, x, w, l);
    }
  }

  lemma StageChecks(cfg: Config, l: Local, st: Stage, now: Time)
    ensures var m := StageEnsured(cfg, l, st, now); m.pc.Check? ==> m.pc.done == []
  {
    hide Resolve;
  }

  /** Clean passes give up only to wait. */
  lemma GivesUpWaiting(cfg: Config, x: string, w: World, l: Local)
    requires Clean(cfg, x, w, Step(cfg, x, w, l, NoFault).l)
    ensures var m := Step(cfg, x, w, l, NoFault).l; GaveUp(m) ==> m.pc == Save(Waiting) && m.env.status.message == WaitingMessage
  {
    hide Step, OnTrack, Backend, TemplateAt, ServicesAt, Labelled, Placed, AdminInPlace, Resolve, Grounded;
  }

  /** Only with a service behind it does a pass come to its routes. */
  lemma RouteServed(cfg: Config, x: string, w: World, l: Local)
    requires Clean(cfg, x, w, l) && AtRoute(l)
    ensures Served(x, w)
  {
    hide Backend, TemplateAt, ServicesAt, Labelled, Placed, AdminInPlace, Resolve, Grounded;
    TrackFreshly(cfg, x, w, l);
    hide OnTrack;
  }

  // ---------------------------------------------------------------- the status of a settled environment

  predicate Shown(s: Status, spec: Spec, st: Stage) {
    match st
    case PolicyStage => Holds(s, NetworkPolicyApplied)
    case AppStage => Holds(s, HTTPRouteReady) && s.accessURL == "https://" + Hostname(spec)
    case AdminStage => s.adminURL == "https://" + AdminHostname(spec)
    case _ => true
  }

  predicate HelmShown(cfg: Config, x: string, s: Status, cs: seq<Component>) {
    cfg.helm && cs != [] ==> Holds(s, HelmDeployed) && s.components == Notes(x, cs)
  }

  /** The status that repeated passes come to: Active, or waiting for a service. */
  ghost predicate SteadyStatus(cfg: Config, x: string, spec: Spec, cs: seq<Component>, s: Status, served: bool) {
    && s.phase != Unset && (served ==> s.phase == Active) && s.message == (if served then ActiveMessage else WaitingMessage)
    && s.activeNamespace == NsName(x) && s.expirationTime.Some?
    && Holds(s, NamespaceReady) && HelmShown(cfg, x, s, cs)
    && forall st :: Wanted(cfg, x, spec, st) && (OnRoute(st) ==> served) ==> Shown(s, spec, st)
  }

  ghost predicate Steady(cfg: Config, x: string, w: World, cs: seq<Component>, s: Status) {
    x in w.envs && SteadyStatus(cfg, x, w.envs[x].spec, cs, s, Served(x, w))
  }

  lemma HoldsKept(s: Status, t: ConditionType, u: ConditionType, now: Time)
    ensures Holds(SetCondition(s, t, true, now), t)
    ensures Holds(s, u) ==> Holds(SetCondition(s, t, true, now), u)
    ensures Holds(s, t) ==> SetCondition(s, t, true, now) == s
  {
    if Holds(s, t) { assert s.conditions[t := Condition(true, s.conditions[t].since)] == s.conditions; }
  }

  lemma StageShows(s: Status, spec: Spec, st: Stage, now: Time)
    ensures var r := StageStatus(s, spec, st, now);
      && Shown(r, spec, st)
      && (forall u :: Shown(s, spec, u) ==> Shown(r, spec, u))
      && (forall t :: Holds(s, t) ==> Holds(r, t)) && r.components == s.components && r.activeNamespace == s.activeNamespace && r.expirationTime == s.expirationTime
      && r.phase == s.phase
      && (Shown(s, spec, st) ==> r == s)
  {
    hide SetCondition, Hostname, AdminHostname;
    SetKeeps(s.(accessURL := "https://" + Hostname(spec)), HTTPRouteReady, now);
    SetKeeps(s, NetworkPolicyApplied, now);
  }

  lemma SetKeeps(s: Status, t: ConditionType, now: Time)
    ensures var r := SetCondition(s, t, true, now);
      Holds(r, t) && r == s.(conditions := r.conditions) && (Holds(s, t) ==> r == s) && (forall u :: Holds(s, u) ==> Holds(r, u))
  {
    forall u { HoldsKept(s, t, u, now); }
  }

  lemma HelmShows(cfg: Config, x: string, s: Status, cs: seq<Component>, spec: Spec, now: Time)
    ensures var r := HelmStatus(s, Notes(x, cs), now);
      && HelmShown(cfg, x, r, cs) && (forall u :: Shown(s, spec, u) ==> Shown(r, spec, u))
      && (forall t :: Holds(s, t) ==> Holds(r, t)) && r.activeNamespace == s.activeNamespace && r.expirationTime == s.expirationTime
      && r.phase == s.phase
      && (cfg.helm && cs != [] && HelmShown(cfg, x, s, cs) ==> r == s)
  {
    hide SetCondition, Notes, Hostname, AdminHostname;
    SetKeeps(s.(components := Notes(x, cs)), HelmDeployed, now);
  }

  /** What the copy of the status shows by the time the pass has come this far. */
  ghost predicate Marked(cfg: Config, x: string, l: Local, cs: seq<Component>) {
    && (Creating(l.pc) ==> l.env.status.phase != Unset)
    && (l.pc == Save(Waiting) ==>
      && Holds(l.env.status, NamespaceReady) && HelmShown(cfg, x, l.env.status, cs) && l.env.status.activeNamespace == NsName(x)
      && (forall st :: Wanted(cfg, x, l.env.spec, st) && !OnRoute(st) ==> Shown(l.env.status, l.env.spec, st)))
    && (Raised(l.pc) ==>
      && Holds(l.env.status, NamespaceReady)
      && (forall st :: Wanted(cfg, x, l.env.spec, st) && Pos(st) <= Passed(l) ==> Shown(l.env.status, l.env.spec, st))
      && (Passed(l) >= HelmPos(l) ==> HelmShown(cfg, x, l.env.status, cs))
      && (l.pc.Check? ==> |l.pc.done| <= |cs| && l.pc.done == Notes(x, cs[..|l.pc.done|])))
  }

  lemma ClosedShows(pc: Pc, s: Status, spec: Spec, now: Time)
    ensures var r := Closed(pc, s, now);
      && (forall u :: Shown(s, spec, u) ==> Shown(r, spec, u)) && (forall t :: Holds(s, t) ==> Holds(r, t))
      && r.components == s.components && r.activeNamespace == s.activeNamespace && (s.phase != Unset ==> r.phase != Unset)
  {
    hide Hostname, AdminHostname;
  }

  /** The stages behind the pass after a step. */
  lemma PassedOver(cfg: Config, x: string, w: World, l: Local, st: Stage)
    requires Settled(cfg, x, w) && Clean(cfg, x, w, l) && Silent(cfg, x, l) && Building(l.pc)
    requires Clean(cfg, x, w, Step(cfg, x, w, l, NoFault).l)
    requires var m := Step(cfg, x, w, l, NoFault).l; Wanted(cfg, x, m.env.spec, st) && Pos(st) <= Passed(m)
    ensures Pos(st) <= Passed(l) || l.pc == GetStage(st)
  {
    hide Step, Next, NsName, StageKey, StageObj, Settled, Clean, OnTrack, Built, Claimed, HelmFlag;
    var s := Step(cfg, x, w, l, NoFault);
    CleanTrack(cfg, x, w, l);
    TrackBuilt(cfg, x, w, l);
    StepParts(cfg, x, w, l, NoFault);
    NextBuilding(cfg, x, l, s.reply, w.now);
    if st.AdminStage? {
      assert Needed(x, s.l.env.spec, AppStage);
      if l.pc.GetStage? {
        assert s.reply.NotFound? || s.reply.AnObj? by { SettledFit(cfg, x, w, l); }
        StageLeads(cfg, x, l, s.reply, w.now);
      }
    }
  }

  lemma SettledFit(cfg: Config, x: string, w: World, l: Local)
    requires Clean(cfg, x, w, l) && l.pc.GetStage?
    ensures var r := Step(cfg, x, w, l, NoFault).reply; r.NotFound? || r.AnObj?
  {
    hide Step, Built;
    CleanTrack(cfg, x, w, l);
    TrackBuilt(cfg, x, w, l);
    BuildingReads(cfg, x, w, l, NoFault);
  }

  lemma HelmOverAlready(cfg: Config, x: string, w: World, l: Local)
    requires Clean(cfg, x, w, l) && Silent(cfg, x, l) && Building(l.pc) && !l.pc.Check? && Passed(l) < HelmPos(l)
    requires Clean(cfg, x, w, Step(cfg, x, w, l, NoFault).l)
    ensures var m := Step(cfg, x, w, l, NoFault).l; Raised(m.pc) && Passed(m) >= HelmPos(m) && cfg.helm ==> Resolve(w.envs[x].spec, TemplateAt(w, w.envs[x])) == []
  {
    hide Step, Next, NsName, OnTrack, Claimed, HelmFlag, TemplateAt, ServicesAt, Backend, Placed, AdminInPlace, Labelled, Resolve, Needed;
    var s := Step(cfg, x, w, l, NoFault);
    CleanTrack(cfg, x, w, l);
    TrackBuilt(cfg, x, w, l);
    CleanTrack(cfg, x, w, s.l);
    if Creating(s.l.pc) { TrackFreshly(cfg, x, w, s.l); }
    StepParts(cfg, x, w, l, NoFault);
    NextBuilding(cfg, x, l, s.reply, w.now);
  }

  lemma MarkedStep(cfg: Config, x: string, w: World, l: Local, cs: seq<Component>)
    requires Settled(cfg, x, w) && Clean(cfg, x, w, l) && Silent(cfg, x, l) && Building(l.pc)
    requires Clean(cfg, x, w, Step(cfg, x, w, l, NoFault).l)
    requires cs == Resolve(w.envs[x].spec, TemplateAt(w, w.envs[x])) && Marked(cfg, x, l, cs)
    ensures Marked(cfg, x, Step(cfg, x, w, l, NoFault).l, cs)
  {
    hide Step, Settled, Clean, TemplateAt, Resolve, Wanted, Shown, Holds, Notes, StageStatus, HelmStatus, Closed, Note;
    var s := Step(cfg, x, w, l, NoFault);
    SettledWrites(cfg, x, w, l);
    assert Notes(x, cs[..0]) == [] by { NoNotes(x, cs); }
    assert s.l.env.spec == l.env.spec && (s.l.pc.Save? || Building(s.l.pc)) by { SameSpecs(cfg, x, w, l); }
    if s.l.pc == Save(Waiting) {
      WaitMarked(cfg, x, w, l, cs);
    } else if Raised(s.l.pc) {
      assert s.l.env.spec == l.env.spec && (l.pc.Check? || s.l.pc.Check? ==> cs == (if l.pc.Check? then l.pc.todo else s.l.pc.todo)) by { SameSpecs(cfg, x, w, l); }
      forall st | Wanted(cfg, x, l.env.spec, st) && Pos(st) <= Passed(s.l) ensures Pos(st) <= Passed(l) || l.pc == GetStage(st) { PassedOver(cfg, x, w, l, st); }
      if !l.pc.Check? && Passed(l) < HelmPos(l) { HelmOverAlready(cfg, x, w, l); }
      match l.pc
      case GetStage(st) =>
        StageShows(l.env.status, l.env.spec, st, w.now);
        ClosedShows(s.l.pc, StageStatus(l.env.status, l.env.spec, st, w.now), l.env.spec, w.now);
      case Check(todo, done) =>
        NotesGrow(x, cs, |done|);
        HelmShows(cfg, x, l.env.status, cs, l.env.spec, w.now);
        ClosedShows(s.l.pc, HelmStatus(l.env.status, Notes(x, cs), w.now), l.env.spec, w.now);
      case _ => ClosedShows(s.l.pc, l.env.status, l.env.spec, w.now);
    }
  }

  lemma WaitMarked(cfg: Config, x: string, w: World, l: Local, cs: seq<Component>)
    requires Clean(cfg, x, w, l) && Building(l.pc) && (l.pc.List? || l.pc.AskPrimary?) && Marked(cfg, x, l, cs)
    requires var m := Step(cfg, x, w, l, NoFault).l;
      m.pc == Save(Waiting) && m.env.status == Closed(m.pc, l.env.status, w.now) && m.env.spec == l.env.spec
    ensures Marked(cfg, x, Step(cfg, x, w, l, NoFault).l, cs)
  {
    hide Step, Clean, Shown, Holds, Notes, HelmShown;
    var m := Step(cfg, x, w, l, NoFault).l;
    assert Discovers(l) && l.env.status.activeNamespace == NsName(x) by { CleanTrack(cfg, x, w, l); TrackBuilt(cfg, x, w, l); BuiltDiscovers(cfg, x, l); }
    ClosedShows(m.pc, l.env.status, l.env.spec, w.now);
    ClosedHelm(cfg, x, m.pc, l.env.status, cs, w.now);
  }

  lemma ClosedHelm(cfg: Config, x: string, pc: Pc, s: Status, cs: seq<Component>, now: Time)
    ensures HelmShown(cfg, x, s, cs) ==> HelmShown(cfg, x, Closed(pc, s, now), cs)
  {
  }

  lemma NotesGrow(x: string, cs: seq<Component>, n: nat)
    requires n < |cs|
    ensures Notes(x, cs[..n + 1]) == Notes(x, cs[..n]) + [Note(x, cs[n])]
    ensures n + 1 == |cs| ==> cs[..n + 1] == cs
  {
    assert cs[..n + 1][..n] == cs[..n];
  }

  lemma NoNotes(x: string, cs: seq<Component>)
    ensures Notes(x, cs[..0]) == []
  {
  }

  lemma SameSpecs(cfg: Config, x: string, w: World, l: Local)
    requires Clean(cfg, x, w, l) && Building(l.pc) && Clean(cfg, x, w, Step(cfg, x, w, l, NoFault).l)
    ensures var m := Step(cfg, x, w, l, NoFault).l; var cs := Resolve(w.envs[x].spec, TemplateAt(w, w.envs[x]));
      m.env.spec == l.env.spec && (m.pc.Save? || Building(m.pc)) && (l.pc.Check? ==> l.pc.todo == cs) && (m.pc.Check? ==> m.pc.todo == cs)
  {
    hide Step, TemplateAt, ServicesAt, Backend, Placed, AdminInPlace, Labelled, Resolve, Built;
    var s := Step(cfg, x, w, l, NoFault);
    TrackBuilt(cfg, x, w, l);
    TrackFreshly(cfg, x, w, l);
    if Creating(s.l.pc) { TrackFreshly(cfg, x, w, s.l); }
    hide OnTrack;
    StepParts(cfg, x, w, l, NoFault);
    NextStays(cfg, x, l, s.reply, w.now);
  }

  // ---------------------------------------------------------------- a steady status does not move

  /** The copy still has the status s0, but for the time of the pass. */
  predicate Frozen(l: Local, s0: Status) {
    Creating(l.pc) ==> l.env.status == (if l.pc == Save(Activated) then s0.(lastReconcile := l.env.status.lastReconcile) else s0)
  }

  lemma FrozenBuilding(cfg: Config, x: string, w: World, l: Local, cs: seq<Component>, s0: Status)
    requires Settled(cfg, x, w) && Clean(cfg, x, w, l) && Silent(cfg, x, l) && Building(l.pc)
    requires Clean(cfg, x, w, Step(cfg, x, w, l, NoFault).l)
    requires cs == Resolve(w.envs[x].spec, TemplateAt(w, w.envs[x])) && Marked(cfg, x, l, cs)
    requires Frozen(l, s0) && Steady(cfg, x, w, cs, s0)
    ensures Frozen(Step(cfg, x, w, l, NoFault).l, s0)
  {
    hide Step, Settled, Clean, TemplateAt, Resolve, Wanted, Shown, Holds, Notes, StageStatus, HelmStatus, Note;
    var s := Step(cfg, x, w, l, NoFault);
    SettledWrites(cfg, x, w, l);
    assert l.env.spec == w.envs[x].spec by { CleanTrack(cfg, x, w, l); TrackFreshly(cfg, x, w, l); }
    SameSpecs(cfg, x, w, l);
    if s.l.pc.Save? { CleanSettles(cfg, x, w, s.l); }
    match l.pc
    case GetStage(st) =>
      assert Wanted(cfg, x, l.env.spec, st) by { CleanTrack(cfg, x, w, l); TrackWanted(cfg, x, w, l); }
      if OnRoute(st) { RouteServed(cfg, x, w, l); }
      StageShows(s0, l.env.spec, st, w.now);
    case Check(todo, done) =>
      assert cfg.helm by { CleanTrack(cfg, x, w, l); TrackBuilt(cfg, x, w, l); BuiltChecks(cfg, x, l); }
      NotesGrow(x, cs, |done|);
      HelmShows(cfg, x, s0, cs, l.env.spec, w.now);
    case _ =>
  }

  lemma FrozenOpening(cfg: Config, x: string, w: World, l: Local, cs: seq<Component>, s0: Status)
    requires Settled(cfg, x, w) && Fit(cfg, x, w) && w.now <= Deadline(w.envs[x])
    requires Silent(cfg, x, l) && !Building(l.pc) && !l.pc.Save?
    requires if l.pc.Idle? then s0 == w.envs[x].status else Clean(cfg, x, w, l) && Frozen(l, s0)
    requires Creating(l.pc) ==> l.env.status.phase != Unset
    ensures var m := Step(cfg, x, w, l, NoFault).l;
      && (m.pc.GetStage? ==> Holds(m.env.status, NamespaceReady)) && (m.pc.GetStage? ==> m.pc == GetStage(SaStage)) && (Building(m.pc) ==> m.pc.GetStage?)
      && m.pc != Save(Activated) && m.pc != Save(Waiting) && (Creating(m.pc) ==> m.env.status.phase != Unset)
      && (Steady(cfg, x, w, cs, s0) ==> Frozen(m, s0))
  {
    hide Step, Next, NsName, Settled, Clean, Wanted, Shown, Notes, HelmShown, OnTrack, NsEnsured, FailStep, SetCondition, Holds;
    var s := Step(cfg, x, w, l, NoFault);
    if !l.pc.Idle? { CleanTrack(cfg, x, w, l); TrackPcs(cfg, x, w, l); TrackFinalizer(cfg, x, w, l); }
    StepParts(cfg, x, w, l, NoFault);
    NextOpening(cfg, x, l, s.reply, w.now);
    OwnWrite(cfg, x, w, l);
    SettledFinalizer(cfg, x, w);
    if l.pc.GetNs? {
      NsTracked(cfg, x, w, l, NoFault);
      NsEnsuredStatus(x, l, w.now);
      SetKeeps(l.env.status.(activeNamespace := NsName(x)), NamespaceReady, w.now);
      assert Holds(l.env.status.(activeNamespace := NsName(x)), NamespaceReady) == Holds(l.env.status, NamespaceReady) by { HoldsNs(l.env.status, NsName(x)); }
    }
  }

  lemma HoldsNs(s: Status, n: string)
    ensures Holds(s.(activeNamespace := n), NamespaceReady) == Holds(s, NamespaceReady)
  {
  }

  lemma NsEnsuredStatus(x: string, l: Local, now: Time)
    ensures var m := NsEnsured(x, l, now); m.pc == GetStage(SaStage) && m.env.status == SetCondition(l.env.status.(activeNamespace := NsName(x)), NamespaceReady, true, now)
  {
  }

  // ---------------------------------------------------------------- the whole pass

  ghost predicate Unmoved(w: World, v: World) {
    v.objs == w.objs && v.namespaces == w.namespaces && v.releases == w.releases && v.services == w.services && v.templates == w.templates
  }

  /** A point of a pass for a settled environment. */
  ghost predicate Settling(cfg: Config, x: string, w: World, l: Local, cs: seq<Component>, s0: Status) {
    && Settled(cfg, x, w) && Fit(cfg, x, w) && w.now <= Deadline(w.envs[x]) && cs == Resolve(w.envs[x].spec, TemplateAt(w, w.envs[x]))
    && Clean(cfg, x, w, l) && Silent(cfg, x, l) && Marked(cfg, x, l, cs)
    && (Steady(cfg, x, w, cs, s0) ==> Frozen(l, s0))
  }

  ghost predicate EndsSteady(cfg: Config, x: string, w: World, v: World, cs: seq<Component>, s0: Status) {
    && Unmoved(w, v) && x in w.envs && x in v.envs
    && Steady(cfg, x, w, cs, v.envs[x].status)
    && (Steady(cfg, x, w, cs, s0) ==>
          v.envs[x].status == if Served(x, w) then s0.(lastReconcile := v.envs[x].status.lastReconcile) else s0)
  }

  lemma SettlingSave(cfg: Config, x: string, w: World, l: Local, cs: seq<Component>, s0: Status)
    requires Settling(cfg, x, w, l, cs, s0) && l.pc.Save?
    ensures EndsSteady(cfg, x, w, Step(cfg, x, w, l, NoFault).w, cs, s0)
  {
    hide Step, NsName, TemplateAt, Served, Settled, Clean, Resolve, Shown, Holds, HelmShown;
    WriteOutcome(cfg, x, w, l, NoFault);
    CleanSettles(cfg, x, w, l);
    assert Fresh(w, x, l) && Current(w, x, l.env) by { CleanTrack(cfg, x, w, l); TrackFresh(cfg, x, w, l); }
    if l.pc == Save(Activated) {
      CleanTrack(cfg, x, w, l);
      TrackActive(cfg, x, w, l);
      BuiltStatus(cfg, x, l);
    } else {
      assert l.env.status.message == WaitingMessage by { CleanWaits(cfg, x, w, l); }
    }
    hide OnTrack, Fit, Wanted;
    forall st ensures Pos(st) <= 9 {}
  }

  lemma CleanWaits(cfg: Config, x: string, w: World, l: Local)
    requires Clean(cfg, x, w, l) && l.pc == Save(Waiting)
    ensures l.env.status.message == WaitingMessage
  {
    hide OnTrack, Backend, TemplateAt, ServicesAt, Labelled, Placed, AdminInPlace, Resolve, Grounded;
  }

  lemma BuiltStatus(cfg: Config, x: string, l: Local)
    requires Built(cfg, x, l) && l.pc == Save(Activated)
    ensures l.env.status.phase == Active && l.env.status.message == ActiveMessage && l.env.status.activeNamespace == NsName(x) && l.env.status.expirationTime.Some?
  {
  }

  lemma SettlingStep(cfg: Config, x: string, w: World, l: Local, cs: seq<Component>, s0: Status)
    requires Settling(cfg, x, w, l, cs, s0) && !l.pc.Save?
    ensures var s := Step(cfg, x, w, l, NoFault); s.w == w && Settling(cfg, x, w, s.l, cs, s0)
  {
    hide Step, Settled, Clean, Fit, Steady, Resolve, TemplateAt, Silent, Marked, Frozen;
    SettledFinalizer(cfg, x, w);
    SilentStep(cfg, x, w, l);
    var m := Step(cfg, x, w, l, NoFault).l;
    if Building(l.pc) {
      CleanBuilding(cfg, x, w, l);
      MarkedStep(cfg, x, w, l, cs);
      if Steady(cfg, x, w, cs, s0) { FrozenBuilding(cfg, x, w, l, cs, s0); }
    } else {
      CleanTrack(cfg, x, w, l);
      CleanOpening(cfg, x, w, l);
      FrozenAny(cfg, x, w, l, cs, s0);
      MarkedFirst(cfg, x, m, cs);
    }
  }

  lemma FrozenAny(cfg: Config, x: string, w: World, l: Local, cs: seq<Component>, s0: Status)
    requires Settling(cfg, x, w, l, cs, s0) && !l.pc.Save? && !Building(l.pc)
    ensures var m := Step(cfg, x, w, l, NoFault).l;
      && (Building(m.pc) ==> m.pc == GetStage(SaStage) && Holds(m.env.status, NamespaceReady)) && m.pc != Save(Activated)
      && m.pc != Save(Waiting) && (Creating(m.pc) ==> m.env.status.phase != Unset)
      && (Steady(cfg, x, w, cs, s0) ==> Frozen(m, s0))
  {
    hide Step, Settled, Fit, Steady, Resolve, TemplateAt, Silent;
    var s1 := if Steady(cfg, x, w, cs, s0) then s0 else l.env.status;
    CleanActs(cfg, x, w, l);
    hide Clean;
    FrozenOpening(cfg, x, w, l, cs, s1);
  }

  lemma MarkedFirst(cfg: Config, x: string, m: Local, cs: seq<Component>)
    requires Building(m.pc) ==> m.pc == GetStage(SaStage) && Holds(m.env.status, NamespaceReady)
    requires m.pc != Save(Activated) && m.pc != Save(Waiting) && (Creating(m.pc) ==> m.env.status.phase != Unset)
    ensures Marked(cfg, x, m, cs)
  {
  }

  lemma SettlingLater(cfg: Config, x: string, g: Global, fates: seq<Fate>, l: Local, cs: seq<Component>, s0: Status)
    requires Underway(cfg, x, g, fates) && Settling(cfg, x, g.w, l, cs, s0) && l == LocalOf(g, x)
    ensures Settling(cfg, x, Later(g.w, Seconds(NextFate(fates).before)), l, cs, s0)
  {
    hide Underway, Settled, Clean, Fit, Steady, Resolve, Silent, Marked, Frozen, Deadline;
    CleanLater(cfg, x, g, fates);
    var v := Later(g.w, Seconds(NextFate(fates).before));
    SettledStays(cfg, x, g.w, v);
    SameTemplates(g.w, v, g.w.envs[x]);
    SteadyKept(cfg, x, g.w, v, cs, s0);
    hide TemplateAt, Steady;
  }

  lemma EndsLater(cfg: Config, x: string, w: World, v: World, u: World, cs: seq<Component>, s0: Status)
    requires EndsSteady(cfg, x, v, u, cs, s0) && Unmoved(w, v) && v.envs == w.envs
    ensures EndsSteady(cfg, x, w, u, cs, s0)
  {
    hide SteadyStatus, Backend;
    assert Served(x, v) == Served(x, w) by { SameTemplates(w, v, w.envs[x]); }
    hide Served;
  }

  /** A call that writes nothing but, perhaps, the status of the resource. */
  predicate Reads(pc: Pc) {
    pc.Save? || (!WritesEnv(pc) && !WritesNs(pc) && !WritesObj(pc) && !WritesRelease(pc))
  }

  predicate OnlyReads(calls: seq<Moment>) {
    forall m :: m in calls ==> Reads(m.pc)
  }

  lemma NoCalls()
    ensures OnlyReads([])
  {
  }

  lemma ReadsFirst(m: Moment, calls: seq<Moment>)
    requires Reads(m.pc) && OnlyReads(calls)
    ensures OnlyReads([m]) && OnlyReads([m] + calls)
  {
    hide Reads;
  }

  lemma {:induction false} SettlingComplete(cfg: Config, x: string, g: Global, fates: seq<Fate>, cs: seq<Component>, s0: Status)
    requires Underway(cfg, x, g, fates) && Sound(cfg, x, LocalOf(g, x)) && Faults(fates) == 0
    requires Settling(cfg, x, g.w, LocalOf(g, x), cs, s0)
    ensures EndsSteady(cfg, x, g.w, Complete(cfg, x, g, fates).g.w, cs, s0) && OnlyReads(Complete(cfg, x, g, fates).calls)
    decreases Part(LocalOf(g, x).pc), Ahead(LocalOf(g, x)), Turn(LocalOf(g, x).pc), Left(LocalOf(g, x))
  {
    hide Meet, Underway, Sound, Kin, Step, Settling, EndsSteady, Part, Ahead, Turn, Left, Reads, OnlyReads;
    var fate, here := NextFate(fates), LocalOf(g, x);
    var h := Meet(cfg, x, g, fate);
    var v := Later(g.w, Seconds(fate.before));
    assert !here.pc.Idle? && Reads(here.pc) by { SettlingActs(cfg, x, g.w, here, cs, s0); }
    MeetMoves(cfg, x, g, fate);
    CalmStep(cfg, x, g, fates);
    assert fate.fault.NoFault?;
    SettlingLater(cfg, x, g, fates, here, cs, s0);
    assert h.w == Step(cfg, x, v, here, NoFault).w && LocalOf(h, x) == Step(cfg, x, v, here, NoFault).l by { UnderwayTicks(cfg, x, g, fates); CalmMeet(cfg, x, g, fate); }
    if here.pc.Save? {
      SettlingSave(cfg, x, v, here, cs, s0);
      SaveEnds(cfg, x, v, here);
      assert Complete(cfg, x, g, fates).g == h && Complete(cfg, x, g, fates).calls == [Moment(here.pc, fate.fault)];
      assert OnlyReads([]) by { NoCalls(); }
      ReadsFirst(Moment(here.pc, fate.fault), []);
      EndsLater(cfg, x, g.w, v, h.w, cs, s0);
    } else {
      SettlingStep(cfg, x, v, here, cs, s0);
      SettlingComplete(cfg, x, h, LaterFates(fates), cs, s0);
      ReadsFirst(Moment(here.pc, fate.fault), Complete(cfg, x, h, LaterFates(fates)).calls);
      EndsLater(cfg, x, g.w, v, Complete(cfg, x, g, fates).g.w, cs, s0);
    }
  }

  lemma SettlingActs(cfg: Config, x: string, w: World, l: Local, cs: seq<Component>, s0: Status)
    requires Settling(cfg, x, w, l, cs, s0)
    ensures !l.pc.Idle? && Reads(l.pc)
  {
    CleanActs(cfg, x, w, l);
    CleanTrack(cfg, x, w, l);
    TrackPcs(cfg, x, w, l);
    hide Clean, OnTrack, Settled, Fit, Steady;
  }

  lemma SettlingBegins(cfg: Config, x: string, w: World, l: Local, cs: seq<Component>)
    requires l.pc.Idle? && Fit(cfg, x, w) && Settled(cfg, x, w) && w.now <= Deadline(w.envs[x])
    requires cs == Resolve(w.envs[x].spec, TemplateAt(w, w.envs[x]))
    ensures var s := Step(cfg, x, w, l, NoFault); s.w == w && Settling(cfg, x, w, s.l, cs, w.envs[x].status)
  {
    hide Step, Settled, Clean, Fit, Steady, Resolve, TemplateAt, Marked, Frozen, Sound;
    IdleSound(cfg, x, l);
    SettledFinalizer(cfg, x, w);
    SilentStep(cfg, x, w, l);
    CleanOpening(cfg, x, w, l);
    FrozenOpening(cfg, x, w, l, cs, w.envs[x].status);
    MarkedFirst(cfg, x, Step(cfg, x, w, l, NoFault).l, cs);
  }

  /** A pass without a fault for a settled environment changes no object, namespace or release, nor tries to. */
  lemma SettledPass(cfg: Config, x: string, g: Global, fates: seq<Fate>)
    requires Startable(cfg, x, g, fates) && Faults(fates) == 0 && Settled(cfg, x, g.w)
    ensures var c := OnePass(cfg, x, g, fates); var cs := Resolve(g.w.envs[x].spec, TemplateAt(g.w, g.w.envs[x]));
      EndsSteady(cfg, x, g.w, c.g.w, cs, g.w.envs[x].status) && OnlyReads(c.calls)
  {
    hide Meet, Kin, Fit, Underway, Sound, Undisturbed, Elapsed, Settled, Step, Settling, EndsSteady, Resolve, OnlyReads;
    SettledFinalizer(cfg, x, g.w);
    WillingUnderway(cfg, x, g, fates);
    CalmStep(cfg, x, g, fates);
    var fate, here := NextFate(fates), LocalOf(g, x);
    var h := Meet(cfg, x, g, fate);
    var v := Later(g.w, Seconds(fate.before));
    var cs := Resolve(g.w.envs[x].spec, TemplateAt(g.w, g.w.envs[x]));
    CleanLater(cfg, x, g, fates);
    SettledStays(cfg, x, g.w, v);
    SameTemplates(g.w, v, g.w.envs[x]);
    hide TemplateAt;
    assert fate.fault.NoFault?;
    assert h.w == Step(cfg, x, v, here, NoFault).w && LocalOf(h, x) == Step(cfg, x, v, here, NoFault).l by { UnderwayTicks(cfg, x, g, fates); CalmMeet(cfg, x, g, fate); }
    SettlingBegins(cfg, x, v, here, cs);
    SettlingComplete(cfg, x, h, LaterFates(fates), cs, g.w.envs[x].status);
    ReadsFirst(Moment(here.pc, fate.fault), Complete(cfg, x, h, LaterFates(fates)).calls);
    EndsLater(cfg, x, g.w, v, OnePass(cfg, x, g, fates).g.w, cs, g.w.envs[x].status);
  }

  lemma UnmovedCluster(cfg: Config, x: string, w: World, v: World, cs: seq<Component>, s0: Status)
    requires EndsSteady(cfg, x, w, v, cs, s0)
    ensures Unmoved(w, v) && x in w.envs && x in v.envs && Steady(cfg, x, w, cs, v.envs[x].status)
    ensures Steady(cfg, x, w, cs, s0) ==> v.envs[x].status == if Served(x, w) then s0.(lastReconcile := v.envs[x].status.lastReconcile) else s0
  {
  }

  /** Three passes in a row without a fault, from any fit cluster: the first puts everything in place, but
      for the routes if no service qualifies; the second writes nothing but the status of the resource, the
      third changes nothing in that status but the time of the last pass - and not even that if it waits. */
  lemma PassesSettle(cfg: Config, x: string, g: Global, fates: seq<Fate>)
    requires Startable(cfg, x, g, fates) && Faults(fates) == 0
    ensures var c1, c2, c3 := Nth(cfg, x, g, fates, 0), Nth(cfg, x, g, fates, 1), Nth(cfg, x, g, fates, 2);
      && Settled(cfg, x, c1.g.w) && (Served(x, g.w) ==> Activates(x, c1)) && (!Served(x, g.w) ==> RoutesSame(g.w, c1.g.w))
      && Unmoved(c1.g.w, c2.g.w) && Unmoved(c2.g.w, c3.g.w) && OnlyReads(c2.calls) && OnlyReads(c3.calls)
      && x in c2.g.w.envs && x in c3.g.w.envs
      && c3.g.w.envs[x].status == if Served(x, g.w) then c2.g.w.envs[x].status.(lastReconcile := c3.g.w.envs[x].status.lastReconcile) else c2.g.w.envs[x].status
  {
    hide OnePass, Fit, Undisturbed, Elapsed, Settled, Kin, Activates, Served, TemplateAt, Steady, Resolve, Unmoved, EndsSteady, RoutesSame, OnlyReads;
    var c1 := OnePass(cfg, x, g, fates);
    CalmPass(cfg, x, g, fates);
    CleanPassSettles(cfg, x, g, fates);
    KinBackend(x, g.w, c1.g.w);
    var c2 := OnePass(cfg, x, c1.g, c1.rest);
    CalmPass(cfg, x, c1.g, c1.rest);
    CleanPassSettles(cfg, x, c1.g, c1.rest);
    SettledPass(cfg, x, c1.g, c1.rest);
    var cs := Resolve(c1.g.w.envs[x].spec, TemplateAt(c1.g.w, c1.g.w.envs[x]));
    UnmovedCluster(cfg, x, c1.g.w, c2.g.w, cs, c1.g.w.envs[x].status);
    KinBackend(x, c1.g.w, c2.g.w);
    var c3 := OnePass(cfg, x, c2.g, c2.rest);
    SettledPass(cfg, x, c2.g, c2.rest);
    SteadyKept(cfg, x, c1.g.w, c2.g.w, cs, c2.g.w.envs[x].status);
    UnmovedCluster(cfg, x, c2.g.w, c3.g.w, cs, c2.g.w.envs[x].status);
    assert Nth(cfg, x, g, fates, 1) == c2;
    assert Nth(cfg, x, g, fates, 2) == c3 by { assert Nth(cfg, x, g, fates, 2) == Nth(cfg, x, c1.g, c1.rest, 1); }
  }

  lemma SteadyKept(cfg: Config, x: string, w: World, v: World, cs: seq<Component>, s: Status)
    requires Kin(x, w, v)
    ensures Steady(cfg, x, v, cs, s) <==> Steady(cfg, x, w, cs, s)
  {
    hide SteadyStatus, Served;
    KinBackend(x, w, v);
  }
}

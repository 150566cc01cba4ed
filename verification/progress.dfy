/** What a worker's private state says at each point of the create path. */
module Progress {
  import opened Model
  import opened Discovery
  import opened Store
  import opened Machine

  /** Where a stage lies on the create path; Helm runs at 6 when the service is discovered, at 9 otherwise. */
  function Pos(st: Stage): int {
    match st
    case SaStage => 1
    case RoleStage => 2
    case BindingStage => 3
    case PolicyStage => 4
    case GrantStage => 5
    case AppStage => 7
    case AdminStage => 8
  }

  predicate Discovers(l: Local) { l.env.spec.servicePort.Some? }

  function HelmPos(l: Local): int { if Discovers(l) then 6 else 9 }

  /** The last position a pass has put behind it. */
  function Passed(l: Local): int {
    match l.pc
    case GetStage(st) => Pos(st) - 1
    case PutStage(st, _) => Pos(st) - 1
    case ResolveFirst => HelmPos(l) - 1
    case ResolveAgain => HelmPos(l) - 1
    case Check(_, _) => HelmPos(l) - 1
    case Deploy(_, _) => HelmPos(l) - 1
    case List => 6
    case AskPrimary(_) => 6
    case Save(outcome) => if outcome.Activated? then 9 else 0
    case _ => 0
  }

  /** The stages without which an environment is not Active. */
  predicate Needed(x: string, spec: Spec, st: Stage) {
    match st
    case PolicyStage => IsolationEnabled(spec)
    case GrantStage => spec.gateway.namespace != NsName(x)
    case AdminStage => false
    case _ => true
  }

  predicate Building(pc: Pc) {
    pc.GetStage? || pc.PutStage? || pc.ResolveFirst? || pc.ResolveAgain? || pc.Check? || pc.Deploy? || pc.List? || pc.AskPrimary?
  }

  /** The status entries list exactly these components, in order, under their release names. */
  predicate Reports(x: string, cs: seq<ComponentStatus>, todo: seq<Component>) {
    |cs| == |todo| && forall i :: 0 <= i < |cs| ==> cs[i].name == todo[i].name && cs[i].releaseName == Release(x, "", todo[i]).name
  }

  ghost predicate Resolvable(spec: Spec, cs: seq<Component>) {
    exists t :: cs == Resolve(spec, t)
  }

  ghost predicate HelmReported(cfg: Config, x: string, spec: Spec, resolved: seq<Component>, reported: seq<ComponentStatus>) {
    cfg.helm ==> Resolvable(spec, resolved) && (resolved != [] ==> Reports(x, reported, resolved))
  }

  /** The backend is the service named in the spec or, in discovery mode, one that was listed as eligible. */
  predicate ServiceChosen(spec: Spec, listed: seq<Service>, service: string) {
    if spec.servicePort.Some? then exists s :: s in listed && Eligible(s, RoutePort(spec)) && s.name == service
    else service == spec.gateway.serviceName
  }

  /** Everything before position p + 1 is behind the pass. */
  ghost predicate Ready(cfg: Config, x: string, l: Local, p: int) {
    && l.env.status.activeNamespace == NsName(x) && l.env.status.expirationTime.Some?
    && (p >= 7 ==> ServiceChosen(l.env.spec, l.listed, l.service))
    && (if p >= HelmPos(l) then HelmReported(cfg, x, l.env.spec, l.resolved, l.env.status.components) else l.resolved == [])
  }

  ghost predicate Deploying(cfg: Config, x: string, l: Local, todo: seq<Component>, done: seq<ComponentStatus>) {
    cfg.helm && todo == l.resolved && |done| < |todo| && Resolvable(l.env.spec, todo) && Reports(x, done, todo[..|done|])
  }

  ghost predicate Built(cfg: Config, x: string, l: Local) {
    && l.env.status.activeNamespace == NsName(x) && l.env.status.expirationTime.Some?
    && (Passed(l) >= 7 ==> ServiceChosen(l.env.spec, l.listed, l.service))
    && match l.pc
       case Check(todo, done) => Deploying(cfg, x, l, todo, done)
       case Deploy(todo, done) => Deploying(cfg, x, l, todo, done)
       case ResolveFirst => cfg.helm && ReadsTemplate(l.env.spec) && l.resolved == []
       case ResolveAgain => cfg.helm && ReadsTemplate(l.env.spec) && l.resolved == []
       case List => Discovers(l) && HelmReported(cfg, x, l.env.spec, l.resolved, l.env.status.components)
       case AskPrimary(ms) =>
         Discovers(l) && HelmReported(cfg, x, l.env.spec, l.resolved, l.env.status.components) && |ms| > 1 && ms == Matching(l.listed, RoutePort(l.env.spec)) && PrimaryReadsTemplate(l.env.spec)
       case GetStage(st) => Ready(cfg, x, l, Pos(st) - 1) && (st.AppStage? ==> ServiceChosen(l.env.spec, l.listed, l.service))
       case PutStage(st, _) => Ready(cfg, x, l, Pos(st) - 1) && (st.AppStage? ==> ServiceChosen(l.env.spec, l.listed, l.service))
       case Save(o) => o.Activated? ==> HelmReported(cfg, x, l.env.spec, l.resolved, l.env.status.components) && l.env.status.phase == Active && l.env.status.message == ActiveMessage
       case _ => true
  }

  /** The components whose releases the pass takes to be on record. */
  function Claimed(l: Local): seq<Component> {
    if l.pc.Check? && |l.pc.done| <= |l.pc.todo| then l.pc.todo[..|l.pc.done|]
    else if l.pc.Deploy? && |l.pc.done| <= |l.pc.todo| then l.pc.todo[..|l.pc.done|]
    else if Passed(l) >= HelmPos(l) then l.resolved
    else []
  }

  predicate Kept(l: Local, m: Local) {
    && m.env == l.env.(status := m.env.status)
    && m.env.status.expirationTime == l.env.status.expirationTime
    && m.env.status.activeNamespace == l.env.status.activeNamespace
  }

  predicate HelmFlag(s: Status) {
    HelmDeployed in s.conditions && s.conditions[HelmDeployed].status
  }

  predicate GaveUp(m: Local) { m.pc.Save? && !m.pc.outcome.Activated? }

  /** From position p the pass goes on without leaving out a needed stage, or it gives up. */
  ghost predicate Lands(cfg: Config, x: string, l: Local, m: Local, p: int) {
    && Kept(l, m)
    && (HelmFlag(m.env.status) ==> HelmFlag(l.env.status))
    && (m.pc.Save? || (Building(m.pc) && !m.pc.Deploy?))
    && (!GaveUp(m) ==>
          && Built(cfg, x, m)
          && Passed(m) >= p
          && (p >= 7 ==> m.service == l.service && m.listed == l.listed)
          && (p >= HelmPos(l) ==> m.resolved == l.resolved)
          && (m.resolved == l.resolved || m.pc.Check?)
          && Claimed(m) == (if p >= HelmPos(l) then l.resolved else [])
          && forall st :: Needed(x, m.env.spec, st) && Pos(st) <= Passed(m) ==> Pos(st) <= p)
  }

  lemma HelmOver(cfg: Config, x: string, l: Local, now: Time)
    requires Ready(cfg, x, l, HelmPos(l))
    ensures Lands(cfg, x, l, AfterHelm(l, now), HelmPos(l)) && !GaveUp(AfterHelm(l, now))
  {
  }

  lemma HelmFails(cfg: Config, x: string, l: Local, now: Time, p: int)
    ensures Lands(cfg, x, l, FailHelm(l, now), p) && GaveUp(FailHelm(l, now))
  {
  }

  lemma SecondResolved(cfg: Config, x: string, l: Local, cs: seq<Component>, now: Time)
    requires Ready(cfg, x, l, HelmPos(l) - 1) && cfg.helm && Resolvable(l.env.spec, cs)
    ensures Lands(cfg, x, l, ResolvedAgain(l, cs, now), HelmPos(l) - 1)
    ensures var m := ResolvedAgain(l, cs, now); m.pc.Save? || m.pc.Check?
  {
    HelmFails(cfg, x, l, now, HelmPos(l) - 1);
    hide FailHelm;
  }

  lemma LandsBack(cfg: Config, x: string, l: Local, m: Local, p: int, q: int)
    requires Lands(cfg, x, l, m, p)
    requires p >= HelmPos(l) > q ==> l.resolved == []
    requires q <= p && forall st :: Needed(x, m.env.spec, st) && Pos(st) <= p ==> Pos(st) <= q
    ensures Lands(cfg, x, l, m, q)
  {
  }

  lemma FirstResolved(cfg: Config, x: string, l: Local, cs: seq<Component>, now: Time)
    requires Ready(cfg, x, l, HelmPos(l) - 1) && cfg.helm && Resolvable(l.env.spec, cs)
    ensures Lands(cfg, x, l, ResolvedFirst(l, cs, now), HelmPos(l) - 1)
    ensures var m := ResolvedFirst(l, cs, now); m.pc.Save? || m.pc.Check? || m.pc.ResolveAgain? || Passed(m) >= HelmPos(l)
  {
    hide AfterHelm, ResolvedAgain;
    if cs == [] {
      HelmOver(cfg, x, l, now);
      LandsBack(cfg, x, l, AfterHelm(l, now), HelmPos(l), HelmPos(l) - 1);
    } else if !ReadsTemplate(l.env.spec) {
      assert Resolvable(l.env.spec, Resolve(l.env.spec, None));
      SecondResolved(cfg, x, l, Resolve(l.env.spec, None), now);
    }
  }

  lemma HelmStarts(cfg: Config, x: string, l: Local, now: Time)
    requires Ready(cfg, x, l, HelmPos(l) - 1)
    ensures Lands(cfg, x, l, StartHelm(cfg, l, now), HelmPos(l) - 1)
  {
    hide AfterHelm, ResolvedFirst;
    if !cfg.helm {
      HelmOver(cfg, x, l, now);
      LandsBack(cfg, x, l, AfterHelm(l, now), HelmPos(l), HelmPos(l) - 1);
    } else if !ReadsTemplate(l.env.spec) {
      assert Resolvable(l.env.spec, Resolve(l.env.spec, None));
      FirstResolved(cfg, x, l, Resolve(l.env.spec, None), now);
    }
  }

  lemma GrantOver(cfg: Config, x: string, l: Local, now: Time)
    requires Ready(cfg, x, l, 5)
    ensures Lands(cfg, x, l, AfterGrant(cfg, l, now), 5)
  {
    hide StartHelm;
    if Discovers(l) { HelmStarts(cfg, x, l, now); }
  }

  lemma PolicyOver(cfg: Config, x: string, l: Local, now: Time)
    requires Ready(cfg, x, l, 4)
    ensures Lands(cfg, x, l, AfterPolicy(cfg, l, now), 4)
  {
    hide AfterGrant;
    if l.env.spec.gateway.namespace == NsName(x) {
      GrantOver(cfg, x, l, now);
      LandsBack(cfg, x, l, AfterGrant(cfg, l, now), 5, 4);
    }
  }

  lemma RoutesOver(cfg: Config, x: string, l: Local, now: Time)
    requires Ready(cfg, x, l, 8)
    ensures Lands(cfg, x, l, AfterRoutes(cfg, l, now), 8)
  {
    hide StartHelm;
    if !Discovers(l) { HelmStarts(cfg, x, l, now); }
  }

  lemma EarlyStageOver(cfg: Config, x: string, l: Local, st: Stage, now: Time)
    requires Ready(cfg, x, l, Pos(st) - 1) && (st.SaStage? || st.RoleStage? || st.BindingStage?)
    ensures Lands(cfg, x, l, StageEnsured(cfg, l, st, now), Pos(st))
  {
    hide AfterPolicy, AfterGrant, AfterRoutes;
    var m := SetStatus(l, StageStatus(l.env.status, l.env.spec, st, now));
    assert Ready(cfg, x, m, Pos(st));
    if st.BindingStage? && !IsolationEnabled(l.env.spec) {
      PolicyOver(cfg, x, m, now);
      LandsBack(cfg, x, m, AfterPolicy(cfg, m, now), 4, 3);
    }
  }

  lemma LateStageOver(cfg: Config, x: string, l: Local, st: Stage, now: Time)
    requires Ready(cfg, x, l, Pos(st) - 1) && (st.AppStage? ==> ServiceChosen(l.env.spec, l.listed, l.service))
    requires !(st.SaStage? || st.RoleStage? || st.BindingStage?)
    ensures Lands(cfg, x, l, StageEnsured(cfg, l, st, now), Pos(st))
  {
    hide AfterPolicy, AfterGrant, AfterRoutes, ServiceChosen, HelmReported, Hostname, AdminHostname;
    var m := SetStatus(l, StageStatus(l.env.status, l.env.spec, st, now));
    assert Ready(cfg, x, m, Pos(st));
    match st
    case PolicyStage => PolicyOver(cfg, x, m, now);
    case GrantStage => GrantOver(cfg, x, m, now);
    case AppStage =>
      RoutesOver(cfg, x, m, now);
      LandsBack(cfg, x, m, AfterRoutes(cfg, m, now), 8, 7);
    case AdminStage => RoutesOver(cfg, x, m, now);
  }

  lemma StageOver(cfg: Config, x: string, l: Local, st: Stage, now: Time)
    requires Ready(cfg, x, l, Pos(st) - 1) && (st.AppStage? ==> ServiceChosen(l.env.spec, l.listed, l.service))
    ensures Lands(cfg, x, l, StageEnsured(cfg, l, st, now), Pos(st))
  {
    hide StageEnsured, Lands;
    if st.SaStage? || st.RoleStage? || st.BindingStage? { EarlyStageOver(cfg, x, l, st, now); } else { LateStageOver(cfg, x, l, st, now); }
  }

  lemma StageGivenUp(cfg: Config, x: string, l: Local, st: Stage, now: Time)
    requires Ready(cfg, x, l, Pos(st) - 1) && (st.AppStage? ==> ServiceChosen(l.env.spec, l.listed, l.service))
    ensures Lands(cfg, x, l, StageFailed(cfg, l, st, now), Pos(st) - 1)
    ensures var m := StageFailed(cfg, l, st, now); GaveUp(m) || Passed(m) >= Pos(st)
  {
    hide AfterRoutes;
    if st.AdminStage? {
      RoutesOver(cfg, x, l, now);
      LandsBack(cfg, x, l, AfterRoutes(cfg, l, now), 8, 7);
    }
  }

  /** One component more is on record: on to the next one, or past Helm. */
  ghost predicate DeploysOne(cfg: Config, x: string, l: Local, m: Local, todo: seq<Component>, done: seq<ComponentStatus>)
    requires |done| < |todo|
  {
    && Kept(l, m) && Built(cfg, x, m) && Passed(m) >= HelmPos(l) - 1 && (m.pc.Save? || (Building(m.pc) && !m.pc.Deploy?))
    && m.resolved == l.resolved
    && (!Discovers(l) ==> m.service == l.service && m.listed == l.listed)
    && (forall st :: Needed(x, m.env.spec, st) && Pos(st) <= Passed(m) ==> Pos(st) < HelmPos(l))
    && Claimed(m) == todo[..|done| + 1]
    && (HelmFlag(m.env.status) ==> HelmFlag(l.env.status) || |done| + 1 == |todo|)
    && ((m.pc.Check? && m.pc.todo == todo && |m.pc.done| == |done| + 1) || m.pc.Save? || Passed(m) >= HelmPos(l))
  }

  lemma NotLastDeployed(cfg: Config, x: string, l: Local, todo: seq<Component>, done: seq<ComponentStatus>, note: ComponentStatus, now: Time)
    requires l.env.status.activeNamespace == NsName(x) && l.env.status.expirationTime.Some?
    requires !Discovers(l) ==> ServiceChosen(l.env.spec, l.listed, l.service)
    requires Deploying(cfg, x, l, todo, done) && |done| + 1 < |todo|
    requires note.name == todo[|done|].name && note.releaseName == Release(x, "", todo[|done|]).name
    ensures DeploysOne(cfg, x, l, Deployed(l, todo, done + [note], now), todo, done)
  {
    hide AfterHelm, Resolvable, Release, ServiceChosen, HelmReported;
    var done' := done + [note];
    assert todo[..|done'|] == todo[..|done|] + [todo[|done|]];
    assert Reports(x, done', todo[..|done'|]);
  }

  lemma LastDeployed(cfg: Config, x: string, l: Local, todo: seq<Component>, done: seq<ComponentStatus>, note: ComponentStatus, now: Time)
    requires l.env.status.activeNamespace == NsName(x) && l.env.status.expirationTime.Some?
    requires !Discovers(l) ==> ServiceChosen(l.env.spec, l.listed, l.service)
    requires Deploying(cfg, x, l, todo, done) && |done| + 1 == |todo|
    requires note.name == todo[|done|].name && note.releaseName == Release(x, "", todo[|done|]).name
    ensures DeploysOne(cfg, x, l, Deployed(l, todo, done + [note], now), todo, done)
  {
    hide AfterHelm, Resolvable, Release, ServiceChosen, Built, Needed, Passed, Claimed;
    var done' := done + [note];
    assert todo[..|done'|] == todo[..|done|] + [todo[|done|]] && todo[..|done'|] == todo;
    assert Reports(x, done', todo);
    var m := SetStatus(l, SetCondition(l.env.status.(components := done'), HelmDeployed, true, now));
    assert Ready(cfg, x, m, HelmPos(l));
    HelmOver(cfg, x, m, now);
    hide Reports;
  }

  lemma OneDeployed(cfg: Config, x: string, l: Local, todo: seq<Component>, done: seq<ComponentStatus>, note: ComponentStatus, now: Time)
    requires l.env.status.activeNamespace == NsName(x) && l.env.status.expirationTime.Some?
    requires !Discovers(l) ==> ServiceChosen(l.env.spec, l.listed, l.service)
    requires Deploying(cfg, x, l, todo, done)
    requires note.name == todo[|done|].name && note.releaseName == Release(x, "", todo[|done|]).name
    ensures DeploysOne(cfg, x, l, Deployed(l, todo, done + [note], now), todo, done)
  {
    hide Deployed, DeploysOne;
    if |done| + 1 < |todo| { NotLastDeployed(cfg, x, l, todo, done, note, now); } else { LastDeployed(cfg, x, l, todo, done, note, now); }
  }

  /** One of the listed services was chosen. */
  lemma ServicePicked(cfg: Config, x: string, l: Local, services: seq<Service>, name: string)
    requires Built(cfg, x, l) && l.pc.List?
    requires exists s :: s in services && Eligible(s, RoutePort(l.env.spec)) && s.name == name
    ensures var m := l.(listed := services, pc := GetStage(AppStage), service := name); Lands(cfg, x, l, m, 6) && !GaveUp(m)
  {
    hide Eligible, HelmReported;
  }

  lemma PrimaryAwaited(cfg: Config, x: string, l: Local, services: seq<Service>)
    requires Built(cfg, x, l) && l.pc.List?
    requires var matches := Matching(services, RoutePort(l.env.spec)); |matches| > 1 && PrimaryReadsTemplate(l.env.spec)
    ensures Lands(cfg, x, l, l.(listed := services, pc := AskPrimary(Matching(services, RoutePort(l.env.spec)))), 6)
  {
    hide Eligible, HelmReported, Matching, PrimaryReadsTemplate;
  }

  lemma ServicesListed(cfg: Config, x: string, l: Local, services: seq<Service>)
    requires Built(cfg, x, l) && l.pc.List?
    ensures Lands(cfg, x, l, Listed(l, services), 6)
    ensures var m := Listed(l, services); m.pc.Save? || m.pc.AskPrimary? || m.pc == GetStage(AppStage)
  {
    hide Lands, Built, Choose, Matching, PrimaryName, Eligible, PrimaryReadsTemplate, Wait;
    var matches := Matching(services, RoutePort(l.env.spec));
    MatchingEligible(services, RoutePort(l.env.spec));
    WaitLands(cfg, x, l, services);
    if |matches| == 1 {
      assert matches[0] in matches;
      ServicePicked(cfg, x, l, services, matches[0].name);
    } else if |matches| > 1 {
      if PrimaryReadsTemplate(l.env.spec) {
        PrimaryAwaited(cfg, x, l, services);
      } else {
        ChosenAmong(matches, PrimaryName(l.env.spec, None));
        ServicePicked(cfg, x, l, services, Choose(matches, PrimaryName(l.env.spec, None)));
      }
    }
  }

  lemma WaitLands(cfg: Config, x: string, l: Local, services: seq<Service>)
    ensures Lands(cfg, x, l, Wait(l.(listed := services)), 6) && Wait(l.(listed := services)).pc.Save?
  {
  }

  lemma PrimaryAsked(cfg: Config, x: string, l: Local, template: Option<seq<Component>>)
    requires Built(cfg, x, l) && l.pc.AskPrimary?
    ensures Lands(cfg, x, l, Chosen(l, l.pc.matches, template), 6)
    ensures Chosen(l, l.pc.matches, template).pc == GetStage(AppStage)
  {
    MatchingEligible(l.listed, RoutePort(l.env.spec));
    ChosenAmong(l.pc.matches, PrimaryName(l.env.spec, template));
    hide Choose, Matching, PrimaryName, Eligible;
  }

  // ---------------------------------------------------------------- one step of the create path

  /** The reply shows the stage's object in the store with the content this pass wants. */
  predicate StageConfirmed(cfg: Config, x: string, l: Local, r: Reply, st: Stage) {
    || (l.pc.PutStage? && l.pc.stage == st && r.Done?)
    || (l.pc.GetStage? && l.pc.stage == st && r.AnObj? && StageObj(cfg, x, l.env.spec, l.env.status.activeNamespace, l.service, st, Some(r.seenObj)) == r.seenObj)
  }

  /** The reply shows a release record for the component at hand. */
  predicate ReleaseConfirmed(l: Local, r: Reply, c: Component) {
    || (l.pc.Check? && |l.pc.done| < |l.pc.todo| && c == l.pc.todo[|l.pc.done|] && r == Presence(true))
    || (l.pc.Deploy? && |l.pc.done| < |l.pc.todo| && c == l.pc.todo[|l.pc.done|] && r.Done?)
  }

  predicate AddsClaim(l: Local, m: Local, r: Reply) {
    && (l.pc.Check? || l.pc.Deploy?) && |l.pc.done| < |l.pc.todo|
    && ReleaseConfirmed(l, r, l.pc.todo[|l.pc.done|])
    && Claimed(m) == Claimed(l) + [l.pc.todo[|l.pc.done|]]
  }

  /** A step of the create path keeps the copy, and only counts as done what a reply has shown. */
  ghost predicate Advances(cfg: Config, x: string, l: Local, m: Local, r: Reply) {
    && Kept(l, m)
    && (m.pc.Save? || Building(m.pc))
    && (!GaveUp(m) ==>
          && Built(cfg, x, m)
          && Passed(m) >= Passed(l)
          && (Passed(l) >= 7 || StageConfirmed(cfg, x, l, r, AppStage) ==> m.service == l.service && m.listed == l.listed)
          && (forall st :: Needed(x, m.env.spec, st) && Pos(st) <= Passed(m) ==> Pos(st) <= Passed(l) || StageConfirmed(cfg, x, l, r, st))
          && (Claimed(m) == Claimed(l) || AddsClaim(l, m, r))
          && (l.pc.Check? || l.pc.Deploy? ==> m.resolved == l.resolved)
          && (m.resolved == l.resolved || m.pc.Check?)
          && (m.pc.Deploy? ==> l.pc.Check?))
    && (HelmFlag(m.env.status) ==> HelmFlag(l.env.status) || (!GaveUp(m) && AddsClaim(l, m, r) && Claimed(m) == l.resolved))
  }

  lemma NextRead(cfg: Config, x: string, l: Local, r: Reply, now: Time)
    requires Built(cfg, x, l) && l.pc.GetStage?
    ensures Advances(cfg, x, l, OnStageRead(cfg, x, l, l.pc.stage, r, now), r)
  {
    hide StageEnsured, StageFailed, StageObj, HelmReported, ServiceChosen, Needed, HelmFlag;
    var st := l.pc.stage;
    if r.NotFound? {
      StageToWrite(cfg, x, l, r, None);
    } else if r.AnObj? && StageObj(cfg, x, l.env.spec, l.env.status.activeNamespace, l.service, st, Some(r.seenObj)) != r.seenObj {
      StageToWrite(cfg, x, l, r, Some(r.seenObj));
    } else if r.AnObj? {
      StageOver(cfg, x, l, st, now);
    } else {
      StageGivenUp(cfg, x, l, st, now);
    }
  }

  lemma StageToWrite(cfg: Config, x: string, l: Local, r: Reply, was: Option<Obj>)
    requires Built(cfg, x, l) && l.pc.GetStage?
    ensures Advances(cfg, x, l, l.(pc := PutStage(l.pc.stage, was)), r)
  {
    hide StageObj, HelmReported, ServiceChosen, Needed, HelmFlag;
  }

  lemma NextWritten(cfg: Config, x: string, l: Local, r: Reply, now: Time)
    requires Built(cfg, x, l) && l.pc.PutStage?
    ensures Advances(cfg, x, l, OnStageWritten(cfg, l, l.pc.stage, r, now), r)
  {
    hide StageEnsured, StageFailed, StageObj, HelmReported, ServiceChosen, Needed;
    var st := l.pc.stage;
    StageOver(cfg, x, l, st, now);
    StageGivenUp(cfg, x, l, st, now);
  }

  lemma NextResolve(cfg: Config, x: string, l: Local, r: Reply, now: Time)
    requires Built(cfg, x, l) && (l.pc.ResolveFirst? || l.pc.ResolveAgain?)
    ensures Advances(cfg, x, l, OnBuilding(cfg, x, l, r, now), r)
  {
    hide ResolvedFirst, ResolvedAgain;
    var cs := Resolve(l.env.spec, TemplateOf(r));
    assert Resolvable(l.env.spec, cs);
    FirstResolved(cfg, x, l, cs, now);
    SecondResolved(cfg, x, l, cs, now);
  }

  lemma NextCheck(cfg: Config, x: string, l: Local, r: Reply, now: Time)
    requires Built(cfg, x, l) && l.pc.Check?
    ensures Advances(cfg, x, l, OnChecked(x, l, l.pc.todo, l.pc.done, r, now), r)
  {
    hide Deployed, FailHelm, Reports, HelmReported, ServiceChosen, Resolvable, Release, Needed;
    var todo, done := l.pc.todo, l.pc.done;
    var c := todo[|done|];
    HelmFails(cfg, x, l, now, 0);
    OneDeployed(cfg, x, l, todo, done, ComponentStatus(c.name, Release(x, "", c).name, AlreadyInstalled), now);
    assert todo[..|done| + 1] == todo[..|done|] + [c];
  }

  lemma NextDeploy(cfg: Config, x: string, l: Local, r: Reply, now: Time)
    requires Built(cfg, x, l) && l.pc.Deploy?
    ensures Advances(cfg, x, l, OnInstalled(x, l, l.pc.todo, l.pc.done, r, now), r)
  {
    hide Deployed, FailHelm, Reports, HelmReported, ServiceChosen, Resolvable, Release, Needed;
    var todo, done := l.pc.todo, l.pc.done;
    var c := todo[|done|];
    HelmFails(cfg, x, l, now, 0);
    var l' := if c.primary then SetStatus(l, l.env.status.(helmRelease := Release(x, "", c).name)) else l;
    OneDeployed(cfg, x, l', todo, done, ComponentStatus(c.name, Release(x, "", c).name, Installed(now)), now);
    assert todo[..|done| + 1] == todo[..|done|] + [c];
  }

  lemma NextDiscover(cfg: Config, x: string, l: Local, r: Reply, now: Time)
    requires Built(cfg, x, l) && (l.pc.List? || l.pc.AskPrimary?)
    ensures Advances(cfg, x, l, OnBuilding(cfg, x, l, r, now), r)
  {
    hide Listed, Chosen;
    if l.pc.List? && r.SomeServices? { ServicesListed(cfg, x, l, r.services); }
    if l.pc.AskPrimary? { PrimaryAsked(cfg, x, l, TemplateOf(r)); }
  }

  lemma NextBuilding(cfg: Config, x: string, l: Local, r: Reply, now: Time)
    requires Built(cfg, x, l) && Building(l.pc)
    ensures Advances(cfg, x, l, Next(cfg, x, l, r, now), r)
  {
    hide OnStageRead, OnStageWritten, OnChecked, OnInstalled, ResolvedFirst, ResolvedAgain, Listed, Chosen, OnTearing, Fetched, Begin, Advances;
    if l.pc.GetStage? { NextRead(cfg, x, l, r, now); }
    else if l.pc.PutStage? { NextWritten(cfg, x, l, r, now); }
    else if l.pc.ResolveFirst? || l.pc.ResolveAgain? { NextResolve(cfg, x, l, r, now); }
    else if l.pc.Check? { NextCheck(cfg, x, l, r, now); }
    else if l.pc.Deploy? { NextDeploy(cfg, x, l, r, now); }
    else { NextDiscover(cfg, x, l, r, now); }
  }
}

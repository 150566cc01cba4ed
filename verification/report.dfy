/** What a pass without a fault stores in the status, in so many words. */
module Reporting {
  import opened Model
  import opened Text
  import opened Discovery
  import opened Store
  import opened Machine
  import opened Progress
  import opened Teardown
  import opened Calls
  import opened Protocol
  import opened Runs
  import opened Pass
  import opened Backing
  import opened Calm
  import opened Faultless
  import opened Converge
  import opened History
  import opened Steadiness
  import opened Failures
  import opened Contents
  import LifeTime

  /** A condition is True: since when it was, if it was, else since some time of the pass. */
  predicate TurnedTrue(was: Status, s: Status, t: ConditionType, from: Time, to: Time) {
    && t in s.conditions && s.conditions[t].status
    && if t in was.conditions && was.conditions[t].status then s.conditions[t].since == was.conditions[t].since else from <= s.conditions[t].since <= to
  }

  /** How far along the create path. */
  function Reach(l: Local): int { if l.pc == Save(Waiting) then 6 else Passed(l) }

  predicate Helmed(cfg: Config, l: Local) { cfg.helm && l.resolved != [] && Reach(l) >= HelmPos(l) }

  /** The conditions that are True by then. */
  predicate Reached(cfg: Config, l: Local, t: ConditionType) {
    match t
    case NamespaceReady => true
    case NetworkPolicyApplied => l.env.spec.isolation != Some(false) && Reach(l) >= 4
    case HTTPRouteReady => Reach(l) >= 7
    case HelmDeployed => Helmed(cfg, l)
    case EnvironmentExpired => false
  }

  /** Entries report components under their names and releases, in order. */
  predicate Lists(x: string, notes: seq<ComponentStatus>, cs: seq<Component>) {
    |notes| == |cs| && forall i :: 0 <= i < |cs| ==> notes[i].name == cs[i].name && notes[i].releaseName == "env-" + x + "-" + Sanitize(cs[i].name)
  }

  /** Entry i is of a primary component that was installed. */
  predicate NewPrimary(notes: seq<ComponentStatus>, cs: seq<Component>, i: int) {
    0 <= i < |notes| && i < |cs| && cs[i].primary && notes[i].note.Installed?
  }

  /** The legacy field names the last primary component that was installed, if any was. */
  predicate Names(name: string, was: string, x: string, notes: seq<ComponentStatus>, cs: seq<Component>) {
    || (name == was && forall i :: 0 <= i < |notes| ==> !NewPrimary(notes, cs, i))
    || (exists i :: 0 <= i < |notes| && LastPrimary(notes, cs, i) && name == "env-" + x + "-" + Sanitize(cs[i].name))
  }

  predicate LastPrimary(notes: seq<ComponentStatus>, cs: seq<Component>, i: int) {
    NewPrimary(notes, cs, i) && forall j :: i < j < |notes| ==> !NewPrimary(notes, cs, j)
  }

  function Noted(cfg: Config, l: Local): seq<ComponentStatus> {
    if l.pc.Check? then l.pc.done else if l.pc.Deploy? then l.pc.done else if Helmed(cfg, l) then l.env.status.components else []
  }

  predicate AdminHere(cfg: Config) { cfg.operatorService != "" && cfg.operatorNamespace != "" }

  /** The copy's status at a point of the create path, given the one found. */
  predicate Report(cfg: Config, x: string, was: Status, l: Local, from: Time, now: Time) {
    var s := l.env.status; var gw := l.env.spec.gateway; var done := l.pc == Save(Activated);
    && s.phase == (if done then Active else if was.phase == Unset then Pending else was.phase)
    && s.message == (if done then ActiveMessage else if l.pc == Save(Waiting) then WaitingMessage else was.message)
    && (if done then s.lastReconcile.Some? && from <= s.lastReconcile.value <= now else s.lastReconcile == was.lastReconcile)
    && s.activeNamespace == "env-" + x
    && s.accessURL == (if Reach(l) >= 7 then "https://" + gw.domainPrefix + ".preview.example.com" else was.accessURL)
    && s.adminURL == (if Reach(l) >= 8 && AdminHere(cfg) then "https://admin." + gw.domainPrefix + ".preview.example.com" else was.adminURL)
    && (forall t :: if Reached(cfg, l, t) then TurnedTrue(was, s, t, from, now) else Stays(was, s, t))
    && (if Helmed(cfg, l) then Lists(x, s.components, l.resolved) else s.components == was.components)
    && Names(s.helmRelease, was.helmRelease, x, Noted(cfg, l), l.resolved)
  }

  // ---------------------------------------------------------------- single writes

  lemma StageSays(s: Status, spec: Spec, st: Stage, now: Time)
    ensures var r := StageStatus(s, spec, st, now); var gw := spec.gateway;
      && r == s.(conditions := r.conditions, accessURL := r.accessURL, adminURL := r.adminURL)
      && r.accessURL == (if st.AppStage? then "https://" + gw.domainPrefix + ".preview.example.com" else s.accessURL)
      && r.adminURL == (if st.AdminStage? then "https://admin." + gw.domainPrefix + ".preview.example.com" else s.adminURL)
      && (forall t: ConditionType :: if (st.PolicyStage? && t.NetworkPolicyApplied?) || (st.AppStage? && t.HTTPRouteReady?) then Turns(s, r, t, true, now) else Stays(s, r, t))
  {
    SetMeans(s, NetworkPolicyApplied, true, now);
    SetMeans(s.(accessURL := "https://" + Hostname(spec)), HTTPRouteReady, true, now);
    UrlsMean(spec.gateway.domainPrefix);
    hide SetCondition;
    var r, b := StageStatus(s, spec, st, now), s.(accessURL := "https://" + Hostname(spec));
    forall t: ConditionType ensures if (st.PolicyStage? && t.NetworkPolicyApplied?) || (st.AppStage? && t.HTTPRouteReady?) then Turns(s, r, t, true, now) else Stays(s, r, t) {
      if st.AppStage? { assert t != HTTPRouteReady ==> Stays(b, r, t); }
    }
  }

  lemma UrlsMean(p: string)
    ensures "https://" + (p + "." + BASE_DOMAIN) == "https://" + p + ".preview.example.com"
    ensures "https://" + ("admin." + p + "." + BASE_DOMAIN) == "https://admin." + p + ".preview.example.com"
  {
    assert "." + "preview.example.com" == ".preview.example.com";
    assert "https://" + ("admin." + p + "." + "preview.example.com") == ("https://" + "admin.") + p + ("." + "preview.example.com");
    assert "https://" + "admin." == "https://admin.";
    assert "https://" + (p + "." + "preview.example.com") == "https://" + p + ("." + "preview.example.com");
  }

  lemma TurnsOn(was: Status, s: Status, r: Status, t: ConditionType, from: Time, now: Time)
    requires from <= now
    ensures Turns(s, r, t, true, now) && (Stays(was, s, t) || TurnedTrue(was, s, t, from, now)) ==> TurnedTrue(was, r, t, from, now)
    ensures Stays(s, r, t) && TurnedTrue(was, s, t, from, now) ==> TurnedTrue(was, r, t, from, now)
    ensures Stays(s, r, t) && Stays(was, s, t) ==> Stays(was, r, t)
  {
  }

  /** A stage that is ensured, and the end of Helm, seen from the fields of the status. */
  lemma ClosedSays(pc: Pc, s: Status, now: Time)
    ensures var r := Closed(pc, s, now);
      && r == s.(phase := r.phase, message := r.message, lastReconcile := r.lastReconcile)
      && (if pc == Save(Activated) then r.phase == Active && r.message == ActiveMessage && r.lastReconcile == Some(now)
          else r.phase == s.phase && r.lastReconcile == s.lastReconcile && r.message == if pc == Save(Waiting) then WaitingMessage else s.message)
      && (forall t :: Stays(s, r, t))
  {
  }

  // ---------------------------------------------------------------- the steps

  /** Two points with the same status, list and notes, no condition newly reached between them. */
  lemma ReportsOn(cfg: Config, x: string, was: Status, l: Local, m: Local, from: Time, now: Time)
    requires Report(cfg, x, was, l, from, now) && l.pc != Save(Activated) && l.pc != Save(Waiting)
    requires m.env.spec == l.env.spec && m.env.status == Closed(m.pc, l.env.status, now) && from <= now
    requires (forall t :: Reached(cfg, m, t) <==> Reached(cfg, l, t)) && (Reach(m) >= 7 <==> Reach(l) >= 7) && (AdminHere(cfg) ==> (Reach(m) >= 8 <==> Reach(l) >= 8))
    requires Noted(cfg, m) == Noted(cfg, l) && (Noted(cfg, m) == [] || m.resolved == l.resolved) && (Helmed(cfg, l) ==> m.resolved == l.resolved)
    ensures Report(cfg, x, was, m, from, now)
  {
    ClosedSays(m.pc, l.env.status, now);
    hide Closed, Reached, Reach, Lists, NewPrimary;
    forall t ensures if Reached(cfg, m, t) then TurnedTrue(was, m.env.status, t, from, now) else Stays(was, m.env.status, t) {
      TurnsOn(was, l.env.status, m.env.status, t, from, now);
    }
    assert Helmed(cfg, m) == Helmed(cfg, l) by { assert Reached(cfg, m, HelmDeployed) <==> Reached(cfg, l, HelmDeployed); HelmedReached(cfg, m); HelmedReached(cfg, l); }
    hide Helmed, TurnedTrue, Stays;
  }

  lemma HelmedReached(cfg: Config, l: Local)
    ensures Helmed(cfg, l) <==> Reached(cfg, l, HelmDeployed)
  {
  }

  /** How far a stage that is ensured leads. */
  lemma StageReach(cfg: Config, x: string, l: Local, st: Stage, now: Time)
    requires Built(cfg, x, l) && (l.pc == GetStage(st) || (l.pc.PutStage? && l.pc.stage == st)) && Wanted(cfg, x, l.env.spec, st)
    ensures var m := StageEnsured(cfg, l, st, now);
      && m.env.spec == l.env.spec && m.pc != Save(Waiting) && !GaveUp(m) && !m.pc.Deploy?
      && (Reach(m) >= 7 <==> Reach(l) >= 7 || st.AppStage?)
      && (AdminHere(cfg) ==> (Reach(m) >= 8 <==> Reach(l) >= 8 || st.AdminStage?))
      && (l.env.spec.isolation != Some(false) ==> (Reach(m) >= 4 <==> Reach(l) >= 4 || st.PolicyStage?))
      && (st.PolicyStage? ==> l.env.spec.isolation != Some(false))
      && (Helmed(cfg, m) <==> Helmed(cfg, l)) && (Helmed(cfg, l) ==> m.resolved == l.resolved)
      && (m.pc.Check? ==> m.pc.done == [] && !Helmed(cfg, l)) && (m.resolved == l.resolved || m.pc.Check?)
  {
    hide StageEnsured, HelmReported, Skips, ServiceChosen;
    var m := StageEnsured(cfg, l, st, now);
    StageOver(cfg, x, l, st, now);
    StageOnward(cfg, l, st, now);
    StageChecks(cfg, l, st, now);
    assert Needed(x, m.env.spec, AppStage);
    assert l.env.spec.isolation != Some(false) ==> Needed(x, m.env.spec, PolicyStage);
    hide Built, HelmFlag;
  }

  predicate Conditions(cfg: Config, was: Status, l: Local, from: Time, now: Time) {
    forall t :: if Reached(cfg, l, t) then TurnedTrue(was, l.env.status, t, from, now) else Stays(was, l.env.status, t)
  }

  lemma StageConditions(cfg: Config, x: string, was: Status, l: Local, st: Stage, from: Time, now: Time)
    requires Conditions(cfg, was, l, from, now) && from <= now
    requires Built(cfg, x, l) && (l.pc == GetStage(st) || (l.pc.PutStage? && l.pc.stage == st)) && Wanted(cfg, x, l.env.spec, st)
    ensures Conditions(cfg, was, StageEnsured(cfg, l, st, now), from, now)
  {
    var m, s := StageEnsured(cfg, l, st, now), StageStatus(l.env.status, l.env.spec, st, now);
    StageReach(cfg, x, l, st, now);
    StageWrites(cfg, l, st, now);
    StageSays(l.env.status, l.env.spec, st, now);
    ClosedSays(m.pc, s, now);
    hide StageEnsured, StageStatus, Closed, Built, Wanted, AdminHere, Helmed, Reach;
    forall t ensures if Reached(cfg, m, t) then TurnedTrue(was, m.env.status, t, from, now) else Stays(was, m.env.status, t) {
      var turned := (st.PolicyStage? && t == NetworkPolicyApplied) || (st.AppStage? && t == HTTPRouteReady);
      StageCondition(was, l.env.status, s, m.env.status, t, turned, from, now);
      hide TurnedTrue, Stays, Turns;
    }
  }

  lemma ReportStage(cfg: Config, x: string, was: Status, l: Local, st: Stage, from: Time, now: Time)
    requires Report(cfg, x, was, l, from, now) && from <= now
    requires Built(cfg, x, l) && (l.pc == GetStage(st) || (l.pc.PutStage? && l.pc.stage == st)) && Wanted(cfg, x, l.env.spec, st)
    ensures Report(cfg, x, was, StageEnsured(cfg, l, st, now), from, now)
  {
    var m, s := StageEnsured(cfg, l, st, now), StageStatus(l.env.status, l.env.spec, st, now);
    hide Reached, TurnedTrue, Stays, Turns;
    StageConditions(cfg, x, was, l, st, from, now);
    StageReach(cfg, x, l, st, now);
    StageWrites(cfg, l, st, now);
    StageSays(l.env.status, l.env.spec, st, now);
    ClosedSays(m.pc, s, now);
    assert st.AdminStage? ==> AdminHere(cfg) by { hide Built; }
    hide StageEnsured, StageStatus, Closed, Built, Wanted, Lists, Names, AdminHere, Helmed, Reach, Noted;
    assert Noted(cfg, m) == Noted(cfg, l) by { NotedStage(cfg, l, m); }
  }

  lemma NotedStage(cfg: Config, l: Local, m: Local)
    requires (l.pc.GetStage? || l.pc.PutStage?) && !m.pc.Deploy? && (Helmed(cfg, m) <==> Helmed(cfg, l)) && m.env.status.components == l.env.status.components
    requires m.pc.Check? ==> m.pc.done == [] && !Helmed(cfg, l)
    ensures Noted(cfg, m) == Noted(cfg, l)
  {
    hide Helmed;
  }

  lemma StageCondition(was: Status, s0: Status, s: Status, r: Status, t: ConditionType, turned: bool, from: Time, now: Time)
    requires from <= now && Stays(s, r, t) && (if turned then Turns(s0, s, t, true, now) else Stays(s0, s, t))
    ensures turned && (Stays(was, s0, t) || TurnedTrue(was, s0, t, from, now)) ==> TurnedTrue(was, r, t, from, now)
    ensures !turned ==> (TurnedTrue(was, s0, t, from, now) ==> TurnedTrue(was, r, t, from, now)) && (Stays(was, s0, t) ==> Stays(was, r, t))
  {
  }

  lemma ReportResolve(cfg: Config, x: string, was: Status, l: Local, r: Reply, from: Time, now: Time)
    requires Report(cfg, x, was, l, from, now) && from <= now
    requires Built(cfg, x, l) && (l.pc.ResolveFirst? || l.pc.ResolveAgain?) && OnBuilding(cfg, x, l, r, now).pc != Save(StepFailed)
    ensures Report(cfg, x, was, OnBuilding(cfg, x, l, r, now), from, now)
  {
    var m := OnBuilding(cfg, x, l, r, now);
    ResolveReach(cfg, x, l, r, now);
    hide OnBuilding, Built, Report;
    ReportsOn(cfg, x, was, l, m, from, now);
  }

  lemma ResolveReach(cfg: Config, x: string, l: Local, r: Reply, now: Time)
    requires Built(cfg, x, l) && (l.pc.ResolveFirst? || l.pc.ResolveAgain?) && OnBuilding(cfg, x, l, r, now).pc != Save(StepFailed)
    ensures var m := OnBuilding(cfg, x, l, r, now);
      && m.env.spec == l.env.spec && m.env.status == Closed(m.pc, l.env.status, now)
      && (forall t :: Reached(cfg, m, t) <==> Reached(cfg, l, t)) && (Reach(m) >= 7 <==> Reach(l) >= 7) && (AdminHere(cfg) ==> (Reach(m) >= 8 <==> Reach(l) >= 8))
      && Noted(cfg, m) == Noted(cfg, l) == [] && !Helmed(cfg, l)
  {
    hide Resolve, ServiceChosen, HelmReported, ReadsTemplate;
  }

  lemma ReportWrite(cfg: Config, x: string, was: Status, l: Local, pc: Pc, from: Time, now: Time)
    requires Report(cfg, x, was, l, from, now) && l.pc.GetStage? && pc.PutStage? && pc.stage == l.pc.stage
    ensures Report(cfg, x, was, l.(pc := pc), from, now)
  {
    hide TurnedTrue, Stays, Lists, Names;
  }

  lemma ReportDiscover(cfg: Config, x: string, was: Status, l: Local, r: Reply, from: Time, now: Time)
    requires Report(cfg, x, was, l, from, now) && from <= now
    requires Built(cfg, x, l) && (l.pc.List? || l.pc.AskPrimary?)
    ensures Report(cfg, x, was, OnBuilding(cfg, x, l, r, now), from, now)
  {
    var m := OnBuilding(cfg, x, l, r, now);
    DiscoverReach(cfg, x, l, r, now);
    hide OnBuilding, Built, Report;
    ReportsOn(cfg, x, was, l, m, from, now);
  }

  lemma DiscoverReach(cfg: Config, x: string, l: Local, r: Reply, now: Time)
    requires Built(cfg, x, l) && (l.pc.List? || l.pc.AskPrimary?)
    ensures var m := OnBuilding(cfg, x, l, r, now);
      && m.env.spec == l.env.spec && m.env.status == Closed(m.pc, l.env.status, now) && m.resolved == l.resolved
      && (forall t :: Reached(cfg, m, t) <==> Reached(cfg, l, t)) && (Reach(m) >= 7 <==> Reach(l) >= 7) && (Reach(m) >= 8 <==> Reach(l) >= 8)
      && Noted(cfg, m) == Noted(cfg, l) && (Helmed(cfg, m) <==> Helmed(cfg, l))
  {
    hide Matching, Choose, PrimaryName, HelmReported, ServiceChosen, PrimaryReadsTemplate;
  }

  lemma NamesGrow(name: string, was: string, x: string, notes: seq<ComponentStatus>, cs: seq<Component>, note: ComponentStatus, name': string)
    requires Names(name, was, x, notes, cs) && |notes| < |cs|
    requires name' == if cs[|notes|].primary && note.note.Installed? then "env-" + x + "-" + Sanitize(cs[|notes|].name) else name
    ensures Names(name', was, x, notes + [note], cs)
  {
    hide Sanitize, NewPrimary;
    var n, longer := |notes|, notes + [note];
    forall i { NewPrimaryKept(notes, cs, note, i); }
    NewPrimaryAdded(notes, cs, note);
    if NewPrimary(longer, cs, n) {
      assert LastPrimary(longer, cs, n);
    } else if !(name == was && forall i :: 0 <= i < n ==> !NewPrimary(notes, cs, i)) {
      var i :| 0 <= i < n && LastPrimary(notes, cs, i) && name == "env-" + x + "-" + Sanitize(cs[i].name);
      assert LastPrimary(longer, cs, i);
    }
  }

  lemma NewPrimaryKept(notes: seq<ComponentStatus>, cs: seq<Component>, note: ComponentStatus, i: int)
    ensures 0 <= i < |notes| ==> NewPrimary(notes + [note], cs, i) == NewPrimary(notes, cs, i)
    ensures NewPrimary(notes, cs, i) ==> 0 <= i < |notes| && i < |cs|
  {
  }

  lemma NewPrimaryAdded(notes: seq<ComponentStatus>, cs: seq<Component>, note: ComponentStatus)
    requires |notes| < |cs|
    ensures NewPrimary(notes + [note], cs, |notes|) <==> cs[|notes|].primary && note.note.Installed?
  {
  }

  lemma ListsGrow(x: string, l: Local, cfg: Config, note: ComponentStatus)
    requires Built(cfg, x, l) && (l.pc.Check? || l.pc.Deploy?)
    requires var c := l.pc.todo[|l.pc.done|]; note.name == c.name && note.releaseName == "env-" + x + "-" + Sanitize(c.name)
    ensures |l.pc.done| < |l.pc.todo| && l.pc.todo == l.resolved && cfg.helm
    ensures |l.pc.done| + 1 == |l.pc.todo| ==> Lists(x, l.pc.done + [note], l.pc.todo)
  {
    var todo, done := l.pc.todo, l.pc.done;
    forall i | 0 <= i < |done| ensures done[i].name == todo[i].name && done[i].releaseName == "env-" + x + "-" + Sanitize(todo[i].name) {
      assert todo[..|done|][i] == todo[i];
      ReleaseLiteral(x, todo[i]);
    }
    hide Sanitize, Release;
  }

  lemma ReleaseLiteral(x: string, c: Component)
    ensures Release(x, "", c).name == "env-" + x + "-" + Sanitize(c.name)
  {
  }

  /** One component more, installed or found. */
  lemma ReportDeployed(cfg: Config, x: string, was: Status, l: Local, l': Local, note: ComponentStatus, from: Time, now: Time)
    requires Report(cfg, x, was, l, from, now) && from <= now && Built(cfg, x, l) && (l.pc.Check? || l.pc.Deploy?) && |l.pc.done| < |l.pc.todo|
    requires var c := l.pc.todo[|l.pc.done|];
      && note.name == c.name && note.releaseName == "env-" + x + "-" + Sanitize(c.name)
      && l' == SetStatus(l, l.env.status.(helmRelease := l'.env.status.helmRelease))
      && l'.env.status.helmRelease == if c.primary && note.note.Installed? then note.releaseName else l.env.status.helmRelease
    ensures Report(cfg, x, was, Deployed(l', l.pc.todo, l.pc.done + [note], now), from, now)
  {
    var todo, done := l.pc.todo, l.pc.done;
    ListsGrow(x, l, cfg, note);
    NamesGrow(l.env.status.helmRelease, was.helmRelease, x, done, l.resolved, note, l'.env.status.helmRelease);
    hide Built, Sanitize, Report, Names, Lists, Deployed, AfterHelm;
    if |done| + 1 < |todo| { NextReport(cfg, x, was, l, l', done + [note], from, now); } else { LastReport(cfg, x, was, l, l', done + [note], from, now); }
  }

  lemma NextReach(cfg: Config, l: Local, l': Local, done: seq<ComponentStatus>)
    requires (l.pc.Check? || l.pc.Deploy?) && l' == SetStatus(l, l'.env.status)
    ensures var m := l'.(pc := Check(l.pc.todo, done));
      && (forall t :: Reached(cfg, m, t) <==> Reached(cfg, l, t)) && Reach(m) == Reach(l) && (Helmed(cfg, m) <==> Helmed(cfg, l)) && Noted(cfg, m) == done
  {
  }

  lemma NextReport(cfg: Config, x: string, was: Status, l: Local, l': Local, done: seq<ComponentStatus>, from: Time, now: Time)
    requires Report(cfg, x, was, l, from, now) && (l.pc.Check? || l.pc.Deploy?) && |done| < |l.pc.todo|
    requires l' == SetStatus(l, l.env.status.(helmRelease := l'.env.status.helmRelease)) && Names(l'.env.status.helmRelease, was.helmRelease, x, done, l.resolved)
    ensures Report(cfg, x, was, Deployed(l', l.pc.todo, done, now), from, now)
  {
    var m := l'.(pc := Check(l.pc.todo, done));
    assert Deployed(l', l.pc.todo, done, now) == m;
    NextReach(cfg, l, l', done);
    hide Names, Lists, AdminHere, Deployed, Reached, Reach, Helmed, Noted;
    forall t ensures if Reached(cfg, m, t) then TurnedTrue(was, m.env.status, t, from, now) else Stays(was, m.env.status, t) {}
    hide TurnedTrue, Stays;
  }

  lemma LastReach(cfg: Config, l: Local, l': Local, s: Status, now: Time)
    requires (l.pc.Check? || l.pc.Deploy?) && cfg.helm && l.resolved != [] && l' == SetStatus(l, l'.env.status)
    ensures var m := AfterHelm(SetStatus(l', s), now);
      && (forall t :: Reached(cfg, m, t) <==> Reached(cfg, l, t) || t == HelmDeployed) && (Reach(m) >= 7 <==> Reach(l) >= 7) && (Reach(m) >= 8 <==> Reach(l) >= 8)
      && Helmed(cfg, m) && m.resolved == l.resolved && Noted(cfg, m) == m.env.status.components && m.env.spec == l.env.spec
      && m.env.status == Closed(m.pc, s, now) && m.pc != Save(Waiting)
  {
  }

  lemma LastReport(cfg: Config, x: string, was: Status, l: Local, l': Local, done: seq<ComponentStatus>, from: Time, now: Time)
    requires Report(cfg, x, was, l, from, now) && from <= now && (l.pc.Check? || l.pc.Deploy?) && cfg.helm && l.resolved == l.pc.todo != [] && |done| == |l.pc.todo|
    requires l' == SetStatus(l, l.env.status.(helmRelease := l'.env.status.helmRelease))
    requires Lists(x, done, l.resolved) && Names(l'.env.status.helmRelease, was.helmRelease, x, done, l.resolved)
    ensures Report(cfg, x, was, Deployed(l', l.pc.todo, done, now), from, now)
  {
    var b := l'.env.status.(components := done);
    var s := SetCondition(b, HelmDeployed, true, now);
    var m := Deployed(l', l.pc.todo, done, now);
    SetMeans(b, HelmDeployed, true, now);
    assert m == AfterHelm(SetStatus(l', s), now);
    hide SetCondition, Deployed, AfterHelm;
    LastReach(cfg, l, l', s, now);
    ClosedSays(m.pc, s, now);
    hide Closed, Names, Lists, AdminHere, Reached, Helmed, Reach, Noted;
    forall t ensures if Reached(cfg, m, t) then TurnedTrue(was, m.env.status, t, from, now) else Stays(was, m.env.status, t) {
      ConditionThrough(was, l.env.status, b, s, m.env.status, t, from, now);
    }
  }

  lemma ConditionThrough(was: Status, s0: Status, b: Status, s: Status, r: Status, t: ConditionType, from: Time, now: Time)
    requires from <= now && b.conditions == s0.conditions && Stays(s, r, t)
    requires if t == HelmDeployed then Turns(b, s, t, true, now) && (Stays(was, s0, t) || TurnedTrue(was, s0, t, from, now)) else Stays(b, s, t)
    ensures if t == HelmDeployed then TurnedTrue(was, r, t, from, now)
            else (TurnedTrue(was, s0, t, from, now) ==> TurnedTrue(was, r, t, from, now)) && (Stays(was, s0, t) ==> Stays(was, r, t))
  {
  }

  // ---------------------------------------------------------------- the whole pass

  /** At every point of a clean pass that found the status `was` and began at `from`. */
  ghost predicate Telling(cfg: Config, x: string, was: Status, w: World, l: Local, from: Time) {
    && x in w.envs && from <= w.now
    && (l.pc.Idle? || l.pc.AddFinalizer? || l.pc.Refetch? ==> w.envs[x].status == was)
    && (l.pc.GetNs? || l.pc.PutNs? ==>
          l.env.status == was.(phase := if was.phase == Unset then Pending else was.phase, expirationTime := l.env.status.expirationTime))
    && (Raised(l.pc) || l.pc == Save(Waiting) ==> Report(cfg, x, was, l, from, w.now))
    && (l.pc == Save(Waiting) && cfg.helm ==> l.resolved == Resolve(w.envs[x].spec, TemplateAt(w, w.envs[x])))
  }

  lemma FirstReport(cfg: Config, x: string, was: Status, l: Local, from: Time, now: Time)
    requires from <= now && l.resolved == []
    requires l.env.status == was.(phase := if was.phase == Unset then Pending else was.phase, expirationTime := l.env.status.expirationTime)
    ensures Report(cfg, x, was, NsEnsured(x, l, now), from, now)
  {
    var b := l.env.status.(activeNamespace := "env-" + x);
    SetMeans(b, NamespaceReady, true, now);
    var m := NsEnsured(x, l, now);
    assert m.env.status == SetCondition(b, NamespaceReady, true, now) && m.pc == GetStage(SaStage) && m.env.spec == l.env.spec && m.resolved == [];
    hide SetCondition, NsEnsured;
    forall t ensures if Reached(cfg, m, t) then TurnedTrue(was, m.env.status, t, from, now) else Stays(was, m.env.status, t) {
      if t != NamespaceReady { assert Stays(b, m.env.status, t); }
    }
    assert Noted(cfg, m) == [];
  }

  lemma ReportLater(cfg: Config, x: string, was: Status, l: Local, from: Time, now: Time, later: Time)
    requires Report(cfg, x, was, l, from, now) && now <= later
    ensures Report(cfg, x, was, l, from, later)
  {
    hide Reached, Names, Lists, Helmed, Reach, AdminHere;
  }

  lemma TellsOpening(cfg: Config, x: string, was: Status, w: World, l: Local, from: Time)
    requires OnTrack(cfg, x, w, l) && Standing(x, w) && w.now <= Deadline(w.envs[x]) && Telling(cfg, x, was, w, l, from)
    requires l.pc.Idle? || l.pc.AddFinalizer? || (l.pc.Refetch? && FINALIZER in w.envs[x].finalizers)
    ensures var s := Step(cfg, x, w, l, NoFault); Telling(cfg, x, was, s.w, s.l, from)
  {
    hide Step, Next, OnTrack, Report, TemplateAt, Resolve, Stamped;
    var s := Step(cfg, x, w, l, NoFault);
    LifeTime.StampMeans(w.envs[x], w.now);
    StepParts(cfg, x, w, l, NoFault);
    NextOpening(cfg, x, l, s.reply, w.now);
    OwnWrite(cfg, x, w, l);
    TrackFinalizer(cfg, x, w, l);
    if l.pc.AddFinalizer? { WriteOutcome(cfg, x, w, l, NoFault); }
  }

  lemma TellsNs(cfg: Config, x: string, was: Status, w: World, l: Local, from: Time)
    requires Clean(cfg, x, w, l) && (l.pc.GetNs? || l.pc.PutNs?) && Telling(cfg, x, was, w, l, from)
    ensures var s := Step(cfg, x, w, l, NoFault); Telling(cfg, x, was, s.w, s.l, from)
  {
    hide Step, Next, Clean, Report, TemplateAt, Resolve, NsEnsured, FailStep, OwnerLabels;
    var s := Step(cfg, x, w, l, NoFault);
    CleanTrack(cfg, x, w, l);
    StepParts(cfg, x, w, l, NoFault);
    NextOpening(cfg, x, l, s.reply, w.now);
    NsAnswered(cfg, x, w, l);
    TrackSound(cfg, x, w, l);
    FirstReport(cfg, x, was, l, from, w.now);
    NsEnsuredBuilt(cfg, x, l, w.now);
  }

  /** What a clean building step leads to, spelled out by the call it makes. */
  lemma ReportBuilding(cfg: Config, x: string, was: Status, w: World, l: Local, from: Time)
    requires Clean(cfg, x, w, l) && Fit(cfg, x, w) && Building(l.pc) && Report(cfg, x, was, l, from, w.now) && from <= w.now
    ensures Report(cfg, x, was, Step(cfg, x, w, l, NoFault).l, from, w.now)
  {
    hide Step, Next, Clean, Report, Fit, StageEnsured, StageFailed, StageObj, Deployed, FailHelm, Resolve, TemplateAt, Matching, Choose, PrimaryName, OnBuilding;
    var s := Step(cfg, x, w, l, NoFault);
    CleanTrack(cfg, x, w, l);
    TrackBuilt(cfg, x, w, l);
    StepParts(cfg, x, w, l, NoFault);
    CallsSucceed(cfg, x, w, l);
    BuildingNext(cfg, x, l, s.reply, w.now);
    if l.pc.GetStage? || l.pc.PutStage? {
      assert Wanted(cfg, x, l.env.spec, l.pc.stage) by { StageWanted(cfg, x, w, l); }
      ReportStage(cfg, x, was, l, l.pc.stage, from, w.now);
      StageGoes(cfg, x, l, s.reply, w.now);
      if s.l != StageEnsured(cfg, l, l.pc.stage, w.now) { ReportWrite(cfg, x, was, l, s.l.pc, from, w.now); }
    } else if l.pc.ResolveFirst? || l.pc.ResolveAgain? {
      assert s.l.pc != Save(StepFailed) by { NeverFailing(cfg, x, w, l); }
      ReportResolve(cfg, x, was, l, s.reply, from, w.now);
    } else if l.pc.Check? || l.pc.Deploy? {
      ReportHelm(cfg, x, was, w, l, s.reply, from);
    } else {
      ReportDiscover(cfg, x, was, l, s.reply, from, w.now);
    }
  }

  lemma BuildingNext(cfg: Config, x: string, l: Local, r: Reply, now: Time)
    requires Building(l.pc)
    ensures Next(cfg, x, l, r, now) == OnBuilding(cfg, x, l, r, now)
  {
    hide OnBuilding, OnTearing;
  }

  lemma StageWanted(cfg: Config, x: string, w: World, l: Local)
    requires OnTrack(cfg, x, w, l) && (l.pc.GetStage? || l.pc.PutStage?)
    ensures Wanted(cfg, x, l.env.spec, l.pc.stage)
  {
  }

  lemma StageGoes(cfg: Config, x: string, l: Local, r: Reply, now: Time)
    requires (l.pc.GetStage? && (r.NotFound? || r.AnObj?)) || (l.pc.PutStage? && r.Done?)
    ensures var m := OnBuilding(cfg, x, l, r, now);
      m == StageEnsured(cfg, l, l.pc.stage, now) || (l.pc.GetStage? && m.pc.PutStage? && m.pc.stage == l.pc.stage && m == l.(pc := m.pc))
  {
    hide StageEnsured, StageFailed, StageObj;
  }

  lemma NeverFailing(cfg: Config, x: string, w: World, l: Local)
    requires Clean(cfg, x, w, l) && Fit(cfg, x, w) && Building(l.pc)
    ensures Step(cfg, x, w, l, NoFault).l.pc != Save(StepFailed)
  {
    hide Clean, Fit, Step;
    CleanBuilding(cfg, x, w, l);
    CleanNotFailing(cfg, x, Step(cfg, x, w, l, NoFault).w, Step(cfg, x, w, l, NoFault).l);
  }

  lemma CleanNotFailing(cfg: Config, x: string, w: World, l: Local)
    requires Clean(cfg, x, w, l)
    ensures l.pc != Save(StepFailed)
  {
    hide OnTrack, Backend, TemplateAt, ServicesAt, Labelled, Placed, AdminInPlace, Resolve, Grounded;
  }

  lemma ReportHelm(cfg: Config, x: string, was: Status, w: World, l: Local, r: Reply, from: Time)
    requires Clean(cfg, x, w, l) && Fit(cfg, x, w) && Report(cfg, x, was, l, from, w.now) && from <= w.now && Built(cfg, x, l)
    requires (l.pc.Check? && r.Presence?) || (l.pc.Deploy? && r.Done?)
    ensures Report(cfg, x, was, OnBuilding(cfg, x, l, r, w.now), from, w.now)
  {
    BuiltDeploys(cfg, x, l);
    var c := l.pc.todo[|l.pc.done|];
    assert c.valuesParse by { CleanParses(cfg, x, w, l); }
    ReleaseLiteral(x, c);
    var name := Release(x, "", c).name;
    var l' := if c.primary && l.pc.Deploy? then SetStatus(l, l.env.status.(helmRelease := name)) else l;
    hide Clean, Fit, Report, Deployed, FailHelm, Release, Built;
    ReportDeployed(cfg, x, was, l, if l.pc.Deploy? then l' else l, ComponentStatus(c.name, name, if l.pc.Deploy? then Installed(w.now) else AlreadyInstalled), from, w.now);
    if l.pc.Check? && !r.present { ReportInstalls(cfg, x, was, l, from, w.now); }
  }

  lemma CleanParses(cfg: Config, x: string, w: World, l: Local)
    requires Clean(cfg, x, w, l) && Fit(cfg, x, w) && (l.pc.Check? || l.pc.Deploy?) && |l.pc.done| < |l.pc.todo| && cfg.helm
    ensures l.pc.todo[|l.pc.done|].valuesParse
  {
    hide NsName, Able, Resolve, TemplateAt, ServicesAt, Backend, Placed, AdminInPlace, Labelled, Grounded;
    TrackFresher(cfg, x, w, l);
    hide OnTrack;
  }

  lemma ReportInstalls(cfg: Config, x: string, was: Status, l: Local, from: Time, now: Time)
    requires Report(cfg, x, was, l, from, now) && l.pc.Check?
    ensures Report(cfg, x, was, l.(pc := Deploy(l.pc.todo, l.pc.done)), from, now)
  {
    hide TurnedTrue, Stays, Lists, Names;
  }

  lemma TellsBuilding(cfg: Config, x: string, was: Status, w: World, l: Local, from: Time)
    requires Clean(cfg, x, w, l) && Fit(cfg, x, w) && Building(l.pc) && Telling(cfg, x, was, w, l, from)
    ensures var s := Step(cfg, x, w, l, NoFault); Telling(cfg, x, was, s.w, s.l, from)
  {
    hide Step, Next, Clean, Fit, Report, TemplateAt, Resolve;
    var s := Step(cfg, x, w, l, NoFault);
    ReportBuilding(cfg, x, was, w, l, from);
    BuildingStays(cfg, x, w, l);
    if s.l.pc == Save(Waiting) { WaitKeepsList(cfg, x, w, l); }
    SameTemplates(w, s.w, w.envs[x]);
  }

  lemma BuildingStays(cfg: Config, x: string, w: World, l: Local)
    requires Clean(cfg, x, w, l) && Building(l.pc)
    ensures var s := Step(cfg, x, w, l, NoFault);
      s.w.now == w.now && s.w.envs == w.envs && s.w.templates == w.templates && (s.l.pc.Save? || Building(s.l.pc))
  {
    hide Step, Next, Clean;
    CleanTrack(cfg, x, w, l);
    TrackBuilt(cfg, x, w, l);
    StepParts(cfg, x, w, l, NoFault);
    NextStays(cfg, x, l, Step(cfg, x, w, l, NoFault).reply, w.now);
  }

  lemma WaitKeepsList(cfg: Config, x: string, w: World, l: Local)
    requires Clean(cfg, x, w, l) && Building(l.pc) && Step(cfg, x, w, l, NoFault).l.pc == Save(Waiting)
    ensures cfg.helm ==> Step(cfg, x, w, l, NoFault).l.resolved == Resolve(w.envs[x].spec, TemplateAt(w, w.envs[x]))
  {
    hide Step, Next, Clean, TemplateAt, Resolve, Built;
    var s := Step(cfg, x, w, l, NoFault);
    CleanTrack(cfg, x, w, l);
    TrackBuilt(cfg, x, w, l);
    StepParts(cfg, x, w, l, NoFault);
    OnlyDiscoveryWaits(cfg, x, l, s.reply, w.now);
    BuildingNext(cfg, x, l, s.reply, w.now);
    DiscoverReach(cfg, x, l, s.reply, w.now);
    hide OnBuilding;
    DiscoveredList(cfg, x, w, l);
  }

  lemma DiscoveredList(cfg: Config, x: string, w: World, l: Local)
    requires Clean(cfg, x, w, l) && (l.pc.List? || l.pc.AskPrimary?)
    ensures cfg.helm ==> l.resolved == Resolve(w.envs[x].spec, TemplateAt(w, w.envs[x]))
  {
    hide TemplateAt, ServicesAt, Backend, Resolve, Labelled, AdminInPlace, Placed, Grounded;
    TrackFresher(cfg, x, w, l);
    assert Discovers(l) by { TrackBuilt(cfg, x, w, l); BuiltDiscovers(cfg, x, l); }
    hide OnTrack;
  }

  /** The status that a pass without a fault has stored. */
  ghost predicate StatusStored(cfg: Config, x: string, was: Status, w: World, v: World, from: Time) {
    x in w.envs && x in v.envs && exists l ::
      && Report(cfg, x, was, l, from, v.now) && v.envs[x].status == l.env.status && l.env.spec == w.envs[x].spec
      && l.pc == Save(if Served(x, w) then Activated else Waiting) && l.env.status.expirationTime == Some(Deadline(w.envs[x]))
      && (cfg.helm ==> l.resolved == Resolve(w.envs[x].spec, TemplateAt(w, w.envs[x])))
  }

  lemma SaveReports(cfg: Config, x: string, was: Status, w: World, l: Local, from: Time)
    requires Clean(cfg, x, w, l) && Telling(cfg, x, was, w, l, from) && l.pc.Save?
    ensures StatusStored(cfg, x, was, w, Step(cfg, x, w, l, NoFault).w, from)
  {
    hide Step, Clean, Report, TemplateAt, Served, Resolve;
    var v := Step(cfg, x, w, l, NoFault).w;
    CleanSettles(cfg, x, w, l);
    WriteOutcome(cfg, x, w, l, NoFault);
    assert Fresh(w, x, l) && Current(w, x, l.env) by { CleanTrack(cfg, x, w, l); TrackFresh(cfg, x, w, l); }
    if l.pc == Save(Activated) { ActiveList(cfg, x, w, l); }
    assert v.now == w.now;
    hide Settled;
    assert Report(cfg, x, was, l, from, v.now) && v.envs[x].status == l.env.status;
  }

  lemma ActiveList(cfg: Config, x: string, w: World, l: Local)
    requires Clean(cfg, x, w, l) && l.pc == Save(Activated)
    ensures x in w.envs && (cfg.helm ==> l.resolved == Resolve(w.envs[x].spec, TemplateAt(w, w.envs[x])))
  {
    hide TemplateAt, ServicesAt, Backend, Resolve, Labelled, AdminInPlace, Placed, Grounded;
    TrackFreshly(cfg, x, w, l);
    hide OnTrack;
  }

  lemma ReportedSame(cfg: Config, x: string, was: Status, w: World, v: World, u: World, from: Time)
    requires Kin(x, w, v) && StatusStored(cfg, x, was, v, u, from)
    ensures StatusStored(cfg, x, was, w, u, from)
  {
    hide Kin, Report, TemplateAt, Served, Resolve, Deadline;
    KinBackend(x, w, v);
    KinDeadline(x, w, v);
  }

  lemma TellsLater(cfg: Config, x: string, was: Status, w: World, l: Local, from: Time, d: nat)
    requires Telling(cfg, x, was, w, l, from)
    ensures Telling(cfg, x, was, Later(w, d), l, from)
  {
    hide Report, Resolve;
    if Raised(l.pc) || l.pc == Save(Waiting) { ReportLater(cfg, x, was, l, from, w.now, w.now + d); }
    SameTemplates(w, Later(w, d), w.envs[x]);
    hide TemplateAt;
  }

  lemma TellsStep(cfg: Config, x: string, was: Status, w: World, l: Local, from: Time)
    requires Clean(cfg, x, w, l) && Fit(cfg, x, w) && w.now <= Deadline(w.envs[x]) && Telling(cfg, x, was, w, l, from) && !l.pc.Save?
    ensures var s := Step(cfg, x, w, l, NoFault); Telling(cfg, x, was, s.w, s.l, from) && Clean(cfg, x, s.w, s.l)
  {
    hide Step, Clean, Fit, Telling;
    CleanTrack(cfg, x, w, l);
    CleanActs(cfg, x, w, l);
    if Building(l.pc) { CleanBuilding(cfg, x, w, l); TellsBuilding(cfg, x, was, w, l, from); }
    else {
      CleanOpening(cfg, x, w, l);
      FitStands(cfg, x, w);
      if l.pc.GetNs? || l.pc.PutNs? { TellsNs(cfg, x, was, w, l, from); } else { RefetchHas(cfg, x, w, l); TellsOpening(cfg, x, was, w, l, from); }
    }
  }

  lemma RefetchHas(cfg: Config, x: string, w: World, l: Local)
    requires Clean(cfg, x, w, l)
    ensures l.pc.Refetch? ==> x in w.envs && FINALIZER in w.envs[x].finalizers
  {
  }

  lemma {:induction false} ReportComplete(cfg: Config, x: string, g: Global, fates: seq<Fate>, was: Status, from: Time)
    requires Underway(cfg, x, g, fates) && Fit(cfg, x, g.w) && Clean(cfg, x, g.w, LocalOf(g, x)) && Sound(cfg, x, LocalOf(g, x))
    requires Faults(Complete(cfg, x, g, fates).rest) == Faults(fates) && Telling(cfg, x, was, g.w, LocalOf(g, x), from)
    ensures StatusStored(cfg, x, was, g.w, Complete(cfg, x, g, fates).g.w, from)
    decreases Part(LocalOf(g, x).pc), Ahead(LocalOf(g, x)), Turn(LocalOf(g, x).pc), Left(LocalOf(g, x))
  {
    hide Meet, Underway, Sound, Kin, Willing, Clean, Step, Fit, Telling, StatusStored, Part, Ahead, Turn, Left;
    var fate, l := NextFate(fates), LocalOf(g, x);
    var h, v := Meet(cfg, x, g, fate), Later(g.w, Seconds(fate.before));
    assert !l.pc.Idle? by { CleanActs(cfg, x, g.w, l); }
    MeetMoves(cfg, x, g, fate);
    CalmStep(cfg, x, g, fates);
    CalmComplete(cfg, x, h, LaterFates(fates));
    KinFit(cfg, x, g.w, h.w);
    assert fate.fault.NoFault?;
    assert Clean(cfg, x, v, l) && Fit(cfg, x, v) && Kin(x, g.w, v) && x in v.envs && v.now <= Deadline(v.envs[x]) by { CleanLater(cfg, x, g, fates); }
    assert h.w == Step(cfg, x, v, l, NoFault).w && LocalOf(h, x) == Step(cfg, x, v, l, NoFault).l by { UnderwayTicks(cfg, x, g, fates); CalmMeet(cfg, x, g, fate); }
    TellsLater(cfg, x, was, g.w, l, from, Seconds(fate.before));
    if l.pc.Save? {
      SaveEnds(cfg, x, v, l);
      SaveReports(cfg, x, was, v, l, from);
      assert Complete(cfg, x, g, fates).g == h;
      ReportedSame(cfg, x, was, g.w, v, h.w, from);
    } else {
      TellsStep(cfg, x, was, v, l, from);
      ReportComplete(cfg, x, h, LaterFates(fates), was, from);
      ReportedSame(cfg, x, was, g.w, h.w, Complete(cfg, x, g, fates).g.w, from);
    }
  }

  lemma ReportPass(cfg: Config, x: string, g: Global, fates: seq<Fate>)
    requires Startable(cfg, x, g, fates) && Faults(OnePass(cfg, x, g, fates).rest) == Faults(fates)
    ensures StatusStored(cfg, x, g.w.envs[x].status, g.w, OnePass(cfg, x, g, fates).g.w, g.w.now)
  {
    hide Meet, Kin, Fit, Underway, Sound, Undisturbed, Elapsed, Clean, Step, OnTrack, Telling, StatusStored;
    WillingUnderway(cfg, x, g, fates);
    CalmStep(cfg, x, g, fates);
    var fate, l, was := NextFate(fates), LocalOf(g, x), g.w.envs[x].status;
    var h := Meet(cfg, x, g, fate);
    CalmComplete(cfg, x, h, LaterFates(fates));
    var u := Later(g.w, Seconds(fate.before));
    CleanLater(cfg, x, g, fates);
    assert fate.fault.NoFault?;
    assert h.w == Step(cfg, x, u, l, NoFault).w && LocalOf(h, x) == Step(cfg, x, u, l, NoFault).l by { UnderwayTicks(cfg, x, g, fates); CalmMeet(cfg, x, g, fate); }
    CleanOpening(cfg, x, u, l);
    KinFit(cfg, x, g.w, h.w);
    assert Telling(cfg, x, was, u, l, g.w.now) by { IdleTelling(cfg, x, g, Seconds(fate.before)); }
    TellsOpening(cfg, x, was, u, l, g.w.now);
    hide Willing, LocalOf;
    ReportComplete(cfg, x, h, LaterFates(fates), was, g.w.now);
    ReportedSame(cfg, x, was, g.w, h.w, OnePass(cfg, x, g, fates).g.w, g.w.now);
  }

  lemma IdleTelling(cfg: Config, x: string, g: Global, d: nat)
    requires LocalOf(g, x).pc.Idle? && x in g.w.envs
    ensures Telling(cfg, x, g.w.envs[x].status, Later(g.w, d), LocalOf(g, x), g.w.now)
  {
    hide Report, TemplateAt, Resolve;
  }

  /** The status s after a pass that found the status `was` at `from` and stored s by `to`. */
  ghost predicate StatusAfter(cfg: Config, x: string, w: World, s: Status, from: Time, to: Time)
    requires x in w.envs
  {
    var env := w.envs[x]; var was := env.status; var gw := env.spec.gateway;
    var cs := ComponentsOf(w, env); var helmed := cfg.helm && cs != []; var served := HasBackend(x, w);
    && s.activeNamespace == "env-" + x
    && s.phase == (if served then Active else if was.phase == Unset then Pending else was.phase)
    && s.message == (if served then ActiveMessage else WaitingMessage)
    && (if served then s.lastReconcile.Some? && from <= s.lastReconcile.value <= to else s.lastReconcile == was.lastReconcile)
    && s.expirationTime.Some? && LifeTime.Due(was.expirationTime, env.created, env.spec.ttl, s.expirationTime.value)
    && s.accessURL == (if served then "https://" + gw.domainPrefix + ".preview.example.com" else was.accessURL)
    && s.adminURL == (if served && AdminHere(cfg) then "https://admin." + gw.domainPrefix + ".preview.example.com" else was.adminURL)
    && TurnedTrue(was, s, NamespaceReady, from, to)
    && (if env.spec.isolation != Some(false) then TurnedTrue(was, s, NetworkPolicyApplied, from, to) else Stays(was, s, NetworkPolicyApplied))
    && (if served then TurnedTrue(was, s, HTTPRouteReady, from, to) else Stays(was, s, HTTPRouteReady))
    && (if helmed then TurnedTrue(was, s, HelmDeployed, from, to) && Lists(x, s.components, cs) else Stays(was, s, HelmDeployed) && s.components == was.components)
    && Stays(was, s, EnvironmentExpired)
    && Names(s.helmRelease, was.helmRelease, x, if helmed then s.components else [], cs)
  }

  lemma ReportMeans(cfg: Config, x: string, w: World, l: Local, to: Time)
    requires x in w.envs && Report(cfg, x, w.envs[x].status, l, w.now, to) && l.env.spec == w.envs[x].spec
    requires l.pc == Save(if HasBackend(x, w) then Activated else Waiting)
    requires cfg.helm ==> l.resolved == ComponentsOf(w, w.envs[x])
    requires l.env.status.expirationTime.Some? && LifeTime.Due(w.envs[x].status.expirationTime, w.envs[x].created, w.envs[x].spec.ttl, l.env.status.expirationTime.value)
    ensures StatusAfter(cfg, x, w, l.env.status, w.now, to)
  {
    hide TurnedTrue, Stays, Lists, NewPrimary, LifeTime.Due, ComponentsOf, AdminHere;
    assert !HasBackend(x, w) ==> Discovers(l);
    hide HasBackend;
    assert Reached(cfg, l, NamespaceReady) && !Reached(cfg, l, EnvironmentExpired);
    assert Helmed(cfg, l) <==> Reached(cfg, l, HelmDeployed);
    assert Helmed(cfg, l) <==> cfg.helm && ComponentsOf(w, w.envs[x]) != [];
    assert Reached(cfg, l, HTTPRouteReady) <==> HasBackend(x, w);
    assert Reached(cfg, l, NetworkPolicyApplied) <==> w.envs[x].spec.isolation != Some(false);
  }

  /** What a pass without a fault, from any fit cluster and any status, has stored in the end. */
  lemma PassReports(cfg: Config, x: string, g: Global, fates: seq<Fate>)
    requires Startable(cfg, x, g, fates) && Faults(OnePass(cfg, x, g, fates).rest) == Faults(fates)
    ensures var v := OnePass(cfg, x, g, fates).g.w; x in v.envs && StatusAfter(cfg, x, g.w, v.envs[x].status, g.w.now, v.now)
  {
    hide OnePass, Undisturbed, Elapsed, Fit, Report, StatusAfter, Served, HasBackend, TemplateAt, Resolve, ComponentsOf;
    var w, v := g.w, OnePass(cfg, x, g, fates).g.w;
    ReportPass(cfg, x, g, fates);
    var l :| Report(cfg, x, w.envs[x].status, l, w.now, v.now) && v.envs[x].status == l.env.status && l.env.spec == w.envs[x].spec
      && l.pc == Save(if Served(x, w) then Activated else Waiting) && l.env.status.expirationTime == Some(Deadline(w.envs[x]))
      && (cfg.helm ==> l.resolved == Resolve(w.envs[x].spec, TemplateAt(w, w.envs[x])));
    BackendMeans(x, w);
    BackendExists(x, w);
    ListedMeans(w, w.envs[x]);
    ReportMeans(cfg, x, w, l, v.now);
  }
}

/** What a pass that fails leaves in the status: which step it was, and that it failed. */
module Failures {
  import opened Model
  import opened Discovery
  import opened Store
  import opened Machine
  import opened Progress
  import opened Teardown
  import opened Calls
  import opened Protocol
  import opened Runs
  import opened Pass
  import opened Calm

  /** The text of the step whose call failed. */
  predicate Tells(pc: Pc, text: Message) {
    match pc
    case GetNs | PutNs(_) => text == StepMessage(NamespaceStep)
    case GetStage(st) => TellsStage(st, text)
    case PutStage(st, _) => TellsStage(st, text)
    case ResolveFirst | ResolveAgain | Check(_, _) | Deploy(_, _) => text == HelmMessage
    case _ => false
  }

  predicate TellsStage(st: Stage, text: Message) {
    match st
    case SaStage | RoleStage | BindingStage => text == StepMessage(RbacStep)
    case PolicyStage => text == StepMessage(PolicyStep)
    case GrantStage => text == StepMessage(GrantStep)
    case AppStage => text == StepMessage(RouteStep)
    case AdminStage => false
  }

  predicate HelmCall(pc: Pc) { pc.ResolveFirst? || pc.ResolveAgain? || pc.Check? || pc.Deploy? }

  /** A condition takes a truth value; it keeps its transition time if that is the value it had. */
  predicate Turns(was: Status, s: Status, t: ConditionType, value: bool, now: Time) {
    && t in s.conditions && s.conditions[t].status == value
    && s.conditions[t].since == if t in was.conditions && was.conditions[t].status == value then was.conditions[t].since else now
  }

  predicate Stays(was: Status, s: Status, t: ConditionType) {
    (t in s.conditions <==> t in was.conditions) && (t in s.conditions ==> s.conditions[t] == was.conditions[t])
  }

  /** The status after a failing call, given the one before: Failed with the step's text; after a failing
      Helm call HelmDeployed is False; all else is as it was. */
  predicate FailedAt(pc: Pc, was: Status, s: Status, now: Time) {
    && s.phase == Failed && Tells(pc, s.message)
    && s == was.(phase := Failed, message := s.message, conditions := s.conditions)
    && (HelmCall(pc) ==> Turns(was, s, HelmDeployed, false, now))
    && (forall t :: t != HelmDeployed || !HelmCall(pc) ==> Stays(was, s, t))
  }

  lemma SetMeans(s: Status, t: ConditionType, value: bool, now: Time)
    ensures var r := SetCondition(s, t, value, now);
      r == s.(conditions := r.conditions) && Turns(s, r, t, value, now) && forall u :: u != t ==> Stays(s, r, u)
  {
  }

  lemma HelmFailsAt(l: Local, now: Time)
    requires HelmCall(l.pc)
    ensures var m := FailHelm(l, now); m.pc == Save(StepFailed) && FailedAt(l.pc, l.env.status, m.env.status, now)
  {
    var b := l.env.status.(phase := Failed, message := HelmMessage);
    SetMeans(b, HelmDeployed, false, now);
    var s := FailHelm(l, now).env.status;
    assert s == SetCondition(b, HelmDeployed, false, now);
    hide SetCondition, FailHelm;
    forall t | t != HelmDeployed ensures Stays(l.env.status, s, t) { assert Stays(b, s, t); }
  }

  lemma StageFailsAt(cfg: Config, l: Local, st: Stage, now: Time)
    requires l.pc == GetStage(st) || (l.pc.PutStage? && l.pc.stage == st)
    ensures var m := StageFailed(cfg, l, st, now); m.pc == Save(StepFailed) ==> FailedAt(l.pc, l.env.status, m.env.status, now)
  {
    StageOnward(cfg, l, st, now);
    hide AfterRoutes;
  }

  lemma FailureStage(cfg: Config, x: string, l: Local, r: Reply, now: Time)
    requires l.pc.GetStage? || l.pc.PutStage?
    ensures var m := OnBuilding(cfg, x, l, r, now); m.pc == Save(StepFailed) ==> FailedAt(l.pc, l.env.status, m.env.status, now)
  {
    StageOnward(cfg, l, l.pc.stage, now);
    StageFailsAt(cfg, l, l.pc.stage, now);
    hide StageEnsured, StageFailed, StageObj, FailedAt, Skips;
  }

  lemma FailureResolve(cfg: Config, x: string, l: Local, r: Reply, now: Time)
    requires l.pc.ResolveFirst? || l.pc.ResolveAgain?
    ensures var m := OnBuilding(cfg, x, l, r, now); m.pc == Save(StepFailed) ==> FailedAt(l.pc, l.env.status, m.env.status, now)
  {
    HelmFailsAt(l, now);
    HelmOnward(cfg, l, now);
    hide FailHelm, Resolve, FailedAt, AfterHelm;
  }

  lemma FailureDeploy(cfg: Config, x: string, l: Local, r: Reply, now: Time)
    requires (l.pc.Check? || l.pc.Deploy?) && |l.pc.done| < |l.pc.todo|
    ensures var m := OnBuilding(cfg, x, l, r, now); m.pc == Save(StepFailed) ==> FailedAt(l.pc, l.env.status, m.env.status, now)
  {
    HelmFailsAt(l, now);
    var c := l.pc.todo[|l.pc.done|];
    if l.pc.Check? {
      DeployedLeads(l, l.pc.todo, l.pc.done + [ComponentStatus(c.name, Release(x, "", c).name, AlreadyInstalled)], now);
      hide FailHelm, Release, FailedAt, Deployed, OnInstalled;
    } else {
      var l' := if c.primary then SetStatus(l, l.env.status.(helmRelease := Release(x, "", c).name)) else l;
      DeployedLeads(l', l.pc.todo, l.pc.done + [ComponentStatus(c.name, Release(x, "", c).name, Installed(now))], now);
      hide FailHelm, Release, FailedAt, Deployed, OnChecked;
    }
  }

  /** Whatever the reply: a step that gives up for a failure says which it was. */
  lemma FailureTells(cfg: Config, x: string, l: Local, r: Reply, now: Time)
    requires Sound(cfg, x, l) && Next(cfg, x, l, r, now).pc == Save(StepFailed)
    ensures FailedAt(l.pc, l.env.status, Next(cfg, x, l, r, now).env.status, now)
  {
    hide Built, FailedAt, OnBuilding, OnTearing, Fetched, Begin, NsEnsured, FailStep;
    if Building(l.pc) {
      SoundBuilt(cfg, x, l);
      if l.pc.GetStage? || l.pc.PutStage? { FailureStage(cfg, x, l, r, now); }
      else if l.pc.ResolveFirst? || l.pc.ResolveAgain? { FailureResolve(cfg, x, l, r, now); }
      else if l.pc.Check? || l.pc.Deploy? { FailureGoes(cfg, x, l); FailureDeploy(cfg, x, l, r, now); }
      else { DiscoveryGoesOn(cfg, x, l, r, now); }
    } else if Tearing(l.pc) {
      NextTearing(cfg, x, l, r, now);
    } else {
      NextOpening(cfg, x, l, r, now);
      if l.pc.GetNs? || l.pc.PutNs? { NsEnsuredGoes(x, l, now); FailureNs(l, now); }
      else { NeverFails(x, l, Next(cfg, x, l, r, now), r, now); }
    }
  }

  lemma FailureGoes(cfg: Config, x: string, l: Local)
    requires Built(cfg, x, l) && (l.pc.Check? || l.pc.Deploy?)
    ensures |l.pc.done| < |l.pc.todo|
  {
  }

  lemma NsEnsuredGoes(x: string, l: Local, now: Time)
    ensures NsEnsured(x, l, now).pc.GetStage?
  {
  }

  lemma FailureNs(l: Local, now: Time)
    requires l.pc.GetNs? || l.pc.PutNs?
    ensures FailedAt(l.pc, l.env.status, FailStep(l, NamespaceStep).env.status, now)
  {
  }

  lemma DiscoveryGoesOn(cfg: Config, x: string, l: Local, r: Reply, now: Time)
    requires l.pc.List? || l.pc.AskPrimary?
    ensures OnBuilding(cfg, x, l, r, now).pc != Save(StepFailed)
  {
    hide Matching, Choose, PrimaryName;
  }

  lemma NeverFails(x: string, l: Local, m: Local, r: Reply, now: Time)
    requires Opens(x, l, m, r, now) && !Building(l.pc) && !Tearing(l.pc) && !l.pc.GetNs? && !l.pc.PutNs?
    ensures m.pc != Save(StepFailed)
  {
    hide Stamped;
  }

  // ---------------------------------------------------------------- whole passes

  /** The worker has come here from a call that failed at `pc`, if it is about to say that something failed. */
  ghost predicate Told(pc: Pc, l: Local) {
    l.pc == Save(StepFailed) ==> exists was, now :: FailedAt(pc, was, l.env.status, now)
  }

  lemma MeetTells(cfg: Config, x: string, g: Global, fate: Fate)
    requires Sound(cfg, x, LocalOf(g, x))
    ensures Told(LocalOf(g, x).pc, LocalOf(Meet(cfg, x, g, fate), x))
  {
    hide Meet, Sound, Step, Next, FailedAt, Run;
    MeetLocal(cfg, x, g, fate);
    var h := Disturbed(cfg, x, g, fate);
    StepParts(cfg, x, h.w, LocalOf(g, x), fate.fault);
    if LocalOf(Meet(cfg, x, g, fate), x).pc == Save(StepFailed) {
      FailureTells(cfg, x, LocalOf(g, x), Step(cfg, x, h.w, LocalOf(g, x), fate.fault).reply, h.w.now);
    }
  }

  /** The end of a pass: h is the system at its last call, the status write, and `before` the pc of the call before. */
  ghost predicate EndsFailing(cfg: Config, x: string, h: Global, before: Pc, c: Completion, f: Fault) {
    var l := LocalOf(h, x);
    && c.g == DoWork(cfg, h, x, f) && l.pc == Save(StepFailed)
    && (exists was, now :: FailedAt(before, was, l.env.status, now))
    && (Taken(h.w, x, l.env, f) && x in c.g.w.envs ==> c.g.w.envs[x].status == l.env.status)
  }

  ghost predicate FailedEnd(cfg: Config, x: string, before: Pc, c: Completion, f: Fault) {
    exists h :: EndsFailing(cfg, x, h, before, c, f)
  }

  lemma LastWrite(cfg: Config, x: string, h: Global, before: Pc, f: Fault, c: Completion)
    requires LocalOf(h, x).pc == Save(StepFailed) && Told(before, LocalOf(h, x)) && c.g == DoWork(cfg, h, x, f)
    ensures EndsFailing(cfg, x, h, before, c, f)
  {
    hide Step, FailedAt, Opened;
    WriteOutcome(cfg, x, h.w, LocalOf(h, x), f);
  }

  lemma {:induction false} FailingComplete(cfg: Config, x: string, g: Global, fates: seq<Fate>, before: Pc)
    requires Sound(cfg, x, LocalOf(g, x)) && !LocalOf(g, x).pc.Idle? && Told(before, LocalOf(g, x))
    ensures var c := Complete(cfg, x, g, fates); var n := |c.calls|;
      && n > 0 && c.calls[0].pc == LocalOf(g, x).pc
      && (c.calls[n - 1].pc == Save(StepFailed) ==>
            FailedEnd(cfg, x, if n > 1 then c.calls[n - 2].pc else before, c, c.calls[n - 1].fault))
    decreases Part(LocalOf(g, x).pc), Ahead(LocalOf(g, x)), Turn(LocalOf(g, x).pc), Left(LocalOf(g, x))
  {
    hide Meet, Sound, Told, EndsFailing, Part, Ahead, Turn, Left, Run, DoWork;
    var fate, here := NextFate(fates), LocalOf(g, x);
    var h := Meet(cfg, x, g, fate);
    MeetMoves(cfg, x, g, fate);
    MeetTells(cfg, x, g, fate);
    var c, d := Complete(cfg, x, g, fates), Complete(cfg, x, h, LaterFates(fates));
    if LocalOf(h, x).pc.Idle? {
      assert d.calls == [] && c.calls == [Moment(here.pc, fate.fault)];
      if here.pc == Save(StepFailed) {
        OthersKeepLocal(cfg, x, g, fate.before);
        var k := Disturbed(cfg, x, g, fate);
        assert c.g == h == DoWork(cfg, k, x, fate.fault) by { MeetIs(cfg, x, g, fate); }
        LastWrite(cfg, x, k, before, fate.fault, c);
        assert FailedEnd(cfg, x, before, c, fate.fault);
      }
    } else {
      FailingComplete(cfg, x, h, LaterFates(fates), here.pc);
      assert c.calls == [Moment(here.pc, fate.fault)] + d.calls && c.g == d.g;
      if c.calls[|c.calls| - 1].pc == Save(StepFailed) {
        var n := |d.calls|;
        SameEnding(cfg, x, if n > 1 then d.calls[n - 2].pc else here.pc, c, d, d.calls[n - 1].fault);
      }
    }
  }

  lemma MeetIs(cfg: Config, x: string, g: Global, fate: Fate)
    ensures Meet(cfg, x, g, fate) == DoWork(cfg, Disturbed(cfg, x, g, fate), x, fate.fault)
  {
  }

  lemma SameEnding(cfg: Config, x: string, before: Pc, c: Completion, d: Completion, f: Fault)
    requires FailedEnd(cfg, x, before, d, f) && c.g == d.g
    ensures FailedEnd(cfg, x, before, c, f)
  {
    hide FailedAt, DoWork;
    var h :| EndsFailing(cfg, x, h, before, d, f);
    assert EndsFailing(cfg, x, h, before, c, f);
  }

  /** A pass that ends by storing a failure, whatever happened in it: if the write was accepted, the stored
      status is Failed with the text of the step whose call came just before, and after a Helm call with
      HelmDeployed False. */
  lemma {:induction false} PassTellsFailure(cfg: Config, x: string, g: Global, fates: seq<Fate>)
    requires LocalOf(g, x).pc.Idle?
    requires var calls := OnePass(cfg, x, g, fates).calls; calls != [] && calls[|calls| - 1].pc == Save(StepFailed)
    ensures var c := OnePass(cfg, x, g, fates); var n := |c.calls|;
      n > 1 && FailedEnd(cfg, x, c.calls[n - 2].pc, c, c.calls[n - 1].fault)
  {
    hide Meet, Sound, Told, EndsFailing, Complete;
    var fate := NextFate(fates);
    var h := Meet(cfg, x, g, fate);
    IdleSound(cfg, x, LocalOf(g, x));
    MeetMoves(cfg, x, g, fate);
    MeetTells(cfg, x, g, fate);
    var c, d := OnePass(cfg, x, g, fates), Complete(cfg, x, h, LaterFates(fates));
    if LocalOf(h, x).pc.Idle? {
      IdleEnds(cfg, x, h, LaterFates(fates));
    } else {
      FailingComplete(cfg, x, h, LaterFates(fates), LocalOf(g, x).pc);
      var n := |d.calls|;
      SameEnding(cfg, x, if n > 1 then d.calls[n - 2].pc else LocalOf(g, x).pc, c, d, d.calls[n - 1].fault);
    }
  }

  lemma IdleEnds(cfg: Config, x: string, g: Global, fates: seq<Fate>)
    requires Sound(cfg, x, LocalOf(g, x)) && LocalOf(g, x).pc.Idle?
    ensures Complete(cfg, x, g, fates).calls == []
  {
  }
}

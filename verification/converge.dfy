/** How a pass ends that only its own faulty calls disturb, and one that none disturbs. */
module Converge {
  import opened Model
  import opened Store
  import opened Machine
  import opened Progress
  import opened Teardown
  import opened Calls
  import opened Protocol
  import opened Runs
  import opened Pass
  import opened Backing
  import opened Calm
  import opened Faultless

  /** A pass may begin: the worker is idle and the environment neither deleted nor, for as long as the
      given fates take, expired. */
  ghost predicate Willing(x: string, g: Global, fates: seq<Fate>) {
    && LocalOf(g, x).pc.Idle? && Undisturbed(fates)
    && Standing(x, g.w) && g.w.now + Elapsed(fates) <= Deadline(g.w.envs[x])
  }

  ghost predicate Startable(cfg: Config, x: string, g: Global, fates: seq<Fate>) {
    Willing(x, g, fates) && Fit(cfg, x, g.w)
  }

  lemma WillingUnderway(cfg: Config, x: string, g: Global, fates: seq<Fate>)
    ensures Willing(x, g, fates) <==> Underway(cfg, x, g, fates) && LocalOf(g, x).pc.Idle?
  {
  }

  /** With any faults: the pass ends where another one may begin. */
  lemma {:induction false} CalmComplete(cfg: Config, x: string, g: Global, fates: seq<Fate>)
    requires Underway(cfg, x, g, fates) && Sound(cfg, x, LocalOf(g, x))
    ensures var c := Complete(cfg, x, g, fates);
      Willing(x, c.g, c.rest) && Kin(x, g.w, c.g.w) && Faults(c.rest) <= Faults(fates)
      && c.g.w.now + Elapsed(c.rest) == g.w.now + Elapsed(fates)
    decreases Part(LocalOf(g, x).pc), Ahead(LocalOf(g, x)), Turn(LocalOf(g, x).pc), Left(LocalOf(g, x))
  {
    hide Meet, Underway, Sound, Kin, Willing, Part, Ahead, Turn, Left;
    if LocalOf(g, x).pc.Idle? {
      WillingUnderway(cfg, x, g, fates);
      KinSelf(cfg, x, g, fates);
    } else {
      var h := Meet(cfg, x, g, NextFate(fates));
      MeetMoves(cfg, x, g, NextFate(fates));
      CalmStep(cfg, x, g, fates);
      CalmComplete(cfg, x, h, LaterFates(fates));
      KinTrans(x, g.w, h.w, Complete(cfg, x, h, LaterFates(fates)).g.w);
    }
  }

  lemma KinSelf(cfg: Config, x: string, g: Global, fates: seq<Fate>)
    requires Underway(cfg, x, g, fates)
    ensures Kin(x, g.w, g.w)
  {
    hide Deadline, Open;
    assert g.w.envs[x].status == g.w.envs[x].status;
  }

  /** The state just before the last call of a pass in which no call failed. */
  ghost predicate Finale(cfg: Config, x: string, v: World, l: Local, c: Completion) {
    && Clean(cfg, x, v, l) && Fit(cfg, x, v) && l.pc.Save?
    && c.g.w == Step(cfg, x, v, l, NoFault).w
    && c.calls != [] && c.calls[|c.calls| - 1] == Moment(l.pc, NoFault)
  }

  lemma {:induction false} CleanComplete(cfg: Config, x: string, g: Global, fates: seq<Fate>) returns (v: World, l: Local)
    requires Underway(cfg, x, g, fates) && Fit(cfg, x, g.w) && Clean(cfg, x, g.w, LocalOf(g, x)) && Sound(cfg, x, LocalOf(g, x))
    requires Faults(Complete(cfg, x, g, fates).rest) == Faults(fates)
    ensures Finale(cfg, x, v, l, Complete(cfg, x, g, fates)) && Kin(x, g.w, v)
    ensures Restrained(cfg, x, g.w, v)
    decreases Part(LocalOf(g, x).pc), Ahead(LocalOf(g, x)), Turn(LocalOf(g, x).pc), Left(LocalOf(g, x))
  {
    hide Meet, Underway, Sound, Kin, Willing, Clean, Step, Fit, Restrained;
    var fate := NextFate(fates);
    var h := Meet(cfg, x, g, fate);
    var here := LocalOf(g, x);
    assert !here.pc.Idle? by { CleanActs(cfg, x, g.w, here); }
    MeetMoves(cfg, x, g, fate);
    CalmStep(cfg, x, g, fates);
    CalmComplete(cfg, x, h, LaterFates(fates));
    KinFit(cfg, x, g.w, h.w);
    assert fate.fault.NoFault?;
    v, l := Later(g.w, Seconds(fate.before)), here;
    assert Clean(cfg, x, v, l) && Fit(cfg, x, v) && Kin(x, g.w, v) && x in v.envs && v.now <= Deadline(v.envs[x]) by { CleanLater(cfg, x, g, fates); }
    assert h.w == Step(cfg, x, v, l, NoFault).w && LocalOf(h, x) == Step(cfg, x, v, l, NoFault).l by { UnderwayTicks(cfg, x, g, fates); CalmMeet(cfg, x, g, fate); }
    if l.pc.Save? {
      SaveEnds(cfg, x, v, l);
      LaterRestrained(cfg, x, g.w, v);
      hide Part, Ahead, Turn, Left;
    } else {
      CleanActs(cfg, x, v, l);
      CleanRestrained(cfg, x, g.w, v, l, h.w);
      assert Clean(cfg, x, h.w, LocalOf(h, x)) by {
        if Building(l.pc) { CleanBuilding(cfg, x, v, l); } else { CleanTrack(cfg, x, v, l); CleanOpening(cfg, x, v, l); }
      }
      hide Part, Ahead, Turn, Left;
      v, l := CleanComplete(cfg, x, h, LaterFates(fates));
      KinTrans(x, g.w, h.w, v);
      RestrainedTrans(cfg, x, g.w, h.w, v);
    }
  }

  lemma LaterRestrained(cfg: Config, x: string, w: World, v: World)
    requires Kin(x, w, v) && v.objs == w.objs && v.releases == w.releases && v.namespaces == w.namespaces
    ensures Restrained(cfg, x, w, v)
  {
    hide Served, TemplateAt, Release, NsName, ObjsGrown, NsGrown;
    SameGrown(cfg, x, w, v);
    NsKeptGrown(x, w, v);
  }

  lemma CleanActs(cfg: Config, x: string, w: World, l: Local)
    requires Clean(cfg, x, w, l)
    ensures !l.pc.Idle? && (l.pc.AddFinalizer? || l.pc.Refetch? || Creating(l.pc))
  {
  }

  lemma CleanTrack(cfg: Config, x: string, w: World, l: Local)
    requires Clean(cfg, x, w, l)
    ensures OnTrack(cfg, x, w, l)
  {
  }

  lemma UnderwayTicks(cfg: Config, x: string, g: Global, fates: seq<Fate>)
    requires Underway(cfg, x, g, fates)
    ensures Ticks(NextFate(fates).before)
  {
  }

  lemma CleanLater(cfg: Config, x: string, g: Global, fates: seq<Fate>)
    requires Underway(cfg, x, g, fates)
    ensures var v := Later(g.w, Seconds(NextFate(fates).before));
      && (Fit(cfg, x, g.w) ==> Fit(cfg, x, v)) && Kin(x, g.w, v) && Standing(x, v) && v.now <= Deadline(v.envs[x]) && OnTrack(cfg, x, v, LocalOf(g, x))
      && (Clean(cfg, x, g.w, LocalOf(g, x)) ==> Clean(cfg, x, v, LocalOf(g, x)))
  {
    hide OnTrack, Knows, Placed, AdminInPlace, Raised, Open, Able, Kin, Parses;
    LaterTrack(cfg, x, g.w, LocalOf(g, x), Seconds(NextFate(fates).before));
    KinDeadline(x, g.w, Later(g.w, Seconds(NextFate(fates).before)));
    if Fit(cfg, x, g.w) { KinFit(cfg, x, g.w, Later(g.w, Seconds(NextFate(fates).before))); }
    hide Fit;
    SameTemplates(g.w, Later(g.w, Seconds(NextFate(fates).before)), g.w.envs[x]);
    hide TemplateAt;
  }

  lemma SaveEnds(cfg: Config, x: string, w: World, l: Local)
    requires l.pc.Save?
    ensures Step(cfg, x, w, l, NoFault).l.pc.Idle?
  {
    hide Next, Step;
    StepParts(cfg, x, w, l, NoFault);
    NextOpening(cfg, x, l, Step(cfg, x, w, l, NoFault).reply, w.now);
  }

  // ---------------------------------------------------------------- passes

  lemma CalmPass(cfg: Config, x: string, g: Global, fates: seq<Fate>)
    requires Willing(x, g, fates)
    ensures var c := OnePass(cfg, x, g, fates);
      && Willing(x, c.g, c.rest) && Kin(x, g.w, c.g.w) && Faults(c.rest) <= Faults(fates)
      && (Fit(cfg, x, g.w) ==> Fit(cfg, x, c.g.w))
  {
    hide Meet, Kin, Fit, Underway, Sound, Undisturbed, Elapsed;
    WillingUnderway(cfg, x, g, fates);
    CalmStep(cfg, x, g, fates);
    var h := Meet(cfg, x, g, NextFate(fates));
    CalmComplete(cfg, x, h, LaterFates(fates));
    var c := Complete(cfg, x, h, LaterFates(fates));
    KinTrans(x, g.w, h.w, c.g.w);
    if Fit(cfg, x, g.w) { KinFit(cfg, x, g.w, c.g.w); }
    hide Willing;
  }

  lemma CleanPass(cfg: Config, x: string, g: Global, fates: seq<Fate>) returns (v: World, l: Local)
    requires Startable(cfg, x, g, fates) && Faults(OnePass(cfg, x, g, fates).rest) == Faults(fates)
    ensures Finale(cfg, x, v, l, OnePass(cfg, x, g, fates)) && Kin(x, g.w, v)
    ensures Restrained(cfg, x, g.w, v)
  {
    hide Meet, Kin, Fit, Underway, Sound, Undisturbed, Elapsed, Clean, Step, OnTrack, Restrained;
    WillingUnderway(cfg, x, g, fates);
    CalmStep(cfg, x, g, fates);
    var fate := NextFate(fates);
    var h := Meet(cfg, x, g, fate);
    CalmComplete(cfg, x, h, LaterFates(fates));
    var u := Later(g.w, Seconds(fate.before));
    CleanLater(cfg, x, g, fates);
    assert fate.fault.NoFault?;
    assert h.w == Step(cfg, x, u, LocalOf(g, x), NoFault).w && LocalOf(h, x) == Step(cfg, x, u, LocalOf(g, x), NoFault).l by { UnderwayTicks(cfg, x, g, fates); CalmMeet(cfg, x, g, fate); }
    CleanOpening(cfg, x, u, LocalOf(g, x));
    KinFit(cfg, x, g.w, h.w);
    CleanRestrained(cfg, x, g.w, u, LocalOf(g, x), h.w);
    hide Willing, LocalOf;
    v, l := CleanComplete(cfg, x, h, LaterFates(fates));
    KinTrans(x, g.w, h.w, v);
    RestrainedTrans(cfg, x, g.w, h.w, v);
  }

  /** The pass ended by storing phase Active. */
  predicate Activates(x: string, c: Completion) {
    && c.calls != []
    && var last := c.calls[|c.calls| - 1];
    && last.pc == Save(Activated) && (last.fault.NoFault? || last.fault.AnswerLost?)
    && x in c.g.w.envs && c.g.w.envs[x].status.phase == Active
  }

  /** The last write of a pass without faults is taken, and stores the worker's copy of the status. */
  lemma FinaleStores(cfg: Config, x: string, v: World, l: Local, c: Completion)
    requires Finale(cfg, x, v, l, c)
    ensures x in v.envs && x in c.g.w.envs && c.g.w == v.(envs := c.g.w.envs, nextVersion := c.g.w.nextVersion)
    ensures c.g.w.envs[x] == v.envs[x].(status := l.env.status, resourceVersion := c.g.w.envs[x].resourceVersion)
    ensures Kin(x, v, c.g.w) && l.env.spec == v.envs[x].spec && l.env.status.expirationTime == Some(Deadline(v.envs[x]))
    ensures l.pc == Save(Activated) ==> Activates(x, c)
    ensures l.pc == Save(Activated) || (l.pc == Save(Waiting) && l.env.status.message == WaitingMessage && Backend(v.envs[x].spec, ServicesAt(v, x), TemplateAt(v, v.envs[x])).None?)
  {
    hide Step, Placed, AdminInPlace, TemplateAt, ServicesAt, Backend, Parses, NsName, Raised;
    WriteOutcome(cfg, x, v, l, NoFault);
    assert Current(v, x, l.env) && l.env.spec == v.envs[x].spec by { TrackFresh(cfg, x, v, l); }
    if l.pc == Save(Activated) { TrackActive(cfg, x, v, l); }
    hide OnTrack;
  }

  lemma TrackFresh(cfg: Config, x: string, w: World, l: Local)
    requires OnTrack(cfg, x, w, l) && l.pc.Save?
    ensures Fresh(w, x, l) && Current(w, x, l.env)
  {
  }

  lemma TrackActive(cfg: Config, x: string, w: World, l: Local)
    requires OnTrack(cfg, x, w, l) && l.pc == Save(Activated)
    ensures l.env.status.phase == Active && Built(cfg, x, l)
  {
  }
}

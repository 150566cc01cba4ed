/** Whole passes. However its calls fare and whatever others do between them, every pass ends. */
module Pass {
  import opened Model
  import opened Discovery
  import opened Store
  import opened Machine
  import opened Progress
  import opened Teardown
  import opened Calls
  import opened Protocol

  // ---------------------------------------------------------------- the measure

  /** Which part of a pass a point belongs to; a pass only moves down. */
  function Part(pc: Pc): nat {
    if pc.Idle? then 0
    else if pc.Save? || pc.SaveExpired? || pc.DropFinalizer? then 1
    else if Tearing(pc) then 2
    else if Building(pc) then 3
    else if pc.PutNs? then 4
    else if pc.GetNs? then 5
    else if pc.Refetch? then 6
    else 7
  }

  function Left(l: Local): nat {
    match l.pc
    case Check(todo, done) => if |done| <= |todo| then 2 * (|todo| - |done|) + 1 else 0
    case Deploy(todo, done) => if |done| <= |todo| then 2 * (|todo| - |done|) else 0
    case CheckTracked(_, i) => if i < |l.env.status.components| then 2 * (|l.env.status.components| - i) + 1 else 0
    case DelTracked(_, i) => if i < |l.env.status.components| then 2 * (|l.env.status.components| - i) else 0
    case _ => 0
  }

  function Turn(pc: Pc): nat {
    match pc
    case ResolveFirst => 6
    case ResolveAgain => 5
    case Check(_, _) => 4
    case Deploy(_, _) => 4
    case List => 4
    case AskPrimary(_) => 3
    case GetStage(_) => 2
    case PutStage(_, _) => 1
    case GetAdmin => 9
    case DelAdmin => 8
    case GetRoute(_) => 7
    case DelRoute(_) => 6
    case CheckTracked(_, _) => 5
    case DelTracked(_, _) => 5
    case CheckLegacy(_) => 5
    case DelLegacy(_) => 4
    case FindNs(_) => 3
    case DelNs(_) => 2
    case _ => 0
  }

  function Ahead(l: Local): nat { if Building(l.pc) && Passed(l) <= 10 then 10 - Passed(l) else 0 }

  /** Strictly closer to the end of the pass. */
  predicate Closer(m: Local, l: Local) {
    if Part(m.pc) != Part(l.pc) then Part(m.pc) < Part(l.pc)
    else if Ahead(m) != Ahead(l) then Ahead(m) < Ahead(l)
    else if Turn(m.pc) != Turn(l.pc) then Turn(m.pc) < Turn(l.pc)
    else Left(m) < Left(l)
  }

  lemma CloserBuilding(cfg: Config, x: string, l: Local, r: Reply, now: Time)
    requires Built(cfg, x, l) && Building(l.pc)
    ensures Closer(Next(cfg, x, l, r, now), l)
  {
    hide OnChecked, OnInstalled, StageEnsured, StageFailed, StageObj, Resolve, ResolvedFirst, ResolvedAgain, Deployed, FailHelm, Listed, Chosen, OnTearing, Fetched, Begin, Lands, Ready;
    match l.pc
    case GetStage(st) => StageMoves(cfg, x, l, st, now);
    case PutStage(st, _) => StageMoves(cfg, x, l, st, now);
    case ResolveFirst | ResolveAgain => ResolveMoves(cfg, x, l, r, now);
    case Check(_, _) => CheckMoves(cfg, x, l, r, now);
    case Deploy(_, _) => InstallMoves(cfg, x, l, r, now);
    case _ => ServiceMoves(cfg, x, l, r, now);
  }

  lemma StageMoves(cfg: Config, x: string, l: Local, st: Stage, now: Time)
    requires Built(cfg, x, l) && ((l.pc.GetStage? && l.pc.stage == st) || (l.pc.PutStage? && l.pc.stage == st))
    ensures Closer(StageEnsured(cfg, l, st, now), l) && Closer(StageFailed(cfg, l, st, now), l)
  {
    hide StageEnsured, StageFailed, HelmReported, ServiceChosen;
    StageOver(cfg, x, l, st, now);
    StageGivenUp(cfg, x, l, st, now);
    hide Built, Needed, HelmFlag, Claimed, Kept;
  }

  lemma ResolveMoves(cfg: Config, x: string, l: Local, r: Reply, now: Time)
    requires Built(cfg, x, l) && (l.pc.ResolveFirst? || l.pc.ResolveAgain?)
    ensures Closer(OnBuilding(cfg, x, l, r, now), l)
  {
    var cs := Resolve(l.env.spec, TemplateOf(r));
    assert Resolvable(l.env.spec, cs);
    FirstResolved(cfg, x, l, cs, now);
    SecondResolved(cfg, x, l, cs, now);
    hide ResolvedFirst, ResolvedAgain, Built, Needed, HelmFlag, Claimed, Resolve;
  }

  lemma CheckMoves(cfg: Config, x: string, l: Local, r: Reply, now: Time)
    requires Built(cfg, x, l) && l.pc.Check?
    ensures Closer(OnChecked(x, l, l.pc.todo, l.pc.done, r, now), l)
  {
    hide Deployed, FailHelm, Reports, HelmReported, Resolvable, Release, ServiceChosen;
    var todo, done := l.pc.todo, l.pc.done;
    var c := todo[|done|];
    OneDeployed(cfg, x, l, todo, done, ComponentStatus(c.name, Release(x, "", c).name, AlreadyInstalled), now);
    HelmFails(cfg, x, l, now, 0);
    hide Built, Needed, HelmFlag, Claimed, Kept, Lands;
  }

  lemma InstallMoves(cfg: Config, x: string, l: Local, r: Reply, now: Time)
    requires Built(cfg, x, l) && l.pc.Deploy?
    ensures Closer(OnInstalled(x, l, l.pc.todo, l.pc.done, r, now), l)
  {
    hide Deployed, FailHelm, Reports, HelmReported, Resolvable, Release, ServiceChosen;
    var todo, done := l.pc.todo, l.pc.done;
    var c := todo[|done|];
    var l' := if c.primary then SetStatus(l, l.env.status.(helmRelease := Release(x, "", c).name)) else l;
    OneDeployed(cfg, x, l', todo, done, ComponentStatus(c.name, Release(x, "", c).name, Installed(now)), now);
    HelmFails(cfg, x, l, now, 0);
    hide Built, Needed, HelmFlag, Claimed, Kept, Lands;
  }

  lemma ServiceMoves(cfg: Config, x: string, l: Local, r: Reply, now: Time)
    requires Built(cfg, x, l) && (l.pc.List? || l.pc.AskPrimary?)
    ensures Closer(OnBuilding(cfg, x, l, r, now), l)
  {
    hide Listed, Chosen, Built, Lands, OnStageRead, OnStageWritten, OnChecked, OnInstalled, ResolvedFirst, ResolvedAgain, Resolve;
    if l.pc.List? && r.SomeServices? { ServicesListed(cfg, x, l, r.services); }
    if l.pc.AskPrimary? { PrimaryAsked(cfg, x, l, TemplateOf(r)); }
  }

  lemma CloserTearing(cfg: Config, l: Local, r: Reply, now: Time)
    requires Tearing(l.pc) && (l.pc.CheckTracked? || l.pc.DelTracked? ==> l.pc.i < |l.env.status.components|)
    ensures Closer(OnTearing(cfg, l, r, now), l)
  {
    hide NextTracked;
    if l.pc.CheckTracked? || l.pc.DelTracked? { TrackedAhead(l.env.status.components, l.pc.i + 1); }
  }

  lemma TrackedAhead(cs: seq<ComponentStatus>, i: nat)
    ensures NextTracked(cs, i) >= i
    decreases |cs| - i
  {
  }

  lemma CloserOpening(cfg: Config, x: string, l: Local, r: Reply, now: Time)
    requires !Building(l.pc) && !Tearing(l.pc) && !l.pc.Idle?
    requires l.pc.GetNs? || l.pc.PutNs? ==> l.env.status.expirationTime.Some? && l.resolved == []
    ensures Closer(Next(cfg, x, l, r, now), l)
  {
    hide Next, Built, NsEnsured, FailStep, Ahead;
    NextOpening(cfg, x, l, r, now);
    if l.pc.GetNs? || l.pc.PutNs? { NsEnsuredBuilt(cfg, x, l, now); }
  }

  lemma NextCloser(cfg: Config, x: string, l: Local, r: Reply, now: Time)
    requires Sound(cfg, x, l) && !l.pc.Idle?
    ensures Closer(Next(cfg, x, l, r, now), l)
  {
    hide Built, Closer, OnTearing, OnBuilding, Fetched, Begin;
    if Building(l.pc) { CloserBuilding(cfg, x, l, r, now); }
    else if Tearing(l.pc) { CloserTearing(cfg, l, r, now); }
    else { CloserOpening(cfg, x, l, r, now); }
  }

  // ---------------------------------------------------------------- a pass

  /** What meets a call: the events since the previous one, and how the call itself goes wrong. */
  datatype Fate = Fate(before: seq<Event>, fault: Fault)

  datatype Moment = Moment(pc: Pc, fault: Fault)

  /** After a pass: the state, the fates not used up, and the calls made. */
  datatype Completion = Completion(g: Global, rest: seq<Fate>, calls: seq<Moment>)

  /** Passes for one resource are serialized: its own worker does not interfere with itself. */
  function Others(x: string, es: seq<Event>): seq<Event> {
    if es == [] then []
    else Others(x, es[..|es| - 1]) + (if es[|es| - 1].Work? && es[|es| - 1].x == x then [] else [es[|es| - 1]])
  }

  function NextFate(fates: seq<Fate>): Fate { if fates == [] then Fate([], NoFault) else fates[0] }
  function LaterFates(fates: seq<Fate>): seq<Fate> { if fates == [] then [] else fates[1..] }

  function Disturbed(cfg: Config, x: string, g: Global, fate: Fate): Global {
    Run(cfg, g, Others(x, fate.before))
  }

  /** The next call of x's worker, after whatever happened before it. */
  function Meet(cfg: Config, x: string, g: Global, fate: Fate): Global {
    DoWork(cfg, Disturbed(cfg, x, g, fate), x, fate.fault)
  }

  lemma OtherKeepsLocal(cfg: Config, x: string, g: Global, e: Event)
    requires !(e.Work? && e.x == x)
    ensures LocalOf(Apply(cfg, g, e), x) == LocalOf(g, x)
  {
    hide Step, Ambient, Opened, Exec, Credit, Accepted;
  }

  lemma {:induction false} OthersKeepLocal(cfg: Config, x: string, g: Global, es: seq<Event>)
    ensures LocalOf(Run(cfg, g, Others(x, es)), x) == LocalOf(g, x)
  {
    hide Apply;
    if es != [] {
      var before, e := es[..|es| - 1], es[|es| - 1];
      OthersKeepLocal(cfg, x, g, before);
      if e.Work? && e.x == x {
        assert Others(x, es) == Others(x, before);
      } else {
        RunSnoc(cfg, g, Others(x, before), e);
        OtherKeepsLocal(cfg, x, Run(cfg, g, Others(x, before)), e);
      }
    }
  }

  lemma MeetLocal(cfg: Config, x: string, g: Global, fate: Fate)
    ensures var h := Disturbed(cfg, x, g, fate);
      && LocalOf(h, x) == LocalOf(g, x)
      && LocalOf(Meet(cfg, x, g, fate), x) == Step(cfg, x, h.w, LocalOf(g, x), fate.fault).l
      && Meet(cfg, x, g, fate).w == Step(cfg, x, h.w, LocalOf(g, x), fate.fault).w
  {
    hide Step, Run;
    OthersKeepLocal(cfg, x, g, fate.before);
  }

  lemma MeetMoves(cfg: Config, x: string, g: Global, fate: Fate)
    requires Sound(cfg, x, LocalOf(g, x))
    ensures var m := LocalOf(Meet(cfg, x, g, fate), x);
      Sound(cfg, x, m) && (!LocalOf(g, x).pc.Idle? ==> Closer(m, LocalOf(g, x)))
  {
    hide Step, Run, Sound, Closer, Next, Meet;
    MeetLocal(cfg, x, g, fate);
    var h := Disturbed(cfg, x, g, fate);
    StepParts(cfg, x, h.w, LocalOf(g, x), fate.fault);
    var r := Step(cfg, x, h.w, LocalOf(g, x), fate.fault).reply;
    NextSound(cfg, x, LocalOf(g, x), r, h.w.now);
    if !LocalOf(g, x).pc.Idle? { NextCloser(cfg, x, LocalOf(g, x), r, h.w.now); }
  }

  /** Run the pass on to its end. The recursion is well-founded: every step comes `Closer`. */
  ghost function Complete(cfg: Config, x: string, g: Global, fates: seq<Fate>): (c: Completion)
    requires Sound(cfg, x, LocalOf(g, x))
    ensures LocalOf(c.g, x).pc.Idle?
    decreases Part(LocalOf(g, x).pc), Ahead(LocalOf(g, x)), Turn(LocalOf(g, x).pc), Left(LocalOf(g, x))
  {
    if LocalOf(g, x).pc.Idle? then Completion(g, fates, [])
    else
      MeetMoves(cfg, x, g, NextFate(fates));
      var c := Complete(cfg, x, Meet(cfg, x, g, NextFate(fates)), LaterFates(fates));
      c.(calls := [Moment(LocalOf(g, x).pc, NextFate(fates).fault)] + c.calls)
  }

  /** One pass of x's worker, from idle to idle. */
  ghost function OnePass(cfg: Config, x: string, g: Global, fates: seq<Fate>): (c: Completion)
    requires LocalOf(g, x).pc.Idle?
    ensures LocalOf(c.g, x).pc.Idle?
  {
    MeetMoves(cfg, x, g, NextFate(fates));
    var c := Complete(cfg, x, Meet(cfg, x, g, NextFate(fates)), LaterFates(fates));
    c.(calls := [Moment(LocalOf(g, x).pc, NextFate(fates).fault)] + c.calls)
  }

  /** The n-th of consecutive passes, counted from 0. */
  ghost function Nth(cfg: Config, x: string, g: Global, fates: seq<Fate>, n: nat): Completion
    requires LocalOf(g, x).pc.Idle?
    decreases n
  {
    var c := OnePass(cfg, x, g, fates);
    if n == 0 then c else Nth(cfg, x, c.g, c.rest, n - 1)
  }

  // ---------------------------------------------------------------- passes are runs

  /** The events of the first n calls of a pass. */
  function Script(x: string, fates: seq<Fate>, n: nat): seq<Event> {
    if n == 0 then []
    else Others(x, NextFate(fates).before) + [Work(x, NextFate(fates).fault)] + Script(x, LaterFates(fates), n - 1)
  }

  function Spent(fates: seq<Fate>, n: nat): seq<Fate> {
    if n == 0 then fates else Spent(LaterFates(fates), n - 1)
  }

  lemma MeetIsRun(cfg: Config, x: string, g: Global, fate: Fate)
    ensures Meet(cfg, x, g, fate) == Run(cfg, g, Others(x, fate.before) + [Work(x, fate.fault)])
  {
    hide Step, Run, DoWork;
    RunSnoc(cfg, g, Others(x, fate.before), Work(x, fate.fault));
  }

  lemma {:induction false} CompleteIsRun(cfg: Config, x: string, g: Global, fates: seq<Fate>)
    requires Sound(cfg, x, LocalOf(g, x))
    ensures var c := Complete(cfg, x, g, fates);
      c.g == Run(cfg, g, Script(x, fates, |c.calls|)) && c.rest == Spent(fates, |c.calls|)
    decreases Part(LocalOf(g, x).pc), Ahead(LocalOf(g, x)), Turn(LocalOf(g, x).pc), Left(LocalOf(g, x))
  {
    hide Run, Meet, Sound, Part, Ahead, Turn, Left;
    if LocalOf(g, x).pc.Idle? {
      assert Run(cfg, g, []) == g by { RunNothing(cfg, g); }
    } else {
      var h := Meet(cfg, x, g, NextFate(fates));
      MeetMoves(cfg, x, g, NextFate(fates));
      CompleteIsRun(cfg, x, h, LaterFates(fates));
      MeetIsRun(cfg, x, g, NextFate(fates));
      var first := Others(x, NextFate(fates).before) + [Work(x, NextFate(fates).fault)];
      RunConcat(cfg, g, first, Script(x, LaterFates(fates), |Complete(cfg, x, h, LaterFates(fates)).calls|));
    }
  }

  /** A pass is a run of the protocol: what holds in every run holds at each of its calls and at its end. */
  lemma PassIsRun(cfg: Config, x: string, g: Global, fates: seq<Fate>)
    requires LocalOf(g, x).pc.Idle?
    ensures var c := OnePass(cfg, x, g, fates);
      && |c.calls| > 0 && c.g == Run(cfg, g, Script(x, fates, |c.calls|)) && c.rest == Spent(fates, |c.calls|)
      && LocalOf(c.g, x).pc.Idle?
  {
    hide Run, Meet, Sound;
    var h := Meet(cfg, x, g, NextFate(fates));
    assert Sound(cfg, x, LocalOf(h, x)) by { IdleSound(cfg, x, LocalOf(g, x)); MeetMoves(cfg, x, g, NextFate(fates)); }
    CompleteIsRun(cfg, x, h, LaterFates(fates));
    MeetIsRun(cfg, x, g, NextFate(fates));
    var first := Others(x, NextFate(fates).before) + [Work(x, NextFate(fates).fault)];
    RunConcat(cfg, g, first, Script(x, LaterFates(fates), |Complete(cfg, x, h, LaterFates(fates)).calls|));
  }

  lemma IdleSound(cfg: Config, x: string, l: Local)
    requires l.pc.Idle?
    ensures Sound(cfg, x, l)
  {
  }
}

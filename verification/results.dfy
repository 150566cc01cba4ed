/** With what result a pass ends, and what an expiry pass stores. */
module Results {
  import opened Model
  import opened Discovery
  import opened Store
  import opened Machine
  import opened Progress
  import opened Teardown
  import opened Calls
  import opened Protocol
  import opened Scope
  import opened Runs
  import opened Pass

  /** When a pass that ended with this call asks to be called again, and whether it reports an error. */
  predicate EndsWith(pc: Pc, expiry: Option<Time>, answered: bool, gone: bool, now: Time, result: PassResult) {
    match pc
    case Idle(_) => result == PassResult(0, !gone)
    case AddFinalizer | Refetch => result == PassResult(0, true)
    case Save(StepFailed) => result == PassResult(0, true)
    case Save(Waiting) => result == PassResult(5, false)
    case Save(Activated) =>
      if answered && expiry.Some? then result == PassResult(if now <= expiry.value then expiry.value - now else 1, false) else result == PassResult(0, true)
    case FindNs(_) | DelNs(_) => result == PassResult(5, true)
    case DropFinalizer => result == PassResult(0, !answered)
    case SaveExpired(cleaned) => result == if cleaned then PassResult(0, !answered) else PassResult(30, true)
    case _ => false
  }

  lemma BuildingGoesOn(cfg: Config, x: string, l: Local, r: Reply, now: Time)
    requires Built(cfg, x, l) && Building(l.pc)
    ensures !Next(cfg, x, l, r, now).pc.Idle?
  {
    hide Next, Built;
    NextBuilding(cfg, x, l, r, now);
  }

  lemma EndMeans(cfg: Config, x: string, l: Local, r: Reply, now: Time)
    requires !Building(l.pc) && Next(cfg, x, l, r, now).pc.Idle?
    ensures EndsWith(l.pc, l.env.status.expirationTime, r.Done?, r.NotFound? || r.AnEnv?, now, Next(cfg, x, l, r, now).pc.last)
  {
    hide OnBuilding, SetCondition;
    if Tearing(l.pc) { NextTearing(cfg, x, l, r, now); }
  }

  /** The state of the system at the last call of a pass. */
  ghost predicate LastCall(cfg: Config, x: string, h: Global, c: Completion, m: Moment) {
    c.g == DoWork(cfg, h, x, m.fault) && LocalOf(h, x).pc == m.pc && Sound(cfg, x, LocalOf(h, x))
  }

  ghost predicate HasLast(cfg: Config, x: string, c: Completion, m: Moment) { exists h :: LastCall(cfg, x, h, c, m) }

  lemma MeetLast(cfg: Config, x: string, g: Global, fate: Fate, c: Completion)
    requires Sound(cfg, x, LocalOf(g, x)) && c.g == Meet(cfg, x, g, fate)
    ensures HasLast(cfg, x, c, Moment(LocalOf(g, x).pc, fate.fault))
  {
    hide DoWork, Run, Sound;
    OthersKeepLocal(cfg, x, g, fate.before);
    assert LastCall(cfg, x, Disturbed(cfg, x, g, fate), c, Moment(LocalOf(g, x).pc, fate.fault));
  }

  lemma SameLast(cfg: Config, x: string, c: Completion, d: Completion, m: Moment)
    requires HasLast(cfg, x, d, m) && c.g == d.g
    ensures HasLast(cfg, x, c, m)
  {
    hide DoWork, Sound;
    var h :| LastCall(cfg, x, h, d, m);
    assert LastCall(cfg, x, h, c, m);
  }

  lemma {:induction false} CompleteLast(cfg: Config, x: string, g: Global, fates: seq<Fate>)
    requires Sound(cfg, x, LocalOf(g, x)) && !LocalOf(g, x).pc.Idle?
    ensures var c := Complete(cfg, x, g, fates); c.calls != [] && HasLast(cfg, x, c, c.calls[|c.calls| - 1])
    decreases Part(LocalOf(g, x).pc), Ahead(LocalOf(g, x)), Turn(LocalOf(g, x).pc), Left(LocalOf(g, x))
  {
    hide Meet, Sound, HasLast, Part, Ahead, Turn, Left, Run, DoWork;
    var fate := NextFate(fates);
    var h := Meet(cfg, x, g, fate);
    MeetMoves(cfg, x, g, fate);
    var c, d := Complete(cfg, x, g, fates), Complete(cfg, x, h, LaterFates(fates));
    if LocalOf(h, x).pc.Idle? {
      assert d.calls == [] && d.g == h;
      MeetLast(cfg, x, g, fate, c);
    } else {
      CompleteLast(cfg, x, h, LaterFates(fates));
      SameLast(cfg, x, c, d, d.calls[|d.calls| - 1]);
    }
  }

  lemma PassLast(cfg: Config, x: string, g: Global, fates: seq<Fate>)
    requires LocalOf(g, x).pc.Idle?
    ensures var c := OnePass(cfg, x, g, fates); c.calls != [] && HasLast(cfg, x, c, c.calls[|c.calls| - 1])
  {
    hide Meet, Sound, HasLast, Run, DoWork;
    var fate := NextFate(fates);
    var h := Meet(cfg, x, g, fate);
    IdleSound(cfg, x, LocalOf(g, x));
    MeetMoves(cfg, x, g, fate);
    var c, d := OnePass(cfg, x, g, fates), Complete(cfg, x, h, LaterFates(fates));
    if LocalOf(h, x).pc.Idle? {
      assert d.calls == [] && d.g == h by { CompleteIdle(cfg, x, h, LaterFates(fates)); }
      MeetLast(cfg, x, g, fate, c);
    } else {
      CompleteLast(cfg, x, h, LaterFates(fates));
      SameLast(cfg, x, c, d, d.calls[|d.calls| - 1]);
    }
  }

  lemma CompleteIdle(cfg: Config, x: string, g: Global, fates: seq<Fate>)
    requires Sound(cfg, x, LocalOf(g, x)) && LocalOf(g, x).pc.Idle?
    ensures Complete(cfg, x, g, fates).calls == [] && Complete(cfg, x, g, fates).g == g
  {
  }

  /** The result of a pass, whatever happened in it, by its last call: how soon it is to be repeated, and
      whether it counts as an error. */
  lemma PassResultMeans(cfg: Config, x: string, g: Global, fates: seq<Fate>)
    requires LocalOf(g, x).pc.Idle?
    ensures var c := OnePass(cfg, x, g, fates); var last := c.calls[|c.calls| - 1];
      exists h, r: Reply ::
        && LastCall(cfg, x, h, c, last) && r == Step(cfg, x, h.w, LocalOf(h, x), last.fault).reply
        && EndsWith(last.pc, LocalOf(h, x).env.status.expirationTime, r.Done?, r.NotFound? || r.AnEnv?, h.w.now, LocalOf(c.g, x).pc.last)
  {
    hide OnePass, Step, Sound, EndsWith, Next, Opened;
    PassLast(cfg, x, g, fates);
    var c := OnePass(cfg, x, g, fates);
    var last := c.calls[|c.calls| - 1];
    var h :| LastCall(cfg, x, h, c, last);
    var l := LocalOf(h, x);
    var s := Step(cfg, x, h.w, l, last.fault);
    StepParts(cfg, x, h.w, l, last.fault);
    assert LocalOf(c.g, x) == s.l;
    if Building(l.pc) {
      SoundBuilt(cfg, x, l);
      BuildingGoesOn(cfg, x, l, s.reply, h.w.now);
    } else {
      EndMeans(cfg, x, l, s.reply, h.w.now);
    }
  }

  // ---------------------------------------------------------------- what an expiry pass stores

  /** A worker that takes an expired environment down says so. */
  predicate Expels(l: Local) {
    TakingDown(l.pc) ==>
      var s := l.env.status;
      && s.phase == Expired && EnvironmentExpired in s.conditions && s.conditions[EnvironmentExpired].status
      && s.message == (if l.pc == SaveExpired(false) then CleanupFailedMessage else ExpiredMessage)
      && (l.pc == SaveExpired(true) ==> s.lastReconcile.Some?)
  }

  lemma BeginExpels(l: Local, env: EphemeralEnv, now: Time)
    ensures Expels(Begin(l, env, now))
  {
  }

  lemma TearingExpels(cfg: Config, x: string, l: Local, r: Reply, now: Time)
    requires Expels(l) && Tearing(l.pc)
    ensures Expels(OnTearing(cfg, l, r, now))
  {
    hide NextTracked, SetCondition;
  }

  lemma NextExpels(cfg: Config, x: string, l: Local, r: Reply, now: Time)
    requires Expels(l) && (Building(l.pc) ==> Built(cfg, x, l))
    ensures Expels(Next(cfg, x, l, r, now))
  {
    hide Built, Expels, OnTearing, Begin, OnBuilding, NsEnsured, FailStep;
    if Building(l.pc) {
      BuildingExpels(cfg, x, l, r, now);
    } else if Tearing(l.pc) {
      TearingExpels(cfg, x, l, r, now);
    } else {
      OpeningExpels(cfg, x, l, r, now);
    }
  }

  lemma BuildingExpels(cfg: Config, x: string, l: Local, r: Reply, now: Time)
    requires Built(cfg, x, l) && Building(l.pc)
    ensures Expels(Next(cfg, x, l, r, now))
  {
    hide Next, Built;
    NextBuilding(cfg, x, l, r, now);
  }

  lemma OpeningExpels(cfg: Config, x: string, l: Local, r: Reply, now: Time)
    requires !Building(l.pc) && !Tearing(l.pc)
    ensures Expels(Next(cfg, x, l, r, now))
  {
    hide Begin, OnBuilding, OnTearing, SetCondition;
    if r.AnEnv? {
      BeginExpels(l, r.env, now);
      BeginExpels(l.(env := r.env), r.env, now);
    }
  }

  lemma {:induction false} ExpelsRun(cfg: Config, g: Global, es: seq<Event>, x: string)
    requires Initial(g)
    ensures Expels(LocalOf(Run(cfg, g, es), x))
  {
    hide Apply, Expels, Shaped;
    if es == [] {
      assert Expels(IdleLocal) by { NothingExpels(); }
    } else {
      var before, e := es[..|es| - 1], es[|es| - 1];
      var h := Run(cfg, g, before);
      ExpelsRun(cfg, g, before, x);
      ShapedRun(cfg, g, before, x);
      if e.Work? && e.x == x { ExpelsWork(cfg, h, x, e.fault); } else { OtherKeepsLocal(cfg, x, h, e); }
    }
  }

  lemma NothingExpels()
    ensures Expels(IdleLocal)
  {
  }

  lemma ExpelsWork(cfg: Config, g: Global, x: string, f: Fault)
    requires Expels(LocalOf(g, x)) && Shaped(cfg, g, x)
    ensures Expels(LocalOf(Apply(cfg, g, Work(x, f)), x))
  {
    hide Expels, Step, Next, Built, Opened, ShapedEnv;
    SoundBuilt(cfg, x, LocalOf(g, x));
    StepParts(cfg, x, g.w, LocalOf(g, x), f);
    NextExpels(cfg, x, LocalOf(g, x), Step(cfg, x, g.w, LocalOf(g, x), f).reply, g.w.now);
  }

  /** In every run: what an expiry pass stores is phase Expired, with the condition of that name True, and a
      text that says whether the clean-up failed. */
  lemma {:induction false} StoresExpired(cfg: Config, g: Global, es: seq<Event>, x: string, f: Fault)
    requires Initial(g)
    requires var h := Run(cfg, g, es); var l := LocalOf(h, x); l.pc.SaveExpired? && Taken(h.w, x, l.env, f)
    ensures var pc := LocalOf(Run(cfg, g, es), x).pc; var v := Run(cfg, g, es + [Work(x, f)]).w;
      x in v.envs ==>
        var s := v.envs[x].status;
        && s.phase == Expired && EnvironmentExpired in s.conditions && s.conditions[EnvironmentExpired].status
        && s.message == (if pc.cleaned then ExpiredMessage else CleanupFailedMessage)
        && (pc.cleaned ==> s.lastReconcile.Some?)
  {
    hide Run, Step, Opened;
    var h := Run(cfg, g, es);
    ExpelsRun(cfg, g, es, x);
    RunSnoc(cfg, g, es, Work(x, f));
    WriteOutcome(cfg, x, h.w, LocalOf(h, x), f);
  }
}

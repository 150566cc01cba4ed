/** Expiry is noticed in time: the wake-ups that passes ask for never reach far past the expiry. */
module Lateness {
  import opened Model
  import opened Store
  import opened Machine
  import opened Progress
  import opened Teardown
  import opened Calls
  import opened Protocol
  import opened Runs
  import opened Extensions
  import opened Expiry
  import opened Pass
  import opened Calm
  import Removal

  /** Between the calls anything may happen, short of deleting x or shortening a life-time. */
  predicate Patient(e: Event, x: string) {
    e != DeleteEnv(x) && (e.ExtendRead? ==> e.duration >= 0)
  }

  predicate PatientFates(fates: seq<Fate>, x: string) {
    forall i, j :: 0 <= i < |fates| && 0 <= j < |fates[i].before| ==> Patient(fates[i].before[j], x)
  }

  function ExpiryOf(w: World, x: string): Time {
    if x in w.envs && w.envs[x].status.expirationTime.Some? then w.envs[x].status.expirationTime.value else 0
  }

  /** x is wanted, has an expiry, and that is no earlier than `least`. */
  ghost predicate Watched(g: Global, x: string, least: Time) {
    && Accounted(g, x) && x in g.w.envs
    && !g.w.envs[x].deleting && FINALIZER in g.w.envs[x].finalizers
    && g.w.envs[x].status.expirationTime.Some? && g.w.envs[x].status.expirationTime.value >= least
    && (forall id :: id in g.extensions && g.extensions[id].env == x ==> g.extensions[id].duration >= 0)
    && (Creating(LocalOf(g, x).pc) ==> var e := LocalOf(g, x).env.status.expirationTime; e.Some? && e.value <= ExpiryOf(g.w, x))
  }

  lemma AmbientSpares(w: World, e: Event, x: string)
    requires e != DeleteEnv(x) && x in w.envs && !w.envs[x].deleting
    ensures var v := Ambient(w, e); x in v.envs && !v.envs[x].deleting
  {
    hide DoFinishNs, EnvPrefixed, PutEnv;
    match e
    case DeleteEnv(y) => if y in w.envs { PutEnvParts(w, y, w.envs[y].(deleting := true)); }
    case EditEnv(y, spec, fs) => if y in w.envs { EditParts(w, y, spec, fs); PutEnvParts(w, y, Edited(w.envs[y], spec, fs)); }
    case FinishNs(n) => FinishParts(w, n);
    case _ =>
  }

  lemma WatchedExtend(g: Global, id: nat, f: Fault, x: string, least: Time)
    requires Watched(g, x, least)
    ensures Accounted(DoExtendWrite(g, id, f), x) ==> Watched(DoExtendWrite(g, id, f), x, least)
    ensures ExpiryOf(DoExtendWrite(g, id, f).w, x) >= ExpiryOf(g.w, x)
    ensures DoExtendWrite(g, id, f).w.now == g.w.now
  {
    hide PutEnv, Opened, Credit;
    if id in g.extensions {
      var u := g.extensions[id];
      ExtendWrites(g, id, f);
      if Accepted(g.w, u, f) {
        PutEnvParts(g.w, u.env, g.w.envs[u.env].(status := Extended(u).status));
        PutEnvFrame(g.w, u.env, g.w.envs[u.env].(status := Extended(u).status));
      }
      hide DoExtendWrite;
    }
  }

  lemma WatchedWork(cfg: Config, g: Global, y: string, f: Fault, x: string, least: Time)
    requires x != y && Watched(g, x, least) && Accounted(DoWork(cfg, g, y, f), x)
    ensures var h := DoWork(cfg, g, y, f); Watched(h, x, least) && ExpiryOf(h.w, x) == ExpiryOf(g.w, x) && h.w.now == g.w.now
  {
    hide Step, Opened, Accounted;
    StepStatus(cfg, y, g.w, LocalOf(g, y), f);
    StepParts(cfg, y, g.w, LocalOf(g, y), f);
  }

  lemma WatchedAmbient(g: Global, e: Event, x: string, least: Time)
    requires Watched(g, x, least) && e != DeleteEnv(x) && Accounted(g.(w := Ambient(g.w, e)), x)
    ensures var h := g.(w := Ambient(g.w, e)); Watched(h, x, least) && ExpiryOf(h.w, x) == ExpiryOf(g.w, x) && h.w.now >= g.w.now
  {
    hide Ambient, Accounted;
    AmbientEnv(g.w, e, x);
    AmbientSpares(g.w, e, x);
    ClockForward(g.w, e);
  }

  /** What the others do keeps x watched; its expiry and the clock only move on. */
  lemma WatchedEvent(cfg: Config, g: Global, e: Event, x: string, least: Time)
    requires Watched(g, x, least) && Patient(e, x) && !(e.Work? && e.x == x)
    requires Building(LocalOf(g, x).pc) ==> Built(cfg, x, LocalOf(g, x))
    ensures var h := Apply(cfg, g, e); Watched(h, x, least) && ExpiryOf(h.w, x) >= ExpiryOf(g.w, x) && h.w.now >= g.w.now
  {
    hide DoWork, Ambient, DoExtendWrite, Built, Accounted;
    AccountedApply(cfg, g, e, x);
    match e
    case Work(y, f) => WatchedWork(cfg, g, y, f, x, least);
    case ExtendWrite(id, f) => WatchedExtend(g, id, f, x, least); ExtendKeeps(g, id, f);
    case ExtendRead(_, _, _) =>
    case CreateEnv(_, _, _, _) =>
    case _ => WatchedAmbient(g, e, x, least);
  }

  lemma ExtendKeeps(g: Global, id: nat, f: Fault)
    ensures DoExtendWrite(g, id, f).locals == g.locals
  {
  }

  lemma {:induction false} WatchedBetween(cfg: Config, x: string, g: Global, es: seq<Event>, least: Time)
    requires Watched(g, x, least) && forall i :: 0 <= i < |es| ==> Patient(es[i], x)
    requires Building(LocalOf(g, x).pc) ==> Built(cfg, x, LocalOf(g, x))
    ensures var h := Run(cfg, g, Others(x, es)); Watched(h, x, least) && ExpiryOf(h.w, x) >= ExpiryOf(g.w, x) && h.w.now >= g.w.now
  {
    hide Apply, Watched, Built, ExpiryOf, Patient;
    if es != [] {
      var before, e := es[..|es| - 1], es[|es| - 1];
      WatchedBetween(cfg, x, g, before, least);
      OthersKeepLocal(cfg, x, g, before);
      if e.Work? && e.x == x {
        assert Others(x, es) == Others(x, before);
      } else {
        RunSnoc(cfg, g, Others(x, before), e);
        WatchedEvent(cfg, Run(cfg, g, Others(x, before)), e, x, least);
      }
    }
  }

  // ---------------------------------------------------------------- the worker's own steps

  /** The wake-up a pass asks for: a retry, the discovery wait, one second, or at the expiry. */
  predicate Prompt(last: PassResult, now: Time, expiry: Time) {
    last.error || last.requeueAfter == 5 || last.requeueAfter == 1 || (last.requeueAfter >= 0 && now + last.requeueAfter <= expiry)
  }

  lemma SaveResult(cfg: Config, x: string, l: Local, r: Reply, now: Time)
    requires l.pc.Save?
    ensures var m := Next(cfg, x, l, r, now);
      m.pc.Idle? && (m.pc.last == PassResult(0, false) ==> l.env.status.expirationTime == Some(now))
      && (forall expiry: Time :: l.env.status.expirationTime.Some? && l.env.status.expirationTime.value <= expiry ==> Prompt(m.pc.last, now, expiry))
  {
  }

  /** A pass that stores Active asks for no further wake-up exactly when it does so at the very second of
      its expiry. */
  lemma NoWakeUp(cfg: Config, x: string, l: Local, now: Time)
    requires l.pc == Save(Activated) && l.env.status.expirationTime.Some?
    ensures Next(cfg, x, l, Done, now).pc == Idle(PassResult(0, false)) <==> now == l.env.status.expirationTime.value
  {
  }

  lemma CreateKeepsExpiry(cfg: Config, x: string, l: Local, r: Reply, now: Time)
    requires Sound(cfg, x, l) && Creating(l.pc) && !l.pc.Save?
    ensures var m := Next(cfg, x, l, r, now); Creating(m.pc) && m.env.status.expirationTime == l.env.status.expirationTime
  {
    hide Next, Built, NsEnsured, FailStep;
    if Building(l.pc) { NextBuilding(cfg, x, l, r, now); }
    else {
      NextOpening(cfg, x, l, r, now);
      NsEnsuredBuilt(cfg, x, l, now);
      FailKeeps(l);
    }
  }

  lemma FailKeeps(l: Local)
    ensures var m := FailStep(l, NamespaceStep); m.pc == Save(StepFailed) && m.env.status.expirationTime == l.env.status.expirationTime
  {
  }

  lemma WatchedCreate(cfg: Config, g: Global, x: string, f: Fault, least: Time)
    requires Watched(g, x, least) && Sound(cfg, x, LocalOf(g, x)) && Creating(LocalOf(g, x).pc)
    ensures var h := DoWork(cfg, g, x, f); var m := LocalOf(h, x);
      && Watched(h, x, least) && ExpiryOf(h.w, x) == ExpiryOf(g.w, x) && h.w.now == g.w.now
      && (if LocalOf(g, x).pc.Save? then
            m.pc.Idle? && Prompt(m.pc.last, h.w.now, ExpiryOf(h.w, x)) && (m.pc.last == PassResult(0, false) ==> LocalOf(g, x).env.status.expirationTime == Some(h.w.now))
          else Creating(m.pc) && m.env.status.expirationTime == LocalOf(g, x).env.status.expirationTime)
  {
    hide Step, Next, Opened, Built, Prompt;
    var w, l := g.w, LocalOf(g, x);
    var s := Step(cfg, x, w, l, f);
    SoundBuilt(cfg, x, l);
    AccountedWork(cfg, g, x, f);
    StepParts(cfg, x, w, l, f);
    if l.pc.Save? {
      WriteOutcome(cfg, x, w, l, f);
      SaveResult(cfg, x, l, s.reply, w.now);
    } else {
      CreateKeepsExpiry(cfg, x, l, s.reply, w.now);
    }
    hide Sound;
  }

  /** A fetch that gets through, of a resource that stands: the expiry branch or the create path. */
  lemma FetchLeads(cfg: Config, x: string, w: World, l: Local)
    requires l.pc.Idle? && x in w.envs
    requires var env := w.envs[x]; !env.deleting && FINALIZER in env.finalizers && env.status.expirationTime.Some?
    ensures var s := Step(cfg, x, w, l, NoFault);
      && s.w == w
      && (if w.now > w.envs[x].status.expirationTime.value then s.l.pc == GetRoute(Expiring)
          else Creating(s.l.pc) && s.l.env.status.expirationTime == w.envs[x].status.expirationTime)
  {
    hide Step, Next, SetCondition;
    var s := Step(cfg, x, w, l, NoFault);
    StepParts(cfg, x, w, l, NoFault);
    FetchReads(cfg, x, w, l);
    NextOpening(cfg, x, l, s.reply, w.now);
  }

  lemma WatchedFetch(cfg: Config, g: Global, x: string, least: Time)
    requires Watched(g, x, least) && LocalOf(g, x).pc.Idle?
    ensures var h := DoWork(cfg, g, x, NoFault); var m := LocalOf(h, x);
      && Watched(h, x, least) && h.w == g.w
      && (if g.w.now > ExpiryOf(g.w, x) then m.pc == GetRoute(Expiring)
          else Creating(m.pc) && m.env.status.expirationTime == Some(ExpiryOf(g.w, x)))
  {
    hide Step, Opened, Accounted;
    AccountedWork(cfg, g, x, NoFault);
    FetchLeads(cfg, x, g.w, LocalOf(g, x));
  }

  lemma FetchReads(cfg: Config, x: string, w: World, l: Local)
    requires x in w.envs && l.pc.Idle?
    ensures Step(cfg, x, w, l, NoFault).reply == AnEnv(w.envs[x])
  {
    hide Next;
    FetchesOwn(cfg, x, l);
  }

  // ---------------------------------------------------------------- a pass

  lemma SameExpiry(cfg: Config, x: string, g: Global, fates: seq<Fate>)
    requires Undisturbed(fates)
    ensures var v := Disturbed(cfg, x, g, NextFate(fates)); Undisturbed(LaterFates(fates)) && ExpiryOf(v.w, x) == ExpiryOf(g.w, x)
    ensures Disturbed(cfg, x, g, NextFate(fates)).w.now == g.w.now + Seconds(NextFate(fates).before)
  {
    hide Run;
    OnlyTime(cfg, x, g, NextFate(fates).before);
  }

  lemma {:induction false} WatchedComplete(cfg: Config, x: string, g: Global, fates: seq<Fate>, least: Time)
    requires Sound(cfg, x, LocalOf(g, x)) && Creating(LocalOf(g, x).pc) && Watched(g, x, least) && PatientFates(fates, x)
    ensures var c := Complete(cfg, x, g, fates);
      && Watched(c.g, x, least) && PatientFates(c.rest, x) && ExpiryOf(c.g.w, x) >= ExpiryOf(g.w, x)
      && Prompt(LocalOf(c.g, x).pc.last, c.g.w.now, ExpiryOf(c.g.w, x))
      && (LocalOf(c.g, x).pc.last == PassResult(0, false) ==> LocalOf(g, x).env.status.expirationTime == Some(c.g.w.now))
      && (Undisturbed(fates) ==> ExpiryOf(c.g.w, x) == ExpiryOf(g.w, x))
    decreases Part(LocalOf(g, x).pc), Ahead(LocalOf(g, x)), Turn(LocalOf(g, x).pc), Left(LocalOf(g, x))
  {
    hide Run, Watched, ExpiryOf, Prompt, DoWork, Sound, Part, Ahead, Turn, Left;
    var fate, here := NextFate(fates), LocalOf(g, x);
    var v := Disturbed(cfg, x, g, fate);
    assert Building(here.pc) ==> Built(cfg, x, here) by { SoundBuilt(cfg, x, here); }
    MeetMoves(cfg, x, g, fate);
    WatchedBetween(cfg, x, g, fate.before, least);
    OthersKeepLocal(cfg, x, g, fate.before);
    WatchedCreate(cfg, v, x, fate.fault, least);
    var h := Meet(cfg, x, g, fate);
    if Undisturbed(fates) { SameExpiry(cfg, x, g, fates); }
    if !here.pc.Save? { WatchedComplete(cfg, x, h, LaterFates(fates), least); }
  }

  /** When the pass makes its first call. */
  function BeginTime(cfg: Config, x: string, g: Global, fates: seq<Fate>): Time {
    Disturbed(cfg, x, g, NextFate(fates)).w.now
  }

  /** The expiry stored at that time. */
  function ExpiryThen(cfg: Config, x: string, g: Global, fates: seq<Fate>): Time {
    ExpiryOf(Disturbed(cfg, x, g, NextFate(fates)).w, x)
  }

  /** The pass took the expiry branch. */
  predicate TakesExpiry(c: Completion) {
    |c.calls| > 1 && c.calls[1].pc == GetRoute(Expiring)
  }

  /** A pass's duration, and five seconds or the back-off after an error, whichever is longer. */
  function Slack(duration: nat, retry: nat): Time { duration + (if retry > 5 then retry else 5) }

  /** A pass whose fetch gets through: it takes the expiry branch exactly when it begins after the expiry;
      and if it does not, it asks to be woken by the expiry or within five seconds. */
  lemma PassWakes(cfg: Config, x: string, g: Global, fates: seq<Fate>, least: Time)
    requires LocalOf(g, x).pc.Idle? && Watched(g, x, least) && PatientFates(fates, x) && NextFate(fates).fault.NoFault?
    ensures var c := OnePass(cfg, x, g, fates);
      && ExpiryThen(cfg, x, g, fates) >= ExpiryOf(g.w, x)
      && (TakesExpiry(c) <==> BeginTime(cfg, x, g, fates) > ExpiryThen(cfg, x, g, fates))
      && (!TakesExpiry(c) ==>
            && Watched(c.g, x, least) && PatientFates(c.rest, x) && ExpiryOf(c.g.w, x) >= ExpiryThen(cfg, x, g, fates)
            && Prompt(LocalOf(c.g, x).pc.last, c.g.w.now, ExpiryOf(c.g.w, x))
            && (LocalOf(c.g, x).pc.last == PassResult(0, false) ==> c.g.w.now == ExpiryThen(cfg, x, g, fates))
            && (Undisturbed(fates) ==> ExpiryOf(c.g.w, x) == ExpiryOf(g.w, x)))
  {
    hide Run, Watched, ExpiryOf, Prompt, DoWork, Sound;
    var fate, here := NextFate(fates), LocalOf(g, x);
    var v := Disturbed(cfg, x, g, fate);
    IdleSound(cfg, x, here);
    MeetMoves(cfg, x, g, fate);
    WatchedBetween(cfg, x, g, fate.before, least);
    OthersKeepLocal(cfg, x, g, fate.before);
    WatchedFetch(cfg, v, x, least);
    var h := Meet(cfg, x, g, fate);
    var d := Complete(cfg, x, h, LaterFates(fates));
    assert OnePass(cfg, x, g, fates).calls[1..] == d.calls;
    if Undisturbed(fates) { SameExpiry(cfg, x, g, fates); }
    if v.w.now <= ExpiryOf(v.w, x) {
      WatchedComplete(cfg, x, h, LaterFates(fates), least);
      assert d.calls[0].pc == LocalOf(h, x).pc;
    }
  }

  // ---------------------------------------------------------------- schedules

  /** When the pass is to be repeated; an error is retried within the work queue's back-off. */
  function WakeTime(x: string, c: Completion, retry: nat): Time
    requires LocalOf(c.g, x).pc.Idle?
  {
    var last := LocalOf(c.g, x).pc.last;
    c.g.w.now + (if last.error then retry else last.requeueAfter)
  }

  /** Consecutive passes, each with its own fates, up to the one that takes the expiry branch: they begin no
      later than asked for, their fetches get through, they last no longer than `duration`, and until the
      expiry branch is taken none of them ends without asking for a wake-up. */
  ghost predicate Scheduled(cfg: Config, x: string, g: Global, plans: seq<seq<Fate>>, due: Time, duration: nat, retry: nat)
    requires LocalOf(g, x).pc.Idle?
    decreases |plans|
  {
    plans == [] ||
    (var c := OnePass(cfg, x, g, plans[0]);
     && NextFate(plans[0]).fault.NoFault?
     && BeginTime(cfg, x, g, plans[0]) <= due
     && c.g.w.now - BeginTime(cfg, x, g, plans[0]) <= duration
     && (TakesExpiry(c) || (LocalOf(c.g, x).pc.last != PassResult(0, false) && Scheduled(cfg, x, c.g, plans[1..], WakeTime(x, c, retry), duration, retry))))
  }

  predicate PatientPlans(plans: seq<seq<Fate>>, x: string) {
    forall i :: 0 <= i < |plans| ==> PatientFates(plans[i], x)
  }

  /** The i-th of the passes takes the expiry branch, at most `slack` after the expiry. */
  ghost predicate ExpiresInTime(cfg: Config, x: string, g: Global, plans: seq<seq<Fate>>, i: nat, slack: Time)
    requires LocalOf(g, x).pc.Idle? && i < |plans|
    decreases i
  {
    var c := OnePass(cfg, x, g, plans[0]);
    if i == 0 then TakesExpiry(c) && BeginTime(cfg, x, g, plans[0]) <= ExpiryThen(cfg, x, g, plans[0]) + slack
    else ExpiresInTime(cfg, x, c.g, plans[1..], i - 1, slack)
  }

  /** None of the passes begins after the expiry. */
  ghost predicate AllBefore(cfg: Config, x: string, g: Global, plans: seq<seq<Fate>>)
    requires LocalOf(g, x).pc.Idle?
    decreases |plans|
  {
    plans == [] ||
    (var c := OnePass(cfg, x, g, plans[0]);
     BeginTime(cfg, x, g, plans[0]) <= ExpiryThen(cfg, x, g, plans[0]) && AllBefore(cfg, x, c.g, plans[1..]))
  }

  /** However many passes, with whatever happens in and between them - services coming and going, edits,
      extensions, failing calls after the fetch -: if the schedule reaches beyond the expiry, one of its
      passes takes the expiry branch, no later than a pass's duration and five seconds (or the back-off after
      an error, if that is longer) after the expiry that is current when it begins. */
  lemma {:induction false} BoundedLateness(cfg: Config, x: string, g: Global, plans: seq<seq<Fate>>, due: Time, duration: nat, retry: nat, least: Time)
    requires LocalOf(g, x).pc.Idle? && Watched(g, x, least) && PatientPlans(plans, x)
    requires Scheduled(cfg, x, g, plans, due, duration, retry)
    requires due <= ExpiryOf(g.w, x) + Slack(duration, retry)
    ensures !AllBefore(cfg, x, g, plans) ==> exists i: nat :: i < |plans| && ExpiresInTime(cfg, x, g, plans, i, Slack(duration, retry))
    decreases |plans|
  {
    hide OnePass, Watched, ExpiryOf, BeginTime, ExpiryThen, PatientFates, TakesExpiry;
    if plans != [] {
      var c := OnePass(cfg, x, g, plans[0]);
      PassWakes(cfg, x, g, plans[0], least);
      if TakesExpiry(c) {
        assert ExpiresInTime(cfg, x, g, plans, 0, Slack(duration, retry));
      } else {
        BoundedLateness(cfg, x, c.g, plans[1..], WakeTime(x, c, retry), duration, retry, least);
        if !AllBefore(cfg, x, c.g, plans[1..]) {
          var i: nat :| i < |plans[1..]| && ExpiresInTime(cfg, x, c.g, plans[1..], i, Slack(duration, retry));
          assert ExpiresInTime(cfg, x, g, plans, i + 1, Slack(duration, retry));
        }
      }
    }
  }

  // ---------------------------------------------------------------- schedules do reach the expiry

  /** Undisturbed, a pass takes exactly the time that its fates let pass. */
  lemma {:induction false} TimePasses(cfg: Config, x: string, g: Global, fates: seq<Fate>)
    requires Sound(cfg, x, LocalOf(g, x)) && Undisturbed(fates)
    ensures var c := Complete(cfg, x, g, fates);
      c.g.w.now + Elapsed(c.rest) == g.w.now + Elapsed(fates) && (fates == [] ==> c.rest == [])
    decreases Part(LocalOf(g, x).pc), Ahead(LocalOf(g, x)), Turn(LocalOf(g, x).pc), Left(LocalOf(g, x))
  {
    hide Meet, Step, Sound, Part, Ahead, Turn, Left;
    if !LocalOf(g, x).pc.Idle? {
      var fate := NextFate(fates);
      MeetMoves(cfg, x, g, fate);
      CalmMeet(cfg, x, g, fate);
      StepParts(cfg, x, Later(g.w, Seconds(fate.before)), LocalOf(g, x), fate.fault);
      TimePasses(cfg, x, Meet(cfg, x, g, fate), LaterFates(fates));
    }
  }

  /** A fetch at once, then some seconds. */
  function Plan(d: nat): seq<Fate> { [Fate([], NoFault), Fate([Tick(d)], NoFault)] }

  lemma PlanTakes(cfg: Config, x: string, g: Global, d: nat)
    requires LocalOf(g, x).pc.Idle?
    ensures var c := OnePass(cfg, x, g, Plan(d)); BeginTime(cfg, x, g, Plan(d)) == g.w.now && (|c.calls| > 1 ==> c.g.w.now == g.w.now + d)
    ensures var c := OnePass(cfg, x, g, []); BeginTime(cfg, x, g, []) == g.w.now && c.g.w.now == g.w.now
    ensures Undisturbed(Plan(d)) && PatientFates(Plan(d), x) && PatientFates([], x)
  {
    hide Meet, Step, Sound, Run;
    IdleSound(cfg, x, LocalOf(g, x));
    var f0, f1 := Fate([], NoFault), Fate([Tick(d)], NoFault);
    assert Plan(d)[1..] == [f1] && [f1][1..] == [];
    OnlyTime(cfg, x, g, []);
    MeetMoves(cfg, x, g, f0);
    CalmMeet(cfg, x, g, f0);
    StepParts(cfg, x, g.w, LocalOf(g, x), NoFault);
    var h := Meet(cfg, x, g, f0);
    TimePasses(cfg, x, h, []);
    if !LocalOf(h, x).pc.Idle? {
      MeetMoves(cfg, x, h, f1);
      CalmMeet(cfg, x, h, f1);
      assert [Tick(d)][..0] == [] && Seconds([Tick(d)]) == d;
      StepParts(cfg, x, Later(h.w, d), LocalOf(h, x), NoFault);
      TimePasses(cfg, x, Meet(cfg, x, h, f1), []);
    }
  }

  /** From any state of a watched environment, some schedule reaches its expiry and takes it down. */
  lemma {:induction false} ExpiryReached(cfg: Config, x: string, g: Global, due: Time, duration: nat, retry: nat, least: Time)
    requires LocalOf(g, x).pc.Idle? && Watched(g, x, least) && g.w.now <= due && duration >= 2
    ensures exists plans :: PatientPlans(plans, x) && Scheduled(cfg, x, g, plans, due, duration, retry) && !AllBefore(cfg, x, g, plans)
    decreases ExpiryOf(g.w, x) - g.w.now
  {
    hide OnePass, Watched, ExpiryOf, BeginTime, ExpiryThen, PatientFates, TakesExpiry;
    var e := ExpiryOf(g.w, x);
    if g.w.now > e {
      PlanTakes(cfg, x, g, 0);
      PassWakes(cfg, x, g, [], least);
      assert ExpiryThen(cfg, x, g, []) == e by { SameThen(cfg, x, g, []); }
      var plans := [[]];
      assert PatientPlans(plans, x) && Scheduled(cfg, x, g, plans, due, duration, retry) && !AllBefore(cfg, x, g, plans);
    } else {
      var d := if g.w.now + 1 == e then 2 else 1;
      PlanTakes(cfg, x, g, d);
      PassWakes(cfg, x, g, Plan(d), least);
      assert ExpiryThen(cfg, x, g, Plan(d)) == e by { SameThen(cfg, x, g, Plan(d)); }
      var c := OnePass(cfg, x, g, Plan(d));
      assert |c.calls| > 1 by { PassStarts(cfg, x, g, Plan(d), least); }
      ExpiryReached(cfg, x, c.g, WakeTime(x, c, retry), duration, retry, least);
      var more :| PatientPlans(more, x) && Scheduled(cfg, x, c.g, more, WakeTime(x, c, retry), duration, retry) && !AllBefore(cfg, x, c.g, more);
      var plans := [Plan(d)] + more;
      assert plans[1..] == more;
      assert PatientPlans(plans, x) && Scheduled(cfg, x, g, plans, due, duration, retry) && !AllBefore(cfg, x, g, plans);
    }
  }

  lemma SameThen(cfg: Config, x: string, g: Global, fates: seq<Fate>)
    requires Undisturbed(fates)
    ensures ExpiryThen(cfg, x, g, fates) == ExpiryOf(g.w, x)
  {
    hide Run;
    SameExpiry(cfg, x, g, fates);
  }

  lemma PassStarts(cfg: Config, x: string, g: Global, fates: seq<Fate>, least: Time)
    requires LocalOf(g, x).pc.Idle? && Watched(g, x, least) && PatientFates(fates, x) && NextFate(fates).fault.NoFault?
    ensures |OnePass(cfg, x, g, fates).calls| > 1
  {
    hide Run, Watched, DoWork, Sound;
    var fate := NextFate(fates);
    IdleSound(cfg, x, LocalOf(g, x));
    MeetMoves(cfg, x, g, fate);
    WatchedBetween(cfg, x, g, fate.before, least);
    OthersKeepLocal(cfg, x, g, fate.before);
    WatchedFetch(cfg, Disturbed(cfg, x, g, fate), x, least);
  }

  lemma WakesLater(cfg: Config, x: string, g: Global, fates: seq<Fate>, retry: nat, least: Time)
    requires LocalOf(g, x).pc.Idle? && Watched(g, x, least) && PatientFates(fates, x) && NextFate(fates).fault.NoFault?
    requires !TakesExpiry(OnePass(cfg, x, g, fates))
    ensures var c := OnePass(cfg, x, g, fates); c.g.w.now <= WakeTime(x, c, retry)
  {
    hide OnePass, Watched, ExpiryOf, BeginTime, ExpiryThen, PatientFates, TakesExpiry;
    PassWakes(cfg, x, g, fates, least);
  }

  lemma {:induction false} ScheduleContinues(cfg: Config, x: string, g: Global, plans: seq<seq<Fate>>, due: Time, duration: nat, retry: nat, least: Time)
    requires LocalOf(g, x).pc.Idle? && Watched(g, x, least) && PatientPlans(plans, x) && g.w.now <= due && duration >= 2
    requires Scheduled(cfg, x, g, plans, due, duration, retry) && AllBefore(cfg, x, g, plans)
    ensures exists more :: PatientPlans(plans + more, x) && Scheduled(cfg, x, g, plans + more, due, duration, retry) && !AllBefore(cfg, x, g, plans + more)
    decreases |plans|
  {
    hide OnePass, Watched, ExpiryOf, BeginTime, ExpiryThen, PatientFates, TakesExpiry;
    if plans == [] {
      ExpiryReached(cfg, x, g, due, duration, retry, least);
      var more :| PatientPlans(more, x) && Scheduled(cfg, x, g, more, due, duration, retry) && !AllBefore(cfg, x, g, more);
      assert plans + more == more;
    } else {
      var c := OnePass(cfg, x, g, plans[0]);
      PassWakes(cfg, x, g, plans[0], least);
      WakesLater(cfg, x, g, plans[0], retry, least);
      ScheduleContinues(cfg, x, c.g, plans[1..], WakeTime(x, c, retry), duration, retry, least);
      var more :| PatientPlans(plans[1..] + more, x) && Scheduled(cfg, x, c.g, plans[1..] + more, WakeTime(x, c, retry), duration, retry)
                  && !AllBefore(cfg, x, c.g, plans[1..] + more);
      assert (plans + more)[0] == plans[0] && (plans + more)[1..] == plans[1..] + more;
    }
  }

  /** No schedule is stuck before the expiry: whatever has gone on so far, the wake-up it ends with can be
      followed up to a pass that takes the expiry branch in time. */
  lemma ExpiryAhead(cfg: Config, x: string, g: Global, plans: seq<seq<Fate>>, due: Time, duration: nat, retry: nat, least: Time)
    requires LocalOf(g, x).pc.Idle? && Watched(g, x, least) && PatientPlans(plans, x) && g.w.now <= due && duration >= 2
    requires Scheduled(cfg, x, g, plans, due, duration, retry) && AllBefore(cfg, x, g, plans)
    requires due <= ExpiryOf(g.w, x) + Slack(duration, retry)
    ensures exists more, i: nat :: PatientPlans(plans + more, x) && Scheduled(cfg, x, g, plans + more, due, duration, retry)
              && i < |plans + more| && ExpiresInTime(cfg, x, g, plans + more, i, Slack(duration, retry))
  {
    hide OnePass, Watched, ExpiryOf, Scheduled, AllBefore, ExpiresInTime, PatientPlans;
    ScheduleContinues(cfg, x, g, plans, due, duration, retry, least);
    var more :| PatientPlans(plans + more, x) && Scheduled(cfg, x, g, plans + more, due, duration, retry) && !AllBefore(cfg, x, g, plans + more);
    BoundedLateness(cfg, x, g, plans + more, due, duration, retry, least);
    var i: nat :| i < |plans + more| && ExpiresInTime(cfg, x, g, plans + more, i, Slack(duration, retry));
    assert PatientPlans(plans + more, x) && Scheduled(cfg, x, g, plans + more, due, duration, retry)
           && i < |plans + more| && ExpiresInTime(cfg, x, g, plans + more, i, Slack(duration, retry));
  }

  // ---------------------------------------------------------------- how an expiry pass ends

  /** A takedown on its way, with a current copy. */
  predicate Expelling(w: World, x: string, l: Local) {
    && TakingDown(l.pc) && (l.pc.SaveExpired? ==> l.pc.cleaned) && Current(w, x, l.env)
  }

  lemma ExpellingStep(cfg: Config, x: string, w: World, l: Local)
    requires Expelling(w, x, l)
    ensures var s := Step(cfg, x, w, l, NoFault);
      if l.pc.SaveExpired? then s.l.pc == Idle(PassResult(0, false)) else Expelling(s.w, x, s.l)
  {
    hide Step, Next, NsName;
    var s := Step(cfg, x, w, l, NoFault);
    StepParts(cfg, x, w, l, NoFault);
    if l.pc.SaveExpired? {
      EnvStep(cfg, x, w, l, NoFault);
      SavedExpired(cfg, x, l, s.reply, w.now);
    } else {
      Removal.RemovalCalls(cfg, x, w, l, NoFault);
      NextTearing(cfg, x, l, s.reply, w.now);
      Removal.AdminFirst(cfg, x, l, s.reply, w.now);
    }
  }

  lemma SavedExpired(cfg: Config, x: string, l: Local, r: Reply, now: Time)
    requires l.pc == SaveExpired(true) && r.Done?
    ensures Next(cfg, x, l, r, now).pc == Idle(PassResult(0, false))
  {
  }

  lemma {:induction false} ExpellingComplete(cfg: Config, x: string, g: Global)
    requires Sound(cfg, x, LocalOf(g, x)) && Expelling(g.w, x, LocalOf(g, x))
    ensures LocalOf(Complete(cfg, x, g, []).g, x).pc == Idle(PassResult(0, false))
    decreases Part(LocalOf(g, x).pc), Ahead(LocalOf(g, x)), Turn(LocalOf(g, x).pc), Left(LocalOf(g, x))
  {
    hide Meet, Step, Sound, Current, Part, Ahead, Turn, Left;
    var fate := NextFate([]);
    MeetMoves(cfg, x, g, fate);
    CalmMeet(cfg, x, g, fate);
    ExpellingStep(cfg, x, g.w, LocalOf(g, x));
    if !LocalOf(Meet(cfg, x, g, fate), x).pc.Idle? { ExpellingComplete(cfg, x, Meet(cfg, x, g, fate)); }
  }

  /** An expiry pass whose calls all get through asks for no further wake-up: it is the last of its schedule. */
  lemma ExpiryPassEnds(cfg: Config, x: string, g: Global, least: Time)
    requires LocalOf(g, x).pc.Idle? && Watched(g, x, least) && g.w.now > ExpiryOf(g.w, x)
    ensures var c := OnePass(cfg, x, g, []);
      TakesExpiry(c) && LocalOf(c.g, x).pc.last == PassResult(0, false) && Scheduled(cfg, x, g, [[]], g.w.now, 0, 0)
  {
    hide Meet, Step, Sound, Run, Watched, ExpiryOf, BeginTime, ExpiryThen, TakesExpiry, PatientFates;
    IdleSound(cfg, x, LocalOf(g, x));
    MeetMoves(cfg, x, g, NextFate([]));
    CalmMeet(cfg, x, g, NextFate([]));
    assert Expelling(Meet(cfg, x, g, NextFate([])).w, x, LocalOf(Meet(cfg, x, g, NextFate([])), x)) by { FetchExpels(cfg, x, g, least); }
    ExpellingComplete(cfg, x, Meet(cfg, x, g, NextFate([])));
    PlanTakes(cfg, x, g, 0);
    PassWakes(cfg, x, g, [], least);
    SameThen(cfg, x, g, []);
  }

  lemma FetchExpels(cfg: Config, x: string, g: Global, least: Time)
    requires LocalOf(g, x).pc.Idle? && Watched(g, x, least) && g.w.now > ExpiryOf(g.w, x)
    ensures var s := Step(cfg, x, g.w, LocalOf(g, x), NoFault); Expelling(s.w, x, s.l)
  {
    hide Step, Next, SetCondition, Accounted;
    var w, l := g.w, LocalOf(g, x);
    var s := Step(cfg, x, w, l, NoFault);
    StepParts(cfg, x, w, l, NoFault);
    FetchReads(cfg, x, w, l);
    NextOpening(cfg, x, l, s.reply, w.now);
  }
}

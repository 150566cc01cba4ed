/** Uninstalling the tracked releases: each failure stays with the release it hit. */
module Uninstalling {
  import opened Model
  import opened Store
  import opened Machine
  import opened Progress
  import opened Teardown
  import opened Calls
  import opened Protocol
  import opened Pass
  import opened Calm

  function TrackedKey(env: EphemeralEnv, j: nat): ReleaseKey
    requires j < |env.status.components|
  {
    ReleaseKey(env.status.activeNamespace, env.status.components[j].releaseName)
  }

  predicate IsTracked(env: EphemeralEnv, r: ReleaseKey) {
    exists j: nat :: j < |env.status.components| && env.status.components[j].releaseName != "" && r == TrackedKey(env, j)
  }

  /** The first entry of the status that the loop has not dealt with. */
  function LoopAt(l: Local): nat {
    match l.pc
    case CheckTracked(_, i) => i
    case DelTracked(_, i) => i
    case GetAdmin => 0
    case DelAdmin => 0
    case GetRoute(_) => 0
    case DelRoute(_) => 0
    case _ => |l.env.status.components|
  }

  predicate Looping(cfg: Config, l: Local) {
    && cfg.helm && l.env.status.components != []
    && (Tearing(l.pc) || l.pc.DropFinalizer? || l.pc.SaveExpired?) && !l.pc.CheckLegacy? && !l.pc.DelLegacy?
    && (l.pc.CheckTracked? || l.pc.DelTracked? ==> l.pc.i < |l.env.status.components| && l.env.status.components[l.pc.i].releaseName != "")
  }

  lemma {:induction false} SkipsNameless(cs: seq<ComponentStatus>, i: nat)
    ensures var n := NextTracked(cs, i); i <= n && (i <= |cs| ==> n <= |cs|)
    ensures forall k :: i <= k < NextTracked(cs, i) && k < |cs| ==> cs[k].releaseName == ""
    ensures NextTracked(cs, i) < |cs| ==> cs[NextTracked(cs, i)].releaseName != ""
    decreases |cs| - i
  {
    if i < |cs| && cs[i].releaseName == "" { SkipsNameless(cs, i + 1); }
  }

  /** A call that the server carries out, whether or not the answer arrives. */
  predicate TakesEffect(f: Fault) { f.NoFault? || f.AnswerLost? }

  /** One step of a teardown, seen from the releases. */
  ghost predicate UninstallsOne(w: World, v: World, l: Local, m: Local, f: Fault) {
    var cs := l.env.status.components; var i := LoopAt(l);
    && m.env.status.components == cs && m.env.status.activeNamespace == l.env.status.activeNamespace
    && i <= LoopAt(m) <= |cs|
    && (l.pc.CheckTracked? || l.pc.DelTracked? ==> i < |cs| && cs[i].releaseName != "")
    && v.releases == (if l.pc.DelTracked? && TakesEffect(f) then w.releases - {TrackedKey(l.env, i)} else w.releases)
    && (l.pc.CheckTracked? ==> (LoopAt(m) == i <==> f.NoFault? && TrackedKey(l.env, i) in w.releases))
    && (l.pc.DelTracked? ==> LoopAt(m) > i)
    && (forall j :: i <= j < LoopAt(m) && cs[j].releaseName != "" ==> (l.pc.CheckTracked? || l.pc.DelTracked?) && i == j)
  }

  lemma LoopReleases(cfg: Config, x: string, w: World, l: Local, f: Fault)
    requires Looping(cfg, l) && (l.pc.CheckTracked? || l.pc.DelTracked?)
    ensures var s := Step(cfg, x, w, l, f); var r := TrackedKey(l.env, l.pc.i);
      && (l.pc.CheckTracked? ==> s.w == w && (s.reply == Presence(true) <==> f.NoFault? && r in w.releases))
      && (l.pc.DelTracked? ==> s.w.releases == if TakesEffect(f) then w.releases - {r} else w.releases)
  {
    hide Next, WriteEnv, WriteNs, WriteObj;
  }

  /** The loop goes on at the next entry with a name. */
  lemma TrackedLeads(cfg: Config, l: Local, p: Path, i: nat)
    requires cfg.helm && l.env.status.components != [] && i <= |l.env.status.components|
    ensures var m := TrackedFrom(l, p, i); var cs := l.env.status.components;
      && Looping(cfg, m) && m.env == l.env && i <= LoopAt(m) <= |cs|
      && (forall k :: i <= k < LoopAt(m) ==> cs[k].releaseName == "")
    ensures UninstallFrom(cfg, l, p) == TrackedFrom(l, p, 0)
  {
    SkipsNameless(l.env.status.components, i);
  }

  ghost predicate LoopsOn(cfg: Config, l: Local, m: Local, r: Reply) {
    var cs := l.env.status.components;
    && (m.pc.Idle? || Looping(cfg, m))
    && m.env.status.components == cs && m.env.status.activeNamespace == l.env.status.activeNamespace
    && LoopAt(l) <= LoopAt(m) <= |cs|
    && (l.pc.CheckTracked? ==> (LoopAt(m) == l.pc.i <==> r == Presence(true)))
    && (l.pc.DelTracked? ==> LoopAt(m) > l.pc.i)
    && (forall j :: LoopAt(l) <= j < LoopAt(m) && cs[j].releaseName != "" ==> (l.pc.CheckTracked? || l.pc.DelTracked?) && l.pc.i == j)
  }

  lemma LoopInside(cfg: Config, l: Local, r: Reply, now: Time)
    requires Looping(cfg, l) && (l.pc.CheckTracked? || l.pc.DelTracked?)
    ensures LoopsOn(cfg, l, OnTearing(cfg, l, r, now), r)
  {
    TrackedLeads(cfg, l, PathOf(l.pc), l.pc.i + 1);
    hide TrackedFrom, UninstallFrom, OnNsFound;
  }

  lemma LoopBefore(cfg: Config, l: Local, r: Reply, now: Time)
    requires Looping(cfg, l) && (l.pc.GetAdmin? || l.pc.DelAdmin? || l.pc.GetRoute? || l.pc.DelRoute?)
    ensures LoopsOn(cfg, l, OnTearing(cfg, l, r, now), r)
  {
    TrackedLeads(cfg, l, PathOf(l.pc), 0);
    hide TrackedFrom, UninstallFrom, OnNsFound, NsCleaned, NsNotCleaned;
  }

  lemma LoopAfter(cfg: Config, l: Local, r: Reply, now: Time)
    requires Looping(cfg, l) && (l.pc.FindNs? || l.pc.DelNs?)
    ensures LoopsOn(cfg, l, OnTearing(cfg, l, r, now), r)
  {
    hide TrackedFrom, UninstallFrom;
  }

  lemma LoopNext(cfg: Config, x: string, l: Local, r: Reply, now: Time)
    requires Looping(cfg, l) && Tearing(l.pc)
    ensures LoopsOn(cfg, l, Next(cfg, x, l, r, now), r)
  {
    hide OnTearing, LoopsOn, OnBuilding;
    if l.pc.CheckTracked? || l.pc.DelTracked? { LoopInside(cfg, l, r, now); }
    else if l.pc.FindNs? || l.pc.DelNs? { LoopAfter(cfg, l, r, now); }
    else { LoopBefore(cfg, l, r, now); }
  }

  lemma UninstallStep(cfg: Config, x: string, w: World, l: Local, f: Fault)
    requires Looping(cfg, l) && Tearing(l.pc)
    ensures var s := Step(cfg, x, w, l, f); UninstallsOne(w, s.w, l, s.l, f) && (s.l.pc.Idle? || Looping(cfg, s.l))
  {
    hide Step, Next;
    var s := Step(cfg, x, w, l, f);
    StepParts(cfg, x, w, l, f);
    LoopNext(cfg, x, l, s.reply, w.now);
    if l.pc.CheckTracked? || l.pc.DelTracked? { LoopReleases(cfg, x, w, l, f); }
  }

  // ---------------------------------------------------------------- the whole loop

  /** A call for this very entry went wrong: its look-up did, or its uninstall did not take effect. */
  predicate Misses(m: Moment, j: nat) {
    || (m.pc.CheckTracked? && m.pc.i == j && !m.fault.NoFault?)
    || (m.pc.DelTracked? && m.pc.i == j && !TakesEffect(m.fault))
  }

  predicate Missed(calls: seq<Moment>, j: nat) {
    exists k :: 0 <= k < |calls| && Misses(calls[k], j)
  }

  /** Nothing was done for this release from an entry at or after `from`. */
  predicate Overlooked(env: EphemeralEnv, from: int, calls: seq<Moment>, r: ReleaseKey) {
    forall j: nat :: from <= j < |env.status.components| && env.status.components[j].releaseName != "" && TrackedKey(env, j) == r ==> Missed(calls, j)
  }

  predicate FromEntry(from: int, calls: seq<Moment>) {
    forall k :: 0 <= k < |calls| ==>
      (calls[k].pc.CheckTracked? ==> calls[k].pc.i >= from) && (calls[k].pc.DelTracked? ==> calls[k].pc.i >= from)
  }

  /** The outcome for the entries the loop had not dealt with. */
  ghost predicate Contained(w: World, v: World, l: Local, calls: seq<Moment>) {
    && v.releases <= w.releases && FromEntry(LoopAt(l), calls)
    && (forall r :: r in w.releases ==> (r in v.releases <==> Overlooked(l.env, LoopAt(l), calls, r)))
  }

  lemma MissedFirst(m: Moment, calls: seq<Moment>, j: nat)
    ensures Missed([m] + calls, j) <==> Misses(m, j) || Missed(calls, j)
  {
    var all := [m] + calls;
    if Missed(calls, j) {
      var k :| 0 <= k < |calls| && Misses(calls[k], j);
      assert all[k + 1] == calls[k];
    }
    if Missed(all, j) && !Misses(m, j) {
      var k :| 0 <= k < |all| && Misses(all[k], j);
      assert all[k] == calls[k - 1];
    }
    assert all[0] == m;
  }

  lemma NotBefore(from: int, calls: seq<Moment>, j: nat)
    requires FromEntry(from, calls) && j < from
    ensures !Missed(calls, j)
  {
  }

  lemma OneMoreCall(m: Moment, calls: seq<Moment>, from: int, to: int)
    requires FromEntry(to, calls) && from <= to && (m.pc.CheckTracked? || m.pc.DelTracked? ==> m.pc.i >= from)
    ensures FromEntry(from, [m] + calls)
  {
  }

  predicate SameEntries(env: EphemeralEnv, env': EphemeralEnv) {
    env.status.components == env'.status.components && env.status.activeNamespace == env'.status.activeNamespace
  }

  lemma EntryKeys(env: EphemeralEnv, env': EphemeralEnv, j: nat)
    requires SameEntries(env, env') && j < |env.status.components|
    ensures TrackedKey(env, j) == TrackedKey(env', j)
  {
  }

  /** A call that misses nothing, over entries without a name. */
  lemma OverlookedOn(env: EphemeralEnv, env': EphemeralEnv, from: int, to: int, m: Moment, calls: seq<Moment>, r: ReleaseKey)
    requires SameEntries(env, env') && 0 <= from <= to <= |env.status.components|
    requires forall j :: from <= j < to ==> env.status.components[j].releaseName == ""
    requires forall j: nat :: !Misses(m, j)
    ensures Overlooked(env, from, [m] + calls, r) <==> Overlooked(env', to, calls, r)
  {
    hide Missed, Misses, TrackedKey;
    forall j: nat | j < |env.status.components| ensures TrackedKey(env, j) == TrackedKey(env', j) { EntryKeys(env, env', j); }
    forall j: nat ensures Missed([m] + calls, j) <==> Missed(calls, j) { MissedFirst(m, calls, j); }
  }

  /** A call that ends what is done for its entry. */
  lemma OverlookedPast(env: EphemeralEnv, env': EphemeralEnv, from: nat, to: int, m: Moment, calls: seq<Moment>, r: ReleaseKey)
    requires SameEntries(env, env') && from < to <= |env.status.components| && env.status.components[from].releaseName != ""
    requires forall j :: from < j < to ==> env.status.components[j].releaseName == ""
    requires forall j: nat :: j != from ==> !Misses(m, j)
    requires FromEntry(to, calls)
    ensures Overlooked(env, from, [m] + calls, r) <==> (TrackedKey(env, from) == r ==> Misses(m, from)) && Overlooked(env', to, calls, r)
  {
    hide Missed, Misses, TrackedKey, FromEntry;
    forall j: nat | j < |env.status.components| ensures TrackedKey(env, j) == TrackedKey(env', j) { EntryKeys(env, env', j); }
    forall j: nat ensures Missed([m] + calls, j) <==> Misses(m, j) || Missed(calls, j) { MissedFirst(m, calls, j); }
    NotBefore(to, calls, from);
  }

  lemma ContainedStep(w: World, v: World, u: World, l: Local, l': Local, m: Moment, calls: seq<Moment>)
    requires UninstallsOne(w, v, l, l', m.fault) && m.pc == l.pc && Contained(v, u, l', calls)
    ensures Contained(w, u, l, [m] + calls)
  {
    hide Missed, FromEntry, Overlooked, TrackedKey;
    OneMoreCall(m, calls, LoopAt(l), LoopAt(l'));
    forall r | r in w.releases ensures r in u.releases <==> Overlooked(l.env, LoopAt(l), [m] + calls, r) {
      if (l.pc.CheckTracked? || l.pc.DelTracked?) && LoopAt(l') > LoopAt(l) {
        OverlookedPast(l.env, l'.env, LoopAt(l), LoopAt(l'), m, calls, r);
      } else {
        OverlookedOn(l.env, l'.env, LoopAt(l), LoopAt(l'), m, calls, r);
      }
    }
  }

  lemma EndContained(cfg: Config, x: string, w: World, l: Local, f: Fault)
    requires Looping(cfg, l) && !Tearing(l.pc)
    ensures var s := Step(cfg, x, w, l, f); UninstallsOne(w, s.w, l, l, f) && s.l.pc.Idle?
  {
    hide Step, Next;
    var s := Step(cfg, x, w, l, f);
    StepParts(cfg, x, w, l, f);
    NextOpening(cfg, x, l, s.reply, w.now);
  }

  lemma NothingLeft(w: World, v: World, l: Local)
    requires v.releases == w.releases && LoopAt(l) == |l.env.status.components|
    ensures Contained(w, v, l, [])
  {
  }

  lemma {:induction false} UninstallComplete(cfg: Config, x: string, g: Global, fates: seq<Fate>)
    requires Sound(cfg, x, LocalOf(g, x)) && Looping(cfg, LocalOf(g, x)) && Undisturbed(fates)
    ensures var c := Complete(cfg, x, g, fates); Contained(g.w, c.g.w, LocalOf(g, x), c.calls)
    decreases Part(LocalOf(g, x).pc), Ahead(LocalOf(g, x)), Turn(LocalOf(g, x).pc), Left(LocalOf(g, x))
  {
    hide Meet, Sound, Step, Contained, UninstallsOne, LoopAt, Part, Ahead, Turn, Left;
    var fate, here := NextFate(fates), LocalOf(g, x);
    var v := Later(g.w, Seconds(fate.before));
    var h := Meet(cfg, x, g, fate);
    MeetMoves(cfg, x, g, fate);
    CalmMeet(cfg, x, g, fate);
    var d := Complete(cfg, x, h, LaterFates(fates));
    var m := Moment(here.pc, fate.fault);
    if Tearing(here.pc) {
      UninstallStep(cfg, x, v, here, fate.fault);
      if LocalOf(h, x).pc.Idle? {
        LastStep(cfg, x, v, here, fate.fault);
        assert d.calls == [] && d.g == h;
        NothingLeft(h.w, d.g.w, LocalOf(h, x));
      } else {
        UninstallComplete(cfg, x, h, LaterFates(fates));
      }
      ContainedStep(v, h.w, d.g.w, here, LocalOf(h, x), m, d.calls);
    } else {
      EndContained(cfg, x, v, here, fate.fault);
      assert LoopAt(here) == |here.env.status.components| by { PastLoop(cfg, here); }
      assert d.calls == [] && d.g == h;
      NothingLeft(h.w, d.g.w, here);
      ContainedStep(v, h.w, d.g.w, here, here, m, d.calls);
    }
    SameReleasesContained(g.w, v, Complete(cfg, x, g, fates).g.w, here, Complete(cfg, x, g, fates).calls);
  }

  lemma PastLoop(cfg: Config, l: Local)
    requires Looping(cfg, l) && !Tearing(l.pc)
    ensures LoopAt(l) == |l.env.status.components|
  {
  }

  lemma LastStep(cfg: Config, x: string, w: World, l: Local, f: Fault)
    requires Looping(cfg, l) && Tearing(l.pc) && Step(cfg, x, w, l, f).l.pc.Idle?
    ensures var m := Step(cfg, x, w, l, f).l; LoopAt(m) == |m.env.status.components|
  {
    hide Step;
  }

  lemma SameReleasesContained(w: World, v: World, u: World, l: Local, calls: seq<Moment>)
    requires Contained(v, u, l, calls) && v.releases == w.releases
    ensures Contained(w, u, l, calls)
  {
    hide Overlooked, FromEntry;
  }

  predicate BeforeLoop(pc: Pc) { pc.GetAdmin? || pc.DelAdmin? || pc.GetRoute? || pc.DelRoute? }

  lemma EarlySound(cfg: Config, x: string, l: Local)
    requires BeforeLoop(l.pc)
    ensures Sound(cfg, x, l)
  {
  }

  /** The rest of a pass that is about to tear down. */
  ghost function FromHere(cfg: Config, x: string, g: Global, fates: seq<Fate>): Completion
    requires BeforeLoop(LocalOf(g, x).pc)
  {
    EarlySound(cfg, x, LocalOf(g, x));
    Complete(cfg, x, g, fates)
  }

  /** A teardown that has yet to uninstall, deleting or expiring, any of its calls failing: a release is still
      on record afterwards exactly if it was and every entry that names it was missed - its own look-up
      failed, or its own uninstall did not take effect. So untracked releases stay, and none is added. */
  lemma UninstallContainsFaults(cfg: Config, x: string, g: Global, fates: seq<Fate>)
    requires var l := LocalOf(g, x); BeforeLoop(l.pc) && cfg.helm && l.env.status.components != []
    requires Undisturbed(fates)
    ensures var c := FromHere(cfg, x, g, fates); var env := LocalOf(g, x).env;
      && c.g.w.releases <= g.w.releases
      && (forall r :: r in g.w.releases ==>
            (r in c.g.w.releases <==>
              forall j: nat :: j < |env.status.components| && env.status.components[j].releaseName != "" && TrackedKey(env, j) == r ==> Missed(c.calls, j)))
  {
    hide Complete, Missed;
    EarlySound(cfg, x, LocalOf(g, x));
    UninstallComplete(cfg, x, g, fates);
  }

  /** After a teardown whose calls all got through, no tracked release is on record, and the same teardown
      again changes no release. */
  lemma UninstallTwice(cfg: Config, x: string, g: Global, fates: seq<Fate>, h: Global, fates': seq<Fate>)
    requires var l := LocalOf(g, x); BeforeLoop(l.pc) && cfg.helm && l.env.status.components != []
    requires BeforeLoop(LocalOf(h, x).pc) && SameEntries(LocalOf(h, x).env, LocalOf(g, x).env)
    requires Undisturbed(fates) && Undisturbed(fates')
    requires forall k :: 0 <= k < |FromHere(cfg, x, g, fates).calls| ==> FromHere(cfg, x, g, fates).calls[k].fault.NoFault?
    requires h.w.releases == FromHere(cfg, x, g, fates).g.w.releases
    ensures forall r :: r in h.w.releases ==> !IsTracked(LocalOf(g, x).env, r)
    ensures FromHere(cfg, x, h, fates').g.w.releases == h.w.releases
  {
    hide FromHere, TrackedKey;
    UninstallContainsFaults(cfg, x, g, fates);
    UninstallContainsFaults(cfg, x, h, fates');
    var env, env' := LocalOf(g, x).env, LocalOf(h, x).env;
    forall r | r in h.w.releases ensures !IsTracked(env, r) && r in FromHere(cfg, x, h, fates').g.w.releases {
      forall j: nat | j < |env.status.components| ensures TrackedKey(env, j) == TrackedKey(env', j) { EntryKeys(env', env, j); }
    }
  }

  // ---------------------------------------------------------------- without tracked releases

  /** The release that is looked for where none is tracked. */
  function LegacyKey(x: string, env: EphemeralEnv): ReleaseKey { ReleaseKey(env.status.activeNamespace, "env-" + x) }

  predicate MissesLegacy(m: Moment) {
    (m.pc.CheckLegacy? && !m.fault.NoFault?) || (m.pc.DelLegacy? && !TakesEffect(m.fault))
  }

  predicate LegacyMissed(calls: seq<Moment>) {
    exists k :: 0 <= k < |calls| && MissesLegacy(calls[k])
  }

  /** A teardown that tracks nothing. */
  predicate Untracked(l: Local) {
    l.env.status.components == [] && (Tearing(l.pc) || l.pc.DropFinalizer? || l.pc.SaveExpired? || l.pc.Idle?) && !l.pc.CheckTracked? && !l.pc.DelTracked?
  }

  /** The legacy release is still to be dealt with. */
  predicate Awaits(cfg: Config, pc: Pc) { cfg.helm && (BeforeLoop(pc) || pc.CheckLegacy? || pc.DelLegacy?) }

  predicate LegacyOutcome(cfg: Config, x: string, w: World, v: World, l: Local, missed: bool) {
    v.releases == if Awaits(cfg, l.pc) && !missed then w.releases - {LegacyKey(x, l.env)} else w.releases
  }

  lemma LegacyCalls(cfg: Config, x: string, w: World, l: Local, f: Fault)
    requires l.pc.CheckLegacy? || l.pc.DelLegacy?
    ensures var s := Step(cfg, x, w, l, f); var r := LegacyKey(x, l.env);
      && (l.pc.CheckLegacy? ==> s.w == w && (s.reply == Presence(true) <==> f.NoFault? && r in w.releases))
      && (l.pc.DelLegacy? ==> s.w.releases == if TakesEffect(f) then w.releases - {r} else w.releases)
  {
    hide Next, WriteEnv, WriteNs, WriteObj;
  }

  predicate UntrackedMoves(cfg: Config, l: Local, m: Local, r: Reply) {
    && Untracked(m) && m.env.status.activeNamespace == l.env.status.activeNamespace
    && (BeforeLoop(l.pc) && cfg.helm ==> Awaits(cfg, m.pc) && !m.pc.DelLegacy?)
    && (l.pc.CheckLegacy? ==> m.pc.DelLegacy? || !Awaits(cfg, m.pc))
    && (l.pc.CheckLegacy? ==> (m.pc.DelLegacy? <==> r == Presence(true)))
    && (!Awaits(cfg, l.pc) || l.pc.DelLegacy? ==> !Awaits(cfg, m.pc))
    && (!cfg.helm && !l.pc.CheckLegacy? && !l.pc.DelLegacy? ==> !m.pc.CheckLegacy? && !m.pc.DelLegacy?)
  }

  lemma UntrackedTearing(cfg: Config, x: string, l: Local, r: Reply, now: Time)
    requires Untracked(l) && Tearing(l.pc)
    ensures UntrackedMoves(cfg, l, OnTearing(cfg, l, r, now), r)
  {
    hide TrackedFrom, NextTracked, SetCondition;
    if l.pc.FindNs? || l.pc.DelNs? { UntrackedNs(cfg, l, r, now); hide OnTearing; }
  }

  lemma UntrackedNs(cfg: Config, l: Local, r: Reply, now: Time)
    requires Untracked(l) && (l.pc.FindNs? || l.pc.DelNs?)
    ensures UntrackedMoves(cfg, l, OnTearing(cfg, l, r, now), r)
  {
    hide UninstallFrom;
  }

  lemma UntrackedNext(cfg: Config, x: string, l: Local, r: Reply, now: Time)
    requires Untracked(l) && !l.pc.Idle?
    ensures UntrackedMoves(cfg, l, Next(cfg, x, l, r, now), r)
  {
    hide OnTearing, UntrackedMoves, Next;
    if Tearing(l.pc) {
      UntrackedTearing(cfg, x, l, r, now);
      TearingNext(cfg, x, l, r, now);
    } else {
      UntrackedEnds(cfg, x, l, r, now);
    }
  }

  lemma TearingNext(cfg: Config, x: string, l: Local, r: Reply, now: Time)
    requires Tearing(l.pc)
    ensures Next(cfg, x, l, r, now) == OnTearing(cfg, l, r, now)
  {
    hide OnTearing, OnBuilding;
  }

  lemma UntrackedEnds(cfg: Config, x: string, l: Local, r: Reply, now: Time)
    requires Untracked(l) && (l.pc.DropFinalizer? || l.pc.SaveExpired?)
    ensures UntrackedMoves(cfg, l, Next(cfg, x, l, r, now), r)
  {
    hide OnBuilding, OnTearing;
  }

  lemma LegacyStep(cfg: Config, x: string, w: World, l: Local, f: Fault)
    requires Untracked(l) && !l.pc.Idle? && (!cfg.helm ==> !l.pc.CheckLegacy? && !l.pc.DelLegacy?)
    ensures var s := Step(cfg, x, w, l, f); var m := Moment(l.pc, f);
      && Untracked(s.l) && LegacyKey(x, s.l.env) == LegacyKey(x, l.env) && (!cfg.helm ==> !s.l.pc.CheckLegacy? && !s.l.pc.DelLegacy?)
      && (Awaits(cfg, s.l.pc) ==> Awaits(cfg, l.pc) && s.w.releases == w.releases && !MissesLegacy(m))
      && (!Awaits(cfg, s.l.pc) ==> LegacyOutcome(cfg, x, w, s.w, l, MissesLegacy(m)))
      && (!Awaits(cfg, l.pc) ==> !MissesLegacy(m))
  {
    hide Step, Next;
    var s := Step(cfg, x, w, l, f);
    StepParts(cfg, x, w, l, f);
    UntrackedNext(cfg, x, l, s.reply, w.now);
    if l.pc.CheckLegacy? || l.pc.DelLegacy? { LegacyCalls(cfg, x, w, l, f); }
    hide Untracked;
  }

  lemma LegacyMissedFirst(m: Moment, calls: seq<Moment>)
    ensures LegacyMissed([m] + calls) <==> MissesLegacy(m) || LegacyMissed(calls)
  {
    var all := [m] + calls;
    if LegacyMissed(calls) {
      var k :| 0 <= k < |calls| && MissesLegacy(calls[k]);
      assert all[k + 1] == calls[k];
    }
    if LegacyMissed(all) && !MissesLegacy(m) {
      var k :| 0 <= k < |all| && MissesLegacy(all[k]);
      assert all[k] == calls[k - 1];
    }
    assert all[0] == m;
  }

  lemma {:induction false} LegacyComplete(cfg: Config, x: string, g: Global, fates: seq<Fate>)
    requires Sound(cfg, x, LocalOf(g, x)) && Untracked(LocalOf(g, x)) && Undisturbed(fates)
    requires !cfg.helm ==> !LocalOf(g, x).pc.CheckLegacy? && !LocalOf(g, x).pc.DelLegacy?
    ensures var c := Complete(cfg, x, g, fates);
      LegacyOutcome(cfg, x, g.w, c.g.w, LocalOf(g, x), LegacyMissed(c.calls)) && (!Awaits(cfg, LocalOf(g, x).pc) ==> !LegacyMissed(c.calls))
    decreases Part(LocalOf(g, x).pc), Ahead(LocalOf(g, x)), Turn(LocalOf(g, x).pc), Left(LocalOf(g, x))
  {
    hide Meet, Sound, Step, MissesLegacy, LegacyMissed, LegacyKey, Untracked, Part, Ahead, Turn, Left;
    var fate, here := NextFate(fates), LocalOf(g, x);
    if here.pc.Idle? {
      assert !LegacyMissed([]) by { NoneMissed(); }
    } else {
      var v := Later(g.w, Seconds(fate.before));
      var h := Meet(cfg, x, g, fate);
      MeetMoves(cfg, x, g, fate);
      CalmMeet(cfg, x, g, fate);
      LegacyStep(cfg, x, v, here, fate.fault);
      LegacyComplete(cfg, x, h, LaterFates(fates));
      LegacyMissedFirst(Moment(here.pc, fate.fault), Complete(cfg, x, h, LaterFates(fates)).calls);
    }
  }

  lemma NoneMissed()
    ensures !LegacyMissed([])
  {
  }

  /** A teardown where no release is tracked, any of its calls failing: with a Helm client it takes the one
      named after the environment alone off the record, if it was on it, unless its look-up failed or its
      uninstall did not take effect; every other release stays, and all do without a client. */
  lemma LegacyUninstalled(cfg: Config, x: string, g: Global, fates: seq<Fate>)
    requires var l := LocalOf(g, x); BeforeLoop(l.pc) && l.env.status.components == [] && Undisturbed(fates)
    ensures var c := FromHere(cfg, x, g, fates); var r := ReleaseKey(LocalOf(g, x).env.status.activeNamespace, "env-" + x);
      forall q :: q in c.g.w.releases <==> q in g.w.releases && (q == r && cfg.helm ==> LegacyMissed(c.calls))
  {
    hide Complete, LegacyMissed;
    EarlySound(cfg, x, LocalOf(g, x));
    LegacyComplete(cfg, x, g, fates);
  }
}

/** The releases of an environment are always a prefix of its component list. */
module Prefix {
  import opened Model
  import opened Store
  import opened Machine
  import opened Progress
  import opened Teardown
  import opened Calls
  import opened Protocol
  import opened Scope
  import opened Runs
  import Orphans

  function ReleasesIn(w: World, ns: string): set<ReleaseKey> {
    set r | r in w.releases && r.namespace == ns
  }

  function ReleasesOf(x: string, cs: seq<Component>): set<ReleaseKey> {
    set c | c in cs :: Release(x, NsName(x), c)
  }

  ghost predicate PrefixRecorded(w: World, x: string, cs: seq<Component>, k: nat) {
    k <= |cs| && ReleasesIn(w, NsName(x)) == ReleasesOf(x, cs[..k])
  }

  predicate Uninstalls(g: Global, e: Event, x: string) {
    e.Work? && e.x == x && (LocalOf(g, x).pc.DelTracked? || LocalOf(g, x).pc.DelLegacy?)
  }

  /** Clean-up has begun to uninstall, and the namespace has not gone since. */
  ghost predicate Torn(cfg: Config, g: Global, es: seq<Event>, x: string) {
    es != [] &&
    var h, e := Run(cfg, g, es[..|es| - 1]), es[|es| - 1];
    Uninstalls(h, e, x) || (Torn(cfg, g, es[..|es| - 1], x) && !(e == FinishNs(NsName(x)) && Terminating(h.w, NsName(x))))
  }

  /** The list resolved for a deployment of x is always `cs`. */
  predicate Fixed(cfg: Config, g: Global, e: Event, x: string, cs: seq<Component>) {
    e.Work? && e.x == x ==>
      var m := Step(cfg, x, g.w, LocalOf(g, x), e.fault).l;
      m.pc.Check? ==> m.resolved == cs
  }

  ghost predicate FixedRun(cfg: Config, g: Global, es: seq<Event>, x: string, cs: seq<Component>) {
    es == [] || (FixedRun(cfg, g, es[..|es| - 1], x, cs) && Fixed(cfg, Run(cfg, g, es[..|es| - 1]), es[|es| - 1], x, cs))
  }

  /** What the worker takes to be on record is a prefix of the list, and on record while the namespace lives. */
  ghost predicate Behind(l: Local, cs: seq<Component>) {
    && (l.pc.Check? || l.pc.Deploy? ==> l.resolved == cs)
    && (Building(l.pc) || l.pc == Save(Activated) ==> Claimed(l) <= cs && (l.resolved == [] || l.resolved == cs))
  }

  ghost predicate Tracks(w: World, x: string, l: Local, cs: seq<Component>) {
    exists k :: PrefixRecorded(w, x, cs, k)
      && ((Building(l.pc) || l.pc == Save(Activated)) && Live(w, NsName(x)) ==> |Claimed(l)| <= k)
  }

  // ---------------------------------------------------------------- local part

  lemma BehindBuilding(cfg: Config, x: string, l: Local, r: Reply, now: Time, cs: seq<Component>)
    requires ShapedLocal(cfg, x, l) && Behind(l, cs) && Building(l.pc)
    requires var m := Next(cfg, x, l, r, now); m.pc.Check? ==> m.resolved == cs
    ensures Behind(Next(cfg, x, l, r, now), cs)
  {
    hide Next, Built, Needed, Claimed, StageConfirmed, ReleaseConfirmed, Passed;
    var m := Next(cfg, x, l, r, now);
    NextBuilding(cfg, x, l, r, now);
    if AddsClaim(l, m, r) { ClaimNext(cfg, x, l, cs); }
  }

  lemma BehindNext(cfg: Config, x: string, l: Local, r: Reply, now: Time, cs: seq<Component>)
    requires ShapedLocal(cfg, x, l) && Behind(l, cs)
    requires var m := Next(cfg, x, l, r, now); m.pc.Check? ==> m.resolved == cs
    ensures Behind(Next(cfg, x, l, r, now), cs)
  {
    hide Next, Behind, ShapedLocal, Claimed;
    if Building(l.pc) {
      BehindBuilding(cfg, x, l, r, now, cs);
    } else if Tearing(l.pc) {
      BehindTearing(cfg, x, l, r, now, cs);
    } else {
      BehindOpening(cfg, x, l, r, now, cs);
    }
  }

  lemma BehindTearing(cfg: Config, x: string, l: Local, r: Reply, now: Time, cs: seq<Component>)
    requires Tearing(l.pc)
    ensures Behind(Next(cfg, x, l, r, now), cs)
  {
    hide Next, NsGoing, Claimed;
    NextTearing(cfg, x, l, r, now);
  }

  lemma BehindOpening(cfg: Config, x: string, l: Local, r: Reply, now: Time, cs: seq<Component>)
    requires ShapedLocal(cfg, x, l) && !Building(l.pc) && !Tearing(l.pc)
    ensures Behind(Next(cfg, x, l, r, now), cs)
  {
    hide Next, Built, NsEnsured, FailStep, Claimed;
    NextOpening(cfg, x, l, r, now);
    if l.pc.GetNs? || l.pc.PutNs? {
      SoundBuilt(cfg, x, l);
      NsEnsuredBuilt(cfg, x, l, now);
      NothingClaimed(x, l, now);
    }
  }

  lemma NothingClaimed(x: string, l: Local, now: Time)
    ensures Claimed(NsEnsured(x, l, now)) == [] && NsEnsured(x, l, now).pc == GetStage(SaStage) && NsEnsured(x, l, now).resolved == l.resolved
  {
  }

  lemma ClaimNext(cfg: Config, x: string, l: Local, cs: seq<Component>)
    requires ShapedLocal(cfg, x, l) && Behind(l, cs) && (l.pc.Check? || l.pc.Deploy?)
    ensures |l.pc.done| < |cs| && l.pc.todo == cs && |Claimed(l)| == |l.pc.done|
    ensures Claimed(l) + [l.pc.todo[|l.pc.done|]] == cs[..|l.pc.done| + 1]
  {
  }

  // ---------------------------------------------------------------- the store

  lemma StillToDeploy(cfg: Config, x: string, l: Local)
    requires Built(cfg, x, l) && (l.pc.Check? || l.pc.Deploy?)
    ensures |l.pc.done| < |l.pc.todo|
  {
  }

  lemma ReleaseNamespace(x: string, c: Component)
    ensures Release(x, NsName(x), c).namespace == NsName(x)
  {
  }

  /** Off the deploying and uninstalling calls the releases stay; a deployment records the component at hand. */
  lemma ReleaseStep(cfg: Config, x: string, w: World, l: Local, f: Fault)
    requires ShapedLocal(cfg, x, l) && !l.pc.DelTracked? && !l.pc.DelLegacy?
    ensures var v := Step(cfg, x, w, l, f).w;
      || v.releases == w.releases
      || (l.pc.Deploy? && |l.pc.done| < |l.pc.todo| && Live(w, NsName(x)) && v.releases == w.releases + {Release(x, NsName(x), l.pc.todo[|l.pc.done|])})
    ensures var s := Step(cfg, x, w, l, f);
      (l.pc.Check? || l.pc.Deploy?) && |l.pc.done| < |l.pc.todo| && ReleaseConfirmed(l, s.reply, l.pc.todo[|l.pc.done|]) ==>
        Release(x, NsName(x), l.pc.todo[|l.pc.done|]) in s.w.releases
  {
    hide Next, NsName, Release, LegacyRelease, WriteEnv, WriteNs, WriteObj;
    StepParts(cfg, x, w, l, f);
    hide Built;
    if l.pc.Check? || l.pc.Deploy? {
      BuiltActive(cfg, x, l);
      assert |l.pc.done| < |l.pc.todo| by { StillToDeploy(cfg, x, l); }
      assert Release(x, NsName(x), l.pc.todo[|l.pc.done|]).namespace == NsName(x) by { ReleaseNamespace(x, l.pc.todo[|l.pc.done|]); }
    }
  }

  lemma LongerPrefix(x: string, cs: seq<Component>, k: nat, n: nat)
    requires n <= k <= |cs| && n < |cs|
    ensures ReleasesOf(x, cs[..if n < k then k else k + 1]) == ReleasesOf(x, cs[..k]) + {Release(x, NsName(x), cs[n])}
  {
    hide NsName, Release;
    if n < k { assert cs[n] == cs[..k][n]; } else { assert cs[..k + 1] == cs[..k] + [cs[n]]; }
  }

  lemma PrefixGrows(w: World, v: World, x: string, cs: seq<Component>, k: nat, n: nat)
    requires PrefixRecorded(w, x, cs, k) && n <= k && n < |cs|
    requires v.releases == w.releases + {Release(x, NsName(x), cs[n])}
    ensures exists j :: PrefixRecorded(v, x, cs, j) && n < j && k <= j
  {
    hide NsName, ReleasesOf;
    var r := Release(x, NsName(x), cs[n]);
    assert ReleasesIn(v, NsName(x)) == ReleasesIn(w, NsName(x)) + {r};
    LongerPrefix(x, cs, k, n);
    assert PrefixRecorded(v, x, cs, if n < k then k else k + 1);
  }

  /** Release names may collide; then the longer prefix has the same releases. */
  lemma PrefixStretches(w: World, x: string, cs: seq<Component>, k: nat, n: nat)
    requires PrefixRecorded(w, x, cs, k) && n <= k && n < |cs|
    requires Release(x, NsName(x), cs[n]) in w.releases
    ensures exists j :: PrefixRecorded(w, x, cs, j) && n < j
  {
    hide NsName;
    assert w.releases == w.releases + {Release(x, NsName(x), cs[n])};
    PrefixGrows(w, w, x, cs, k, n);
  }

  // ---------------------------------------------------------------- one event

  lemma SameReleases(w: World, v: World, x: string, cs: seq<Component>)
    requires forall r: ReleaseKey :: r.namespace == NsName(x) ==> (r in v.releases <==> r in w.releases)
    ensures ReleasesIn(v, NsName(x)) == ReleasesIn(w, NsName(x))
    ensures forall k :: PrefixRecorded(w, x, cs, k) ==> PrefixRecorded(v, x, cs, k)
  {
    hide NsName, ReleasesOf;
  }

  /** A live namespace during a building step was live before it. */
  lemma LiveBefore(cfg: Config, x: string, w: World, l: Local, f: Fault)
    requires Building(l.pc)
    ensures Step(cfg, x, w, l, f).w.namespaces == w.namespaces
  {
    hide Step, Next;
    StepParts(cfg, x, w, l, f);
  }

  lemma TracksWork(cfg: Config, g: Global, x: string, f: Fault, cs: seq<Component>)
    requires Shaped(cfg, g, x) && Behind(LocalOf(g, x), cs) && Tracks(g.w, x, LocalOf(g, x), cs)
    requires !Uninstalls(g, Work(x, f), x)
    ensures var s := Step(cfg, x, g.w, LocalOf(g, x), f); Tracks(s.w, x, s.l, cs)
  {
    hide Step, NsName, Next, Built, ReleasesIn, ReleasesOf, PrefixRecorded, Release, Claimed, Needed, ShapedEnv;
    var w, l := g.w, LocalOf(g, x);
    var s := Step(cfg, x, w, l, f);
    var k: nat :| PrefixRecorded(w, x, cs, k) && ((Building(l.pc) || l.pc == Save(Activated)) && Live(w, NsName(x)) ==> |Claimed(l)| <= k);
    ReleaseStep(cfg, x, w, l, f);
    if Building(l.pc) {
      TracksBuilding(cfg, x, w, l, f, cs, k);
    } else {
      SameReleases(w, s.w, x, cs);
      assert !(Building(s.l.pc) || s.l.pc == Save(Activated)) || Claimed(s.l) == [] by { ClaimsFromBuilding(cfg, x, w, l, f); }
      assert PrefixRecorded(s.w, x, cs, k);
    }
  }

  lemma ClaimsFromBuilding(cfg: Config, x: string, w: World, l: Local, f: Fault)
    requires !Building(l.pc)
    ensures var m := Step(cfg, x, w, l, f).l; !(Building(m.pc) || m.pc == Save(Activated)) || Claimed(m) == []
  {
    hide Next, Exec, Request, NsEnsured;
    var r := Exec(w, Request(cfg, x, l), f).reply;
    if Tearing(l.pc) { NextTearing(cfg, x, l, r, w.now); } else { NextOpening(cfg, x, l, r, w.now); NothingClaimed(x, l, w.now); }
  }

  lemma TracksBuilding(cfg: Config, x: string, w: World, l: Local, f: Fault, cs: seq<Component>, k: nat)
    requires ShapedLocal(cfg, x, l) && Behind(l, cs) && Building(l.pc)
    requires PrefixRecorded(w, x, cs, k) && (Live(w, NsName(x)) ==> |Claimed(l)| <= k)
    ensures var s := Step(cfg, x, w, l, f); Tracks(s.w, x, s.l, cs)
  {
    hide Step, NsName, Next, Built, ReleasesIn, ReleasesOf, PrefixRecorded, Release, Claimed, Needed, ShapedEnv, Passed, StageConfirmed;
    var s := Step(cfg, x, w, l, f);
    ReleaseStep(cfg, x, w, l, f);
    LiveBefore(cfg, x, w, l, f);
    assert !GaveUp(s.l) ==> Claimed(s.l) == Claimed(l) || AddsClaim(l, s.l, s.reply) by {
      StepParts(cfg, x, w, l, f);
      NextBuilding(cfg, x, l, s.reply, w.now);
    }
    if l.pc.Check? || l.pc.Deploy? { ClaimNext(cfg, x, l, cs); }
    if !Live(w, NsName(x)) {
      SameReleases(w, s.w, x, cs);
      assert PrefixRecorded(s.w, x, cs, k);
    } else if s.w.releases != w.releases {
      PrefixGrows(w, s.w, x, cs, k, |l.pc.done|);
    } else if !GaveUp(s.l) && AddsClaim(l, s.l, s.reply) {
      PrefixStretches(w, x, cs, k, |l.pc.done|);
      var j: nat :| PrefixRecorded(w, x, cs, j) && |l.pc.done| < j;
      SameReleases(w, s.w, x, cs);
      assert PrefixRecorded(s.w, x, cs, j);
    } else {
      SameReleases(w, s.w, x, cs);
      assert PrefixRecorded(s.w, x, cs, k);
    }
  }

  lemma TracksQuiet(g: Global, e: Event, x: string, cs: seq<Component>)
    requires Tracks(g.w, x, LocalOf(g, x), cs)
    requires !(e == FinishNs(NsName(x)) && Terminating(g.w, NsName(x)))
    ensures Tracks(Ambient(g.w, e), x, LocalOf(g, x), cs)
  {
    hide Ambient, NsName, PrefixRecorded, ReleasesIn, ReleasesOf, Claimed;
    AmbientReleases(g.w, e, x);
    SameReleases(g.w, Ambient(g.w, e), x, cs);
  }

  lemma AmbientReleases(w: World, e: Event, x: string)
    requires !(e == FinishNs(NsName(x)) && Terminating(w, NsName(x)))
    ensures forall r: ReleaseKey :: r.namespace == NsName(x) ==> (r in Ambient(w, e).releases <==> r in w.releases)
    ensures Live(Ambient(w, e), NsName(x)) ==> Live(w, NsName(x))
  {
    Orphans.AmbientNs(w, e, x);
    hide NsName, PutEnv;
    match e
    case DeleteEnv(y) => if y in w.envs { PutEnvFrame(w, y, w.envs[y].(deleting := true)); }
    case EditEnv(y, spec, fs) => if y in w.envs { EditParts(w, y, spec, fs); PutEnvFrame(w, y, Edited(w.envs[y], spec, fs)); }
    case _ =>
  }

  /** When termination ends nothing is left, whatever was uninstalled before. */
  lemma TracksGone(g: Global, x: string, cs: seq<Component>)
    requires Terminating(g.w, NsName(x))
    ensures Tracks(DoFinishNs(g.w, NsName(x)), x, LocalOf(g, x), cs)
  {
    hide NsName, Claimed, Release;
    var v := DoFinishNs(g.w, NsName(x));
    assert ReleasesIn(v, NsName(x)) == {} == ReleasesOf(x, cs[..0]);
    assert PrefixRecorded(v, x, cs, 0);
  }

  lemma TracksOther(cfg: Config, g: Global, y: string, f: Fault, x: string, cs: seq<Component>)
    requires x != y && Shaped(cfg, g, y) && Tracks(g.w, x, LocalOf(g, x), cs)
    ensures var h := DoWork(cfg, g, y, f); Tracks(h.w, x, LocalOf(h, x), cs)
  {
    hide Step, NsName, PrefixRecorded, ReleasesIn, ReleasesOf, Claimed, Owned, OwnedRelease, Opened;
    var w, v := g.w, Step(cfg, y, g.w, LocalOf(g, y), f).w;
    WorkOnlyTouches(cfg, y, w, LocalOf(g, y), f);
    NsNameInjective(x, y);
    forall r: ReleaseKey | r.namespace == NsName(x) ensures r in v.releases <==> r in w.releases {
      OwnedByNs(x, r);
      OwnersDisjoint(x, y, Key(Role, "", ""), r);
    }
    SameReleases(w, v, x, cs);
  }

  lemma OwnedByNs(x: string, r: ReleaseKey)
    requires r.namespace == NsName(x)
    ensures OwnedRelease(x, r)
  {
  }

  lemma TracksExtend(g: Global, id: nat, f: Fault, x: string, cs: seq<Component>)
    requires Tracks(g.w, x, LocalOf(g, x), cs)
    ensures var h := DoExtendWrite(g, id, f); Tracks(h.w, x, LocalOf(h, x), cs)
  {
    hide NsName, PutEnv, PrefixRecorded, ReleasesIn, ReleasesOf, Claimed, Opened, Credit;
    if id in g.extensions {
      var u := g.extensions[id];
      ExtendWrites(g, id, f);
      if Accepted(g.w, u, f) { PutEnvFrame(g.w, u.env, g.w.envs[u.env].(status := Extended(u).status)); }
      SameReleases(g.w, DoExtendWrite(g, id, f).w, x, cs);
      hide DoExtendWrite;
    }
  }

  lemma TracksApply(cfg: Config, g: Global, e: Event, x: string, cs: seq<Component>)
    requires Shaped(cfg, g, x) && (e.Work? ==> Shaped(cfg, g, e.x))
    requires Behind(LocalOf(g, x), cs) && !Uninstalls(g, e, x)
    requires Tracks(g.w, x, LocalOf(g, x), cs) || (e == FinishNs(NsName(x)) && Terminating(g.w, NsName(x)))
    ensures var h := Apply(cfg, g, e); Tracks(h.w, x, LocalOf(h, x), cs)
  {
    hide Ambient, DoExtendWrite, Step, NsName, Shaped, Terminating, Claimed;
    match e
    case Work(y, f) =>
      if y == x { TracksWork(cfg, g, x, f, cs); } else { TracksOther(cfg, g, y, f, x, cs); }
    case ExtendWrite(id, f) => TracksExtend(g, id, f, x, cs);
    case ExtendRead(_, _, _) =>
    case CreateEnv(_, _, _, _) => assert Apply(cfg, g, e).w.releases == g.w.releases; SameReleases(g.w, Apply(cfg, g, e).w, x, cs); hide PrefixRecorded;
    case FinishNs(n) =>
      if n == NsName(x) && Terminating(g.w, n) { TracksGone(g, x, cs); assert Ambient(g.w, e) == DoFinishNs(g.w, n) by { FinishIs(g.w, n); } } else { TracksQuiet(g, e, x, cs); }
    case _ => TracksQuiet(g, e, x, cs);
  }

  lemma FinishIs(w: World, n: string)
    ensures Ambient(w, FinishNs(n)) == DoFinishNs(w, n)
  {
  }

  lemma BehindApply(cfg: Config, g: Global, e: Event, x: string, cs: seq<Component>)
    requires Shaped(cfg, g, x) && Behind(LocalOf(g, x), cs) && Fixed(cfg, g, e, x, cs)
    ensures Behind(LocalOf(Apply(cfg, g, e), x), cs)
  {
    hide Ambient, DoExtendWrite, Next, Behind, ShapedLocal, Exec, Request;
    if e.Work? && e.x == x {
      var l := LocalOf(g, x);
      BehindNext(cfg, x, l, Exec(g.w, Request(cfg, x, l), e.fault).reply, g.w.now, cs);
    } else if e.ExtendWrite? {
      assert DoExtendWrite(g, e.id, e.fault).locals == g.locals by { ExtendLocals(g, e.id, e.fault); }
    }
  }

  lemma ExtendLocals(g: Global, id: nat, f: Fault)
    ensures DoExtendWrite(g, id, f).locals == g.locals
  {
  }

  // ---------------------------------------------------------------- every run

  lemma {:induction false} PrefixRun(cfg: Config, g: Global, es: seq<Event>, x: string, cs: seq<Component>)
    requires Initial(g) && ReleasesIn(g.w, NsName(x)) == {} && FixedRun(cfg, g, es, x, cs)
    ensures var h := Run(cfg, g, es);
      Behind(LocalOf(h, x), cs) && (Torn(cfg, g, es, x) || Tracks(h.w, x, LocalOf(h, x), cs))
  {
    hide Apply, Behind, Tracks, Shaped, Fixed, Uninstalls, NsName, Terminating;
    if es == [] {
      PrefixInitially(g, x, cs);
    } else {
      var before, e := es[..|es| - 1], es[|es| - 1];
      PrefixRun(cfg, g, before, x, cs);
      ShapedRun(cfg, g, before, x);
      if e.Work? { ShapedRun(cfg, g, before, e.x); }
      BehindApply(cfg, Run(cfg, g, before), e, x, cs);
      if !Torn(cfg, g, es, x) { TracksApply(cfg, Run(cfg, g, before), e, x, cs); }
    }
  }

  lemma PrefixInitially(g: Global, x: string, cs: seq<Component>)
    requires Initial(g) && ReleasesIn(g.w, NsName(x)) == {}
    ensures Behind(LocalOf(g, x), cs) && Tracks(g.w, x, LocalOf(g, x), cs)
  {
    hide NsName, Release;
    assert ReleasesOf(x, cs[..0]) == {};
    assert PrefixRecorded(g.w, x, cs, 0);
  }

  /** In every run that deploys one fixed list, with any check, parse or install failing at any time, the
      releases on record are those of a prefix of the list as long as clean-up has not begun to uninstall;
      and once a pass has its whole list behind it, the prefix is the whole list. */
  lemma {:induction false} PrefixDeployment(cfg: Config, g: Global, es: seq<Event>, x: string, cs: seq<Component>)
    requires Initial(g) && ReleasesIn(g.w, NsName(x)) == {} && FixedRun(cfg, g, es, x, cs)
    requires !Torn(cfg, g, es, x)
    ensures var h := Run(cfg, g, es); var l := LocalOf(h, x);
      && (exists k :: PrefixRecorded(h.w, x, cs, k))
      && ((Building(l.pc) || l.pc == Save(Activated)) && Claimed(l) == cs && Live(h.w, NsName(x)) ==>
            ReleasesIn(h.w, NsName(x)) == ReleasesOf(x, cs))
  {
    hide Run, NsName, Claimed, ReleasesIn, ReleasesOf;
    var h := Run(cfg, g, es);
    var l := LocalOf(h, x);
    PrefixRun(cfg, g, es, x, cs);
    var k: nat :| PrefixRecorded(h.w, x, cs, k) && ((Building(l.pc) || l.pc == Save(Activated)) && Live(h.w, NsName(x)) ==> |Claimed(l)| <= k);
    if k == |cs| { assert cs[..k] == cs; }
  }

  /** The copy's HelmDeployed condition turns True only with the last component of the list. */
  lemma {:induction false} HelmDeployedLast(cfg: Config, g: Global, es: seq<Event>, x: string, cs: seq<Component>, f: Fault)
    requires Initial(g) && ReleasesIn(g.w, NsName(x)) == {} && FixedRun(cfg, g, es, x, cs)
    requires var l := LocalOf(Run(cfg, g, es), x); Building(l.pc) && !HelmFlag(l.env.status)
    ensures var h := Run(cfg, g, es); var m := Step(cfg, x, h.w, LocalOf(h, x), f).l;
      HelmFlag(m.env.status) ==> !GaveUp(m) && Claimed(m) == cs
  {
    hide Run, NsName, Step, Next, Claimed, Built, HelmFlag, Needed, Passed, StageConfirmed;
    var h := Run(cfg, g, es);
    var l := LocalOf(h, x);
    PrefixRun(cfg, g, es, x, cs);
    ShapedRun(cfg, g, es, x);
    StepParts(cfg, x, h.w, l, f);
    NextBuilding(cfg, x, l, Step(cfg, x, h.w, l, f).reply, h.w.now);
  }

  /** Between uninstalls and the end of the namespace the releases only grow. */
  lemma ReleasesGrow(cfg: Config, g: Global, es: seq<Event>, e: Event, x: string)
    requires Initial(g)
    requires var h := Run(cfg, g, es); !Uninstalls(h, e, x) && !(e == FinishNs(NsName(x)) && Terminating(h.w, NsName(x)))
    ensures ReleasesIn(Run(cfg, g, es).w, NsName(x)) <= ReleasesIn(Apply(cfg, Run(cfg, g, es), e).w, NsName(x))
  {
    hide Run, NsName, Ambient, DoExtendWrite, Step, Opened, Terminating;
    var h := Run(cfg, g, es);
    ShapedRun(cfg, g, es, x);
    match e
    case Work(y, f) =>
      ShapedRun(cfg, g, es, y);
      if y == x { ReleaseStep(cfg, x, h.w, LocalOf(h, x), f); } else { OtherReleases(cfg, h, y, f, x); }
    case ExtendWrite(id, f) => ExtendReleases(h, id, f);
    case ExtendRead(_, _, _) =>
    case CreateEnv(_, _, _, _) =>
    case _ => AmbientReleases(h.w, e, x);
  }

  lemma OtherReleases(cfg: Config, g: Global, y: string, f: Fault, x: string)
    requires x != y && Shaped(cfg, g, y)
    ensures ReleasesIn(g.w, NsName(x)) == ReleasesIn(DoWork(cfg, g, y, f).w, NsName(x))
  {
    hide Step, NsName, Owned, OwnedRelease, Opened;
    var w, v := g.w, Step(cfg, y, g.w, LocalOf(g, y), f).w;
    WorkOnlyTouches(cfg, y, w, LocalOf(g, y), f);
    forall r: ReleaseKey | r.namespace == NsName(x) ensures r in v.releases <==> r in w.releases {
      OwnedByNs(x, r);
      OwnersDisjoint(x, y, Key(Role, "", ""), r);
    }
  }

  lemma ExtendReleases(g: Global, id: nat, f: Fault)
    ensures DoExtendWrite(g, id, f).w.releases == g.w.releases
  {
    hide PutEnv, Opened, Credit;
    if id in g.extensions {
      var u := g.extensions[id];
      ExtendWrites(g, id, f);
      if Accepted(g.w, u, f) { PutEnvFrame(g.w, u.env, g.w.envs[u.env].(status := Extended(u).status)); }
    }
  }

  // ---------------------------------------------------------------- uninstalling

  /** The release on its way out at an uninstalling call. */
  function Leaving(cfg: Config, x: string, l: Local): ReleaseKey
    requires l.pc.DelTracked? || l.pc.DelLegacy?
  {
    Request(cfg, x, l).release
  }

  /** Nothing but the release itself follows it in the first k components of the list, short of releases
      that precede it as well. */
  ghost predicate LastOfPrefix(x: string, cs: seq<Component>, k: nat, r: ReleaseKey)
    requires k <= |cs|
  {
    forall a, n :: 0 <= a < n < k && Release(x, NsName(x), cs[a]) == r ==> Release(x, NsName(x), cs[n]) in ReleasesOf(x, cs[..a]) + {r}
  }

  /** No two components of the list have the same release. */
  ghost predicate DistinctReleases(x: string, cs: seq<Component>) {
    forall a, n :: 0 <= a < n < |cs| ==> Release(x, NsName(x), cs[a]) != Release(x, NsName(x), cs[n])
  }

  /** Exactly when an uninstall leaves a prefix: the release was not on record, the call did not take effect,
      or the release is the last of the recorded prefix. Uninstalling goes through the entries in list order,
      so as soon as two releases are on record the first uninstall leaves a set that is no prefix's. */
  lemma UninstallKeepsPrefix(cfg: Config, x: string, w: World, l: Local, f: Fault, cs: seq<Component>, k: nat)
    requires (l.pc.DelTracked? || l.pc.DelLegacy?) && PrefixRecorded(w, x, cs, k)
    ensures var r := Leaving(cfg, x, l);
      (exists j :: PrefixRecorded(Step(cfg, x, w, l, f).w, x, cs, j))
      <==> (r in w.releases && (f.NoFault? || f.AnswerLost?) ==> LastOfPrefix(x, cs, k, r))
    ensures DistinctReleases(x, cs) && k > 0 && Leaving(cfg, x, l) in ReleasesIn(w, NsName(x)) ==>
      (LastOfPrefix(x, cs, k, Leaving(cfg, x, l)) <==> Leaving(cfg, x, l) == Release(x, NsName(x), cs[k - 1]))
  {
    hide Step, NsName, Release, ReleasesIn, LastOfPrefix, PrefixRecorded, Request, DistinctReleases;
    var r, v := Leaving(cfg, x, l), Step(cfg, x, w, l, f).w;
    UninstallTakes(cfg, x, w, l, f);
    if r in w.releases && (f.NoFault? || f.AnswerLost?) {
      WithoutRelease(x, w, v, cs, k, r);
    } else {
      assert PrefixRecorded(v, x, cs, k) by { SameReleases(w, v, x, cs); }
    }
    if DistinctReleases(x, cs) && k > 0 && r in ReleasesIn(w, NsName(x)) {
      LastWhenDistinct(x, w, cs, k, r);
    }
  }

  lemma UninstallTakes(cfg: Config, x: string, w: World, l: Local, f: Fault)
    requires l.pc.DelTracked? || l.pc.DelLegacy?
    ensures Step(cfg, x, w, l, f).w.releases == if f.NoFault? || f.AnswerLost? then w.releases - {Leaving(cfg, x, l)} else w.releases
  {
    hide Next, LegacyRelease, TrackedName;
  }

  lemma InReleasesOf(x: string, cs: seq<Component>, k: nat, r: ReleaseKey)
    requires k <= |cs|
    ensures r in ReleasesOf(x, cs[..k]) <==> exists a :: 0 <= a < k && Release(x, NsName(x), cs[a]) == r
  {
    hide NsName, Release;
    if a :| 0 <= a < k && Release(x, NsName(x), cs[a]) == r {
      assert cs[a] == cs[..k][a];
    }
    if r in ReleasesOf(x, cs[..k]) {
      var c :| c in cs[..k] && r == Release(x, NsName(x), c);
      var a :| 0 <= a < k && cs[..k][a] == c;
    }
  }

  lemma WithoutRelease(x: string, w: World, v: World, cs: seq<Component>, k: nat, r: ReleaseKey)
    requires PrefixRecorded(w, x, cs, k) && r in w.releases && v.releases == w.releases - {r}
    ensures (exists j :: PrefixRecorded(v, x, cs, j)) <==> LastOfPrefix(x, cs, k, r)
  {
    hide NsName, Release, ReleasesOf;
    assert ReleasesIn(v, NsName(x)) == ReleasesIn(w, NsName(x)) - {r};
    if r !in ReleasesOf(x, cs[..k]) {
      assert PrefixRecorded(v, x, cs, k);
      forall a | 0 <= a < k ensures Release(x, NsName(x), cs[a]) != r { InReleasesOf(x, cs, k, r); }
    } else {
      var a := FirstOf(x, cs, k, r);
      if LastOfPrefix(x, cs, k, r) {
        ShorterPrefix(x, cs, k, r, a);
        assert PrefixRecorded(v, x, cs, a);
      }
      if j: nat :| PrefixRecorded(v, x, cs, j) {
        NoLongerPrefix(x, cs, k, r, a, j);
      }
    }
  }

  lemma FirstOf(x: string, cs: seq<Component>, k: nat, r: ReleaseKey) returns (a: nat)
    requires k <= |cs| && r in ReleasesOf(x, cs[..k])
    ensures a < k && Release(x, NsName(x), cs[a]) == r && r !in ReleasesOf(x, cs[..a])
  {
    hide NsName, Release, ReleasesOf;
    InReleasesOf(x, cs, k, r);
    a :| a < k && Release(x, NsName(x), cs[a]) == r;
    InReleasesOf(x, cs, a, r);
    if r in ReleasesOf(x, cs[..a]) { a := FirstOf(x, cs, a, r); }
  }

  lemma ShorterPrefix(x: string, cs: seq<Component>, k: nat, r: ReleaseKey, a: nat)
    requires k <= |cs| && a < k && Release(x, NsName(x), cs[a]) == r && r !in ReleasesOf(x, cs[..a]) && LastOfPrefix(x, cs, k, r)
    ensures ReleasesOf(x, cs[..k]) - {r} == ReleasesOf(x, cs[..a])
  {
    hide NsName, Release, ReleasesOf;
    forall q ensures q in ReleasesOf(x, cs[..k]) - {r} <==> q in ReleasesOf(x, cs[..a]) {
      InReleasesOf(x, cs, k, q);
      InReleasesOf(x, cs, a, q);
    }
  }

  /** A prefix without r ends before r's first place, so it holds nothing that comes later. */
  lemma NoLongerPrefix(x: string, cs: seq<Component>, k: nat, r: ReleaseKey, a: nat, j: nat)
    requires k <= |cs| && a < k && Release(x, NsName(x), cs[a]) == r && r !in ReleasesOf(x, cs[..a])
    requires j <= |cs| && ReleasesOf(x, cs[..k]) - {r} == ReleasesOf(x, cs[..j])
    ensures LastOfPrefix(x, cs, k, r)
  {
    hide NsName, Release, ReleasesOf;
    assert j <= a by { InReleasesOf(x, cs, j, r); }
    forall b, n | 0 <= b < n < k && Release(x, NsName(x), cs[b]) == r ensures Release(x, NsName(x), cs[n]) in ReleasesOf(x, cs[..b]) + {r} {
      var q := Release(x, NsName(x), cs[n]);
      InReleasesOf(x, cs, a, r);
      InReleasesOf(x, cs, k, q);
      InReleasesOf(x, cs, j, q);
      InReleasesOf(x, cs, b, q);
    }
  }

  lemma LastWhenDistinct(x: string, w: World, cs: seq<Component>, k: nat, r: ReleaseKey)
    requires PrefixRecorded(w, x, cs, k) && k > 0 && DistinctReleases(x, cs) && r in ReleasesIn(w, NsName(x))
    ensures LastOfPrefix(x, cs, k, r) <==> r == Release(x, NsName(x), cs[k - 1])
  {
    hide NsName, Release, ReleasesOf;
    InReleasesOf(x, cs, k, r);
    var a :| 0 <= a < k && Release(x, NsName(x), cs[a]) == r;
    InReleasesOf(x, cs, a, Release(x, NsName(x), cs[k - 1]));
  }
}

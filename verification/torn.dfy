/** When a teardown leaves releases that are no prefix of the component list, and a run that gets there. */
module TornPrefix {
  import opened Model
  import opened Discovery
  import opened Store
  import opened Machine
  import opened Progress
  import opened Teardown
  import opened Calls
  import opened Protocol
  import opened Runs
  import opened Pass
  import opened Backing
  import opened Calm
  import opened Faultless
  import opened Converge
  import opened History
  import opened Prefix
  import opened Uninstalling

  // ---------------------------------------------------------------- a whole teardown

  /** Entry j tracks the release of component j. */
  lemma ReportedKey(x: string, env: EphemeralEnv, cs: seq<Component>, j: nat)
    requires env.status.activeNamespace == NsName(x) && Reports(x, env.status.components, cs) && j < |cs|
    ensures env.status.components[j].releaseName != "" && TrackedKey(env, j) == Release(x, NsName(x), cs[j])
  {
    ReleaseNames(x, cs[j]);
    assert Release(x, "", cs[j]).name != "" by { assert |Release(x, "", cs[j]).name| >= 4; }
  }

  lemma RecordedAt(x: string, w: World, cs: seq<Component>, k: nat, j: nat)
    requires PrefixRecorded(w, x, cs, k) && DistinctReleases(x, cs) && j < |cs|
    ensures Release(x, NsName(x), cs[j]) in w.releases <==> j < k
  {
    hide NsName, Release, ReleasesOf;
    ReleaseNamespace(x, cs[j]);
    InReleasesOf(x, cs, k, Release(x, NsName(x), cs[j]));
  }

  /** How many entries from the first on were missed in a row. */
  lemma MissedInARow(calls: seq<Moment>, n: nat) returns (p: nat)
    requires forall i: nat, j: nat :: i < j < n && Missed(calls, j) ==> Missed(calls, i)
    ensures p <= n && forall j: nat :: j < n ==> (Missed(calls, j) <==> j < p)
  {
    hide Missed;
    p := n;
    while p > 0 && !Missed(calls, p - 1)
      invariant p <= n && forall j: nat :: p <= j < n ==> !Missed(calls, j)
    {
      p := p - 1;
    }
  }

  /** What is left of x's releases after the teardown of a recorded prefix. */
  lemma LeftOver(cfg: Config, x: string, g: Global, fates: seq<Fate>, cs: seq<Component>, n: nat)
    requires var l := LocalOf(g, x); BeforeLoop(l.pc) && cfg.helm && l.env.status.components != []
    requires var env := LocalOf(g, x).env; env.status.activeNamespace == NsName(x) && Reports(x, env.status.components, cs)
    requires Undisturbed(fates) && DistinctReleases(x, cs) && PrefixRecorded(g.w, x, cs, n)
    ensures var c := FromHere(cfg, x, g, fates);
      && ReleasesIn(c.g.w, NsName(x)) <= ReleasesIn(g.w, NsName(x))
      && forall j: nat :: j < |cs| ==> (Release(x, NsName(x), cs[j]) in c.g.w.releases <==> j < n && Missed(c.calls, j))
  {
    hide FromHere, Missed, NsName, Release, Reports, ReleasesOf, DistinctReleases;
    var c, env := FromHere(cfg, x, g, fates), LocalOf(g, x).env;
    UninstallContainsFaults(cfg, x, g, fates);
    forall j: nat | j < |cs| ensures Release(x, NsName(x), cs[j]) in c.g.w.releases <==> j < n && Missed(c.calls, j) {
      RecordedAt(x, g.w, cs, n, j);
      OnlyEntry(x, env, cs, j);
      ReportedKey(x, env, cs, j);
    }
  }

  lemma OnlyEntry(x: string, env: EphemeralEnv, cs: seq<Component>, j: nat)
    requires env.status.activeNamespace == NsName(x) && Reports(x, env.status.components, cs) && DistinctReleases(x, cs) && j < |cs|
    ensures |env.status.components| == |cs|
    ensures forall i: nat :: i < |cs| && TrackedKey(env, i) == Release(x, NsName(x), cs[j]) ==> i == j
  {
    hide NsName, Release, TrackedKey;
    forall i: nat | i < |cs| ensures TrackedKey(env, i) == Release(x, NsName(x), cs[i]) { ReportedKey(x, env, cs, i); }
  }

  lemma PrefixOfAll(x: string, w: World, v: World, cs: seq<Component>, n: nat, p: nat)
    requires PrefixRecorded(w, x, cs, n) && ReleasesIn(v, NsName(x)) <= ReleasesIn(w, NsName(x)) && p <= n
    requires forall j: nat :: j < n ==> (Release(x, NsName(x), cs[j]) in v.releases <==> j < p)
    ensures PrefixRecorded(v, x, cs, p)
  {
    hide NsName, Release, ReleasesOf;
    forall j: nat | j < |cs| ensures Release(x, NsName(x), cs[j]).namespace == NsName(x) { ReleaseNamespace(x, cs[j]); }
    forall r ensures r in ReleasesIn(v, NsName(x)) <==> r in ReleasesOf(x, cs[..p]) {
      InReleasesOf(x, cs, n, r);
      InReleasesOf(x, cs, p, r);
    }
  }

  /** A teardown, with any of its calls failing, leaves a prefix of the list on record exactly when no
      entry is missed without all before it being missed as well. */
  lemma TeardownKeepsPrefix(cfg: Config, x: string, g: Global, fates: seq<Fate>, cs: seq<Component>, n: nat)
    requires var l := LocalOf(g, x); BeforeLoop(l.pc) && cfg.helm && l.env.status.components != []
    requires var env := LocalOf(g, x).env; env.status.activeNamespace == NsName(x) && Reports(x, env.status.components, cs)
    requires Undisturbed(fates) && DistinctReleases(x, cs) && PrefixRecorded(g.w, x, cs, n)
    ensures var c := FromHere(cfg, x, g, fates);
      (exists k :: PrefixRecorded(c.g.w, x, cs, k)) <==> forall i: nat, j: nat :: i < j < n && Missed(c.calls, j) ==> Missed(c.calls, i)
  {
    hide FromHere, Missed, NsName, Release, Reports, PrefixRecorded, DistinctReleases, ReleasesIn;
    var c := FromHere(cfg, x, g, fates);
    assert n <= |cs| by { RecordedBound(g.w, x, cs, n); }
    LeftOver(cfg, x, g, fates, cs, n);
    if forall i: nat, j: nat :: i < j < n && Missed(c.calls, j) ==> Missed(c.calls, i) {
      var p := MissedInARow(c.calls, n);
      PrefixOfAll(x, g.w, c.g.w, cs, n, p);
    }
    if k: nat :| PrefixRecorded(c.g.w, x, cs, k) {
      forall j: nat | j < n ensures Missed(c.calls, j) <==> j < k { RecordedAt(x, c.g.w, cs, k, j); }
    }
  }

  lemma RecordedBound(w: World, x: string, cs: seq<Component>, n: nat)
    requires PrefixRecorded(w, x, cs, n)
    ensures n <= |cs|
  {
  }

  // ---------------------------------------------------------------- a run that gets there

  lemma ListedResolves(spec: Spec, t: Option<seq<Component>>)
    requires spec.components != []
    ensures Resolve(spec, t) == spec.components
  {
  }

  lemma AllRecorded(cfg: Config, x: string, w: World, cs: seq<Component>)
    requires x in w.envs && w.envs[x].spec.components == cs != []
    requires ReleasesIn(w, NsName(x)) <= AskedReleases(cfg, x, w)
    requires forall c :: c in cs ==> Release(x, NsName(x), c) in w.releases
    ensures PrefixRecorded(w, x, cs, |cs|)
  {
    hide NsName, Release;
    ListedResolves(w.envs[x].spec, TemplateAt(w, w.envs[x]));
    hide Resolve, TemplateAt;
    forall c: Component ensures Release(x, NsName(x), c).namespace == NsName(x) { ReleaseNamespace(x, c); }
    assert cs[..|cs|] == cs;
  }

  /** The first pass of a new environment that lists its components records all of them. */
  lemma FirstPass(cfg: Config, g: Global, x: string, ns: string, spec: Spec)
    requires Initial(g) && Live(g.w, spec.gateway.namespace) && cfg.helm && spec.servicePort.None?
    requires spec.components != [] && Parses(spec.components) && ReleasesIn(g.w, NsName(x)) == {}
    ensures var h := DoCreate(g, x, ns, spec, {});
      LocalOf(h, x).pc.Idle?
      && var w := OnePass(cfg, x, h, []).g.w;
      && PrefixRecorded(w, x, spec.components, |spec.components|)
      && x in w.envs && !w.envs[x].deleting && FINALIZER in w.envs[x].finalizers
      && w.envs[x].status.activeNamespace == NsName(x) && Reports(x, w.envs[x].status.components, spec.components)
  {
    hide OnePass, Fit, Undisturbed, Elapsed, Settled, Kin, TemplateAt, Backend, Activates, Resolve, Reports, NsName, Parses, PrefixRecorded, Release, DoCreate;
    var h := DoCreate(g, x, ns, spec, {});
    forall t ensures Resolve(spec, t) == spec.components { ListedResolves(spec, t); }
    NewStartable(cfg, g, x, ns, spec);
    CalmPass(cfg, x, h, []);
    CleanPassSettles(cfg, x, h, []);
    assert Served(x, h.w) by { NamedServed(x, h.w); }
    hide Served, AskedReleases;
    var v := OnePass(cfg, x, h, []).g.w;
    KinBackend(x, h.w, v);
    assert AskedReleases(cfg, x, v) == AskedReleases(cfg, x, h.w);
    assert ReleasesIn(v, NsName(x)) <= AskedReleases(cfg, x, v) by { OnlyAsked(g.w, v, NsName(x), AskedReleases(cfg, x, v)); }
    SettledInstalled(cfg, x, v);
    AllRecorded(cfg, x, v, spec.components);
  }

  lemma OnlyAsked(w: World, v: World, ns: string, asked: set<ReleaseKey>)
    requires v.releases <= w.releases + asked && ReleasesIn(w, ns) == {}
    ensures ReleasesIn(v, ns) <= asked
  {
    forall r | r in ReleasesIn(v, ns) ensures r in asked {
      assert r in w.releases ==> r in ReleasesIn(w, ns);
    }
  }

  lemma SettledInstalled(cfg: Config, x: string, w: World)
    requires Settled(cfg, x, w)
    ensures x in w.envs && FINALIZER in w.envs[x].finalizers
    ensures cfg.helm ==> forall c :: c in Resolve(w.envs[x].spec, TemplateAt(w, w.envs[x])) ==> Release(x, NsName(x), c) in w.releases
  {
  }

  lemma FetchDeleting(cfg: Config, g: Global, x: string)
    requires LocalOf(g, x).pc.Idle? && x in g.w.envs && g.w.envs[x].deleting && FINALIZER in g.w.envs[x].finalizers
    ensures var h := DoWork(cfg, g, x, NoFault);
      h.w == g.w && LocalOf(h, x).pc.GetAdmin? && LocalOf(h, x).env == g.w.envs[x]
  {
  }

  predicate Nearing(pc: Pc) { pc.GetAdmin? || pc.DelAdmin? || pc == GetRoute(Deleting) || pc == DelRoute(Deleting) }

  /** On the way to the releases nothing happens to them. */
  lemma NearerLoop(cfg: Config, g: Global, x: string)
    requires cfg.helm && Nearing(LocalOf(g, x).pc)
    requires var cs := LocalOf(g, x).env.status.components; cs != [] && cs[0].releaseName != ""
    ensures var h := DoWork(cfg, g, x, NoFault); var l, m := LocalOf(g, x), LocalOf(h, x);
      h.w.releases == g.w.releases && m.env == l.env && (Nearing(m.pc) || m.pc == CheckTracked(Deleting, 0)) && Turn(m.pc) < Turn(l.pc)
  {
    hide Exec, Request, OnBuilding, OnNsFound;
    StepParts(cfg, x, g.w, LocalOf(g, x), NoFault);
  }

  lemma {:induction false} ToLoop(cfg: Config, g: Global, x: string) returns (es: seq<Event>)
    requires cfg.helm && (Nearing(LocalOf(g, x).pc) || LocalOf(g, x).pc == CheckTracked(Deleting, 0))
    requires var cs := LocalOf(g, x).env.status.components; cs != [] && cs[0].releaseName != ""
    ensures var h := Run(cfg, g, es);
      h.w.releases == g.w.releases && LocalOf(h, x).pc == CheckTracked(Deleting, 0) && LocalOf(h, x).env == LocalOf(g, x).env
    decreases Turn(LocalOf(g, x).pc)
  {
    hide Run, DoWork, Turn;
    if LocalOf(g, x).pc == CheckTracked(Deleting, 0) {
      es := [];
      RunNothing(cfg, g);
    } else {
      var e := Work(x, NoFault);
      NearerLoop(cfg, g, x);
      RunNothing(cfg, g);
      RunSnoc(cfg, g, [], e);
      assert [] + [e] == [e];
      var later := ToLoop(cfg, Apply(cfg, g, e), x);
      es := [e] + later;
      RunConcat(cfg, g, [e], later);
    }
  }

  lemma FirstFound(cfg: Config, g: Global, x: string)
    requires var l := LocalOf(g, x); l.pc == CheckTracked(Deleting, 0) && l.env.status.components != [] && TrackedKey(l.env, 0) in g.w.releases
    ensures var h := DoWork(cfg, g, x, NoFault);
      h.w == g.w && LocalOf(h, x) == LocalOf(g, x).(pc := DelTracked(Deleting, 0)) && Leaving(cfg, x, LocalOf(h, x)) == TrackedKey(LocalOf(g, x).env, 0)
  {
  }

  /** From the deletion of such an environment to its first uninstall. */
  lemma DeletionReachesLoop(cfg: Config, g: Global, x: string, cs: seq<Component>) returns (es: seq<Event>)
    requires cfg.helm && LocalOf(g, x).pc.Idle? && x in g.w.envs && FINALIZER in g.w.envs[x].finalizers
    requires var s := g.w.envs[x].status; s.activeNamespace == NsName(x) && Reports(x, s.components, cs)
    requires cs != [] && PrefixRecorded(g.w, x, cs, |cs|)
    ensures var h := Run(cfg, g, es);
      h.w.releases == g.w.releases && LocalOf(h, x).pc == DelTracked(Deleting, 0) && Leaving(cfg, x, LocalOf(h, x)) == Release(x, NsName(x), cs[0])
  {
    hide Run, DoWork, NsName, Release, Reports, ReleasesOf;
    var e, h1 := DeleteEnv(x), g.(w := DoDelete(g.w, x));
    assert Run(cfg, g, [e]) == h1 by { RunNothing(cfg, g); RunSnoc(cfg, g, [], e); assert [] + [e] == [e]; }
    assert [e] + [Work(x, NoFault)] == [e, Work(x, NoFault)];
    RunSnoc(cfg, g, [e], Work(x, NoFault));
    FetchDeleting(cfg, h1, x);
    var h2 := DoWork(cfg, h1, x, NoFault);
    ReportedKey(x, LocalOf(h2, x).env, cs, 0);
    assert LocalOf(h2, x).env.status.components != [] by { OnlyLength(x, LocalOf(h2, x).env.status.components, cs); }
    var later := ToLoop(cfg, h2, x);
    RunConcat(cfg, g, [e, Work(x, NoFault)], later);
    var h3 := Run(cfg, h2, later);
    assert Release(x, NsName(x), cs[0]) in ReleasesOf(x, cs[..|cs|]) by { InReleasesOf(x, cs, |cs|, Release(x, NsName(x), cs[0])); }
    FirstFound(cfg, h3, x);
    es := [e, Work(x, NoFault)] + later + [Work(x, NoFault)];
    RunSnoc(cfg, g, [e, Work(x, NoFault)] + later, Work(x, NoFault));
  }

  lemma OnlyLength(x: string, cs: seq<ComponentStatus>, todo: seq<Component>)
    requires Reports(x, cs, todo)
    ensures |cs| == |todo|
  {
  }

  /** It does come to that: from any initial cluster with a live gateway namespace, for any environment that
      lists two or more components with releases of their own, a run without a single failing call records
      all of them and then, the resource being deleted, uninstalls the first - and no prefix is left. */
  lemma PrefixLost(cfg: Config, g: Global, x: string, ns: string, spec: Spec)
    requires Initial(g) && Live(g.w, spec.gateway.namespace) && cfg.helm && spec.servicePort.None?
    requires |spec.components| >= 2 && Parses(spec.components) && DistinctReleases(x, spec.components) && ReleasesIn(g.w, NsName(x)) == {}
    ensures exists es :: var h := Run(cfg, g, es); var cs := spec.components;
      && PrefixRecorded(h.w, x, cs, |cs|) && LocalOf(h, x).pc.DelTracked?
      && forall k :: !PrefixRecorded(Run(cfg, g, es + [Work(x, NoFault)]).w, x, cs, k)
  {
    hide Run, OnePass, DoWork, NsName, Release, Reports, PrefixRecorded, Parses, Leaving, LastOfPrefix, Live;
    var cs := spec.components;
    var e, h := CreateEnv(x, ns, spec, {}), DoCreate(g, x, ns, spec, {});
    assert Run(cfg, g, [e]) == h by { RunNothing(cfg, g); RunSnoc(cfg, g, [], e); assert [] + [e] == [e]; }
    FirstPass(cfg, g, x, ns, spec);
    var c := OnePass(cfg, x, h, []);
    PassIsRun(cfg, x, h, []);
    var pass := Script(x, [], |c.calls|);
    RunConcat(cfg, g, [e], pass);
    var later := DeletionReachesLoop(cfg, c.g, x, cs);
    RunConcat(cfg, g, [e] + pass, later);
    var es := [e] + pass + later;
    var u := Run(cfg, g, es);
    RunSnoc(cfg, g, es, Work(x, NoFault));
    assert PrefixRecorded(u.w, x, cs, |cs|) by { SameReleases(c.g.w, u.w, x, cs); }
    UninstallKeepsPrefix(cfg, x, u.w, LocalOf(u, x), NoFault, cs, |cs|);
    FirstNotLast(cfg, x, u, cs);
    assert forall k :: !PrefixRecorded(Run(cfg, g, es + [Work(x, NoFault)]).w, x, cs, k) by { WorkWorld(cfg, u, x); }
  }

  lemma WorkWorld(cfg: Config, g: Global, x: string)
    ensures DoWork(cfg, g, x, NoFault).w == Step(cfg, x, g.w, LocalOf(g, x), NoFault).w
  {
    hide Step;
  }

  lemma FirstNotLast(cfg: Config, x: string, g: Global, cs: seq<Component>)
    requires |cs| >= 2 && DistinctReleases(x, cs) && PrefixRecorded(g.w, x, cs, |cs|)
    requires LocalOf(g, x).pc.DelTracked? && Leaving(cfg, x, LocalOf(g, x)) == Release(x, NsName(x), cs[0])
    ensures Leaving(cfg, x, LocalOf(g, x)) in g.w.releases && !LastOfPrefix(x, cs, |cs|, Leaving(cfg, x, LocalOf(g, x)))
  {
    hide NsName, Release, ReleasesOf, Leaving;
    var r := Release(x, NsName(x), cs[0]);
    RecordedAt(x, g.w, cs, |cs|, 0);
    LastWhenDistinct(x, g.w, cs, |cs|, r) by { ReleaseNamespace(x, cs[0]); }
  }
}

/** Passes that only their own faulty calls disturb: the worker's copy stays true to the cluster. */
module Calm {
  import opened Model
  import opened Discovery
  import opened Store
  import opened Machine
  import opened Progress
  import opened Teardown
  import opened Calls
  import opened Protocol
  import opened Runs
  import opened Pass
  import opened Backing

  // ---------------------------------------------------------------- the cluster a pass can succeed in

  predicate Parses(cs: seq<Component>) {
    forall i :: 0 <= i < |cs| ==> cs[i].valuesParse
  }

  /** What reading the template of an environment shows, if the call gets through. */
  function TemplateAt(w: World, env: EphemeralEnv): Option<seq<Component>> {
    TemplateOf(Read(w, TemplateRequest(env)))
  }

  function Deadline(env: EphemeralEnv): Time {
    if env.status.expirationTime.Some? then env.status.expirationTime.value else CalculateExpirationTime(env)
  }

  predicate AdminWanted(cfg: Config) { cfg.operatorService != "" && cfg.operatorNamespace != "" }

  /** The stages a pass goes through for a given specification. */
  predicate Wanted(cfg: Config, x: string, spec: Spec, st: Stage) {
    if st.AdminStage? then AdminWanted(cfg) else Needed(x, spec, st)
  }

  /** A pass for x can have an object in this namespace: its own it creates if need be. */
  predicate Open(w: World, x: string, n: string) {
    if n == NsName(x) then !Terminating(w, n) else AcceptsObjects(w, n)
  }

  /** The cluster has or can take everything a pass for x wants of it. */
  ghost predicate Able(cfg: Config, x: string, w: World) {
    && x in w.envs
    && var env := w.envs[x];
    && (forall st :: Wanted(cfg, x, env.spec, st) ==> var k := StageKey(x, env.spec, NsName(x), st); k in w.objs || Open(w, x, k.namespace))
    && (cfg.helm ==> forall c :: c in Resolve(env.spec, TemplateAt(w, env)) ==> Release(x, NsName(x), c) in w.releases || Open(w, x, NsName(x)))
  }

  /** A resource that is not being deleted, with parsable values, in a cluster that can take its objects. */
  ghost predicate Fit(cfg: Config, x: string, w: World) {
    && x in w.envs && !w.envs[x].deleting
    && (cfg.helm ==> Parses(Resolve(w.envs[x].spec, TemplateAt(w, w.envs[x]))))
    && Able(cfg, x, w)
  }

  // ---------------------------------------------------------------- the worker's copy

  predicate Fresh(w: World, x: string, l: Local) {
    x in w.envs && l.env == w.envs[x].(status := l.env.status) && l.env.status.expirationTime == Some(Deadline(w.envs[x]))
  }

  /** At each point of a create path the worker knows how the cluster stands. */
  ghost predicate OnTrack(cfg: Config, x: string, w: World, l: Local) {
    && Sound(cfg, x, l)
    && (l.pc.Idle? || l.pc.AddFinalizer? || l.pc.Refetch? || Creating(l.pc))
    && (l.pc.AddFinalizer? ==> x in w.envs && l.env == w.envs[x].(finalizers := w.envs[x].finalizers + {FINALIZER}))
    && (Creating(l.pc) ==> Fresh(w, x, l))
    && (l.pc.PutNs? ==> l.pc.seenNs == (if NsName(x) in w.namespaces then Some(w.namespaces[NsName(x)]) else None))
    && (Building(l.pc) ==> NsName(x) in w.namespaces)
    && (l.pc.GetStage? || l.pc.PutStage? ==> Wanted(cfg, x, l.env.spec, l.pc.stage))
    && (l.pc.PutStage? ==> l.pc.seen == Stored(w, StageKey(x, l.env.spec, NsName(x), l.pc.stage)))
  }

  function Stored(w: World, k: Key): Option<Obj> {
    if k in w.objs then Some(w.objs[k]) else None
  }

  /** A resource that exists and is not being deleted. */
  predicate Standing(x: string, w: World) { x in w.envs && !w.envs[x].deleting }

  /** The same incarnation with the same specification and deadline, still wanted. */
  predicate SameEnv(x: string, w: World, v: World) {
    && x in w.envs && x in v.envs
    && v.envs[x] == w.envs[x].(resourceVersion := v.envs[x].resourceVersion, finalizers := v.envs[x].finalizers, status := v.envs[x].status)
    && w.envs[x].finalizers <= v.envs[x].finalizers
    && Deadline(v.envs[x]) == Deadline(w.envs[x])
  }

  // ---------------------------------------------------------------- where building steps lead

  /** Helm is only passed over when there is nothing to deploy. */
  predicate Skips(cfg: Config, m: Local, spec: Spec) {
    cfg.helm && Passed(m) >= HelmPos(m) ==> !ReadsTemplate(spec) && Resolve(spec, None) == []
  }

  /** What follows once an object is in place: never giving up. */
  predicate Onward(m: Local, spec: Spec) {
    && !m.pc.PutStage? && !m.pc.Deploy? && !m.pc.ResolveAgain? && !m.pc.AskPrimary? && !GaveUp(m) && !m.pc.Idle?
    && m.env.spec == spec
    && (m.pc == GetStage(AppStage) ==> spec.servicePort.None?)
    && (m.pc.Check? ==> !ReadsTemplate(spec) && m.pc.todo == Resolve(spec, None))
  }

  lemma HelmOnward(cfg: Config, l: Local, now: Time)
    ensures Onward(AfterHelm(l, now), l.env.spec)
    ensures Onward(StartHelm(cfg, l, now), l.env.spec) && Skips(cfg, StartHelm(cfg, l, now), l.env.spec)
  {
    hide Resolve;
  }

  lemma StageOnward(cfg: Config, l: Local, st: Stage, now: Time)
    ensures var m := StageEnsured(cfg, l, st, now);
      && Onward(m, l.env.spec)
      && (!Discovers(l) || Pos(st) < 6 ==> Skips(cfg, m, l.env.spec))
      && (st.AppStage? && AdminWanted(cfg) ==> m.pc == GetStage(AdminStage))
    ensures st.AdminStage? ==> Onward(StageFailed(cfg, l, st, now), l.env.spec)
  {
    hide StartHelm, StageStatus, IsolationEnabled;
    var m := SetStatus(l, StageStatus(l.env.status, l.env.spec, st, now));
    HelmOnward(cfg, m, now);
    HelmOnward(cfg, m.(service := m.env.spec.gateway.serviceName), now);
    HelmOnward(cfg, l, now);
  }

  lemma StageLeadsWanted(cfg: Config, x: string, l: Local, st: Stage, now: Time)
    requires l.env.status.activeNamespace == NsName(x)
    ensures var m := StageEnsured(cfg, l, st, now); m.pc.GetStage? ==> Wanted(cfg, x, l.env.spec, m.pc.stage)
  {
    hide StartHelm, NsName;
    var m := SetStatus(l, StageStatus(l.env.status, l.env.spec, st, now));
    NoStageFromHelm(cfg, m, now);
    NoStageFromHelm(cfg, m.(service := m.env.spec.gateway.serviceName), now);
  }

  lemma NoStageFromHelm(cfg: Config, l: Local, now: Time)
    ensures !StartHelm(cfg, l, now).pc.GetStage?
  {
    hide Resolve;
  }

  /** Where the things a pc carries come from. */
  predicate Whence(l: Local, m: Local, r: Reply) {
    && (m.pc.PutStage? ==> l.pc == GetStage(m.pc.stage) && ((r.NotFound? && m.pc.seen.None?) || (r.AnObj? && m.pc.seen == Some(r.seenObj))) && m == l.(pc := m.pc))
    && (m.pc.Check? || m.pc.Deploy? ==>
          || ((l.pc.Check? || l.pc.Deploy?) && m.pc.todo == l.pc.todo)
          || (!ReadsTemplate(l.env.spec) && m.pc.todo == Resolve(l.env.spec, None))
          || (l.pc.ResolveAgain? && m.pc.todo == Resolve(l.env.spec, TemplateOf(r))))
  }

  lemma FailsOrOn(cfg: Config, l: Local, st: Stage, now: Time)
    ensures var m := StageFailed(cfg, l, st, now); m.pc.Save? || (st.AdminStage? && Onward(m, l.env.spec))
  {
    StageOnward(cfg, l, st, now);
    hide AfterRoutes;
  }

  lemma DeployedLeads(l: Local, todo: seq<Component>, done: seq<ComponentStatus>, now: Time)
    ensures var m := Deployed(l, todo, done, now); (m.pc.Check? && m.pc.todo == todo) || m.pc.List? || m.pc == Save(Activated)
    ensures FailHelm(l, now).pc.Save?
  {
  }

  lemma StageWhence(cfg: Config, x: string, l: Local, r: Reply, now: Time)
    requires l.pc.GetStage? || l.pc.PutStage?
    ensures Whence(l, OnBuilding(cfg, x, l, r, now), r)
  {
    hide StageEnsured, StageFailed, StageObj, Resolve;
    StageOnward(cfg, l, l.pc.stage, now);
    FailsOrOn(cfg, l, l.pc.stage, now);
  }

  lemma HelmWhence(cfg: Config, x: string, l: Local, r: Reply, now: Time)
    requires l.pc.Check? || l.pc.Deploy? || ((l.pc.ResolveFirst? || l.pc.ResolveAgain?) && ReadsTemplate(l.env.spec))
    ensures Whence(l, OnBuilding(cfg, x, l, r, now), r)
  {
    hide Deployed, FailHelm, Resolve, Release;
    if l.pc.Check? && |l.pc.done| < |l.pc.todo| {
      var c := l.pc.todo[|l.pc.done|];
      DeployedLeads(l, l.pc.todo, l.pc.done + [ComponentStatus(c.name, Release(x, "", c).name, AlreadyInstalled)], now);
    } else if l.pc.Deploy? && |l.pc.done| < |l.pc.todo| {
      var c := l.pc.todo[|l.pc.done|];
      var m := if c.primary then SetStatus(l, l.env.status.(helmRelease := Release(x, "", c).name)) else l;
      DeployedLeads(m, l.pc.todo, l.pc.done + [ComponentStatus(c.name, Release(x, "", c).name, Installed(now))], now);
    }
    DeployedLeads(l, [], [], now);
  }

  lemma NextWhence(cfg: Config, x: string, l: Local, r: Reply, now: Time)
    requires Built(cfg, x, l) && Building(l.pc)
    ensures Whence(l, Next(cfg, x, l, r, now), r)
  {
    hide OnStageRead, OnStageWritten, OnChecked, OnInstalled, ResolvedFirst, ResolvedAgain, OnTearing, Fetched, OnNsRead, Matching, Choose, PrimaryName, HelmReported, ServiceChosen, Reports;
    if l.pc.GetStage? || l.pc.PutStage? { StageWhence(cfg, x, l, r, now); }
    else if !l.pc.List? && !l.pc.AskPrimary? { HelmWhence(cfg, x, l, r, now); }
  }

  /** A pass only comes to the stages its specification asks for. */
  lemma NextWanted(cfg: Config, x: string, l: Local, r: Reply, now: Time)
    requires Built(cfg, x, l) && Building(l.pc)
    requires l.pc.GetStage? || l.pc.PutStage? ==> Wanted(cfg, x, l.env.spec, l.pc.stage)
    ensures var m := Next(cfg, x, l, r, now); m.pc.GetStage? ==> Wanted(cfg, x, l.env.spec, m.pc.stage)
  {
    BuiltActive(cfg, x, l);
    hide StageEnsured, StageFailed, StageObj, Resolve, Deployed, FailHelm, Release, Matching, Choose, PrimaryName, NsName, Built, OnTearing, Fetched, OnNsRead;
    if l.pc.GetStage? || l.pc.PutStage? {
      StageLeadsWanted(cfg, x, l, l.pc.stage, now);
      FailsOrOn(cfg, l, l.pc.stage, now);
      AdminLeadsOn(cfg, l, now);
    } else if !l.pc.List? && !l.pc.AskPrimary? {
      HelmNoStage(cfg, x, l, r, now);
    }
  }

  lemma AdminLeadsOn(cfg: Config, l: Local, now: Time)
    ensures !StageFailed(cfg, l, AdminStage, now).pc.GetStage?
  {
    hide StartHelm;
    NoStageFromHelm(cfg, l, now);
  }

  lemma HelmNoStage(cfg: Config, x: string, l: Local, r: Reply, now: Time)
    requires l.pc.ResolveFirst? || l.pc.ResolveAgain? || l.pc.Check? || l.pc.Deploy?
    ensures !OnBuilding(cfg, x, l, r, now).pc.GetStage?
  {
    hide Resolve, Release, SetCondition;
  }

  // ---------------------------------------------------------------- one step, any fault

  /** What a building step reads is there. */
  lemma BuildingReads(cfg: Config, x: string, w: World, l: Local, f: Fault)
    requires Building(l.pc) && l.env.status.activeNamespace == NsName(x)
    ensures var r := Step(cfg, x, w, l, f).reply;
      && (l.pc.GetStage? ==>
            var k := StageKey(x, l.env.spec, NsName(x), l.pc.stage);
            (r.NotFound? ==> k !in w.objs) && (r.AnObj? ==> k in w.objs && w.objs[k] == r.seenObj) && (f.NoFault? ==> r.NotFound? || r.AnObj?))
      && (l.pc.ResolveAgain? || l.pc.ResolveFirst? || l.pc.AskPrimary? ==>
            (r.ATemplate? ==> TemplateOf(r) == TemplateAt(w, l.env)) && (f.NoFault? ==> TemplateOf(r) == TemplateAt(w, l.env)))
  {
    hide Next, NsName, StageKey, StageObj, Release;
    if l.pc.ResolveAgain? || l.pc.ResolveFirst? || l.pc.AskPrimary? {
      TemplateReads(w, l.env, f);
    }
  }

  lemma TemplateReads(w: World, env: EphemeralEnv, f: Fault)
    ensures var r := Exec(w, TemplateRequest(env), f).reply;
      (r.ATemplate? ==> TemplateOf(r) == TemplateAt(w, env)) && (f.NoFault? ==> TemplateOf(r) == TemplateAt(w, env))
  {
  }

  lemma TrackBuilding(cfg: Config, x: string, w: World, l: Local, f: Fault)
    requires OnTrack(cfg, x, w, l) && Building(l.pc)
    ensures var s := Step(cfg, x, w, l, f);
      s.w == w.(objs := s.w.objs, releases := s.w.releases) && w.releases <= s.w.releases && w.objs.Keys <= s.w.objs.Keys && OnTrack(cfg, x, s.w, s.l)
  {
    hide Step, Next, NsName, Built, StageKey, StageObj, Resolve, TemplateAt, TemplateRequest, Needed, Passed, Claimed, HelmFlag, AddsClaim, StageConfirmed;
    var s := Step(cfg, x, w, l, f);
    SoundBuilt(cfg, x, l);
    BuildStep(cfg, x, w, l, f);
    BuildingReads(cfg, x, w, l, f);
    StepParts(cfg, x, w, l, f);
    NextBuilding(cfg, x, l, s.reply, w.now);
    NextWhence(cfg, x, l, s.reply, w.now);
    NextWanted(cfg, x, l, s.reply, w.now);
    NextSound(cfg, x, l, s.reply, w.now);
    hide Sound, Exec, Request, Fit, Wanted;
  }

  lemma SameTemplate(w: World, env: EphemeralEnv, env': EphemeralEnv)
    requires env.spec == env'.spec && env.namespace == env'.namespace
    ensures TemplateAt(w, env) == TemplateAt(w, env')
  {
  }

  lemma NsTracked(cfg: Config, x: string, w: World, l: Local, f: Fault)
    requires l.pc.GetNs? || (l.pc.PutNs? && l.pc.seenNs == (if NsName(x) in w.namespaces then Some(w.namespaces[NsName(x)]) else None))
    ensures var s := Step(cfg, x, w, l, f); var n := NsName(x);
      && s.w == w.(namespaces := s.w.namespaces)
      && (Terminating(s.w, n) <==> Terminating(w, n))
      && (forall m :: m != n ==> (m in s.w.namespaces <==> m in w.namespaces) && (m in w.namespaces ==> s.w.namespaces[m] == w.namespaces[m]))
      && (l.pc.GetNs? ==> s.w == w && (s.reply.NotFound? ==> n !in w.namespaces) && (s.reply.ANamespace? ==> n in w.namespaces && w.namespaces[n] == s.reply.seenNs)
                          && (f.NoFault? ==> s.reply.NotFound? || s.reply.ANamespace?))
      && (l.pc.PutNs? ==> (s.reply.Done? ==> n in s.w.namespaces && s.w.namespaces[n].labels + OwnerLabels(x) == s.w.namespaces[n].labels) && (f.NoFault? ==> s.reply.Done?))
  {
    hide Next, NsName, Request, Exec, Live, OwnerLabels;
    NsRequests(cfg, x, l);
    if l.pc.GetNs? { NsReading(w, NsName(x), f); } else { NsPutting(w, NsName(x), OwnerLabels(x), l.pc.seenNs, f); }
  }

  lemma OpenNs(w: World, v: World, x: string, n: string)
    requires Terminating(v, NsName(x)) <==> Terminating(w, NsName(x))
    requires n != NsName(x) ==> (n in v.namespaces <==> n in w.namespaces) && (n in w.namespaces ==> v.namespaces[n] == w.namespaces[n])
    ensures Open(w, x, n) <==> Open(v, x, n)
  {
    hide NsName;
  }

  lemma TrackNs(cfg: Config, x: string, w: World, l: Local, f: Fault)
    requires OnTrack(cfg, x, w, l) && (l.pc.GetNs? || l.pc.PutNs?)
    ensures var s := Step(cfg, x, w, l, f);
      s.w == w.(namespaces := s.w.namespaces) && (forall n :: Open(w, x, n) <==> Open(s.w, x, n)) && OnTrack(cfg, x, s.w, s.l)
  {
    hide Step, Next, NsName, Built, NsEnsured, FailStep, OwnerLabels, Open, Terminating;
    var s := Step(cfg, x, w, l, f);
    StepParts(cfg, x, w, l, f);
    NsTracked(cfg, x, w, l, f);
    NextOpening(cfg, x, l, s.reply, w.now);
    NextSound(cfg, x, l, s.reply, w.now);
    NsEnsuredBuilt(cfg, x, l, w.now);
    FailStepKeeps(l, NamespaceStep);
    SaWanted(cfg, x, l.env.spec);
    forall n ensures Open(w, x, n) <==> Open(s.w, x, n) { OpenNs(w, s.w, x, n); }
    hide Sound, Wanted;
  }

  lemma SaWanted(cfg: Config, x: string, spec: Spec)
    ensures Wanted(cfg, x, spec, SaStage)
  {
  }

  lemma FailStepKeeps(l: Local, step: CreateStep)
    ensures var m := FailStep(l, step); m.pc == Save(StepFailed) && m.env == l.env.(status := m.env.status) && m.env.status.expirationTime == l.env.status.expirationTime
  {
  }

  lemma SameTemplates(w: World, v: World, env: EphemeralEnv)
    requires v.templates == w.templates
    ensures TemplateAt(v, env) == TemplateAt(w, env)
  {
  }

  /** Fetching, adding the finalizer, fetching again. */
  lemma TrackOpening(cfg: Config, x: string, w: World, l: Local, f: Fault)
    requires OnTrack(cfg, x, w, l) && Standing(x, w) && w.now <= Deadline(w.envs[x]) && ReadsEnv(l.pc)
    ensures var s := Step(cfg, x, w, l, f); s.w == w && OnTrack(cfg, x, w, s.l)
  {
    hide Step, Next, NsName, Built, Parses, TemplateAt, Resolve, SetCondition;
    var s := Step(cfg, x, w, l, f);
    StepParts(cfg, x, w, l, f);
    NextOpening(cfg, x, l, s.reply, w.now);
    NextSound(cfg, x, l, s.reply, w.now);
    hide Sound;
  }

  lemma TrackWriting(cfg: Config, x: string, w: World, l: Local, f: Fault)
    requires OnTrack(cfg, x, w, l) && Standing(x, w) && WritesEnv(l.pc)
    ensures var s := Step(cfg, x, w, l, f);
      s.w == w.(envs := s.w.envs, nextVersion := s.w.nextVersion) && OnTrack(cfg, x, s.w, s.l) && SameEnv(x, w, s.w)
  {
    hide Step, Next, NsName, Built;
    var s := Step(cfg, x, w, l, f);
    WriteOutcome(cfg, x, w, l, f);
    NextOpening(cfg, x, l, s.reply, w.now);
    NextSound(cfg, x, l, s.reply, w.now);
    hide Sound, Wanted;
  }

  /** An object or release only ever appears in a namespace that takes it. */
  lemma BuildRoom(cfg: Config, x: string, w: World, l: Local, f: Fault)
    requires Building(l.pc)
    ensures var v := Step(cfg, x, w, l, f).w;
      && (forall k :: k in v.objs && k !in w.objs ==> AcceptsObjects(w, k.namespace))
      && (forall r :: r in v.releases && r !in w.releases ==> AcceptsObjects(w, r.namespace))
  {
    hide Next, NsName, StageKey, StageObj, Release, LegacyRelease, WriteEnv, WriteNs, TemplateRequest, AcceptsObjects;
    StepParts(cfg, x, w, l, f);
  }

  /** What a pass on its own leaves as it was, and what it may only add, where there is room for it. */
  ghost predicate Kin(x: string, w: World, v: World) {
    && SameEnv(x, w, v) && v.templates == w.templates && v.services == w.services
    && w.objs.Keys <= v.objs.Keys && w.releases <= v.releases
    && (forall n :: Open(w, x, n) <==> Open(v, x, n))
    && (forall k :: k in v.objs && k !in w.objs ==> Open(w, x, k.namespace))
    && (forall r :: r in v.releases && r !in w.releases ==> Open(w, x, r.namespace))
  }

  lemma KinTrans(x: string, w: World, v: World, u: World)
    requires Kin(x, w, v) && Kin(x, v, u)
    ensures Kin(x, w, u)
  {
    hide Deadline, Open;
  }

  /** A fit cluster stays fit. */
  lemma KinFit(cfg: Config, x: string, w: World, v: World)
    requires Kin(x, w, v) && Fit(cfg, x, w)
    ensures Fit(cfg, x, v)
  {
    SameTemplates(w, v, w.envs[x]);
    SameTemplate(v, w.envs[x], v.envs[x]);
    hide TemplateAt, Resolve, StageKey, Wanted, NsName, Release, Open, Parses, Deadline;
  }

  /** Where there is no room nothing appears: what is in place at the end could be put there at the start. */
  lemma KinAble(cfg: Config, x: string, w: World, v: World)
    requires Kin(x, w, v)
    requires forall st :: Wanted(cfg, x, w.envs[x].spec, st) ==> StageKey(x, w.envs[x].spec, NsName(x), st) in v.objs
    requires cfg.helm ==> forall c :: c in Resolve(w.envs[x].spec, TemplateAt(w, w.envs[x])) ==> Release(x, NsName(x), c) in v.releases
    ensures Able(cfg, x, w)
  {
    forall c ensures Release(x, NsName(x), c).namespace == NsName(x) { ReleaseNs(x, c); }
    hide TemplateAt, Resolve, StageKey, Wanted, NsName, Open, Deadline, Release;
  }

  lemma ReleaseNs(x: string, c: Component)
    ensures Release(x, NsName(x), c).namespace == NsName(x)
  {
  }

  lemma TrackStep(cfg: Config, x: string, w: World, l: Local, f: Fault)
    requires OnTrack(cfg, x, w, l) && Standing(x, w) && w.now <= Deadline(w.envs[x])
    ensures var s := Step(cfg, x, w, l, f);
      OnTrack(cfg, x, s.w, s.l) && Kin(x, w, s.w) && s.w.now == w.now
  {
    hide Step, OnTrack, NsName, Open;
    TrackPcs(cfg, x, w, l);
    StepParts(cfg, x, w, l, f);
    var v := Step(cfg, x, w, l, f).w;
    if ReadsEnv(l.pc) { TrackOpening(cfg, x, w, l, f); }
    else if WritesEnv(l.pc) {
      TrackWriting(cfg, x, w, l, f);
      forall n ensures Open(w, x, n) <==> Open(v, x, n) { OpenNs(w, v, x, n); }
    } else if Building(l.pc) {
      TrackBuilding(cfg, x, w, l, f);
      forall n ensures Open(w, x, n) <==> Open(v, x, n) { OpenNs(w, v, x, n); }
      BuildRoom(cfg, x, w, l, f);
      forall n ensures AcceptsObjects(w, n) ==> Open(w, x, n) { AcceptsOpen(w, x, n); }
      hide AcceptsObjects;
    } else { TrackNs(cfg, x, w, l, f); }
  }

  lemma AcceptsOpen(w: World, x: string, n: string)
    ensures AcceptsObjects(w, n) ==> Open(w, x, n)
  {
  }

  lemma TrackPcs(cfg: Config, x: string, w: World, l: Local)
    requires OnTrack(cfg, x, w, l)
    ensures ReadsEnv(l.pc) || WritesEnv(l.pc) || l.pc.GetNs? || l.pc.PutNs? || Building(l.pc)
  {
  }

  // ---------------------------------------------------------------- calm passes

  predicate Ticks(es: seq<Event>) { forall i :: 0 <= i < |es| ==> es[i].Tick? }

  function Seconds(es: seq<Event>): nat {
    if es == [] then 0 else Seconds(es[..|es| - 1]) + (if es[|es| - 1].Tick? then es[|es| - 1].seconds else 0)
  }

  /** Between the calls nothing happens but time passing. */
  predicate Undisturbed(fates: seq<Fate>) { forall i :: 0 <= i < |fates| ==> Ticks(fates[i].before) }

  function Elapsed(fates: seq<Fate>): nat {
    if fates == [] then 0 else Seconds(fates[0].before) + Elapsed(fates[1..])
  }

  function Faults(fates: seq<Fate>): nat {
    if fates == [] then 0 else (if fates[0].fault.NoFault? then 0 else 1) + Faults(fates[1..])
  }

  function Later(w: World, seconds: nat): World { w.(now := w.now + seconds) }

  lemma {:induction false} OnlyTime(cfg: Config, x: string, g: Global, es: seq<Event>)
    requires Ticks(es)
    ensures Run(cfg, g, Others(x, es)) == g.(w := Later(g.w, Seconds(es)))
  {
    if es != [] {
      var before, e := es[..|es| - 1], es[|es| - 1];
      OnlyTime(cfg, x, g, before);
      RunSnoc(cfg, g, Others(x, before), e);
    }
  }

  /** A call of an undisturbed pass. */
  lemma CalmMeet(cfg: Config, x: string, g: Global, fate: Fate)
    requires Ticks(fate.before)
    ensures var s := Step(cfg, x, Later(g.w, Seconds(fate.before)), LocalOf(g, x), fate.fault); var h := Meet(cfg, x, g, fate);
      h.w == s.w && LocalOf(h, x) == s.l
  {
    hide Step, Run;
    OnlyTime(cfg, x, g, fate.before);
  }

  lemma LaterTrack(cfg: Config, x: string, w: World, l: Local, d: nat)
    requires OnTrack(cfg, x, w, l) && Standing(x, w)
    ensures OnTrack(cfg, x, Later(w, d), l) && Standing(x, Later(w, d)) && Kin(x, w, Later(w, d))
  {
    hide Sound, NsName, Open, Wanted;
    forall n ensures Open(w, x, n) <==> Open(Later(w, d), x, n) { OpenNs(w, Later(w, d), x, n); }
  }

  ghost predicate Underway(cfg: Config, x: string, g: Global, fates: seq<Fate>) {
    && Undisturbed(fates)
    && OnTrack(cfg, x, g.w, LocalOf(g, x)) && Standing(x, g.w) && g.w.now + Elapsed(fates) <= Deadline(g.w.envs[x])
  }

  lemma CalmStep(cfg: Config, x: string, g: Global, fates: seq<Fate>)
    requires Underway(cfg, x, g, fates)
    ensures var h := Meet(cfg, x, g, NextFate(fates)); var later := LaterFates(fates);
      Underway(cfg, x, h, later) && Kin(x, g.w, h.w) && Sound(cfg, x, LocalOf(h, x)) && Sound(cfg, x, LocalOf(g, x))
      && Faults(fates) == Faults(later) + (if NextFate(fates).fault.NoFault? then 0 else 1)
      && h.w.now + Elapsed(later) == g.w.now + Elapsed(fates)
  {
    hide Step, Meet, Kin, Sound;
    var fate := NextFate(fates);
    var v := Later(g.w, Seconds(fate.before));
    CalmMeet(cfg, x, g, fate);
    LaterTrack(cfg, x, g.w, LocalOf(g, x), Seconds(fate.before));
    KinDeadline(x, g.w, v);
    TrackStep(cfg, x, v, LocalOf(g, x), fate.fault);
    KinTrans(x, g.w, v, Step(cfg, x, v, LocalOf(g, x), fate.fault).w);
    KinDeadline(x, g.w, Meet(cfg, x, g, fate).w);
  }

  lemma KinDeadline(x: string, w: World, v: World)
    requires Kin(x, w, v)
    ensures x in w.envs && x in v.envs && Deadline(v.envs[x]) == Deadline(w.envs[x]) && (Standing(x, w) ==> Standing(x, v))
  {
  }
}

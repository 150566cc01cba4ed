/** No extension of a time-to-live is ever lost or counted twice. */
module Extensions {
  import opened Model
  import opened Store
  import opened Machine
  import opened Teardown
  import opened Calls
  import opened Progress
  import opened Protocol
  import opened Runs

  /** A private copy that is still current shows the stored expiry. */
  predicate CopyAgrees(w: World, x: string, copy: EphemeralEnv) {
    && copy.resourceVersion < w.nextVersion
    && (Current(w, x, copy) && w.envs[x].status.expirationTime.Some? ==>
          copy.status.expirationTime == w.envs[x].status.expirationTime)
  }

  ghost predicate LedgerKept(g: Global, x: string) {
    x in g.w.envs ==>
      var expiry := g.w.envs[x].status.expirationTime;
      && g.w.envs[x].resourceVersion < g.w.nextVersion && g.w.envs[x].uid < g.w.nextVersion
      && (expiry.Some? <==> x in g.ledgers)
      && (expiry.Some? ==> expiry.value == g.ledgers[x].first + g.ledgers[x].added)
  }

  ghost predicate Accounted(g: Global, x: string) {
    && LedgerKept(g, x)
    && (!LocalOf(g, x).pc.Idle? ==> CopyAgrees(g.w, x, LocalOf(g, x).env))
    && (forall id :: id in g.extensions && g.extensions[id].env == x ==>
          var base := g.extensions[id].base;
          base.resourceVersion < g.w.nextVersion
          && (Current(g.w, x, base) ==> base.status.expirationTime == g.w.envs[x].status.expirationTime))
  }

  /** Between its first read and its end a pass never alters the expiry in its copy. */
  lemma NextKeepsExpiry(cfg: Config, x: string, l: Local, r: Reply, now: Time)
    requires Building(l.pc) ==> Built(cfg, x, l)
    ensures var m := Next(cfg, x, l, r, now);
      m.pc.Idle? ||
      (r.AnEnv? && m.env.uid == r.env.uid && m.env.resourceVersion == r.env.resourceVersion
        && (r.env.status.expirationTime.Some? ==> m.env.status.expirationTime == r.env.status.expirationTime)) ||
      (!l.pc.Idle? && m.env.uid == l.env.uid && m.env.resourceVersion == l.env.resourceVersion
        && (l.env.status.expirationTime.Some? ==> m.env.status.expirationTime == l.env.status.expirationTime))
  {
    hide Next, Built;
    if Building(l.pc) { NextBuilding(cfg, x, l, r, now); }
    else if Tearing(l.pc) { NextTearing(cfg, x, l, r, now); }
    else { NextOpening(cfg, x, l, r, now); }
  }

  lemma AccountedWrite(cfg: Config, g: Global, x: string, f: Fault)
    requires Accounted(g, x) && WritesEnv(LocalOf(g, x).pc)
    ensures Accounted(DoWork(cfg, g, x, f), x)
  {
    hide Step, Next;
    var w, l := g.w, LocalOf(g, x);
    var s := Step(cfg, x, w, l, f);
    WriteOutcome(cfg, x, w, l, f);
    assert s.l.pc.Idle? || s.l == l.(pc := Refetch) by { NextOpening(cfg, x, l, s.reply, w.now); }
  }

  lemma AccountedWork(cfg: Config, g: Global, x: string, f: Fault)
    requires Accounted(g, x) && (Building(LocalOf(g, x).pc) ==> Built(cfg, x, LocalOf(g, x)))
    ensures Accounted(DoWork(cfg, g, x, f), x)
  {
    hide Step, Next, Built;
    var w, l := g.w, LocalOf(g, x);
    var s := Step(cfg, x, w, l, f);
    if WritesEnv(l.pc) {
      AccountedWrite(cfg, g, x, f);
    } else {
      StepParts(cfg, x, w, l, f);
      NextKeepsExpiry(cfg, x, l, s.reply, w.now);
    }
  }

  lemma AccountedExtend(g: Global, id: nat, f: Fault, x: string)
    requires Accounted(g, x)
    ensures Accounted(DoExtendWrite(g, id, f), x)
  {
    hide PutEnv;
    if id in g.extensions {
      var u := g.extensions[id];
      ExtendWrites(g, id, f);
      if Accepted(g.w, u, f) {
        PutEnvParts(g.w, u.env, g.w.envs[u.env].(status := Extended(u).status));
      }
    }
  }

  lemma AccountedApply(cfg: Config, g: Global, e: Event, x: string)
    requires Accounted(g, x) && (Building(LocalOf(g, x).pc) ==> Built(cfg, x, LocalOf(g, x)))
    ensures Accounted(Apply(cfg, g, e), x)
  {
    hide Step, Built, Ambient, DoExtendWrite, PutEnv;
    match e
    case Work(y, f) =>
      if y == x { AccountedWork(cfg, g, x, f); } else { StepStatus(cfg, y, g.w, LocalOf(g, y), f); }
    case ExtendWrite(id, f) => AccountedExtend(g, id, f, x);
    case ExtendRead(_, _, _) =>
    case CreateEnv(_, _, _, _) =>
    case _ => AmbientEnv(g.w, e, x);
  }

  lemma {:induction false} AccountedRun(cfg: Config, g: Global, es: seq<Event>, x: string)
    requires Initial(g)
    ensures Accounted(Run(cfg, g, es), x)
  {
    hide Apply, Built;
    if es != [] {
      AccountedRun(cfg, g, es[..|es| - 1], x);
      ShapedRun(cfg, g, es[..|es| - 1], x);
      AccountedApply(cfg, Run(cfg, g, es[..|es| - 1]), es[|es| - 1], x);
    }
  }

  /** An open ledger moves only with an accepted extension of x, by its duration, or closes when x is created anew. */
  lemma LedgerMoves(cfg: Config, g: Global, e: Event, x: string)
    requires Accounted(g, x) && x in g.w.envs && x in g.ledgers
    ensures var h := Apply(cfg, g, e);
      x in h.ledgers && h.ledgers[x].first == g.ledgers[x].first
      && h.ledgers[x].added == g.ledgers[x].added +
           (if e.ExtendWrite? && e.id in g.extensions && g.extensions[e.id].env == x && Accepted(g.w, g.extensions[e.id], e.fault)
            then g.extensions[e.id].duration else 0)
  {
    hide Step, Ambient, PutEnv, Exec, Extended;
  }

  /** In every run - any interleaving, any faults, the resource deleted and re-created at will - the
      stored expiry is the first value stored plus the durations of all extensions the server accepted. */
  lemma {:induction false} NoLostExtension(cfg: Config, g: Global, es: seq<Event>, x: string)
    requires Initial(g)
    ensures var h := Run(cfg, g, es);
      x in h.w.envs ==>
        (h.w.envs[x].status.expirationTime.Some? <==> x in h.ledgers)
        && (x in h.ledgers ==> h.w.envs[x].status.expirationTime == Some(h.ledgers[x].first + h.ledgers[x].added))
  {
    hide Run;
    AccountedRun(cfg, g, es, x);
  }
}

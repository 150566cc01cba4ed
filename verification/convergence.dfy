/** Every pass either puts everything in place or has used up a fault. */
module Convergence {
  import opened Model
  import opened Discovery
  import opened Store
  import opened Machine
  import opened Progress
  import opened Protocol
  import opened Pass
  import opened Backing
  import opened Calm
  import opened Faultless
  import opened Converge
  import opened History

  /** Everything asked for is in place, the routes among it. */
  ghost predicate Whole(cfg: Config, x: string, w: World) {
    Settled(cfg, x, w) && Served(x, w)
  }

  /** The pass stored phase Active, with everything asked for in place. */
  ghost predicate Arrived(cfg: Config, x: string, c: Completion) {
    Activates(x, c) && Whole(cfg, x, c.g.w)
  }

  lemma PassProgress(cfg: Config, x: string, g: Global, fates: seq<Fate>)
    requires Startable(cfg, x, g, fates) && Served(x, g.w)
    ensures var c := OnePass(cfg, x, g, fates);
      && (Arrived(cfg, x, c) || Faults(c.rest) < Faults(fates))
      && Startable(cfg, x, c.g, c.rest) && Served(x, c.g.w) && g.w.releases <= c.g.w.releases
  {
    hide OnePass, Fit, Undisturbed, Elapsed, Activates, TemplateAt, Served, Settled;
    var c := OnePass(cfg, x, g, fates);
    CalmPass(cfg, x, g, fates);
    KinBackend(x, g.w, c.g.w);
    if Faults(c.rest) == Faults(fates) { CleanPassSettles(cfg, x, g, fates); }
  }

  /** From any cluster that can take the environment's objects, whatever an earlier pass left there: with
      at most k failing calls in all, one of the next k + 1 passes stores phase Active with everything in
      place, and no release on record is lost on the way. */
  lemma {:induction false} Converges(cfg: Config, x: string, g: Global, fates: seq<Fate>, k: nat)
    requires Startable(cfg, x, g, fates) && Served(x, g.w) && Faults(fates) <= k
    ensures exists i: nat :: i <= k && Arrived(cfg, x, Nth(cfg, x, g, fates, i)) && g.w.releases <= Nth(cfg, x, g, fates, i).g.w.releases
    decreases k
  {
    hide OnePass, Fit, Undisturbed, Elapsed, Arrived, Served;
    var c := OnePass(cfg, x, g, fates);
    PassProgress(cfg, x, g, fates);
    if Arrived(cfg, x, c) {
      assert Nth(cfg, x, g, fates, 0) == c;
    } else {
      Converges(cfg, x, c.g, c.rest, k - 1);
      var i: nat :| i <= k - 1 && Arrived(cfg, x, Nth(cfg, x, c.g, c.rest, i)) && c.g.w.releases <= Nth(cfg, x, c.g, c.rest, i).g.w.releases;
      assert Nth(cfg, x, g, fates, i + 1) == Nth(cfg, x, c.g, c.rest, i);
    }
  }

  lemma {:induction false} CalmNth(cfg: Config, x: string, g: Global, fates: seq<Fate>, n: nat)
    requires Willing(x, g, fates)
    ensures Kin(x, g.w, Nth(cfg, x, g, fates, n).g.w)
    decreases n
  {
    hide OnePass, Kin, Undisturbed, Elapsed, Fit;
    var c := OnePass(cfg, x, g, fates);
    CalmPass(cfg, x, g, fates);
    if n > 0 {
      CalmNth(cfg, x, c.g, c.rest, n - 1);
      KinTrans(x, g.w, c.g.w, Nth(cfg, x, c.g, c.rest, n - 1).g.w);
    }
  }

  lemma SettledBefore(cfg: Config, x: string, w: World, v: World)
    requires Kin(x, w, v) && Whole(cfg, x, v)
    ensures Able(cfg, x, w) && Served(x, w)
  {
    KinBackend(x, w, v);
    hide TemplateAt, Served, Resolve, StageKey, Wanted, NsName, Release, Labelled;
    forall st | Wanted(cfg, x, w.envs[x].spec, st) ensures StageKey(x, w.envs[x].spec, NsName(x), st) in v.objs {
      SettledPrescribed(cfg, x, v, st);
    }
    KinAble(cfg, x, w, v);
    hide Kin;
  }

  /** Exactly when that is so: the environment's own namespace, or any other that an object or release is
      still missing from, is not terminating (and, if it is another, exists); and some service qualifies.
      If not, no number of passes puts everything in place, with or without faults. */
  lemma ConvergesExactly(cfg: Config, x: string, g: Global, fates: seq<Fate>, k: nat)
    requires Willing(x, g, fates) && Faults(fates) <= k
    requires cfg.helm ==> Parses(Resolve(g.w.envs[x].spec, TemplateAt(g.w, g.w.envs[x])))
    ensures (exists i: nat :: i <= k && Arrived(cfg, x, Nth(cfg, x, g, fates, i))) <==> Able(cfg, x, g.w) && Served(x, g.w)
    ensures !(Able(cfg, x, g.w) && Served(x, g.w)) ==> forall i: nat :: !Whole(cfg, x, Nth(cfg, x, g, fates, i).g.w)
  {
    hide OnePass, Nth, Undisturbed, Elapsed, Able, Served, Whole, Activates, Parses, Resolve, TemplateAt;
    if Able(cfg, x, g.w) && Served(x, g.w) { Converges(cfg, x, g, fates, k); }
    forall i: nat ensures Whole(cfg, x, Nth(cfg, x, g, fates, i).g.w) ==> Able(cfg, x, g.w) && Served(x, g.w) {
      CalmNth(cfg, x, g, fates, i);
      if Whole(cfg, x, Nth(cfg, x, g, fates, i).g.w) { SettledBefore(cfg, x, g.w, Nth(cfg, x, g, fates, i).g.w); }
    }
  }

  /** A namespace of the environment that is still terminating and lacks the service account is such a case. */
  lemma TerminatingBlocks(cfg: Config, x: string, w: World)
    requires x in w.envs && Terminating(w, NsName(x)) && Key(ServiceAccount, NsName(x), "developer-access") !in w.objs
    ensures !Able(cfg, x, w)
  {
    NsNamePrefixed(x);
    hide NsName;
    assert Wanted(cfg, x, w.envs[x].spec, SaStage);
    assert StageKey(x, w.envs[x].spec, NsName(x), SaStage) == Key(ServiceAccount, NsName(x), "developer-access");
  }
}

/** The cluster as the reconciler meets it: an object that its calls, and everybody else's, change in place. */
module ClusterState {
  import opened Model
  import opened Store
  import opened Machine
  import opened Teardown
  import opened Protocol
  import opened Pass

  /** The same end: the state reached, and the fates left over. */
  predicate SameEnd(c: Completion, d: Completion) {
    c.g == d.g && c.rest == d.rest
  }

  /** The store that the next call of x's worker will find. */
  function Met(cfg: Config, x: string, g: Global, fates: seq<Fate>): World {
    Disturbed(cfg, x, g, NextFate(fates)).w
  }

  /** `g` is the whole system, `fates` the oracle that decides what happens between the calls to come and
      how they go wrong. */
  class Cluster {
    const cfg: Config
    var g: Global
    var fates: seq<Fate>

    constructor (cfg: Config, g: Global, fates: seq<Fate>)
      ensures this.cfg == cfg && this.g == g && this.fates == fates
    {
      this.cfg, this.g, this.fates := cfg, g, fates;
    }

    /** How far the protocol says the pass for x has come. */
    function Here(x: string): Local
      reads this
    {
      LocalOf(g, x)
    }

    /** The pass for x, completed from here as the protocol prescribes, ends in `end`. */
    ghost predicate OnCourse(x: string, end: Completion)
      reads this
    {
      Sound(cfg, x, Here(x)) && SameEnd(Complete(cfg, x, g, fates), end)
    }

    /** The pass for x is over, with this result, where it was to end. */
    ghost predicate Finished(x: string, end: Completion, result: PassResult)
      reads this
    {
      g == end.g && fates == end.rest && Here(x).pc == Idle(result)
    }

    /** Once idle, a pass on its course is over. */
    lemma Ended(x: string, end: Completion)
      requires OnCourse(x, end) && Here(x).pc.Idle?
      ensures Finished(x, end, Here(x).pc.last)
    {
    }

    /** The first call of a pass. */
    method Fetch(x: string, req: Call) returns (r: Reply, now: Time)
      requires Here(x).pc.Idle? && req == Request(cfg, x, Here(x))
      modifies this
      ensures OnCourse(x, OnePass(cfg, x, old(g), old(fates)))
      ensures Here(x) == Next(cfg, x, old(Here(x)), r, now)
    {
      hide Next, Request, Complete, Sound;
      ghost var l := Here(x);
      IdleSound(cfg, x, l);
      r, now := Perform(x, req);
      assert Sound(cfg, x, Here(x)) by { MeetMoves(cfg, x, old(g), NextFate(old(fates))); }
    }

    /** Every later one: the pass stays on its course. */
    method Do(x: string, req: Call, ghost end: Completion) returns (r: Reply, now: Time)
      requires OnCourse(x, end) && !Here(x).pc.Idle? && req == Request(cfg, x, Here(x))
      modifies this
      ensures OnCourse(x, end)
      ensures Here(x) == Next(cfg, x, old(Here(x)), r, now)
      ensures r == Exec(Met(cfg, x, old(g), old(fates)), req, NextFate(old(fates)).fault).reply
    {
      hide Next, Request, Sound, Exec;
      assert Complete(cfg, x, g, fates).g == Complete(cfg, x, Meet(cfg, x, g, NextFate(fates)), LaterFates(fates)).g by { MeetMoves(cfg, x, g, NextFate(fates)); }
      r, now := Perform(x, req);
      assert Sound(cfg, x, Here(x)) by { MeetMoves(cfg, x, old(g), NextFate(old(fates))); }
    }

    /** Whatever comes first happens, then the call meets the store. */
    method Perform(x: string, req: Call) returns (r: Reply, now: Time)
      requires req == Request(cfg, x, Here(x))
      modifies this
      ensures g == Meet(cfg, x, old(g), NextFate(old(fates))) && fates == LaterFates(old(fates))
      ensures Here(x) == Next(cfg, x, old(Here(x)), r, now)
      ensures r == Exec(Met(cfg, x, old(g), old(fates)), req, NextFate(old(fates)).fault).reply
    {
      hide Next, Request, Exec, Run;
      var fate := NextFate(fates);
      OthersKeepLocal(cfg, x, g, fate.before);
      g := Disturbed(cfg, x, g, fate);
      var done := Exec(g.w, req, fate.fault);
      r, now := done.reply, g.w.now;
      g := g.(w := done.w, locals := g.locals[x := Next(cfg, x, Here(x), r, now)], ledgers := Opened(g.ledgers, x, g.w, done.w));
      fates := LaterFates(fates);
    }
  }

  /** A private copy of the resource, as a reconcile pass or a request handler holds it. */
  class EnvObject {
    var uid: nat
    var resourceVersion: nat
    var namespace: string
    var created: Time
    var deleting: bool
    var finalizers: set<string>
    var spec: Spec
    var status: Status

    constructor (e: EphemeralEnv)
      ensures Value() == e
    {
      uid, resourceVersion, namespace, created := e.uid, e.resourceVersion, e.namespace, e.created;
      deleting, finalizers, spec, status := e.deleting, e.finalizers, e.spec, e.status;
    }

    function Value(): EphemeralEnv
      reads this
    {
      EphemeralEnv(uid, resourceVersion, namespace, created, deleting, finalizers, spec, status)
    }

    /** Overwrite the copy with what the server returned. */
    method Load(e: EphemeralEnv)
      modifies this
      ensures Value() == e
    {
      uid, resourceVersion, namespace, created := e.uid, e.resourceVersion, e.namespace, e.created;
      deleting, finalizers, spec, status := e.deleting, e.finalizers, e.spec, e.status;
    }

    method SetCondition(t: ConditionType, value: bool, now: Time)
      modifies this`status
      ensures status == Model.SetCondition(old(status), t, value, now)
    {
      var since := if t in status.conditions && status.conditions[t].status == value then status.conditions[t].since else now;
      status := status.(conditions := status.conditions[t := Condition(value, since)]);
    }
  }
}

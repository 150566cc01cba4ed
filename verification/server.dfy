/** The dashboard's handler that extends a time-to-live. */
module Dashboard {
  import opened Model
  import opened Store
  import opened Machine
  import opened Protocol
  import opened Pass
  import opened ClusterState

  /** What happens while request `id` is being served: anything but that request. */
  function Meanwhile(id: nat, es: seq<Event>): seq<Event> {
    if es == [] then []
    else
      var e := es[|es| - 1];
      Meanwhile(id, es[..|es| - 1]) + (if (e.ExtendRead? || e.ExtendWrite?) && e.id == id then [] else [e])
  }

  lemma {:induction false} MeanwhileKeeps(cfg: Config, g: Global, id: nat, es: seq<Event>)
    requires id in g.extensions
    ensures var h := Run(cfg, g, Meanwhile(id, es)); id in h.extensions && h.extensions[id] == g.extensions[id]
  {
    hide Apply;
    if es != [] {
      var before, e := es[..|es| - 1], es[|es| - 1];
      MeanwhileKeeps(cfg, g, id, before);
      if (e.ExtendRead? || e.ExtendWrite?) && e.id == id {
        assert Meanwhile(id, es) == Meanwhile(id, before);
      } else {
        RunSnoc(cfg, g, Meanwhile(id, before), e);
        EventKeeps(cfg, Run(cfg, g, Meanwhile(id, before)), id, e);
      }
    }
  }

  lemma EventKeeps(cfg: Config, g: Global, id: nat, e: Event)
    requires id in g.extensions && !((e.ExtendRead? || e.ExtendWrite?) && e.id == id)
    ensures var h := Apply(cfg, g, e); id in h.extensions && h.extensions[id] == g.extensions[id]
  {
    hide Step, Ambient, Exec, Opened, Credit, Accepted;
  }

  class Server {
    const cluster: Cluster

    constructor (cluster: Cluster)
      ensures this.cluster == cluster
    {
      this.cluster := cluster;
    }

    /** Read the resource, move its expiry, write the status back. `duration` is the parsed request, if it
        parses. While the request is served the rest of the system runs on; it is the version check of
        the write that keeps the two apart. */
    method ExtendTTL(id: nat, x: string, duration: Option<Time>) returns (ok: bool, newExpiration: Time)
      modifies cluster
      ensures duration.None? || x !in old(cluster.g.w.envs) ==> !ok && cluster.g == old(cluster.g)
      ensures duration.Some? && x in old(cluster.g.w.envs) ==>
        var fate := NextFate(old(cluster.fates));
        cluster.g == Run(cluster.cfg, old(cluster.g), [ExtendRead(id, x, duration.value)] + Meanwhile(id, fate.before) + [ExtendWrite(id, fate.fault)])
      ensures ok ==>
        && newExpiration == (if old(cluster.g.w.envs[x].status.expirationTime.Some?) then old(cluster.g.w.envs[x].status.expirationTime.value) else old(cluster.g.w.now)) + duration.value
        && (x in cluster.g.w.envs ==> cluster.g.w.envs[x].status.expirationTime == Some(newExpiration))
    {
      hide Run, Accepted, Opened, Credit;
      ok, newExpiration := false, 0;
      if duration.None? { return; }
      if x !in cluster.g.w.envs { return; }
      var cfg, fate := cluster.cfg, NextFate(cluster.fates);
      cluster.fates := LaterFates(cluster.fates);
      var env := new EnvObject(cluster.g.w.envs[x]);
      var now := cluster.g.w.now;
      ghost var base, g0 := cluster.g.w.envs[x], cluster.g;
      var read := ExtendRead(id, x, duration.value);
      cluster.g := Apply(cfg, cluster.g, read);
      assert cluster.g == Run(cfg, g0, [read]) by { assert [] + [read] == [read]; RunSnoc(cfg, g0, [], read); RunNothing(cfg, g0); }
      MeanwhileKeeps(cfg, cluster.g, id, fate.before);
      RunConcat(cfg, g0, [read], Meanwhile(id, fate.before));
      cluster.g := Run(cfg, cluster.g, Meanwhile(id, fate.before));
      newExpiration := (if env.status.expirationTime.Some? then env.status.expirationTime.value else now) + duration.value;
      env.status := env.status.(expirationTime := Some(newExpiration));
      assert env.Value() == Extended(cluster.g.extensions[id]);
      var reply := Exec(cluster.g.w, UpdateStatus(x, env.Value()), fate.fault).reply;
      ok := reply.Done?;
      if ok { Stores(cluster.g, id, fate.fault); }
      RunSnoc(cfg, g0, [read] + Meanwhile(id, fate.before), ExtendWrite(id, fate.fault));
      cluster.g := Apply(cfg, cluster.g, ExtendWrite(id, fate.fault));
    }
  }

  /** A write of an extension that is answered has been stored. */
  lemma Stores(g: Global, id: nat, f: Fault)
    requires id in g.extensions
    requires Exec(g.w, UpdateStatus(g.extensions[id].env, Extended(g.extensions[id])), f).reply.Done?
    ensures var u := g.extensions[id]; var h := DoExtendWrite(g, id, f);
      u.env in h.w.envs ==> h.w.envs[u.env].status.expirationTime == Extended(u).status.expirationTime
  {
    hide Opened, Credit, Accepted;
  }
}

/** The orchestrator's registry: which masters reported lately, and which clusters are allowed to report. */
module Registry {
  import opened Sequences
  import opened Sorting
  import opened Wrappers

  datatype Node = Node(id: string, name: string, ip: string)

  datatype Master = Master(
    id: string, name: string, cluster: string, advertise: string, pubKey: string, nodes: seq<Node>, lastSeen: int)

  /** Durations and instants are in nanoseconds. */
  const DEFAULT_TTL := 60_000_000_000

  // ----- what the views show, from the log of accepted upserts alone -----

  /** The last upsert of an id. */
  ghost function Latest(log: seq<Master>, id: string): Option<Master> {
    if log == [] then None
    else if log[|log| - 1].id == id then Some(log[|log| - 1])
    else Latest(log[..|log| - 1], id)
  }

  /** Each master whose last upsert is at most `ttl` old, as that upsert described it. */
  ghost function Live(log: seq<Master>, ttl: int, now: int): set<Master> {
    set m | m in log && Latest(log, m.id) == Some(m) && now - m.lastSeen <= ttl
  }

  ghost function LiveIn(log: seq<Master>, ttl: int, now: int, cluster: string): set<Master> {
    set m | m in Live(log, ttl, now) && cluster != "" && m.cluster == cluster
  }

  ghost function LiveClusters(log: seq<Master>, ttl: int, now: int): set<string> {
    set m | m in Live(log, ttl, now) && m.cluster != "" :: m.cluster
  }

  function NodesOf(m: Master): seq<Node> { m.nodes }

  predicate HasNode(m: Master, node: string) {
    node != "" && exists n :: n in m.nodes && n.id == node
  }

  lemma {:induction false} LatestHasId(log: seq<Master>, id: string)
    ensures Latest(log, id).Some? ==> Latest(log, id).value.id == id && Latest(log, id).value in log
    ensures Latest(log, id).None? <==> forall m :: m in log ==> m.id != id
  {
    if log != [] {
      LatestHasId(log[..|log| - 1], id);
      assert log == log[..|log| - 1] + [log[|log| - 1]];
    }
  }

  lemma LatestAppend(log: seq<Master>, m: Master, id: string)
    ensures Latest(log + [m], id) == if m.id == id then Some(m) else Latest(log, id)
  {
    assert (log + [m])[..|log|] == log;
  }

  // ----- the allowed clusters -----

  function NonEmpty(names: seq<string>): set<string> { set n | n in names && n != "" }

  predicate TablePermits(table: Option<set<string>>, cluster: string) {
    table == None || table == Some({}) || (cluster != "" && cluster in table.value)
  }

  /** The table of allowed clusters; without a database every method is lenient. */
  class AllowedClusters {
    var table: Option<set<string>>

    constructor (table: Option<set<string>>)
      ensures this.table == table
    {
      this.table := table;
    }

    method EnsureSeed(clusters: seq<string>)
      modifies this
      ensures table == if old(table) == None then None
                       else Some(old(table).value + NonEmpty(clusters))
    {
      if table == None {
        return;
      }
      for i := 0 to |clusters|
        invariant table.Some? && table.value == old(table).value + NonEmpty(clusters[..i])
      {
        if clusters[i] != "" {
          table := Some(table.value + {clusters[i]});
        }
      }
      assert clusters[..|clusters|] == clusters;
    }

    method List() returns (out: seq<string>)
      ensures Lists(out, if table == None then {} else table.value)
    {
      if table == None {
        return [];
      }
      var rows := Range(table.value);
      SortSorts(rows);
      out := Sort(rows);
    }

    method IsAllowed(cluster: string) returns (ok: bool)
      ensures ok == TablePermits(table, cluster)
      ensures ok <==> table == None || table == Some({}) || (cluster != "" && cluster in table.value)
    {
      if table == None {
        return true;
      }
      if table.value == {} {
        return true;
      }
      if cluster == "" {
        return false;
      }
      return cluster in table.value;
    }
  }

  /** The elements in some order, as ranging over a Go map gives them. */
  method Range<T(==)>(xs: set<T>) returns (out: seq<T>)
    ensures multiset(out) == multiset(xs)
  {
    out := [];
    var rest := xs;
    while rest != {}
      invariant rest <= xs && multiset(out) + multiset(rest) == multiset(xs)
      decreases rest
    {
      var x :| x in rest;
      out, rest := out + [x], rest - {x};
    }
  }

  // ----- the store -----

  class Store {
    var mastersByID: map<string, Master>
    const ttl: int
    const allowed: AllowedClusters?
    ghost var log: seq<Master>

    ghost predicate Valid()
      reads this
    {
      && ttl > 0
      && "" !in mastersByID
      && (forall id :: Latest(log, id) == if id in mastersByID then Some(mastersByID[id]) else None)
    }

    constructor (ttl: int, allowed: AllowedClusters?)
      ensures Valid() && log == [] && this.allowed == allowed
      ensures this.ttl == if ttl <= 0 then 60_000_000_000 else ttl
    {
      this.ttl := if ttl <= 0 then DEFAULT_TTL else ttl;
      this.allowed := allowed;
      mastersByID, log := map[], [];
    }

    ghost predicate Permits(cluster: string)
      reads this, allowed
    {
      allowed == null || TablePermits(allowed.table, cluster)
    }

    ghost function LiveNow(now: int): set<Master>
      reads this
    {
      Live(log, ttl, now)
    }

    /** The fields hold exactly what the log says is live. */
    lemma LiveHeld(now: int)
      requires Valid()
      ensures LiveNow(now) == set id | id in mastersByID && now - mastersByID[id].lastSeen <= ttl :: mastersByID[id]
      ensures forall id :: id in mastersByID ==> mastersByID[id].id == id
    {
      forall id | id in mastersByID ensures mastersByID[id].id == id && mastersByID[id] in log {
        LatestHasId(log, id);
      }
      forall m | m in LiveNow(now) ensures m.id in mastersByID && mastersByID[m.id] == m {
        assert Latest(log, m.id) == Some(m);
      }
    }

    method UpsertMaster(mi: Master, now: int) returns (ok: bool)
      requires Valid()
      modifies this
      ensures Valid()
      ensures ok <==> mi.id != "" && Permits(mi.cluster)
      ensures log == if ok then old(log) + [mi.(lastSeen := now)] else old(log)
      ensures mastersByID == if ok then old(mastersByID)[mi.id := mi.(lastSeen := now)] else old(mastersByID)
    {
      if mi.id == "" {
        return false;
      }
      if allowed != null {
        var permitted := allowed.IsAllowed(mi.cluster);
        if !permitted {
          return false;
        }
      }
      var m := mi.(lastSeen := now);
      forall id ensures Latest(log + [m], id) == if m.id == id then Some(m) else Latest(log, id) {
        LatestAppend(log, m, id);
      }
      mastersByID := mastersByID[m.id := m];
      log := log + [m];
      return true;
    }

    /** What a view has found when only `rest` of the map is still to be ranged over. */
    ghost function Found(rest: set<string>, cluster: string, now: int): set<Master>
      reads this
    {
      set id | id in mastersByID && id !in rest && mastersByID[id].cluster == cluster && now - mastersByID[id].lastSeen <= ttl
        :: mastersByID[id]
    }

    lemma FoundAll(cluster: string, now: int)
      requires Valid() && cluster != ""
      ensures Found({}, cluster, now) == LiveIn(log, ttl, now, cluster)
    {
      LiveHeld(now);
    }

    lemma FoundOne(rest: set<string>, id: string, cluster: string, now: int)
      requires Valid() && id in mastersByID && id in rest
      ensures var m, f := mastersByID[id], Found(rest, cluster, now);
        multiset(Found(rest - {id}, cluster, now)) ==
        if m.cluster == cluster && now - m.lastSeen <= ttl then multiset(f) + multiset{m} else multiset(f)
    {
      LiveHeld(now);
      var m, f := mastersByID[id], Found(rest, cluster, now);
      if m.cluster == cluster && now - m.lastSeen <= ttl {
        assert Found(rest - {id}, cluster, now) == f + {m} && m !in f;
      } else {
        assert Found(rest - {id}, cluster, now) == f;
      }
    }

    /** The master is the current entry of its id, no older than the TTL, and of that cluster. */
    ghost predicate Shows(m: Master, cluster: string, now: int)
      reads this
    {
      cluster != "" && m.cluster == cluster && m.id in mastersByID && mastersByID[m.id] == m && now - m.lastSeen <= ttl
    }

    lemma LiveShows(cluster: string, now: int)
      requires Valid()
      ensures forall m :: m in LiveIn(log, ttl, now, cluster) <==> Shows(m, cluster, now)
    {
      LiveHeld(now);
    }

    lemma ClustersShow(now: int)
      requires Valid()
      ensures forall cluster :: cluster in LiveClusters(log, ttl, now) <==> exists m :: Shows(m, cluster, now)
    {
      LiveHeld(now);
      forall cluster ensures cluster in LiveClusters(log, ttl, now) <==> exists m :: Shows(m, cluster, now) {
        LiveShows(cluster, now);
        if cluster in LiveClusters(log, ttl, now) {
          var m :| m in Live(log, ttl, now) && m.cluster == cluster && cluster != "";
          assert m in LiveIn(log, ttl, now, cluster);
        }
      }
    }

    method MastersForCluster(cluster: string, now: int) returns (out: seq<Master>)
      requires Valid()
      ensures multiset(out) == multiset(LiveIn(log, ttl, now, cluster))
      ensures forall m :: m in out <==> Shows(m, cluster, now)
    {
      out := [];
      if cluster == "" {
        return;
      }
      hide LiveIn, Valid;
      var rest := mastersByID.Keys;
      while rest != {}
        invariant rest <= mastersByID.Keys
        invariant multiset(out) == multiset(Found(rest, cluster, now))
        decreases rest
      {
        hide Found;
        var id :| id in rest;
        FoundOne(rest, id, cluster, now);
        rest := rest - {id};
        var m := mastersByID[id];
        if m.cluster != cluster {
          continue;
        }
        if now - m.lastSeen > ttl {
          continue;
        }
        out := out + [m];
      }
      FoundAll(cluster, now);
      LiveShows(cluster, now);
      assert forall m :: m in out <==> m in multiset(out);
    }

    method NodesForCluster(cluster: string, now: int) returns (out: seq<Node>)
      requires Valid()
      ensures forall ms: seq<Master> :: multiset(ms) == multiset(LiveIn(log, ttl, now, cluster)) ==>
                multiset(out) == multiset(FlatMap(ms, NodesOf))
    {
      out := [];
      ghost var ms: seq<Master> := [];
      if cluster == "" {
        assert forall order: seq<Master> :: multiset(order) == multiset{} ==> |multiset(order)| == 0;
        return;
      }
      hide LiveIn, Valid;
      var rest := mastersByID.Keys;
      while rest != {}
        invariant rest <= mastersByID.Keys
        invariant multiset(ms) == multiset(Found(rest, cluster, now))
        invariant out == FlatMap(ms, NodesOf)
        decreases rest
      {
        hide Found, FlatMap;
        var id :| id in rest;
        FoundOne(rest, id, cluster, now);
        rest := rest - {id};
        var m := mastersByID[id];
        if m.cluster != cluster {
          continue;
        }
        if now - m.lastSeen > ttl {
          continue;
        }
        FlatMapAppend(ms, m, NodesOf);
        ms := ms + [m];
        out := out + m.nodes;
      }
      FoundAll(cluster, now);
      forall order: seq<Master> | multiset(order) == multiset(LiveIn(log, ttl, now, cluster))
        ensures multiset(out) == multiset(FlatMap(order, NodesOf))
      {
        FlatMapPermute(order, ms, NodesOf);
      }
    }

    method IsClusterOnline(cluster: string, now: int) returns (online: bool)
      requires Valid()
      ensures online <==> LiveIn(log, ttl, now, cluster) != {}
      ensures online <==> exists m :: Shows(m, cluster, now)
    {
      LiveHeld(now);
      LiveShows(cluster, now);
      if cluster == "" {
        return false;
      }
      var rest := mastersByID.Keys;
      while rest != {}
        invariant rest <= mastersByID.Keys
        invariant forall m :: m in LiveIn(log, ttl, now, cluster) ==> m.id in rest
        decreases rest
      {
        var id :| id in rest;
        rest := rest - {id};
        var m := mastersByID[id];
        if m.cluster != cluster {
          continue;
        }
        if now - m.lastSeen > ttl {
          continue;
        }
        assert m in LiveIn(log, ttl, now, cluster);
        return true;
      }
      return false;
    }

    /** What `ActiveClusters` lists. */
    ghost function Active(now: int): set<string>
      reads this, allowed
    {
      if allowed == null then LiveClusters(log, ttl, now)
      else if allowed.table == None then {} else allowed.table.value
    }

    method ActiveClusters(now: int) returns (out: seq<string>)
      requires Valid()
      ensures Lists(out, Active(now))
      ensures allowed == null ==> forall cluster :: cluster in out <==> exists m :: Shows(m, cluster, now)
      ensures allowed != null ==>
                forall cluster :: cluster in out <==> allowed.table.Some? && cluster in allowed.table.value
    {
      if allowed != null {
        out := allowed.List();
        assert forall cluster :: cluster in out <==> cluster in multiset(out);
        return;
      }
      LiveHeld(now);
      var clusters: set<string> := {};
      var rest := mastersByID.Keys;
      while rest != {}
        invariant rest <= mastersByID.Keys
        invariant clusters <= LiveClusters(log, ttl, now)
        invariant forall m :: m in LiveNow(now) && m.cluster != "" ==> m.id in rest || m.cluster in clusters
        decreases rest
      {
        var id :| id in rest;
        rest := rest - {id};
        var m := mastersByID[id];
        if now - m.lastSeen > ttl {
          continue;
        }
        if m.cluster == "" {
          continue;
        }
        clusters := clusters + {m.cluster};
      }
      var names := Range(clusters);
      SortSorts(names);
      out := Sort(names);
      assert forall cluster :: cluster in out <==> cluster in multiset(out);
      ClustersShow(now);
    }

    ghost predicate Known(cluster: string, now: int)
      reads this, allowed
    {
      cluster != "" && if allowed == null then cluster in LiveClusters(log, ttl, now) else TablePermits(allowed.table, cluster)
    }

    method IsKnownCluster(cluster: string, now: int) returns (known: bool)
      requires Valid()
      ensures known <==> Known(cluster, now)
      ensures allowed == null ==> (known <==> exists m :: Shows(m, cluster, now))
    {
      ClustersShow(now);
      if cluster == "" {
        return false;
      }
      if allowed != null {
        known := allowed.IsAllowed(cluster);
        return;
      }
      LiveHeld(now);
      var rest := mastersByID.Keys;
      while rest != {}
        invariant rest <= mastersByID.Keys
        invariant forall m :: m in LiveNow(now) && m.cluster == cluster ==> m.id in rest
        decreases rest
      {
        var id :| id in rest;
        rest := rest - {id};
        var m := mastersByID[id];
        if now - m.lastSeen > ttl {
          continue;
        }
        if m.cluster == cluster {
          return true;
        }
      }
      return false;
    }

    /**
     * The two cluster views agree, without a set of allowed clusters always, with one exactly when its table has a row:
     * an empty table permits every cluster and lists none.
     */
    lemma ViewsAgree(now: int)
      requires Valid()
      requires allowed != null && allowed.table.Some? ==> "" !in allowed.table.value
      ensures (forall cluster :: cluster in Active(now) <==> Known(cluster, now)) <==>
              allowed == null || (allowed.table.Some? && allowed.table.value != {})
    {
      if allowed != null && (allowed.table == None || allowed.table == Some({})) {
        assert Known("default", now) && "default" !in Active(now);
      }
    }

    /** `IsClusterOnline` tells whether `MastersForCluster` finds anyone. */
    lemma OnlineIffSomeMaster(masters: seq<Master>, cluster: string, now: int)
      requires Valid() && multiset(masters) == multiset(LiveIn(log, ttl, now, cluster))
      ensures masters != [] <==> LiveIn(log, ttl, now, cluster) != {}
    {
      if masters != [] {
        assert masters[0] in multiset(masters);
      } else {
        assert |multiset(LiveIn(log, ttl, now, cluster))| == 0;
      }
    }
  }

  method MasterHasNode(master: Master, nodeID: string) returns (has: bool)
    ensures has == HasNode(master, nodeID)
    ensures has <==> nodeID != "" && exists n :: n in master.nodes && n.id == nodeID
  {
    if nodeID == "" {
      return false;
    }
    for i := 0 to |master.nodes|
      invariant forall k :: 0 <= k < i ==> master.nodes[k].id != nodeID
    {
      if master.nodes[i].id == nodeID {
        return true;
      }
    }
    return false;
  }

  /** A master is shown exactly until its last accepted upsert is older than the TTL, whatever came before it. */
  lemma ShownUntilTtl(log: seq<Master>, m: Master, later: seq<Master>, ttl: int, now: int)
    requires forall n :: n in later ==> n.id != m.id
    ensures m in Live(log + [m] + later, ttl, now) <==> now - m.lastSeen <= ttl
    ensures forall n :: n in Live(log + [m] + later, ttl, now) && n.id == m.id ==> n == m
  {
    LatestThen(log + [m], later, m.id);
    LatestAppend(log, m, m.id);
    assert m in log + [m] + later;
  }

  lemma {:induction false} LatestThen(log: seq<Master>, later: seq<Master>, id: string)
    requires forall n :: n in later ==> n.id != id
    ensures Latest(log + later, id) == Latest(log, id)
  {
    if later == [] {
      assert log + later == log;
    } else {
      var k := |later| - 1;
      assert log + later == (log + later[..k]) + [later[k]];
      LatestThen(log, later[..k], id);
      LatestAppend(log + later[..k], later[k], id);
    }
  }
}

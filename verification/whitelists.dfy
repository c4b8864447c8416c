/** How the configured lists of ids become the sets that the handshakes check and the clusters that the registry allows. */
module Whitelists {
  import opened Registry
  import Handshake
  import opened Wrappers

  /** Cluster names with the ids configured for them. */
  type Whitelist = map<string, seq<string>>

  /** A set stands for a Go map with empty values, and the empty set also for a nil one. */
  method SliceToSet(names: seq<string>) returns (out: set<string>)
    ensures out == NonEmpty(names)
  {
    if |names| == 0 {
      return {};
    }
    out := {};
    for i := 0 to |names|
      invariant out == NonEmpty(names[..i])
    {
      if names[i] == "" {
        continue;
      }
      out := out + {names[i]};
    }
    assert names[..|names|] == names;
  }

  method WhitelistClusters(wl: Whitelist) returns (out: seq<string>)
    ensures multiset(out) == multiset(wl.Keys - {""})
  {
    out := [];
    var rest := wl.Keys;
    while rest != {}
      invariant rest <= wl.Keys
      invariant multiset(out) == multiset(wl.Keys - {""} - rest)
      decreases rest
    {
      var cluster :| cluster in rest;
      var left := wl.Keys - {""} - rest;
      rest := rest - {cluster};
      if cluster == "" {
        assert wl.Keys - {""} - rest == left;
        continue;
      }
      assert wl.Keys - {""} - rest == left + {cluster};
      out := out + [cluster];
    }
  }

  /** The clusters with at least one id, each with its ids. */
  function MastersByCluster(wl: Whitelist): map<string, set<string>> {
    map cluster | cluster in wl && cluster != "" && NonEmpty(wl[cluster]) != {} :: NonEmpty(wl[cluster])
  }

  method WhitelistClusterMasters(wl: Whitelist) returns (out: map<string, set<string>>)
    ensures out == MastersByCluster(wl)
  {
    if |wl| == 0 {
      assert wl == map[];
      return map[];
    }
    out := map[];
    var rest := wl.Keys;
    while rest != {}
      invariant rest <= wl.Keys
      invariant out == map c | c in MastersByCluster(wl) && c !in rest :: MastersByCluster(wl)[c]
      decreases rest
    {
      var cluster :| cluster in rest;
      rest := rest - {cluster};
      if cluster == "" {
        continue;
      }
      var ids := SliceToSet(wl[cluster]);
      if ids == {} {
        continue;
      }
      out := out[cluster := ids];
    }
    if |out| == 0 {
      assert out == map[];
      return map[];
    }
  }

  /**
   * Whom the configured whitelist admits: the masters it names for their cluster, or everyone when it names nobody,
   * even if it lists clusters.
   */
  lemma Admits(wl: Whitelist, cluster: string, id: string)
    ensures Handshake.Whitelisted(MastersByCluster(wl), cluster, id) <==>
            || (forall c, i :: c in wl && c != "" && i in wl[c] ==> i == "")
            || (cluster != "" && cluster in wl && id != "" && id in wl[cluster])
  {
    var out := MastersByCluster(wl);
    if forall c, i :: c in wl && c != "" && i in wl[c] ==> i == "" {
      assert forall c :: c in wl && c != "" ==> NonEmpty(wl[c]) == {};
      assert out == map[];
    } else {
      var c, i :| c in wl && c != "" && i in wl[c] && i != "";
      assert i in NonEmpty(wl[c]) && c in out;
      assert |out| > 0;
      if cluster != "" && cluster in wl && id != "" && id in wl[cluster] {
        assert id in NonEmpty(wl[cluster]);
      }
    }
  }

  /**
   * Seeding the allowed clusters from the same whitelist, on top of whatever the table held before, never locks out a
   * master that a non-empty whitelist admits.
   */
  lemma SeedPermits(wl: Whitelist, table: set<string>, seed: seq<string>, cluster: string, id: string)
    requires multiset(seed) == multiset(wl.Keys - {""})
    requires |MastersByCluster(wl)| > 0 && Handshake.Whitelisted(MastersByCluster(wl), cluster, id)
    ensures TablePermits(Some(table + NonEmpty(seed)), cluster)
  {
    assert cluster in multiset(seed);
  }
}

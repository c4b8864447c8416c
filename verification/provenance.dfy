/**
 * Where the registry's records come from: any number of connections, each with an arbitrary peer, and the updates
 * that the orchestrator takes from them.
 */
module Provenance {
  import opened Handshake
  import opened Peers
  import opened Process
  import opened Registry
  import opened Text
  import opened Wrappers

  // ----- the updates on a connection -----

  /** What the orchestrator is configured with: the whitelist, and the clusters in its table if it has one. */
  datatype Site = Site(c: Crypto, whitelist: map<string, set<string>>, table: Option<set<string>>)

  predicate Takes(table: Option<set<string>>, authed: AuthHello, mi: Master) {
    mi.id != "" && mi.id == authed.id && mi.cluster == authed.cluster && TablePermits(table, mi.cluster)
  }

  /** A register or heartbeat packet in the read loop of handleConn; None is a payload that does not decode. */
  method HandleUpdate(store: Store, authed: AuthHello, update: Option<Master>, now: int) returns (ok: bool)
    requires store.Valid()
    modifies store
    ensures store.Valid()
    ensures ok <==>
              && update.Some? && update.value.id != "" && update.value.id == authed.id && update.value.cluster == authed.cluster
              && (|| store.allowed == null || store.allowed.table == None || store.allowed.table == Some({})
                  || (update.value.cluster != "" && update.value.cluster in store.allowed.table.value))
    ensures ok <==> update.Some? && Takes(if store.allowed == null then None else store.allowed.table, authed, update.value)
    ensures store.log == if ok then old(store.log) + [update.value.(lastSeen := now)] else old(store.log)
  {
    if update.None? {
      return false;
    }
    var mi := update.value;
    if mi.id == "" {
      return false;
    }
    if mi.id != authed.id {
      return false;
    }
    if mi.cluster != authed.cluster {
      return false;
    }
    ok := store.UpsertMaster(mi, now);
  }

  // ----- every run of any number of connections -----

  /** A connection, with the challenge it was given and what its peer has sent so far; None is the end of the stream. */
  datatype Link = Link(challenge: string, heard: seq<Option<Line>>)

  /** `via` names the connection that brought each entry of the log. */
  datatype State = State(links: map<nat, Link>, log: seq<Master>, via: seq<nat>)

  const INIT := State(map[], [], [])

  /** Peers send whatever they like, whenever they like. */
  datatype Event = Open(n: nat, challenge: string) | Hear(n: nat, line: Option<Line>) | Update(n: nat, mi: Master, now: int)

  /** Where the handler of a connection is. */
  function Handler(site: Site, link: Link): Proc {
    After(OrchServer(site.c, site.whitelist, link.challenge), link.heard)
  }

  predicate Serving(site: Site, link: Link) {
    Handler(site, link).Done? && Handler(site, link).outcome.Registered?
  }

  function Authed(site: Site, link: Link): AuthHello
    requires Serving(site, link)
  {
    Handler(site, link).outcome.hello
  }

  predicate Can(site: Site, s: State, e: Event) {
    match e
    case Open(n, _) => n !in s.links
    case Hear(n, _) => n in s.links && Handler(site, s.links[n]).Read?
    case Update(n, _, _) => n in s.links && Serving(site, s.links[n])
  }

  function Next(site: Site, s: State, e: Event): State
    requires Can(site, s, e)
  {
    match e
    case Open(n, challenge) => s.(links := s.links[n := Link(challenge, [])])
    case Hear(n, line) => s.(links := s.links[n := s.links[n].(heard := s.links[n].heard + [line])])
    case Update(n, mi, now) =>
      if Takes(site.table, Authed(site, s.links[n]), mi)
      then s.(log := s.log + [mi.(lastSeen := now)], via := s.via + [n])
      else s
  }

  /** An update is appended exactly if it carries the registered id and cluster, the id is not empty and the cluster is allowed. */
  lemma UpdateEffect(site: Site, s: State, n: nat, mi: Master, now: int, hello: AuthHello)
    requires n in s.links
    requires After(OrchServer(site.c, site.whitelist, s.links[n].challenge), s.links[n].heard) == Done(Registered(hello))
    ensures Can(site, s, Update(n, mi, now))
    ensures var stored := && mi.id != "" && mi.id == hello.id && mi.cluster == hello.cluster
                          && (|| site.table == None || site.table == Some({})
                              || (mi.cluster != "" && mi.cluster in site.table.value));
      Next(site, s, Update(n, mi, now)) ==
      State(s.links, s.log + if stored then [mi.(lastSeen := now)] else [], s.via + if stored then [n] else [])
  {
    hide After, OrchServer;
  }

  ghost predicate Run(site: Site, events: seq<Event>, states: seq<State>) {
    && |states| == |events| + 1
    && states[0] == INIT
    && forall i :: 0 <= i < |events| ==> Can(site, states[i], events[i]) && states[i + 1] == Next(site, states[i], events[i])
  }

  /** The entry came over a registered connection and carries its identity. */
  ghost predicate Vouched(site: Site, s: State, k: nat)
    requires k < |s.log| == |s.via|
  {
    && s.via[k] in s.links && Serving(site, s.links[s.via[k]])
    && Takes(site.table, Authed(site, s.links[s.via[k]]), s.log[k])
  }

  ghost predicate Inv(site: Site, s: State) {
    |s.log| == |s.via| && forall k :: 0 <= k < |s.log| ==> Vouched(site, s, k)
  }

  lemma StepKeeps(site: Site, s: State, e: Event)
    requires Inv(site, s) && Can(site, s, e)
    ensures Inv(site, Next(site, s, e))
  {
    hide After, OrchServer, TablePermits;
    var t := Next(site, s, e);
    forall k | 0 <= k < |t.log| ensures Vouched(site, t, k) {
      assert k < |s.log| ==> Vouched(site, s, k);
    }
  }

  lemma {:induction false} RunKeeps(site: Site, events: seq<Event>, states: seq<State>, i: nat)
    requires Run(site, events, states) && i < |states|
    ensures Inv(site, states[i])
  {
    if i != 0 {
      RunKeeps(site, events, states, i - 1);
      StepKeeps(site, states[i - 1], events[i - 1]);
    }
  }

  /** The connection carried a signature over its own challenge that verifies under a key whose id this is. */
  ghost predicate KeyProved(c: Crypto, link: Link, id: string) {
    && |link.heard| >= 3
    && exists pub: Bytes, sig: Bytes, signature: string ::
         && Proof(link.heard[2], signature) && c.decode(TrimSpace(signature)) == Some(sig)
         && |pub| == 32 && c.verify(pub, link.challenge, sig) && TrimSpace(id) == c.encode(c.hash(pub))
  }

  /**
   * Every record a store holds after any run is keyed by its own id, admitted by the whitelist for its cluster, of an
   * allowed cluster, and came over a connection that proved a key whose id it is.
   */
  lemma RecordsProven(site: Site, events: seq<Event>, states: seq<State>, i: nat, store: Store, id: string)
    requires Run(site, events, states) && i < |states|
    requires store.Valid() && store.log == states[i].log && id in store.mastersByID
    ensures var m := store.mastersByID[id];
      && m.id == id && id != ""
      && Whitelisted(site.whitelist, m.cluster, id)
      && TablePermits(site.table, m.cluster)
      && |states[i].log| == |states[i].via|
      && exists k :: 0 <= k < |states[i].log| && states[i].log[k] == m && states[i].via[k] in states[i].links
           && KeyProved(site.c, states[i].links[states[i].via[k]], id)
  {
    hide After, OrchServer, TablePermits, Whitelisted, TrimSpace;
    RunKeeps(site, events, states, i);
    var s, m := states[i], store.mastersByID[id];
    assert Latest(store.log, id) == Some(m);
    LatestHasId(store.log, id);
    var k :| 0 <= k < |s.log| && s.log[k] == m;
    assert Vouched(site, s, k);
    var link := s.links[s.via[k]];
    OrchRegistersIff(site.c, site.whitelist, link.challenge, link.heard, Authed(site, link));
    assert KeyProved(site.c, link, id);
  }
}

/** The list of virtual machines: gathered by each master from its nodes, and by the page from the masters. */
module VmList {
  import opened Registry
  import opened Sequences
  import opened Text
  import opened Wrappers

  type Id = string

  /** A domain is its JSON text. */
  datatype VmNode = VmNode(nodeID: Id, domains: seq<string>, error: string)

  /** The reply to a command, with what its output decodes to; None is an output of another shape. */
  datatype Reply<+T> = Reply(status: string, message: string, output: Option<T>)

  /** What asking a peer comes to. */
  datatype Answer<+T> = Failed(error: string) | OtherType | BadPayload | Answered(reply: Reply<T>)

  // ----- on a master -----

  function Entry(id: Id, a: Answer<seq<string>>): VmNode {
    match a
    case Failed(error) => VmNode(id, [], error)
    case OtherType => VmNode(id, [], "unexpected reply type")
    case BadPayload => VmNode(id, [], "invalid reply payload")
    case Answered(r) =>
      if r.status != "ok" then VmNode(id, [], r.message)
      else if r.output == None then VmNode(id, [], "invalid domain list")
      else VmNode(id, r.output.value, "")
  }

  function EntryOf(answer: Id -> Answer<seq<string>>): Id -> seq<VmNode> {
    (id: Id) => if Blank(id) then [] else [Entry(id, answer(id))]
  }

  function Gathered(snapshot: seq<Id>, answer: Id -> Answer<seq<string>>): seq<VmNode> {
    FlatMap(snapshot, EntryOf(answer))
  }

  /** `snapshot` is what listConnectedNodeIDs gave, and `action` the decoded command, None if it does not decode. */
  method HandleMasterCommand(action: Option<string>, snapshot: seq<Id>, answer: Id -> Answer<seq<string>>)
      returns (r: Reply<seq<VmNode>>)
    ensures r == if action == None then Reply("error", "invalid command", None)
                 else if action == Some("libvirt.domains.list") then Reply("ok", "", Some(Gathered(snapshot, answer)))
                 else Reply("error", "node id required", None)
  {
    if action == None {
      return Reply("error", "invalid command", None);
    }
    if action.value != "libvirt.domains.list" {
      return Reply("error", "node id required", None);
    }
    var results: seq<VmNode> := [];
    for i := 0 to |snapshot|
      invariant results == Gathered(snapshot[..i], answer)
    {
      var nodeID := snapshot[i];
      assert snapshot[..i + 1] == snapshot[..i] + [nodeID];
      FlatMapAppend(snapshot[..i], nodeID, EntryOf(answer));
      if TrimSpace(nodeID) == "" {
        continue;
      }
      match answer(nodeID) {
        case Failed(error) =>
          results := results + [VmNode(nodeID, [], error)];
        case OtherType =>
          results := results + [VmNode(nodeID, [], "unexpected reply type")];
        case BadPayload =>
          results := results + [VmNode(nodeID, [], "invalid reply payload")];
        case Answered(reply) =>
          if reply.status != "ok" {
            results := results + [VmNode(nodeID, [], reply.message)];
            continue;
          }
          if reply.output == None {
            results := results + [VmNode(nodeID, [], "invalid domain list")];
            continue;
          }
          results := results + [VmNode(nodeID, reply.output.value, "")];
      }
    }
    assert snapshot[..|snapshot|] == snapshot;
    return Reply("ok", "", Some(results));
  }

  function IdOf(n: VmNode): seq<Id> { [n.nodeID] }

  function IdsGathered(snapshot: seq<Id>, answer: Id -> Answer<seq<string>>): seq<Id> {
    FlatMap(Gathered(snapshot, answer), IdOf)
  }

  lemma IdsFirst(snapshot: seq<Id>, answer: Id -> Answer<seq<string>>)
    requires snapshot != []
    ensures IdsGathered(snapshot, answer) ==
            (if Blank(snapshot[0]) then [] else [snapshot[0]]) + IdsGathered(snapshot[1..], answer)
  {
    hide *;
    GatheredFirst(snapshot, answer);
    FlatMapConcat(EntryOf(answer)(snapshot[0]), Gathered(snapshot[1..], answer), IdOf);
    IdsOfPart(snapshot[0], answer);
    IdsAre(snapshot, answer);
    IdsAre(snapshot[1..], answer);
  }

  lemma IdsAre(snapshot: seq<Id>, answer: Id -> Answer<seq<string>>)
    ensures IdsGathered(snapshot, answer) == FlatMap(Gathered(snapshot, answer), IdOf)
  {
  }

  /** Whatever the nodes answer, there is an entry for each non-blank node as often as it is connected, and no other. */
  lemma {:induction false} EntryPerNode(snapshot: seq<Id>, answer: Id -> Answer<seq<string>>, id: Id)
    ensures multiset(IdsGathered(snapshot, answer))[id] == if Blank(id) then 0 else multiset(snapshot)[id]
  {
    if snapshot != [] {
      hide *;
      EntryPerNode(snapshot[1..], answer, id);
      IdsFirst(snapshot, answer);
      CountFirst(snapshot, id);
      if !Blank(snapshot[0]) {
        CountFirst([snapshot[0]] + IdsGathered(snapshot[1..], answer), id);
      }
    }
  }

  lemma CountFirst(xs: seq<Id>, id: Id)
    requires xs != []
    ensures multiset(xs)[id] == (if xs[0] == id then 1 else 0) + multiset(xs[1..])[id]
  {
    assert xs == [xs[0]] + xs[1..];
  }

  lemma GatheredFirst(snapshot: seq<Id>, answer: Id -> Answer<seq<string>>)
    requires snapshot != []
    ensures Gathered(snapshot, answer) == EntryOf(answer)(snapshot[0]) + Gathered(snapshot[1..], answer)
  {
  }

  /** Each entry says what its own node answered. */
  lemma {:induction false} EntriesOwn(snapshot: seq<Id>, answer: Id -> Answer<seq<string>>)
    ensures forall n :: n in Gathered(snapshot, answer) ==> n == Entry(n.nodeID, answer(n.nodeID))
  {
    if snapshot != [] {
      hide Blank, Entry, FlatMap;
      EntriesOwn(snapshot[1..], answer);
      GatheredFirst(snapshot, answer);
      EntryId(snapshot[0], answer(snapshot[0]));
    }
  }

  lemma IdsOfPart(id: Id, answer: Id -> Answer<seq<string>>)
    ensures FlatMap(EntryOf(answer)(id), IdOf) == if Blank(id) then [] else [id]
  {
    EntryId(id, answer(id));
    if !Blank(id) {
      assert FlatMap([Entry(id, answer(id))], IdOf) == [id] + FlatMap([], IdOf);
    }
  }

  lemma EntryId(id: Id, a: Answer<seq<string>>)
    ensures Entry(id, a).nodeID == id
  {
  }

  /** What an entry shows: the domains of a node that answered ok with a list, or else none and the failure's own message. */
  lemma {:induction false} EntriesSay(snapshot: seq<Id>, answer: Id -> Answer<seq<string>>)
    ensures forall n :: n in Gathered(snapshot, answer) ==>
      var a := answer(n.nodeID);
      && (a.Answered? && a.reply.status == "ok" && a.reply.output.Some? ==> n.domains == a.reply.output.value && n.error == "")
      && (!(a.Answered? && a.reply.status == "ok" && a.reply.output.Some?) ==> n.domains == [])
      && (a.Answered? && a.reply.status == "ok" && a.reply.output == None ==> n.error == "invalid domain list")
      && (a.Answered? && a.reply.status != "ok" ==> n.error == a.reply.message)
      && (a.Failed? ==> n.error == a.error)
      && (a.OtherType? ==> n.error == "unexpected reply type")
      && (a.BadPayload? ==> n.error == "invalid reply payload")
  {
    EntriesOwn(snapshot, answer);
  }

  function DomainsOf(n: VmNode): seq<string> { n.domains }

  /** The domains of a node if it is asked and answers ok. */
  function OkDomains(answer: Id -> Answer<seq<string>>): Id -> seq<string> {
    (id: Id) =>
      var a := answer(id);
      if !Blank(id) && a.Answered? && a.reply.status == "ok" && a.reply.output.Some? then a.reply.output.value else []
  }

  /** The list has the domains of the nodes that answered ok, all of them, in order, and no others. */
  lemma {:induction false} DomainsKept(snapshot: seq<Id>, answer: Id -> Answer<seq<string>>)
    ensures FlatMap(Gathered(snapshot, answer), DomainsOf) == FlatMap(snapshot, OkDomains(answer))
  {
    if snapshot != [] {
      DomainsKept(snapshot[1..], answer);
      hide Gathered, Blank;
      GatheredFirst(snapshot, answer);
      FlatMapConcat(EntryOf(answer)(snapshot[0]), Gathered(snapshot[1..], answer), DomainsOf);
    } else {
      assert Gathered(snapshot, answer) == [];
    }
  }

  /** The entries come in the order of the snapshot. */
  lemma {:induction false} InSnapshotOrder(before: seq<Id>, id: Id, after: seq<Id>, answer: Id -> Answer<seq<string>>)
    requires !Blank(id)
    ensures Gathered(before + [id] + after, answer) ==
            Gathered(before, answer) + [Entry(id, answer(id))] + Gathered(after, answer)
  {
    hide Blank, Entry;
    if before == [] {
      assert before + [id] + after == [id] + after;
      assert ([id] + after)[1..] == after;
    } else {
      assert (before + [id] + after)[1..] == before[1..] + [id] + after;
      InSnapshotOrder(before[1..], id, after, answer);
    }
  }

  // ----- on the page -----

  /** What one master contributes. */
  function PartOf(answer: Id -> Answer<seq<VmNode>>): Master -> seq<VmNode> {
    (m: Master) =>
      if m.id == "" then []
      else match answer(m.id)
        case Answered(r) =>
          if r.status != "ok" then [VmNode(m.id, [], r.message)]
          else if r.output == None then [VmNode(m.id, [], "invalid domain list")]
          else r.output.value
        case Failed(error) => [VmNode(m.id, [], error)]
        case OtherType => [VmNode(m.id, [], "unexpected reply type")]
        case BadPayload => [VmNode(m.id, [], "invalid reply payload")]
  }

  /** What a master with an id contributes: its list if it answered ok with one, or else one entry with the failure's message. */
  lemma PartSays(m: Master, answer: Id -> Answer<seq<VmNode>>)
    ensures var a, part := answer(m.id), PartOf(answer)(m);
      && (m.id == "" ==> part == [])
      && (m.id != "" ==>
           && (a.Answered? && a.reply.status == "ok" && a.reply.output.Some? ==> part == a.reply.output.value)
           && (a.Answered? && a.reply.status == "ok" && a.reply.output == None ==>
                part == [VmNode(m.id, [], "invalid domain list")])
           && (a.Answered? && a.reply.status != "ok" ==> part == [VmNode(m.id, [], a.reply.message)])
           && (a.Failed? ==> part == [VmNode(m.id, [], a.error)])
           && (a.OtherType? ==> part == [VmNode(m.id, [], "unexpected reply type")])
           && (a.BadPayload? ==> part == [VmNode(m.id, [], "invalid reply payload")]))
  {
  }

  method FetchVMDomains(store: Store?, cluster: string, now: int, answer: Id -> Answer<seq<VmNode>>)
      returns (results: seq<VmNode>)
    requires store != null ==> store.Valid()
    ensures store == null ==> results == []
    ensures store != null ==> forall ms: seq<Master> ::
      multiset(ms) == multiset(LiveIn(store.log, store.ttl, now, cluster)) ==>
      multiset(results) == multiset(FlatMap(ms, PartOf(answer)))
  {
    results := [];
    if store == null {
      return;
    }
    var masters: seq<Master> := [];
    if cluster != "" {
      masters := store.MastersForCluster(cluster, now);
    }
    for i := 0 to |masters|
      invariant results == FlatMap(masters[..i], PartOf(answer))
    {
      var master := masters[i];
      assert masters[..i + 1] == masters[..i] + [master];
      FlatMapAppend(masters[..i], master, PartOf(answer));
      if master.id == "" {
        continue;
      }
      match answer(master.id) {
        case Failed(error) =>
          results := results + [VmNode(master.id, [], error)];
        case OtherType =>
          results := results + [VmNode(master.id, [], "unexpected reply type")];
        case BadPayload =>
          results := results + [VmNode(master.id, [], "invalid reply payload")];
        case Answered(reply) =>
          if reply.status != "ok" {
            results := results + [VmNode(master.id, [], reply.message)];
            continue;
          }
          if reply.output == None {
            results := results + [VmNode(master.id, [], "invalid domain list")];
            continue;
          }
          results := results + reply.output.value;
      }
    }
    assert masters[..|masters|] == masters;
    assert cluster == "" ==> LiveIn(store.log, store.ttl, now, cluster) == {};
    forall ms: seq<Master> | multiset(ms) == multiset(LiveIn(store.log, store.ttl, now, cluster))
      ensures multiset(results) == multiset(FlatMap(ms, PartOf(answer)))
    {
      FlatMapPermute(ms, masters, PartOf(answer));
    }
  }

  /** When every master answers, the page has an entry for each node as often as a live master is connected to it. */
  lemma {:induction false} PageComplete(ms: seq<Master>, answer: Id -> Answer<seq<VmNode>>, snapshot: Id -> seq<Id>,
                                        node: Id -> (Id -> Answer<seq<string>>), id: Id)
    requires forall m :: m in ms ==>
      m.id != "" && answer(m.id) == Answered(Reply("ok", "", Some(Gathered(snapshot(m.id), node(m.id)))))
    ensures multiset(FlatMap(FlatMap(ms, PartOf(answer)), IdOf))[id] ==
            if Blank(id) then 0 else Connections(ms, snapshot, id)
  {
    if ms != [] {
      hide Blank, Gathered;
      PageComplete(ms[1..], answer, snapshot, node, id);
      EntryPerNode(snapshot(ms[0].id), node(ms[0].id), id);
      IdsAre(snapshot(ms[0].id), node(ms[0].id));
      FlatMapConcat(Gathered(snapshot(ms[0].id), node(ms[0].id)), FlatMap(ms[1..], PartOf(answer)), IdOf);
    }
  }

  /** The page then has the domains of all nodes that answered ok to the masters that did, and no others. */
  lemma {:induction false} PageDomains(ms: seq<Master>, answer: Id -> Answer<seq<VmNode>>, snapshot: Id -> seq<Id>,
                                       node: Id -> (Id -> Answer<seq<string>>))
    requires forall m :: m in ms ==>
      m.id != "" && answer(m.id) == Answered(Reply("ok", "", Some(Gathered(snapshot(m.id), node(m.id)))))
    ensures FlatMap(FlatMap(ms, PartOf(answer)), DomainsOf) == FlatMap(ms, NodeDomains(snapshot, node))
  {
    if ms != [] {
      hide Blank, Gathered;
      PageDomains(ms[1..], answer, snapshot, node);
      DomainsKept(snapshot(ms[0].id), node(ms[0].id));
      FlatMapConcat(Gathered(snapshot(ms[0].id), node(ms[0].id)), FlatMap(ms[1..], PartOf(answer)), DomainsOf);
    }
  }

  function NodeDomains(snapshot: Id -> seq<Id>, node: Id -> (Id -> Answer<seq<string>>)): Master -> seq<string> {
    (m: Master) => FlatMap(snapshot(m.id), OkDomains(node(m.id)))
  }

  /** How often the masters together list the node. */
  function Connections(ms: seq<Master>, snapshot: Id -> seq<Id>, id: Id): nat {
    if ms == [] then 0 else multiset(snapshot(ms[0].id))[id] + Connections(ms[1..], snapshot, id)
  }
}

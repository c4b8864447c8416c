/** Choosing the master that a command for a cluster goes through. */
module Targeting {
  import opened Registry
  import opened Sequences
  import opened Text
  import opened Wrappers

  datatype Scope = AnyMaster | MasterByNode | OtherScope

  datatype Attempt = Attempt(masterID: string, nodeID: string, command: string)

  /** The reply is the one that came back through `masterID`. */
  datatype Result = Replied(masterID: string, reply: string) | Error(message: string)

  /** What a sendRequest comes to: a failed write or a timeout, or a packet with what its payload decodes to as a reply. */
  datatype Response = NoResponse(error: string) | Response(kind: string, replyTo: string, payload: Option<string>)

  const REPLY_KIND := "orchestrator.command.reply"

  /** The connected masters, and what a request to one of them comes to. */
  class Sender {
    const connected: set<string>
    const respond: (Attempt, string) -> Response
    var attempts: seq<Attempt>

    constructor (connected: set<string>, respond: (Attempt, string) -> Response)
      ensures this.connected == connected && this.respond == respond && attempts == []
    {
      this.connected, this.respond := connected, respond;
      attempts := [];
    }

    /** The packet `id` was answered by a readable reply to it. */
    predicate Answered(a: Attempt, id: string) {
      var r := respond(a, id);
      r.Response? && r.kind == REPLY_KIND && r.replyTo == id && r.payload.Some?
    }

    /** The result, with the message of each error. */
    function Outcome(a: Attempt, id: string): Result {
      var r := respond(a, id);
      if a.masterID == "" then Error("master id is empty")
      else if a.masterID !in connected then Error("master not connected")
      else if r.NoResponse? then Error(r.error)
      else if r.kind != REPLY_KIND then Error("unexpected reply type")
      else if r.replyTo != id then Error("reply id mismatch")
      else if r.payload == None then Error("invalid reply payload")
      else Replied(a.masterID, r.payload.value)
    }

    /**
     * One send, and only through a connected master. The result is a reply exactly if a readable reply to this very packet
     * came back, and then it is that one.
     */
    method SendCommandWait(a: Attempt, id: string) returns (r: Result)
      modifies this
      ensures attempts == if a.masterID in connected && a.masterID != "" then old(attempts) + [a] else old(attempts)
      ensures r == Outcome(a, id)
      ensures r.Replied? <==> a.masterID in connected && a.masterID != "" && Answered(a, id)
      ensures r.Replied? ==> r == Replied(a.masterID, respond(a, id).payload.value)
    {
      if a.masterID == "" {
        return Error("master id is empty");
      }
      if a.masterID !in connected {
        return Error("master not connected");
      }
      attempts := attempts + [a];
      var resp := respond(a, id);
      if resp.NoResponse? {
        return Error(resp.error);
      }
      if resp.kind != REPLY_KIND {
        return Error("unexpected reply type");
      }
      if resp.replyTo != id {
        return Error("reply id mismatch");
      }
      if resp.payload == None {
        return Error("invalid reply payload");
      }
      return Replied(a.masterID, resp.payload.value);
    }
  }

  /** The masters that may carry a command. */
  ghost function Eligible(live: set<Master>, scope: Scope, node: string): set<Master> {
    set m | m in live && m.id != "" && !scope.OtherScope? && (scope.MasterByNode? ==> HasNode(m, node))
  }

  /** They are the shown masters of the cluster with an id that, when the command is for a node, have that node. */
  lemma MayCarry(store: Store, now: int, cluster: string, scope: Scope, node: string, m: Master)
    requires store.Valid()
    ensures m in Eligible(LiveIn(store.log, store.ttl, now, cluster), scope, node) <==>
            && store.Shows(m, cluster, now) && m.id != ""
            && (scope == AnyMaster || (scope == MasterByNode && node != "" && exists n :: n in m.nodes && n.id == node))
  {
    store.LiveShows(cluster, now);
  }

  /**
   * Sends at most once. With an eligible master the command goes to one of them, and its outcome is the result; with none,
   * nothing is sent and the result is an error.
   */
  method SendClusterCommandWait(sender: Sender, store: Store?, clusterID: string, nodeID: string, scope: Scope,
                                command: string, id: string, now: int)
      returns (r: Result)
    requires store != null ==> store.Valid()
    modifies sender
    ensures store == null || TrimSpace(clusterID) == "" ==> r.Error? && sender.attempts == old(sender.attempts)
    ensures store != null && TrimSpace(clusterID) != "" ==>
      var node := TrimSpace(nodeID);
      var masters := Eligible(LiveIn(store.log, store.ttl, now, TrimSpace(clusterID)), scope, node);
      if masters == {} then
        r.Error? && sender.attempts == old(sender.attempts)
      else
        exists m :: m in masters
          && var a := Attempt(m.id, node, command);
          && sender.attempts == (if m.id in sender.connected then old(sender.attempts) + [a] else old(sender.attempts))
          && r == sender.Outcome(a, id)
          && (r.Replied? <==> m.id in sender.connected && sender.Answered(a, id))
          && (r.Replied? ==> r == Replied(m.id, sender.respond(a, id).payload.value))
  {
    if store == null {
      return Error("nil store");
    }
    var cluster := TrimSpace(clusterID);
    var node := TrimSpace(nodeID);
    if cluster == "" {
      return Error("cluster id is empty");
    }
    var masters := store.MastersForCluster(cluster, now);
    ghost var live := LiveIn(store.log, store.ttl, now, cluster);
    ListOfSet(masters, live);
    hide LiveIn, HasNode;
    if |masters| == 0 {
      return Error("master not connected");
    }
    for i := 0 to |masters|
      invariant sender.attempts == old(sender.attempts)
      invariant forall k :: 0 <= k < i ==> masters[k] !in Eligible(live, scope, node)
    {
      var master := masters[i];
      if master.id == "" {
        continue;
      }
      match scope {
        case MasterByNode =>
          if node == "" {
            continue;
          }
          var has := MasterHasNode(master, node);
          if !has {
            continue;
          }
        case AnyMaster =>
        case OtherScope =>
          return Error("unknown target scope");
      }
      assert master in live && master in Eligible(live, scope, node);
      var reply := sender.SendCommandWait(Attempt(master.id, node, command), id);
      if reply.Error? {
        return reply;
      }
      return Replied(master.id, reply.reply);
    }
    if scope.MasterByNode? {
      return Error("node not connected through any master");
    }
    return Error("no eligible master connected");
  }
}

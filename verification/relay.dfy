/** The three-tier command relay: orchestrator, masters and slaves with any number of connections, in every interleaving. */
module Relay {
  import opened Messages
  import opened Correlation
  import opened T = Tier

  /** A command handler that ran on a slave for the packet `nid`. */
  datatype Exec = Exec(nid: Id, node: Id, command: string, ok: bool, text: string)

  /** The master's sequential read loop on one orchestrator connection. `target` is empty for a command to the master itself. */
  datatype Loop =
    | Reading
    | Serving(oid: Id, target: Id, command: string, todo: seq<Id>)
    | Awaiting(oid: Id, target: Id, command: string, todo: seq<Id>, nl: nat, nid: Id)
    | Answering(oid: Id, target: Id, reply: Body)

  /** The slave's sequential loop: a reply that is not yet written blocks the next read. */
  datatype Slave = Listening | Replying(reply: Msg)

  datatype State = State(
    orch: Tier,               // orchestrator to masters
    node: Tier,               // masters to slaves
    loops: map<nat, Loop>,    // by orchestrator connection
    slaves: map<nat, Slave>,  // by slave connection
    names: map<nat, Id>,      // the node id a slave connection is registered under
    log: seq<Exec>
  )

  const INIT := State(Tier(OrchestratorSide, map[], map[]), Tier(NodeSide, map[], map[]), map[], map[], map[], [])

  /** Steps of the upper tier alone. */
  datatype UpperAction =
    | Send(l: nat, id: Id, target: Id, command: string)  // sendRequest up to the write
    | SendNoWait(l: nat, target: Id, command: string)    // SendCommand
    | WriteOrch(l: nat, id: Id) | HopOrch(l: nat, e: Event) | ReadOrch(l: nat)
    | ChatDown(l: nat) | ChatUp(l: nat)                  // registrations, heartbeats, auth.ok and error packets
    | LoseOrch(l: nat, d: nat, u: nat)

  /** Steps of the lower tier alone. */
  datatype LowerAction =
    | Beat(nl: nat, nid: Id)                             // the master's own heartbeat request to a slave
    | WriteNode(l: nat, id: Id) | HopNode(l: nat, e: Event) | ReadNode(l: nat)
    | LoseNode(l: nat, d: nat, u: nat)

  datatype Action =
    | Upper(upper: UpperAction) | Lower(lower: LowerAction)
    | Connect(l: nat) | ConnectNode(l: nat, name: Id)
    | TakeCommand(l: nat, snapshot: seq<Id>)             // the master reads a line
    | NoNode(l: nat) | Forward(l: nat, nl: nat, nid: Id) | Collect(l: nat)
    | Aggregate(l: nat, ok: bool, text: string) | Drop(l: nat) | Answer(l: nat)
    | SlaveTake(nl: nat, runs: bool, ok: bool, text: string) | SlaveReply(nl: nat)

  function ReplyFor(target: Id, outcome: Outcome): Body {
    if outcome.Replied? && outcome.reply.body.NodeReply?
    then OrchReply(target, outcome.reply.body.ok, outcome.reply.body.text)
    else OrchReply(target, false, "error")
  }

  predicate Distinct(ids: seq<Id>) { forall i, j :: 0 <= i < j < |ids| ==> ids[i] != ids[j] }

  predicate CanUpper(t: Tier, a: UpperAction) {
    match a
    case Send(l, id, _, _) => CanBegin(t, l, id)
    case SendNoWait(l, _, _) => l in t.links
    case WriteOrch(l, id) => CanWrite(t, l, id)
    case HopOrch(l, e) => CanHop(t, l, e)
    case ReadOrch(l) => CanPopUp(t, l)
    case ChatDown(l) => l in t.links
    case ChatUp(l) => l in t.links
    case LoseOrch(l, d, u) => l in t.links && d <= |t.links[l].down| && u <= |t.links[l].up|
  }

  function UpperNext(t: Tier, a: UpperAction): Tier
    requires CanUpper(t, a)
  {
    match a
    case Send(l, id, target, command) => BeginReq(t, l, id, Req(l, OrchCommand(target, command), "", target, Pending))
    case SendNoWait(l, target, command) => PushDown(t, l, Msg("", "", OrchCommand(target, command)))
    case WriteOrch(l, id) => Write(t, l, id)
    case HopOrch(l, e) => HopStep(t, l, e)
    case ReadOrch(l) => PopUp(t, l)
    case ChatDown(l) => PushDown(t, l, Msg("", "", Other))
    case ChatUp(l) => PushUp(t, l, Msg("", "", Other))
    case LoseOrch(l, d, u) => Lose(t, l, d, u)
  }

  predicate CanLower(t: Tier, names: map<nat, Id>, a: LowerAction) {
    match a
    case Beat(nl, nid) => CanBegin(t, nl, nid) && nl in names
    case WriteNode(l, id) => CanWrite(t, l, id)
    case HopNode(l, e) => CanHop(t, l, e)
    case ReadNode(l) => CanPopUp(t, l)
    case LoseNode(l, d, u) => l in t.links && d <= |t.links[l].down| && u <= |t.links[l].up|
  }

  function LowerNext(t: Tier, names: map<nat, Id>, a: LowerAction): Tier
    requires CanLower(t, names, a)
  {
    match a
    case Beat(nl, nid) => BeginReq(t, nl, nid, Req(nl, Heartbeat, "", names[nl], Pending))
    case WriteNode(l, id) => Write(t, l, id)
    case HopNode(l, e) => HopStep(t, l, e)
    case ReadNode(l) => PopUp(t, l)
    case LoseNode(l, d, u) => Lose(t, l, d, u)
  }

  ghost predicate Can(s: State, a: Action) {
    match a
    case Upper(u) => CanUpper(s.orch, u)
    case Lower(n) => CanLower(s.node, s.names, n)
    case Connect(l) => l !in s.orch.links && l !in s.loops && forall id :: id in s.orch.reqs ==> s.orch.reqs[id].link != l
    case ConnectNode(l, _) => l !in s.node.links && l !in s.names && forall id :: id in s.node.reqs ==> s.node.reqs[id].link != l
    case TakeCommand(l, snapshot) => l in s.loops && s.loops[l].Reading? && CanPopDown(s.orch, l) && Distinct(snapshot)
    case NoNode(l) => l in s.loops && s.loops[l].Serving? && s.loops[l].todo != []
    case Forward(l, nl, nid) =>
      && l in s.loops && s.loops[l].Serving? && s.loops[l].todo != []
      && CanBegin(s.node, nl, nid) && nl in s.names && s.names[nl] == s.loops[l].todo[0]
    case Collect(l) =>
      && l in s.loops && s.loops[l].Awaiting? && s.loops[l].nl in s.node.links
      && s.loops[l].nid in s.node.links[s.loops[l].nl].hop.waiters
      && s.node.links[s.loops[l].nl].hop.waiters[s.loops[l].nid].phase.Done?
    case Aggregate(l, _, _) => l in s.loops && s.loops[l].Serving? && s.loops[l].todo == []
    case Drop(l) => l in s.loops && s.loops[l].Serving?
    case Answer(l) => l in s.loops && s.loops[l].Answering? && l in s.orch.links
    case SlaveTake(nl, _, _, _) => nl in s.slaves && s.slaves[nl].Listening? && CanPopDown(s.node, nl) && nl in s.names
    case SlaveReply(nl) => nl in s.slaves && s.slaves[nl].Replying? && nl in s.node.links
  }

  function SetLoop(s: State, l: nat, loop: Loop): State { s.(loops := s.loops[l := loop]) }

  /** What the master does with the line it read; `snapshot` lists the connected nodes for a command to the master itself. */
  function LoopAfter(m: Msg, snapshot: seq<Id>): Loop {
    if !m.body.OrchCommand? || m.body.command == "" then Reading
    else Serving(m.id, m.body.node, m.body.command, if m.body.node == "" then snapshot else [m.body.node])
  }

  function CollectInto(loop: Loop, outcome: Outcome): Loop
    requires loop.Awaiting?
  {
    if loop.target == "" then Serving(loop.oid, "", loop.command, loop.todo)
    else Answering(loop.oid, loop.target, ReplyFor(loop.target, outcome))
  }

  /** The slave's handler: a heartbeat is answered; a command runs unless it is invalid or unknown, and is answered either way. */
  function SlaveStep(s: State, nl: nat, m: Msg, runs: bool, ok: bool, text: string): State
    requires nl in s.names
  {
    match m.body
    case Heartbeat => s.(slaves := s.slaves[nl := Replying(Msg("", m.id, HeartbeatReply))])
    case NodeCommand(command) =>
      var r := Replying(Msg("", m.id, NodeReply(runs && ok, text)));
      var u := s.(slaves := s.slaves[nl := r]);
      if runs then u.(log := s.log + [Exec(m.id, s.names[nl], command, ok, text)]) else u
    case _ => s
  }

  ghost function Next(s: State, a: Action): State
    requires Can(s, a)
  {
    match a
    case Upper(u) => s.(orch := UpperNext(s.orch, u))
    case Lower(n) => s.(node := LowerNext(s.node, s.names, n))
    case Connect(l) => s.(orch := AddLink(s.orch, l), loops := s.loops[l := Reading])
    case ConnectNode(l, name) =>
      s.(node := AddLink(s.node, l), slaves := s.slaves[l := Listening], names := s.names[l := name])
    case TakeCommand(l, snapshot) =>
      SetLoop(s, l, LoopAfter(s.orch.links[l].down[0], snapshot)).(orch := PopDown(s.orch, l))
    case NoNode(l) =>
      var loop := s.loops[l];
      SetLoop(s, l, if loop.target == "" then Serving(loop.oid, loop.target, loop.command, loop.todo[1..])
                    else Answering(loop.oid, loop.target, OrchReply(loop.target, false, "node not connected")))
    case Forward(l, nl, nid) =>
      var loop := s.loops[l];
      SetLoop(s, l, Awaiting(loop.oid, loop.target, loop.command, loop.todo[1..], nl, nid))
        .(node := BeginReq(s.node, nl, nid, Req(nl, NodeCommand(loop.command), loop.oid, s.names[nl], Pending)))
    case Collect(l) =>
      var loop := s.loops[l];
      SetLoop(s, l, CollectInto(loop, s.node.links[loop.nl].hop.waiters[loop.nid].phase.outcome))
    case Aggregate(l, ok, text) =>
      SetLoop(s, l, Answering(s.loops[l].oid, s.loops[l].target, OrchReply("", ok, text)))
    case Drop(l) => SetLoop(s, l, Reading)
    case Answer(l) =>
      SetLoop(s, l, Reading).(orch := PushUp(s.orch, l, Msg("", s.loops[l].oid, s.loops[l].reply)))
    case SlaveTake(nl, runs, ok, text) =>
      SlaveStep(s.(node := PopDown(s.node, nl)), nl, s.node.links[nl].down[0], runs, ok, text)
    case SlaveReply(nl) =>
      s.(slaves := s.slaves[nl := Listening], node := PushUp(s.node, nl, s.slaves[nl].reply))
  }

  // ----- what every step keeps -----

  /** Some execution for packet `nid` succeeded with this output. */
  ghost predicate Ran(log: seq<Exec>, nid: Id, text: string) {
    exists i :: 0 <= i < |log| && log[i].nid == nid && log[i].ok && log[i].text == text
  }

  /** Some execution on `node`, made for the upper-tier request `oid`, succeeded with this output. */
  ghost predicate Vouched(log: seq<Exec>, nreqs: map<Id, Req>, oid: Id, node: Id, text: string) {
    exists i :: 0 <= i < |log| && log[i].ok && log[i].text == text && log[i].node == node
             && log[i].nid in nreqs && nreqs[log[i].nid].origin == oid
  }

  /** A slave's ok reply has its execution in the log. */
  ghost predicate GoodN(log: seq<Exec>, m: Msg) {
    m.body.NodeReply? && m.body.ok ==> Ran(log, m.replyTo, m.body.text)
  }

  /** A master's ok reply to a command for a node has that node's execution in the log. */
  ghost predicate GoodO(log: seq<Exec>, nreqs: map<Id, Req>, oreqs: map<Id, Req>, oid: Id, reply: Body) {
    oid != "" && reply.OrchReply? ==>
      && oid in oreqs
      && (reply.ok && oreqs[oid].node != "" ==> reply.node == oreqs[oid].node && Vouched(log, nreqs, oid, reply.node, reply.text))
  }

  ghost function NodeGood(s: State): Msg -> bool { (m: Msg) => GoodN(s.log, m) }

  ghost function OrchGood(s: State): Msg -> bool {
    (m: Msg) => GoodO(s.log, s.node.reqs, s.orch.reqs, m.replyTo, m.body)
  }

  /** The loop on connection `l` serves a request that was sent there, or one without an id. */
  ghost predicate Owns(s: State, l: nat, oid: Id, target: Id, command: string) {
    oid != "" ==>
      && oid in s.orch.reqs && s.orch.reqs[oid].link == l && s.orch.reqs[oid].stage == Taken
      && s.orch.reqs[oid].node == target && s.orch.reqs[oid].body == OrchCommand(target, command)
  }

  /** No packet went out for `oid` to any of these nodes. */
  ghost predicate Unsent(s: State, oid: Id, todo: seq<Id>) {
    oid != "" ==> forall nid :: nid in s.node.reqs && s.node.reqs[nid].origin == oid ==> s.node.reqs[nid].node !in todo
  }

  ghost predicate LoopOk(s: State, l: nat)
    requires l in s.loops
  {
    match s.loops[l]
    case Reading => true
    case Serving(oid, target, command, todo) =>
      && Owns(s, l, oid, target, command) && Distinct(todo) && Unsent(s, oid, todo)
      && (target != "" ==> todo == [target])
    case Awaiting(oid, target, command, todo, nl, nid) =>
      && Owns(s, l, oid, target, command) && Distinct(todo) && Unsent(s, oid, todo)
      && nid in s.node.reqs && s.node.reqs[nid].origin == oid && s.node.reqs[nid].link == nl
      && (target != "" ==> s.node.reqs[nid].node == target)
    case Answering(oid, target, reply) =>
      reply.OrchReply? && GoodO(s.log, s.node.reqs, s.orch.reqs, oid, reply)
  }

  ghost predicate NodeReqOk(s: State, nid: Id)
    requires nid in s.node.reqs
  {
    var r := s.node.reqs[nid];
    && r.link in s.names && r.node == s.names[r.link]
    && (r.origin != "" ==>
         && r.origin in s.orch.reqs && s.orch.reqs[r.origin].stage == Taken
         && s.orch.reqs[r.origin].body.OrchCommand? && r.body == NodeCommand(s.orch.reqs[r.origin].body.command)
         && (s.orch.reqs[r.origin].node != "" ==> r.node == s.orch.reqs[r.origin].node))
  }

  /** Each request reaches each node in at most one packet. */
  ghost predicate OnePacketPerNode(nreqs: map<Id, Req>) {
    forall a, b :: a in nreqs && b in nreqs && a != b && nreqs[a].origin == nreqs[b].origin != "" ==>
      nreqs[a].node != nreqs[b].node
  }

  ghost predicate LogOk(s: State) {
    && (forall i :: 0 <= i < |s.log| ==>
         && s.log[i].nid in s.node.reqs && s.node.reqs[s.log[i].nid].stage == Taken
         && s.node.reqs[s.log[i].nid].node == s.log[i].node && s.node.reqs[s.log[i].nid].body == NodeCommand(s.log[i].command))
    && (forall i, j :: 0 <= i < j < |s.log| ==> s.log[i].nid != s.log[j].nid)
  }

  ghost predicate Shape(s: State) {
    && s.orch.side == OrchestratorSide && s.node.side == NodeSide
    && s.loops.Keys == s.orch.links.Keys
    && s.slaves.Keys == s.names.Keys == s.node.links.Keys
    && (forall id :: id in s.orch.reqs ==>
         && s.orch.reqs[id].link in s.orch.links
         && s.orch.reqs[id].body.OrchCommand? && s.orch.reqs[id].node == s.orch.reqs[id].body.node)
  }

  ghost predicate SlavesOk(s: State) {
    forall nl :: nl in s.slaves && s.slaves[nl].Replying? ==> GoodN(s.log, s.slaves[nl].reply)
  }

  ghost predicate Inv(s: State) {
    && Shape(s)
    && T.Ok(s.orch) && AllReplies(s.orch, OrchGood(s))
    && T.Ok(s.node) && AllReplies(s.node, NodeGood(s))
    && (forall l :: l in s.loops ==> LoopOk(s, l))
    && (forall nid :: nid in s.node.reqs ==> NodeReqOk(s, nid))
    && OnePacketPerNode(s.node.reqs)
    && LogOk(s) && SlavesOk(s)
  }

  // ----- the two main results, on one state -----

  /** A request is executed at most once by each node, and one that names a node at most once in all. */
  lemma AtMostOnceHere(s: State, i: nat, j: nat)
    requires Inv(s) && i < j < |s.log|
    ensures s.log[i].nid in s.node.reqs && s.log[j].nid in s.node.reqs
    ensures var oid := s.node.reqs[s.log[i].nid].origin;
      oid != "" && oid == s.node.reqs[s.log[j].nid].origin ==>
      s.log[i].node != s.log[j].node && oid in s.orch.reqs && s.orch.reqs[oid].node == ""
  {
    var a, b := s.log[i].nid, s.log[j].nid;
    assert NodeReqOk(s, a) && NodeReqOk(s, b);
  }

  /** An ok answer to a command for a node is backed by exactly one execution: that node, those bytes, that output. */
  lemma OkReplyHere(s: State, l: nat, oid: Id, m: Msg) returns (i: nat)
    requires Inv(s) && l in s.orch.links && In(s.orch.links[l].hop, oid, Done(Replied(m)))
    requires m.body.OrchReply? && m.body.ok && oid in s.orch.reqs && s.orch.reqs[oid].node != ""
    ensures m.body.node == s.orch.reqs[oid].node && s.orch.reqs[oid].body.OrchCommand?
    ensures i < |s.log| && s.log[i].nid in s.node.reqs && s.node.reqs[s.log[i].nid].origin == oid
    ensures s.log[i] == Exec(s.log[i].nid, s.orch.reqs[oid].node, s.orch.reqs[oid].body.command, true, m.body.text)
    ensures forall j :: 0 <= j < |s.log| && j != i && s.log[j].nid in s.node.reqs ==> s.node.reqs[s.log[j].nid].origin != oid
  {
    assert T.Ok(s.orch) && AllReplies(s.orch, OrchGood(s));
    WaiterGot(s.orch, l, oid, m, OrchGood(s));
    assert GoodO(s.log, s.node.reqs, s.orch.reqs, oid, m.body) && oid != "";
    hide *;
    i := BackingExec(s, oid, m.body);
    forall j | 0 <= j < |s.log| && j != i && s.log[j].nid in s.node.reqs ensures s.node.reqs[s.log[j].nid].origin != oid {
      if i < j {
        AtMostOnceHere(s, i, j);
      } else {
        AtMostOnceHere(s, j, i);
      }
    }
  }

  /** The execution that a good ok reply rests on. */
  lemma BackingExec(s: State, oid: Id, reply: Body) returns (i: nat)
    requires Inv(s) && oid != "" && reply.OrchReply? && reply.ok && GoodO(s.log, s.node.reqs, s.orch.reqs, oid, reply)
    requires oid in s.orch.reqs && s.orch.reqs[oid].node != ""
    ensures reply.node == s.orch.reqs[oid].node && s.orch.reqs[oid].body.OrchCommand?
    ensures i < |s.log| && s.log[i].nid in s.node.reqs && s.node.reqs[s.log[i].nid].origin == oid
    ensures s.log[i] == Exec(s.log[i].nid, s.orch.reqs[oid].node, s.orch.reqs[oid].body.command, true, reply.text)
  {
    hide T.Ok, AllReplies, LoopOk, SlavesOk, OnePacketPerNode;
    i :| 0 <= i < |s.log| && s.log[i].ok && s.log[i].text == reply.text && s.log[i].node == reply.node
      && s.log[i].nid in s.node.reqs && s.node.reqs[s.log[i].nid].origin == oid;
    assert NodeReqOk(s, s.log[i].nid);
  }

  // ----- every step keeps the invariant -----

  lemma InitInv()
    ensures Inv(INIT)
  {
  }

  /** Requests are only added, and a stage only moves on. */
  ghost predicate Grows(old_: map<Id, Req>, new_: map<Id, Req>) {
    forall id :: id in old_ ==>
      && id in new_ && new_[id].(stage := Taken) == old_[id].(stage := Taken)
      && (old_[id].stage == Taken ==> new_[id].stage == Taken)
  }

  lemma LogKept(s: State, u: State)
    requires LogOk(s) && SlavesOk(s) && u.log == s.log && Grows(s.node.reqs, u.node.reqs)
    requires forall nl :: nl in u.slaves ==> u.slaves[nl] == Listening || (nl in s.slaves && u.slaves[nl] == s.slaves[nl])
    ensures LogOk(u) && SlavesOk(u)
  {
    hide GoodN;
  }

  /** Loops and packets refer to requests by what never changes about them. */
  lemma LoopsKept(s: State, u: State, l: nat)
    requires l in s.loops && LoopOk(s, l) && l in u.loops && u.loops[l] == s.loops[l]
    requires u.log == s.log && Grows(s.orch.reqs, u.orch.reqs) && Grows(s.node.reqs, u.node.reqs)
    requires forall id :: id in u.node.reqs && id !in s.node.reqs ==> u.node.reqs[id].origin == ""
    ensures LoopOk(u, l)
  {
  }

  lemma NodeReqsKept(s: State, u: State, id: Id)
    requires id in s.node.reqs && NodeReqOk(s, id)
    requires Grows(s.orch.reqs, u.orch.reqs) && Grows(s.node.reqs, u.node.reqs)
    requires forall nl :: nl in s.names ==> nl in u.names && u.names[nl] == s.names[nl]
    ensures NodeReqOk(u, id)
  {
  }

  /** A step inside the upper tier. */
  lemma OrchOnly(s: State, o: Tier)
    requires Inv(s) && T.Ok(o) && AllReplies(o, OrchGood(s))
    requires Grows(s.orch.reqs, o.reqs) && Shape(s.(orch := o))
    ensures Inv(s.(orch := o))
  {
    hide T.Ok, AllReplies, LoopOk, NodeReqOk, LogOk, SlavesOk;
    var u := s.(orch := o);
    RepliesWeaken(o, OrchGood(s), OrchGood(u));
    RepliesWeaken(s.node, NodeGood(s), NodeGood(u));
    forall l | l in u.loops ensures LoopOk(u, l) {
      LoopsKept(s, u, l);
    }
    forall nid | nid in u.node.reqs ensures NodeReqOk(u, nid) {
      NodeReqsKept(s, u, nid);
    }
    LogKept(s, u);
  }

  /** A step inside the lower tier that sends no packet for an upper-tier request. */
  lemma NodeOnly(s: State, n: Tier)
    requires Inv(s) && T.Ok(n) && AllReplies(n, NodeGood(s))
    requires Grows(s.node.reqs, n.reqs) && Shape(s.(node := n))
    requires forall id :: id in n.reqs && id !in s.node.reqs ==>
               n.reqs[id].origin == "" && n.reqs[id].link in s.names && n.reqs[id].node == s.names[n.reqs[id].link]
    ensures Inv(s.(node := n))
  {
    hide T.Ok, AllReplies, LoopOk, LogOk, SlavesOk, Vouched;
    var u := s.(node := n);
    MoreNodeReqs(s, n);
    forall l | l in u.loops ensures LoopOk(u, l) {
      LoopsKept(s, u, l);
    }
    forall nid | nid in u.node.reqs ensures NodeReqOk(u, nid) {
      if nid in s.node.reqs {
        NodeReqsKept(s, u, nid);
      }
    }
    LogKept(s, u);
  }

  lemma LoopOnly(s: State, l: nat, loop: Loop)
    requires Inv(s) && l in s.loops && LoopOk(SetLoop(s, l, loop), l)
    ensures Inv(SetLoop(s, l, loop))
  {
    hide T.Ok, AllReplies, LoopOk, NodeReqOk, LogOk, SlavesOk, OnePacketPerNode;
    var u := SetLoop(s, l, loop);
    RepliesWeaken(s.orch, OrchGood(s), OrchGood(u));
    RepliesWeaken(s.node, NodeGood(s), NodeGood(u));
    forall k | k in u.loops ensures LoopOk(u, k) {
      if k != l {
        LoopsKept(s, u, k);
      }
    }
    forall nid | nid in u.node.reqs ensures NodeReqOk(u, nid) {
      NodeReqsKept(s, u, nid);
    }
    LogKept(s, u);
  }

  lemma UpperSound(t: Tier, a: UpperAction, good: Msg -> bool)
    requires T.Ok(t) && AllReplies(t, good) && t.side == OrchestratorSide && CanUpper(t, a) && good(Msg("", "", Other))
    ensures T.Ok(UpperNext(t, a)) && AllReplies(UpperNext(t, a), good)
    ensures a.WriteOrch? ==> t.reqs[a.id].stage == Pending
  {
    hide T.Ok, AllReplies;
    match a {
      case Send(l, id, target, command) => BeginKeeps(t, l, id, Req(l, OrchCommand(target, command), "", target, Pending), good);
      case SendNoWait(l, target, command) => PushDownKeeps(t, l, Msg("", "", OrchCommand(target, command)), good);
      case WriteOrch(l, id) => WriteKeeps(t, l, id, good);
      case HopOrch(l, e) => HopStepKeeps(t, l, e, good);
      case ReadOrch(l) => PopUpKeeps(t, l, good);
      case ChatDown(l) => PushDownKeeps(t, l, Msg("", "", Other), good);
      case ChatUp(l) => PushUpKeeps(t, l, Msg("", "", Other), good);
      case LoseOrch(l, d, u) => LoseKeeps(t, l, d, u, good);
    }
  }

  lemma UpperShape(s: State, a: UpperAction)
    requires Shape(s) && CanUpper(s.orch, a) && (a.WriteOrch? ==> s.orch.reqs[a.id].stage == Pending)
    ensures Shape(s.(orch := UpperNext(s.orch, a))) && Grows(s.orch.reqs, UpperNext(s.orch, a).reqs)
  {
    hide Correlation.Can, Apply;
  }

  lemma UpperKeeps(s: State, a: UpperAction)
    requires Inv(s) && CanUpper(s.orch, a)
    ensures Inv(s.(orch := UpperNext(s.orch, a)))
  {
    assert T.Ok(s.orch) && AllReplies(s.orch, OrchGood(s)) && Shape(s) && s.orch.side == OrchestratorSide;
    assert OrchGood(s)(Msg("", "", Other));
    hide *;
    UpperSound(s.orch, a, OrchGood(s));
    UpperShape(s, a);
    OrchOnly(s, UpperNext(s.orch, a));
  }

  lemma LowerSound(t: Tier, names: map<nat, Id>, a: LowerAction, good: Msg -> bool)
    requires T.Ok(t) && AllReplies(t, good) && CanLower(t, names, a)
    ensures T.Ok(LowerNext(t, names, a)) && AllReplies(LowerNext(t, names, a), good)
    ensures a.WriteNode? ==> t.reqs[a.id].stage == Pending
  {
    hide T.Ok, AllReplies;
    match a {
      case Beat(nl, nid) => BeginKeeps(t, nl, nid, Req(nl, Heartbeat, "", names[nl], Pending), good);
      case WriteNode(l, id) => WriteKeeps(t, l, id, good);
      case HopNode(l, e) => HopStepKeeps(t, l, e, good);
      case ReadNode(l) => PopUpKeeps(t, l, good);
      case LoseNode(l, d, u) => LoseKeeps(t, l, d, u, good);
    }
  }

  lemma LowerShape(s: State, a: LowerAction)
    requires Shape(s) && CanLower(s.node, s.names, a) && (a.WriteNode? ==> s.node.reqs[a.id].stage == Pending)
    ensures var n := LowerNext(s.node, s.names, a);
      && Shape(s.(node := n)) && Grows(s.node.reqs, n.reqs)
      && forall id :: id in n.reqs && id !in s.node.reqs ==>
        n.reqs[id].origin == "" && n.reqs[id].link in s.names && n.reqs[id].node == s.names[n.reqs[id].link]
  {
    hide Correlation.Can, Apply;
  }

  lemma LowerKeeps(s: State, a: LowerAction)
    requires Inv(s) && CanLower(s.node, s.names, a)
    ensures Inv(s.(node := LowerNext(s.node, s.names, a)))
  {
    assert T.Ok(s.node) && AllReplies(s.node, NodeGood(s)) && Shape(s);
    hide *;
    LowerSound(s.node, s.names, a, NodeGood(s));
    LowerShape(s, a);
    NodeOnly(s, LowerNext(s.node, s.names, a));
  }

  lemma LoopKeeps(s: State, a: Action)
    requires Inv(s) && Can(s, a) && (a.NoNode? || a.Collect? || a.Aggregate? || a.Drop?)
    ensures Inv(Next(s, a))
  {
    hide T.Ok, AllReplies, OnePacketPerNode, LogOk, SlavesOk, NodeReqOk, Vouched;
    var l := a.l;
    assert LoopOk(s, l);
    if a.Collect? && s.loops[l].target != "" {
      CollectGood(s, l);
    }
    LoopOnly(s, l, Next(s, a).loops[l]);
  }

  /** What the master answers after waiting is backed by what the waiter got. */
  lemma CollectGood(s: State, l: nat)
    requires Inv(s) && Can(s, Collect(l)) && s.loops[l].target != ""
    ensures var loop := s.loops[l];
      GoodO(s.log, s.node.reqs, s.orch.reqs, loop.oid,
            ReplyFor(loop.target, s.node.links[loop.nl].hop.waiters[loop.nid].phase.outcome))
  {
    hide T.Ok, AllReplies;
    var loop := s.loops[l];
    assert LoopOk(s, l);
    var outcome := s.node.links[loop.nl].hop.waiters[loop.nid].phase.outcome;
    if outcome.Replied? {
      WaiterGot(s.node, loop.nl, loop.nid, outcome.reply, NodeGood(s));
    }
  }

  lemma TakeCommandKeeps(s: State, l: nat, snapshot: seq<Id>)
    requires Inv(s) && Can(s, TakeCommand(l, snapshot))
    ensures Inv(Next(s, TakeCommand(l, snapshot)))
  {
    hide T.Ok, OnePacketPerNode, LogOk, SlavesOk, AllReplies, LoopOk, NodeReqOk, LoopAfter;
    var o := PopDown(s.orch, l);
    PopDownKeeps(s.orch, l, OrchGood(s));
    OrchOnly(s, o);
    TakenLoop(s, l, snapshot);
    LoopOnly(s.(orch := o), l, LoopAfter(s.orch.links[l].down[0], snapshot));
  }

  /** A command that was just read has no packets yet. */
  lemma TakenLoop(s: State, l: nat, snapshot: seq<Id>)
    requires Inv(s) && Can(s, TakeCommand(l, snapshot)) && MsgOk(s.orch, l, s.orch.links[l].down[0])
    ensures LoopOk(SetLoop(s.(orch := PopDown(s.orch, l)), l, LoopAfter(s.orch.links[l].down[0], snapshot)), l)
  {
    hide T.Ok, AllReplies, OnePacketPerNode, LogOk, SlavesOk;
    var m := s.orch.links[l].down[0];
    forall nid | nid in s.node.reqs && m.id != "" ensures s.node.reqs[nid].origin != m.id {
      assert NodeReqOk(s, nid);
    }
  }

  lemma ForwardKeeps(s: State, l: nat, nl: nat, nid: Id)
    requires Inv(s) && Can(s, Forward(l, nl, nid))
    ensures Inv(Next(s, Forward(l, nl, nid)))
  {
    hide T.Ok, LogOk, SlavesOk, AllReplies, OnePacketPerNode, Apply;
    var loop := s.loops[l];
    assert LoopOk(s, l);
    var u := SetLoop(s, l, Reading);
    LoopOnly(s, l, Reading);
    var r := Req(nl, NodeCommand(loop.command), loop.oid, s.names[nl], Pending);
    var n := BeginReq(s.node, nl, nid, r);
    BeginKeeps(s.node, nl, nid, r, NodeGood(u));
    NewPacket(u, l, n, nid, loop.oid);
    var v := Awaiting(loop.oid, loop.target, loop.command, loop.todo[1..], nl, nid);
    assert LoopOk(SetLoop(u.(node := n), l, v), l);
    LoopOnly(u.(node := n), l, v);
    assert s.loops[l := Reading][l := v] == s.loops[l := v];
  }

  /** Sending the first packet for a request to a node, while the loop that serves it is between steps. */
  lemma NewPacket(s: State, l: nat, n: Tier, nid: Id, oid: Id)
    requires Inv(s) && T.Ok(n) && AllReplies(n, NodeGood(s)) && Shape(s.(node := n))
    requires l in s.loops && s.loops[l].Reading?
    requires nid !in s.node.reqs && nid in n.reqs && n.reqs == s.node.reqs[nid := n.reqs[nid]]
    requires n.reqs[nid].origin == oid && NodeReqOk(s.(node := n), nid)
    requires oid != "" ==> oid in s.orch.reqs && s.orch.reqs[oid].link == l && Unsent(s, oid, [n.reqs[nid].node])
    ensures Inv(s.(node := n))
  {
    hide T.Ok, AllReplies, LoopOk, NodeReqOk;
    var u := s.(node := n);
    MoreNodeReqs(s, n);
    forall k | k in u.loops ensures LoopOk(u, k) {
      assert LoopOk(s, k);
      LoopKept(s, n, k, oid);
    }
    forall id | id in u.node.reqs ensures NodeReqOk(u, id) {
      if id != nid {
        assert NodeReqOk(s, id);
        NodeReqKept(s, n, id);
      }
    }
    assert OnePacketPerNode(n.reqs);
  }

  lemma NodeReqKept(s: State, n: Tier, id: Id)
    requires id in s.node.reqs && NodeReqOk(s, id) && id in n.reqs && n.reqs[id] == s.node.reqs[id]
    ensures NodeReqOk(s.(node := n), id)
  {
  }

  /** More packets to nodes spoil no reply. */
  lemma MoreNodeReqs(s: State, n: Tier)
    requires AllReplies(s.orch, OrchGood(s)) && AllReplies(n, NodeGood(s)) && Grows(s.node.reqs, n.reqs)
    ensures AllReplies(s.orch, OrchGood(s.(node := n))) && AllReplies(n, NodeGood(s.(node := n)))
  {
    RepliesWeaken(n, NodeGood(s), NodeGood(s.(node := n)));
    RepliesWeaken(s.orch, OrchGood(s), OrchGood(s.(node := n)));
  }

  /** A loop that does not serve `oid` is not concerned by a packet for `oid`. */
  lemma LoopKept(s: State, n: Tier, k: nat, oid: Id)
    requires k in s.loops && LoopOk(s, k) && Grows(s.node.reqs, n.reqs)
    requires forall id :: id in n.reqs && id !in s.node.reqs ==> n.reqs[id].origin == oid
    requires oid != "" ==> oid in s.orch.reqs && (s.orch.reqs[oid].link == k ==> s.loops[k].Reading?)
    ensures LoopOk(s.(node := n), k)
  {
  }

  lemma AnswerKeeps(s: State, l: nat)
    requires Inv(s) && Can(s, Answer(l))
    ensures Inv(Next(s, Answer(l)))
  {
    hide T.Ok, OnePacketPerNode, LogOk, SlavesOk, AllReplies, NodeReqOk;
    assert LoopOk(s, l);
    var m := Msg("", s.loops[l].oid, s.loops[l].reply);
    PushUpKeeps(s.orch, l, m, OrchGood(s));
    OrchOnly(s, PushUp(s.orch, l, m));
    LoopOnly(s.(orch := PushUp(s.orch, l, m)), l, Reading);
  }

  lemma ConnectKeeps(s: State, a: Action)
    requires Inv(s) && Can(s, a) && (a.Connect? || a.ConnectNode?)
    ensures Inv(Next(s, a))
  {
    hide T.Ok, LogOk, SlavesOk, AllReplies, OnePacketPerNode;
    var u := Next(s, a);
    if a.Connect? {
      AddLinkKeeps(s.orch, a.l, OrchGood(s));
    } else {
      AddLinkKeeps(s.node, a.l, NodeGood(s));
    }
    RepliesWeaken(u.orch, OrchGood(s), OrchGood(u));
    RepliesWeaken(u.node, NodeGood(s), NodeGood(u));
    forall k | k in u.loops ensures LoopOk(u, k) {
      if k in s.loops {
        LoopsKept(s, u, k);
      }
    }
    forall id | id in u.node.reqs ensures NodeReqOk(u, id) {
      NodeReqsKept(s, u, id);
    }
    LogKept(s, u);
  }

  lemma SlaveReplyKeeps(s: State, nl: nat)
    requires Inv(s) && Can(s, SlaveReply(nl))
    ensures Inv(Next(s, SlaveReply(nl)))
  {
    hide T.Ok, LogOk, AllReplies, OnePacketPerNode;
    var n := PushUp(s.node, nl, s.slaves[nl].reply);
    PushUpKeeps(s.node, nl, s.slaves[nl].reply, NodeGood(s));
    NodeOnly(s, n);
    SlaveOnly(s.(node := n), nl, Listening, []);
    assert s.log + [] == s.log;
  }

  /** A slave moves on, after running a handler for a packet it just took or not. */
  lemma SlaveOnly(s: State, nl: nat, v: Slave, ran: seq<Exec>)
    requires Inv(s) && nl in s.slaves && |ran| <= 1
    requires ran != [] ==>
      && ran[0].nid in s.node.reqs && s.node.reqs[ran[0].nid].stage == Taken
      && s.node.reqs[ran[0].nid].node == ran[0].node && s.node.reqs[ran[0].nid].body == NodeCommand(ran[0].command)
      && forall i :: 0 <= i < |s.log| ==> s.log[i].nid != ran[0].nid
    requires v.Replying? ==> GoodN(s.log + ran, v.reply)
    ensures Inv(s.(slaves := s.slaves[nl := v], log := s.log + ran))
  {
    hide T.Ok, OnePacketPerNode, AllReplies, GoodN, GoodO, NodeReqOk;
    var u := s.(slaves := s.slaves[nl := v], log := s.log + ran);
    MoreLog(s, ran);
    RepliesWeaken(s.node, NodeGood(s), NodeGood(u));
    RepliesWeaken(s.orch, OrchGood(s), OrchGood(u));
    forall k | k in u.loops ensures LoopOk(u, k) {
      assert LoopOk(s, k);
    }
    forall id | id in u.node.reqs ensures NodeReqOk(u, id) {
      NodeReqsKept(s, u, id);
    }
  }

  /** A longer log backs every reply that it backed before. */
  lemma MoreLog(s: State, ran: seq<Exec>)
    ensures forall m :: GoodN(s.log, m) ==> GoodN(s.log + ran, m)
    ensures forall oid, reply ::
      GoodO(s.log, s.node.reqs, s.orch.reqs, oid, reply) ==> GoodO(s.log + ran, s.node.reqs, s.orch.reqs, oid, reply)
  {
    var log := s.log + ran;
    assert forall i :: 0 <= i < |s.log| ==> log[i] == s.log[i];
    forall nid, text | Ran(s.log, nid, text) ensures Ran(log, nid, text) {
      var i :| 0 <= i < |s.log| && s.log[i].nid == nid && s.log[i].ok && s.log[i].text == text;
      assert log[i] == s.log[i];
    }
    forall oid, node, text | Vouched(s.log, s.node.reqs, oid, node, text) ensures Vouched(log, s.node.reqs, oid, node, text) {
      var i :| 0 <= i < |s.log| && s.log[i].ok && s.log[i].text == text && s.log[i].node == node
        && s.log[i].nid in s.node.reqs && s.node.reqs[s.log[i].nid].origin == oid;
      assert log[i] == s.log[i];
    }
  }

  lemma NewToLog(s: State, nl: nat, m: Msg)
    requires LogOk(s) && MsgOk(s.node, nl, m) && s.node.side == NodeSide
    ensures forall i :: 0 <= i < |s.log| ==> s.log[i].nid != m.id
  {
  }

  /** What taking a packet off the stream leaves. */
  lemma Popped(s: State, nl: nat)
    requires Inv(s) && CanPopDown(s.node, nl)
    ensures Inv(s.(node := PopDown(s.node, nl)))
    ensures var m := s.node.links[nl].down[0];
      && MsgOk(s.node, nl, m) && m.id != ""
      && m.id in PopDown(s.node, nl).reqs && PopDown(s.node, nl).reqs[m.id] == s.node.reqs[m.id].(stage := Taken)
      && forall i :: 0 <= i < |s.log| ==> s.log[i].nid != m.id
  {
    hide T.Ok, AllReplies, OnePacketPerNode, LoopOk, LogOk, SlavesOk, NodeReqOk;
    PopDownKeeps(s.node, nl, NodeGood(s));
    NodeOnly(s, PopDown(s.node, nl));
    NewToLog(s, nl, s.node.links[nl].down[0]);
  }

  lemma SlaveTakeKeeps(s: State, nl: nat, runs: bool, ok: bool, text: string)
    requires Inv(s) && Can(s, SlaveTake(nl, runs, ok, text))
    ensures Inv(Next(s, SlaveTake(nl, runs, ok, text)))
  {
    hide T.Ok, AllReplies, OnePacketPerNode, LoopOk, LogOk, SlavesOk, Vouched, GoodO, PopDown;
    var m := s.node.links[nl].down[0];
    var u := s.(node := PopDown(s.node, nl));
    Popped(s, nl);
    assert NodeReqOk(u, m.id);
    hide Inv;
    if m.body.NodeCommand? {
      var ran := if runs then [Exec(m.id, s.names[nl], m.body.command, ok, text)] else [];
      var reply := Msg("", m.id, NodeReply(runs && ok, text));
      assert GoodN(s.log + ran, reply) by {
        if runs {
          assert (s.log + ran)[|s.log|] == ran[0];
        }
      }
      SlaveOnly(u, nl, Replying(reply), ran);
    } else if m.body.Heartbeat? {
      SlaveOnly(u, nl, Replying(Msg("", m.id, HeartbeatReply)), []);
    }
    assert s.log + [] == s.log;
  }

  // ----- runs -----

  lemma StepKeeps(s: State, a: Action)
    requires Inv(s) && Can(s, a)
    ensures Inv(Next(s, a))
  {
    hide Inv, Can, Next;
    if a.Upper? || a.Lower? {
      TierStep(s, a);
    } else {
      OtherStep(s, a);
    }
  }

  lemma TierStep(s: State, a: Action)
    requires Inv(s) && Can(s, a) && (a.Upper? || a.Lower?)
    ensures Inv(Next(s, a))
  {
    hide Inv, UpperNext, LowerNext, CanUpper, CanLower;
    if a.Upper? {
      UpperKeeps(s, a.upper);
    } else {
      LowerKeeps(s, a.lower);
    }
  }

  lemma OtherStep(s: State, a: Action)
    requires Inv(s) && Can(s, a) && !a.Upper? && !a.Lower?
    ensures Inv(Next(s, a))
  {
    hide Inv, Can, Next;
    match a
    case Connect(_) => ConnectKeeps(s, a);
    case ConnectNode(_, _) => ConnectKeeps(s, a);
    case TakeCommand(l, snapshot) => TakeCommandKeeps(s, l, snapshot);
    case Forward(l, nl, nid) => ForwardKeeps(s, l, nl, nid);
    case Answer(l) => AnswerKeeps(s, l);
    case SlaveTake(nl, runs, ok, text) => SlaveTakeKeeps(s, nl, runs, ok, text);
    case SlaveReply(nl) => SlaveReplyKeeps(s, nl);
    case NoNode(_) => LoopKeeps(s, a);
    case Collect(_) => LoopKeeps(s, a);
    case Aggregate(_, _, _) => LoopKeeps(s, a);
    case Drop(_) => LoopKeeps(s, a);
  }

  ghost predicate Run(actions: seq<Action>, states: seq<State>) {
    && |states| == |actions| + 1
    && states[0] == INIT
    && forall i :: 0 <= i < |actions| ==> Can(states[i], actions[i]) && states[i + 1] == Next(states[i], actions[i])
  }

  lemma {:induction false} RunKeeps(actions: seq<Action>, states: seq<State>, i: nat)
    requires Run(actions, states) && i < |states|
    ensures Inv(states[i])
  {
    if i == 0 {
      InitInv();
    } else {
      hide Inv, Can, Next;
      RunKeeps(actions, states, i - 1);
      StepKeeps(states[i - 1], actions[i - 1]);
    }
  }

  /**
   * In every run, no two executions on the same node, and for a command that names a node no two
   * executions at all, were made for the same request.
   */
  lemma AtMostOnce(actions: seq<Action>, states: seq<State>, n: nat, i: nat, j: nat)
    requires Run(actions, states) && n < |states| && i < j < |states[n].log|
    ensures var s := states[n];
      && s.log[i].nid in s.node.reqs && s.log[j].nid in s.node.reqs
      && var oid := s.node.reqs[s.log[i].nid].origin;
         oid != "" && oid == s.node.reqs[s.log[j].nid].origin ==>
         s.log[i].node != s.log[j].node && oid in s.orch.reqs && s.orch.reqs[oid].node == ""
  {
    hide Inv, Can, Next;
    RunKeeps(actions, states, n);
    AtMostOnceHere(states[n], i, j);
  }

  // ----- what was sent is what was asked -----

  lemma OrchGrows(s: State, a: Action)
    requires Inv(s) && Can(s, a)
    ensures Grows(s.orch.reqs, Next(s, a).orch.reqs)
  {
    hide Inv, CanUpper, UpperNext, Grows;
    if a.Upper? {
      UpperGrows(s, a.upper);
    } else {
      OtherGrows(s, a);
    }
  }

  lemma UpperGrows(s: State, a: UpperAction)
    requires Inv(s) && CanUpper(s.orch, a)
    ensures Grows(s.orch.reqs, UpperNext(s.orch, a).reqs)
  {
    assert T.Ok(s.orch) && AllReplies(s.orch, OrchGood(s)) && Shape(s) && s.orch.side == OrchestratorSide;
    assert OrchGood(s)(Msg("", "", Other));
    hide *;
    UpperSound(s.orch, a, OrchGood(s));
    UpperShape(s, a);
  }

  lemma OtherGrows(s: State, a: Action)
    requires Can(s, a) && !a.Upper?
    ensures Grows(s.orch.reqs, Next(s, a).orch.reqs)
  {
    hide CanUpper, CanLower, LowerNext, LoopAfter, CollectInto, BeginReq, CanBegin;
  }

  /** Only a call enters a request. */
  lemma NewRequest(s: State, a: Action, id: Id)
    requires Can(s, a) && id in Next(s, a).orch.reqs && id !in s.orch.reqs
    ensures a.Upper? && a.upper.Send? && a.upper.id == id
  {
    hide Correlation.Can, Apply;
  }

  lemma SendEnters(s: State, l: nat, id: Id, target: Id, command: string)
    requires Can(s, Upper(Send(l, id, target, command)))
    ensures var t := Next(s, Upper(Send(l, id, target, command)));
      id in t.orch.reqs && t.orch.reqs[id] == Req(l, OrchCommand(target, command), "", target, Pending)
  {
  }

  lemma {:induction false} Asked(actions: seq<Action>, states: seq<State>, n: nat, id: Id) returns (j: nat)
    requires Run(actions, states) && n < |states| && id in states[n].orch.reqs
    ensures j < n && actions[j].Upper? && actions[j].upper.Send? && actions[j].upper.id == id
  {
    hide Can, Next;
    if n == 0 {
      assert false;
    } else if id in states[n - 1].orch.reqs {
      j := Asked(actions, states, n - 1, id);
    } else {
      NewRequest(states[n - 1], actions[n - 1], id);
      j := n - 1;
    }
  }

  /** Ever after a call, its request names the target and the command that the caller gave. */
  lemma {:induction false} SentKept(actions: seq<Action>, states: seq<State>, j: nat, n: nat,
                                    l: nat, id: Id, target: Id, command: string)
    requires Run(actions, states) && j < n < |states| && actions[j] == Upper(Send(l, id, target, command))
    ensures id in states[n].orch.reqs
    ensures var r := states[n].orch.reqs[id];
      r.link == l && r.node == target && r.body == OrchCommand(target, command)
  {
    hide Can, Next, Inv;
    if n == j + 1 {
      SendEnters(states[j], l, id, target, command);
    } else {
      SentKept(actions, states, j, n - 1, l, id, target, command);
      RunKeeps(actions, states, n - 1);
      OrchGrows(states[n - 1], actions[n - 1]);
      assert states[n].orch.reqs[id].(stage := Taken) == states[n - 1].orch.reqs[id].(stage := Taken);
    }
  }

  /** The execution was made for the upper-tier request `oid`. */
  ghost predicate MadeFor(s: State, i: nat, oid: Id)
    requires i < |s.log|
  {
    s.log[i].nid in s.node.reqs && s.node.reqs[s.log[i].nid].origin == oid
  }

  /**
   * Whatever a call returns: what was executed for it are the bytes it was given, on the node it named, at most once; a
   * command that names no node runs at most once on each.
   */
  lemma ExecutedAsAsked(actions: seq<Action>, states: seq<State>, j: nat, n: nat,
                        l: nat, oid: Id, target: Id, command: string)
    requires Run(actions, states) && j < n < |states| && actions[j] == Upper(Send(l, oid, target, command))
    ensures var s := states[n];
      && (forall i :: 0 <= i < |s.log| && MadeFor(s, i, oid) ==>
           s.log[i].command == command && (target != "" ==> s.log[i].node == target))
      && (forall i, k :: 0 <= i < k < |s.log| && MadeFor(s, i, oid) && MadeFor(s, k, oid) ==>
           target == "" && s.log[i].node != s.log[k].node)
  {
    hide Can, Next, T.Ok, AllReplies, LoopOk, SlavesOk, OnePacketPerNode;
    var s := states[n];
    RunKeeps(actions, states, n);
    SentKept(actions, states, j, n, l, oid, target, command);
    forall i | 0 <= i < |s.log| && MadeFor(s, i, oid)
      ensures s.log[i].command == command && (target != "" ==> s.log[i].node == target)
    {
      NoBlankRequest(s, oid);
      assert NodeReqOk(s, s.log[i].nid);
    }
    forall i, k | 0 <= i < k < |s.log| && MadeFor(s, i, oid) && MadeFor(s, k, oid)
      ensures target == "" && s.log[i].node != s.log[k].node
    {
      NoBlankRequest(s, oid);
      AtMostOnceHere(s, i, k);
    }
  }

  lemma NoBlankRequest(s: State, oid: Id)
    requires Inv(s) && oid in s.orch.reqs
    ensures oid != ""
  {
    hide AllReplies, LoopOk, NodeReqOk, LogOk, SlavesOk, OnePacketPerNode, LinkOk;
  }

  /**
   * In every run, a call that returned ok is some earlier call, and if that named a node it was executed exactly once: by a
   * slave registered under that node id, with the command bytes of that call and this output.
   */
  lemma OkMeansExecutedOnce(actions: seq<Action>, states: seq<State>, n: nat, l: nat, oid: Id, m: Msg)
      returns (j: nat, i: nat)
    requires Run(actions, states) && n < |states|
    requires var s := states[n];
      && l in s.orch.links && In(s.orch.links[l].hop, oid, Done(Replied(m)))
      && m.body.OrchReply? && m.body.ok
    ensures m.replyTo == oid
    ensures j < n && actions[j].Upper? && actions[j].upper.Send? && actions[j].upper.l == l && actions[j].upper.id == oid
    ensures var s, call := states[n], actions[j].upper;
      call.target != "" ==>
        && m.body.node == call.target
        && i < |s.log| && MadeFor(s, i, oid)
        && s.log[i] == Exec(s.log[i].nid, call.target, call.command, true, m.body.text)
        && forall k :: 0 <= k < |s.log| && k != i ==> !MadeFor(s, k, oid)
  {
    hide Can, Next;
    RunKeeps(actions, states, n);
    var s := states[n];
    assert T.Ok(s.orch) && AllReplies(s.orch, OrchGood(s));
    WaiterGot(s.orch, l, oid, m, OrchGood(s));
    hide *;
    j := Asked(actions, states, n, oid);
    var call := actions[j].upper;
    SentKept(actions, states, j, n, call.l, oid, call.target, call.command);
    i := 0;
    if call.target != "" {
      i := OkReplyHere(s, l, oid, m);
    }
  }
}

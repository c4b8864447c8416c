/** The relay delivers: what a slave answers is what the caller gets, when nothing times out or breaks. */
module Delivery {
  import opened Correlation
  import opened Messages
  import opened R = Relay
  import opened T = Tier

  // ----- one leg at a time, from any state -----

  /** A slave that takes a command replies to that packet, ok exactly if a handler ran and succeeded, with its text. */
  lemma SlaveCarries(s: State, nl: nat, runs: bool, ok: bool, text: string)
    requires R.Can(s, SlaveTake(nl, runs, ok, text)) && s.node.links[nl].down[0].body.NodeCommand?
    ensures var m, t := s.node.links[nl].down[0], Next(s, SlaveTake(nl, runs, ok, text));
      && t.log == s.log + (if runs then [Exec(m.id, s.names[nl], m.body.command, ok, text)] else [])
      && R.Can(t, SlaveReply(nl))
      && Next(t, SlaveReply(nl)).node.links[nl].up
         == s.node.links[nl].up + [Msg("", m.id, NodeReply(runs && ok, text))]
  {
  }

  /** A node's answer reaches the orchestrator as it is; any other outcome of the request is reported as an error. */
  lemma MasterCarries(s: State, l: nat)
    requires R.Can(s, Collect(l)) && s.loops[l].target != "" && l in s.orch.links
    ensures var loop, t := s.loops[l], Next(s, Collect(l));
      && R.Can(t, Answer(l))
      && var up := Next(t, Answer(l)).orch.links[l].up;
      && |up| == |s.orch.links[l].up| + 1 && up[..|up| - 1] == s.orch.links[l].up
      && var last, outcome := up[|up| - 1], s.node.links[loop.nl].hop.waiters[loop.nid].phase.outcome;
      && last.replyTo == loop.oid && last.body.OrchReply? && last.body.node == loop.target
      && (outcome.Replied? && outcome.reply.body.NodeReply? ==>
           last.body.ok == outcome.reply.body.ok && last.body.text == outcome.reply.body.text)
      && (!(outcome.Replied? && outcome.reply.body.NodeReply?) ==> !last.body.ok)
  {
  }

  // ----- one call on one connection -----

  /** The table and the waiters while one call is in this phase. */
  function OneCall(id: Id, phase: Phase, open: bool, box: seq<Msg>, sends: nat, reader: Reader): Hop {
    Hop(if open then {id} else {}, map[id := Waiter(phase, box, sends)], reader)
  }

  function Fresh(id: Id, phase: Phase): Hop { OneCall(id, phase, true, [], 0, Reader.Idle) }

  function Returned(id: Id, m: Msg): Hop { OneCall(id, Done(Replied(m)), false, [], 1, Reader.Idle) }

  lemma CallSteps(side: Side, id: Id, m: Msg)
    requires id != "" && m.replyTo == id
    ensures Correlation.Can(EMPTY, Begin(id)) && Apply(side, EMPTY, Begin(id)) == Fresh(id, Registered)
    ensures Correlation.Can(Fresh(id, Registered), Wrote(id))
    ensures Apply(side, Fresh(id, Registered), Wrote(id)) == Fresh(id, Waiting)
    ensures var taken := OneCall(id, Waiting, false, [], 0, Delivering(id, m));
      var sent := OneCall(id, Waiting, false, [m], 1, Reader.Idle);
      && Correlation.Can(Fresh(id, Waiting), Take(m)) && Apply(side, Fresh(id, Waiting), Take(m)) == taken
      && Correlation.Can(taken, Deliver) && Apply(side, taken, Deliver) == sent
      && Correlation.Can(sent, Receive(id)) && Apply(side, sent, Receive(id)) == Returned(id, m)
  {
    var none: set<Id> := {};
    assert none + {id} == {id} && {id} - {id} == none;
    assert forall a: Waiter, b: Waiter {:trigger map[id := a], map[id := b]} :: map[id := a][id := b] == map[id := b];
    assert [] + [m] == [m] && [m][1..] == [];
  }

  function One(side: Side, l: nat, k: Link, reqs: map<Id, Req>): Tier { Tier(side, map[l := k], reqs) }

  /** The request leaves the caller and is read by the peer. */
  lemma Requested(side: Side, l: nat, id: Id, r: Req)
    requires id != "" && r.stage == Pending
    ensures var t0 := One(side, l, Link(EMPTY, [], []), map[]);
      var t1 := One(side, l, Link(Fresh(id, Registered), [], []), map[id := r]);
      var t2 := One(side, l, Link(Fresh(id, Waiting), [Msg(id, "", r.body)], []), map[id := r.(stage := Flying)]);
      var t3 := One(side, l, Link(Fresh(id, Waiting), [], []), map[id := r.(stage := Taken)]);
      && CanBegin(t0, l, id) && BeginReq(t0, l, id, r) == t1
      && CanWrite(t1, l, id) && Write(t1, l, id) == t2
      && CanPopDown(t2, l) && t2.links[l].down[0] == Msg(id, "", r.body) && PopDown(t2, l) == t3
  {
    CallSteps(side, id, Msg("", id, Other));
    var m := Msg(id, "", r.body);
    assert [] + [m] == [m] && [m][1..] == [];
    OneUpdate<nat, Link>(l);
    OneUpdate<Id, Req>(id);
    hide Correlation.Can, Apply, OneCall;
    RegisteredAt(id);
  }

  lemma RegisteredAt(id: Id)
    ensures EMPTY.waiters == map[]
  {
  }

  lemma OneUpdate<K, V(!new)>(k: K)
    ensures forall a: V, b: V {:trigger map[k := a][k := b]} :: map[k := a][k := b] == map[k := b]
  {
    forall a: V, b: V ensures map[k := a][k := b] == map[k := b] {
    }
  }

  /** The peer's reply comes back to the caller. */
  lemma CameBack(side: Side, l: nat, id: Id, m: Msg, reqs: map<Id, Req>)
    requires id != "" && m.replyTo == id
    ensures var t0 := One(side, l, Link(Fresh(id, Waiting), [], []), reqs);
      var t1 := One(side, l, Link(Fresh(id, Waiting), [], [m]), reqs);
      var t2 := One(side, l, Link(OneCall(id, Waiting, false, [], 0, Delivering(id, m)), [], []), reqs);
      var t3 := One(side, l, Link(OneCall(id, Waiting, false, [m], 1, Reader.Idle), [], []), reqs);
      var t4 := One(side, l, Link(Returned(id, m), [], []), reqs);
      && PushUp(t0, l, m) == t1
      && CanPopUp(t1, l) && PopUp(t1, l) == t2
      && CanHop(t2, l, Deliver) && HopStep(t2, l, Deliver) == t3
      && CanHop(t3, l, Receive(id)) && HopStep(t3, l, Receive(id)) == t4
  {
    CallSteps(side, id, m);
    assert [] + [m] == [m] && [m][1..] == [];
    OneUpdate<nat, Link>(l);
    hide Correlation.Can, Apply;
  }

  // ----- a whole run -----

  /** One master and one node. */
  function World(l: nat, nl: nat, target: Id, orch: Tier, node: Tier, loop: Loop, slave: Slave, log: seq<Exec>): State {
    State(orch, node, map[l := loop], map[nl := slave], map[nl := target], log)
  }

  const FREE := Link(EMPTY, [], [])

  ghost predicate Reaches(actions: seq<Action>, states: seq<State>, s: State) {
    R.Run(actions, states) && |states| == |actions| + 1 && states[|actions|] == s
  }

  lemma Go(actions: seq<Action>, states: seq<State>, s: State, a: Action, t: State)
      returns (longer: seq<Action>, more: seq<State>)
    requires Reaches(actions, states, s) && R.Can(s, a) && Next(s, a) == t
    ensures longer == actions + [a] && Reaches(longer, more, t)
  {
    hide R.Can, Next;
    longer, more := actions + [a], states + [t];
  }

  lemma Opened(l: nat, nl: nat, target: Id) returns (actions: seq<Action>, states: seq<State>)
    ensures |actions| == 2 && Reaches(actions, states, World(l, nl, target,
              One(OrchestratorSide, l, FREE, map[]), One(NodeSide, nl, FREE, map[]), Reading, Listening, []))
  {
    var s := Next(INIT, Connect(l));
    assert R.Run([], [INIT]);
    actions, states := Go([], [INIT], INIT, Connect(l), s);
    var t := World(l, nl, target, One(OrchestratorSide, l, FREE, map[]), One(NodeSide, nl, FREE, map[]), Reading, Listening, []);
    assert Next(s, ConnectNode(nl, target)) == t;
    actions, states := Go(actions, states, s, ConnectNode(nl, target), t);
  }

  /** The call is made, written and read by the master. */
  lemma Called(before: seq<Action>, until: seq<State>, l: nat, nl: nat, oid: Id, target: Id, command: string, node: Tier)
      returns (actions: seq<Action>, states: seq<State>)
    requires oid != "" && target != "" && command != ""
    requires Reaches(before, until, World(l, nl, target, One(OrchestratorSide, l, FREE, map[]), node, Reading, Listening, []))
    ensures |actions| == |before| + 3 && actions[|before|] == Upper(Send(l, oid, target, command))
    ensures var r := Req(l, OrchCommand(target, command), "", target, Taken);
      Reaches(actions, states, World(l, nl, target, One(OrchestratorSide, l, Link(Fresh(oid, Waiting), [], []), map[oid := r]),
        node, Serving(oid, target, command, [target]), Listening, []))
  {
    var r := Req(l, OrchCommand(target, command), "", target, Pending);
    Requested(OrchestratorSide, l, oid, r);
    hide BeginReq, Write, PopDown, CanBegin, CanWrite, CanPopDown, Fresh, Reaches;
    var t0 := One(OrchestratorSide, l, FREE, map[]);
    var t1 := BeginReq(t0, l, oid, r);
    var t2 := Write(t1, l, oid);
    var t3 := PopDown(t2, l);
    actions, states := Go(before, until, World(l, nl, target, t0, node, Reading, Listening, []),
                          Upper(Send(l, oid, target, command)), World(l, nl, target, t1, node, Reading, Listening, []));
    actions, states := Go(actions, states, World(l, nl, target, t1, node, Reading, Listening, []),
                          Upper(WriteOrch(l, oid)), World(l, nl, target, t2, node, Reading, Listening, []));
    var loop := Serving(oid, target, command, [target]);
    assert map[l := Reading][l := loop] == map[l := loop];
    actions, states := Go(actions, states, World(l, nl, target, t2, node, Reading, Listening, []),
                          TakeCommand(l, []), World(l, nl, target, t3, node, loop, Listening, []));
  }

  /** The master forwards it. */
  lemma Forwarded(before: seq<Action>, until: seq<State>, l: nat, nl: nat, oid: Id, nid: Id, target: Id, command: string,
                  orch: Tier)
      returns (actions: seq<Action>, states: seq<State>)
    requires nid != "" && target != ""
    requires Reaches(before, until, World(l, nl, target, orch, One(NodeSide, nl, FREE, map[]),
                                          Serving(oid, target, command, [target]), Listening, []))
    ensures before <= actions
    ensures var r := Req(nl, NodeCommand(command), oid, target, Flying);
      Reaches(actions, states, World(l, nl, target, orch,
        One(NodeSide, nl, Link(Fresh(nid, Waiting), [Msg(nid, "", NodeCommand(command))], []), map[nid := r]),
        Awaiting(oid, target, command, [], nl, nid), Listening, []))
  {
    var r := Req(nl, NodeCommand(command), oid, target, Pending);
    Requested(NodeSide, nl, nid, r);
    hide BeginReq, Write, PopDown, PushUp, CanBegin, CanWrite, CanPopDown, Fresh, Reaches;
    var t0 := One(NodeSide, nl, FREE, map[]);
    var t1 := BeginReq(t0, nl, nid, r);
    var t2 := Write(t1, nl, nid);
    var serving, awaiting := Serving(oid, target, command, [target]), Awaiting(oid, target, command, [], nl, nid);
    assert [target][1..] == [] && map[l := serving][l := awaiting] == map[l := awaiting];
    actions, states := Go(before, until, World(l, nl, target, orch, t0, serving, Listening, []),
                          Forward(l, nl, nid), World(l, nl, target, orch, t1, awaiting, Listening, []));
    actions, states := Go(actions, states, World(l, nl, target, orch, t1, awaiting, Listening, []),
                          Lower(WriteNode(nl, nid)), World(l, nl, target, orch, t2, awaiting, Listening, []));
  }

  lemma SlaveTakes(l: nat, nl: nat, target: Id, orch: Tier, node: Tier, loop: Loop, nid: Id, command: string,
                   runs: bool, ok: bool, text: string)
    requires CanPopDown(node, nl) && node.links[nl].down[0] == Msg(nid, "", NodeCommand(command))
    ensures var s := World(l, nl, target, orch, node, loop, Listening, []);
      && R.Can(s, SlaveTake(nl, runs, ok, text))
      && Next(s, SlaveTake(nl, runs, ok, text)) == World(l, nl, target, orch, PopDown(node, nl), loop,
           Replying(Msg("", nid, NodeReply(runs && ok, text))), if runs then [Exec(nid, target, command, ok, text)] else [])
  {
    hide PopDown;
    var reply := Msg("", nid, NodeReply(runs && ok, text));
    assert map[nl := Listening][nl := Replying(reply)] == map[nl := Replying(reply)];
    assert [] + [Exec(nid, target, command, ok, text)] == [Exec(nid, target, command, ok, text)];
  }

  lemma SlaveWrites(l: nat, nl: nat, target: Id, orch: Tier, node: Tier, loop: Loop, reply: Msg, log: seq<Exec>)
    requires nl in node.links
    ensures var s := World(l, nl, target, orch, node, loop, Replying(reply), log);
      && R.Can(s, SlaveReply(nl))
      && Next(s, SlaveReply(nl)) == World(l, nl, target, orch, PushUp(node, nl, reply), loop, Listening, log)
  {
    hide PushUp;
    assert map[nl := Replying(reply)][nl := Listening] == map[nl := Listening];
  }

  /** The slave takes it, runs it or not, and replies. */
  lemma SlaveServed(before: seq<Action>, until: seq<State>, l: nat, nl: nat, nid: Id, target: Id, command: string, orch: Tier,
             loop: Loop, r: Req, runs: bool, ok: bool, text: string)
      returns (actions: seq<Action>, states: seq<State>)
    requires nid != "" && r.stage == Flying && r.body == NodeCommand(command)
    requires Reaches(before, until, World(l, nl, target, orch,
               One(NodeSide, nl, Link(Fresh(nid, Waiting), [Msg(nid, "", r.body)], []), map[nid := r]), loop, Listening, []))
    ensures before <= actions
    ensures Reaches(actions, states, World(l, nl, target, orch,
      PushUp(One(NodeSide, nl, Link(Fresh(nid, Waiting), [], []), map[nid := r.(stage := Taken)]), nl,
             Msg("", nid, NodeReply(runs && ok, text))),
      loop, Listening, if runs then [Exec(nid, target, command, ok, text)] else []))
  {
    Requested(NodeSide, nl, nid, r.(stage := Pending));
    assert r.(stage := Pending).(stage := Flying) == r && r.(stage := Pending).(stage := Taken) == r.(stage := Taken);
    hide PopDown, PushUp, CanPopDown, Fresh, Reaches, World, R.Can, Next;
    var t2 := One(NodeSide, nl, Link(Fresh(nid, Waiting), [Msg(nid, "", r.body)], []), map[nid := r]);
    var t3 := PopDown(t2, nl);
    var reply := Msg("", nid, NodeReply(runs && ok, text));
    var log := if runs then [Exec(nid, target, command, ok, text)] else [];
    SlaveTakes(l, nl, target, orch, t2, loop, nid, command, runs, ok, text);
    SlaveWrites(l, nl, target, orch, t3, loop, reply, log);
    actions, states := Go(before, until, World(l, nl, target, orch, t2, loop, Listening, []),
                          SlaveTake(nl, runs, ok, text), World(l, nl, target, orch, t3, loop, Replying(reply), log));
    actions, states := Go(actions, states, World(l, nl, target, orch, t3, loop, Replying(reply), log),
                          SlaveReply(nl), World(l, nl, target, orch, PushUp(t3, nl, reply), loop, Listening, log));
  }

  /** The master takes the reply. */
  lemma TakenBack(before: seq<Action>, until: seq<State>, l: nat, nl: nat, nid: Id, target: Id,
                  orch: Tier, nreqs: map<Id, Req>, loop: Loop, log: seq<Exec>, m: Msg)
      returns (actions: seq<Action>, states: seq<State>)
    requires nid != "" && m.replyTo == nid
    requires Reaches(before, until, World(l, nl, target, orch,
               PushUp(One(NodeSide, nl, Link(Fresh(nid, Waiting), [], []), nreqs), nl, m), loop, Listening, log))
    ensures before <= actions
    ensures Reaches(actions, states, World(l, nl, target, orch,
              One(NodeSide, nl, Link(Returned(nid, m), [], []), nreqs), loop, Listening, log))
  {
    CameBack(NodeSide, nl, nid, m, nreqs);
    hide PushUp, PopUp, HopStep, CanPopUp, CanHop, Reaches;
    var t1 := PushUp(One(NodeSide, nl, Link(Fresh(nid, Waiting), [], []), nreqs), nl, m);
    var t2 := PopUp(t1, nl);
    var t3 := HopStep(t2, nl, Deliver);
    var t4 := HopStep(t3, nl, Receive(nid));
    actions, states := Go(before, until, World(l, nl, target, orch, t1, loop, Listening, log),
                          Lower(ReadNode(nl)), World(l, nl, target, orch, t2, loop, Listening, log));
    actions, states := Go(actions, states, World(l, nl, target, orch, t2, loop, Listening, log),
                          Lower(HopNode(nl, Deliver)), World(l, nl, target, orch, t3, loop, Listening, log));
    actions, states := Go(actions, states, World(l, nl, target, orch, t3, loop, Listening, log),
                          Lower(HopNode(nl, Receive(nid))), World(l, nl, target, orch, t4, loop, Listening, log));
  }

  /** The master answers the call. */
  lemma Reported(before: seq<Action>, until: seq<State>, l: nat, nl: nat, oid: Id, nid: Id, target: Id, command: string,
                 orch: Tier, nreqs: map<Id, Req>, log: seq<Exec>, ok: bool, text: string)
      returns (actions: seq<Action>, states: seq<State>)
    requires target != "" && l in orch.links
    requires Reaches(before, until, World(l, nl, target, orch,
               One(NodeSide, nl, Link(Returned(nid, Msg("", nid, NodeReply(ok, text))), [], []), nreqs),
               Awaiting(oid, target, command, [], nl, nid), Listening, log))
    ensures before <= actions
    ensures Reaches(actions, states, World(l, nl, target, PushUp(orch, l, Msg("", oid, OrchReply(target, ok, text))),
      One(NodeSide, nl, Link(Returned(nid, Msg("", nid, NodeReply(ok, text))), [], []), nreqs), Reading, Listening, log))
  {
    hide PushUp, Reaches;
    var node := One(NodeSide, nl, Link(Returned(nid, Msg("", nid, NodeReply(ok, text))), [], []), nreqs);
    var w, answer := Awaiting(oid, target, command, [], nl, nid), OrchReply(target, ok, text);
    var answering := Answering(oid, target, answer);
    assert map[l := w][l := answering] == map[l := answering];
    assert map[l := answering][l := Reading] == map[l := Reading];
    actions, states := Go(before, until, World(l, nl, target, orch, node, w, Listening, log),
                          Collect(l), World(l, nl, target, orch, node, answering, Listening, log));
    actions, states := Go(actions, states, World(l, nl, target, orch, node, answering, Listening, log),
                          Answer(l), World(l, nl, target, PushUp(orch, l, Msg("", oid, answer)), node, Reading, Listening, log));
  }

  /** The orchestrator takes the answer and the call returns it. */
  lemma Concluded(before: seq<Action>, until: seq<State>, l: nat, nl: nat, oid: Id, target: Id,
                  oreqs: map<Id, Req>, node: Tier, log: seq<Exec>, m: Msg)
      returns (actions: seq<Action>, states: seq<State>)
    requires oid != "" && m.replyTo == oid
    requires Reaches(before, until, World(l, nl, target,
               PushUp(One(OrchestratorSide, l, Link(Fresh(oid, Waiting), [], []), oreqs), l, m), node, Reading, Listening, log))
    ensures before <= actions
    ensures Reaches(actions, states, World(l, nl, target,
              One(OrchestratorSide, l, Link(Returned(oid, m), [], []), oreqs), node, Reading, Listening, log))
  {
    CameBack(OrchestratorSide, l, oid, m, oreqs);
    hide PushUp, PopUp, HopStep, CanPopUp, CanHop, Reaches;
    var t1 := PushUp(One(OrchestratorSide, l, Link(Fresh(oid, Waiting), [], []), oreqs), l, m);
    var t2 := PopUp(t1, l);
    var t3 := HopStep(t2, l, Deliver);
    var t4 := HopStep(t3, l, Receive(oid));
    actions, states := Go(before, until, World(l, nl, target, t1, node, Reading, Listening, log),
                          Upper(ReadOrch(l)), World(l, nl, target, t2, node, Reading, Listening, log));
    actions, states := Go(actions, states, World(l, nl, target, t2, node, Reading, Listening, log),
                          Upper(HopOrch(l, Deliver)), World(l, nl, target, t3, node, Reading, Listening, log));
    actions, states := Go(actions, states, World(l, nl, target, t3, node, Reading, Listening, log),
                          Upper(HopOrch(l, Receive(oid))), World(l, nl, target, t4, node, Reading, Listening, log));
  }

  /**
   * For every command to a connected node there is a run in which the call returns exactly what the slave answered, ok or
   * not, and the slave ran exactly the bytes of the call, or nothing if it has no handler for them.
   */
  lemma Delivers(l: nat, nl: nat, oid: Id, nid: Id, target: Id, command: string, runs: bool, ok: bool, text: string)
      returns (actions: seq<Action>, states: seq<State>)
    requires oid != "" && nid != "" && target != "" && command != ""
    ensures R.Run(actions, states) && |actions| > 2 && actions[2] == Upper(Send(l, oid, target, command))
    ensures var s := states[|actions|];
      && l in s.orch.links
      && In(s.orch.links[l].hop, oid, Done(Replied(Msg("", oid, OrchReply(target, runs && ok, text)))))
      && s.log == if runs then [Exec(nid, target, command, ok, text)] else []
  {
    hide PushUp, Fresh, Next, R.Can;
    actions, states := Opened(l, nl, target);
    actions, states := Called(actions, states, l, nl, oid, target, command, One(NodeSide, nl, FREE, map[]));
    var oreqs := map[oid := Req(l, OrchCommand(target, command), "", target, Taken)];
    var nreqs := map[nid := Req(nl, NodeCommand(command), oid, target, Taken)];
    var orch := One(OrchestratorSide, l, Link(Fresh(oid, Waiting), [], []), oreqs);
    var log := if runs then [Exec(nid, target, command, ok, text)] else [];
    var loop := Awaiting(oid, target, command, [], nl, nid);
    var m := Msg("", nid, NodeReply(runs && ok, text));
    actions, states := Forwarded(actions, states, l, nl, oid, nid, target, command, orch);
    actions, states := SlaveServed(actions, states, l, nl, nid, target, command, orch, loop,
                            Req(nl, NodeCommand(command), oid, target, Flying), runs, ok, text);
    actions, states := TakenBack(actions, states, l, nl, nid, target, orch, nreqs, loop, log, m);
    actions, states := Reported(actions, states, l, nl, oid, nid, target, command, orch, nreqs, log, runs && ok, text);
    actions, states := Concluded(actions, states, l, nl, oid, target, oreqs,
      One(NodeSide, nl, Link(Returned(nid, Msg("", nid, NodeReply(runs && ok, text))), [], []), nreqs), log,
      Msg("", oid, OrchReply(target, runs && ok, text)));
  }
}

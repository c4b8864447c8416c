/** The two sequential loops that answer commands, a master's on its orchestrator connection and a slave's, as the code runs them. */
module Dispatch {
  import opened Correlation
  import opened Messages
  import opened Relay
  import opened Sequences
  import opened Text
  import opened Wrappers

  /** What a loop has written. */
  class Outbox {
    var sent: seq<Msg>

    constructor ()
      ensures sent == []
    {
      sent := [];
    }

    method Write(m: Msg)
      modifies this
      ensures sent == old(sent) + [m]
    {
      sent := sent + [m];
    }
  }

  function Reply(to: Id, body: Body): Msg { Msg("", TrimSpace(to), body) }

  // ----- a slave -----

  /**
   * What a slave finds while it serves one packet: the action that a command's text decodes to, if it decodes, and the
   * handlers by action with what they come to this time, success and output or failure and message.
   */
  datatype SlaveEnv = SlaveEnv(decode: string -> Option<string>, handlers: map<string, string -> (bool, string)>) {
    predicate Runs(command: string) {
      decode(command).Some? && TrimSpace(decode(command).value) in handlers
    }

    function Run(command: string): (bool, string)
      requires Runs(command)
    {
      handlers[TrimSpace(decode(command).value)](command)
    }

    function Verdict(command: string): Body {
      if Runs(command) then NodeReply(Run(command).0, Run(command).1)
      else NodeReply(false, if decode(command) == None then "invalid command" else "unknown action")
    }
  }

  /** A run of a command handler. */
  datatype HandlerRun = HandlerRun(id: Id, command: string, ok: bool, text: string)

  /** The handlers, which keep account of their runs. */
  class Handlers {
    var runs: seq<HandlerRun>

    constructor ()
      ensures runs == []
    {
      runs := [];
    }

    method Run(env: SlaveEnv, id: Id, command: string) returns (ok: bool, text: string)
      requires env.Runs(command)
      modifies this
      ensures (ok, text) == env.Run(command) && runs == old(runs) + [HandlerRun(id, command, ok, text)]
    {
      var r := env.Run(command);
      ok, text := r.0, r.1;
      runs := runs + [HandlerRun(id, command, ok, text)];
    }
  }

  datatype SlaveTurn = SlaveTurn(m: Msg, env: SlaveEnv)

  /** The replies to one packet: one to a heartbeat or a command, none to anything else. */
  function SlaveReplies(t: SlaveTurn): seq<Msg> {
    match t.m.body
    case Heartbeat => [Reply(t.m.id, HeartbeatReply)]
    case NodeCommand(command) => [Reply(t.m.id, t.env.Verdict(command))]
    case _ => []
  }

  /** The handlers that one packet runs: one for a valid command with a known action, none for anything else. */
  function SlaveRuns(t: SlaveTurn): seq<HandlerRun> {
    if t.m.body.NodeCommand? && t.env.Runs(t.m.body.command)
    then [HandlerRun(t.m.id, t.m.body.command, t.env.Run(t.m.body.command).0, t.env.Run(t.m.body.command).1)]
    else []
  }

  method HandleNodeCommand(env: SlaveEnv, handlers: Handlers, out: Outbox, id: Id, command: string)
    modifies out, handlers
    ensures out.sent == old(out.sent) + [Reply(id, env.Verdict(command))]
    ensures handlers.runs == old(handlers.runs) +
            if env.Runs(command) then [HandlerRun(id, command, env.Run(command).0, env.Run(command).1)] else []
  {
    var action := env.decode(command);
    if action == None {
      out.Write(Reply(id, NodeReply(false, "invalid command")));
      return;
    }
    if TrimSpace(action.value) !in env.handlers {
      out.Write(Reply(id, NodeReply(false, "unknown action")));
      return;
    }
    var done, output := handlers.Run(env, id, command);
    if !done {
      out.Write(Reply(id, NodeReply(false, output)));
      return;
    }
    out.Write(Reply(id, NodeReply(true, output)));
  }

  /** One turn of the dispatch loop. */
  method HandlePacket(t: SlaveTurn, handlers: Handlers, out: Outbox)
    modifies out, handlers
    ensures out.sent == old(out.sent) + SlaveReplies(t)
    ensures handlers.runs == old(handlers.runs) + SlaveRuns(t)
  {
    match t.m.body {
      case Heartbeat =>
        out.Write(Reply(t.m.id, HeartbeatReply));
      case NodeCommand(command) =>
        HandleNodeCommand(t.env, handlers, out, t.m.id, command);
      case _ =>
    }
  }

  /** The dispatch loop over what the slave reads before the stream ends. */
  method SlaveLoop(turns: seq<SlaveTurn>, handlers: Handlers, out: Outbox)
    modifies out, handlers
    ensures out.sent == old(out.sent) + FlatMap(turns, SlaveReplies)
    ensures handlers.runs == old(handlers.runs) + FlatMap(turns, SlaveRuns)
  {
    assert FlatMap(turns[..0], SlaveReplies) == [] && FlatMap(turns[..0], SlaveRuns) == [];
    hide *;
    for k := 0 to |turns|
      invariant out.sent == old(out.sent) + FlatMap(turns[..k], SlaveReplies)
      invariant handlers.runs == old(handlers.runs) + FlatMap(turns[..k], SlaveRuns)
    {
      FlatMapStep(old(out.sent), turns, k, SlaveReplies);
      FlatMapStep(old(handlers.runs), turns, k, SlaveRuns);
      HandlePacket(turns[k], handlers, out);
    }
    assert turns[..|turns|] == turns;
  }

  /** The replies of a slave name the packets that asked for one, each once, in order. */
  lemma {:induction false} OneReplyEach(turns: seq<SlaveTurn>)
    ensures FlatMap(FlatMap(turns, SlaveReplies), RepliedTo) == FlatMap(turns, SlaveAsked)
  {
    if turns != [] {
      OneReplyEach(turns[1..]);
      FlatMapConcat(SlaveReplies(turns[0]), FlatMap(turns[1..], SlaveReplies), RepliedTo);
    }
  }

  function RepliedTo(m: Msg): seq<Id> { [m.replyTo] }

  function SlaveAsked(t: SlaveTurn): seq<Id> {
    if t.m.body.Heartbeat? || t.m.body.NodeCommand? then [TrimSpace(t.m.id)] else []
  }

  /** The ok replies are exactly the runs that succeeded, in order, each with its packet and its output. */
  lemma {:induction false} OkRepliesRan(turns: seq<SlaveTurn>)
    ensures FlatMap(FlatMap(turns, SlaveReplies), OkReply) == FlatMap(FlatMap(turns, SlaveRuns), OkRun)
  {
    if turns != [] {
      OkRepliesRan(turns[1..]);
      FlatMapConcat(SlaveReplies(turns[0]), FlatMap(turns[1..], SlaveReplies), OkReply);
      FlatMapConcat(SlaveRuns(turns[0]), FlatMap(turns[1..], SlaveRuns), OkRun);
    }
  }

  function OkReply(m: Msg): seq<(Id, string)> {
    if m.body.NodeReply? && m.body.ok then [(m.replyTo, m.body.text)] else []
  }

  function OkRun(r: HandlerRun): seq<(Id, string)> { if r.ok then [(TrimSpace(r.id), r.text)] else [] }

  /** What a handler run leaves in the relay's log. */
  function ExecOf(name: Id, runs: seq<HandlerRun>): seq<Exec> {
    if runs == [] then [] else [Exec(runs[0].id, name, runs[0].command, runs[0].ok, runs[0].text)] + ExecOf(name, runs[1..])
  }

  /** What a slave says and does, case by case. */
  lemma SlaveTurnSays(t: SlaveTurn)
    ensures !t.m.body.Heartbeat? && !t.m.body.NodeCommand? ==> SlaveReplies(t) == [] && SlaveRuns(t) == []
    ensures t.m.body.Heartbeat? ==> SlaveReplies(t) == [Msg("", TrimSpace(t.m.id), HeartbeatReply)] && SlaveRuns(t) == []
    ensures t.m.body.NodeCommand? ==>
      var action := t.env.decode(t.m.body.command);
      && (action == None ==>
           SlaveReplies(t) == [Msg("", TrimSpace(t.m.id), NodeReply(false, "invalid command"))] && SlaveRuns(t) == [])
      && (action.Some? && TrimSpace(action.value) !in t.env.handlers ==>
           SlaveReplies(t) == [Msg("", TrimSpace(t.m.id), NodeReply(false, "unknown action"))] && SlaveRuns(t) == [])
      && (action.Some? && TrimSpace(action.value) in t.env.handlers ==>
           var (ok, text) := t.env.handlers[TrimSpace(action.value)](t.m.body.command);
           && SlaveReplies(t) == [Msg("", TrimSpace(t.m.id), NodeReply(ok, text))]
           && SlaveRuns(t) == [HandlerRun(t.m.id, t.m.body.command, ok, text)])
  {
  }

  /** Replies and runs of a turn are those of the relay's slave step, as long as ids have no white space around them. */
  lemma SlaveRefines(t: SlaveTurn, s: State, nl: nat)
    requires nl in s.names && nl in s.slaves && s.slaves[nl].Listening? && Trimmed(t.m.id)
    ensures exists runs, ok, text {:trigger SlaveStep(s, nl, t.m, runs, ok, text)} ::
      var u := SlaveStep(s, nl, t.m, runs, ok, text);
      && SlaveReplies(t) == (if u.slaves[nl].Replying? then [u.slaves[nl].reply] else [])
      && u.log == s.log + ExecOf(s.names[nl], SlaveRuns(t))
  {
    TrimmedUnchanged(t.m.id);
    var runs := SlaveRuns(t) != [];
    var ok := runs && SlaveRuns(t)[0].ok;
    var text := if t.m.body.NodeCommand? then t.env.Verdict(t.m.body.command).text else "";
    var u := SlaveStep(s, nl, t.m, runs, ok, text);
    assert u.log == s.log + ExecOf(s.names[nl], SlaveRuns(t));
  }

  // ----- a master -----

  /**
   * What a master finds while it serves one packet: the connected nodes, what a request to one of them comes to this time,
   * and whether a command of its own succeeds, with its output or message.
   */
  datatype MasterEnv = MasterEnv(connected: set<Id>, send: (Id, string) -> Outcome, own: string -> (bool, string)) {
    function Answer(node: Id, command: string): Body {
      if node == "" then OrchReply("", own(command).0, own(command).1)
      else if node !in connected then OrchReply(node, false, "node not connected")
      else ReplyFor(node, send(node, command))
    }
  }

  /** The connections to the nodes, which keep account of the requests made to them. */
  class Nodes {
    var requests: seq<(Id, string)>

    constructor ()
      ensures requests == []
    {
      requests := [];
    }

    method SendCommandToNodeWait(env: MasterEnv, node: Id, command: string) returns (outcome: Option<Outcome>)
      modifies this
      ensures outcome == if node in env.connected then Some(env.send(node, command)) else None
      ensures requests == old(requests) + if node in env.connected then [(node, command)] else []
    {
      if node !in env.connected {
        return None;
      }
      requests := requests + [(node, command)];
      return Some(env.send(node, command));
    }
  }

  datatype MasterTurn = MasterTurn(m: Msg, env: MasterEnv)

  predicate IsCommand(m: Msg) { m.body.OrchCommand? && m.body.command != "" }

  /** The replies to one packet: one to a command that is not empty, whichever branch it takes, none to anything else. */
  function MasterReplies(t: MasterTurn): seq<Msg> {
    if IsCommand(t.m) then [Reply(t.m.id, t.env.Answer(t.m.body.node, t.m.body.command))] else []
  }

  /** The requests that one packet makes to nodes: one for a command to a connected node. */
  function MasterRequests(t: MasterTurn): seq<(Id, string)> {
    if IsCommand(t.m) && t.m.body.node != "" && t.m.body.node in t.env.connected then [(t.m.body.node, t.m.body.command)] else []
  }

  /** Answers to the master's own requests go to its main loop. */
  function Handed(t: MasterTurn): seq<Msg> { if t.m.body.Other? then [t.m] else [] }

  method ServePacket(t: MasterTurn, nodes: Nodes, out: Outbox) returns (handed: seq<Msg>)
    modifies out, nodes
    ensures out.sent == old(out.sent) + MasterReplies(t)
    ensures nodes.requests == old(nodes.requests) + MasterRequests(t)
    ensures handed == Handed(t)
  {
    var m := t.m;
    if m.body.Other? {
      return [m];
    }
    handed := [];
    if !m.body.OrchCommand? {
      return;
    }
    var node, command := m.body.node, m.body.command;
    if command == "" {
      return;
    }
    if node == "" {
      var (ok, text) := t.env.own(command);
      out.Write(Reply(m.id, OrchReply("", ok, text)));
      return;
    }
    var outcome := nodes.SendCommandToNodeWait(t.env, node, command);
    if outcome == None {
      out.Write(Reply(m.id, OrchReply(node, false, "node not connected")));
      return;
    }
    if !outcome.value.Replied? {
      out.Write(Reply(m.id, OrchReply(node, false, "error")));
      return;
    }
    if !outcome.value.reply.body.NodeReply? {
      out.Write(Reply(m.id, OrchReply(node, false, "error")));
      return;
    }
    out.Write(Reply(m.id, OrchReply(node, outcome.value.reply.body.ok, outcome.value.reply.body.text)));
  }

  /** The read loop over what the master reads before the stream ends. */
  method ReadOrchestratorLoop(turns: seq<MasterTurn>, nodes: Nodes, out: Outbox) returns (respCh: seq<Msg>)
    modifies out, nodes
    ensures out.sent == old(out.sent) + FlatMap(turns, MasterReplies)
    ensures nodes.requests == old(nodes.requests) + FlatMap(turns, MasterRequests)
    ensures respCh == FlatMap(turns, Handed)
  {
    assert FlatMap(turns[..0], MasterReplies) == [] && FlatMap(turns[..0], MasterRequests) == [] && FlatMap(turns[..0], Handed) == [];
    hide *;
    respCh := [];
    for k := 0 to |turns|
      invariant out.sent == old(out.sent) + FlatMap(turns[..k], MasterReplies)
      invariant nodes.requests == old(nodes.requests) + FlatMap(turns[..k], MasterRequests)
      invariant respCh == FlatMap(turns[..k], Handed)
    {
      FlatMapStep(old(out.sent), turns, k, MasterReplies);
      FlatMapStep(old(nodes.requests), turns, k, MasterRequests);
      FlatMapAppend(turns[..k], turns[k], Handed);
      assert turns[..k + 1] == turns[..k] + [turns[k]];
      var handed := ServePacket(turns[k], nodes, out);
      respCh := respCh + handed;
    }
    assert turns[..|turns|] == turns;
  }

  /**
   * What a master says and does, case by case; in particular a node's answer gets through as it is, and nothing else is
   * reported as a success.
   */
  lemma MasterTurnSays(t: MasterTurn)
    ensures t.m.body.Other? ==> Handed(t) == [t.m] && MasterReplies(t) == [] && MasterRequests(t) == []
    ensures !t.m.body.Other? ==> Handed(t) == []
    ensures !t.m.body.OrchCommand? || t.m.body.command == "" ==> MasterReplies(t) == [] && MasterRequests(t) == []
    ensures t.m.body.OrchCommand? && t.m.body.command != "" ==>
      var node, command, to := t.m.body.node, t.m.body.command, TrimSpace(t.m.id);
      && (node == "" ==>
           && MasterReplies(t) == [Msg("", to, OrchReply("", t.env.own(command).0, t.env.own(command).1))]
           && MasterRequests(t) == [])
      && (node != "" && node !in t.env.connected ==>
           MasterReplies(t) == [Msg("", to, OrchReply(node, false, "node not connected"))] && MasterRequests(t) == [])
      && (node != "" && node in t.env.connected ==>
           && MasterRequests(t) == [(node, command)]
           && var outcome := t.env.send(node, command);
           && (outcome.Replied? && outcome.reply.body.NodeReply? ==>
                MasterReplies(t) == [Msg("", to, OrchReply(node, outcome.reply.body.ok, outcome.reply.body.text))])
           && (!outcome.Replied? || !outcome.reply.body.NodeReply? ==>
                exists text :: MasterReplies(t) == [Msg("", to, OrchReply(node, false, text))]))
  {
    if IsCommand(t.m) && t.m.body.node != "" && t.m.body.node in t.env.connected {
      var r := MasterReplies(t)[0];
      assert MasterReplies(t) == [Msg("", TrimSpace(t.m.id), OrchReply(r.body.node, r.body.ok, r.body.text))];
    }
  }

  /** The step with which the relay's master comes to its answer, in the state where the command has run its course. */
  ghost predicate Concludes(t: MasterTurn, s: State, l: nat, a: Action)
    requires IsCommand(t.m)
  {
    var oid, node, command := t.m.id, t.m.body.node, t.m.body.command;
    Relay.Can(s, a) && l in s.loops &&
    if node == "" then
      s.loops[l] == Serving(oid, "", command, []) && a == Aggregate(l, t.env.own(command).0, t.env.own(command).1)
    else if node !in t.env.connected then
      s.loops[l] == Serving(oid, node, command, [node]) && a == NoNode(l)
    else
      && a == Collect(l) && s.loops[l].Awaiting?
      && s.loops[l] == Awaiting(oid, node, command, [], s.loops[l].nl, s.loops[l].nid)
      && s.node.links[s.loops[l].nl].hop.waiters[s.loops[l].nid].phase.outcome == t.env.send(node, command)
  }

  /**
   * Whichever branch a command takes, the relay's master starts from the same reading of it, concludes with the same
   * answer and writes the same reply.
   */
  lemma MasterRefines(t: MasterTurn, s: State, l: nat, a: Action, snapshot: seq<Id>)
    requires IsCommand(t.m) && Trimmed(t.m.id) && Concludes(t, s, l, a) && l in s.orch.links
    ensures LoopAfter(t.m, snapshot) ==
            Serving(t.m.id, t.m.body.node, t.m.body.command, if t.m.body.node == "" then snapshot else [t.m.body.node])
    ensures var u := Next(s, a);
      && Relay.Can(u, Answer(l))
      && Next(u, Answer(l)).orch.links[l].up == s.orch.links[l].up + MasterReplies(t)
  {
    TrimmedUnchanged(t.m.id);
  }

  /** What the master does not serve leaves its loop reading, and its streams and nodes alone. */
  lemma Ignored(t: MasterTurn, s: State, l: nat, snapshot: seq<Id>)
    requires !t.m.body.OrchCommand? || t.m.body.command == ""
    requires Relay.Can(s, TakeCommand(l, snapshot)) && s.orch.links[l].down[0] == t.m
    ensures var u := Next(s, TakeCommand(l, snapshot));
      && u.loops[l] == Reading && u.orch.links[l].up == s.orch.links[l].up + MasterReplies(t)
      && u.node == s.node && u.log == s.log && MasterRequests(t) == []
  {
  }
}

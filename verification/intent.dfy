/** Nothing runs unasked: every execution in the relay goes back to a call, whether or not its caller waits. */
module Intent {
  import opened Messages
  import opened R = Relay
  import opened T = Tier

  /** A target and a command that some caller gave. */
  type Ask = (Id, string)

  function AskOf(a: Action): set<Ask> {
    match a
    case Upper(Send(_, _, target, command)) => {(target, command)}
    case Upper(SendNoWait(_, target, command)) => {(target, command)}
    case _ => {}
  }

  function AsksOf(actions: seq<Action>, n: nat): set<Ask>
    requires n <= |actions|
  {
    if n == 0 then {} else AsksOf(actions, n - 1) + AskOf(actions[n - 1])
  }

  predicate BodyAsked(b: Body, asks: set<Ask>) { b.OrchCommand? ==> (b.node, b.command) in asks }

  /** Everything on its way down the upper tier was asked for. */
  ghost predicate OrchAsked(t: Tier, asks: set<Ask>) {
    && (forall l, i :: l in t.links && 0 <= i < |t.links[l].down| ==> BodyAsked(t.links[l].down[i].body, asks))
    && (forall id :: id in t.reqs ==> BodyAsked(t.reqs[id].body, asks))
  }

  predicate LoopAsked(loop: Loop, asks: set<Ask>) {
    loop.Serving? || loop.Awaiting? ==> (loop.target, loop.command) in asks
  }

  /** A packet to a node carries a command asked for that node or for no node in particular. */
  predicate PacketAsked(r: Req, asks: set<Ask>) {
    r.body.NodeCommand? ==> ("", r.body.command) in asks || (r.node, r.body.command) in asks
  }

  ghost predicate NodesAsked(t: Tier, asks: set<Ask>) {
    forall nid :: nid in t.reqs ==> PacketAsked(t.reqs[nid], asks)
  }

  ghost predicate AllAsked(s: State, asks: set<Ask>) {
    && OrchAsked(s.orch, asks) && NodesAsked(s.node, asks)
    && forall l :: l in s.loops ==> LoopAsked(s.loops[l], asks)
  }

  lemma MoreAsks(s: State, asks: set<Ask>, more: set<Ask>)
    requires AllAsked(s, asks)
    ensures AllAsked(s, asks + more)
  {
  }

  lemma UpperKeeps(t: Tier, a: UpperAction, asks: set<Ask>)
    requires OrchAsked(t, asks) && CanUpper(t, a) && AskOf(Upper(a)) <= asks
    ensures OrchAsked(UpperNext(t, a), asks)
  {
    hide Correlation.Apply, Correlation.Can;
  }

  lemma LowerKeeps(t: Tier, names: map<nat, Id>, a: LowerAction, asks: set<Ask>)
    requires NodesAsked(t, asks) && CanLower(t, names, a)
    ensures NodesAsked(LowerNext(t, names, a), asks)
  {
    hide Correlation.Apply, Correlation.Can;
  }

  lemma TakeKeeps(s: State, l: nat, snapshot: seq<Id>, asks: set<Ask>)
    requires AllAsked(s, asks) && R.Can(s, TakeCommand(l, snapshot))
    ensures AllAsked(R.Next(s, TakeCommand(l, snapshot)), asks)
  {
    assert BodyAsked(s.orch.links[l].down[0].body, asks);
    assert OrchAsked(PopDown(s.orch, l), asks);
  }

  lemma ForwardKeeps(s: State, l: nat, nl: nat, nid: Id, asks: set<Ask>)
    requires R.Inv(s) && AllAsked(s, asks) && R.Can(s, Forward(l, nl, nid))
    ensures AllAsked(R.Next(s, Forward(l, nl, nid)), asks)
  {
    hide T.Ok, AllReplies, OrchAsked, Correlation.Apply, Correlation.Can;
    assert LoopOk(s, l) && LoopAsked(s.loops[l], asks);
  }

  lemma OtherKeeps(s: State, a: Action, asks: set<Ask>)
    requires AllAsked(s, asks) && R.Can(s, a) && !a.Upper? && !a.Lower? && !a.TakeCommand? && !a.Forward?
    ensures AllAsked(R.Next(s, a), asks)
  {
    hide Correlation.Apply, Correlation.Can, CanUpper, CanLower, CanBegin;
  }

  lemma StepKeeps(s: State, a: Action, asks: set<Ask>)
    requires R.Inv(s) && AllAsked(s, asks) && R.Can(s, a)
    ensures AllAsked(R.Next(s, a), asks + AskOf(a))
  {
    MoreAsks(s, asks, AskOf(a));
    var all := asks + AskOf(a);
    match a {
      case Upper(u) =>
        hide CanUpper, UpperNext, OrchAsked, R.Inv;
        UpperKeeps(s.orch, u, all);
      case Lower(n) =>
        hide CanLower, LowerNext, NodesAsked, R.Inv;
        LowerKeeps(s.node, s.names, n, all);
      case TakeCommand(l, snapshot) =>
        hide *;
        TakeKeeps(s, l, snapshot, all);
      case Forward(l, nl, nid) =>
        hide *;
        ForwardKeeps(s, l, nl, nid, all);
      case _ =>
        hide *;
        OtherKeeps(s, a, all);
    }
  }

  lemma {:induction false} AlwaysAsked(actions: seq<Action>, states: seq<State>, n: nat)
    requires R.Run(actions, states) && n < |states|
    ensures AllAsked(states[n], AsksOf(actions, n))
  {
    if n != 0 {
      AlwaysAsked(actions, states, n - 1);
      RunKeeps(actions, states, n - 1);
      hide R.Inv, R.Can, R.Next, AllAsked;
      StepKeeps(states[n - 1], actions[n - 1], AsksOf(actions, n - 1));
    }
  }

  lemma {:induction false} WhoAsked(actions: seq<Action>, n: nat, target: Id, command: string) returns (j: nat)
    requires n <= |actions| && (target, command) in AsksOf(actions, n)
    ensures j < n && actions[j].Upper? && (actions[j].upper.Send? || actions[j].upper.SendNoWait?)
    ensures actions[j].upper.target == target && actions[j].upper.command == command
  {
    if (target, command) in AskOf(actions[n - 1]) {
      j := n - 1;
    } else {
      j := WhoAsked(actions, n - 1, target, command);
    }
  }

  /** Whatever ran on a node was given, byte for byte, to an earlier call for that node or for no node in particular. */
  lemma NothingUnasked(actions: seq<Action>, states: seq<State>, n: nat, i: nat) returns (j: nat)
    requires R.Run(actions, states) && n < |states| && i < |states[n].log|
    ensures j < n && actions[j].Upper? && (actions[j].upper.Send? || actions[j].upper.SendNoWait?)
    ensures actions[j].upper.command == states[n].log[i].command
    ensures actions[j].upper.target in {"", states[n].log[i].node}
  {
    AlwaysAsked(actions, states, n);
    RunKeeps(actions, states, n);
    var s, e := states[n], states[n].log[i];
    var asks := AsksOf(actions, n);
    assert LogOk(s) && NodesAsked(s.node, asks);
    assert PacketAsked(s.node.reqs[e.nid], asks);
    hide *;
    j := WhoAsked(actions, n, if ("", e.command) in asks then "" else e.node, e.command);
  }
}

/** One connection's request/reply matching: the pending table, the one-slot channels, the waiters and the reader goroutine. */
module Correlation {
  import opened Messages

  datatype Outcome = Replied(reply: Msg) | WriteFailed | TimedOut

  /** Where a `sendRequest` call is: before its write returned, in its select, about to delete its entry, or returned. */
  datatype Phase = Registered | Waiting | Failing | Expired | Done(outcome: Outcome)

  /** `box` is the buffer of the call's channel and `sends` counts the sends on it so far. */
  datatype Waiter = Waiter(phase: Phase, box: seq<Msg>, sends: nat)

  /** The reader goroutine, between `pendMu.Unlock` and the channel send or not. */
  datatype Reader = Idle | Delivering(to: Id, reply: Msg)

  datatype Hop = Hop(pend: set<Id>, waiters: map<Id, Waiter>, reader: Reader)

  const EMPTY := Hop({}, map[], Idle)

  /** The atomic steps. `Take` is the locked part of `resolveReply` and `Deliver` its channel send. */
  datatype Event =
    | Begin(id: Id) | Wrote(id: Id) | WriteError(id: Id) | Expire(id: Id) | Forget(id: Id) | Receive(id: Id)
    | Take(reply: Msg) | Deliver

  /** The two kinds of connection: the node side deletes the entry of a failed write, the orchestrator side does not. */
  datatype Side = NodeSide | OrchestratorSide

  predicate Matches(h: Hop, m: Msg) { m.replyTo != "" && m.replyTo in h.pend }

  predicate In(h: Hop, id: Id, phase: Phase) { id in h.waiters && h.waiters[id].phase == phase }

  predicate Can(h: Hop, e: Event) {
    match e
    case Begin(id) => id != "" && id !in h.waiters
    case Wrote(id) => In(h, id, Registered)
    case WriteError(id) => In(h, id, Registered)
    case Expire(id) => In(h, id, Waiting)
    case Forget(id) => In(h, id, Failing) || In(h, id, Expired)
    case Receive(id) => In(h, id, Waiting) && h.waiters[id].box != []
    case Take(_) => h.reader.Idle?
    case Deliver => h.reader.Delivering? && h.reader.to in h.waiters
  }

  function SetPhase(h: Hop, id: Id, phase: Phase): Hop
    requires id in h.waiters
  {
    h.(waiters := h.waiters[id := h.waiters[id].(phase := phase)])
  }

  function Apply(side: Side, h: Hop, e: Event): Hop
    requires Can(h, e)
  {
    match e
    case Begin(id) => h.(pend := h.pend + {id}, waiters := h.waiters[id := Waiter(Registered, [], 0)])
    case Wrote(id) => SetPhase(h, id, Waiting)
    case WriteError(id) => SetPhase(h, id, if side.NodeSide? then Failing else Done(WriteFailed))
    case Expire(id) => SetPhase(h, id, Expired)
    case Forget(id) =>
      SetPhase(h, id, Done(if h.waiters[id].phase.Failing? then WriteFailed else TimedOut)).(pend := h.pend - {id})
    case Receive(id) =>
      var w := h.waiters[id];
      h.(waiters := h.waiters[id := w.(phase := Done(Replied(w.box[0])), box := w.box[1..])])
    case Take(m) =>
      if Matches(h, m) then h.(pend := h.pend - {m.replyTo}, reader := Delivering(m.replyTo, m)) else h
    case Deliver =>
      var w := h.waiters[h.reader.to];
      h.(waiters := h.waiters[h.reader.to := w.(box := w.box + [h.reader.reply], sends := w.sends + 1)], reader := Idle)
  }

  // ----- what every step keeps -----

  predicate Answered(h: Hop, id: Id)
    requires id in h.waiters
  {
    h.waiters[id].sends > 0 || (h.reader.Delivering? && h.reader.to == id)
  }

  /** The calls whose table entry outlives them on this side. */
  predicate Leaks(side: Side, phase: Phase) {
    side.OrchestratorSide? && phase == Done(WriteFailed)
  }

  ghost predicate WaiterOk(side: Side, h: Hop, id: Id)
    requires id in h.waiters
  {
    var w := h.waiters[id];
    && w.sends <= 1
    && (w.phase.Failing? ==> side.NodeSide?)
    && (h.reader.Delivering? && h.reader.to == id ==> w.sends == 0)
    && (forall m :: m in w.box ==> m.replyTo == id)
    && (if w.phase.Done? && w.phase.outcome.Replied?
        then w.phase.outcome.reply.replyTo == id && w.box == [] && w.sends == 1
        else |w.box| == w.sends)
    && (id in h.pend <==> !Answered(h, id) && (w.phase.Done? ==> Leaks(side, w.phase)))
  }

  ghost predicate Inv(side: Side, h: Hop) {
    && h.pend <= h.waiters.Keys
    && "" !in h.waiters
    && (forall id :: id in h.waiters ==> WaiterOk(side, h, id))
    && (h.reader.Delivering? ==> h.reader.to in h.waiters && h.reader.reply.replyTo == h.reader.to)
  }

  lemma EmptyInv(side: Side)
    ensures Inv(side, EMPTY)
  {
  }

  lemma StepKeeps(side: Side, h: Hop, e: Event)
    requires Inv(side, h) && Can(h, e)
    ensures Inv(side, Apply(side, h, e))
  {
    var g := Apply(side, h, e);
    forall id | id in g.waiters ensures WaiterOk(side, g, id) {
      if id in h.waiters {
        assert WaiterOk(side, h, id);
      }
    }
  }

  // ----- runs -----

  /** `hs` are the successive states of a run that takes the steps `es`. */
  ghost predicate Run(side: Side, es: seq<Event>, hs: seq<Hop>) {
    && |hs| == |es| + 1
    && hs[0] == EMPTY
    && forall i :: 0 <= i < |es| ==> Can(hs[i], es[i]) && hs[i + 1] == Apply(side, hs[i], es[i])
  }

  lemma RunAppend(side: Side, es: seq<Event>, hs: seq<Hop>, e: Event)
    requires Run(side, es, hs) && Can(hs[|es|], e)
    ensures Run(side, es + [e], hs + [Apply(side, hs[|es|], e)])
  {
    hide Can, Apply;
  }

  lemma {:induction false} RunKeeps(side: Side, es: seq<Event>, hs: seq<Hop>, i: nat)
    requires Run(side, es, hs) && i < |hs|
    ensures Inv(side, hs[i])
  {
    if i == 0 {
      EmptyInv(side);
    } else {
      RunKeeps(side, es, hs, i - 1);
      StepKeeps(side, hs[i - 1], es[i - 1]);
    }
  }

  /** In every run each channel is sent to at most once, so the send in `resolveReply` finds the one slot free. */
  lemma SendNeverBlocks(side: Side, es: seq<Event>, hs: seq<Hop>, i: nat)
    requires Run(side, es, hs) && i < |hs|
    ensures forall id :: id in hs[i].waiters ==> hs[i].waiters[id].sends <= 1 && |hs[i].waiters[id].box| <= 1
    ensures var r := hs[i].reader; r.Delivering? ==> r.to in hs[i].waiters && hs[i].waiters[r.to].box == []
  {
    RunKeeps(side, es, hs, i);
    var h := hs[i];
    forall id | id in h.waiters ensures h.waiters[id].sends <= 1 && |h.waiters[id].box| <= 1 {
      assert WaiterOk(side, h, id);
    }
    if h.reader.Delivering? {
      assert WaiterOk(side, h, h.reader.to);
    }
  }

  /** A call returns only a packet that replies to its own id. */
  lemma OwnReply(side: Side, es: seq<Event>, hs: seq<Hop>, i: nat, id: Id)
    requires Run(side, es, hs) && i < |hs| && id in hs[i].waiters
    requires hs[i].waiters[id].phase.Done? && hs[i].waiters[id].phase.outcome.Replied?
    ensures hs[i].waiters[id].phase.outcome.reply.replyTo == id
  {
    RunKeeps(side, es, hs, i);
    assert WaiterOk(side, hs[i], id);
  }

  /** The node side's table holds exactly the calls under way that no reply was taken for. */
  lemma NodeTableExact(es: seq<Event>, hs: seq<Hop>, i: nat, id: Id)
    requires Run(NodeSide, es, hs) && i < |hs|
    ensures var h := hs[i];
      id in h.pend <==> id in h.waiters && !h.waiters[id].phase.Done? && !Answered(h, id)
  {
    RunKeeps(NodeSide, es, hs, i);
    if id in hs[i].waiters {
      assert WaiterOk(NodeSide, hs[i], id);
    }
  }

  /** The orchestrator side's table also keeps the calls whose write failed. */
  lemma OrchestratorTableExact(es: seq<Event>, hs: seq<Hop>, i: nat, id: Id)
    requires Run(OrchestratorSide, es, hs) && i < |hs|
    ensures var h := hs[i];
      id in h.pend <==>
      id in h.waiters && !Answered(h, id) && (h.waiters[id].phase.Done? ==> h.waiters[id].phase.outcome.WriteFailed?)
  {
    RunKeeps(OrchestratorSide, es, hs, i);
    if id in hs[i].waiters {
      assert WaiterOk(OrchestratorSide, hs[i], id);
    }
  }

  /** The leak in action: after a failed write the call is over and its entry is still there. */
  lemma OrchestratorLeaks(id: Id) returns (hs: seq<Hop>)
    requires id != ""
    ensures Run(OrchestratorSide, [Begin(id), WriteError(id)], hs)
    ensures In(hs[2], id, Done(WriteFailed)) && id in hs[2].pend
  {
    var g := Apply(OrchestratorSide, EMPTY, Begin(id));
    hs := [EMPTY, g, Apply(OrchestratorSide, g, WriteError(id))];
  }

  /** Once a call has returned, nothing that happens later changes its result. */
  lemma ReturnedForGood(side: Side, h: Hop, e: Event, id: Id)
    requires Can(h, e) && id in h.waiters && h.waiters[id].phase.Done?
    ensures id in Apply(side, h, e).waiters && Apply(side, h, e).waiters[id].phase == h.waiters[id].phase
  {
  }

  // ----- what a call returns is what happened to it -----

  /** A matched packet that finds its call waiting is what the call returns, unchanged. */
  lemma ReplyReturned(side: Side, h: Hop, m: Msg)
    requires Inv(side, h) && h.reader.Idle? && Matches(h, m) && In(h, m.replyTo, Waiting)
    ensures Can(h, Take(m)) && Can(Apply(side, h, Take(m)), Deliver)
    ensures var t := Apply(side, Apply(side, h, Take(m)), Deliver);
      Can(t, Receive(m.replyTo)) && In(Apply(side, t, Receive(m.replyTo)), m.replyTo, Done(Replied(m)))
  {
    assert WaiterOk(side, h, m.replyTo);
    assert ([] + [m])[0] == m;
  }

  ghost predicate Happened(es: seq<Event>, n: nat, e: Event)
    requires n <= |es|
  {
    exists j :: 0 <= j < n && es[j] == e
  }

  /** Every packet on its way to a call was taken for it, and every failure under way was one. */
  ghost predicate Explained(es: seq<Event>, n: nat, h: Hop)
    requires n <= |es|
  {
    && (h.reader.Delivering? ==> Happened(es, n, Take(h.reader.reply)))
    && forall id :: id in h.waiters ==> CallExplained(es, n, h.waiters[id], id)
  }

  ghost predicate CallExplained(es: seq<Event>, n: nat, w: Waiter, id: Id)
    requires n <= |es|
  {
    && (forall m :: m in w.box ==> Happened(es, n, Take(m)))
    && match w.phase
       case Failing => Happened(es, n, WriteError(id))
       case Expired => Happened(es, n, Expire(id))
       case Done(Replied(m)) => Happened(es, n, Take(m))
       case Done(WriteFailed) => Happened(es, n, WriteError(id))
       case Done(TimedOut) => Happened(es, n, Expire(id))
       case _ => true
  }

  lemma StepExplained(side: Side, es: seq<Event>, n: nat, h: Hop)
    requires n < |es| && Can(h, es[n]) && Explained(es, n, h)
    ensures Explained(es, n + 1, Apply(side, h, es[n]))
  {
    var g := Apply(side, h, es[n]);
    assert forall e :: Happened(es, n, e) ==> Happened(es, n + 1, e);
    assert Happened(es, n + 1, es[n]);
    forall id | id in g.waiters ensures CallExplained(es, n + 1, g.waiters[id], id) {
      assert id in h.waiters ==> CallExplained(es, n, h.waiters[id], id);
    }
  }

  lemma {:induction false} RunExplained(side: Side, es: seq<Event>, hs: seq<Hop>, n: nat)
    requires Run(side, es, hs) && n <= |es|
    ensures Explained(es, n, hs[n])
  {
    if n != 0 {
      hide Explained, Apply, Can;
      RunExplained(side, es, hs, n - 1);
      StepExplained(side, es, n - 1, hs[n - 1]);
    } else {
      EmptyExplained(es);
    }
  }

  lemma EmptyExplained(es: seq<Event>)
    ensures Explained(es, 0, EMPTY)
  {
  }

  /** In every run: a returned packet was taken by the reader, a write error follows a failed write, a timeout an expiry. */
  lemma OutcomeTrue(side: Side, es: seq<Event>, hs: seq<Hop>, n: nat, id: Id)
    requires Run(side, es, hs) && n <= |es| && id in hs[n].waiters && hs[n].waiters[id].phase.Done?
    ensures match hs[n].waiters[id].phase.outcome
            case Replied(m) => m.replyTo == id && Happened(es, n, Take(m))
            case WriteFailed => Happened(es, n, WriteError(id))
            case TimedOut => Happened(es, n, Expire(id))
  {
    hide Happened;
    RunExplained(side, es, hs, n);
    assert CallExplained(es, n, hs[n].waiters[id], id);
    if hs[n].waiters[id].phase.outcome.Replied? {
      OwnReply(side, es, hs, n, id);
    }
  }
}

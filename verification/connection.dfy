/** The pending table as the two connection types keep it: a map from request ids to one-slot channels, changed in place. */
module Connection {
  import opened Messages
  import opened Correlation

  /** A channel with a buffer of one packet. */
  class Chan {
    var buf: seq<Msg>

    constructor ()
      ensures buf == []
    {
      buf := [];
    }

    /** A send that finds room does not block. */
    method Send(m: Msg)
      requires |buf| < 1
      modifies this
      ensures buf == old(buf) + [m]
    {
      buf := buf + [m];
    }

    method Receive() returns (m: Msg)
      requires buf != []
      modifies this
      ensures m == old(buf)[0] && buf == old(buf)[1..]
    {
      m := buf[0];
      buf := buf[1..];
    }
  }

  /** The effect of an undisturbed `resolveReply`. */
  function Resolved(h: Hop, m: Msg): Hop {
    if Matches(h, m) && m.replyTo in h.waiters then
      var w := h.waiters[m.replyTo];
      h.(pend := h.pend - {m.replyTo}, waiters := h.waiters[m.replyTo := w.(box := [m], sends := w.sends + 1)])
    else h
  }

  /** It is the two atomic steps in a row, and the waiter's channel is empty when the packet is sent. */
  lemma ResolvedIsTakeDeliver(side: Side, h: Hop, m: Msg)
    requires Inv(side, h) && h.reader.Idle? && Matches(h, m)
    ensures m.replyTo in h.waiters && h.waiters[m.replyTo].box == []
    ensures Can(h, Take(m)) && Can(Apply(side, h, Take(m)), Deliver)
    ensures Resolved(h, m) == Apply(side, Apply(side, h, Take(m)), Deliver)
    ensures Inv(side, Resolved(h, m))
  {
    assert WaiterOk(side, h, m.replyTo);
    assert [] + [m] == [m];
    StepKeeps(side, h, Take(m));
    StepKeeps(side, Apply(side, h, Take(m)), Deliver);
  }

  /** The fields `pend` of masterConn and nodeConn with the critical sections of `sendRequest` and `resolveReply`. */
  class Conn {
    const side: Side
    var pend: map<Id, Chan>
    ghost var hop: Hop
    ghost var chans: map<Id, Chan>

    ghost predicate Valid()
      reads this, chans.Values
    {
      && Inv(side, hop) && hop.reader.Idle?
      && pend.Keys == hop.pend && chans.Keys == hop.waiters.Keys
      && (forall id :: id in pend ==> id in chans && pend[id] == chans[id])
      && (forall id :: id in chans ==> chans[id].buf == hop.waiters[id].box)
      && (forall i, j :: i in chans && j in chans && i != j ==> chans[i] != chans[j])
    }

    constructor (side: Side)
      ensures Valid() && this.side == side && hop == EMPTY && chans == map[]
    {
      this.side := side;
      pend, hop, chans := map[], EMPTY, map[];
    }

    /** Makes the channel and enters it, before anything is written. */
    method Register(id: Id) returns (ch: Chan)
      requires Valid() && Can(hop, Begin(id))
      modifies this
      ensures Valid() && fresh(ch) && chans == old(chans)[id := ch]
      ensures hop == Apply(side, old(hop), Begin(id))
    {
      ch := new Chan();
      StepKeeps(side, hop, Begin(id));
      pend, chans := pend[id := ch], chans[id := ch];
      hop := Apply(side, hop, Begin(id));
    }

    /** Deletes the entry after a timeout, or on the node side after a failed write. */
    method Remove(id: Id)
      requires Valid() && Can(hop, Forget(id))
      modifies this
      ensures Valid() && chans == old(chans)
      ensures hop == Apply(side, old(hop), Forget(id))
      ensures pend == old(pend) - {id}
    {
      StepKeeps(side, hop, Forget(id));
      pend := pend - {id};
      hop := Apply(side, hop, Forget(id));
    }

    /** Steps of a waiter that touch neither table nor channel. */
    ghost method Advance(e: Event)
      requires Valid() && Can(hop, e) && (e.Wrote? || e.WriteError? || e.Expire?)
      modifies `hop
      ensures Valid()
      ensures hop == Apply(side, old(hop), e)
    {
      hide Inv;
      StepKeeps(side, hop, e);
      hop := Apply(side, hop, e);
    }

    /** Matches a packet to its waiter; the send needs room in the channel, which the invariant gives. */
    method ResolveReply(reply: Msg) returns (ok: bool)
      requires Valid()
      modifies this, chans.Values
      ensures Valid() && chans == old(chans)
      ensures ok == Matches(old(hop), reply)
      ensures hop == Resolved(old(hop), reply)
    {
      hide Inv, Apply, Can;
      if reply.replyTo == "" {
        return false;
      }
      if reply.replyTo !in pend {
        return false;
      }
      ResolvedIsTakeDeliver(side, hop, reply);
      var ch := pend[reply.replyTo];
      pend := pend - {reply.replyTo};
      ch.Send(reply);
      hop := Resolved(hop, reply);
      return true;
    }

    /** The waiter's select takes a packet from the channel that `Register` gave it. */
    method Await(id: Id, ch: Chan) returns (reply: Msg)
      requires Valid() && Can(hop, Receive(id)) && id in chans && chans[id] == ch
      modifies `hop, ch
      ensures Valid() && hop == Apply(side, old(hop), Receive(id))
      ensures hop.waiters[id].phase == Done(Replied(reply)) && reply.replyTo == id
    {
      StepKeeps(side, hop, Receive(id));
      assert WaiterOk(side, hop, id);
      reply := ch.Receive();
      hop := Apply(side, hop, Receive(id));
    }
  }
}

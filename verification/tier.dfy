/** One tier of the relay: any number of connections, each a FIFO stream in both directions with the sender's request table. */
module Tier {
  import opened Messages
  import opened Correlation

  /** A request before its line is written, on the stream, and after the peer read it. */
  datatype Stage = Pending | Flying | Taken

  /** `origin` is the upper-tier request this one serves, or empty; `node` is the id the peer connected under. */
  datatype Req = Req(link: nat, body: Body, origin: Id, node: Id, stage: Stage)

  datatype Link = Link(hop: Hop, down: seq<Msg>, up: seq<Msg>)

  /** `reqs` keeps every request ever made; ids are never reused. */
  datatype Tier = Tier(side: Side, links: map<nat, Link>, reqs: map<Id, Req>)

  // ----- steps -----

  function AddLink(t: Tier, l: nat): Tier {
    t.(links := t.links[l := Link(EMPTY, [], [])])
  }

  predicate CanBegin(t: Tier, l: nat, id: Id) {
    l in t.links && id != "" && id !in t.reqs && id !in t.links[l].hop.waiters
  }

  function BeginReq(t: Tier, l: nat, id: Id, r: Req): Tier
    requires CanBegin(t, l, id)
  {
    var k := t.links[l];
    t.(links := t.links[l := k.(hop := Apply(t.side, k.hop, Begin(id)))], reqs := t.reqs[id := r])
  }

  predicate CanWrite(t: Tier, l: nat, id: Id) {
    l in t.links && id in t.reqs && Can(t.links[l].hop, Wrote(id))
  }

  function Write(t: Tier, l: nat, id: Id): Tier
    requires CanWrite(t, l, id)
  {
    var k := t.links[l];
    var m := Msg(id, "", t.reqs[id].body);
    t.(links := t.links[l := k.(hop := Apply(t.side, k.hop, Wrote(id)), down := k.down + [m])],
       reqs := t.reqs[id := t.reqs[id].(stage := Flying)])
  }

  /** Steps of waiters and of the reader's channel send. */
  predicate CanHop(t: Tier, l: nat, e: Event) {
    l in t.links && Can(t.links[l].hop, e) && !e.Begin? && !e.Wrote? && !e.Take?
  }

  function HopStep(t: Tier, l: nat, e: Event): Tier
    requires CanHop(t, l, e)
  {
    var k := t.links[l];
    t.(links := t.links[l := k.(hop := Apply(t.side, k.hop, e))])
  }

  predicate CanPopDown(t: Tier, l: nat) { l in t.links && t.links[l].down != [] }

  /** The peer reads the next line. */
  function PopDown(t: Tier, l: nat): Tier
    requires CanPopDown(t, l)
  {
    var k := t.links[l];
    var id := k.down[0].id;
    var u := t.(links := t.links[l := k.(down := k.down[1..])]);
    if id in t.reqs then u.(reqs := t.reqs[id := t.reqs[id].(stage := Taken)]) else u
  }

  function PushUp(t: Tier, l: nat, m: Msg): Tier
    requires l in t.links
  {
    var k := t.links[l];
    t.(links := t.links[l := k.(up := k.up + [m])])
  }

  predicate CanPopUp(t: Tier, l: nat) { l in t.links && t.links[l].up != [] && t.links[l].hop.reader.Idle? }

  /** The reader takes the next line; one that matches no waiter changes nothing. */
  function PopUp(t: Tier, l: nat): Tier
    requires CanPopUp(t, l)
  {
    var k := t.links[l];
    t.(links := t.links[l := k.(hop := Apply(t.side, k.hop, Take(k.up[0])), up := k.up[1..])])
  }

  /** A packet without an id, which expects no reply; masters send none to nodes. */
  function PushDown(t: Tier, l: nat, m: Msg): Tier
    requires l in t.links && m.id == ""
  {
    var k := t.links[l];
    t.(links := t.links[l := k.(down := k.down + [m])])
  }

  /** A broken connection loses the unread end of its streams. */
  function Lose(t: Tier, l: nat, d: nat, u: nat): Tier
    requires l in t.links && d <= |t.links[l].down| && u <= |t.links[l].up|
  {
    var k := t.links[l];
    t.(links := t.links[l := k.(down := k.down[..d], up := k.up[..u])])
  }

  // ----- what the steps keep -----

  ghost predicate MsgOk(t: Tier, l: nat, m: Msg) {
    if m.id == "" then t.side.OrchestratorSide?
    else m.id in t.reqs && t.reqs[m.id].link == l && t.reqs[m.id].body == m.body && t.reqs[m.id].stage == Flying
  }

  ghost predicate DownOk(t: Tier, l: nat)
    requires l in t.links
  {
    var d := t.links[l].down;
    && (forall i :: 0 <= i < |d| ==> MsgOk(t, l, d[i]))
    && (forall i, j :: 0 <= i < j < |d| && d[i].id != "" ==> d[i].id != d[j].id)
  }

  ghost predicate WaitersOk(t: Tier, l: nat)
    requires l in t.links
  {
    var w := t.links[l].hop.waiters;
    forall id :: id in w ==>
      && id in t.reqs && t.reqs[id].link == l
      && (w[id].phase.Registered? ==> t.reqs[id].stage == Pending)
  }

  ghost predicate LinkOk(t: Tier, l: nat)
    requires l in t.links
  {
    Inv(t.side, t.links[l].hop) && DownOk(t, l) && WaitersOk(t, l)
  }

  ghost predicate Ok(t: Tier) {
    && "" !in t.reqs
    && forall l :: l in t.links ==> LinkOk(t, l)
  }

  ghost predicate HopReplies(h: Hop, good: Msg -> bool) {
    && (h.reader.Delivering? ==> good(h.reader.reply))
    && (forall id :: id in h.waiters ==>
         && (forall m :: m in h.waiters[id].box ==> good(m))
         && (forall m :: h.waiters[id].phase == Done(Replied(m)) ==> good(m)))
  }

  /** Every reply on its way up, in a channel or returned to its waiter satisfies `good`. */
  ghost predicate Replies(k: Link, good: Msg -> bool) {
    (forall i :: 0 <= i < |k.up| ==> good(k.up[i])) && HopReplies(k.hop, good)
  }

  ghost predicate AllReplies(t: Tier, good: Msg -> bool) {
    forall l :: l in t.links ==> Replies(t.links[l], good)
  }

  lemma HopRepliesStep(side: Side, h: Hop, e: Event, good: Msg -> bool)
    requires HopReplies(h, good) && Can(h, e) && (e.Take? ==> good(e.reply))
    ensures HopReplies(Apply(side, h, e), good)
  {
  }

  lemma WaitersStep(side: Side, h: Hop, e: Event, id: Id)
    requires Can(h, e) && id in Apply(side, h, e).waiters
    ensures id !in h.waiters ==> e == Begin(id)
    ensures Apply(side, h, e).waiters[id].phase.Registered? && id in h.waiters ==>
              h.waiters[id].phase.Registered? && e != Wrote(id)
  {
  }

  /** A step at one connection leaves the others in order when it touches no request of theirs. */
  lemma OneLink(t: Tier, u: Tier, l: nat)
    requires Ok(t) && u.side == t.side && "" !in u.reqs
    requires l in u.links && (forall k :: k in u.links && k != l ==> k in t.links && u.links[k] == t.links[k])
    requires forall id :: id in t.reqs && t.reqs[id].link != l ==> id in u.reqs && u.reqs[id] == t.reqs[id]
    requires LinkOk(u, l)
    ensures Ok(u)
  {
    forall k | k in u.links ensures LinkOk(u, k) {
      if k != l {
        hide Inv;
        assert LinkOk(t, k);
        assert DownOk(u, k) by {
          forall i | 0 <= i < |u.links[k].down| ensures MsgOk(u, k, u.links[k].down[i]) {
            assert MsgOk(t, k, t.links[k].down[i]);
          }
        }
      }
    }
  }

  lemma OneReplies(t: Tier, u: Tier, l: nat, good: Msg -> bool)
    requires AllReplies(t, good)
    requires l in u.links && (forall k :: k in u.links && k != l ==> k in t.links && u.links[k] == t.links[k])
    requires Replies(u.links[l], good)
    ensures AllReplies(u, good)
  {
  }

  lemma AddLinkKeeps(t: Tier, l: nat, good: Msg -> bool)
    requires Ok(t) && AllReplies(t, good)
    requires l !in t.links && forall id :: id in t.reqs ==> t.reqs[id].link != l
    ensures Ok(AddLink(t, l)) && AllReplies(AddLink(t, l), good)
  {
    EmptyInv(t.side);
    OneLink(t, AddLink(t, l), l);
  }

  /** The part of a step that concerns the table and its waiters. */
  lemma HopPart(t: Tier, u: Tier, l: nat, e: Event, good: Msg -> bool)
    requires Ok(t) && AllReplies(t, good) && l in t.links && Can(t.links[l].hop, e)
    requires l in u.links && u.side == t.side && u.links[l].hop == Apply(t.side, t.links[l].hop, e)
    requires e.Take? ==> good(e.reply)
    requires forall id :: id in t.reqs && (e.Wrote? ==> id != e.id) ==> id in u.reqs && u.reqs[id] == t.reqs[id]
    requires forall id :: id in t.reqs ==> id in u.reqs && u.reqs[id].link == t.reqs[id].link
    requires e.Begin? ==> e.id in u.reqs && u.reqs[e.id].link == l && u.reqs[e.id].stage == Pending
    ensures Inv(u.side, u.links[l].hop) && WaitersOk(u, l) && HopReplies(u.links[l].hop, good)
  {
    hide Inv, Apply, Can;
    assert LinkOk(t, l) && Replies(t.links[l], good);
    StepKeeps(t.side, t.links[l].hop, e);
    HopRepliesStep(t.side, t.links[l].hop, e, good);
    forall id | id in u.links[l].hop.waiters
      ensures id in u.reqs && u.reqs[id].link == l
      ensures u.links[l].hop.waiters[id].phase.Registered? ==> u.reqs[id].stage == Pending
    {
      WaitersStep(t.side, t.links[l].hop, e, id);
    }
  }

  /** The part of a step that concerns the stream to the peer when it only shortens or keeps it. */
  lemma SameDown(t: Tier, u: Tier, l: nat, n: nat)
    requires Ok(t) && l in t.links && l in u.links && n <= |t.links[l].down| && u.side == t.side
    requires u.links[l].down == t.links[l].down[..n]
    requires forall id :: id in t.reqs ==> id in u.reqs && u.reqs[id] == t.reqs[id]
    ensures DownOk(u, l)
  {
    hide Inv;
    assert LinkOk(t, l);
    forall i | 0 <= i < n ensures MsgOk(u, l, u.links[l].down[i]) {
      assert MsgOk(t, l, t.links[l].down[i]);
    }
  }

  lemma BeginKeeps(t: Tier, l: nat, id: Id, r: Req, good: Msg -> bool)
    requires Ok(t) && AllReplies(t, good) && CanBegin(t, l, id) && r.link == l && r.stage == Pending
    ensures Ok(BeginReq(t, l, id, r)) && AllReplies(BeginReq(t, l, id, r), good)
  {
    hide Inv, Apply;
    assert LinkOk(t, l) && Replies(t.links[l], good);
    var u := BeginReq(t, l, id, r);
    HopPart(t, u, l, Begin(id), good);
    assert t.links[l].down[..|t.links[l].down|] == t.links[l].down;
    SameDown(t, u, l, |t.links[l].down|);
    OneLink(t, u, l);
    OneReplies(t, u, l, good);
  }

  lemma WriteKeeps(t: Tier, l: nat, id: Id, good: Msg -> bool)
    requires Ok(t) && AllReplies(t, good) && CanWrite(t, l, id)
    ensures Ok(Write(t, l, id)) && AllReplies(Write(t, l, id), good)
    ensures t.reqs[id].stage == Pending && t.reqs[id].link == l
  {
    hide Inv, Apply;
    assert LinkOk(t, l) && Replies(t.links[l], good);
    var u := Write(t, l, id);
    HopPart(t, u, l, Wrote(id), good);
    WriteDown(t, u, l, id);
    OneLink(t, u, l);
    OneReplies(t, u, l, good);
  }

  lemma WriteDown(t: Tier, u: Tier, l: nat, id: Id)
    requires l in t.links && l in u.links && DownOk(t, l) && id in t.reqs && id != "" && u.side == t.side
    requires t.reqs[id].stage == Pending && t.reqs[id].link == l
    requires u.reqs == t.reqs[id := t.reqs[id].(stage := Flying)]
    requires u.links[l].down == t.links[l].down + [Msg(id, "", t.reqs[id].body)]
    ensures DownOk(u, l)
  {
    var d, e := t.links[l].down, u.links[l].down;
    forall i | 0 <= i < |e| ensures MsgOk(u, l, e[i]) {
      if i < |d| {
        assert MsgOk(t, l, d[i]);
      }
    }
    forall i, j | 0 <= i < j < |e| && e[i].id != "" ensures e[i].id != e[j].id {
      assert MsgOk(t, l, d[i]);
    }
  }

  lemma HopStepKeeps(t: Tier, l: nat, e: Event, good: Msg -> bool)
    requires Ok(t) && AllReplies(t, good) && CanHop(t, l, e)
    ensures Ok(HopStep(t, l, e)) && AllReplies(HopStep(t, l, e), good)
  {
    hide Inv, Apply, Can;
    assert Replies(t.links[l], good);
    var u := HopStep(t, l, e);
    HopPart(t, u, l, e, good);
    assert t.links[l].down[..|t.links[l].down|] == t.links[l].down;
    SameDown(t, u, l, |t.links[l].down|);
    OneLink(t, u, l);
    OneReplies(t, u, l, good);
  }

  lemma PopUpKeeps(t: Tier, l: nat, good: Msg -> bool)
    requires Ok(t) && AllReplies(t, good) && CanPopUp(t, l)
    ensures Ok(PopUp(t, l)) && AllReplies(PopUp(t, l), good)
  {
    hide Inv, Apply;
    assert Replies(t.links[l], good);
    var u := PopUp(t, l);
    HopPart(t, u, l, Take(t.links[l].up[0]), good);
    assert t.links[l].down[..|t.links[l].down|] == t.links[l].down;
    SameDown(t, u, l, |t.links[l].down|);
    OneLink(t, u, l);
    OneReplies(t, u, l, good);
  }

  lemma PopDownKeeps(t: Tier, l: nat, good: Msg -> bool)
    requires Ok(t) && AllReplies(t, good) && CanPopDown(t, l)
    ensures Ok(PopDown(t, l)) && AllReplies(PopDown(t, l), good)
    ensures MsgOk(t, l, t.links[l].down[0])
  {
    hide Inv;
    assert LinkOk(t, l) && Replies(t.links[l], good);
    var u := PopDown(t, l);
    PopDownRest(t, u, l);
    assert WaitersOk(u, l) by {
      assert MsgOk(t, l, t.links[l].down[0]);
    }
    OneLink(t, u, l);
    OneReplies(t, u, l, good);
  }

  lemma PopDownRest(t: Tier, u: Tier, l: nat)
    requires CanPopDown(t, l) && DownOk(t, l) && "" !in t.reqs && u == PopDown(t, l)
    ensures DownOk(u, l)
  {
    var d := t.links[l].down;
    assert MsgOk(t, l, d[0]);
    forall i | 1 <= i < |d| ensures MsgOk(u, l, d[i]) {
      assert MsgOk(t, l, d[i]);
    }
  }

  lemma PushUpKeeps(t: Tier, l: nat, m: Msg, good: Msg -> bool)
    requires Ok(t) && AllReplies(t, good) && l in t.links && good(m)
    ensures Ok(PushUp(t, l, m)) && AllReplies(PushUp(t, l, m), good)
  {
    hide Inv;
    assert LinkOk(t, l) && Replies(t.links[l], good);
    var u := PushUp(t, l, m);
    assert t.links[l].down[..|t.links[l].down|] == t.links[l].down;
    SameDown(t, u, l, |t.links[l].down|);
    OneLink(t, u, l);
    OneReplies(t, u, l, good);
  }

  lemma PushDownKeeps(t: Tier, l: nat, m: Msg, good: Msg -> bool)
    requires Ok(t) && AllReplies(t, good) && l in t.links && m.id == "" && t.side.OrchestratorSide?
    ensures Ok(PushDown(t, l, m)) && AllReplies(PushDown(t, l, m), good)
  {
    hide Inv;
    assert LinkOk(t, l) && Replies(t.links[l], good);
    var u := PushDown(t, l, m);
    var d := t.links[l].down;
    forall i | 0 <= i < |d| ensures MsgOk(u, l, d[i]) {
      assert MsgOk(t, l, d[i]);
    }
    OneLink(t, u, l);
    OneReplies(t, u, l, good);
  }

  lemma LoseKeeps(t: Tier, l: nat, d: nat, n: nat, good: Msg -> bool)
    requires Ok(t) && AllReplies(t, good) && l in t.links && d <= |t.links[l].down| && n <= |t.links[l].up|
    ensures Ok(Lose(t, l, d, n)) && AllReplies(Lose(t, l, d, n), good)
  {
    hide Inv;
    assert LinkOk(t, l) && Replies(t.links[l], good);
    var u := Lose(t, l, d, n);
    SameDown(t, u, l, d);
    OneLink(t, u, l);
    OneReplies(t, u, l, good);
  }

  /** A reply stays good under every weaker notion of good. */
  lemma RepliesWeaken(t: Tier, good: Msg -> bool, good': Msg -> bool)
    requires AllReplies(t, good) && forall m :: good(m) ==> good'(m)
    ensures AllReplies(t, good')
  {
  }

  /** What a waiter got is a good reply to its own request. */
  lemma WaiterGot(t: Tier, l: nat, id: Id, m: Msg, good: Msg -> bool)
    requires Ok(t) && AllReplies(t, good) && l in t.links && In(t.links[l].hop, id, Done(Replied(m)))
    ensures good(m) && m.replyTo == id && id in t.reqs && t.reqs[id].link == l
  {
    assert LinkOk(t, l);
    assert WaiterOk(t.side, t.links[l].hop, id);
    assert Replies(t.links[l], good);
  }
}

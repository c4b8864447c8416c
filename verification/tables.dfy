/** The tables of live connections, of nodes on a master and of masters on the orchestrator, which work alike. */
module Tables {
  import opened Registry
  import opened Sequences
  import opened Wrappers

  type Id = string
  type Handler = nat

  /** A handler enters its connection after authentication and takes its id out when it ends. */
  datatype Event = Register(h: Handler, id: Id) | Unregister(h: Handler, id: Id)

  // ----- the table itself -----

  /** The table after these events. */
  function TableOf(events: seq<Event>): map<Id, Handler> {
    if events == [] then map[]
    else
      var t := TableOf(events[..|events| - 1]);
      match events[|events| - 1]
      case Register(h, id) => t[id := h]
      case Unregister(_, id) => t - {id}
  }

  class Table {
    var conns: map<Id, Handler>
    ghost var events: seq<Event>

    ghost predicate Valid()
      reads this
    {
      conns == TableOf(events) && "" !in conns
    }

    constructor ()
      ensures Valid() && events == []
    {
      conns, events := map[], [];
    }

    method Enter(id: Id, h: Handler) returns (ok: bool)
      requires Valid()
      modifies this
      ensures Valid() && (ok <==> id != "")
      ensures events == if ok then old(events) + [Register(h, id)] else old(events)
    {
      if id == "" {
        return false;
      }
      conns, events := conns[id := h], events + [Register(h, id)];
      return true;
    }

    method Leave(id: Id, ghost h: Handler)
      requires Valid()
      modifies this
      ensures Valid()
      ensures events == if id == "" then old(events) else old(events) + [Unregister(h, id)]
    {
      if id == "" {
        return;
      }
      conns, events := conns - {id}, events + [Unregister(h, id)];
    }

    method Lookup(id: Id) returns (h: Option<Handler>)
      requires Valid()
      ensures h == LastAbout(events, id)
    {
      LastDecides(events, id);
      return if id in conns then Some(conns[id]) else None;
    }

    method ListConnected() returns (ids: seq<Id>)
      requires Valid()
      ensures forall i, j :: 0 <= i < j < |ids| ==> ids[i] != ids[j]
      ensures forall id :: id in ids <==> LastAbout(events, id).Some?
    {
      ids := Range(conns.Keys);
      ListOfSet(ids, conns.Keys);
      forall id ensures id in conns <==> LastAbout(events, id).Some? {
        LastDecides(events, id);
      }
    }
  }

  /** The handler that the last event about an id entered, if it did not take the id out. */
  function LastAbout(events: seq<Event>, id: Id): Option<Handler> {
    if events == [] then None
    else
      var e := events[|events| - 1];
      if e.id != id then LastAbout(events[..|events| - 1], id)
      else if e.Register? then Some(e.h) else None
  }

  lemma {:induction false} LastDecides(events: seq<Event>, id: Id)
    ensures LastAbout(events, id) == if id in TableOf(events) then Some(TableOf(events)[id]) else None
  {
    if events != [] {
      LastDecides(events[..|events| - 1], id);
    }
  }

  // ----- the handlers -----

  /** The handlers that entered and have not ended, each with its id. */
  function Running(events: seq<Event>): map<Handler, Id> {
    if events == [] then map[]
    else
      var r := Running(events[..|events| - 1]);
      match events[|events| - 1]
      case Register(h, id) => r[h := id]
      case Unregister(h, _) => r - {h}
  }

  /** Each handler enters once, and ends at most once, with the id it entered. */
  ghost predicate Lifecycle(events: seq<Event>) {
    forall i :: 0 <= i < |events| ==>
      match events[i]
      case Register(h, _) => forall j :: 0 <= j < i ==> events[j].h != h
      case Unregister(h, id) => h in Running(events[..i]) && Running(events[..i])[h] == id
  }

  lemma LifecyclePrefix(events: seq<Event>, n: nat)
    requires Lifecycle(events) && n <= |events|
    ensures Lifecycle(events[..n])
  {
    forall i | 0 <= i < n
      ensures match events[..n][i]
              case Register(h, _) => forall j :: 0 <= j < i ==> events[..n][j].h != h
              case Unregister(h, id) => h in Running(events[..n][..i]) && Running(events[..n][..i])[h] == id
    {
      assert events[..n][..i] == events[..i];
    }
  }

  lemma {:induction false} RunningEntered(events: seq<Event>, h: Handler)
    ensures h in Running(events) ==> exists i :: 0 <= i < |events| && events[i].h == h
  {
    if events != [] {
      RunningEntered(events[..|events| - 1], h);
    }
  }

  /** An entry of the table always belongs to a handler that has not ended. */
  lemma {:induction false} EntryRuns(events: seq<Event>, id: Id)
    requires Lifecycle(events)
    ensures var t := TableOf(events);
      id in t ==> t[id] in Running(events) && Running(events)[t[id]] == id
  {
    if events != [] {
      var n := |events| - 1;
      LifecyclePrefix(events, n);
      EntryRuns(events[..n], id);
      RunningEntered(events[..n], events[n].h);
    }
  }

  ghost predicate SharedId(events: seq<Event>, h: Handler, k: Handler) {
    var r := Running(events); h != k && h in r && k in r && r[h] == r[k]
  }

  /** No two running handlers ever had the same id. */
  ghost predicate NeverOverlaps(events: seq<Event>) {
    forall n, h, k :: 0 <= n <= |events| ==> !SharedId(events[..n], h, k)
  }

  /** Every running handler is in the table under its id. */
  ghost predicate AllReachable(events: seq<Event>) {
    forall h :: h in Running(events) ==> Running(events)[h] in TableOf(events) && TableOf(events)[Running(events)[h]] == h
  }

  /** Without overlaps the table is exactly the running handlers. */
  lemma {:induction false} TableExact(events: seq<Event>)
    requires Lifecycle(events) && NeverOverlaps(events)
    ensures AllReachable(events)
    ensures TableOf(events).Keys == Running(events).Values
  {
    if events != [] {
      var n := |events| - 1;
      LifecyclePrefix(events, n);
      forall m, h, k | 0 <= m <= n ensures !SharedId(events[..n][..m], h, k) {
        assert events[..n][..m] == events[..m];
      }
      TableExact(events[..n]);
      assert events[..|events|] == events;
      assert forall h, k :: !SharedId(events, h, k) && !SharedId(events[..n], h, k);
      Reach(events);
    }
    forall id | id in TableOf(events) ensures id in Running(events).Values {
      EntryRuns(events, id);
    }
  }

  lemma Reach(events: seq<Event>)
    requires events != [] && Lifecycle(events) && AllReachable(events[..|events| - 1])
    requires forall h, k :: !SharedId(events, h, k) && !SharedId(events[..|events| - 1], h, k)
    ensures AllReachable(events)
  {
    var n := |events| - 1;
    forall h | h in Running(events)
      ensures Running(events)[h] in TableOf(events) && TableOf(events)[Running(events)[h]] == h
    {
      assert !SharedId(events, h, events[n].h) && !SharedId(events[..n], h, events[n].h);
    }
  }

  /** Nobody is ever lost from the table exactly when connections with one id never overlap. */
  lemma NeverLostIff(events: seq<Event>)
    requires Lifecycle(events)
    ensures NeverOverlaps(events) <==> forall n :: 0 <= n <= |events| ==> AllReachable(events[..n])
  {
    if NeverOverlaps(events) {
      forall n | 0 <= n <= |events| ensures AllReachable(events[..n]) {
        LifecyclePrefix(events, n);
        forall m, h, k | 0 <= m <= n ensures !SharedId(events[..n][..m], h, k) {
          assert events[..n][..m] == events[..m];
        }
        TableExact(events[..n]);
      }
    }
  }

  /** After any overlap, the end of either of the two handlers leaves the other one running and unreachable. */
  lemma OverlapLosesOther(events: seq<Event>, h: Handler, k: Handler) returns (later: seq<Event>)
    requires Lifecycle(events) && SharedId(events, h, k)
    ensures later == events + [Unregister(h, Running(events)[h])] && Lifecycle(later)
    ensures k in Running(later) && Running(later)[k] !in TableOf(later) && !AllReachable(later)
  {
    var id := Running(events)[h];
    later := events + [Unregister(h, id)];
    assert later[..|events|] == events;
    forall i | 0 <= i < |later|
      ensures match later[i]
              case Register(g, _) => forall j :: 0 <= j < i ==> later[j].h != g
              case Unregister(g, d) => g in Running(later[..i]) && Running(later[..i])[g] == d
    {
      assert later[..i] == events[..i];
    }
  }
}

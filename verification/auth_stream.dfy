/**
 * One orchestrator connection of a master after authentication: registrations and heartbeats with their
 * auth.ok or error answers, interleaved with commands and their replies on the same two streams.
 */
module AuthStream {
  import C = Correlation
  import opened Messages
  import opened Sequences
  import opened Wrappers

  /** Towards the master. `re` is the number of the request that an answer belongs to; a stray error belongs to none. */
  datatype Down = Command(id: Id) | Answer(re: Option<nat>, ok: bool)

  /** Towards the orchestrator: the i-th register or heartbeat, or the reply to a command. */
  datatype Up = Request(i: nat) | Reply(to: Id)

  /** The master's main loop: between requests, waiting for an answer, or returned with an error. */
  datatype Main = Idle | Waiting | Closed

  /** The master's reader goroutine: reading, blocked on handing an answer over, or serving a command. */
  datatype Reader = Reading | Handing(re: Option<nat>, ok: bool) | Busy(id: Id)

  datatype State = State(
    hop: C.Hop,                 // the orchestrator's calls on this connection and their table
    down: seq<Down>, up: seq<Up>,
    main: Main, reader: Reader,
    sent: nat,                  // requests written so far
    taken: seq<Option<nat>>     // answers the main loop took, in order
  )

  const INIT := State(C.EMPTY, [], [], Idle, Reading, 0, [])

  datatype Action =
    | Table(e: C.Event)                  // a step of a call, or the channel send, that touches neither stream
    | WriteCommand(id: Id) | SendNoWait
    | Receive(ok: bool)                  // the orchestrator reads a line; `ok` tells whether it accepts an update
    | Ask                                // the main loop writes a register or heartbeat
    | Read | Serve(replies: bool)        // the master's reader
    | Hand                               // the answer changes hands

  predicate Can(s: State, a: Action) {
    match a
    case Table(e) => C.Can(s.hop, e) && !e.Wrote? && !e.Take?
    case WriteCommand(id) => C.Can(s.hop, C.Wrote(id))
    case SendNoWait => true
    case Receive(_) => s.up != [] && s.hop.reader.Idle?
    case Ask => s.main.Idle?
    case Read => s.reader.Reading? && s.down != []
    case Serve(_) => s.reader.Busy?
    case Hand => s.reader.Handing? && s.main.Waiting?
  }

  function Step(h: C.Hop, e: C.Event): C.Hop
    requires C.Can(h, e)
  {
    C.Apply(C.OrchestratorSide, h, e)
  }

  /** A reply as the table sees it. */
  function ReplyMsg(to: Id): Msg { Msg("", to, Other) }

  function Next(s: State, a: Action): State
    requires Can(s, a)
  {
    match a
    case Table(e) => s.(hop := Step(s.hop, e))
    case WriteCommand(id) => s.(hop := Step(s.hop, C.Wrote(id)), down := s.down + [Command(id)])
    case SendNoWait => s.(down := s.down + [Command("")])
    case Receive(ok) =>
      var u := s.(up := s.up[1..]);
      (match s.up[0]
       case Request(i) => u.(down := s.down + [Answer(Some(i), ok)])
       case Reply(to) =>
         if C.Matches(s.hop, ReplyMsg(to)) then u.(hop := Step(s.hop, C.Take(ReplyMsg(to))))
         else u.(down := s.down + [Answer(None, false)]))  // unknown message type
    case Ask => s.(up := s.up + [Request(s.sent)], sent := s.sent + 1, main := Waiting)
    case Read =>
      s.(down := s.down[1..],
         reader := match s.down[0] case Command(id) => Busy(id) case Answer(re, ok) => Handing(re, ok))
    case Serve(replies) =>
      s.(reader := Reading, up := if replies then s.up + [Reply(s.reader.id)] else s.up)
    case Hand =>
      s.(reader := Reading, taken := s.taken + [s.reader.re], main := if s.reader.ok then Idle else Closed)
  }

  ghost predicate Run(actions: seq<Action>, states: seq<State>) {
    && |states| == |actions| + 1
    && states[0] == INIT
    && forall i :: 0 <= i < |actions| ==> Can(states[i], actions[i]) && states[i + 1] == Next(states[i], actions[i])
  }

  // ----- what is under way, in order -----

  function NumOf(x: Option<nat>): seq<nat> { if x.Some? then [x.value] else [] }
  function AnswerOf(x: Down): seq<nat> { if x.Answer? then NumOf(x.re) else [] }
  function RequestOf(x: Up): seq<nat> { if x.Request? then [x.i] else [] }
  function CommandOf(x: Down): seq<Id> { if x.Command? then [x.id] else [] }
  function ReplyOf(x: Up): seq<Id> { if x.Reply? then [x.to] else [] }

  /** The numbered answers taken, in hand and under way, followed by the requests under way. */
  function Pipeline(s: State): seq<nat> {
    FlatMap(s.taken, NumOf) + (if s.reader.Handing? then NumOf(s.reader.re) else [])
    + FlatMap(s.down, AnswerOf) + FlatMap(s.up, RequestOf)
  }

  /** The commands that the orchestrator has yet to see a reply for, oldest first. */
  function Flight(s: State): seq<Id> {
    FlatMap(s.up, ReplyOf) + (if s.reader.Busy? then [s.reader.id] else []) + FlatMap(s.down, CommandOf)
  }

  function UpTo(n: nat): seq<nat> { seq(n, i => i) }

  /** Only a request that the main loop writes lengthens the pipeline; everything else moves along it. */
  lemma PipelineEffect(s: State, a: Action)
    requires Can(s, a)
    ensures Pipeline(Next(s, a)) == if a.Ask? then Pipeline(s) + [s.sent] else Pipeline(s)
  {
    hide FlatMap;
    match a {
      case WriteCommand(id) => DownEffect(s.down, Command(id));
      case SendNoWait => DownEffect(s.down, Command(""));
      case Receive(ok) => ReceiveEffect(s, ok);
      case Ask => UpEffect(s.up, Request(s.sent));
      case Read => Fronts(s.down, s.up);
      case Serve(replies) => UpEffect(s.up, Reply(s.reader.id));
      case Hand => FlatMapAppend(s.taken, s.reader.re, NumOf);
      case _ =>
    }
  }

  /** Commands enter the flight when written and leave it, oldest first, when their reply is received. */
  lemma FlightEffect(s: State, a: Action)
    requires Can(s, a)
    ensures match a
            case WriteCommand(id) => Flight(Next(s, a)) == Flight(s) + [id]
            case SendNoWait => Flight(Next(s, a)) == Flight(s) + [""]
            case Receive(_) => Flight(s) == ReplyOf(s.up[0]) + Flight(Next(s, a))
            case Serve(replies) =>
              if replies then Flight(Next(s, a)) == Flight(s)
              else exists i :: 0 <= i < |Flight(s)| && Flight(Next(s, a)) == Flight(s)[..i] + Flight(s)[i + 1..]
            case _ => Flight(Next(s, a)) == Flight(s)
  {
    hide FlatMap;
    match a {
      case WriteCommand(id) => DownEffect(s.down, Command(id));
      case SendNoWait => DownEffect(s.down, Command(""));
      case Receive(ok) => ReceiveEffect(s, ok);
      case Ask => UpEffect(s.up, Request(s.sent));
      case Read => Fronts(s.down, s.up);
      case Serve(replies) =>
        UpEffect(s.up, Reply(s.reader.id));
        if !replies {
          var i := |FlatMap(s.up, ReplyOf)|;
          assert Flight(Next(s, a)) == Flight(s)[..i] + Flight(s)[i + 1..];
        }
      case _ =>
    }
  }

  lemma DownEffect(d: seq<Down>, x: Down)
    ensures FlatMap(d + [x], AnswerOf) == FlatMap(d, AnswerOf) + AnswerOf(x)
    ensures FlatMap(d + [x], CommandOf) == FlatMap(d, CommandOf) + CommandOf(x)
  {
    FlatMapAppend(d, x, AnswerOf);
    FlatMapAppend(d, x, CommandOf);
  }

  lemma UpEffect(u: seq<Up>, x: Up)
    ensures FlatMap(u + [x], RequestOf) == FlatMap(u, RequestOf) + RequestOf(x)
    ensures FlatMap(u + [x], ReplyOf) == FlatMap(u, ReplyOf) + ReplyOf(x)
  {
    FlatMapAppend(u, x, RequestOf);
    FlatMapAppend(u, x, ReplyOf);
  }

  lemma Fronts(d: seq<Down>, u: seq<Up>)
    ensures d != [] ==> FlatMap(d, AnswerOf) == AnswerOf(d[0]) + FlatMap(d[1..], AnswerOf)
    ensures d != [] ==> FlatMap(d, CommandOf) == CommandOf(d[0]) + FlatMap(d[1..], CommandOf)
    ensures u != [] ==> FlatMap(u, RequestOf) == RequestOf(u[0]) + FlatMap(u[1..], RequestOf)
    ensures u != [] ==> FlatMap(u, ReplyOf) == ReplyOf(u[0]) + FlatMap(u[1..], ReplyOf)
  {
  }

  /** What receiving a line puts on the stream towards the master: an answer, or nothing for a matched reply. */
  lemma ReceiveParts(s: State, ok: bool)
    requires Can(s, Receive(ok))
    ensures var t := Next(s, Receive(ok));
      && FlatMap(t.down, CommandOf) == FlatMap(s.down, CommandOf)
      && FlatMap(t.down, AnswerOf) == FlatMap(s.down, AnswerOf) + RequestOf(s.up[0])
      && FlatMap(s.up, RequestOf) == RequestOf(s.up[0]) + FlatMap(t.up, RequestOf)
      && FlatMap(s.up, ReplyOf) == ReplyOf(s.up[0]) + FlatMap(t.up, ReplyOf)
  {
    hide FlatMap;
    Fronts(s.down, s.up);
    if s.up[0].Request? {
      DownEffect(s.down, Answer(Some(s.up[0].i), ok));
    } else {
      DownEffect(s.down, Answer(None, false));
    }
  }

  lemma ReceiveEffect(s: State, ok: bool)
    requires Can(s, Receive(ok))
    ensures Pipeline(Next(s, Receive(ok))) == Pipeline(s)
    ensures Flight(s) == ReplyOf(s.up[0]) + Flight(Next(s, Receive(ok)))
  {
    hide FlatMap, RequestOf, ReplyOf;
    ReceiveParts(s, ok);
  }

  // ----- every run -----

  ghost predicate AllNumbered(xs: seq<Option<nat>>) { forall k :: 0 <= k < |xs| ==> xs[k].Some? }

  ghost predicate Inv(s: State) {
    && Pipeline(s) == UpTo(s.sent)
    && (s.reader.Handing? && s.reader.re.None? ==> !s.reader.ok)
    && (forall i :: 0 <= i < |s.down| && s.down[i].Answer? && s.down[i].re.None? ==> !s.down[i].ok)
    && (match s.main
        case Idle => s.sent == |s.taken| && AllNumbered(s.taken)
        case Waiting => s.sent == |s.taken| + 1 && AllNumbered(s.taken)
        case Closed => s.sent == |s.taken| > 0 && AllNumbered(s.taken[..|s.taken| - 1]))
  }

  lemma StepKeeps(s: State, a: Action)
    requires Inv(s) && Can(s, a)
    ensures Inv(Next(s, a))
  {
    hide Pipeline, Flight;
    PipelineEffect(s, a);
    assert UpTo(s.sent + 1) == UpTo(s.sent) + [s.sent];
    if a.Hand? {
      assert (s.taken + [s.reader.re])[..|s.taken|] == s.taken;
    }
  }

  lemma {:induction false} RunKeeps(actions: seq<Action>, states: seq<State>, n: nat)
    requires Run(actions, states) && n < |states|
    ensures Inv(states[n])
  {
    if n != 0 {
      RunKeeps(actions, states, n - 1);
      StepKeeps(states[n - 1], actions[n - 1]);
    }
  }

  lemma {:induction false} NumsOfNumbered(xs: seq<Option<nat>>)
    requires AllNumbered(xs)
    ensures |FlatMap(xs, NumOf)| == |xs| && forall k :: 0 <= k < |xs| ==> FlatMap(xs, NumOf)[k] == xs[k].value
  {
    if xs != [] {
      NumsOfNumbered(xs[1..]);
    }
  }

  /**
   * In every run the i-th answer that the master takes answers its i-th request, except that the last one taken may be a
   * stray error, which ends the connection loop; at most one request is ever without its answer.
   */
  lemma AnswersMatch(actions: seq<Action>, states: seq<State>, n: nat)
    requires Run(actions, states) && n < |states|
    ensures var s := states[n];
      && |s.taken| <= s.sent <= |s.taken| + 1
      && (forall k :: 0 <= k < |s.taken| && s.taken[k].Some? ==> s.taken[k] == Some(k))
      && (forall k :: 0 <= k < |s.taken| && s.taken[k].None? ==> k == |s.taken| - 1 && s.main.Closed?)
  {
    RunKeeps(actions, states, n);
    var s := states[n];
    if s.main.Closed? {
      var m := |s.taken| - 1;
      assert s.taken == s.taken[..m] + [s.taken[m]];
      FlatMapAppend(s.taken[..m], s.taken[m], NumOf);
      NumsOfNumbered(s.taken[..m]);
    } else {
      NumsOfNumbered(s.taken);
    }
    forall k | 0 <= k < |s.taken| && s.taken[k].Some? ensures s.taken[k] == Some(k) {
      assert FlatMap(s.taken, NumOf)[k] == Pipeline(s)[k] == UpTo(s.sent)[k];
    }
  }

  // ----- an answer's verdict is the orchestrator's -----

  /** Whether the orchestrator accepted the requests it received so far, in order. */
  function Verdicts(actions: seq<Action>, states: seq<State>, n: nat): seq<bool>
    requires n <= |actions| && n <= |states|
  {
    if n == 0 then []
    else
      var v, a, s := Verdicts(actions, states, n - 1), actions[n - 1], states[n - 1];
      if a.Receive? && s.up != [] && s.up[0].Request? then v + [a.ok] else v
  }

  function OkOf(x: Down): seq<bool> { if x.Answer? && x.re.Some? then [x.ok] else [] }

  /** The verdicts on their way to the master's main loop. */
  function Coming(s: State): seq<bool> {
    (if s.reader.Handing? && s.reader.re.Some? then [s.reader.ok] else []) + FlatMap(s.down, OkOf)
  }

  /** The answers taken so far have had the first verdicts, the rest is on its way, and only the last taken can have closed. */
  ghost predicate Heard(s: State, v: seq<bool>) {
    var t := FlatMap(s.taken, NumOf);
    && |t| <= |v| && Coming(s) == v[|t|..]
    && (s.main.Closed? <==> s.taken != [] && (s.taken[|s.taken| - 1].None? || (|t| > 0 && !v[|t| - 1])))
    && (forall k :: 0 <= k < |t| && !v[k] ==> s.main.Closed? && k == |t| - 1 && s.taken[|s.taken| - 1].Some?)
  }

  lemma LastNumbered(taken: seq<Option<nat>>, re: Option<nat>)
    ensures FlatMap(taken + [re], NumOf) == FlatMap(taken, NumOf) + NumOf(re)
  {
    FlatMapAppend(taken, re, NumOf);
  }

  lemma ComingEffect(s: State, a: Action)
    requires Can(s, a)
    ensures Coming(Next(s, a)) ==
            if a.Receive? && s.up[0].Request? then Coming(s) + [a.ok]
            else if a.Hand? then Coming(s)[|NumOf(s.reader.re)|..]
            else Coming(s)
    ensures a.Hand? && s.reader.re.Some? ==> Coming(s) != [] && Coming(s)[0] == s.reader.ok
  {
    hide FlatMap;
    match a {
      case WriteCommand(id) => FlatMapAppend(s.down, Command(id), OkOf);
      case SendNoWait => FlatMapAppend(s.down, Command(""), OkOf);
      case Receive(ok) => FlatMapAppend(s.down, if s.up[0].Request? then Answer(Some(s.up[0].i), ok) else Answer(None, false), OkOf);
      case Read => FirstOk(s.down);
      case _ =>
    }
  }

  lemma FirstOk(d: seq<Down>)
    ensures d != [] ==> FlatMap(d, OkOf) == OkOf(d[0]) + FlatMap(d[1..], OkOf)
  {
  }

  lemma HeardKeeps(s: State, a: Action, v: seq<bool>)
    requires Inv(s) && Heard(s, v) && Can(s, a)
    ensures Heard(Next(s, a), if a.Receive? && s.up[0].Request? then v + [a.ok] else v)
  {
    hide Coming, FlatMap, Pipeline;
    if a.Hand? {
      HandKeeps(s, v);
    } else {
      ComingEffect(s, a);
      HeardNumbered(s);
    }
  }

  lemma HandKeeps(s: State, v: seq<bool>)
    requires Inv(s) && Heard(s, v) && Can(s, Hand)
    ensures Heard(Next(s, Hand), v)
  {
    hide Coming, FlatMap, Pipeline;
    ComingEffect(s, Hand);
    LastNumbered(s.taken, s.reader.re);
    assert (s.taken + [s.reader.re])[|s.taken|] == s.reader.re;
    HeardNumbered(s);
  }

  lemma HeardNumbered(s: State)
    requires Inv(s)
    ensures s.taken == [] ==> FlatMap(s.taken, NumOf) == []
    ensures s.taken != [] && s.taken[|s.taken| - 1].Some? ==> FlatMap(s.taken, NumOf) != []
  {
    if s.taken != [] {
      var m := |s.taken| - 1;
      assert s.taken == s.taken[..m] + [s.taken[m]];
      FlatMapAppend(s.taken[..m], s.taken[m], NumOf);
    }
  }

  lemma {:induction false} HeardRun(actions: seq<Action>, states: seq<State>, n: nat)
    requires Run(actions, states) && n < |states|
    ensures Heard(states[n], Verdicts(actions, states, n))
  {
    if n != 0 {
      HeardRun(actions, states, n - 1);
      RunKeeps(actions, states, n - 1);
      assert Can(states[n - 1], actions[n - 1]) && states[n] == Next(states[n - 1], actions[n - 1]);
      hide Heard, Inv, Next;
      HeardKeeps(states[n - 1], actions[n - 1], Verdicts(actions, states, n - 1));
    }
  }

  /** The request received next is the one whose number is that of the verdicts so far. */
  lemma VerdictOf(actions: seq<Action>, states: seq<State>, n: nat)
    requires Run(actions, states) && n < |actions| && actions[n].Receive? && states[n].up[0].Request?
    ensures |Verdicts(actions, states, n)| == states[n].up[0].i
    ensures Verdicts(actions, states, n + 1) == Verdicts(actions, states, n) + [actions[n].ok]
  {
    RunKeeps(actions, states, n);
    HeardRun(actions, states, n);
    var s, v := states[n], Verdicts(actions, states, n);
    SameCount(s.down);
    Fronts(s.down, s.up);
    hide FlatMap;
    assert Pipeline(s)[|v|] == s.up[0].i;
  }

  lemma {:induction false} SameCount(d: seq<Down>)
    ensures |FlatMap(d, OkOf)| == |FlatMap(d, AnswerOf)|
  {
    if d != [] {
      SameCount(d[1..]);
    }
  }

  /**
   * In every run the connection loop ends exactly at the first answer taken that is a stray error or answers a request
   * that the orchestrator refused; every answer taken before answers its own request, which was accepted.
   */
  lemma ClosesIff(actions: seq<Action>, states: seq<State>, n: nat)
    requires Run(actions, states) && n < |states|
    ensures var s, v := states[n], Verdicts(actions, states, n);
      && (forall k :: 0 <= k < |s.taken| && s.taken[k].Some? ==> s.taken[k] == Some(k) && k < |v|)
      && (s.main.Closed? <==>
          s.taken != [] && var last := |s.taken| - 1; s.taken[last].None? || !v[last])
      && (forall k :: 0 <= k < |s.taken| - 1 ==> s.taken[k] == Some(k) && v[k])
  {
    AnswersMatch(actions, states, n);
    HeardRun(actions, states, n);
    TakenCount(states[n].taken);
  }

  lemma {:induction false} TakenCount(taken: seq<Option<nat>>)
    requires forall k :: 0 <= k < |taken| && taken[k].None? ==> k == |taken| - 1
    ensures |FlatMap(taken, NumOf)| == if taken != [] && taken[|taken| - 1].None? then |taken| - 1 else |taken|
  {
    if taken != [] {
      TakenCount(taken[1..]);
    }
  }

  /** With every request accepted and no stray error the master's loop goes on. */
  lemma NeverCloses(actions: seq<Action>, states: seq<State>, n: nat)
    requires Run(actions, states) && n < |states|
    requires forall i :: 0 <= i < n ==> !StrayAt(actions, states, i) && (actions[i].Receive? ==> actions[i].ok)
    ensures !states[n].main.Closed?
  {
    ClosesIff(actions, states, n);
    AllAccepted(actions, states, n);
    OwnedRun(actions, states, n);
  }

  lemma {:induction false} AllAccepted(actions: seq<Action>, states: seq<State>, n: nat)
    requires n <= |actions| && n <= |states| && forall i :: 0 <= i < n ==> actions[i].Receive? ==> actions[i].ok
    ensures forall k :: 0 <= k < |Verdicts(actions, states, n)| ==> Verdicts(actions, states, n)[k]
  {
    if n != 0 {
      AllAccepted(actions, states, n - 1);
    }
  }

  // ----- exactly when a stray error is sent -----

  predicate Forgets(a: Action) { a.Table? && a.e.Forget? }

  /** The ids whose entries were deleted after a timeout in the first `n` steps. */
  function ForgottenBy(actions: seq<Action>, n: nat): set<Id>
    requires n <= |actions|
  {
    set j | 0 <= j < n && Forgets(actions[j]) :: actions[j].e.id
  }

  ghost predicate Unwaited(actions: seq<Action>, n: nat)
    requires n <= |actions|
  {
    exists j :: 0 <= j < n && actions[j].SendNoWait?
  }

  /** The commands in flight with an id are distinct, and each still has its entry unless that was deleted. */
  ghost predicate FlightOk(f: seq<Id>, h: C.Hop, gone: set<Id>) {
    && (forall i :: 0 <= i < |f| && f[i] != "" ==>
         f[i] in h.waiters && !h.waiters[f[i]].phase.Registered? && (f[i] in h.pend <==> f[i] !in gone))
    && (forall i, j :: 0 <= i < j < |f| && f[i] != "" ==> f[i] != f[j])
  }

  ghost predicate TableOk(h: C.Hop, gone: set<Id>) {
    && h.pend <= h.waiters.Keys && gone <= h.waiters.Keys && "" !in h.waiters
    && forall id :: id in h.waiters && h.waiters[id].phase.Registered? ==> id in h.pend && id !in gone
  }

  /** Dropping one command from the flight. */
  lemma FlightDrops(f: seq<Id>, h: C.Hop, gone: set<Id>, i: nat)
    requires FlightOk(f, h, gone) && i < |f|
    ensures FlightOk(f[..i] + f[i + 1..], h, gone)
  {
  }

  /** Taking the entry of the oldest one. */
  lemma FlightTaken(f: seq<Id>, h: C.Hop, gone: set<Id>, m: Msg)
    requires FlightOk(f, h, gone) && TableOk(h, gone) && f != [] && f[0] == m.replyTo && C.Can(h, C.Take(m)) && C.Matches(h, m)
    ensures FlightOk(f[1..], Step(h, C.Take(m)), gone) && TableOk(Step(h, C.Take(m)), gone)
  {
  }

  lemma FlightTable(f: seq<Id>, h: C.Hop, gone: set<Id>, e: C.Event)
    requires FlightOk(f, h, gone) && TableOk(h, gone) && C.Can(h, e) && !e.Take?
    ensures var later := if e.Forget? then gone + {e.id} else gone;
      TableOk(Step(h, e), later) && FlightOk(if e.Wrote? then f + [e.id] else f, Step(h, e), later)
  {
  }

  lemma FlightKeeps(s: State, a: Action, gone: set<Id>)
    requires TableOk(s.hop, gone) && FlightOk(Flight(s), s.hop, gone) && Can(s, a)
    ensures var t, later := Next(s, a), if Forgets(a) then gone + {a.e.id} else gone;
      TableOk(t.hop, later) && FlightOk(Flight(t), t.hop, later)
  {
    hide Flight, Pipeline, FlightOk, TableOk, Step;
    FlightEffect(s, a);
    var f, t := Flight(s), Next(s, a);
    match a {
      case Table(e) =>
        FlightTable(f, s.hop, gone, e);
      case WriteCommand(id) =>
        FlightTable(f, s.hop, gone, C.Wrote(id));
      case SendNoWait =>
        FlightBlank(f, s.hop, gone);
      case Receive(_) =>
        if s.up[0].Reply? {
          assert f[0] == s.up[0].to && Flight(t) == f[1..] == f[..0] + f[1..];
          if C.Matches(s.hop, ReplyMsg(f[0])) {
            FlightTaken(f, s.hop, gone, ReplyMsg(f[0]));
          } else {
            FlightDrops(f, s.hop, gone, 0);
          }
        } else {
          assert Flight(t) == f;
        }
      case Serve(replies) =>
        if !replies {
          var i :| 0 <= i < |f| && Flight(t) == f[..i] + f[i + 1..];
          FlightDrops(f, s.hop, gone, i);
        }
      case _ =>
    }
  }

  lemma FlightBlank(f: seq<Id>, h: C.Hop, gone: set<Id>)
    requires FlightOk(f, h, gone)
    ensures FlightOk(f + [""], h, gone)
  {
  }

  lemma {:induction false} TrackedRun(actions: seq<Action>, states: seq<State>, n: nat)
    requires Run(actions, states) && n <= |actions|
    ensures TableOk(states[n].hop, ForgottenBy(actions, n)) && FlightOk(Flight(states[n]), states[n].hop, ForgottenBy(actions, n))
  {
    if n != 0 {
      TrackedRun(actions, states, n - 1);
      var a, gone := actions[n - 1], ForgottenBy(actions, n - 1);
      FlightKeeps(states[n - 1], a, gone);
      assert ForgottenBy(actions, n) == if Forgets(a) then gone + {a.e.id} else gone;
    }
  }

  /** Only a command sent without waiting has no id. */
  lemma {:induction false} BlankFlight(actions: seq<Action>, states: seq<State>, n: nat)
    requires Run(actions, states) && n <= |actions| && !Unwaited(actions, n)
    ensures "" !in Flight(states[n])
  {
    if n != 0 {
      hide Flight, Pipeline;
      BlankFlight(actions, states, n - 1);
      TrackedRun(actions, states, n - 1);
      FlightEffect(states[n - 1], actions[n - 1]);
      match actions[n - 1] {
        case Receive(_) =>
          var f, g := Flight(states[n - 1]), Flight(states[n]);
          assert forall i :: 0 <= i < |g| ==> g[i] == f[i + |f| - |g|];
        case _ =>
      }
    }
  }

  /** The orchestrator answers the line it reads at step `n` with an error that belongs to no request. */
  predicate StrayAt(actions: seq<Action>, states: seq<State>, n: nat) {
    n < |actions| && n + 1 < |states| && actions[n].Receive? && states[n + 1].down == states[n].down + [Answer(None, false)]
  }

  /**
   * In every run, the orchestrator sends a stray error exactly when it reads a command reply whose call has timed out and
   * deleted its entry, or a reply to a command that was sent without waiting.
   */
  lemma StrayIff(actions: seq<Action>, states: seq<State>, n: nat)
    requires Run(actions, states) && n < |actions| && actions[n].Receive?
    ensures var u := states[n].up[0];
      && (StrayAt(actions, states, n) <==>
          u.Reply? && (u.to == "" || exists j :: 0 <= j < n && actions[j] == Table(C.Forget(u.to))))
      && (u.Reply? && u.to == "" ==> Unwaited(actions, n))
  {
    hide Pipeline, FlightOk, TableOk;
    assert Can(states[n], actions[n]) && states[n + 1] == Next(states[n], actions[n]);
    if states[n].up[0].Request? {
      assert states[n + 1].down[|states[n].down|].re == Some(states[n].up[0].i);
      return;
    }
    var s, to := states[n], states[n].up[0].to;
    FlightFirst(s, actions, states, n);
    if to in ForgottenBy(actions, n) {
      var j :| 0 <= j < n && Forgets(actions[j]) && actions[j].e.id == to;
      assert actions[j] == Table(C.Forget(to));
    }
    if j :| 0 <= j < n && actions[j] == Table(C.Forget(to)) {
      assert Forgets(actions[j]) && actions[j].e.id in ForgottenBy(actions, n);
    }
  }

  lemma FlightFirst(s: State, actions: seq<Action>, states: seq<State>, n: nat)
    requires Run(actions, states) && n < |actions| && s == states[n] && actions[n].Receive? && s.up[0].Reply?
    ensures var to := s.up[0].to;
      && (to != "" ==> (to in s.hop.pend <==> to !in ForgottenBy(actions, n)))
      && (to == "" ==> Unwaited(actions, n))
  {
    hide Pipeline, Flight;
    TrackedRun(actions, states, n);
    FlightEffect(s, actions[n]);
    assert Flight(s)[0] == s.up[0].to;
    if !Unwaited(actions, n) {
      BlankFlight(actions, states, n);
    }
  }

  // ----- runs in which no stray error was sent -----

  ghost predicate AllOwned(s: State) {
    && (forall i :: 0 <= i < |s.down| && s.down[i].Answer? ==> s.down[i].re.Some?)
    && (s.reader.Handing? ==> s.reader.re.Some?)
    && AllNumbered(s.taken)
  }

  lemma {:induction false} OwnedRun(actions: seq<Action>, states: seq<State>, n: nat)
    requires Run(actions, states) && n <= |actions| && forall i :: 0 <= i < n ==> !StrayAt(actions, states, i)
    ensures AllOwned(states[n])
  {
    if n != 0 {
      OwnedRun(actions, states, n - 1);
      assert states[n] == Next(states[n - 1], actions[n - 1]) && !StrayAt(actions, states, n - 1);
    }
  }

  /**
   * As long as no reply that the orchestrator read was late or unasked for, each answer taken answers its own request,
   * whatever timed out.
   */
  lemma AnswersOwn(actions: seq<Action>, states: seq<State>, n: nat)
    requires Run(actions, states) && n < |states|
    requires forall i :: 0 <= i < n && actions[i].Receive? && states[i].up[0].Reply? ==>
      states[i].up[0].to != "" && forall j :: 0 <= j < i ==> actions[j] != Table(C.Forget(states[i].up[0].to))
    ensures forall k :: 0 <= k < |states[n].taken| ==> states[n].taken[k] == Some(k)
  {
    forall i | 0 <= i < n ensures !StrayAt(actions, states, i) {
      if actions[i].Receive? {
        StrayIff(actions, states, i);
      }
    }
    OwnedRun(actions, states, n);
    AnswersMatch(actions, states, n);
  }

  predicate TimesOut(a: Action) { a.Table? && a.e.Expire? }

  /** Only a call that timed out deletes its entry. */
  lemma {:induction false} NothingForgotten(actions: seq<Action>, states: seq<State>, n: nat)
    requires Run(actions, states) && n <= |actions| && forall i :: 0 <= i < n ==> !TimesOut(actions[i])
    ensures forall id :: id in states[n].hop.waiters ==>
      !states[n].hop.waiters[id].phase.Expired? && !states[n].hop.waiters[id].phase.Failing?
    ensures forall i :: 0 <= i < n ==> !Forgets(actions[i])
  {
    if n != 0 {
      NothingForgotten(actions, states, n - 1);
      assert Can(states[n - 1], actions[n - 1]) && states[n] == Next(states[n - 1], actions[n - 1]);
    }
  }

  /** In particular without timeouts and SendCommand. */
  lemma NoStrays(actions: seq<Action>, states: seq<State>, n: nat)
    requires Run(actions, states) && n < |states|
    requires forall i :: 0 <= i < n ==> !TimesOut(actions[i]) && !actions[i].SendNoWait?
    ensures forall k :: 0 <= k < |states[n].taken| ==> states[n].taken[k] == Some(k)
  {
    NothingForgotten(actions, states, n);
    forall i | 0 <= i < n && actions[i].Receive? && states[i].up[0].Reply? ensures states[i].up[0].to != "" {
      assert !Unwaited(actions, i);
      StrayIff(actions, states, i);
    }
    AnswersOwn(actions, states, n);
  }

  /** A call that is made, written and times out. */
  lemma LateTable(id: Id)
    requires id != ""
    ensures C.Can(C.EMPTY, C.Begin(id))
    ensures var h1 := Step(C.EMPTY, C.Begin(id));
      C.Can(h1, C.Wrote(id)) &&
      var h2 := Step(h1, C.Wrote(id));
      C.Can(h2, C.Expire(id)) &&
      var h3 := Step(h2, C.Expire(id));
      C.Can(h3, C.Forget(id)) &&
      var h4 := Step(h3, C.Forget(id));
      h4.pend == {} && h4.reader.Idle?
  {
  }

  /** A timeout can break it: the late reply is answered with an error that the next heartbeat takes for its own. */
  lemma LateReplyBreaks(id: Id) returns (actions: seq<Action>, states: seq<State>)
    requires id != ""
    ensures Run(actions, states)
    ensures var s := states[|actions|]; s.taken == [None] && s.main.Closed?
    ensures forall i :: 0 <= i < |actions| ==> !actions[i].SendNoWait?
  {
    LateTable(id);
    hide C.Can, Step, Run, AllWait, NoTimeout;
    EmptyRun();
    actions, states := Extend([], [INIT], Table(C.Begin(id)));
    actions, states := Extend(actions, states, WriteCommand(id));
    actions, states := Extend(actions, states, Table(C.Expire(id)));
    actions, states := Extend(actions, states, Table(C.Forget(id)));
    assert states[|actions|] == State(states[|actions|].hop, [Command(id)], [], Idle, Reading, 0, []);
    actions, states := LateTail(actions, states, id);
    AllWaitMeans(actions);
  }

  /** The reply then finds no entry. */
  lemma LateTail(before: seq<Action>, until: seq<State>, id: Id) returns (actions: seq<Action>, states: seq<State>)
    requires Run(before, until) && |until| == |before| + 1 && AllWait(before)
    requires var s := until[|before|];
      s == State(s.hop, [Command(id)], [], Idle, Reading, 0, []) && s.hop.pend == {} && s.hop.reader.Idle?
    ensures Run(actions, states) && AllWait(actions) && |states| == |actions| + 1
    ensures var s := states[|actions|]; s.taken == [None] && s.main.Closed?
  {
    hide Run, AllWait, NoTimeout;
    actions, states := Extend(before, until, Read);
    actions, states := Extend(actions, states, Serve(true));
    actions, states := Extend(actions, states, Receive(true));
    actions, states := Extend(actions, states, Read);
    actions, states := Extend(actions, states, Ask);
    actions, states := Extend(actions, states, Hand);
  }

  predicate AllWait(actions: seq<Action>) { forall i :: 0 <= i < |actions| ==> !actions[i].SendNoWait? }

  predicate NoTimeout(actions: seq<Action>) { forall i :: 0 <= i < |actions| ==> !TimesOut(actions[i]) }

  lemma AllWaitMeans(actions: seq<Action>)
    requires AllWait(actions)
    ensures forall i :: 0 <= i < |actions| ==> !actions[i].SendNoWait?
  {
  }

  lemma NoTimeoutMeans(actions: seq<Action>)
    requires NoTimeout(actions)
    ensures forall i :: 0 <= i < |actions| ==> !TimesOut(actions[i])
  {
  }

  lemma EmptyRun()
    ensures Run([], [INIT]) && AllWait([]) && NoTimeout([])
  {
  }

  lemma Extend(actions: seq<Action>, states: seq<State>, a: Action) returns (longer: seq<Action>, more: seq<State>)
    requires Run(actions, states) && |states| == |actions| + 1 && Can(states[|actions|], a)
    ensures longer == actions + [a] && Run(longer, more) && |more| == |longer| + 1
    ensures more[|longer|] == Next(states[|actions|], a)
    ensures !a.SendNoWait? && AllWait(actions) ==> AllWait(longer)
    ensures !TimesOut(a) && NoTimeout(actions) ==> NoTimeout(longer)
  {
    hide Can, Next, TimesOut;
    longer, more := actions + [a], states + [Next(states[|actions|], a)];
  }

  /** So can a command sent without waiting: its reply answers no call. */
  lemma SendNoWaitBreaks() returns (actions: seq<Action>, states: seq<State>)
    ensures Run(actions, states)
    ensures var s := states[|actions|]; s.taken == [None] && s.main.Closed?
    ensures forall i :: 0 <= i < |actions| ==> !TimesOut(actions[i])
  {
    hide Run, AllWait, NoTimeout;
    EmptyRun();
    actions, states := Extend([], [INIT], SendNoWait);
    actions, states := Extend(actions, states, Read);
    actions, states := Extend(actions, states, Serve(true));
    actions, states := Extend(actions, states, Receive(true));
    actions, states := Extend(actions, states, Read);
    actions, states := Extend(actions, states, Ask);
    actions, states := Extend(actions, states, Hand);
    NoTimeoutMeans(actions);
  }

  // ----- the table is the one of the correlation model -----

  /** The events of that model that a step stands for. */
  function EventsOf(s: State, a: Action): seq<C.Event> {
    match a
    case Table(e) => [e]
    case WriteCommand(id) => [C.Wrote(id)]
    case Receive(_) => if s.up != [] && s.up[0].Reply? then [C.Take(ReplyMsg(s.up[0].to))] else []
    case _ => []
  }

  function Projection(actions: seq<Action>, states: seq<State>, n: nat): seq<C.Event>
    requires n <= |actions| && n <= |states|
  {
    if n == 0 then [] else Projection(actions, states, n - 1) + EventsOf(states[n - 1], actions[n - 1])
  }

  /** So every run here contains a run there, and what is proved of those holds of the calls on this connection. */
  lemma {:induction false} TableRuns(actions: seq<Action>, states: seq<State>, n: nat) returns (hs: seq<C.Hop>)
    requires Run(actions, states) && n < |states|
    ensures C.Run(C.OrchestratorSide, Projection(actions, states, n), hs)
    ensures hs[|Projection(actions, states, n)|] == states[n].hop
  {
    if n == 0 {
      hs := [C.EMPTY];
    } else {
      var s, a := states[n - 1], actions[n - 1];
      hs := TableRuns(actions, states, n - 1);
      TableStep(s, a);
      assert states[n] == Next(s, a);
      hide *;
      var es, more := Projection(actions, states, n - 1), EventsOf(s, a);
      ProjectionStep(actions, states, n);
      if more != [] {
        assert more == [more[0]];
        C.RunAppend(C.OrchestratorSide, es, hs, more[0]);
        hs := hs + [states[n].hop];
        RunLength(es + more, hs);
      } else {
        assert es + more == es;
      }
    }
  }

  lemma ProjectionStep(actions: seq<Action>, states: seq<State>, n: nat)
    requires 0 < n <= |actions| && n <= |states|
    ensures Projection(actions, states, n) == Projection(actions, states, n - 1) + EventsOf(states[n - 1], actions[n - 1])
  {
  }

  lemma RunLength(es: seq<C.Event>, hs: seq<C.Hop>)
    requires C.Run(C.OrchestratorSide, es, hs)
    ensures |hs| == |es| + 1
  {
  }

  lemma TableStep(s: State, a: Action)
    requires Can(s, a)
    ensures var more := EventsOf(s, a);
      if more == [] then Next(s, a).hop == s.hop
      else |more| == 1 && C.Can(s.hop, more[0]) && Next(s, a).hop == C.Apply(C.OrchestratorSide, s.hop, more[0])
  {
  }

  // ----- the master never waits in vain -----

  /** The steps that move along what is under way and add nothing. */
  predicate Delivers(a: Action) { a.Receive? || a.Read? || a.Serve? || a.Hand? || a == Table(C.Deliver) }

  /** While the main loop waits, one of them can be taken. */
  lemma WaitMoves(actions: seq<Action>, states: seq<State>, n: nat)
    requires Run(actions, states) && n < |states| && states[n].main.Waiting?
    ensures exists a :: Delivers(a) && Can(states[n], a)
  {
    hide C.Inv;
    RunKeeps(actions, states, n);
    var s := states[n];
    NumsOfNumbered(s.taken);
    assert |Pipeline(s)| > |s.taken|;
    if s.reader.Handing? {
      assert Delivers(Hand) && Can(s, Hand);
    } else if s.reader.Busy? {
      assert Delivers(Serve(true)) && Can(s, Serve(true));
    } else if s.down != [] {
      assert Delivers(Read) && Can(s, Read);
    } else if s.hop.reader.Idle? {
      assert Delivers(Receive(true)) && Can(s, Receive(true));
    } else {
      var es := Projection(actions, states, n);
      var hs := TableRuns(actions, states, n);
      RunLength(es, hs);
      C.SendNeverBlocks(C.OrchestratorSide, es, hs, |es|);
      assert Delivers(Table(C.Deliver)) && Can(s, Table(C.Deliver));
    }
  }

  /** How many such steps what is under way can take. */
  function DownWeight(d: seq<Down>): nat {
    if d == [] then 0 else (if d[0].Command? then 5 else 2) + DownWeight(d[1..])
  }

  function Weight(s: State): nat {
    3 * |s.up| + DownWeight(s.down) + (if s.reader.Handing? then 1 else if s.reader.Busy? then 4 else 0)
    + (if s.hop.reader.Delivering? then 1 else 0)
  }

  lemma {:induction false} DownWeightAppend(d: seq<Down>, x: Down)
    ensures DownWeight(d + [x]) == DownWeight(d) + if x.Command? then 5 else 2
  {
    if d != [] {
      assert (d + [x])[1..] == d[1..] + [x];
      DownWeightAppend(d[1..], x);
    }
  }

  lemma DeliveryWeighs(s: State, a: Action)
    requires Can(s, a) && Delivers(a)
    ensures Weight(Next(s, a)) < Weight(s)
  {
    hide DownWeight, C.Matches;
    if a.Receive? {
      DownWeightAppend(s.down, if s.up[0].Request? then Answer(Some(s.up[0].i), a.ok) else Answer(None, false));
    } else if a.Read? {
      DownWeightFirst(s.down);
    }
  }

  lemma DownWeightFirst(d: seq<Down>)
    ensures d != [] ==> DownWeight(d) == (if d[0].Command? then 5 else 2) + DownWeight(d[1..])
  {
  }

  /**
   * So a wait ends: with nothing new sent, what is under way moves on until the answer is taken, in no more steps than its
   * weight.
   */
  lemma {:induction false} WaitEnds(actions: seq<Action>, states: seq<State>, n: nat, m: nat)
    requires Run(actions, states) && n <= m < |states| && forall i :: n <= i < m ==> Delivers(actions[i])
    ensures m - n + Weight(states[m]) <= Weight(states[n])
    ensures (forall a :: Delivers(a) ==> !Can(states[m], a)) ==> !states[m].main.Waiting?
  {
    hide Weight, Delivers, Can, Next;
    if n < m {
      WaitEnds(actions, states, n, m - 1);
      DeliveryWeighs(states[m - 1], actions[m - 1]);
    }
    if states[m].main.Waiting? {
      WaitMoves(actions, states, m);
    }
  }
}

/** Two sequential processes joined by a FIFO stream in each direction, and why their interleaving does not matter. */
module Process {
  import opened Wrappers

  /** The decoded payload of `auth.hello`. */
  datatype AuthHello = AuthHello(id: string, pubKey: string, role: string, cluster: string)

  /**
   * A line of a connection: raw text that is no packet, or a packet with what decoding its payload
   * as each handshake type gives.
   */
  datatype Line =
    | Raw(text: string)
    | Packet(kind: string, hello: Option<AuthHello>, challenge: Option<string>, proof: Option<string>)

  datatype Outcome =
    | Connected
    | Registered(hello: AuthHello)
    | Rejected                // the client saw an error, or the server sent one
    | Failed                  // the connection broke or the peer broke the protocol

  /** A script: writes a line, waits for one (None at the end of the stream), or is done. */
  datatype Proc =
    | Write(line: Line, next: Proc)
    | Read(next_: Option<Line> -> Proc)
    | Done(outcome: Outcome)

  datatype Config = Config(client: Proc, server: Proc, toServer: seq<Line>, toClient: seq<Line>)

  datatype Side = Client | Server

  /** One step of one side, if it has one: a read needs a line, or the peer's end when the stream is drained. */
  function Step(g: Config, side: Side): Option<Config> {
    match side
    case Client => (
      match g.client
      case Write(l, p) => Some(g.(client := p, toServer := g.toServer + [l]))
      case Read(k) =>
        if g.toClient != [] then Some(g.(client := k(Some(g.toClient[0])), toClient := g.toClient[1..]))
        else if g.server.Done? then Some(g.(client := k(None))) else None
      case Done(_) => None)
    case Server => (
      match g.server
      case Write(l, p) => Some(g.(server := p, toClient := g.toClient + [l]))
      case Read(k) =>
        if g.toServer != [] then Some(g.(server := k(Some(g.toServer[0])), toServer := g.toServer[1..]))
        else if g.client.Done? then Some(g.(server := k(None))) else None
      case Done(_) => None)
  }

  function Other(side: Side): Side { if side.Client? then Server else Client }

  predicate Stuck(g: Config) { Step(g, Client).None? && Step(g, Server).None? }

  /** Steps of the two sides commute. */
  lemma Diamond(g: Config, side: Side)
    requires Step(g, side).Some? && Step(g, Other(side)).Some?
    ensures Step(Step(g, side).value, Other(side)).Some?
    ensures Step(Step(g, side).value, Other(side)) == Step(Step(g, Other(side)).value, side)
  {
    if g.toServer != [] {
      assert forall l :: (g.toServer + [l])[1..] == g.toServer[1..] + [l];
    }
    if g.toClient != [] {
      assert forall l :: (g.toClient + [l])[1..] == g.toClient[1..] + [l];
    }
  }

  /** Some `n` steps lead from `g` to the stuck configuration `t`. */
  ghost predicate EndsIn(g: Config, n: nat, t: Config)
    decreases n
  {
    if n == 0 then g == t && Stuck(t)
    else exists side :: Step(g, side).Some? && EndsIn(Step(g, side).value, n - 1, t)
  }

  /** Every first step leads on to the same end in the same number of steps. */
  lemma {:induction false} AnyStep(g: Config, n: nat, t: Config, side: Side)
    requires EndsIn(g, n, t) && Step(g, side).Some?
    ensures n > 0 && EndsIn(Step(g, side).value, n - 1, t)
    decreases n
  {
    var w :| Step(g, w).Some? && EndsIn(Step(g, w).value, n - 1, t);
    if w != side {
      Diamond(g, w);
      AnyStep(Step(g, w).value, n - 1, t, side);
      assert Step(Step(g, side).value, w).Some?;
    }
  }

  ghost predicate Run(g: Config, schedule: seq<Side>, gs: seq<Config>) {
    && |gs| == |schedule| + 1
    && gs[0] == g
    && forall i :: 0 <= i < |schedule| ==> Step(gs[i], schedule[i]) == Some(gs[i + 1])
  }

  /** Whatever the interleaving: no run is longer, and a run that cannot go on is at this end. */
  lemma {:induction false} SameEnd(g: Config, n: nat, t: Config, schedule: seq<Side>, gs: seq<Config>, i: nat)
    requires EndsIn(g, n, t) && Run(g, schedule, gs) && i < |gs|
    ensures i <= n && EndsIn(gs[i], n - i, t)
    ensures Stuck(gs[i]) ==> i == n && gs[i] == t
    ensures i == n ==> gs[i] == t
  {
    if i != 0 {
      SameEnd(g, n, t, schedule, gs, i - 1);
      assert Step(gs[i - 1], schedule[i - 1]) == Some(gs[i - 1 + 1]);
      AnyStep(gs[i - 1], n - (i - 1), t, schedule[i - 1]);
    }
    if i < n {
      var w :| Step(gs[i], w).Some? && EndsIn(Step(gs[i], w).value, n - i - 1, t);
    }
  }

  /** One run to a stuck end is enough to know the end of all. */
  lemma {:induction false} RunEnds(g: Config, schedule: seq<Side>, gs: seq<Config>, i: nat)
    requires Run(g, schedule, gs) && i < |gs| && Stuck(gs[|schedule|])
    ensures EndsIn(gs[i], |schedule| - i, gs[|schedule|])
    decreases |gs| - i
  {
    if i < |schedule| {
      RunEnds(g, schedule, gs, i + 1);
      assert Step(gs[i], schedule[i]) == Some(gs[i + 1]);
      assert EndsIn(Step(gs[i], schedule[i]).value, |schedule| - i - 1, gs[|schedule|]);
    }
  }

  function Start(client: Proc, server: Proc): Config { Config(client, server, [], []) }

  /**
   * Both scripts come to their end with these outcomes whatever the interleaving, after `steps` steps in all;
   * until then some side can go on, so there is no deadlock.
   */
  ghost predicate AlwaysEnds(client: Proc, server: Proc, steps: nat, co: Outcome, so: Outcome) {
    exists t: Config :: EndsIn(Start(client, server), steps, t) && t.client == Done(co) && t.server == Done(so)
  }

  lemma EveryRunEnds(client: Proc, server: Proc, steps: nat, co: Outcome, so: Outcome, schedule: seq<Side>, gs: seq<Config>)
    requires AlwaysEnds(client, server, steps, co, so) && Run(Start(client, server), schedule, gs)
    ensures var last := gs[|schedule|];
      && |schedule| <= steps
      && (Stuck(last) ==> last.client == Done(co) && last.server == Done(so))
  {
    var t: Config :| EndsIn(Start(client, server), steps, t) && t.client == Done(co) && t.server == Done(so);
    SameEnd(Start(client, server), steps, t, schedule, gs, |schedule|);
  }

  /** One end of a connection in use by a script: every read and write must be the script's next one. */
  class Conn {
    var inbox: seq<Line>
    ghost var script: Proc

    constructor (inbox: seq<Line>, ghost script: Proc)
      ensures this.inbox == inbox && this.script == script
    {
      this.inbox := inbox;
      this.script := script;
    }

    method ReadLine() returns (l: Option<Line>)
      requires script.Read?
      modifies this
      ensures script == old(script).next_(l)
      ensures if old(inbox) == [] then l == None && inbox == [] else l == Some(old(inbox)[0]) && inbox == old(inbox)[1..]
    {
      if inbox == [] {
        l := None;
      } else {
        l := Some(inbox[0]);
        inbox := inbox[1..];
      }
      script := script.next_(l);
    }

    method WriteLine(l: Line)
      requires script.Write? && script.line == l
      modifies `script
      ensures script == old(script).next
    {
      script := script.next;
    }
  }
}

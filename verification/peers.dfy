/** What each side of a handshake concludes and says when the other side may say anything. */
module Peers {
  import opened Handshake
  import opened Process
  import opened Text
  import opened Wrappers

  // ----- what a server concludes from what it hears, whoever says it -----

  /** The script up to its next read. */
  function Settle(p: Proc): (q: Proc)
    ensures !q.Write?
  {
    match p
    case Write(_, next) => Settle(next)
    case _ => p
  }

  /** The script after it read `heard`, or as much of it as it reads. */
  function After(p: Proc, heard: seq<Option<Line>>): Proc
    decreases |heard|
  {
    var q := Settle(p);
    if heard == [] || q.Done? then q else After(q.next_(heard[0]), heard[1..])
  }

  lemma {:induction false} AfterAppend(p: Proc, heard: seq<Option<Line>>, l: Option<Line>)
    ensures After(p, heard + [l]) ==
            var q := After(p, heard); if q.Read? then Settle(q.next_(l)) else q
    decreases |heard|
  {
    var q := Settle(p);
    if q.Done? {
    } else if heard == [] {
      assert (heard + [l])[1..] == [];
      assert After(p, heard + [l]) == After(q.next_(l), []);
    } else {
      assert (heard + [l])[1..] == heard[1..] + [l];
      AfterAppend(q.next_(heard[0]), heard[1..], l);
    }
  }

  predicate Hello(l: Option<Line>, hello: AuthHello) {
    IsPacket(l) && l.value.kind == "auth.hello" && l.value.hello == Some(hello)
  }

  predicate Proof(l: Option<Line>, signature: string) {
    IsPacket(l) && l.value.kind == "auth.proof" && l.value.proof == Some(signature)
  }

  /** The signature verifies over the challenge under the encoded key, and the id is the key's, up to white space around it. */
  predicate ProvesKey(c: Crypto, challenge: string, id: string, encodedKey: string, signature: string) {
    var pub, sig := c.decode(encodedKey), c.decode(TrimSpace(signature));
    && pub.Some? && sig.Some? && |pub.value| == KEY_SIZE
    && TrimSpace(id) != "" && TrimSpace(id) == c.encode(c.hash(pub.value))
    && c.verify(pub.value, challenge, sig.value)
  }

  /** What the orchestrator must have heard to register `hello`. */
  ghost predicate MasterProved(c: Crypto, challenge: string, heard: seq<Option<Line>>, hello: AuthHello) {
    && |heard| >= 3 && Says(heard[0], HEADER_ORCH) && Hello(heard[1], hello) && hello.role == "master"
    && exists signature :: Proof(heard[2], signature) && ProvesKey(c, challenge, hello.id, hello.pubKey, signature)
  }

  /** What the master must have heard to register `hello` as a node. */
  ghost predicate SlaveProved(c: Crypto, challenge: string, heard: seq<Option<Line>>, hello: AuthHello) {
    && |heard| >= 3 && Says(heard[0], HEADER_MS) && Hello(heard[1], hello) && hello.role == "slave"
    && exists signature :: Proof(heard[2], signature) && ProvesKey(c, challenge, hello.id, hello.pubKey, signature)
  }

  /** The checks of the two servers come to the same. */
  lemma ChecksMean(c: Crypto, challenge: string, hello: AuthHello, signature: string)
    ensures VerifyMasterAuth(c, challenge, hello, signature) <==> ProvesKey(c, challenge, hello.id, hello.pubKey, signature)
    ensures var pub := c.decode(hello.pubKey);
      pub.Some? && VerifyIDForPublicKey(c, hello.id, pub.value) && VerifyChallengeSignature(c, pub.value, challenge, signature)
      <==> ProvesKey(c, challenge, hello.id, hello.pubKey, signature)
  {
  }

  // ----- what a server says -----

  /** The lines that a script writes when it reads `heard`. */
  function Said(p: Proc, heard: seq<Option<Line>>): seq<Line>
    decreases |heard|, p
  {
    match p
    case Write(l, next) => [l] + Said(next, heard)
    case Read(k) => if heard == [] then [] else Said(k(heard[0]), heard[1..])
    case Done(_) => []
  }

  predicate SaysHello(l: Option<Line>, role: string) {
    IsPacket(l) && l.value.kind == "auth.hello" && l.value.hello.Some? && l.value.hello.value.role == role
  }

  lemma OneRead(k: Option<Line> -> Proc, heard: seq<Option<Line>>)
    ensures heard == [] ==> After(Read(k), heard) == Read(k) && Said(Read(k), heard) == []
    ensures heard != [] ==> After(Read(k), heard) == After(k(heard[0]), heard[1..])
    ensures heard != [] ==> Said(Read(k), heard) == Said(k(heard[0]), heard[1..])
  {
  }

  lemma OneWrite(l: Line, next: Proc, heard: seq<Option<Line>>)
    ensures After(Write(l, next), heard) == After(next, heard) && Said(Write(l, next), heard) == [l] + Said(next, heard)
  {
  }

  lemma NoMore(o: Outcome, heard: seq<Option<Line>>)
    ensures After(Done(o), heard) == Done(o) && Said(Done(o), heard) == []
  {
  }

  /** A line and the end. */
  lemma LastWord(l: Line, o: Outcome, heard: seq<Option<Line>>)
    ensures After(Write(l, Done(o)), heard) == Done(o) && Said(Write(l, Done(o)), heard) == [l]
  {
    hide After, Said;
    OneWrite(l, Done(o), heard);
    NoMore(o, heard);
  }

  /** What the proof must show for the last word to be ok. */
  predicate GoodProof(c: Crypto, challenge: string, hello: AuthHello, l: Option<Line>) {
    IsPacket(l) && l.value.kind == "auth.proof" && l.value.proof.Some?
    && ProvesKey(c, challenge, hello.id, hello.pubKey, l.value.proof.value)
  }

  lemma OrchChecks(c: Crypto, whitelist: map<string, set<string>>, challenge: string, hello: AuthHello,
                   heard: seq<Option<Line>>)
    ensures var q := OrchCheck(c, whitelist, challenge, hello);
      var said, end := Said(q, heard), After(q, heard);
      if |heard| == 0 then said == [] && end.Read?
      else if !IsPacket(heard[0]) then said == [] && end == Done(Failed)
      else if GoodProof(c, challenge, hello, heard[0]) && Whitelisted(whitelist, hello.cluster, hello.id)
      then said == [OK_PACKET] && end == Done(Registered(hello))
      else said == [ERROR_PACKET] && end == Done(Rejected)
  {
    hide VerifyMasterAuth, Whitelisted, ProvesKey, After, Said;
    OneRead(OrchCheck(c, whitelist, challenge, hello).next_, heard);
    if |heard| >= 1 {
      if IsPacket(heard[0]) && heard[0].value.proof.Some? {
        ChecksMean(c, challenge, hello, heard[0].value.proof.value);
      }
      LastWord(ERROR_PACKET, Rejected, heard[1..]);
      LastWord(OK_PACKET, Registered(hello), heard[1..]);
      NoMore(Failed, heard[1..]);
    }
  }

  /** The orchestrator's script on each kind of input. */
  lemma OrchUnrolled(c: Crypto, whitelist: map<string, set<string>>, challenge: string, heard: seq<Option<Line>>)
    ensures var p, ch := OrchServer(c, whitelist, challenge), ChallengePacket(challenge);
      var said, end := Said(p, heard), After(p, heard);
      if |heard| == 0 then said == [] && end.Read?
      else if !Says(heard[0], HEADER_ORCH) then said == [ERROR_PACKET] && end == Done(Rejected)
      else if |heard| == 1 then said == [ch] && end.Read?
      else if !IsPacket(heard[1]) then said == [ch] && end == Done(Failed)
      else if !SaysHello(heard[1], "master") then said == [ch, ERROR_PACKET] && end == Done(Rejected)
      else
        var hello := heard[1].value.hello.value;
        if |heard| == 2 then said == [ch] && end.Read?
        else if !IsPacket(heard[2]) then said == [ch] && end == Done(Failed)
        else if GoodProof(c, challenge, hello, heard[2]) && Whitelisted(whitelist, hello.cluster, hello.id)
        then said == [ch, OK_PACKET] && end == Done(Registered(hello))
        else said == [ch, ERROR_PACKET] && end == Done(Rejected)
  {
    hide OrchCheck, GoodProof, Whitelisted, After, Said;
    var p := OrchServer(c, whitelist, challenge);
    OneRead(p.next_, heard);
    if |heard| >= 1 {
      var p1 := p.next_(heard[0]);
      if !Says(heard[0], HEADER_ORCH) {
        LastWord(ERROR_PACKET, Rejected, heard[1..]);
      } else {
        OneWrite(ChallengePacket(challenge), p1.next, heard[1..]);
        OneRead(p1.next.next_, heard[1..]);
        if |heard| >= 2 {
          assert heard[1..][0] == heard[1] && heard[1..][1..] == heard[2..];
          LastWord(ERROR_PACKET, Rejected, heard[2..]);
          NoMore(Failed, heard[2..]);
          if SaysHello(heard[1], "master") {
            OrchChecks(c, whitelist, challenge, heard[1].value.hello.value, heard[2..]);
          }
        }
      }
    }
  }

  /**
   * Whoever it talks to, the orchestrator first sends its challenge, says ok exactly if it registers the peer and error
   * exactly if it rejects it, and gives up without a word exactly on a line that is no packet.
   */
  lemma OrchSays(c: Crypto, whitelist: map<string, set<string>>, challenge: string, heard: seq<Option<Line>>)
    ensures var p := OrchServer(c, whitelist, challenge);
      var said, end := Said(p, heard), After(p, heard);
      && (|heard| >= 1 && Says(heard[0], HEADER_ORCH) ==> said != [] && said[0] == ChallengePacket(challenge))
      && (OK_PACKET in said <==> end.Done? && end.outcome.Registered?)
      && (ERROR_PACKET in said <==> end == Done(Rejected))
      && (end == Done(Failed) <==>
          && |heard| >= 2 && Says(heard[0], HEADER_ORCH)
          && (!IsPacket(heard[1]) || (SaysHello(heard[1], "master") && |heard| >= 3 && !IsPacket(heard[2]))))
      && (end.Read? <==>
          || |heard| == 0
          || (Says(heard[0], HEADER_ORCH) && (|heard| == 1 || (|heard| == 2 && SaysHello(heard[1], "master")))))
      && (end.Done? ==> end.outcome != Connected)
  {
    hide OrchServer, After, Said;
    OrchUnrolled(c, whitelist, challenge, heard);
  }

  lemma MasterChecks(c: Crypto, challenge: string, hello: AuthHello, pub: Bytes, heard: seq<Option<Line>>)
    requires c.decode(hello.pubKey) == Some(pub) && VerifyIDForPublicKey(c, hello.id, pub)
    ensures var q := MasterCheck(c, challenge, hello, pub);
      var said, end := Said(q, heard), After(q, heard);
      if |heard| == 0 then said == [] && end.Read?
      else if !IsPacket(heard[0]) then said == [] && end == Done(Failed)
      else if GoodProof(c, challenge, hello, heard[0]) then said == [OK_PACKET] && end == Done(Registered(hello))
      else said == [ERROR_PACKET] && end == Done(Rejected)
  {
    hide VerifyMasterAuth, VerifyIDForPublicKey, VerifyChallengeSignature, ProvesKey, After, Said;
    OneRead(MasterCheck(c, challenge, hello, pub).next_, heard);
    if |heard| >= 1 {
      if IsPacket(heard[0]) && heard[0].value.proof.Some? {
        ChecksMean(c, challenge, hello, heard[0].value.proof.value);
      }
      LastWord(ERROR_PACKET, Rejected, heard[1..]);
      LastWord(OK_PACKET, Registered(hello), heard[1..]);
      NoMore(Failed, heard[1..]);
    }
  }

  /** The peer claims the id of the key it shows, and the allow list does not shut it out. */
  predicate Welcome(c: Crypto, allowed: set<string>, l: Option<Line>) {
    SaysHello(l, "slave")
    && var hello := l.value.hello.value; var pub := c.decode(hello.pubKey);
    && pub.Some? && TrimSpace(hello.id) != "" && TrimSpace(hello.id) == c.encode(c.hash(pub.value))
    && (allowed == {} || hello.id in allowed)
  }

  /** The master's script on each kind of input. */
  lemma MasterUnrolled(c: Crypto, allowed: set<string>, challenge: string, heard: seq<Option<Line>>)
    ensures var p, ch := MasterServer(c, allowed, challenge), ChallengePacket(challenge);
      var said, end := Said(p, heard), After(p, heard);
      if |heard| == 0 then said == [] && end.Read?
      else if !Says(heard[0], HEADER_MS) then said == [ERROR_PACKET] && end == Done(Rejected)
      else if |heard| == 1 then said == [] && end.Read?
      else if !IsPacket(heard[1]) then said == [] && end == Done(Failed)
      else if !Welcome(c, allowed, heard[1]) then said == [ERROR_PACKET] && end == Done(Rejected)
      else
        var hello := heard[1].value.hello.value;
        if |heard| == 2 then said == [ch] && end.Read?
        else if !IsPacket(heard[2]) then said == [ch] && end == Done(Failed)
        else if GoodProof(c, challenge, hello, heard[2]) then said == [ch, OK_PACKET] && end == Done(Registered(hello))
        else said == [ch, ERROR_PACKET] && end == Done(Rejected)
  {
    hide MasterCheck, GoodProof, TrimSpace, After, Said;
    var p := MasterServer(c, allowed, challenge);
    OneRead(p.next_, heard);
    if |heard| >= 1 {
      var p1 := p.next_(heard[0]);
      if !Says(heard[0], HEADER_MS) {
        LastWord(ERROR_PACKET, Rejected, heard[1..]);
      } else {
        OneRead(p1.next_, heard[1..]);
        if |heard| >= 2 {
          assert heard[1..][0] == heard[1] && heard[1..][1..] == heard[2..];
          LastWord(ERROR_PACKET, Rejected, heard[2..]);
          NoMore(Failed, heard[2..]);
          if Welcome(c, allowed, heard[1]) {
            var hello := heard[1].value.hello.value;
            var pub := c.decode(hello.pubKey).value;
            OneWrite(ChallengePacket(challenge), MasterCheck(c, challenge, hello, pub), heard[2..]);
            MasterChecks(c, challenge, hello, pub, heard[2..]);
          }
        }
      }
    }
  }

  /** The same of the master and a peer that wants to be its node; here the challenge comes after the hello. */
  lemma MasterSays(c: Crypto, allowed: set<string>, challenge: string, heard: seq<Option<Line>>)
    ensures var p := MasterServer(c, allowed, challenge);
      var said, end := Said(p, heard), After(p, heard);
      && (ChallengePacket(challenge) in said <==>
          |heard| >= 2 && Says(heard[0], HEADER_MS) && Welcome(c, allowed, heard[1]))
      && (OK_PACKET in said <==> end.Done? && end.outcome.Registered?)
      && (ERROR_PACKET in said <==> end == Done(Rejected))
      && (end == Done(Failed) <==>
          && |heard| >= 2 && Says(heard[0], HEADER_MS)
          && (!IsPacket(heard[1]) || (Welcome(c, allowed, heard[1]) && |heard| >= 3 && !IsPacket(heard[2]))))
      && (end.Read? <==>
          || |heard| == 0
          || (Says(heard[0], HEADER_MS) && (|heard| == 1 || (|heard| == 2 && Welcome(c, allowed, heard[1])))))
      && (end.Done? ==> end.outcome != Connected)
  {
    hide MasterServer, GoodProof, TrimSpace, After, Said;
    MasterUnrolled(c, allowed, challenge, heard);
    var ch := ChallengePacket(challenge);
    assert ch != OK_PACKET && ch != ERROR_PACKET && OK_PACKET != ERROR_PACKET;
    assert ch in [ch] && ch in [ch, OK_PACKET] && ch in [ch, ERROR_PACKET] && ch !in [ERROR_PACKET];
  }

  // ----- what a server concludes -----

  /** The orchestrator registers a peer exactly when it proved a key whose id it claims, and the whitelist admits it. */
  lemma OrchRegistersIff(c: Crypto, whitelist: map<string, set<string>>, challenge: string,
                         heard: seq<Option<Line>>, hello: AuthHello)
    ensures After(OrchServer(c, whitelist, challenge), heard) == Done(Registered(hello)) <==>
            MasterProved(c, challenge, heard, hello) && Whitelisted(whitelist, hello.cluster, hello.id)
  {
    hide OrchServer, OrchCheck, After, Said, Whitelisted, ProvesKey;
    OrchUnrolled(c, whitelist, challenge, heard);
    if |heard| >= 3 && SaysHello(heard[1], "master") && IsPacket(heard[2]) && heard[2].value.proof.Some? {
      assert Proof(heard[2], heard[2].value.proof.value) || heard[2].value.kind != "auth.proof";
    }
  }

  /** The master registers a peer as a node exactly when it proved a key whose id it claims and is on the allow list, if there is one. */
  lemma MasterRegistersIff(c: Crypto, allowed: set<string>, challenge: string, heard: seq<Option<Line>>, hello: AuthHello)
    ensures After(MasterServer(c, allowed, challenge), heard) == Done(Registered(hello)) <==>
            SlaveProved(c, challenge, heard, hello) && (allowed == {} || hello.id in allowed)
  {
    hide MasterServer, MasterCheck, After, Said;
    MasterUnrolled(c, allowed, challenge, heard);
    if |heard| >= 3 && IsPacket(heard[2]) && heard[2].value.proof.Some? {
      assert Proof(heard[2], heard[2].value.proof.value) || heard[2].value.kind != "auth.proof";
    }
  }

  // ----- what a client concludes -----

  /** The challenge that the slave can sign. */
  predicate Signable(priv: Bytes, l: Option<Line>) {
    IsPacket(l) && l.value.kind == "auth.challenge" && l.value.challenge.Some?
    && priv != [] && TrimSpace(l.value.challenge.value) != ""
  }

  predicate SaysKind(l: Option<Line>, kind: string) { IsPacket(l) && l.value.kind == kind }

  /** The last part of the slave's script, after its proof. */
  lemma SlaveHears(heard: seq<Option<Line>>)
    ensures var end := After(SlaveVerdict(), heard);
      if |heard| == 0 then end.Read?
      else if !IsPacket(heard[0]) then end == Done(Failed)
      else if SaysKind(heard[0], "auth.ok") then end == Done(Connected)
      else end == Done(Rejected)
    ensures Said(SlaveVerdict(), heard) == []
  {
    hide After, Said;
    OneRead(SlaveVerdict().next_, heard);
    if |heard| >= 1 {
      NoMore(Failed, heard[1..]);
      NoMore(Rejected, heard[1..]);
      NoMore(Connected, heard[1..]);
    }
  }

  /** The slave's script on each kind of input, with all it writes. */
  lemma SlaveUnrolled(c: Crypto, pub: Bytes, priv: Bytes, heard: seq<Option<Line>>)
    ensures var p := SlaveClient(c, pub, priv);
      var said, end := Said(p, heard), After(p, heard);
      if |pub| != KEY_SIZE then said == [Raw(HEADER_MS)] && end == Done(Failed)
      else
        var opening := [Raw(HEADER_MS), HelloPacket(AuthHello(c.encode(c.hash(pub)), c.encode(pub), "slave", ""))];
        if |heard| == 0 then said == opening && end.Read?
        else if SaysKind(heard[0], "error") then said == opening && end == Done(Rejected)
        else if !Signable(priv, heard[0]) then said == opening && end == Done(Failed)
        else
          var proof := ProofPacket(c.encode(c.sign(priv, TrimSpace(heard[0].value.challenge.value))));
          said == opening + [proof] &&
          if |heard| == 1 then end.Read?
          else if !IsPacket(heard[1]) then end == Done(Failed)
          else if SaysKind(heard[1], "auth.ok") then end == Done(Connected)
          else end == Done(Rejected)
  {
    hide After, Said, TrimSpace, SlaveVerdict;
    var p := SlaveClient(c, pub, priv);
    OneWrite(p.line, p.next, heard);
    if |pub| != KEY_SIZE {
      NoMore(Failed, heard);
    } else {
      OneWrite(p.next.line, p.next.next, heard);
      var q := p.next.next;
      OneRead(q.next_, heard);
      if |heard| >= 1 {
        NoMore(Rejected, heard[1..]);
        NoMore(Failed, heard[1..]);
        if Signable(priv, heard[0]) {
          var w := q.next_(heard[0]);
          OneWrite(w.line, SlaveVerdict(), heard[1..]);
          SlaveHears(heard[1..]);
        }
      }
    }
  }

  /** Whoever it talks to, the slave ends connected exactly on a challenge it can sign followed by auth.ok. */
  lemma SlaveConcludes(c: Crypto, pub: Bytes, priv: Bytes, heard: seq<Option<Line>>)
    ensures var end := After(SlaveClient(c, pub, priv), heard);
      && (end == Done(Connected) <==>
          |pub| == KEY_SIZE && |heard| >= 2 && Signable(priv, heard[0]) && SaysKind(heard[1], "auth.ok"))
      && (end == Done(Rejected) <==>
          && |pub| == KEY_SIZE && |heard| >= 1
          && (SaysKind(heard[0], "error")
              || (Signable(priv, heard[0]) && |heard| >= 2 && IsPacket(heard[1]) && !SaysKind(heard[1], "auth.ok"))))
      && (end.Read? <==>
          |pub| == KEY_SIZE && (|heard| == 0 || (|heard| == 1 && Signable(priv, heard[0]))))
      && (end.Done? ==> !end.outcome.Registered?)
  {
    hide SlaveClient, After, Said, TrimSpace;
    SlaveUnrolled(c, pub, priv, heard);
  }

  predicate SaysChallenge(l: Option<Line>) { SaysKind(l, "auth.challenge") && l.value.challenge.Some? }

  /** Its last part, after the hello and the proof. */
  lemma MasterHears(heard: seq<Option<Line>>)
    ensures var end := After(MasterVerdict(), heard);
      if |heard| == 0 then end.Read?
      else if SaysKind(heard[0], "error") then end == Done(Rejected)
      else if SaysKind(heard[0], "auth.ok") then end == Done(Connected)
      else end == Done(Failed)
    ensures Said(MasterVerdict(), heard) == []
  {
    hide After, Said;
    OneRead(MasterVerdict().next_, heard);
    if |heard| >= 1 {
      NoMore(Failed, heard[1..]);
      NoMore(Rejected, heard[1..]);
      NoMore(Connected, heard[1..]);
    }
  }

  /** The script of a master towards the orchestrator on each kind of input, with all it writes. */
  lemma MasterClientUnrolled(c: Crypto, pub: Bytes, priv: Bytes, cluster: string, heard: seq<Option<Line>>)
    ensures var p := MasterClient(c, pub, priv, cluster);
      var said, end := Said(p, heard), After(p, heard);
      if |heard| == 0 then said == [Raw(HEADER_ORCH)] && end.Read?
      else if !SaysChallenge(heard[0]) then said == [Raw(HEADER_ORCH)] && end == Done(Failed)
      else
        var id := if pub == [] then "" else c.encode(c.hash(pub));
        var name := if TrimSpace(cluster) == "" then "default" else TrimSpace(cluster);
        said == [Raw(HEADER_ORCH), HelloPacket(AuthHello(id, c.encode(pub), "master", name)),
                 ProofPacket(c.encode(c.sign(priv, heard[0].value.challenge.value)))] &&
        if |heard| == 1 then end.Read?
        else if SaysKind(heard[1], "error") then end == Done(Rejected)
        else if SaysKind(heard[1], "auth.ok") then end == Done(Connected)
        else end == Done(Failed)
  {
    hide After, Said, TrimSpace, MasterVerdict;
    var p := MasterClient(c, pub, priv, cluster);
    OneWrite(p.line, p.next, heard);
    OneRead(p.next.next_, heard);
    if |heard| >= 1 {
      NoMore(Failed, heard[1..]);
      if SaysChallenge(heard[0]) {
        var w := p.next.next_(heard[0]);
        OneWrite(w.line, w.next, heard[1..]);
        OneWrite(w.next.line, MasterVerdict(), heard[1..]);
        MasterHears(heard[1..]);
      }
    }
  }

  /** Whoever it talks to, the master ends connected exactly on a challenge followed by auth.ok, and rejected on one followed by an error. */
  lemma MasterConcludes(c: Crypto, pub: Bytes, priv: Bytes, cluster: string, heard: seq<Option<Line>>)
    ensures var end := After(MasterClient(c, pub, priv, cluster), heard);
      && (end == Done(Connected) <==> |heard| >= 2 && SaysChallenge(heard[0]) && SaysKind(heard[1], "auth.ok"))
      && (end == Done(Rejected) <==> |heard| >= 2 && SaysChallenge(heard[0]) && SaysKind(heard[1], "error"))
      && (end.Read? <==> |heard| == 0 || (|heard| == 1 && SaysChallenge(heard[0])))
      && (end.Done? ==> !end.outcome.Registered?)
  {
    hide MasterClient, After, Said, TrimSpace;
    MasterClientUnrolled(c, pub, priv, cluster, heard);
  }
}

/** The two handshakes: a slave with its master, which starts with the client's hello, and a master with the orchestrator, which starts with the challenge. */
module Handshake {
  import Bits
  import opened Text
  import opened Process
  import opened Wrappers

  type Bytes = seq<Bits.Byte>

  /** SHA-256, Ed25519 and base64url as functions; `Lawful` is all that is assumed of them. */
  datatype Crypto = Crypto(
    hash: Bytes -> Bytes,
    sign: (Bytes, string) -> Bytes,
    verify: (Bytes, string, Bytes) -> bool,
    encode: Bytes -> string,
    decode: string -> Option<Bytes>)
  {
    ghost predicate Lawful() {
      forall b :: Trimmed(encode(b)) && decode(encode(b)) == Some(b) && (encode(b) == "" <==> b == []) && hash(b) != []
    }
  }

  const HEADER_MS := "CENTRALISD-MS/1"
  const HEADER_ORCH := "CENTRALISD-ORCH/1"
  const KEY_SIZE := 32

  /** A key pair whose signatures verify. */
  ghost predicate KeyPair(c: Crypto, pub: Bytes, priv: Bytes) {
    |pub| == KEY_SIZE && priv != [] && forall m :: c.verify(pub, m, c.sign(priv, m))
  }

  // ----- the assumptions can be met -----

  /** A byte as a character that is neither white space nor ASCII. */
  function Letter(b: Bits.Byte): char { (0x100 + b) as char }

  function Spell(b: Bytes): (s: string)
    ensures |s| == |b|
  {
    seq(|b|, i requires 0 <= i < |b| => Letter(b[i]))
  }

  function Unletter(c: char): Bits.Byte {
    if 0x100 <= c as int < 0x200 then c as int - 0x100 else 0
  }

  function Unspell(s: string): Option<Bytes> {
    if exists c :: c in s && Letter(Unletter(c)) != c then None
    else
      var b: Bytes := seq(|s|, i requires 0 <= i < |s| => Unletter(s[i]));
      Some(b)
  }

  /** Signing appends the message to the key; a signature verifies exactly if it is that. */
  function Countersign(key: Bytes, m: string): Bytes {
    key + seq(|m|, i requires 0 <= i < |m| => m[i] as int % 256)
  }

  const CLEARTEXT := Crypto(
    (b: Bytes) => [0] + b,
    (key: Bytes, m: string) => Countersign(key, m),
    (key: Bytes, m: string, s: Bytes) => s == Countersign(key, m),
    Spell,
    Unspell)

  lemma AssumptionsHold(key: Bytes)
    requires |key| == KEY_SIZE
    ensures CLEARTEXT.Lawful() && KeyPair(CLEARTEXT, key, key)
    ensures forall m :: !CLEARTEXT.verify(key, m, [])
  {
    forall b: Bytes ensures Trimmed(Spell(b)) && Unspell(Spell(b)) == Some(b) && (Spell(b) == "" <==> b == []) {
      assert forall c :: c in Spell(b) ==> Letter(Unletter(c)) == c;
      assert Unspell(Spell(b)).value == b;
    }
  }

  function IdOf(c: Crypto, pub: Bytes): string { c.encode(c.hash(pub)) }

  predicate VerifyIDForPublicKey(c: Crypto, id: string, pub: Bytes) {
    TrimSpace(id) != "" && TrimSpace(id) == IdOf(c, pub)
  }

  function SignChallenge(c: Crypto, priv: Bytes, challenge: string): Option<string> {
    if priv == [] || TrimSpace(challenge) == "" then None else Some(c.encode(c.sign(priv, TrimSpace(challenge))))
  }

  predicate VerifyChallengeSignature(c: Crypto, pub: Bytes, challenge: string, signature: string) {
    |pub| == KEY_SIZE
    && var sig := c.decode(TrimSpace(signature)); sig.Some? && c.verify(pub, challenge, sig.value)
  }

  predicate VerifyMasterAuth(c: Crypto, challenge: string, hello: AuthHello, signature: string) {
    var pub := c.decode(hello.pubKey);
    && pub.Some? && |pub.value| == KEY_SIZE
    && VerifyIDForPublicKey(c, hello.id, pub.value)
    && VerifyChallengeSignature(c, pub.value, challenge, signature)
  }

  // ----- packets -----

  function HelloPacket(h: AuthHello): Line { Packet("auth.hello", Some(h), None, None) }
  function ChallengePacket(s: string): Line { Packet("auth.challenge", None, Some(s), None) }
  function ProofPacket(s: string): Line { Packet("auth.proof", None, None, Some(s)) }
  const OK_PACKET := Packet("auth.ok", None, None, None)
  const ERROR_PACKET := Packet("error", None, None, None)

  const GIVE_UP := Done(Failed)
  const REFUSE := Write(ERROR_PACKET, Done(Rejected))

  predicate Says(line: Option<Line>, header: string) {
    line.Some? && line.value.Raw? && line.value.text == header
  }

  predicate IsPacket(line: Option<Line>) { line.Some? && line.value.Packet? }

  // ----- slave and master -----

  /** Connect of the slave package, up to its dispatch loop. */
  function SlaveClient(c: Crypto, pub: Bytes, priv: Bytes): Proc {
    if |pub| != KEY_SIZE then Write(Raw(HEADER_MS), GIVE_UP)
    else
      Write(Raw(HEADER_MS), Write(HelloPacket(AuthHello(IdOf(c, pub), c.encode(pub), "slave", "")),
      Read((l: Option<Line>) =>
        if !IsPacket(l) then GIVE_UP
        else if l.value.kind == "error" then Done(Rejected)
        else if l.value.kind != "auth.challenge" || l.value.challenge.None? then GIVE_UP
        else
          var sig := SignChallenge(c, priv, l.value.challenge.value);
          if sig.None? then GIVE_UP
          else
            Write(ProofPacket(sig.value), SlaveVerdict()))))
  }

  /** Its last part, after the proof. */
  function SlaveVerdict(): Proc {
    Read((r: Option<Line>) =>
      if !IsPacket(r) then GIVE_UP
      else if r.value.kind != "auth.ok" then Done(Rejected)
      else Done(Connected))
  }

  /** handleConnection of the master package, up to registerNode. */
  function MasterServer(c: Crypto, allowed: set<string>, challenge: string): Proc {
    Read((l: Option<Line>) => if !Says(l, HEADER_MS) then REFUSE else
    Read((h: Option<Line>) =>
      if !IsPacket(h) then GIVE_UP
      else if h.value.kind != "auth.hello" || h.value.hello.None? then REFUSE
      else
        var hello := h.value.hello.value;
        var pub := c.decode(hello.pubKey);
        if hello.role != "slave" || pub.None? || !VerifyIDForPublicKey(c, hello.id, pub.value) then REFUSE
        else if allowed != {} && hello.id !in allowed then REFUSE
        else Write(ChallengePacket(challenge), MasterCheck(c, challenge, hello, pub.value))))
  }

  /** Its last part, from the proof on. */
  function MasterCheck(c: Crypto, challenge: string, hello: AuthHello, pub: Bytes): Proc {
    Read((p: Option<Line>) =>
      if !IsPacket(p) then GIVE_UP
      else if p.value.kind != "auth.proof" || p.value.proof.None? then REFUSE
      else if !VerifyChallengeSignature(c, pub, challenge, p.value.proof.value) then REFUSE
      else Write(OK_PACKET, Done(Registered(hello))))
  }

  // ----- master and orchestrator -----

  /** connectLoop of the master package, up to the register packet; `cluster` is the configured one. */
  function MasterClient(c: Crypto, pub: Bytes, priv: Bytes, cluster: string): Proc {
    Write(Raw(HEADER_ORCH),
    Read((l: Option<Line>) =>
      if !IsPacket(l) || l.value.kind != "auth.challenge" || l.value.challenge.None? then GIVE_UP
      else
        Write(HelloPacket(AuthHello(if pub == [] then "" else IdOf(c, pub), c.encode(pub), "master", ClusterName(cluster))),
        Write(ProofPacket(c.encode(c.sign(priv, l.value.challenge.value))), MasterVerdict()))))
  }

  /** Its last part, after the hello and the proof. */
  function MasterVerdict(): Proc {
    Read((r: Option<Line>) =>
      if !IsPacket(r) then GIVE_UP
      else if r.value.kind == "error" then Done(Rejected)
      else if r.value.kind != "auth.ok" then GIVE_UP
      else Done(Connected))
  }

  /** A blank cluster name means the default cluster. */
  function ClusterName(cluster: string): string {
    if TrimSpace(cluster) == "" then "default" else TrimSpace(cluster)
  }

  predicate Whitelisted(whitelist: map<string, set<string>>, cluster: string, id: string) {
    |whitelist| > 0 ==> cluster in whitelist && id in whitelist[cluster]
  }

  /** handleConn of the tcp package, up to registerMasterConn. */
  function OrchServer(c: Crypto, whitelist: map<string, set<string>>, challenge: string): Proc {
    Read((l: Option<Line>) => if !Says(l, HEADER_ORCH) then REFUSE else
    Write(ChallengePacket(challenge),
    Read((h: Option<Line>) =>
      if !IsPacket(h) then GIVE_UP
      else if h.value.kind != "auth.hello" || h.value.hello.None? || h.value.hello.value.role != "master" then REFUSE
      else OrchCheck(c, whitelist, challenge, h.value.hello.value))))
  }

  /** Its last part, from the proof on. */
  function OrchCheck(c: Crypto, whitelist: map<string, set<string>>, challenge: string, hello: AuthHello): Proc {
    Read((p: Option<Line>) =>
      if !IsPacket(p) then GIVE_UP
      else if p.value.kind != "auth.proof" || p.value.proof.None? then REFUSE
      else if !VerifyMasterAuth(c, challenge, hello, p.value.proof.value) then REFUSE
      else if !Whitelisted(whitelist, hello.cluster, hello.id) then REFUSE
      else Write(OK_PACKET, Done(Registered(hello))))
  }

  // ----- the same as the code runs it, against the scripts -----

  method Connect(w: Conn, c: Crypto, pub: Bytes, priv: Bytes) returns (o: Outcome)
    requires w.script == SlaveClient(c, pub, priv)
    modifies w
    ensures w.script == Done(o)
  {
    w.WriteLine(Raw(HEADER_MS));
    if |pub| != KEY_SIZE {
      return Failed;
    }
    w.WriteLine(HelloPacket(AuthHello(IdOf(c, pub), c.encode(pub), "slave", "")));
    var l := w.ReadLine();
    if !IsPacket(l) {
      return Failed;
    }
    if l.value.kind == "error" {
      return Rejected;
    }
    if l.value.kind != "auth.challenge" || l.value.challenge.None? {
      return Failed;
    }
    var sig := SignChallenge(c, priv, l.value.challenge.value);
    if sig.None? {
      return Failed;
    }
    w.WriteLine(ProofPacket(sig.value));
    var r := w.ReadLine();
    if !IsPacket(r) {
      return Failed;
    }
    if r.value.kind != "auth.ok" {
      return Rejected;
    }
    return Connected;
  }

  method HandleConnection(w: Conn, c: Crypto, allowed: set<string>, challenge: string) returns (o: Outcome)
    requires w.script == MasterServer(c, allowed, challenge)
    modifies w
    ensures w.script == Done(o)
  {
    var l := w.ReadLine();
    if !Says(l, HEADER_MS) {
      w.WriteLine(ERROR_PACKET);
      return Rejected;
    }
    var h := w.ReadLine();
    if !IsPacket(h) {
      return Failed;
    }
    if h.value.kind != "auth.hello" || h.value.hello.None? {
      w.WriteLine(ERROR_PACKET);
      return Rejected;
    }
    var hello := h.value.hello.value;
    var pub := c.decode(hello.pubKey);
    if hello.role != "slave" || pub.None? || !VerifyIDForPublicKey(c, hello.id, pub.value) {
      w.WriteLine(ERROR_PACKET);
      return Rejected;
    }
    if allowed != {} && hello.id !in allowed {
      w.WriteLine(ERROR_PACKET);
      return Rejected;
    }
    w.WriteLine(ChallengePacket(challenge));
    var p := w.ReadLine();
    if !IsPacket(p) {
      return Failed;
    }
    if p.value.kind != "auth.proof" || p.value.proof.None?
       || !VerifyChallengeSignature(c, pub.value, challenge, p.value.proof.value) {
      w.WriteLine(ERROR_PACKET);
      return Rejected;
    }
    w.WriteLine(OK_PACKET);
    return Registered(hello);
  }

  method ConnectLoop(w: Conn, c: Crypto, pub: Bytes, priv: Bytes, cluster: string) returns (o: Outcome)
    requires w.script == MasterClient(c, pub, priv, cluster)
    modifies w
    ensures w.script == Done(o)
  {
    w.WriteLine(Raw(HEADER_ORCH));
    var l := w.ReadLine();
    if !IsPacket(l) || l.value.kind != "auth.challenge" || l.value.challenge.None? {
      return Failed;
    }
    var id := if pub == [] then "" else IdOf(c, pub);
    w.WriteLine(HelloPacket(AuthHello(id, c.encode(pub), "master", ClusterName(cluster))));
    w.WriteLine(ProofPacket(c.encode(c.sign(priv, l.value.challenge.value))));
    var r := w.ReadLine();
    if !IsPacket(r) {
      return Failed;
    }
    if r.value.kind == "error" {
      return Rejected;
    }
    if r.value.kind != "auth.ok" {
      return Failed;
    }
    return Connected;
  }

  method HandleConn(w: Conn, c: Crypto, whitelist: map<string, set<string>>, challenge: string) returns (o: Outcome)
    requires w.script == OrchServer(c, whitelist, challenge)
    modifies w
    ensures w.script == Done(o)
  {
    var l := w.ReadLine();
    if !Says(l, HEADER_ORCH) {
      w.WriteLine(ERROR_PACKET);
      return Rejected;
    }
    w.WriteLine(ChallengePacket(challenge));
    var h := w.ReadLine();
    if !IsPacket(h) {
      return Failed;
    }
    if h.value.kind != "auth.hello" || h.value.hello.None? || h.value.hello.value.role != "master" {
      w.WriteLine(ERROR_PACKET);
      return Rejected;
    }
    var hello := h.value.hello.value;
    var p := w.ReadLine();
    if !IsPacket(p) {
      return Failed;
    }
    if p.value.kind != "auth.proof" || p.value.proof.None?
       || !VerifyMasterAuth(c, challenge, hello, p.value.proof.value) {
      w.WriteLine(ERROR_PACKET);
      return Rejected;
    }
    if |whitelist| > 0 {
      if hello.cluster !in whitelist {
        w.WriteLine(ERROR_PACKET);
        return Rejected;
      }
      if hello.id !in whitelist[hello.cluster] {
        w.WriteLine(ERROR_PACKET);
        return Rejected;
      }
    }
    w.WriteLine(OK_PACKET);
    return Registered(hello);
  }

  // ----- an honest client with its server -----

  /** The challenges of `GenerateChallenge`: base64url text of 64 bytes. */
  predicate ChallengeText(challenge: string) { challenge != "" && Trimmed(challenge) }

  lemma HonestIdentity(c: Crypto, pub: Bytes, priv: Bytes, challenge: string)
    requires c.Lawful() && KeyPair(c, pub, priv) && ChallengeText(challenge)
    ensures VerifyIDForPublicKey(c, IdOf(c, pub), pub) && c.decode(c.encode(pub)) == Some(pub)
    ensures SignChallenge(c, priv, challenge) == Some(c.encode(c.sign(priv, challenge)))
    ensures VerifyChallengeSignature(c, pub, challenge, c.encode(c.sign(priv, challenge)))
  {
    TrimmedUnchanged(IdOf(c, pub));
    TrimmedUnchanged(challenge);
    TrimmedUnchanged(c.encode(c.sign(priv, challenge)));
    assert c.encode(c.hash(pub)) != "";
  }

  /** Slave and master: the slave ends connected and registered under its id when the master admits it. */
  lemma SlaveAccepted(c: Crypto, pub: Bytes, priv: Bytes, allowed: set<string>, challenge: string)
    requires c.Lawful() && KeyPair(c, pub, priv) && ChallengeText(challenge)
    requires allowed == {} || IdOf(c, pub) in allowed
    ensures var hello := AuthHello(IdOf(c, pub), c.encode(pub), "slave", "");
      AlwaysEnds(SlaveClient(c, pub, priv), MasterServer(c, allowed, challenge), 10, Connected, Registered(hello))
  {
    hide TrimSpace, Trimmed, VerifyIDForPublicKey, VerifyChallengeSignature, SignChallenge, IdOf, EndsIn;
    HonestIdentity(c, pub, priv, challenge);
    var g0 := Start(SlaveClient(c, pub, priv), MasterServer(c, allowed, challenge));
    var g1 := Step(g0, Client).value;
    var g2 := Step(g1, Client).value;
    var g3 := Step(g2, Server).value;
    var g4 := Step(g3, Server).value;
    var g5 := Step(g4, Server).value;
    var g6 := Step(g5, Client).value;
    var g7 := Step(g6, Client).value;
    var g8 := Step(g7, Server).value;
    var g9 := Step(g8, Server).value;
    var g10 := Step(g9, Client).value;
    RunEnds(g0, [Client, Client, Server, Server, Server, Client, Client, Server, Server, Client],
            [g0, g1, g2, g3, g4, g5, g6, g7, g8, g9, g10], 0);
  }

  /** Otherwise its id is missing from a non-empty allow list, and it sees an error. */
  lemma SlaveRefused(c: Crypto, pub: Bytes, priv: Bytes, allowed: set<string>, challenge: string)
    requires c.Lawful() && KeyPair(c, pub, priv) && ChallengeText(challenge)
    requires allowed != {} && IdOf(c, pub) !in allowed
    ensures AlwaysEnds(SlaveClient(c, pub, priv), MasterServer(c, allowed, challenge), 6, Rejected, Rejected)
  {
    hide TrimSpace, Trimmed, VerifyIDForPublicKey, VerifyChallengeSignature, SignChallenge, IdOf, EndsIn;
    HonestIdentity(c, pub, priv, challenge);
    var g0 := Start(SlaveClient(c, pub, priv), MasterServer(c, allowed, challenge));
    var g1 := Step(g0, Client).value;
    var g2 := Step(g1, Client).value;
    var g3 := Step(g2, Server).value;
    var g4 := Step(g3, Server).value;
    var g5 := Step(g4, Server).value;
    var g6 := Step(g5, Client).value;
    RunEnds(g0, [Client, Client, Server, Server, Server, Client], [g0, g1, g2, g3, g4, g5, g6], 0);
  }

  /** Master and orchestrator: the same, with the cluster whitelist; the refusal comes where the acceptance would. */
  lemma MasterHandshake(c: Crypto, pub: Bytes, priv: Bytes, cluster: string, whitelist: map<string, set<string>>, challenge: string)
    requires c.Lawful() && KeyPair(c, pub, priv) && ChallengeText(challenge)
    ensures var hello := AuthHello(IdOf(c, pub), c.encode(pub), "master", ClusterName(cluster));
      if Whitelisted(whitelist, hello.cluster, hello.id)
      then AlwaysEnds(MasterClient(c, pub, priv, cluster), OrchServer(c, whitelist, challenge), 10, Connected, Registered(hello))
      else AlwaysEnds(MasterClient(c, pub, priv, cluster), OrchServer(c, whitelist, challenge), 10, Rejected, Rejected)
  {
    hide TrimSpace, Trimmed, VerifyIDForPublicKey, VerifyChallengeSignature, IdOf, ClusterName, Whitelisted, EndsIn;
    HonestIdentity(c, pub, priv, challenge);
    var hello := AuthHello(IdOf(c, pub), c.encode(pub), "master", ClusterName(cluster));
    var g0 := Start(MasterClient(c, pub, priv, cluster), OrchServer(c, whitelist, challenge));
    var g1 := Step(g0, Client).value;
    var g2 := Step(g1, Server).value;
    var g3 := Step(g2, Server).value;
    var g4 := Step(g3, Client).value;
    var g5 := Step(g4, Client).value;
    var g6 := Step(g5, Client).value;
    var g7 := Step(g6, Server).value;
    var g8 := Step(g7, Server).value;
    var g9 := Step(g8, Server).value;
    var g10 := Step(g9, Client).value;
    RunEnds(g0, [Client, Server, Server, Client, Client, Client, Server, Server, Server, Client],
            [g0, g1, g2, g3, g4, g5, g6, g7, g8, g9, g10], 0);
  }

  /**
   * Every interleaving of an honest slave with its master takes at most ten steps and stops only when both are done; then
   * the slave is connected exactly when the master registered it under its id, and otherwise the allow list is not empty,
   * lacks the id, and the slave saw an error.
   */
  lemma SlaveEveryRun(c: Crypto, pub: Bytes, priv: Bytes, allowed: set<string>, challenge: string,
                      schedule: seq<Side>, gs: seq<Config>)
    requires c.Lawful() && KeyPair(c, pub, priv) && ChallengeText(challenge)
    requires Run(Start(SlaveClient(c, pub, priv), MasterServer(c, allowed, challenge)), schedule, gs)
    ensures |schedule| <= 10
    ensures var last := gs[|schedule|]; Stuck(last) ==>
      && last.client.Done? && last.server.Done?
      && (last.client.outcome == Connected <==>
          last.server.outcome.Registered? && last.server.outcome.hello.id == IdOf(c, pub))
      && (last.client.outcome != Connected ==>
          last.client.outcome == Rejected && allowed != {} && IdOf(c, pub) !in allowed)
  {
    hide SlaveClient, MasterServer, Run, Step;
    var hello := AuthHello(IdOf(c, pub), c.encode(pub), "slave", "");
    if allowed == {} || hello.id in allowed {
      SlaveAccepted(c, pub, priv, allowed, challenge);
      EveryRunEnds(SlaveClient(c, pub, priv), MasterServer(c, allowed, challenge), 10, Connected, Registered(hello), schedule, gs);
    } else {
      SlaveRefused(c, pub, priv, allowed, challenge);
      EveryRunEnds(SlaveClient(c, pub, priv), MasterServer(c, allowed, challenge), 6, Rejected, Rejected, schedule, gs);
    }
  }

  /** The same for an honest master with the orchestrator, whose whitelist names ids cluster by cluster. */
  lemma MasterEveryRun(c: Crypto, pub: Bytes, priv: Bytes, cluster: string, whitelist: map<string, set<string>>,
                       challenge: string, schedule: seq<Side>, gs: seq<Config>)
    requires c.Lawful() && KeyPair(c, pub, priv) && ChallengeText(challenge)
    requires Run(Start(MasterClient(c, pub, priv, cluster), OrchServer(c, whitelist, challenge)), schedule, gs)
    ensures |schedule| <= 10
    ensures var last := gs[|schedule|]; Stuck(last) ==>
      && last.client.Done? && last.server.Done?
      && (last.client.outcome == Connected <==>
          last.server.outcome.Registered? && last.server.outcome.hello.id == IdOf(c, pub)
          && last.server.outcome.hello.cluster == if TrimSpace(cluster) == "" then "default" else TrimSpace(cluster))
      && (last.client.outcome != Connected ==>
          last.client.outcome == Rejected && |whitelist| > 0 && !Whitelisted(whitelist, ClusterName(cluster), IdOf(c, pub)))
  {
    hide MasterClient, OrchServer, Run, Step;
    var hello := AuthHello(IdOf(c, pub), c.encode(pub), "master", ClusterName(cluster));
    MasterHandshake(c, pub, priv, cluster, whitelist, challenge);
    if Whitelisted(whitelist, hello.cluster, hello.id) {
      EveryRunEnds(MasterClient(c, pub, priv, cluster), OrchServer(c, whitelist, challenge), 10,
                   Connected, Registered(hello), schedule, gs);
    } else {
      EveryRunEnds(MasterClient(c, pub, priv, cluster), OrchServer(c, whitelist, challenge), 10,
                   Rejected, Rejected, schedule, gs);
    }
  }
}

/** Packet framing: one JSON object per line, written on two paths and read by one reader. */
module Framing {
  import opened Text
  import opened Json
  import opened Wrappers

  datatype Packet = Packet(kind: string, id: string, replyTo: string, error: string, payload: Option<Json>) {
    /** The literals inside the payload are JSON numbers, as json.Marshal writes them. */
    predicate WellFormed() { payload.Some? ==> Valid(payload.value) }
  }

  const EMPTY := Packet("", "", "", "", None)

  // ----- encoding -----

  /** The members of a text field, which `omitempty` drops when the text is empty. */
  function OmitEmpty(name: string, text: string, tail: Members): Members {
    if text == "" then tail else Member(name, JStr(text), tail)
  }

  function Encode(p: Packet): Json {
    var payload := if p.payload.Some? then Member("payload", p.payload.value, NoMembers) else NoMembers;
    JObj(Member("type", JStr(p.kind),
                OmitEmpty("id", p.id, OmitEmpty("reply_to", p.replyTo, OmitEmpty("error", p.error, payload)))))
  }

  /** The line of a packet, without its line end. */
  function Marshal(p: Packet): string { Print(Encode(p)) }

  function Wire(p: Packet): string { Marshal(p) + "\n" }

  // ----- decoding -----

  function LowerChar(c: char): char {
    if 'A' <= c <= 'Z' then (c as int + 32) as char else c
  }

  /** Member names match field names up to the case of their letters. */
  function Lower(s: string): string {
    seq(|s|, i requires 0 <= i < |s| => LowerChar(s[i]))
  }

  /** A text field takes a string and ignores null; anything else is a type error. */
  function TextField(current: string, v: Json): Option<string> {
    match v
    case JStr(s) => Some(s)
    case JNull => Some(current)
    case _ => None
  }

  function SetField(p: Packet, key: string, v: Json): Option<Packet> {
    var name := Lower(key);
    if name == "payload" then Some(p.(payload := Some(v)))
    else if name == "type" then
      match TextField(p.kind, v) case None => None case Some(t) => Some(p.(kind := t))
    else if name == "id" then
      match TextField(p.id, v) case None => None case Some(t) => Some(p.(id := t))
    else if name == "reply_to" then
      match TextField(p.replyTo, v) case None => None case Some(t) => Some(p.(replyTo := t))
    else if name == "error" then
      match TextField(p.error, v) case None => None case Some(t) => Some(p.(error := t))
    else Some(p)
  }

  /** Members set fields in order, so the last of several equal names wins; unknown names are skipped. */
  function SetFields(p: Packet, members: Members): Option<Packet>
    decreases members
  {
    match members
    case NoMembers => Some(p)
    case Member(key, v, tail) =>
      match SetField(p, key, v)
      case None => None
      case Some(q) => SetFields(q, tail)
  }

  function Unmarshal(line: string): Option<Packet> {
    match Parse(line)
    case Some(JObj(members)) => SetFields(EMPTY, members)
    case Some(JNull) => Some(EMPTY)
    case _ => None
  }

  // ----- one line of a stream -----

  function LineEnd(s: string): (n: nat)
    ensures n <= |s|
  {
    if s == "" || s[0] == '\n' then 0 else 1 + LineEnd(s[1..])
  }

  datatype ReadResult = ReadError | ReadOk(packet: Packet)

  function DecodeLine(line: string): ReadResult {
    var t := TrimSpace(line);
    if t == "" then ReadError
    else
      match Unmarshal(t)
      case None => ReadError
      case Some(p) => if Blank(p.kind) then ReadError else ReadOk(p)
  }

  /** Reads up to and with the next line end; without one the stream is at its end. */
  function Read(s: string): (ReadResult, string) {
    var n := LineEnd(s);
    if n == |s| then (ReadError, "") else (DecodeLine(s[..n]), s[n + 1..])
  }

  class Writer {
    var out: string

    constructor ()
      ensures out == ""
    {
      out := "";
    }

    /** WritePacket of the protocol package. */
    method WritePacket(p: Packet) returns (ok: bool)
      modifies this
      ensures ok == !Blank(p.kind)
      ensures out == if ok then old(out) + Wire(p) else old(out)
    {
      if TrimSpace(p.kind) == "" {
        return false;
      }
      out := out + Marshal(p) + "\n";
      return true;
    }

    /** WriteLine of the protocol package. */
    method WriteLine(line: string) returns (ok: bool)
      modifies this
      ensures ok == !Blank(line)
      ensures out == if ok then old(out) + TrimSpace(line) + "\n" else old(out)
    {
      var t := TrimSpace(line);
      if t == "" {
        return false;
      }
      out := out + t + "\n";
      return true;
    }
  }

  /** The orchestrator's second path, which marshals first and then writes a trimmed line. */
  method WriteMarshalled(w: Writer, p: Packet) returns (ok: bool)
    requires p.WellFormed()
    modifies w
    ensures ok && w.out == old(w.out) + Wire(p)
  {
    MarshalTrimmed(p);
    ok := w.WriteLine(Marshal(p));
  }

  class Reader {
    var input: string

    constructor (input: string)
      ensures this.input == input
    {
      this.input := input;
    }

    method ReadPacket() returns (r: ReadResult)
      modifies this
      ensures (r, input) == Read(old(input))
    {
      hide DecodeLine;
      var n := 0;
      while n < |input| && input[n] != '\n'
        invariant n <= |input|
        invariant n + LineEnd(input[n..]) == LineEnd(input)
      {
        assert input[n..][1..] == input[n + 1..];
        n := n + 1;
      }
      if n == |input| {
        input := "";
        return ReadError;
      }
      r := DecodeLine(input[..n]);
      input := input[n + 1..];
    }
  }

  // ----- a packet survives its line -----

  lemma MarshalTrimmed(p: Packet)
    requires p.WellFormed()
    ensures Marshal(p) != "" && Trimmed(Marshal(p)) && TrimSpace(Marshal(p)) == Marshal(p)
    ensures OneLine(Marshal(p))
  {
    hide PrintMembers, Valid, TrimSpace;
    EncodeValid(p);
    PrintOneLine(Encode(p));
    MembersEnd(Encode(p).members);
    TrimmedUnchanged(Marshal(p));
  }

  lemma {:induction false} MembersEnd(members: Members)
    requires members.Member?
    ensures var t := PrintMembers(members); t != "" && t[|t| - 1] == '}'
  {
    if members.tail.Member? {
      MembersEnd(members.tail);
    }
  }

  lemma OmitEmptyValid(name: string, text: string, tail: Members)
    requires ValidMembers(tail)
    ensures ValidMembers(OmitEmpty(name, text, tail))
  {
  }

  lemma EncodeValid(p: Packet)
    requires p.WellFormed()
    ensures Valid(Encode(p))
  {
    hide OmitEmpty;
    var m := if p.payload.Some? then Member("payload", p.payload.value, NoMembers) else NoMembers;
    assert ValidMembers(m);
    OmitEmptyValid("error", p.error, m);
    OmitEmptyValid("reply_to", p.replyTo, OmitEmpty("error", p.error, m));
    var rest := OmitEmpty("id", p.id, OmitEmpty("reply_to", p.replyTo, OmitEmpty("error", p.error, m)));
    OmitEmptyValid("id", p.id, OmitEmpty("reply_to", p.replyTo, OmitEmpty("error", p.error, m)));
    assert Valid(JStr(p.kind)) && ValidMembers(Member("type", JStr(p.kind), rest));
    assert Encode(p) == JObj(Member("type", JStr(p.kind), rest));
  }

  lemma SameLower(name: string)
    requires forall c :: c in name ==> LowerChar(c) == c
    ensures Lower(name) == name
  {
  }

  /** Member names in lower case set the field they name. */
  lemma SetNamed(p: Packet, text: string, v: Json)
    ensures SetField(p, "type", JStr(text)) == Some(p.(kind := text))
    ensures SetField(p, "id", JStr(text)) == Some(p.(id := text))
    ensures SetField(p, "reply_to", JStr(text)) == Some(p.(replyTo := text))
    ensures SetField(p, "error", JStr(text)) == Some(p.(error := text))
    ensures SetField(p, "payload", v) == Some(p.(payload := Some(v)))
  {
    hide Lower;
    SameLower("type");
    SameLower("id");
    SameLower("reply_to");
    SameLower("error");
    SameLower("payload");
    assert |"type"| == 4 && |"id"| == 2 && |"reply_to"| == 8 && |"error"| == 5 && |"payload"| == 7;
  }

  lemma SetOmitted(p: Packet, name: string, text: string, tail: Members, q: Packet)
    requires if text == "" then q == p else SetField(p, name, JStr(text)) == Some(q)
    ensures SetFields(p, OmitEmpty(name, text, tail)) == SetFields(q, tail)
  {
  }

  /** Setting the printed members rebuilds the packet; a dropped field stays empty. */
  lemma DecodeEncode(p: Packet)
    ensures SetFields(EMPTY, Encode(p).members) == Some(p)
  {
    hide OmitEmpty, SetField;
    var m := if p.payload.Some? then Member("payload", p.payload.value, NoMembers) else NoMembers;
    var m3 := OmitEmpty("error", p.error, m);
    var m2 := OmitEmpty("reply_to", p.replyTo, m3);
    var m1 := OmitEmpty("id", p.id, m2);
    var p0 := EMPTY.(kind := p.kind);
    var p1 := p0.(id := p.id);
    var p2 := p1.(replyTo := p.replyTo);
    var p3 := p2.(error := p.error);
    SetNamed(EMPTY, p.kind, JNull);
    SetNamed(p0, p.id, JNull);
    SetNamed(p1, p.replyTo, JNull);
    SetNamed(p2, p.error, JNull);
    SetNamed(p3, "", if p.payload.Some? then p.payload.value else JNull);
    SetOmitted(p0, "id", p.id, m2, p1);
    SetOmitted(p1, "reply_to", p.replyTo, m3, p2);
    SetOmitted(p2, "error", p.error, m, p3);
    assert SetFields(p3, m) == Some(p);
  }

  lemma UnmarshalMarshal(p: Packet)
    requires p.WellFormed()
    ensures Unmarshal(Marshal(p)) == Some(p)
  {
    hide SetFields, Parse, OmitEmpty;
    EncodeValid(p);
    RoundTrip(Encode(p));
    DecodeEncode(p);
  }

  lemma ReadWire(p: Packet, rest: string)
    requires p.WellFormed() && !Blank(p.kind)
    ensures Read(Wire(p) + rest) == (ReadOk(p), rest)
  {
    hide Marshal, Unmarshal, LineEnd, TrimSpace;
    MarshalTrimmed(p);
    UnmarshalMarshal(p);
    var line := Marshal(p);
    assert Wire(p) + rest == line + "\n" + rest;
    FirstLine(line, rest);
    assert (line + "\n" + rest)[..|line|] == line && (line + "\n" + rest)[|line| + 1..] == rest;
  }

  // ----- what a line says, and which lines are errors -----

  predicate Plain(name: string) { forall i :: 0 <= i < |name| ==> 'a' <= name[i] <= 'z' || name[i] == '_' }

  /** A member name that has no character to escape. */
  lemma {:induction false} PlainName(name: string)
    requires Plain(name)
    ensures Escape(name) == name && Quote(name) == "\"" + name + "\""
  {
    if name != "" {
      PlainName(name[1..]);
      assert name == [name[0]] + name[1..];
    }
  }

  /** The text of some members after others. */
  function Rest(members: Members): string {
    if members.NoMembers? then "}" else "," + PrintMembers(members)
  }

  lemma MemberText(name: string, v: Json, tail: Members)
    requires Plain(name)
    ensures PrintMembers(Member(name, v, tail)) == "\"" + name + "\":" + Print(v) + Rest(tail)
  {
    hide Escape, Quote, Print, Plain;
    PlainName(name);
  }

  function Field(name: string, text: string): string {
    if text == "" then "" else ",\"" + name + "\":" + Quote(text)
  }

  lemma FieldText(name: string, text: string, tail: Members)
    requires Plain(name)
    ensures Rest(OmitEmpty(name, text, tail)) == Field(name, text) + Rest(tail)
  {
    hide Quote, PrintMembers, Plain;
    MemberText(name, JStr(text), tail);
  }

  /** The text of a packet: its type first, then the fields that are not empty, then the payload. */
  lemma MarshalText(p: Packet)
    ensures Marshal(p) ==
            "{\"type\":" + Quote(p.kind) + Field("id", p.id) + Field("reply_to", p.replyTo) + Field("error", p.error)
            + if p.payload.None? then "}" else ",\"payload\":" + Print(p.payload.value) + "}"
  {
    hide Quote, Field, Print, PrintMembers, OmitEmpty, Rest;
    var payload := if p.payload.Some? then Member("payload", p.payload.value, NoMembers) else NoMembers;
    var errors := OmitEmpty("error", p.error, payload);
    var replies := OmitEmpty("reply_to", p.replyTo, errors);
    PayloadText(p);
    FieldText("error", p.error, payload);
    FieldText("reply_to", p.replyTo, errors);
    FieldText("id", p.id, replies);
    PrintedObject(p.kind, OmitEmpty("id", p.id, replies));
    Regroup("{\"type\":" + Quote(p.kind), Field("id", p.id), Field("reply_to", p.replyTo), Field("error", p.error), Rest(payload));
  }

  lemma Regroup(a: string, b: string, c: string, d: string, e: string)
    ensures a + (b + (c + (d + e))) == a + b + c + d + e
  {
  }

  lemma PayloadText(p: Packet)
    ensures Rest(if p.payload.Some? then Member("payload", p.payload.value, NoMembers) else NoMembers) ==
            if p.payload.None? then "}" else ",\"payload\":" + Print(p.payload.value) + "}"
  {
    hide Print, PrintMembers;
    if p.payload.Some? {
      MemberText("payload", p.payload.value, NoMembers);
    }
  }

  lemma PrintedObject(kind: string, tail: Members)
    ensures Print(JObj(Member("type", JStr(kind), tail))) == "{\"type\":" + Quote(kind) + Rest(tail)
  {
    hide Quote, PrintMembers;
    MemberText("type", JStr(kind), tail);
  }

  /** A member names a field when it differs from it at most in the case of its letters. */
  lemma FoldsCase(key: string, name: string)
    requires Plain(name)
    ensures Lower(key) == name <==>
            |key| == |name|
            && forall i :: 0 <= i < |key| ==>
                 key[i] == name[i] || ('A' <= key[i] <= 'Z' && key[i] as int - 'A' as int == name[i] as int - 'a' as int)
  {
    if Lower(key) == name {
      assert forall i :: 0 <= i < |key| ==> name[i] == LowerChar(key[i]);
    }
  }

  /** A text field with a value of another type makes the packet unreadable; null leaves it; unknown names are skipped. */
  lemma OtherMembers(p: Packet, key: string, v: Json)
    ensures Lower(key) in {"type", "id", "reply_to", "error"} ==>
              (SetField(p, key, v).None? <==> !v.JStr? && !v.JNull?) && SetField(p, key, JNull) == Some(p)
    ensures Lower(key) !in {"type", "id", "reply_to", "error", "payload"} ==> SetField(p, key, v) == Some(p)
    ensures Lower(key) == "payload" ==> SetField(p, key, v) == Some(p.(payload := Some(v)))
  {
  }

  lemma {:induction false} FirstLine(line: string, rest: string)
    requires '\n' !in line
    ensures LineEnd(line + "\n" + rest) == |line|
  {
    var s := line + "\n" + rest;
    if line == "" {
      assert s == "\n" + rest;
    } else {
      assert s[1..] == line[1..] + "\n" + rest;
      FirstLine(line[1..], rest);
    }
  }

  /**
   * A read gives a packet exactly on a whole line that, without the white space around it, is not empty and the text of
   * a packet whose type is not blank; an error takes a whole line as well, if there is one.
   */
  lemma ReadIff(line: string, rest: string, partial: string)
    requires '\n' !in line && '\n' !in partial
    ensures Read(partial) == (ReadError, "")
    ensures Read(line + "\n" + rest).1 == rest
    ensures forall p :: Read(line + "\n" + rest).0 == ReadOk(p) <==>
              TrimSpace(line) != "" && Unmarshal(TrimSpace(line)) == Some(p) && TrimSpace(p.kind) != ""
  {
    hide LineEnd, TrimSpace, Unmarshal;
    LineEndOf(partial);
    FirstLine(line, rest);
    assert (line + "\n" + rest)[..|line|] == line && (line + "\n" + rest)[|line| + 1..] == rest;
  }

  // ----- a stream of packets -----

  /** What one connection carries when its writers append packets in this order under the writer lock. */
  function Wires(ps: seq<Packet>): string {
    if ps == [] then "" else Wire(ps[0]) + Wires(ps[1..])
  }

  /** The packets that repeated reads deliver before the first error. */
  function ReadAll(s: string): seq<Packet>
    decreases |s|
  {
    var (r, rest) := Read(s);
    if r.ReadOk? && |rest| < |s| then [r.packet] + ReadAll(rest) else []
  }

  ghost predicate Sendable(ps: seq<Packet>) {
    forall p :: p in ps ==> p.WellFormed() && !Blank(p.kind)
  }

  lemma LineEndOf(s: string)
    ensures '\n' !in s ==> LineEnd(s) == |s|
  {
  }

  lemma ReadAllWire(p: Packet, rest: string)
    requires p.WellFormed() && !Blank(p.kind)
    ensures ReadAll(Wire(p) + rest) == [p] + ReadAll(rest)
  {
    hide Read, Marshal;
    ReadWire(p, rest);
  }

  lemma ReadAllPartial(partial: string)
    requires '\n' !in partial
    ensures ReadAll(partial) == []
  {
    LineEndOf(partial);
  }

  /** Reading delivers exactly the packets written, in order; a line still under way adds nothing. */
  lemma {:induction false} StreamRoundTrip(ps: seq<Packet>, partial: string)
    requires Sendable(ps) && '\n' !in partial
    ensures ReadAll(Wires(ps) + partial) == ps
  {
    if ps == [] {
      assert Wires(ps) + partial == partial;
      ReadAllPartial(partial);
    } else {
      hide ReadAll, Wire, Blank;
      var rest := Wires(ps[1..]) + partial;
      assert Sendable(ps[1..]);
      StreamRoundTrip(ps[1..], partial);
      assert Wires(ps) + partial == Wire(ps[0]) + rest;
      ReadAllWire(ps[0], rest);
    }
  }

  /** Distinct packet sequences give distinct streams. */
  lemma StreamInjective(ps: seq<Packet>, qs: seq<Packet>)
    requires Sendable(ps) && Sendable(qs) && Wires(ps) == Wires(qs)
    ensures ps == qs
  {
    StreamRoundTrip(ps, "");
    StreamRoundTrip(qs, "");
  }

  lemma {:induction false} WiresAppend(ps: seq<Packet>, p: Packet)
    ensures Wires(ps + [p]) == Wires(ps) + Wire(p)
  {
    if ps == [] {
      assert ps + [p] == [p] && Wires([p]) == Wire(p) + Wires([]);
    } else {
      assert (ps + [p])[1..] == ps[1..] + [p];
      WiresAppend(ps[1..], p);
    }
  }

  /** The two ways in which the code writes a packet. */
  datatype Path = Direct | Marshalled

  lemma WiresStep(base: string, ps: seq<Packet>, k: nat)
    requires Sendable(ps) && k < |ps|
    ensures base + Wires(ps[..k]) + Wire(ps[k]) == base + Wires(ps[..k + 1])
    ensures ps[k].WellFormed() && !Blank(ps[k].kind)
  {
    assert ps[..k + 1] == ps[..k] + [ps[k]] && ps[k] in ps;
    WiresAppend(ps[..k], ps[k]);
  }

  /** Writers on both paths, one packet at a time under the writer lock. */
  method WriteAll(w: Writer, ps: seq<Packet>, paths: seq<Path>)
    requires Sendable(ps) && |paths| == |ps|
    modifies w
    ensures w.out == old(w.out) + Wires(ps)
  {
    assert Wires(ps[..0]) == "";
    hide *;
    for i := 0 to |ps|
      invariant w.out == old(w.out) + Wires(ps[..i])
    {
      WiresStep(old(w.out), ps, i);
      match paths[i] {
        case Direct =>
          var _ := w.WritePacket(ps[i]);
        case Marshalled =>
          var _ := WriteMarshalled(w, ps[i]);
      }
    }
    assert ps[..|ps|] == ps;
  }

  /** A read loop: packets until the first error. */
  method ReadLoop(r: Reader) returns (ps: seq<Packet>)
    modifies r
    ensures ps == ReadAll(old(r.input))
  {
    ps := [];
    var result := ReadError;
    var more := true;
    while more
      invariant ps + (if more then ReadAll(r.input) else []) == ReadAll(old(r.input))
      decreases if more then |r.input| + 1 else 0
    {
      ghost var before := r.input;
      result := r.ReadPacket();
      if result.ReadOk? {
        ReadShrinks(before);
        ps := ps + [result.packet];
      } else {
        more := false;
      }
    }
  }

  lemma ReadShrinks(s: string)
    ensures Read(s).0.ReadOk? ==> |Read(s).1| < |s|
  {
  }

  /** Written by either path in any mixture and read by the one reader: the same packets in the same order. */
  method Exchange(ps: seq<Packet>, paths: seq<Path>) returns (received: seq<Packet>)
    requires Sendable(ps) && |paths| == |ps|
    ensures received == ps
  {
    var w := new Writer();
    WriteAll(w, ps, paths);
    var r := new Reader(w.out);
    received := ReadLoop(r);
    StreamRoundTrip(ps, "");
    assert Wires(ps) + "" == Wires(ps) == "" + Wires(ps);
  }
}

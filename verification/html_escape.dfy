/** The HTML escaper of the vendored icon script: five replacements over the whole string, one after another. */
module HtmlEscape {
  import opened Sequences

  /** A global replacement of one character. */
  function Replace(s: string, c: char, with: string): string {
    if s == "" then "" else (if s[0] == c then with else [s[0]]) + Replace(s[1..], c, with)
  }

  const AMP := "&amp;"
  const QUOT := "&quot;"
  const APOS := "&#39;"
  const LT := "&lt;"
  const GT := "&gt;"

  function Escape(s: string): string {
    Replace(Replace(Replace(Replace(Replace(s, '&', AMP), '"', QUOT), '\'', APOS), '<', LT), '>', GT)
  }

  function Entity(c: char): string {
    if c == '&' then AMP
    else if c == '"' then QUOT
    else if c == '\'' then APOS
    else if c == '<' then LT
    else if c == '>' then GT
    else [c]
  }

  lemma {:induction false} ReplaceConcat(s: string, t: string, c: char, with: string)
    ensures Replace(s + t, c, with) == Replace(s, c, with) + Replace(t, c, with)
  {
    if s == "" {
      assert s + t == t;
    } else {
      assert (s + t)[1..] == s[1..] + t;
      ReplaceConcat(s[1..], t, c, with);
    }
  }

  lemma {:induction false} ReplaceAbsent(s: string, c: char, with: string)
    requires c !in s
    ensures Replace(s, c, with) == s
  {
    if s != "" {
      ReplaceAbsent(s[1..], c, with);
    }
  }

  lemma EscapeConcat(s: string, t: string)
    ensures Escape(s + t) == Escape(s) + Escape(t)
  {
    hide Replace;
    var s1, t1 := Replace(s, '&', AMP), Replace(t, '&', AMP);
    var s2, t2 := Replace(s1, '"', QUOT), Replace(t1, '"', QUOT);
    var s3, t3 := Replace(s2, '\'', APOS), Replace(t2, '\'', APOS);
    var s4, t4 := Replace(s3, '<', LT), Replace(t3, '<', LT);
    ReplaceConcat(s, t, '&', AMP);
    ReplaceConcat(s1, t1, '"', QUOT);
    ReplaceConcat(s2, t2, '\'', APOS);
    ReplaceConcat(s3, t3, '<', LT);
    ReplaceConcat(s4, t4, '>', GT);
  }

  lemma ReplaceOne(c: char, d: char, with: string)
    ensures Replace([c], d, with) == if c == d then with else [c]
  {
    assert Replace([c], d, with) == (if c == d then with else [c]) + Replace("", d, with);
  }

  /** Later passes leave the entities of earlier ones alone. */
  lemma EscapeOne(c: char)
    ensures Escape([c]) == Entity(c)
  {
    hide Replace;
    ReplaceOne(c, '&', AMP);
    ReplaceOne(c, '"', QUOT);
    ReplaceOne(c, '\'', APOS);
    ReplaceOne(c, '<', LT);
    ReplaceOne(c, '>', GT);
    ReplaceAbsent(AMP, '"', QUOT);
    ReplaceAbsent(AMP, '\'', APOS);
    ReplaceAbsent(AMP, '<', LT);
    ReplaceAbsent(AMP, '>', GT);
    ReplaceAbsent(QUOT, '\'', APOS);
    ReplaceAbsent(QUOT, '<', LT);
    ReplaceAbsent(QUOT, '>', GT);
    ReplaceAbsent(APOS, '<', LT);
    ReplaceAbsent(APOS, '>', GT);
    ReplaceAbsent(LT, '>', GT);
  }

  /** The five passes together replace each character by its entity, once. */
  lemma {:induction false} PassesAreOne(s: string)
    ensures Escape(s) == FlatMap(s, Entity)
  {
    if s != "" {
      hide Escape, Entity;
      PassesAreOne(s[1..]);
      EscapeConcat([s[0]], s[1..]);
      EscapeOne(s[0]);
      assert [s[0]] + s[1..] == s;
    } else {
      assert Replace("", '&', AMP) == "";
    }
  }

  /** Nothing in the output can end an attribute value or open a tag. */
  lemma {:induction false} NoRawMarkup(s: string)
    ensures forall c :: c in Escape(s) ==> c !in {'"', '\'', '<', '>'}
  {
    PassesAreOne(s);
    if s != "" {
      hide Escape, Entity;
      PassesAreOne(s[1..]);
      NoRawMarkup(s[1..]);
      EntityPlain(s[0]);
    }
  }

  /** The five entities as the script spells them. */
  lemma EntityTexts()
    ensures Escape("&") == "&amp;" && Escape("\"") == "&quot;" && Escape("'") == "&#39;"
    ensures Escape("<") == "&lt;" && Escape(">") == "&gt;"
  {
    hide Escape;
    EscapeOne('&');
    EscapeOne('"');
    EscapeOne('\'');
    EscapeOne('<');
    EscapeOne('>');
  }

  lemma EntityPlain(c: char)
    ensures forall d :: d in Entity(c) ==> d !in {'"', '\'', '<', '>'}
  {
  }

  /** The character of an entity at the front, with the length of what it stands in for. */
  function Decoded(s: string): (char, nat)
    requires s != ""
  {
    if AMP <= s then ('&', 5)
    else if QUOT <= s then ('"', 6)
    else if APOS <= s then ('\'', 5)
    else if LT <= s then ('<', 4)
    else if GT <= s then ('>', 4)
    else (s[0], 1)
  }

  function Unescape(s: string): string {
    if s == "" then "" else [Decoded(s).0] + Unescape(s[Decoded(s).1..])
  }

  lemma DecodesEntity(c: char, rest: string)
    ensures Entity(c) != "" && Decoded(Entity(c) + rest) == (c, |Entity(c)|) && (Entity(c) + rest)[|Entity(c)|..] == rest
  {
    var e := Entity(c);
    assert e <= e + rest;
    assert (e + rest)[0] == e[0] && (|e| > 1 ==> (e + rest)[1] == e[1]);
  }

  lemma {:induction false} UnescapeEscape(s: string)
    ensures Unescape(Escape(s)) == s
  {
    PassesAreOne(s);
    if s != "" {
      hide Escape, Entity, Decoded;
      UnescapeEscape(s[1..]);
      PassesAreOne(s[1..]);
      DecodesEntity(s[0], Escape(s[1..]));
    }
  }

  /** Different texts stay different. */
  lemma Injective(s: string, t: string)
    requires Escape(s) == Escape(t)
    ensures s == t
  {
    UnescapeEscape(s);
    UnescapeEscape(t);
  }
}

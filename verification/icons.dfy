/** The icon tables of the vendored Font Awesome script and the lookup indexes built from them. */
module Icons {
  import opened Sequences
  import opened Wrappers

  // ----- objects, whose keys have an order -----

  function Digits(k: string): nat {
    if k == "" then 0
    else 10 * Digits(k[..|k| - 1]) + (if '0' <= k[|k| - 1] <= '9' then k[|k| - 1] as int - '0' as int else 0)
  }

  /** Property names that are array indices. */
  predicate IsIndex(k: string) {
    k != "" && (forall c :: c in k ==> '0' <= c <= '9') && (k == "0" || k[0] != '0') && Digits(k) < 0xffff_ffff
  }

  /** Array indices come first, in ascending order; other names in the order of their first assignment. */
  predicate Before(k: string, l: string) { IsIndex(k) && (!IsIndex(l) || Digits(k) < Digits(l)) }

  type Obj<V> = seq<(string, V)>

  function Put<V>(o: Obj<V>, k: string, v: V): Obj<V> {
    if o == [] then [(k, v)]
    else if o[0].0 == k then [(k, v)] + o[1..]
    else if Before(k, o[0].0) then [(k, v)] + o
    else [o[0]] + Put(o[1..], k, v)
  }

  function Get<V>(o: Obj<V>, k: string): Option<V> {
    if o == [] then None else if o[0].0 == k then Some(o[0].1) else Get(o[1..], k)
  }

  /** The spread of two objects into a new one. */
  function Merge<V>(a: Obj<V>, b: Obj<V>): Obj<V> {
    if b == [] then a else Put(Merge(a, b[..|b| - 1]), b[|b| - 1].0, b[|b| - 1].1)
  }

  lemma {:induction false} GetPut<V>(o: Obj<V>, k: string, v: V, l: string)
    ensures Get(Put(o, k, v), l) == if l == k then Some(v) else Get(o, l)
  {
    hide Before;
    if o != [] && o[0].0 != k && !Before(k, o[0].0) {
      GetPut(o[1..], k, v, l);
    }
  }

  function Names<V>(o: Obj<V>): set<string> { if o == [] then {} else {o[0].0} + Names(o[1..]) }

  lemma {:induction false} PutNames<V>(o: Obj<V>, k: string, v: V)
    ensures Names(Put(o, k, v)) == Names(o) + {k}
  {
    hide Before;
    if o != [] && o[0].0 != k && !Before(k, o[0].0) {
      PutNames(o[1..], k, v);
    }
  }

  /** Each name once, indices first and ascending. */
  predicate WellFormed<V>(o: Obj<V>) {
    o != [] ==>
      && o[0].0 !in Names(o[1..]) && WellFormed(o[1..])
      && (|o| > 1 && IsIndex(o[1].0) ==> IsIndex(o[0].0) && Digits(o[0].0) <= Digits(o[1].0))
  }

  lemma {:induction false} IndexAhead<V>(o: Obj<V>, k: string)
    requires WellFormed(o) && k in Names(o)
    ensures !Before(k, o[0].0)
  {
    hide IsIndex;
    if o[0].0 != k {
      IndexAhead(o[1..], k);
    }
  }

  lemma {:induction false} PutWellFormed<V>(o: Obj<V>, k: string, v: V)
    requires WellFormed(o)
    ensures WellFormed(Put(o, k, v))
  {
    hide IsIndex, Digits;
    if o == [] {
    } else if o[0].0 == k {
      assert ([(k, v)] + o[1..])[1..] == o[1..];
    } else if Before(k, o[0].0) {
      if k in Names(o) {
        IndexAhead(o, k);
      }
      assert ([(k, v)] + o)[1..] == o;
    } else {
      PutWellFormed(o[1..], k, v);
      PutNames(o[1..], k, v);
      assert Put(o, k, v)[1..] == Put(o[1..], k, v);
    }
  }

  /** A new name that is no index comes last; assigning to a name again leaves the order as it is. */
  lemma {:induction false} PutOrder<V>(o: Obj<V>, k: string, v: V)
    requires WellFormed(o)
    ensures k !in Names(o) && !IsIndex(k) ==> Put(o, k, v) == o + [(k, v)]
    ensures k in Names(o) ==> |Put(o, k, v)| == |o| && forall i :: 0 <= i < |o| ==> Put(o, k, v)[i].0 == o[i].0
  {
    hide IsIndex, Digits;
    if o != [] && o[0].0 != k {
      if k in Names(o) {
        IndexAhead(o, k);
      }
      PutOrder(o[1..], k, v);
    }
  }

  lemma {:induction false} GetMerge<V>(a: Obj<V>, b: Obj<V>, k: string)
    requires WellFormed(a)
    ensures WellFormed(Merge(a, b)) && Names(Merge(a, b)) == Names(a) + Names(b)
    ensures WellFormed(b) ==> Get(Merge(a, b), k) == if k in Names(b) then Get(b, k) else Get(a, k)
  {
    hide Before, Put;
    if b != [] {
      var n := |b| - 1;
      GetMerge(a, b[..n], k);
      PutNames(Merge(a, b[..n]), b[n].0, b[n].1);
      PutWellFormed(Merge(a, b[..n]), b[n].0, b[n].1);
      GetPut(Merge(a, b[..n]), b[n].0, b[n].1, k);
      SplitLast(b, k);
    }
  }

  lemma {:induction false} SplitLast<V>(o: Obj<V>, k: string)
    requires o != []
    ensures var n := |o| - 1;
      && Names(o) == Names(o[..n]) + {o[n].0}
      && (WellFormed(o) ==> WellFormed(o[..n]) && Get(o, k) == if k == o[n].0 then Some(o[n].1) else Get(o[..n], k))
  {
    var n := |o| - 1;
    if n > 0 {
      assert o[1..][..n - 1] == o[..n][1..];
      SplitLast(o[1..], k);
    }
  }

  // ----- icons and what finds them -----

  datatype Alias = Code(n: nat) | Name(text: string)

  /** `svg` is the rest of the icon array. */
  datatype Icon = Icon(aliases: seq<Alias>, unicode: string, svg: string)

  datatype Kind = Unicode | Ligature | AnyAlias

  function Digit(d: nat): char
    requires d < 16
  {
    if d < 10 then ('0' as int + d) as char else ('a' as int + d - 10) as char
  }

  /** `toString` of a number. */
  function Numeral(n: nat, base: nat): string
    requires 2 <= base <= 16
  {
    (if n < base then "" else Numeral(n / base, base)) + [Digit(n % base)]
  }

  /** The key that an alias makes in an index, if any. */
  function AliasKeys(kind: Kind): Alias -> seq<string> {
    (a: Alias) =>
      match (kind, a)
      case (Unicode, Code(n)) => [Numeral(n, 16)]
      case (Unicode, Name(_)) => []
      case (Ligature, Code(_)) => []
      case (Ligature, Name(text)) => [text]
      case (AnyAlias, Code(n)) => [Numeral(n, 10)]
      case (AnyAlias, Name(text)) => [text]
  }

  /** All keys of an icon, in the order the script assigns them. */
  function KeysOf(kind: Kind, name: string, icon: Icon): seq<string> {
    (if kind.Unicode? then (if icon.unicode != "" then [icon.unicode] else []) else [name])
    + FlatMap(icon.aliases, AliasKeys(kind))
  }

  lemma {:induction false} InFlatMap<A, B>(xs: seq<A>, f: A -> seq<B>, y: B)
    ensures y in FlatMap(xs, f) <==> exists x :: x in xs && y in f(x)
  {
    if xs != [] {
      InFlatMap(xs[1..], f, y);
      assert forall x :: x in xs <==> x == xs[0] || x in xs[1..];
    }
  }

  /** What makes a key: the name, except among unicodes, where the icon's own one does, and each alias of the right sort. */
  lemma KeysMean(kind: Kind, name: string, icon: Icon, key: string)
    ensures key in KeysOf(kind, name, icon) <==>
            match kind
            case Unicode =>
              (key == icon.unicode != "") || exists n: nat :: Code(n) in icon.aliases && key == Numeral(n, 16)
            case Ligature => key == name || Name(key) in icon.aliases
            case AnyAlias =>
              key == name || Name(key) in icon.aliases || exists n: nat :: Code(n) in icon.aliases && key == Numeral(n, 10)
  {
    hide FlatMap, Numeral;
    InFlatMap(icon.aliases, AliasKeys(kind), key);
    if a :| a in icon.aliases && key in AliasKeys(kind)(a) {
      assert match a case Code(n) => Code(n) in icon.aliases case Name(t) => Name(t) in icon.aliases;
    }
    assert forall n: nat :: Code(n) in icon.aliases && kind == Unicode ==> Numeral(n, 16) in AliasKeys(kind)(Code(n));
    assert forall n: nat :: Code(n) in icon.aliases && kind == AnyAlias ==> Numeral(n, 10) in AliasKeys(kind)(Code(n));
    assert Name(key) in icon.aliases && kind != Unicode ==> key in AliasKeys(kind)(Name(key));
  }

  function DigitValue(c: char): int {
    if '0' <= c <= '9' then c as int - '0' as int else if 'a' <= c <= 'f' then c as int - 'a' as int + 10 else -1
  }

  /** What a numeral denotes. */
  function Value(s: string, base: nat): int {
    if s == "" then 0 else base * Value(s[..|s| - 1], base) + DigitValue(s[|s| - 1])
  }

  /** The numeral, without the leading zeros, of a number that the digits denote. */
  ghost predicate Spells(s: string, n: nat, base: nat) {
    Value(s, base) == n && s != "" && (n > 0 ==> s[0] != '0') && forall c :: c in s ==> 0 <= DigitValue(c) < base
  }

  /** A numeral denotes its number, with digits of the base and no leading zero. */
  lemma {:induction false} NumeralValue(n: nat, base: nat)
    requires 2 <= base <= 16
    ensures Spells(Numeral(n, base), n, base)
  {
    hide Spells, Digit;
    Division(n, base);
    if n < base {
      OneDigit(n, base);
      assert Numeral(n, base) == "" + [Digit(n)] == [Digit(n)];
    } else {
      NumeralValue(n / base, base);
      AnotherDigit(Numeral(n / base, base), n / base, n % base, base);
    }
  }

  lemma Division(n: nat, base: nat)
    requires base > 0
    ensures n == base * (n / base) + n % base && n % base < base && (n < base ==> n % base == n) && (n >= base ==> n / base > 0)
  {
  }

  lemma OneDigit(d: nat, base: nat)
    requires d < base <= 16
    ensures Spells([Digit(d)], d, base)
  {
    assert [Digit(d)][..0] == "" && DigitValue(Digit(d)) == d;
    assert Value("", base) == 0 && base * 0 == 0;
  }

  lemma AnotherDigit(s: string, q: nat, d: nat, base: nat)
    requires Spells(s, q, base) && q > 0 && d < base <= 16
    ensures Spells(s + [Digit(d)], base * q + d, base)
  {
    var t := s + [Digit(d)];
    assert t[..|t| - 1] == s && t[0] == s[0];
    assert DigitValue(Digit(d)) == d;
  }

  /** The direct scan: the last icon in key order that has the key. */
  function LastMatch(kind: Kind, icons: Obj<Icon>, key: string): Option<string> {
    if icons == [] then None
    else
      var (name, icon) := icons[|icons| - 1];
      if key in KeysOf(kind, name, icon) then Some(name) else LastMatch(kind, icons[..|icons| - 1], key)
  }

  /** It is the last one. */
  lemma {:induction false} LastMatchIff(kind: Kind, icons: Obj<Icon>, key: string, i: nat)
    requires i < |icons| && key in KeysOf(kind, icons[i].0, icons[i].1)
    requires forall j :: i < j < |icons| ==> key !in KeysOf(kind, icons[j].0, icons[j].1)
    ensures LastMatch(kind, icons, key) == Some(icons[i].0)
  {
    hide KeysOf;
    if i + 1 < |icons| {
      LastMatchIff(kind, icons[..|icons| - 1], key, i);
    }
  }

  lemma {:induction false} NoMatch(kind: Kind, icons: Obj<Icon>, key: string)
    requires forall j :: 0 <= j < |icons| ==> key !in KeysOf(kind, icons[j].0, icons[j].1)
    ensures LastMatch(kind, icons, key) == None
  {
    hide KeysOf;
    if icons != [] {
      NoMatch(kind, icons[..|icons| - 1], key);
    }
  }

  type Index = map<string, string>

  function Find(index: Index, key: string): Option<string> {
    if key in index then Some(index[key]) else None
  }

  ghost predicate Indexes(kind: Kind, index: Index, icons: Obj<Icon>) {
    forall key :: Find(index, key) == LastMatch(kind, icons, key)
  }

  /** One table through the reducer of an index. */
  method IndexTable(kind: Kind, icons: Obj<Icon>) returns (index: Index)
    ensures Indexes(kind, index, icons)
  {
    hide KeysOf;
    index := map[];
    for i := 0 to |icons|
      invariant Indexes(kind, index, icons[..i])
    {
      var (name, icon) := icons[i];
      ghost var before := index;
      var keys := KeysOf(kind, name, icon);
      for j := 0 to |keys|
        invariant forall key :: Find(index, key) == if key in keys[..j] then Some(name) else Find(before, key)
      {
        index := index[keys[j] := name];
        assert keys[..j + 1] == keys[..j] + [keys[j]];
      }
      assert keys[..|keys|] == keys && icons[..i + 1][..i] == icons[..i];
    }
    assert icons[..|icons|] == icons;
  }

  // ----- the script's state -----

  type Styles = map<string, Obj<Icon>>

  function Table(styles: Styles, prefix: string): Obj<Icon> {
    if prefix in styles then styles[prefix] else []
  }

  /** What defineIcons does to the tables; the prefix `fas` also counts as `fa`. */
  function Defined(styles: Styles, prefix: string, icons: Obj<Icon>): Styles {
    var s := styles[prefix := Merge(Table(styles, prefix), icons)];
    if prefix == "fas" then s["fa" := Merge(Table(s, "fa"), icons)] else s
  }

  /** Afterwards the prefix, and for `fas` also `fa`, has the new icons over the old ones; nothing else changed. */
  lemma DefinedFinds(styles: Styles, prefix: string, icons: Obj<Icon>, p: string, name: string)
    requires WellFormed(icons) && AllWellFormed(styles)
    ensures Get(Table(Defined(styles, prefix, icons), p), name) ==
            if (p == prefix || (prefix == "fas" && p == "fa")) && name in Names(icons) then Get(icons, name)
            else Get(Table(styles, p), name)
  {
    hide Merge, Get, WellFormed;
    GetMerge(Table(styles, prefix), icons, name);
    GetMerge(Table(styles, "fa"), icons, name);
  }

  ghost predicate AllWellFormed(styles: Styles) { forall q :: WellFormed(Table(styles, q)) }

  lemma DefinedWellFormed(styles: Styles, prefix: string, icons: Obj<Icon>)
    requires AllWellFormed(styles)
    ensures AllWellFormed(Defined(styles, prefix, icons))
  {
    hide Merge, WellFormed;
    GetMerge(Table(styles, prefix), icons, "");
    GetMerge(Table(styles, "fa"), icons, "");
    GetMerge(Merge(Table(styles, "fa"), icons), icons, "");
    var t := Defined(styles, prefix, icons);
    forall q ensures WellFormed(Table(t, q)) {
      assert WellFormed(Table(styles, q));
    }
  }

  lemma {:induction false} NamesFound<V>(o: Obj<V>, k: string)
    ensures k in Names(o) <==> Get(o, k).Some?
  {
    if o != [] {
      NamesFound(o[1..], k);
    }
  }

  /** An icon handed to Library.add. */
  datatype Definition = Definition(prefix: string, iconName: string, icon: Icon)

  function NamesOf(a: Alias): seq<string> { if a.Name? then [a.text] else [] }

  function PutAll(o: Obj<Icon>, names: seq<string>, icon: Icon): Obj<Icon> {
    if names == [] then o else Put(PutAll(o, names[..|names| - 1], icon), names[|names| - 1], icon)
  }

  /** The icons to add, by prefix; an icon is entered under its string aliases and then under its name. */
  function Pulled(definitions: seq<Definition>): Obj<Obj<Icon>> {
    if definitions == [] then []
    else
      var d := definitions[|definitions| - 1];
      var o := Pulled(definitions[..|definitions| - 1]);
      Put(o, d.prefix, PutAll(Under(o, d.prefix), FlatMap(d.icon.aliases, NamesOf) + [d.iconName], d.icon))
  }

  lemma PulledSome(definitions: seq<Definition>)
    ensures definitions != [] ==> Pulled(definitions) != []
  {
  }

  predicate Carries(d: Definition, name: string) { name == d.iconName || Name(name) in d.icon.aliases }

  /** The last definition for a prefix and a name, which may be an alias. */
  function LastDefinition(definitions: seq<Definition>, prefix: string, name: string): Option<Icon> {
    if definitions == [] then None
    else
      var d := definitions[|definitions| - 1];
      if d.prefix == prefix && Carries(d, name) then Some(d.icon)
      else LastDefinition(definitions[..|definitions| - 1], prefix, name)
  }

  lemma {:induction false} GetPutAll(o: Obj<Icon>, names: seq<string>, icon: Icon, name: string)
    ensures Get(PutAll(o, names, icon), name) == if name in names then Some(icon) else Get(o, name)
  {
    if names != [] {
      hide Get, Put;
      var n := |names| - 1;
      GetPutAll(o, names[..n], icon, name);
      GetPut(PutAll(o, names[..n], icon), names[n], icon, name);
      assert names == names[..n] + [names[n]];
    }
  }

  function Under(o: Obj<Obj<Icon>>, prefix: string): Obj<Icon> {
    if Get(o, prefix).Some? then Get(o, prefix).value else []
  }

  lemma {:induction false} PutAllWellFormed(o: Obj<Icon>, names: seq<string>, icon: Icon)
    requires WellFormed(o)
    ensures WellFormed(PutAll(o, names, icon))
  {
    if names != [] {
      hide WellFormed, Put;
      PutAllWellFormed(o, names[..|names| - 1], icon);
      PutWellFormed(PutAll(o, names[..|names| - 1], icon), names[|names| - 1], icon);
    }
  }

  ghost predicate EachWellFormed(o: Obj<Obj<Icon>>) { forall i :: 0 <= i < |o| ==> WellFormed(o[i].1) }

  lemma {:induction false} PutEach(o: Obj<Obj<Icon>>, k: string, v: Obj<Icon>)
    requires EachWellFormed(o) && WellFormed(v)
    ensures EachWellFormed(Put(o, k, v))
  {
    hide WellFormed, Before;
    if o != [] && o[0].0 != k && !Before(k, o[0].0) {
      PutEach(o[1..], k, v);
    }
  }

  lemma {:induction false} UnderWellFormed(o: Obj<Obj<Icon>>, prefix: string)
    requires EachWellFormed(o)
    ensures WellFormed(Under(o, prefix))
  {
    if o != [] && o[0].0 != prefix {
      UnderWellFormed(o[1..], prefix);
    }
  }

  lemma {:induction false} PulledWellFormed(definitions: seq<Definition>)
    ensures EachWellFormed(Pulled(definitions))
  {
    if definitions != [] {
      hide EachWellFormed, WellFormed;
      var n := |definitions| - 1;
      var d, o := definitions[n], Pulled(definitions[..n]);
      PulledWellFormed(definitions[..n]);
      UnderWellFormed(o, d.prefix);
      PutAllWellFormed(Under(o, d.prefix), FlatMap(d.icon.aliases, NamesOf) + [d.iconName], d.icon);
      PutEach(o, d.prefix, PutAll(Under(o, d.prefix), FlatMap(d.icon.aliases, NamesOf) + [d.iconName], d.icon));
    } else {
      assert Pulled(definitions) == [];
    }
  }

  /** What is added under a prefix and a name is the last such definition. */
  lemma {:induction false} PulledFinds(definitions: seq<Definition>, prefix: string, name: string)
    ensures Get(Under(Pulled(definitions), prefix), name) == LastDefinition(definitions, prefix, name)
  {
    if definitions != [] {
      var n := |definitions| - 1;
      var d, o := definitions[n], Pulled(definitions[..n]);
      PulledFinds(definitions[..n], prefix, name);
      PutUnder(d, o, prefix, name);
    }
  }

  lemma PutUnder(d: Definition, o: Obj<Obj<Icon>>, prefix: string, name: string)
    ensures var all := FlatMap(d.icon.aliases, NamesOf) + [d.iconName];
      Get(Under(Put(o, d.prefix, PutAll(Under(o, d.prefix), all, d.icon)), prefix), name) ==
      if d.prefix == prefix && Carries(d, name) then Some(d.icon) else Get(Under(o, prefix), name)
  {
    hide Get, Put, PutAll, FlatMap;
    var all := FlatMap(d.icon.aliases, NamesOf) + [d.iconName];
    InFlatMap(d.icon.aliases, NamesOf, name);
    assert name in FlatMap(d.icon.aliases, NamesOf) <==> Name(name) in d.icon.aliases by {
      assert name in NamesOf(Name(name));
    }
    GetPut(o, d.prefix, PutAll(Under(o, d.prefix), all, d.icon), prefix);
    GetPutAll(Under(o, d.prefix), all, d.icon, name);
  }

  /** An old name or unicode with what it stands for now. */
  datatype Shim = Shim(was: Alias, prefix: Option<string>, iconName: Option<string>)

  datatype Mapping = Mapping(prefix: Option<string>, iconName: Option<string>)

  type OldIndex = map<string, Mapping>

  /** Without the regular style its icons are looked for among the solid ones. */
  function MappingOf(shim: Shim, hasRegular: bool): Mapping {
    Mapping(if shim.prefix == Some("far") && !hasRegular then Some("fas") else shim.prefix, shim.iconName)
  }

  /** Only the regular style is replaced, and only where it is missing. */
  lemma MappingMeans(shim: Shim, hasRegular: bool)
    ensures var m := MappingOf(shim, hasRegular);
      && m.iconName == shim.iconName
      && (hasRegular || shim.prefix != Some("far") ==> m.prefix == shim.prefix)
      && (!hasRegular && shim.prefix == Some("far") ==> m.prefix == Some("fas"))
  {
  }

  /** The key that a shim makes among the old names, or among the old unicodes. */
  function ShimKey(was: Alias, unicodes: bool): Option<string> {
    match was
    case Name(text) => if unicodes then None else Some(text)
    case Code(n) => if unicodes then Some(Numeral(n, 16)) else None
  }

  /** Old names are looked up by the name, old unicodes by the hexadecimal numeral. */
  lemma ShimKeyMeans(was: Alias, unicodes: bool, key: string)
    ensures ShimKey(was, unicodes) == Some(key) <==>
            if unicodes then was.Code? && key == Numeral(was.n, 16) else was == Name(key)
  {
  }

  /** The direct scan: the last shim with the key. */
  function LastShim(shims: seq<Shim>, hasRegular: bool, unicodes: bool, key: string): Option<Mapping> {
    if shims == [] then None
    else if ShimKey(shims[|shims| - 1].was, unicodes) == Some(key) then Some(MappingOf(shims[|shims| - 1], hasRegular))
    else LastShim(shims[..|shims| - 1], hasRegular, unicodes, key)
  }

  function FindOld(index: OldIndex, key: string): Option<Mapping> {
    if key in index then Some(index[key]) else None
  }

  ghost predicate IndexesShims(names: OldIndex, unicodes: OldIndex, shims: seq<Shim>, hasRegular: bool) {
    forall key ::
      && FindOld(names, key) == LastShim(shims, hasRegular, false, key)
      && FindOld(unicodes, key) == LastShim(shims, hasRegular, true, key)
  }

  lemma LastShimStep(shims: seq<Shim>, hasRegular: bool, unicodes: bool, key: string, i: nat)
    requires i < |shims|
    ensures LastShim(shims[..i + 1], hasRegular, unicodes, key) ==
            if ShimKey(shims[i].was, unicodes) == Some(key) then Some(MappingOf(shims[i], hasRegular))
            else LastShim(shims[..i], hasRegular, unicodes, key)
  {
    assert shims[..i + 1][..i] == shims[..i];
  }

  method IndexShims(shims: seq<Shim>, hasRegular: bool) returns (names: OldIndex, unicodes: OldIndex)
    ensures IndexesShims(names, unicodes, shims, hasRegular)
  {
    names, unicodes := map[], map[];
    for i := 0 to |shims|
      invariant IndexesShims(names, unicodes, shims[..i], hasRegular)
    {
      hide Numeral, LastShim;
      var shim := shims[i];
      forall codes, key { LastShimStep(shims, hasRegular, codes, key, i); }
      match shim.was {
        case Name(text) =>
          names := names[text := MappingOf(shim, hasRegular)];
        case Code(n) =>
          unicodes := unicodes[Numeral(n, 16) := MappingOf(shim, hasRegular)];
      }
    }
    assert shims[..|shims|] == shims;
  }

  /** The part of the configuration that counts here; `mappedDefault` is what the tables of style names give for `styleDefault`. */
  datatype Config = Config(autoFetchSvg: bool, styleDefault: string, mappedDefault: Option<string>, longPrefix: map<string, string>)

  class FontAwesome {
    var styles: Styles
    var definitions: Styles
    var hooked: bool
    var shims: seq<Shim>
    var byUnicode: map<string, Index>
    var byLigature: map<string, Index>
    var byAlias: map<string, Index>
    var byOldName: OldIndex
    var byOldUnicode: OldIndex
    var defaultUsablePrefix: Option<string>
    const config: Config

    predicate HasRegular()
      reads `styles
    {
      "far" in styles || config.autoFetchSvg
    }

    function CanonicalDefault(): Option<string>
      reads `styles
    {
      if config.mappedDefault.Some? then config.mappedDefault
      else if config.styleDefault in styles then Some(config.styleDefault) else None
    }

    /** Every index agrees with the scan of the current tables. */
    ghost predicate Fresh()
      reads `styles, `byUnicode, `byLigature, `byAlias
    {
      && byUnicode.Keys == byLigature.Keys == byAlias.Keys == styles.Keys
      && forall prefix :: prefix in styles ==>
        && Indexes(Unicode, byUnicode[prefix], styles[prefix])
        && Indexes(Ligature, byLigature[prefix], styles[prefix])
        && Indexes(AnyAlias, byAlias[prefix], styles[prefix])
    }

    /** So do the lookups of old names and the default prefix. */
    ghost predicate FreshOld()
      reads `styles, `shims, `byOldName, `byOldUnicode, `defaultUsablePrefix
    {
      && IndexesShims(byOldName, byOldUnicode, shims, "far" in styles || config.autoFetchSvg)
      && defaultUsablePrefix == if config.mappedDefault.Some? then config.mappedDefault
                                else if config.styleDefault in styles then Some(config.styleDefault) else None
    }

    constructor (styles: Styles, shims: seq<Shim>, config: Config)
      ensures Fresh() && FreshOld() && this.styles == styles && this.shims == shims && this.config == config && !hooked
    {
      this.styles, this.shims, this.config := styles, shims, config;
      definitions, hooked := map[], false;
      byUnicode, byLigature, byAlias, byOldName, byOldUnicode, defaultUsablePrefix := map[], map[], map[], map[], map[], None;
      new;
      Build();
    }

    method Build()
      modifies `byUnicode, `byLigature, `byAlias, `byOldName, `byOldUnicode, `defaultUsablePrefix
      ensures Fresh() && FreshOld()
    {
      hide Fresh, IndexesShims;
      BuildIcons();
      byOldName, byOldUnicode := IndexShims(shims, HasRegular());
      defaultUsablePrefix := CanonicalDefault();
    }

    /** The three lookups by icon. */
    method BuildIcons()
      modifies `byUnicode, `byLigature, `byAlias
      ensures Fresh()
    {
      hide Indexes, FlatMap, KeysOf;
      byUnicode, byLigature, byAlias := map[], map[], map[];
      var rest := styles.Keys;
      while rest != {}
        invariant rest <= styles.Keys
        invariant byUnicode.Keys == byLigature.Keys == byAlias.Keys == styles.Keys - rest
        invariant forall prefix :: prefix in byUnicode ==>
          && Indexes(Unicode, byUnicode[prefix], styles[prefix])
          && Indexes(Ligature, byLigature[prefix], styles[prefix])
          && Indexes(AnyAlias, byAlias[prefix], styles[prefix])
        decreases rest
      {
        var prefix :| prefix in rest;
        rest := rest - {prefix};
        var u := IndexTable(Unicode, styles[prefix]);
        var l := IndexTable(Ligature, styles[prefix]);
        var a := IndexTable(AnyAlias, styles[prefix]);
        byUnicode, byLigature, byAlias := byUnicode[prefix := u], byLigature[prefix := l], byAlias[prefix := a];
      }
    }

    /** Installs the hooks. */
    method Bootstrap()
      modifies `hooked
      ensures hooked && (old(Fresh()) ==> Fresh()) && (old(FreshOld()) ==> FreshOld())
    {
      hooked := true;
    }

    method AddPack(prefix: string, icons: Obj<Icon>)
      modifies `styles, `byUnicode, `byLigature, `byAlias, `byOldName, `byOldUnicode, `defaultUsablePrefix
      ensures Fresh() && FreshOld() && styles == old(styles)[prefix := Merge(Table(old(styles), prefix), icons)]
    {
      styles := styles[prefix := Merge(Table(styles, prefix), icons)];
      Build();
    }

    method AddPacks(packs: seq<(string, Obj<Icon>)>)
      modifies `styles, `byUnicode, `byLigature, `byAlias, `byOldName, `byOldUnicode, `defaultUsablePrefix
      ensures Fresh() && FreshOld() && styles == WithPacks(old(styles), packs)
    {
      for i := 0 to |packs|
        invariant styles == WithPacks(old(styles), packs[..i])
      {
        assert packs[..i + 1][..i] == packs[..i];
        styles := styles[packs[i].0 := Merge(Table(styles, packs[i].0), packs[i].1)];
      }
      assert packs[..|packs|] == packs;
      Build();
    }

    method AddShims(more: seq<Shim>)
      modifies `shims, `byUnicode, `byLigature, `byAlias, `byOldName, `byOldUnicode, `defaultUsablePrefix
      ensures Fresh() && FreshOld() && shims == old(shims) + more
    {
      shims := shims + more;
      Build();
    }

    /** With the hook installed the indexes follow at once; without it they go stale. */
    method DefineIcons(prefix: string, icons: Obj<Icon>)
      modifies `styles, `byUnicode, `byLigature, `byAlias, `byOldName, `byOldUnicode, `defaultUsablePrefix
      ensures styles == Defined(old(styles), prefix, icons)
      ensures hooked ==> Fresh() && FreshOld()
      ensures !hooked ==> byUnicode == old(byUnicode) && byLigature == old(byLigature) && byAlias == old(byAlias)
      ensures !hooked ==>
        byOldName == old(byOldName) && byOldUnicode == old(byOldUnicode) && defaultUsablePrefix == old(defaultUsablePrefix)
      decreases prefix == "fas"
    {
      hide Fresh, FreshOld, Merge;
      if hooked {
        AddPack(prefix, icons);
      } else {
        styles := styles[prefix := Merge(Table(styles, prefix), icons)];
      }
      if prefix == "fas" {
        DefineIcons("fa", icons);
      }
    }

    function AddedOne(s: Styles, prefix: string, icons: Obj<Icon>): Styles {
      var t := Defined(s, prefix, icons);
      if prefix in config.longPrefix && config.longPrefix[prefix] != "" then Defined(t, config.longPrefix[prefix], icons) else t
    }

    function Added(s: Styles, additions: Obj<Obj<Icon>>): Styles {
      if additions == [] then s
      else AddedOne(Added(s, additions[..|additions| - 1]), additions[|additions| - 1].0, additions[|additions| - 1].1)
    }

    /** Where an addition goes: to its prefix, to the long prefix that goes with it, and with `fas` to `fa`. */
    predicate Reaches(prefix: string, p: string) {
      var long := if prefix in config.longPrefix then config.longPrefix[prefix] else "";
      p == prefix || (long != "" && p == long) || (p == "fa" && (prefix == "fas" || long == "fas"))
    }

    /** The last addition that reaches a prefix and has the name. */
    function LastAddition(additions: Obj<Obj<Icon>>, p: string, name: string): Option<Icon> {
      if additions == [] then None
      else
        var (prefix, icons) := additions[|additions| - 1];
        if Reaches(prefix, p) && name in Names(icons) then Get(icons, name)
        else LastAddition(additions[..|additions| - 1], p, name)
    }

    /** Afterwards a prefix has the icons of the additions that reach it, the later over the earlier, over its old ones. */
    lemma {:induction false} AddedFinds(s: Styles, additions: Obj<Obj<Icon>>, p: string, name: string)
      requires AllWellFormed(s) && EachWellFormed(additions)
      ensures AllWellFormed(Added(s, additions))
      ensures Get(Table(Added(s, additions), p), name) ==
              var last := LastAddition(additions, p, name);
              if last.Some? then last else Get(Table(s, p), name)
    {
      hide Get, Names, WellFormed, Defined, AllWellFormed, Table;
      if additions != [] {
        var n := |additions| - 1;
        var (prefix, icons) := additions[n];
        var t := Added(s, additions[..n]);
        AddedFinds(s, additions[..n], p, name);
        DefinedWellFormed(t, prefix, icons);
        DefinedFinds(t, prefix, icons, p, name);
        var u := Defined(t, prefix, icons);
        NamesFound(icons, name);
        if prefix in config.longPrefix && config.longPrefix[prefix] != "" {
          DefinedWellFormed(u, config.longPrefix[prefix], icons);
          DefinedFinds(u, config.longPrefix[prefix], icons, p, name);
        }
      }
    }

    /** What the tables hold once `Add` has put these definitions in. */
    lemma AddFinds(s: Styles, defs: seq<Definition>, p: string, name: string)
      requires AllWellFormed(s)
      ensures var t, last := Added(s, Pulled(defs)), LastAddition(Pulled(defs), p, name);
        AllWellFormed(t) && Get(Table(t, p), name) == if last.Some? then last else Get(Table(s, p), name)
    {
      PulledWellFormed(defs);
      AddedFinds(s, Pulled(defs), p, name);
    }

    /** Library.add: whether or not the hook is installed, and even if the indexes were stale, they are up to date afterwards. */
    method Add(defs: seq<Definition>)
      requires defs == [] ==> Fresh() && FreshOld()
      modifies this
      ensures Fresh() && FreshOld() && shims == old(shims) && hooked == old(hooked) && styles == Added(old(styles), Pulled(defs))
    {
      hide Fresh, FreshOld, Defined, Pulled;
      var additions := Pulled(defs);
      PulledSome(defs);
      for i := 0 to |additions|
        invariant i > 0 || defs == [] ==> Fresh() && FreshOld()
        invariant shims == old(shims) && hooked == old(hooked) && styles == Added(old(styles), additions[..i])
      {
        var (key, icons) := additions[i];
        assert additions[..i + 1][..i] == additions[..i];
        definitions := definitions[key := Merge(Table(definitions, key), icons)];
        DefineIcons(key, icons);
        if key in config.longPrefix && config.longPrefix[key] != "" {
          DefineIcons(config.longPrefix[key], icons);
        }
        Build();
      }
      assert additions[..|additions|] == additions;
    }
  }

  function WithPacks(styles: Styles, packs: seq<(string, Obj<Icon>)>): Styles {
    if packs == [] then styles
    else
      var s := WithPacks(styles, packs[..|packs| - 1]);
      var (prefix, icons) := packs[|packs| - 1];
      s[prefix := Merge(Table(s, prefix), icons)]
  }

  /** The last pack for a prefix that has the name. */
  function LastPack(packs: seq<(string, Obj<Icon>)>, p: string, name: string): Option<Icon> {
    if packs == [] then None
    else
      var (prefix, icons) := packs[|packs| - 1];
      if prefix == p && name in Names(icons) then Get(icons, name) else LastPack(packs[..|packs| - 1], p, name)
  }

  /** Later packs win over earlier ones and all over the old icons. */
  lemma {:induction false} PacksFind(styles: Styles, packs: seq<(string, Obj<Icon>)>, p: string, name: string)
    requires AllWellFormed(styles) && EachWellFormed(packs)
    ensures AllWellFormed(WithPacks(styles, packs))
    ensures var last := LastPack(packs, p, name);
      Get(Table(WithPacks(styles, packs), p), name) == if last.Some? then last else Get(Table(styles, p), name)
  {
    if packs != [] {
      hide Get, Names, WellFormed, Merge;
      var n := |packs| - 1;
      var (prefix, icons) := packs[n];
      var s := WithPacks(styles, packs[..n]);
      PacksFind(styles, packs[..n], p, name);
      GetMerge(Table(s, prefix), icons, name);
      NamesFound(icons, name);
      forall q ensures WellFormed(Table(WithPacks(styles, packs), q)) {
        assert WellFormed(Table(s, q));
      }
    }
  }
}

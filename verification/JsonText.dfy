/**
  JSON values, the text they are printed as, and why that text can be read in one way only.
  Text is a sequence of UTF-16 code units, so that lone surrogates are covered.
*/
module JsonText {

  type Unit = u: int | 0 <= u < 0x1_0000

  type Text = seq<Unit>

  /** The code units of a text in ASCII. */
  function Units(s: string): Text {
    seq(|s|, i requires 0 <= i < |s| => if s[i] as int < 0x80 then s[i] as int else 0x3F)
  }

  lemma UnitsAreCodes(s: string)
    requires forall i :: 0 <= i < |s| ==> s[i] as int < 0x80
    ensures |Units(s)| == |s| && forall i :: 0 <= i < |s| ==> Units(s)[i] == s[i] as int
  {
  }

  /** A number is given by the numeral it prints as; an object by its entries in enumeration order. */
  datatype Json =
    | Null
    | Bool(flag: bool)
    | Num(numeral: Text)
    | Str(text: Text)
    | Arr(items: seq<Json>)
    | Obj(entries: seq<Entry>)

  datatype Entry = Entry(key: Text, value: Json)

  const QUOTE: Unit := 34
  const COMMA: Unit := 44
  const COLON: Unit := 58
  const OPEN_BRACKET: Unit := 91
  const BACKSLASH: Unit := 92
  const CLOSE_BRACKET: Unit := 93
  const LETTER_U: Unit := 117
  const OPEN_BRACE: Unit := 123
  const CLOSE_BRACE: Unit := 125

  const NULL_TEXT: Text := [110, 117, 108, 108]
  const TRUE_TEXT: Text := [116, 114, 117, 101]
  const FALSE_TEXT: Text := [102, 97, 108, 115, 101]

  predicate IsDigit(u: Unit) {
    48 <= u <= 57
  }

  /** Digits, plus, minus, point and exponent mark. */
  predicate InNumeral(u: Unit) {
    IsDigit(u) || u == 43 || u == 45 || u == 46 || u == 101
  }

  predicate IsNumeral(t: Text) {
    t != [] && (IsDigit(t[0]) || t[0] == 45) && forall i :: 0 <= i < |t| ==> InNumeral(t[i])
  }

  predicate DistinctKeys(entries: seq<Entry>) {
    forall i, j :: 0 <= i < j < |entries| ==> entries[i].key != entries[j].key
  }

  /** What every value of the language satisfies: numerals are numerals and a key occurs once. */
  predicate Valid(v: Json) {
    match v
    case Num(numeral) => IsNumeral(numeral)
    case Arr(items) => forall i :: 0 <= i < |items| ==> Valid(items[i])
    case Obj(entries) => DistinctKeys(entries) && forall i :: 0 <= i < |entries| ==> Valid(entries[i].value)
    case _ => true
  }

  // ----- strings -----

  predicate IsHigh(u: Unit) {
    0xD800 <= u <= 0xDBFF
  }

  predicate IsLow(u: Unit) {
    0xDC00 <= u <= 0xDFFF
  }

  function Hex(d: nat): Unit
    requires d < 16
  {
    if d < 10 then 48 + d else 87 + d
  }

  function Escape(u: Unit): Text {
    if u == 8 then [BACKSLASH, 98]
    else if u == 9 then [BACKSLASH, 116]
    else if u == 10 then [BACKSLASH, 110]
    else if u == 12 then [BACKSLASH, 102]
    else if u == 13 then [BACKSLASH, 114]
    else if u == QUOTE || u == BACKSLASH then [BACKSLASH, u]
    else if u < 32 || IsHigh(u) || IsLow(u) then
      [BACKSLASH, LETTER_U, Hex(u / 16 / 16 / 16), Hex(u / 16 / 16 % 16), Hex(u / 16 % 16), Hex(u % 16)]
    else [u]
  }

  /** A high surrogate followed by a low one stands for one character and is printed as it is. */
  predicate Paired(s: Text) {
    |s| > 1 && IsHigh(s[0]) && IsLow(s[1])
  }

  function Width(s: Text): nat {
    if Paired(s) then 2 else 1
  }

  function Chunk(s: Text): Text
    requires s != []
  {
    if Paired(s) then s[..2] else Escape(s[0])
  }

  function Body(s: Text): Text {
    if s == [] then [] else Chunk(s) + Body(s[Width(s)..])
  }

  function Quote(s: Text): Text {
    [QUOTE] + Body(s) + [QUOTE]
  }

  // ----- values -----

  function Print(v: Json): Text {
    match v
    case Null => NULL_TEXT
    case Bool(flag) => if flag then TRUE_TEXT else FALSE_TEXT
    case Num(numeral) => numeral
    case Str(text) => Quote(text)
    case Arr(items) => [OPEN_BRACKET] + PrintItems(items, true)
    case Obj(entries) => [OPEN_BRACE] + PrintEntries(entries, true)
  }

  /** The items that remain of an array and its closing bracket. */
  function PrintItems(items: seq<Json>, first: bool): Text {
    if items == [] then [CLOSE_BRACKET]
    else Separator(first) + Print(items[0]) + PrintItems(items[1..], false)
  }

  /** The entries that remain of an object and its closing brace. */
  function PrintEntries(entries: seq<Entry>, first: bool): Text {
    if entries == [] then [CLOSE_BRACE]
    else
      Separator(first) + Quote(entries[0].key) + [COLON] + Print(entries[0].value) + PrintEntries(entries[1..], false)
  }

  function Separator(first: bool): Text {
    if first then [] else [COMMA]
  }

  // ----- a printed string ends in one place only -----

  lemma HexIsInjective(c: nat, d: nat)
    requires c < 16 && d < 16 && Hex(c) == Hex(d)
    ensures c == d
  {
  }

  lemma LastDigit(u: nat, v: nat)
    requires u / 16 == v / 16 && u % 16 == v % 16
    ensures u == v
  {
  }

  /** How many units the chunk at the head of a printed string takes. */
  function ChunkLength(t: Text): nat
    requires t != []
  {
    if IsHigh(t[0]) then 2
    else if t[0] != BACKSLASH then 1
    else if |t| > 1 && t[1] == LETTER_U then 6
    else 2
  }

  lemma ChunkKnowsItsLength(s: Text, rest: Text)
    requires s != []
    ensures Chunk(s) != [] && Chunk(s)[0] != QUOTE
    ensures ChunkLength(Chunk(s) + rest) == |Chunk(s)|
  {
  }

  lemma SameEscape(u: Unit, v: Unit)
    requires Escape(u) == Escape(v)
    ensures u == v
  {
    if |Escape(u)| == 6 {
      var a, b := Escape(u), Escape(v);
      assert a[2] == b[2] && a[3] == b[3] && a[4] == b[4] && a[5] == b[5];
      HexIsInjective(u / 16 / 16 / 16, v / 16 / 16 / 16);
      HexIsInjective(u / 16 / 16 % 16, v / 16 / 16 % 16);
      HexIsInjective(u / 16 % 16, v / 16 % 16);
      HexIsInjective(u % 16, v % 16);
      LastDigit(u / 16 / 16, v / 16 / 16);
      LastDigit(u / 16, v / 16);
      LastDigit(u, v);
    }
  }

  lemma SameChunk(s: Text, t: Text)
    requires s != [] && t != [] && Chunk(s) == Chunk(t)
    ensures Width(s) == Width(t) && s[..Width(s)] == t[..Width(t)]
  {
    if Paired(s) || Paired(t) {
      assert Chunk(s)[0] == Chunk(t)[0];
      assert s[..2][0] == s[0] || !Paired(s);
      assert t[..2][0] == t[0] || !Paired(t);
    } else {
      SameEscape(s[0], t[0]);
    }
  }

  lemma SplitSame(a: Text, b: Text, x: Text, y: Text)
    requires a + x == b + y && |a| == |b|
    ensures a == b && x == y
  {
    assert a == (a + x)[..|a|] && b == (b + y)[..|b|];
    assert x == (a + x)[|a|..] && y == (b + y)[|b|..];
  }

  lemma Regroup(a: Text, b: Text, c: Text)
    ensures a + b + c == a + (b + c)
  {
  }

  lemma BodySplits(s: Text, x: Text)
    requires s != []
    ensures Width(s) <= |s|
    ensures Body(s) + [QUOTE] + x == Chunk(s) + (Body(s[Width(s)..]) + [QUOTE] + x)
    ensures s == s[..Width(s)] + s[Width(s)..]
  {
    hide Escape, Chunk;
    var rest := Body(s[Width(s)..]);
    Regroup(Chunk(s), rest, [QUOTE]);
    Regroup(Chunk(s), rest + [QUOTE], x);
  }

  /** A printed string starts with its closing quote only if the string is empty. */
  lemma BodyEnds(s: Text, x: Text)
    ensures (Body(s) + [QUOTE] + x)[0] == QUOTE <==> s == []
    ensures s == [] ==> Body(s) + [QUOTE] + x == [QUOTE] + x
  {
    if s != [] {
      ChunkKnowsItsLength(s, []);
      BodySplits(s, x);
    }
  }

  lemma {:induction false} BodyIsUnique(s: Text, t: Text, x: Text, y: Text)
    requires Body(s) + [QUOTE] + x == Body(t) + [QUOTE] + y
    ensures s == t && x == y
    decreases |s|
  {
    hide Body, Chunk, ChunkLength;
    BodyEnds(s, x);
    BodyEnds(t, y);
    if s == [] {
      SplitSame([QUOTE], [QUOTE], x, y);
    } else {
      BodySplits(s, x);
      BodySplits(t, y);
      var p, q := s[Width(s)..], t[Width(t)..];
      var restS, restT := Body(p) + [QUOTE] + x, Body(q) + [QUOTE] + y;
      ChunkKnowsItsLength(s, restS);
      ChunkKnowsItsLength(t, restT);
      SplitSame(Chunk(s), Chunk(t), restS, restT);
      SameChunk(s, t);
      BodyIsUnique(p, q, x, y);
    }
  }

  lemma QuoteSplits(s: Text, x: Text)
    ensures Quote(s) + x == [QUOTE] + (Body(s) + [QUOTE] + x)
  {
    hide Body;
  }

  lemma QuoteIsUnique(s: Text, t: Text, x: Text, y: Text)
    requires Quote(s) + x == Quote(t) + y
    ensures s == t && x == y
  {
    hide *;
    QuoteSplits(s, x);
    QuoteSplits(t, y);
    SplitSame([QUOTE], [QUOTE], Body(s) + [QUOTE] + x, Body(t) + [QUOTE] + y);
    BodyIsUnique(s, t, x, y);
  }

  // ----- a printed value ends in one place only -----

  /** What may follow a value: the end of the text, a comma or a closing mark. */
  predicate Stops(x: Text) {
    x == [] || x[0] == COMMA || x[0] == CLOSE_BRACKET || x[0] == CLOSE_BRACE
  }

  /** The first unit of a printed value tells which kind of value it is. */
  predicate Opens(u: Unit, v: Json) {
    match v
    case Null => u == 110
    case Bool(flag) => u == if flag then 116 else 102
    case Num(_) => IsDigit(u) || u == 45
    case Str(_) => u == QUOTE
    case Arr(_) => u == OPEN_BRACKET
    case Obj(_) => u == OPEN_BRACE
  }

  lemma FirstUnit(v: Json)
    requires Valid(v)
    ensures Print(v) != [] && Opens(Print(v)[0], v)
  {
  }

  lemma SameKind(v: Json, w: Json, x: Text, y: Text)
    requires Valid(v) && Valid(w) && Print(v) + x == Print(w) + y
    ensures v.Null? == w.Null? && v.Bool? == w.Bool? && v.Num? == w.Num? && v.Str? == w.Str? && v.Arr? == w.Arr?
    ensures v.Bool? ==> v == w
  {
    FirstUnit(v);
    FirstUnit(w);
    assert (Print(v) + x)[0] == Print(v)[0] && (Print(w) + y)[0] == Print(w)[0];
  }

  /** The length of the numeral a text begins with. */
  function NumeralLength(t: Text): nat {
    if t == [] || !InNumeral(t[0]) then 0 else 1 + NumeralLength(t[1..])
  }

  lemma {:induction false} NumeralKnowsItsLength(a: Text, x: Text)
    requires Stops(x) && forall i :: 0 <= i < |a| ==> InNumeral(a[i])
    ensures NumeralLength(a + x) == |a|
  {
    if a == [] {
      assert a + x == x;
    } else {
      assert (a + x)[0] == a[0] && (a + x)[1..] == a[1..] + x;
      NumeralKnowsItsLength(a[1..], x);
    }
  }

  lemma NumeralIsUnique(a: Text, b: Text, x: Text, y: Text)
    requires IsNumeral(a) && IsNumeral(b) && Stops(x) && Stops(y) && a + x == b + y
    ensures a == b && x == y
  {
    NumeralKnowsItsLength(a, x);
    NumeralKnowsItsLength(b, y);
    SplitSame(a, b, x, y);
  }

  lemma ItemsStop(items: seq<Json>)
    ensures Stops(PrintItems(items, false)) && PrintItems(items, false) != []
  {
  }

  lemma EntriesStop(entries: seq<Entry>)
    ensures Stops(PrintEntries(entries, false)) && PrintEntries(entries, false) != []
  {
  }

  lemma SameMark(u: Unit, a: Text, b: Text, x: Text, y: Text)
    requires [u] + a + x == [u] + b + y
    ensures a + x == b + y
  {
    Regroup([u], a, x);
    Regroup([u], b, y);
    SplitSame([u], [u], a + x, b + y);
  }

  /** Read from its start, a text that begins with a printed value begins with one only. */
  lemma {:induction false} PrintIsUnique(v: Json, w: Json, x: Text, y: Text)
    requires Valid(v) && Valid(w) && Stops(x) && Stops(y) && Print(v) + x == Print(w) + y
    ensures v == w && x == y
    decreases v
  {
    hide Stops, Quote, PrintItems, PrintEntries, IsNumeral;
    SameKind(v, w, x, y);
    match v
    case Num(numeral) => NumeralIsUnique(numeral, w.numeral, x, y);
    case Str(text) => QuoteIsUnique(text, w.text, x, y);
    case Arr(items) =>
      SameMark(OPEN_BRACKET, PrintItems(items, true), PrintItems(w.items, true), x, y);
      ItemsAreUnique(items, w.items, true, x, y);
    case Obj(entries) =>
      SameMark(OPEN_BRACE, PrintEntries(entries, true), PrintEntries(w.entries, true), x, y);
      EntriesAreUnique(entries, w.entries, true, x, y);
    case _ => SplitSame(Print(v), Print(w), x, y);
  }

  lemma ItemSplits(a: seq<Json>, first: bool, x: Text)
    requires a != []
    ensures PrintItems(a, first) + x == Separator(first) + (Print(a[0]) + (PrintItems(a[1..], false) + x))
    ensures Stops(PrintItems(a[1..], false) + x)
    ensures a == [a[0]] + a[1..]
  {
    hide Print, Separator;
    var rest := PrintItems(a[1..], false);
    ItemsStop(a[1..]);
    Regroup(Separator(first), Print(a[0]), rest);
    Regroup(Separator(first), Print(a[0]) + rest, x);
    Regroup(Print(a[0]), rest, x);
  }

  lemma {:induction false} ItemsAreUnique(a: seq<Json>, b: seq<Json>, first: bool, x: Text, y: Text)
    requires forall i :: 0 <= i < |a| ==> Valid(a[i])
    requires forall i :: 0 <= i < |b| ==> Valid(b[i])
    requires PrintItems(a, first) + x == PrintItems(b, first) + y
    ensures a == b && x == y
    decreases a
  {
    hide *;
    if a == [] || b == [] {
      ItemsEnd(a, b, first, x, y);
    } else {
      var restA, restB := PrintItems(a[1..], false) + x, PrintItems(b[1..], false) + y;
      ItemSplits(a, first, x);
      ItemSplits(b, first, y);
      SplitSame(Separator(first), Separator(first), Print(a[0]) + restA, Print(b[0]) + restB);
      PrintIsUnique(a[0], b[0], restA, restB);
      ItemsAreUnique(a[1..], b[1..], false, x, y);
    }
  }

  lemma ItemsEnd(a: seq<Json>, b: seq<Json>, first: bool, x: Text, y: Text)
    requires a == [] || b == []
    requires forall i :: 0 <= i < |a| ==> Valid(a[i])
    requires forall i :: 0 <= i < |b| ==> Valid(b[i])
    requires PrintItems(a, first) + x == PrintItems(b, first) + y
    ensures a == b && x == y
  {
    assert (PrintItems(a, first) + x)[0] == PrintItems(a, first)[0];
    assert (PrintItems(b, first) + y)[0] == PrintItems(b, first)[0];
    if a != [] { FirstUnit(a[0]); }
    if b != [] { FirstUnit(b[0]); }
    SplitSame(PrintItems(a, first), PrintItems(b, first), x, y);
  }

  lemma {:induction false} EntriesAreUnique(a: seq<Entry>, b: seq<Entry>, first: bool, x: Text, y: Text)
    requires forall i :: 0 <= i < |a| ==> Valid(a[i].value)
    requires forall i :: 0 <= i < |b| ==> Valid(b[i].value)
    requires PrintEntries(a, first) + x == PrintEntries(b, first) + y
    ensures a == b && x == y
    decreases a
  {
    hide *;
    if a == [] || b == [] {
      EntriesEnd(a, b, first, x, y);
    } else {
      var restA, restB := PrintEntries(a[1..], false) + x, PrintEntries(b[1..], false) + y;
      var valueA, valueB := Print(a[0].value) + restA, Print(b[0].value) + restB;
      EntrySplits(a, first, x);
      EntrySplits(b, first, y);
      SplitSame(Separator(first), Separator(first),
                Quote(a[0].key) + ([COLON] + valueA), Quote(b[0].key) + ([COLON] + valueB));
      QuoteIsUnique(a[0].key, b[0].key, [COLON] + valueA, [COLON] + valueB);
      SplitSame([COLON], [COLON], valueA, valueB);
      PrintIsUnique(a[0].value, b[0].value, restA, restB);
      EntriesAreUnique(a[1..], b[1..], false, x, y);
    }
  }

  lemma EntryRegroups(a: Text, b: Text, c: Text, d: Text, e: Text, x: Text)
    ensures a + b + c + d + e + x == a + (b + (c + d) + (e + x))
  {
    Regroup(a, b, c);
    Regroup(a, b + c, d);
    Regroup(b, c, d);
    Regroup(a, b + (c + d), e);
    Regroup(a, b + (c + d) + e, x);
    Regroup(b + (c + d), e, x);
  }

  lemma EntrySplits(a: seq<Entry>, first: bool, x: Text)
    requires a != []
    ensures PrintEntries(a, first) + x
            == Separator(first)
               + (Quote(a[0].key) + ([COLON] + (Print(a[0].value) + (PrintEntries(a[1..], false) + x))))
    ensures Stops(PrintEntries(a[1..], false) + x)
    ensures a == [a[0]] + a[1..]
  {
    hide Print, Quote, Separator;
    var key, value, rest := Quote(a[0].key), Print(a[0].value), PrintEntries(a[1..], false);
    EntriesStop(a[1..]);
    Regroup(value, rest, x);
    Regroup([COLON], value, rest + x);
    Regroup(key, [COLON] + value, rest + x);
    EntryRegroups(Separator(first), key, [COLON], value, rest, x);
  }

  lemma EntriesEnd(a: seq<Entry>, b: seq<Entry>, first: bool, x: Text, y: Text)
    requires a == [] || b == []
    requires PrintEntries(a, first) + x == PrintEntries(b, first) + y
    ensures a == b && x == y
  {
    assert (PrintEntries(a, first) + x)[0] == PrintEntries(a, first)[0];
    assert (PrintEntries(b, first) + y)[0] == PrintEntries(b, first)[0];
    if a == b { SplitSame(PrintEntries(a, first), PrintEntries(b, first), x, y); }
  }

  /** Different values print differently. */
  lemma PrintIsInjective(v: Json, w: Json)
    requires Valid(v) && Valid(w)
    ensures Print(v) == Print(w) <==> v == w
  {
    if Print(v) == Print(w) {
      assert Print(v) + [] == Print(w) + [];
      PrintIsUnique(v, w, [], []);
    }
  }
}

/**
  A reader of JSON text (sections 2 to 7 of RFC 8259), written without regard to how values are printed,
  and the proof that it reads every printed value back.
*/
module JsonReader {
  import opened Wrappers
  import opened JsonText

  /** A string that is being read: what it holds so far, and the text after its closing quote. */
  function Prepend(front: Text, r: Option<(Text, Text)>): Option<(Text, Text)> {
    match r
    case None => None
    case Some(read) => Some((front + read.0, read.1))
  }

  /** The value of a hexadecimal digit of either case. */
  function HexValue(u: Unit): Option<nat> {
    if 48 <= u <= 57 then Some(u - 48)
    else if 65 <= u <= 70 then Some(u - 55)
    else if 97 <= u <= 102 then Some(u - 87)
    else None
  }

  function FourDigits(t: Text): Option<Unit>
    requires |t| == 4
  {
    var a, b, c, d := HexValue(t[0]), HexValue(t[1]), HexValue(t[2]), HexValue(t[3]);
    if a.None? || b.None? || c.None? || d.None? then None
    else
      var value := ((a.value * 16 + b.value) * 16 + c.value) * 16 + d.value;
      if value < 0x1_0000 then Some(value) else None
  }

  /** What a backslash and one more unit stand for. */
  function ShortEscape(u: Unit): Option<Unit> {
    if u == 34 || u == 47 || u == 92 then Some(u)
    else if u == 98 then Some(8)
    else if u == 102 then Some(12)
    else if u == 110 then Some(10)
    else if u == 114 then Some(13)
    else if u == 116 then Some(9)
    else None
  }

  /** Reads on from inside a string. Control characters and lone surrogates must have been escaped. */
  function ReadString(t: Text): (r: Option<(Text, Text)>)
    ensures r.Some? ==> |r.value.1| < |t|
  {
    if t == [] then None
    else if t[0] == 34 then Some(([], t[1..]))
    else if t[0] == 92 then
      if |t| < 2 then None
      else if t[1] == 117 then
        if |t| < 6 || FourDigits(t[2..6]).None? then None
        else Prepend([FourDigits(t[2..6]).value], ReadString(t[6..]))
      else if ShortEscape(t[1]).None? then None
      else Prepend([ShortEscape(t[1]).value], ReadString(t[2..]))
    else if 0xD800 <= t[0] <= 0xDBFF then
      if |t| < 2 || !(0xDC00 <= t[1] <= 0xDFFF) then None else Prepend(t[..2], ReadString(t[2..]))
    else if t[0] < 32 || 0xDC00 <= t[0] <= 0xDFFF then None
    else Prepend([t[0]], ReadString(t[1..]))
  }

  /** One value at the beginning of a text, and the text after it. */
  function ReadValue(t: Text): (r: Option<(Json, Text)>)
    ensures r.Some? ==> |r.value.1| < |t|
    decreases |t|, 0
  {
    if t == [] then None
    else if t[0] == 34 then
      match ReadString(t[1..])
      case None => None
      case Some(read) => Some((Str(read.0), read.1))
    else if t[0] == 91 then
      match ReadItems(t[1..], true)
      case None => None
      case Some(read) => Some((Arr(read.0), read.1))
    else if t[0] == 123 then
      match ReadEntries(t[1..], true)
      case None => None
      case Some(read) => Some((Obj(read.0), read.1))
    else if [110, 117, 108, 108] <= t then Some((Null, t[4..]))
    else if [116, 114, 117, 101] <= t then Some((Bool(true), t[4..]))
    else if [102, 97, 108, 115, 101] <= t then Some((Bool(false), t[5..]))
    else if IsDigit(t[0]) || t[0] == 45 then Some((Num(t[..NumeralRun(t)]), t[NumeralRun(t)..]))
    else None
  }

  /** The length of the run of numeral characters at the beginning of a text. */
  function NumeralRun(t: Text): (n: nat)
    ensures n <= |t| && (t != [] && (IsDigit(t[0]) || t[0] == 45) ==> n > 0)
  {
    if t != [] && (48 <= t[0] <= 57 || t[0] in {43, 45, 46, 101}) then 1 + NumeralRun(t[1..]) else 0
  }

  /** The items that remain of an array; all but the first follow a comma. */
  function ReadItems(t: Text, first: bool): (r: Option<(seq<Json>, Text)>)
    ensures r.Some? ==> |r.value.1| < |t|
    decreases |t|, 1
  {
    if t == [] then None
    else if t[0] == 93 then Some(([], t[1..]))
    else if !first && t[0] != 44 then None
    else
      match ReadValue(if first then t else t[1..])
      case None => None
      case Some(item) =>
        match ReadItems(item.1, false)
        case None => None
        case Some(rest) => Some(([item.0] + rest.0, rest.1))
  }

  /** The entries that remain of an object; all but the first follow a comma. */
  function ReadEntries(t: Text, first: bool): (r: Option<(seq<Entry>, Text)>)
    ensures r.Some? ==> |r.value.1| < |t|
    decreases |t|, 1
  {
    if t == [] then None
    else if t[0] == 125 then Some(([], t[1..]))
    else if !first && t[0] != 44 then None
    else
      var u := if first then t else t[1..];
      if u == [] || u[0] != 34 then None
      else
        match ReadString(u[1..])
        case None => None
        case Some(key) =>
          if key.1 == [] || key.1[0] != 58 then None
          else
            match ReadValue(key.1[1..])
            case None => None
            case Some(value) =>
              match ReadEntries(value.1, false)
              case None => None
              case Some(rest) => Some(([Entry(key.0, value.0)] + rest.0, rest.1))
  }

  // ----- strings are read back -----

  lemma HexIsRead(d: nat)
    requires d < 16
    ensures HexValue(Hex(d)) == Some(d)
  {
  }

  lemma FourDigitsAreRead(u: Unit)
    ensures FourDigits([Hex(u / 16 / 16 / 16), Hex(u / 16 / 16 % 16), Hex(u / 16 % 16), Hex(u % 16)]) == Some(u)
  {
    HexIsRead(u / 16 / 16 / 16);
    HexIsRead(u / 16 / 16 % 16);
    HexIsRead(u / 16 % 16);
    HexIsRead(u % 16);
    assert u == u / 16 * 16 + u % 16;
    assert u / 16 == u / 16 / 16 * 16 + u / 16 % 16;
    assert u / 16 / 16 == u / 16 / 16 / 16 * 16 + u / 16 / 16 % 16;
  }

  lemma LongEscapeIsRead(u: Unit, rest: Text)
    ensures var t := [BACKSLASH, LETTER_U, Hex(u / 16 / 16 / 16), Hex(u / 16 / 16 % 16), Hex(u / 16 % 16), Hex(u % 16)];
            ReadString(t + rest) == Prepend([u], ReadString(rest))
  {
    hide FourDigits, Hex;
    var t := [BACKSLASH, LETTER_U, Hex(u / 16 / 16 / 16), Hex(u / 16 / 16 % 16), Hex(u / 16 % 16), Hex(u % 16)];
    FourDigitsAreRead(u);
    assert (t + rest)[2..6] == [Hex(u / 16 / 16 / 16), Hex(u / 16 / 16 % 16), Hex(u / 16 % 16), Hex(u % 16)];
    assert (t + rest)[6..] == rest;
  }

  lemma ShortEscapeIsRead(u: Unit, letter: Unit, rest: Text)
    requires letter != 117 && ShortEscape(letter) == Some(u)
    ensures ReadString([BACKSLASH, letter] + rest) == Prepend([u], ReadString(rest))
  {
    assert ([BACKSLASH, letter] + rest)[2..] == rest;
  }

  lemma EscapeIsRead(u: Unit, rest: Text)
    ensures ReadString(Escape(u) + rest) == Prepend([u], ReadString(rest))
  {
    hide ReadString, Prepend;
    if u == 8 || u == 9 || u == 10 || u == 12 || u == 13 || u == QUOTE || u == BACKSLASH {
      ShortEscapeIsRead(u, Escape(u)[1], rest);
    } else if u < 32 || IsHigh(u) || IsLow(u) {
      LongEscapeIsRead(u, rest);
    } else {
      PlainIsRead(u, rest);
    }
  }

  lemma PlainIsRead(u: Unit, rest: Text)
    requires u >= 32 && u != QUOTE && u != BACKSLASH && !IsHigh(u) && !IsLow(u)
    ensures ReadString([u] + rest) == Prepend([u], ReadString(rest))
  {
    assert ([u] + rest)[1..] == rest;
  }

  lemma ChunkIsRead(s: Text, rest: Text)
    requires s != []
    ensures Width(s) <= |s| && ReadString(Chunk(s) + rest) == Prepend(s[..Width(s)], ReadString(rest))
  {
    if Paired(s) {
      assert (s[..2] + rest)[2..] == rest && (s[..2] + rest)[..2] == s[..2];
    } else {
      hide ReadString, Escape, Prepend;
      EscapeIsRead(s[0], rest);
      assert s[..1] == [s[0]];
    }
  }

  lemma {:induction false} BodyIsRead(s: Text, x: Text)
    ensures ReadString(Body(s) + [QUOTE] + x) == Some((s, x))
  {
    hide ReadString, Chunk, Body;
    if s == [] {
      EmptyIsRead(x);
    } else {
      var p := s[Width(s)..];
      BodySplits(s, x);
      ChunkIsRead(s, Body(p) + [QUOTE] + x);
      BodyIsRead(p, x);
    }
  }

  lemma EmptyIsRead(x: Text)
    ensures ReadString(Body([]) + [QUOTE] + x) == Some(([], x))
  {
    assert Body([]) + [QUOTE] + x == [QUOTE] + x;
    assert ([QUOTE] + x)[1..] == x;
  }

  /** A printed string is read back, and the reader stops right after it. */
  lemma QuoteIsRead(s: Text, x: Text)
    ensures Quote(s) + x == [34] + (Quote(s) + x)[1..] && ReadString((Quote(s) + x)[1..]) == Some((s, x))
  {
    hide ReadString, Body;
    QuoteSplits(s, x);
    assert ([QUOTE] + (Body(s) + [QUOTE] + x))[1..] == Body(s) + [QUOTE] + x;
    BodyIsRead(s, x);
  }

  // ----- values are read back -----

  lemma {:induction false} NumeralRunIsLength(t: Text)
    ensures NumeralRun(t) == NumeralLength(t)
  {
    if t != [] { NumeralRunIsLength(t[1..]); }
  }

  lemma NumeralIsRead(numeral: Text, x: Text)
    requires IsNumeral(numeral) && Stops(x)
    ensures ReadValue(numeral + x) == Some((Num(numeral), x))
  {
    hide NumeralRun, NumeralLength;
    var t := numeral + x;
    NumeralRunIsLength(t);
    NumeralKnowsItsLength(numeral, x);
    assert t[0] == numeral[0] && t[..|numeral|] == numeral && t[|numeral|..] == x;
  }

  lemma WordIsRead(v: Json, x: Text)
    requires v.Null? || v.Bool?
    ensures ReadValue(Print(v) + x) == Some((v, x))
  {
    var t := Print(v) + x;
    assert t[0] == Print(v)[0] && t[..|Print(v)|] == Print(v) && t[|Print(v)|..] == x;
  }

  /** Any printed value is read back as it was, and the reader stops right after it. */
  lemma {:induction false} ValueIsRead(v: Json, x: Text)
    requires Valid(v) && Stops(x)
    ensures ReadValue(Print(v) + x) == Some((v, x))
    decreases v
  {
    hide Stops, Quote, PrintItems, PrintEntries, ReadString, ReadItems, ReadEntries, IsNumeral;
    match v
    case Null => WordIsRead(v, x);
    case Bool(_) => WordIsRead(v, x);
    case Num(numeral) => NumeralIsRead(numeral, x);
    case Str(text) => QuoteIsRead(text, x);
    case Arr(items) =>
      ItemsAreRead(items, true, x);
      Opened(OPEN_BRACKET, PrintItems(items, true), x);
    case Obj(entries) =>
      EntriesAreRead(entries, true, x);
      Opened(OPEN_BRACE, PrintEntries(entries, true), x);
  }

  lemma Opened(mark: Unit, body: Text, x: Text)
    ensures ([mark] + body + x)[0] == mark && ([mark] + body + x)[1..] == body + x
  {
  }

  lemma {:induction false} ItemsAreRead(items: seq<Json>, first: bool, x: Text)
    requires forall i :: 0 <= i < |items| ==> Valid(items[i])
    ensures ReadItems(PrintItems(items, first) + x, first) == Some((items, x))
    decreases items
  {
    hide Valid, Stops, PrintItems, Print, ReadItems, ReadValue;
    if items == [] {
      NoItemsAreRead(first, x);
    } else {
      var rest := PrintItems(items[1..], false) + x;
      ItemSplits(items, first, x);
      ValueIsRead(items[0], rest);
      ItemsAreRead(items[1..], false, x);
      FirstUnit(items[0]);
      ItemIsRead(items[0], first, rest, items[1..], x);
    }
  }

  lemma NoItemsAreRead(first: bool, x: Text)
    ensures ReadItems(PrintItems([], first) + x, first) == Some(([], x))
  {
    assert ([CLOSE_BRACKET] + x)[1..] == x;
  }

  lemma ItemIsRead(item: Json, first: bool, rest: Text, items: seq<Json>, x: Text)
    requires Print(item) != [] && Opens(Print(item)[0], item)
    requires ReadValue(Print(item) + rest) == Some((item, rest)) && ReadItems(rest, false) == Some((items, x))
    ensures ReadItems(Separator(first) + (Print(item) + rest), first) == Some(([item] + items, x))
  {
    hide ReadValue, Print;
    var value := Print(item) + rest;
    var t := Separator(first) + value;
    assert value[0] == Print(item)[0];
    assert (if first then t else t[1..]) == value;
  }

  lemma {:induction false} EntriesAreRead(entries: seq<Entry>, first: bool, x: Text)
    requires forall i :: 0 <= i < |entries| ==> Valid(entries[i].value)
    ensures ReadEntries(PrintEntries(entries, first) + x, first) == Some((entries, x))
    decreases entries
  {
    hide Valid, Stops, PrintEntries, Print, Quote, ReadEntries, ReadValue, ReadString;
    if entries == [] {
      NoEntriesAreRead(first, x);
    } else {
      var e, rest := entries[0], PrintEntries(entries[1..], false) + x;
      EntrySplits(entries, first, x);
      ValueIsRead(e.value, rest);
      EntriesAreRead(entries[1..], false, x);
      EntryIsRead(e, first, rest, entries[1..], x);
      assert [Entry(e.key, e.value)] + entries[1..] == entries;
    }
  }

  lemma NoEntriesAreRead(first: bool, x: Text)
    ensures ReadEntries(PrintEntries([], first) + x, first) == Some(([], x))
  {
    assert ([CLOSE_BRACE] + x)[1..] == x;
  }

  lemma EntryIsRead(e: Entry, first: bool, rest: Text, entries: seq<Entry>, x: Text)
    requires ReadValue(Print(e.value) + rest) == Some((e.value, rest))
    requires ReadEntries(rest, false) == Some((entries, x))
    ensures var t := Separator(first) + (Quote(e.key) + ([COLON] + (Print(e.value) + rest)));
            ReadEntries(t, first) == Some(([e] + entries, x))
  {
    hide ReadValue, Print, Quote, ReadString;
    var value := Print(e.value) + rest;
    var u := Quote(e.key) + ([COLON] + value);
    var t := Separator(first) + u;
    QuoteIsRead(e.key, [COLON] + value);
    assert u[0] == 34;
    assert (if first then t else t[1..]) == u;
    assert ([COLON] + value)[1..] == value;
  }

  /** Reading a whole text: one value and nothing after it. */
  function Read(t: Text): Option<Json> {
    match ReadValue(t)
    case None => None
    case Some(read) => if read.1 == [] then Some(read.0) else None
  }

  /** The printed text of a value means that value, to any reader of JSON. */
  lemma PrintedIsRead(v: Json)
    requires Valid(v)
    ensures Read(Print(v)) == Some(v)
  {
    hide ReadValue, Print;
    ValueIsRead(v, []);
    assert Print(v) + [] == Print(v);
  }
}

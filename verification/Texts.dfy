/** Splitting, joining, trimming and decimal numerals, as the string functions of the platform do them. */
module Texts {

  /** The characters that trimming removes and that the whitespace pattern matches. */
  predicate IsSpace(c: char) {
    || c == ' ' || '\t' <= c <= '\r' || c == '\U{A0}' || c == '\U{1680}' || '\U{2000}' <= c <= '\U{200A}'
    || c == '\U{2028}' || c == '\U{2029}' || c == '\U{202F}' || c == '\U{205F}' || c == '\U{3000}' || c == '\U{FEFF}'
  }

  function TrimStart(s: string): string {
    if s != [] && IsSpace(s[0]) then TrimStart(s[1..]) else s
  }

  function TrimEnd(s: string): string {
    if s != [] && IsSpace(s[|s| - 1]) then TrimEnd(s[..|s| - 1]) else s
  }

  function Trim(s: string): string {
    TrimEnd(TrimStart(s))
  }

  /** White space and line terminators by their code points (sections 12.2 and 12.3 of ECMA-262). */
  lemma SpaceCodes(c: char)
    ensures IsSpace(c)
            <==> c as int in {9, 10, 11, 12, 13, 32, 160, 5760, 8192, 8193, 8194, 8195, 8196, 8197, 8198, 8199, 8200,
                              8201, 8202, 8232, 8233, 8239, 8287, 12288, 65279}
  {
  }

  ghost predicate AllSpaces(s: string) {
    forall i :: 0 <= i < |s| ==> IsSpace(s[i])
  }

  /** Trimming takes away spaces at both ends, and all of them. */
  lemma TrimMeaning(s: string)
    ensures exists before, after :: s == before + Trim(s) + after && AllSpaces(before) && AllSpaces(after)
    ensures Trim(s) != [] ==> !IsSpace(Trim(s)[0]) && !IsSpace(Trim(s)[|Trim(s)| - 1])
  {
    var t := TrimStart(s);
    var before := TrimStartMeaning(s);
    var after := TrimEndMeaning(t);
    assert s == before + Trim(s) + after;
  }

  lemma {:induction false} TrimStartMeaning(s: string) returns (before: string)
    ensures s == before + TrimStart(s) && AllSpaces(before)
    ensures TrimStart(s) != [] ==> !IsSpace(TrimStart(s)[0])
  {
    before := [];
    if s != [] && IsSpace(s[0]) {
      var rest := TrimStartMeaning(s[1..]);
      before := [s[0]] + rest;
      assert s == [s[0]] + s[1..];
    }
  }

  lemma {:induction false} TrimEndMeaning(s: string) returns (after: string)
    ensures s == TrimEnd(s) + after && AllSpaces(after)
    ensures TrimEnd(s) != [] ==> !IsSpace(TrimEnd(s)[|TrimEnd(s)| - 1])
    ensures TrimEnd(s) != [] ==> s != [] && TrimEnd(s)[0] == s[0]
  {
    after := [];
    if s != [] && IsSpace(s[|s| - 1]) {
      var rest := TrimEndMeaning(s[..|s| - 1]);
      after := rest + [s[|s| - 1]];
      assert s == s[..|s| - 1] + [s[|s| - 1]];
    }
  }

  /** Trimming changes nothing exactly when neither end is a space. */
  lemma TrimIsIdentity(s: string)
    ensures Trim(s) == s <==> s == [] || (!IsSpace(s[0]) && !IsSpace(s[|s| - 1]))
  {
    TrimStartShortens(s);
    TrimEndShortens(TrimStart(s));
    if s != [] && IsSpace(s[0]) { TrimStartShortens(s[1..]); }
    if s != [] && IsSpace(s[|s| - 1]) { TrimEndShortens(s[..|s| - 1]); }
  }

  lemma {:induction false} TrimStartShortens(s: string)
    ensures |TrimStart(s)| <= |s|
  {
    if s != [] && IsSpace(s[0]) { TrimStartShortens(s[1..]); }
  }

  lemma {:induction false} TrimEndShortens(s: string)
    ensures |TrimEnd(s)| <= |s|
  {
    if s != [] && IsSpace(s[|s| - 1]) { TrimEndShortens(s[..|s| - 1]); }
  }

  // ----- split and join, for sequences of any units -----

  function Split<T(==)>(s: seq<T>, c: T): (parts: seq<seq<T>>)
    ensures parts != []
  {
    if s == [] then [[]] else Prefixed(s[0], Split(s[1..], c), c)
  }

  /** The parts of a text that starts with `x` and goes on with the given parts. */
  function Prefixed<T(==)>(x: T, rest: seq<seq<T>>, c: T): (parts: seq<seq<T>>)
    requires rest != []
    ensures parts != []
  {
    if x == c then [[]] + rest else [[x] + rest[0]] + rest[1..]
  }

  function Join<T(==)>(parts: seq<seq<T>>, c: T): seq<T> {
    if parts == [] then [] else if |parts| == 1 then parts[0] else parts[0] + [c] + Join(parts[1..], c)
  }

  /** A text without the separator is one part. */
  lemma {:induction false} SplitWhole<T>(s: seq<T>, c: T)
    requires c !in s
    ensures Split(s, c) == [s]
  {
    if s != [] {
      SplitWhole(s[1..], c);
      assert s == [s[0]] + s[1..];
    }
  }

  /** Splitting two texts joined by the separator gives the parts of both. */
  lemma {:induction false} SplitConcat<T>(a: seq<T>, b: seq<T>, c: T)
    ensures Split(a + [c] + b, c) == Split(a, c) + Split(b, c)
  {
    hide Prefixed;
    if a == [] {
      assert a + [c] + b == [c] + b && ([c] + b)[1..] == b;
      SeparatorFirst(Split(b, c), c);
    } else {
      assert (a + [c] + b)[0] == a[0] && (a + [c] + b)[1..] == a[1..] + [c] + b;
      SplitConcat(a[1..], b, c);
      PrefixedConcat(a[0], Split(a[1..], c), Split(b, c), c);
    }
  }

  lemma SeparatorFirst<T>(rest: seq<seq<T>>, c: T)
    requires rest != []
    ensures Prefixed(c, rest, c) == [[]] + rest
  {
  }

  lemma PrefixedConcat<T>(x: T, r: seq<seq<T>>, t: seq<seq<T>>, c: T)
    requires r != []
    ensures Prefixed(x, r + t, c) == Prefixed(x, r, c) + t
  {
    assert (r + t)[0] == r[0] && (r + t)[1..] == r[1..] + t;
  }

  /** Splitting at the first separator. */
  lemma SplitHead<T>(a: seq<T>, b: seq<T>, c: T)
    requires c !in a
    ensures Split(a + [c] + b, c) == [a] + Split(b, c)
  {
    SplitConcat(a, b, c);
    SplitWhole(a, c);
  }

  /** Joining the parts gives the text back. */
  lemma {:induction false} JoinSplit<T>(s: seq<T>, c: T)
    ensures Join(Split(s, c), c) == s
  {
    if s != [] {
      var rest := Split(s[1..], c);
      JoinSplit(s[1..], c);
      assert s == [s[0]] + s[1..];
      if s[0] == c {
        assert ([[]] + rest)[1..] == rest;
        assert [] + [c] + Join(rest, c) == s;
      } else {
        var parts := [[s[0]] + rest[0]] + rest[1..];
        assert parts[1..] == rest[1..];
        JoinHead(s[0], rest, c);
      }
    }
  }

  lemma JoinHead<T>(x: T, parts: seq<seq<T>>, c: T)
    requires parts != []
    ensures Join([[x] + parts[0]] + parts[1..], c) == [x] + Join(parts, c)
  {
    var longer := [[x] + parts[0]] + parts[1..];
    assert longer[1..] == parts[1..];
    if |parts| > 1 {
      assert [x] + parts[0] + [c] + Join(parts[1..], c) == [x] + (parts[0] + [c] + Join(parts[1..], c));
    }
  }

  /** A text ends as its last part does, unless that part is empty. */
  lemma {:induction false} LastPart<T>(s: seq<T>, c: T)
    ensures var last := Split(s, c)[|Split(s, c)| - 1];
            if last == [] then s == [] || s[|s| - 1] == c
            else s != [] && last[|last| - 1] == s[|s| - 1] && s[|s| - 1] != c
  {
    if s != [] {
      LastPart(s[1..], c);
      var rest := Split(s[1..], c);
      if s[0] != c && |rest| == 1 && rest[0] == [] { assert s[1..] == [] || s[1..][|s| - 2] == c; }
      if s[0] != c && |rest| == 1 { OnePartIsWhole(s[1..], c); }
    }
  }

  lemma OnePartIsWhole<T>(s: seq<T>, c: T)
    requires |Split(s, c)| == 1
    ensures Split(s, c)[0] == s
  {
    JoinSplit(s, c);
  }

  /** A character other than the separator occurs in a text exactly when it occurs in a part. */
  lemma {:induction false} PartsHoldTheRest<T>(s: seq<T>, c: T, x: T)
    requires x != c
    ensures x in s <==> exists i :: 0 <= i < |Split(s, c)| && x in Split(s, c)[i]
  {
    if s != [] {
      PartsHoldTheRest(s[1..], c, x);
      var rest, parts := Split(s[1..], c), Split(s, c);
      assert s == [s[0]] + s[1..];
      if s[0] == c {
        assert forall i :: 0 <= i < |rest| ==> parts[i + 1] == rest[i];
        assert forall i :: 1 <= i < |parts| ==> parts[i] == rest[i - 1];
      } else {
        assert parts[0] == [s[0]] + rest[0];
        assert forall i :: 1 <= i < |parts| ==> parts[i] == rest[i];
      }
    }
  }

  // ----- decimal numerals -----

  predicate IsDigit(c: char) {
    '0' <= c <= '9'
  }

  function Digit(d: nat): char
    requires d < 10
  {
    ['0', '1', '2', '3', '4', '5', '6', '7', '8', '9'][d]
  }

  function DigitValue(c: char): nat {
    if IsDigit(c) then (c - '0') as nat else 0
  }

  function Decimal(n: nat): string {
    if n < 10 then [Digit(n)] else Decimal(n / 10) + [Digit(n % 10)]
  }

  function NumberOf(s: string): nat {
    if s == [] then 0 else 10 * NumberOf(s[..|s| - 1]) + DigitValue(s[|s| - 1])
  }

  lemma DigitIsRead(d: nat)
    requires d < 10
    ensures IsDigit(Digit(d)) && DigitValue(Digit(d)) == d
  {
  }

  /** A numeral consists of digits and is read back as the number it was printed from. */
  lemma {:induction false} DecimalIsRead(n: nat)
    ensures Decimal(n) != [] && (forall i :: 0 <= i < |Decimal(n)| ==> IsDigit(Decimal(n)[i]))
    ensures NumberOf(Decimal(n)) == n
  {
    DigitIsRead(n % 10);
    if n < 10 {
      assert Decimal(n)[..0] == [];
    } else {
      DecimalIsRead(n / 10);
      assert Decimal(n)[..|Decimal(n)| - 1] == Decimal(n / 10);
    }
  }

  function Pow10(k: nat): nat {
    if k == 0 then 1 else 10 * Pow10(k - 1)
  }

  lemma {:induction false} DecimalLength(n: nat, k: nat)
    requires k > 0 && n < Pow10(k)
    ensures |Decimal(n)| <= k
    decreases k
  {
    if n >= 10 { DecimalLength(n / 10, k - 1); }
  }
}

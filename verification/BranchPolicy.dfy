/** The branch name policy, and the single segment-wise rule that it comes down to. */
module BranchPolicy {
  import opened Wrappers
  import opened Texts

  datatype BranchError = EmptyName | LeadingDash | ReflogSyntax | UnsafeSyntax

  predicate IsControl(c: char) {
    c as int <= 31 || c as int == 127
  }

  predicate Includes(s: string, x: char, y: char) {
    exists i :: 0 <= i < |s| - 1 && s[i] == x && s[i + 1] == y
  }

  predicate EndsWith(s: string, suffix: string) {
    |suffix| <= |s| && s[|s| - |suffix|..] == suffix
  }

  predicate IsForbiddenSegment(segment: string) {
    |segment| == 0 || "." <= segment || EndsWith(segment, ".lock")
  }

  predicate HasControl(name: string) {
    exists i :: 0 <= i < |name| && IsControl(name[i])
  }

  predicate HasSpace(name: string) {
    exists i :: 0 <= i < |name| && IsSpace(name[i])
  }

  predicate HasForbiddenPattern(name: string) {
    || HasControl(name)
    || HasSpace(name)
    || Includes(name, '.', '.')
    || Includes(name, '/', '/')
    || Includes(name, '@', '{')
    || '\\' in name || '~' in name || '^' in name || ':' in name || '?' in name || '*' in name || '[' in name
    || EndsWith(name, "/")
    || EndsWith(name, ".")
    || exists i :: 0 <= i < |Split(name, '/')| && IsForbiddenSegment(Split(name, '/')[i])
  }

  function ValidateBranch(name: string): Result<string, BranchError> {
    if Trim(name) != name || |Trim(name)| == 0 then Err(EmptyName)
    else if "-" <= name then Err(LeadingDash)
    else if name == "@" || "@{" <= name then Err(ReflogSyntax)
    else if HasForbiddenPattern(name) then Err(UnsafeSyntax)
    else Ok(name)
  }

  // ----- the rule on segments -----

  /** Codes below the space, the delete character, white space and the characters that git reserves. */
  predicate IsBadChar(c: char) {
    c < ' ' || c == '\U{7F}' || IsSpace(c) || c in {'\\', '~', '^', ':', '?', '*', '['}
  }

  /** A segment holds no bad character, no double dot and no reflog mark, and has an acceptable start and end. */
  predicate GoodSegment(segment: string) {
    && segment != []
    && (forall i :: 0 <= i < |segment| ==> !IsBadChar(segment[i]))
    && !Includes(segment, '.', '.')
    && !Includes(segment, '@', '{')
    && segment[0] != '.'
    && !EndsWith(segment, ".lock")
  }

  /** The whole policy: good segments, no dash in front, no dot at the end, and not the lone at sign. */
  predicate GoodSegments(segments: seq<string>) {
    && segments != []
    && (forall i :: 0 <= i < |segments| ==> GoodSegment(segments[i]))
    && segments[0][0] != '-'
    && !EndsWith(segments[|segments| - 1], ".")
    && segments != ["@"]
  }

  // ----- what a name holds, its segments hold -----

  ghost predicate SomePartIncludes(parts: seq<string>, x: char, y: char) {
    exists i :: 0 <= i < |parts| && Includes(parts[i], x, y)
  }

  lemma IncludesCons(h: char, t: string, x: char, y: char)
    ensures Includes([h] + t, x, y) <==> (t != [] && h == x && t[0] == y) || Includes(t, x, y)
  {
    var s := [h] + t;
    assert forall i :: 0 <= i < |t| ==> t[i] == s[i + 1];
    if Includes(t, x, y) {
      var i :| 0 <= i < |t| - 1 && t[i] == x && t[i + 1] == y;
      assert s[i + 1] == x && s[i + 1 + 1] == y;
    }
    if Includes(s, x, y) {
      var i :| 0 <= i < |s| - 1 && s[i] == x && s[i + 1] == y;
      assert i > 0 ==> t[i - 1] == x && t[i - 1 + 1] == y;
    }
    if t != [] && h == x && t[0] == y { assert s[0] == x && s[0 + 1] == y; }
  }

  /** The first part starts as the text does. */
  lemma PartHead(s: string, c: char)
    ensures s != [] && s[0] != c ==> Split(s, c)[0] != [] && Split(s, c)[0][0] == s[0]
    ensures s == [] || s[0] == c ==> Split(s, c)[0] == []
  {
  }

  lemma SomePartCons(first: string, rest: seq<string>, x: char, y: char)
    ensures SomePartIncludes([first] + rest, x, y) <==> Includes(first, x, y) || SomePartIncludes(rest, x, y)
  {
    var parts := [first] + rest;
    if SomePartIncludes(rest, x, y) {
      var i :| 0 <= i < |rest| && Includes(rest[i], x, y);
      assert parts[i + 1] == rest[i];
    }
    if SomePartIncludes(parts, x, y) {
      var i :| 0 <= i < |parts| && Includes(parts[i], x, y);
      assert i > 0 ==> parts[i] == rest[i - 1];
    }
    if Includes(first, x, y) { assert parts[0] == first; }
  }

  /** A pair of characters that does not involve the separator lies within one part. */
  lemma {:induction false} PairLiesInOnePart(s: string, c: char, x: char, y: char)
    requires x != c && y != c
    ensures Includes(s, x, y) <==> SomePartIncludes(Split(s, c), x, y)
  {
    hide Includes, SomePartIncludes;
    if s == [] {
      NoPairInNothing(x, y);
      SomePartCons([], [], x, y);
      assert [[]] + [] == Split(s, c);
    } else {
      var h, rest := s[0], Split(s[1..], c);
      assert s == [h] + s[1..];
      PairLiesInOnePart(s[1..], c, x, y);
      IncludesCons(h, s[1..], x, y);
      assert rest == [rest[0]] + rest[1..];
      SomePartCons(rest[0], rest[1..], x, y);
      PartHead(s[1..], c);
      if h == c {
        NoPairInNothing(x, y);
        SomePartCons([], rest, x, y);
      } else {
        IncludesCons(h, rest[0], x, y);
        SomePartCons([h] + rest[0], rest[1..], x, y);
      }
    }
  }

  lemma NoPairInNothing(x: char, y: char)
    ensures !Includes([], x, y) && !SomePartIncludes([], x, y)
  {
  }

  /** Two separators in a row, or one at the end, leave an empty segment. */
  lemma {:induction false} DoubleSeparatorLeavesEmpty(s: string, c: char)
    requires Includes(s, c, c)
    ensures [] in Split(s, c)
  {
    var rest := Split(s[1..], c);
    assert s == [s[0]] + s[1..];
    IncludesCons(s[0], s[1..], c, c);
    if Includes(s[1..], c, c) {
      DoubleSeparatorLeavesEmpty(s[1..], c);
      if s[0] == c {
        assert [[]] + rest == Split(s, c);
      } else {
        EmptyInTail(s[1..], c);
        assert Split(s, c) == [[s[0]] + rest[0]] + rest[1..];
      }
    } else {
      PartHead(s[1..], c);
      assert Split(s, c)[0] == [];
    }
  }

  lemma EmptyInTail(s: string, c: char)
    requires Includes(s, c, c) && [] in Split(s, c)
    ensures [] in Split(s, c)[1..]
  {
    assert s == [s[0]] + s[1..];
    IncludesCons(s[0], s[1..], c, c);
    PartHead(s, c);
    if s[0] == c {
      assert Split(s, c) == [[]] + Split(s[1..], c);
      if Includes(s[1..], c, c) {
        DoubleSeparatorLeavesEmpty(s[1..], c);
      } else {
        PartHead(s[1..], c);
        assert Split(s[1..], c)[0] == [];
      }
    } else {
      var i :| 0 <= i < |Split(s, c)| && Split(s, c)[i] == [];
      assert Split(s, c)[1..][i - 1] == [];
    }
  }

  // ----- the policy is the rule -----

  predicate HasBadChar(s: string) {
    exists i :: 0 <= i < |s| && IsBadChar(s[i])
  }

  lemma BadCharMember(s: string)
    ensures HasBadChar(s) <==> exists x :: x in s && IsBadChar(x)
  {
    if x :| x in s && IsBadChar(x) {
      var i :| 0 <= i < |s| && s[i] == x;
    }
    if HasBadChar(s) {
      var i :| 0 <= i < |s| && IsBadChar(s[i]);
      assert s[i] in s;
    }
  }

  lemma BadCharLiesInAPart(s: string)
    ensures HasBadChar(s) <==> exists i :: 0 <= i < |Split(s, '/')| && HasBadChar(Split(s, '/')[i])
  {
    hide HasBadChar, Split, IsBadChar;
    var parts := Split(s, '/');
    BadCharMember(s);
    SlashIsGood();
    if HasBadChar(s) {
      var x :| x in s && IsBadChar(x);
      PartsHoldTheRest(s, '/', x);
      var i :| 0 <= i < |parts| && x in parts[i];
      BadCharMember(parts[i]);
    }
    if i :| 0 <= i < |parts| && HasBadChar(parts[i]) {
      BadCharMember(parts[i]);
      var x :| x in parts[i] && IsBadChar(x);
      PartsHoldTheRest(s, '/', x);
    }
  }

  lemma SlashIsGood()
    ensures !IsBadChar('/')
  {
  }

  lemma BadCharsAreListed(name: string)
    ensures HasBadChar(name)
            <==> || HasControl(name) || HasSpace(name) || '\\' in name || '~' in name || '^' in name || ':' in name
                 || '?' in name || '*' in name || '[' in name
  {
    BadCharMember(name);
    if HasControl(name) { var i :| 0 <= i < |name| && IsControl(name[i]); assert IsBadChar(name[i]); }
    if HasSpace(name) { var i :| 0 <= i < |name| && IsSpace(name[i]); assert IsBadChar(name[i]); }
  }

  /** Everything the forbidden patterns say about a name, said about its segments. */
  lemma PatternsBySegment(name: string)
    ensures var parts := Split(name, '/');
            !HasForbiddenPattern(name)
            <==> (forall i :: 0 <= i < |parts| ==> GoodSegment(parts[i])) && !EndsWith(name, ".")
  {
    hide HasBadChar, Split, Includes, SomePartIncludes, EndsWith, HasControl, HasSpace, IsBadChar;
    var parts := Split(name, '/');
    BadCharsAreListed(name);
    BadCharLiesInAPart(name);
    PairLiesInOnePart(name, '/', '.', '.');
    PairLiesInOnePart(name, '/', '@', '{');
    RedundantChecks(name);
    forall i | 0 <= i < |parts|
      ensures GoodSegment(parts[i])
              <==> && !IsForbiddenSegment(parts[i]) && !HasBadChar(parts[i])
                   && !Includes(parts[i], '.', '.') && !Includes(parts[i], '@', '{')
    {
      GoodSegmentMeans(parts[i]);
    }
    SomePartMeans(parts, '.', '.');
    SomePartMeans(parts, '@', '{');
  }

  lemma SomePartMeans(parts: seq<string>, x: char, y: char)
    ensures SomePartIncludes(parts, x, y) <==> exists i :: 0 <= i < |parts| && Includes(parts[i], x, y)
  {
  }

  lemma GoodSegmentMeans(segment: string)
    ensures GoodSegment(segment)
            <==> && !IsForbiddenSegment(segment) && !HasBadChar(segment)
                 && !Includes(segment, '.', '.') && !Includes(segment, '@', '{')
  {
    hide Includes, EndsWith, IsBadChar;
  }

  /** The checks for a double slash and a trailing slash reject nothing that the segment check would not. */
  lemma RedundantChecks(name: string)
    ensures var parts := Split(name, '/');
            Includes(name, '/', '/') || EndsWith(name, "/") ==>
              exists i :: 0 <= i < |parts| && IsForbiddenSegment(parts[i])
  {
    var parts := Split(name, '/');
    if Includes(name, '/', '/') {
      DoubleSeparatorLeavesEmpty(name, '/');
      var i :| 0 <= i < |parts| && parts[i] == [];
      assert IsForbiddenSegment(parts[i]);
    }
    if EndsWith(name, "/") {
      LastPart(name, '/');
      assert IsForbiddenSegment(parts[|parts| - 1]);
    }
  }

  /** The trim check rejects nothing that the whitespace check would not. */
  lemma TrimIsRedundant(name: string)
    ensures Trim(name) != name ==> HasSpace(name)
  {
    TrimIsIdentity(name);
  }

  lemma ReflogPrefixIsIncluded(name: string)
    ensures "@{" <= name ==> Includes(name, '@', '{')
  {
    if "@{" <= name { assert name[0] == '@' && name[0 + 1] == '{'; }
  }

  lemma EdgesBySegment(name: string)
    requires forall i :: 0 <= i < |Split(name, '/')| ==> GoodSegment(Split(name, '/')[i])
    ensures var parts := Split(name, '/');
            && name != [] && parts[0] != []
            && ("-" <= name <==> parts[0][0] == '-')
            && (EndsWith(name, ".") <==> EndsWith(parts[|parts| - 1], "."))
            && (name == "@" <==> parts == ["@"])
            && !("@{" <= name)
  {
    var parts := Split(name, '/');
    assert GoodSegment(parts[0]) && GoodSegment(parts[|parts| - 1]);
    PartHead(name, '/');
    LastPart(name, '/');
    PairLiesInOnePart(name, '/', '@', '{');
    ReflogPrefixIsIncluded(name);
    if name == "@" { SplitWhole(name, '/'); }
    if parts == ["@"] { OnePartIsWhole(name, '/'); }
  }

  /** The policy accepts a name exactly when its segments obey the one rule, and returns it unchanged. */
  lemma PolicyIsSegmentRule(name: string)
    ensures ValidateBranch(name).Ok? <==> GoodSegments(Split(name, '/'))
    ensures ValidateBranch(name).Ok? ==> ValidateBranch(name).value == name
  {
    hide HasForbiddenPattern, GoodSegment, EndsWith, Split;
    var parts := Split(name, '/');
    PatternsBySegment(name);
    if forall i :: 0 <= i < |parts| ==> GoodSegment(parts[i]) {
      EdgesBySegment(name);
      NoSpaceInGood(name);
      TrimIsRedundant(name);
    }
  }

  lemma NoSpaceInGood(name: string)
    requires forall i :: 0 <= i < |Split(name, '/')| ==> GoodSegment(Split(name, '/')[i])
    ensures !HasSpace(name)
  {
    hide Includes, EndsWith, Split;
    BadCharsAreListed(name);
    BadCharLiesInAPart(name);
  }
}

/** Reading what git prints: the NUL-delimited configuration list and the numstat of a diff. */
module GitText {
  import opened Wrappers
  import opened Texts

  const NUL: char := '\0'

  // ----- configuration -----

  /** The position of the first newline, or the length of the text. */
  function LineEnd(s: string): (n: nat)
    ensures n <= |s|
  {
    if s == [] || s[0] == '\n' then 0 else 1 + LineEnd(s[1..])
  }

  /** What one entry of the list does to the map: an entry without a newline is skipped. */
  function SetEntry(values: map<string, string>, entry: string): map<string, string> {
    if LineEnd(entry) == |entry| then values else values[entry[..LineEnd(entry)] := entry[LineEnd(entry) + 1..]]
  }

  function SetEntries(values: map<string, string>, entries: seq<string>): map<string, string>
    decreases |entries|
  {
    if entries == [] then values else SetEntries(SetEntry(values, entries[0]), entries[1..])
  }

  method ParseConfig(stdout: string) returns (values: map<string, string>)
    ensures values == SetEntries(map[], Split(stdout, NUL))
  {
    values := map[];
    var entries := Split(stdout, NUL);
    for i := 0 to |entries|
      invariant SetEntries(values, entries[i..]) == SetEntries(map[], entries)
    {
      assert entries[i..][0] == entries[i] && entries[i..][1..] == entries[i + 1..];
      var entry := entries[i];
      if |entry| == 0 {
        continue;
      }
      var at := LineEnd(entry);
      if at == |entry| {
        continue;
      }
      values := values[entry[..at] := entry[at + 1..]];
    }
    assert entries[|entries|..] == [];
  }

  /** A configuration variable; one without a value is listed by its key alone. */
  datatype Setting = Setting(key: string, value: Option<string>)

  /** Keys are single lines; values may have several, and neither holds the delimiter. */
  predicate Listable(s: Setting) {
    '\n' !in s.key && NUL !in s.key && (s.value.Some? ==> NUL !in s.value.value)
  }

  function RenderSetting(s: Setting): string {
    match s.value
    case None => s.key
    case Some(value) => s.key + "\n" + value
  }

  function Render(settings: seq<Setting>): string {
    if settings == [] then [] else RenderSetting(settings[0]) + [NUL] + Render(settings[1..])
  }

  /** The last value given to each key; settings without a value give none. */
  function LastWins(values: map<string, string>, settings: seq<Setting>): map<string, string>
    decreases |settings|
  {
    if settings == [] then values
    else
      var s := settings[0];
      LastWins(if s.value.Some? then values[s.key := s.value.value] else values, settings[1..])
  }

  lemma {:induction false} LineEndOf(a: string, b: string)
    requires '\n' !in a
    ensures LineEnd(a + "\n" + b) == |a| && LineEnd(a) == |a|
  {
    if a != [] {
      assert (a + "\n" + b)[1..] == a[1..] + "\n" + b;
      LineEndOf(a[1..], b);
    }
  }

  lemma SettingIsRead(values: map<string, string>, s: Setting)
    requires Listable(s)
    ensures SetEntry(values, RenderSetting(s)) == if s.value.Some? then values[s.key := s.value.value] else values
    ensures NUL !in RenderSetting(s)
  {
    LineEndOf(s.key, if s.value.Some? then s.value.value else "");
    if s.value.Some? {
      var entry := s.key + "\n" + s.value.value;
      assert entry[..|s.key|] == s.key && entry[|s.key| + 1..] == s.value.value;
    }
  }

  /** Reading back any list of settings gives the last value of each key, newlines in values included. */
  lemma {:induction false} ConfigRoundTrip(values: map<string, string>, settings: seq<Setting>)
    requires forall s :: s in settings ==> Listable(s)
    ensures SetEntries(values, Split(Render(settings), NUL)) == LastWins(values, settings)
    decreases |settings|
  {
    if settings == [] {
      assert Split(Render([]), NUL) == [[]];
      assert SetEntries(values, [[]]) == SetEntries(SetEntry(values, []), [[]][1..]);
    } else {
      var s, entry := settings[0], RenderSetting(settings[0]);
      SettingIsRead(values, s);
      SplitHead(entry, Render(settings[1..]), NUL);
      var rest := Split(Render(settings[1..]), NUL);
      assert ([entry] + rest)[1..] == rest;
      ConfigRoundTrip(SetEntry(values, entry), settings[1..]);
    }
  }

  /** What last-wins means: a key has the value of its last setting with a value, if there is one. */
  lemma {:induction false} LastWinsMeaning(values: map<string, string>, settings: seq<Setting>, key: string)
    ensures Get(LastWins(values, settings), key) == LatestOf(settings, key, Get(values, key))
    decreases |settings|
  {
    if settings != [] {
      var s := settings[0];
      var next := if s.value.Some? then values[s.key := s.value.value] else values;
      LastWinsMeaning(next, settings[1..], key);
      LatestOfCons(settings, key, Get(values, key));
    }
  }

  /** The value of the last setting of `key` that has one, else `fallback`. */
  function LatestOf(settings: seq<Setting>, key: string, fallback: Option<string>): Option<string> {
    if settings == [] then fallback
    else
      var last := settings[|settings| - 1];
      if last.key == key && last.value.Some? then last.value else LatestOf(settings[..|settings| - 1], key, fallback)
  }

  lemma {:induction false} LatestOfCons(settings: seq<Setting>, key: string, fallback: Option<string>)
    requires settings != []
    ensures var s := settings[0];
            LatestOf(settings, key, fallback)
            == LatestOf(settings[1..], key, if s.key == key && s.value.Some? then s.value else fallback)
    decreases |settings|
  {
    if |settings| > 1 {
      LatestOfCons(settings[..|settings| - 1], key, fallback);
      assert settings[..|settings| - 1][1..] == settings[1..][..|settings| - 2];
    }
  }

  // ----- numstat -----

  /** Lines added and deleted. */
  datatype Count = Count(additions: int, deletions: int)

  datatype FileCount = FileCount(path: string, count: Count)

  const NONE := Count(0, 0)

  function Add(a: Count, b: Count): Count {
    Count(a.additions + b.additions, a.deletions + b.deletions)
  }

  function DigitsOf(s: string): string {
    if s == [] || !IsDigit(s[0]) then [] else [s[0]] + DigitsOf(s[1..])
  }

  /** The integer a text begins with, after spaces and an optional sign; none if no digit follows. */
  function ParseInt(s: string): Option<int> {
    var t := TrimStart(s);
    var negative := t != [] && t[0] == '-';
    var digits := DigitsOf(if t != [] && (t[0] == '-' || t[0] == '+') then t[1..] else t);
    var value: int := NumberOf(digits);
    if digits == [] then None else Some(if negative then -value else value)
  }

  function ParseLine(line: string): Option<FileCount> {
    var parts := Split(Trim(line), '\t');
    if |parts| < 2 then None
    else
      var path, additions, deletions := Join(parts[2..], '\t'), ParseInt(parts[0]), ParseInt(parts[1]);
      if path == [] || additions.None? || deletions.None? then None
      else Some(FileCount(path, Count(additions.value, deletions.value)))
  }

  function CountAt(counts: map<string, Count>, path: string): Count {
    if path in counts then counts[path] else NONE
  }

  function MergeLine(counts: map<string, Count>, line: string): map<string, Count> {
    match ParseLine(line)
    case None => counts
    case Some(f) => counts[f.path := Add(CountAt(counts, f.path), f.count)]
  }

  function MergeLines(counts: map<string, Count>, lines: seq<string>): map<string, Count>
    decreases |lines|
  {
    if lines == [] then counts else MergeLines(MergeLine(counts, lines[0]), lines[1..])
  }

  /** The line counts that several numstat runs add up in. */
  class LineCounts {
    var counts: map<string, Count>

    constructor ()
      ensures counts == map[]
    {
      counts := map[];
    }

    method Merge(stdout: string)
      modifies this
      ensures counts == MergeLines(old(counts), Split(stdout, '\n'))
    {
      var lines := Split(stdout, '\n');
      for i := 0 to |lines|
        invariant MergeLines(counts, lines[i..]) == MergeLines(old(counts), lines)
      {
        assert lines[i..][0] == lines[i] && lines[i..][1..] == lines[i + 1..];
        var entry := ParseLine(lines[i]);
        if entry.None? {
          continue;
        }
        var path := entry.value.path;
        counts := counts[path := Add(if path in counts then counts[path] else NONE, entry.value.count)];
      }
      assert lines[|lines|..] == [];
    }
  }

  /** What a list of lines reports for a path. */
  function Reported(lines: seq<string>, path: string): Count {
    if lines == [] then NONE
    else
      var f, rest := ParseLine(lines[0]), Reported(lines[1..], path);
      if f.Some? && f.value.path == path then Add(f.value.count, rest) else rest
  }

  predicate Mentions(lines: seq<string>, path: string) {
    exists i :: 0 <= i < |lines| && ParseLine(lines[i]).Some? && ParseLine(lines[i]).value.path == path
  }

  lemma {:induction false} MergeAppends(counts: map<string, Count>, a: seq<string>, b: seq<string>)
    ensures MergeLines(counts, a + b) == MergeLines(MergeLines(counts, a), b)
    decreases |a|
  {
    if a == [] {
      assert a + b == b;
    } else {
      assert (a + b)[0] == a[0] && (a + b)[1..] == a[1..] + b;
      MergeAppends(MergeLine(counts, a[0]), a[1..], b);
    }
  }

  /** Merging two outputs one after the other is merging them joined by a newline. */
  lemma MergeDistributes(counts: map<string, Count>, a: string, b: string)
    ensures MergeLines(counts, Split(a + "\n" + b, '\n'))
            == MergeLines(MergeLines(counts, Split(a, '\n')), Split(b, '\n'))
  {
    SplitConcat(a, b, '\n');
    MergeAppends(counts, Split(a, '\n'), Split(b, '\n'));
  }

  /** Each path ends up with what it had plus what the lines report for it, and no other path appears. */
  lemma {:induction false} MergeIsSum(counts: map<string, Count>, lines: seq<string>, path: string)
    ensures CountAt(MergeLines(counts, lines), path) == Add(CountAt(counts, path), Reported(lines, path))
    ensures path in MergeLines(counts, lines) <==> path in counts || Mentions(lines, path)
    decreases |lines|
  {
    hide ParseLine, MergeLine, Mentions, CountAt;
    if lines == [] {
      MentionsNothing(path);
    } else {
      MergeLineIsSum(counts, lines[0], path);
      MergeIsSum(MergeLine(counts, lines[0]), lines[1..], path);
      MentionsCons(lines, path);
    }
  }

  lemma MentionsNothing(path: string)
    ensures !Mentions([], path)
  {
  }

  lemma MergeLineIsSum(counts: map<string, Count>, line: string, path: string)
    ensures var f := ParseLine(line);
            var mine := f.Some? && f.value.path == path;
            && CountAt(MergeLine(counts, line), path)
               == Add(CountAt(counts, path), if mine then f.value.count else NONE)
            && (path in MergeLine(counts, line) <==> path in counts || mine)
  {
    hide ParseLine;
  }

  lemma MentionsCons(lines: seq<string>, path: string)
    requires lines != []
    ensures Mentions(lines, path)
            <==> (ParseLine(lines[0]).Some? && ParseLine(lines[0]).value.path == path) || Mentions(lines[1..], path)
  {
    hide ParseLine;
    if Mentions(lines[1..], path) {
      var i :| 0 <= i < |lines| - 1 && ParseLine(lines[1..][i]).Some? && ParseLine(lines[1..][i]).value.path == path;
      assert lines[i + 1] == lines[1..][i];
    }
    if Mentions(lines, path) {
      var i :| 0 <= i < |lines| && ParseLine(lines[i]).Some? && ParseLine(lines[i]).value.path == path;
      assert i > 0 ==> lines[1..][i - 1] == lines[i];
    }
  }

  /** The sum over all parsed lines. */
  function Total(lines: seq<string>): Count {
    if lines == [] then NONE
    else
      var f := ParseLine(lines[0]);
      if f.Some? then Add(f.value.count, Total(lines[1..])) else Total(lines[1..])
  }

  function TotalAt(counts: map<string, Count>, paths: seq<string>): Count {
    if paths == [] then NONE else Add(CountAt(counts, paths[0]), TotalAt(counts, paths[1..]))
  }

  predicate Distinct(paths: seq<string>) {
    forall i, j :: 0 <= i < j < |paths| ==> paths[i] != paths[j]
  }

  lemma {:induction false} TotalAtUpdate(counts: map<string, Count>, paths: seq<string>, path: string, c: Count)
    requires Distinct(paths)
    ensures TotalAt(counts[path := Add(CountAt(counts, path), c)], paths)
            == if path in paths then Add(TotalAt(counts, paths), c) else TotalAt(counts, paths)
  {
    if paths != [] {
      TotalAtUpdate(counts, paths[1..], path, c);
      assert paths == [paths[0]] + paths[1..];
      assert paths[0] !in paths[1..] by {
        assert forall j :: 0 <= j < |paths| - 1 ==> paths[1..][j] == paths[j + 1] && paths[0] != paths[j + 1];
      }
    }
  }

  /** Nothing is lost or counted twice: the totals over all paths grow by the sum of the parsed lines. */
  lemma {:induction false} TotalsAreConserved(counts: map<string, Count>, lines: seq<string>, paths: seq<string>)
    requires Distinct(paths) && forall p :: Mentions(lines, p) ==> p in paths
    ensures TotalAt(MergeLines(counts, lines), paths) == Add(TotalAt(counts, paths), Total(lines))
    decreases |lines|
  {
    hide ParseLine, Mentions, Distinct, MergeLine, TotalAt;
    if lines != [] {
      forall p | Mentions(lines[1..], p) ensures p in paths { MentionsCons(lines, p); }
      if ParseLine(lines[0]).Some? { MentionsCons(lines, ParseLine(lines[0]).value.path); }
      LineIsConserved(counts, lines[0], paths);
      TotalsAreConserved(MergeLine(counts, lines[0]), lines[1..], paths);
    }
  }

  lemma LineIsConserved(counts: map<string, Count>, line: string, paths: seq<string>)
    requires Distinct(paths) && (ParseLine(line).Some? ==> ParseLine(line).value.path in paths)
    ensures var f := ParseLine(line);
            TotalAt(MergeLine(counts, line), paths)
            == Add(TotalAt(counts, paths), if f.Some? then f.value.count else NONE)
  {
    hide ParseLine, Distinct, TotalAt;
    var f := ParseLine(line);
    if f.Some? { TotalAtUpdate(counts, paths, f.value.path, f.value.count); }
  }

  // ----- one numstat line -----

  function RenderLine(additions: nat, deletions: nat, path: string): string {
    Decimal(additions) + "\t" + Decimal(deletions) + "\t" + path
  }

  lemma {:induction false} DigitsOfAll(s: string)
    requires forall i :: 0 <= i < |s| ==> IsDigit(s[i])
    ensures DigitsOf(s) == s
  {
    if s != [] {
      DigitsOfAll(s[1..]);
      assert s == [s[0]] + s[1..];
    }
  }

  lemma NumeralIsParsed(n: nat)
    ensures ParseInt(Decimal(n)) == Some(n) && '\t' !in Decimal(n)
  {
    DecimalIsRead(n);
    assert IsDigit(Decimal(n)[0]);
    DigitsOfAll(Decimal(n));
  }

  /** After any spaces and one optional sign comes a digit. */
  ghost predicate BeginsNumber(s: string) {
    exists k :: 0 <= k < |s| && AllSpaces(s[..k]) && NumberAt(s, k)
  }

  predicate NumberAt(s: string, k: nat)
    requires k < |s|
  {
    IsDigit(s[k]) || ((s[k] == '+' || s[k] == '-') && k + 1 < |s| && IsDigit(s[k + 1]))
  }

  /** Only what begins with a number is read as one. */
  lemma ParsesIffNumber(s: string)
    ensures ParseInt(s).Some? <==> BeginsNumber(s)
  {
    var before := TrimStartMeaning(s);
    var t := TrimStart(s);
    if ParseInt(s).Some? {
      assert s[..|before|] == before && NumberAt(s, |before|);
    }
    if BeginsNumber(s) {
      var k :| 0 <= k < |s| && AllSpaces(s[..k]) && NumberAt(s, k);
      SpacesAreTrimmed(s, k);
      assert t == s[k..];
    }
  }

  lemma {:induction false} SpacesAreTrimmed(s: string, k: nat)
    requires k < |s| && AllSpaces(s[..k]) && !IsSpace(s[k])
    ensures TrimStart(s) == s[k..]
    decreases k
  {
    if k > 0 {
      assert IsSpace(s[..k][0]);
      var spaces := s[1..][..k - 1];
      assert forall i :: 0 <= i < |spaces| ==> spaces[i] == s[..k][i + 1];
      SpacesAreTrimmed(s[1..], k - 1);
    }
  }

  /** The value of a numeral is that of its digits, with the sign in front of them; what follows is ignored. */
  lemma ParsedValue(spaces: string, sign: string, digits: string, rest: string)
    requires AllSpaces(spaces) && sign in {"", "+", "-"}
    requires digits != [] && (forall i :: 0 <= i < |digits| ==> IsDigit(digits[i]))
    requires rest == [] || !IsDigit(rest[0])
    ensures var value: int := NumberOf(digits);
            ParseInt(spaces + (sign + (digits + rest))) == Some(if sign == "-" then -value else value)
  {
    hide TrimStart, DigitsOf, NumberOf;
    var t := sign + (digits + rest);
    SignThenDigits(sign, digits, rest);
    DropSpaces(spaces, t);
    DigitsStop(digits, rest);
  }

  lemma SignThenDigits(sign: string, digits: string, rest: string)
    requires sign in {"", "+", "-"} && digits != [] && IsDigit(digits[0])
    ensures var t := sign + (digits + rest);
            && t != [] && !IsSpace(t[0]) && (sign == "-" <==> t[0] == '-') && (sign == "+" <==> t[0] == '+')
            && (if sign == "" then t == digits + rest else t[1..] == digits + rest)
  {
  }

  lemma DropSpaces(spaces: string, t: string)
    requires AllSpaces(spaces) && t != [] && !IsSpace(t[0])
    ensures TrimStart(spaces + t) == t
  {
    var s := spaces + t;
    assert s[..|spaces|] == spaces && s[|spaces|..] == t && s[|spaces|] == t[0];
    SpacesAreTrimmed(s, |spaces|);
  }

  lemma {:induction false} DigitsStop(digits: string, rest: string)
    requires (forall i :: 0 <= i < |digits| ==> IsDigit(digits[i])) && (rest == [] || !IsDigit(rest[0]))
    ensures DigitsOf(digits + rest) == digits
  {
    if digits == [] {
      assert digits + rest == rest;
    } else {
      assert (digits + rest)[0] == digits[0] && (digits + rest)[1..] == digits[1..] + rest;
      DigitsStop(digits[1..], rest);
      assert digits == [digits[0]] + digits[1..];
    }
  }

  /**
    Which lines count: those whose trimmed text has two parts that begin with a number, and then a path
    that is not empty. The path is all that follows the second tab.
  */
  lemma ParsesIff(line: string)
    ensures var parts := Split(Trim(line), '\t');
            && (ParseLine(line).Some?
                <==> |parts| >= 3 && Join(parts[2..], '\t') != [] && BeginsNumber(parts[0]) && BeginsNumber(parts[1]))
            && (ParseLine(line).Some? ==>
                  && ParseLine(line).value.path == Join(parts[2..], '\t')
                  && Some(ParseLine(line).value.count.additions) == ParseInt(parts[0])
                  && Some(ParseLine(line).value.count.deletions) == ParseInt(parts[1]))
  {
    hide ParseInt, BeginsNumber, Trim, Split;
    var parts := Split(Trim(line), '\t');
    if |parts| >= 2 {
      ParsesIffNumber(parts[0]);
      ParsesIffNumber(parts[1]);
    }
  }

  /** A line with a dash for a count, which git prints for a binary file, leaves the map as it was. */
  lemma BinaryIsSkipped(counts: map<string, Count>, line: string)
    requires var parts := Split(Trim(line), '\t');
             |parts| >= 2 && (parts[0] == "-" || parts[1] == "-")
    ensures MergeLine(counts, line) == counts && ParseLine(line).None?
  {
    hide ParseInt, Trim, Split;
    ParsesIff(line);
    DashIsNoNumber();
  }

  lemma DashIsNoNumber()
    ensures !BeginsNumber("-")
  {
    assert !NumberAt("-", 0);
  }

  lemma PathTrims(front: string, path: string)
    requires front != [] && !IsSpace(front[0])
    ensures path != [] && !IsSpace(path[|path| - 1]) ==> Trim(front + path) == front + path
  {
    TrimIsIdentity(front + path);
  }

  /** A reported path is read as it was printed, tabs inside included, unless it ends in a space. */
  lemma LineIsRead(additions: nat, deletions: nat, path: string)
    requires path != [] && !IsSpace(path[|path| - 1])
    ensures ParseLine(RenderLine(additions, deletions, path)) == Some(FileCount(path, Count(additions, deletions)))
  {
    hide ParseInt, Decimal, RenderLine, Trim, Split, Join;
    NumeralIsParsed(additions);
    NumeralIsParsed(deletions);
    LineSplits(additions, deletions, path);
    JoinSplit(path, '\t');
    assert ([Decimal(additions), Decimal(deletions)] + Split(path, '\t'))[2..] == Split(path, '\t');
  }

  lemma LineSplits(additions: nat, deletions: nat, path: string)
    requires path != [] && !IsSpace(path[|path| - 1])
    ensures Split(Trim(RenderLine(additions, deletions, path)), '\t')
            == [Decimal(additions), Decimal(deletions)] + Split(path, '\t')
  {
    hide ParseInt, Decimal, Trim, Split, IsSpace;
    var a, d := Decimal(additions), Decimal(deletions);
    StartsWithDigit(additions);
    NumeralIsParsed(additions);
    NumeralIsParsed(deletions);
    Tabbed(a, d, path);
    PathTrims(a + "\t" + d + "\t", path);
    SplitHead(a, d + "\t" + path, '\t');
    SplitHead(d, path, '\t');
    assert [a] + ([d] + Split(path, '\t')) == [a, d] + Split(path, '\t');
  }

  lemma Tabbed(a: string, d: string, path: string)
    ensures a + "\t" + d + "\t" + path == a + "\t" + (d + "\t" + path)
    ensures a != [] ==> (a + "\t" + d + "\t")[0] == a[0]
  {
  }

  lemma StartsWithDigit(n: nat)
    ensures Decimal(n) != [] && !IsSpace(Decimal(n)[0])
  {
    DecimalIsRead(n);
    assert IsDigit(Decimal(n)[0]);
  }

  lemma {:induction false} TrimEndIsBare(s: string)
    ensures TrimEnd(s) != [] ==> !IsSpace(TrimEnd(s)[|TrimEnd(s)| - 1])
  {
    if s != [] && IsSpace(s[|s| - 1]) { TrimEndIsBare(s[..|s| - 1]); }
  }

  lemma {:induction false} JoinEnds(parts: seq<string>, c: char, k: nat)
    requires k < |parts| && Join(parts[k..], c) != []
    ensures Join(parts, c) != []
    ensures Join(parts, c)[|Join(parts, c)| - 1] == Join(parts[k..], c)[|Join(parts[k..], c)| - 1]
    decreases k
  {
    if k > 0 {
      assert parts[1..][k - 1..] == parts[k..];
      JoinEnds(parts[1..], c, k - 1);
    } else {
      assert parts[0..] == parts;
    }
  }

  /** No parsed path is empty or ends in a space, so a path that does can never be read as printed. */
  lemma ParsedPathIsBare(line: string)
    requires ParseLine(line).Some?
    ensures var path := ParseLine(line).value.path;
            path != [] && !IsSpace(path[|path| - 1])
  {
    hide ParseInt;
    var t := Trim(line);
    var parts := Split(t, '\t');
    JoinSplit(t, '\t');
    TrimEndIsBare(TrimStart(line));
    if |parts| > 2 { JoinEnds(parts, '\t', 2); }
  }

  /** Exactly the paths that are not empty and do not end in a space survive being printed and parsed. */
  lemma PathSurvivesIff(additions: nat, deletions: nat, path: string)
    ensures ParseLine(RenderLine(additions, deletions, path)) == Some(FileCount(path, Count(additions, deletions)))
            <==> path != [] && !IsSpace(path[|path| - 1])
  {
    hide ParseLine, RenderLine;
    if path != [] && !IsSpace(path[|path| - 1]) {
      LineIsRead(additions, deletions, path);
    } else if ParseLine(RenderLine(additions, deletions, path)).Some? {
      ParsedPathIsBare(RenderLine(additions, deletions, path));
    }
  }
}

/** Pruning of tool results: long outputs are replaced, and pruning what is pruned changes nothing. */
module Pruner {
  import opened Wrappers
  import opened Texts
  import JsonText

  /** UTF-16 code units, by which the platform measures and cuts text. */
  type Unit = JsonText.Unit

  type Text = seq<Unit>

  const LIST_LIMIT := 500
  const READ_KEEP := 1000
  const BASH_KEEP := 500
  const READ_MARK := JsonText.Units("\n\n... [CONTENT TRUNCATED FOR BREVITY] ...\n\n")
  const BASH_MARK := JsonText.Units("\n... [STDOUT TRUNCATED] ...\n")
  const NEWLINE: Unit := 10

  /** The longest string the platform can hold is shorter than this. */
  const MAX_LENGTH := 0x20_0000_0000_0000

  /** A result object of the shell tool; several parts may refer to the same one. */
  class ShellResult {
    var output: Option<Text>  // None: absent, or not a string

    constructor (output: Option<Text>)
      ensures this.output == output
    {
      this.output := output;
    }
  }

  datatype ToolResult = Plain(text: Text) | Object(shell: ShellResult) | OtherResult(json: string)

  datatype Part = Part(toolName: string, callId: string, result: ToolResult)

  datatype Message = Tool(parts: seq<Part>, extra: string) | OtherMessage(content: string)

  function NonEmpty(lines: seq<Text>): nat {
    if lines == [] then 0 else (if lines[0] != [] then 1 else 0) + NonEmpty(lines[1..])
  }

  function Summary(text: Text): Text {
    JsonText.Units("[Summary: ") + JsonText.Units(Decimal(NonEmpty(Split(text, NEWLINE))))
    + JsonText.Units(" files/directories found. Output truncated to save context.]")
  }

  function PruneListing(text: Text): Text {
    if |text| > LIST_LIMIT then Summary(text) else text
  }

  /** Keeps both ends of a text longer than the two of them and marks what was cut. */
  function Cut(text: Text, keep: nat, mark: Text): Text {
    if |text| > 2 * keep then text[..keep] + mark + text[|text| - keep..] else text
  }

  function PrunedOutput(output: Option<Text>): Option<Text> {
    if output.Some? then Some(Cut(output.value, BASH_KEEP, BASH_MARK)) else output
  }

  function PrunedPart(part: Part): Part {
    match part.result
    case Plain(text) =>
      if part.toolName == "list_files" then part.(result := Plain(PruneListing(text)))
      else if part.toolName == "read_file" then part.(result := Plain(Cut(text, READ_KEEP, READ_MARK)))
      else part
    case _ => part
  }

  function PrunedParts(parts: seq<Part>): seq<Part> {
    seq(|parts|, i requires 0 <= i < |parts| => PrunedPart(parts[i]))
  }

  function PrunedMessage(message: Message): Message {
    if message.Tool? then message.(parts := PrunedParts(message.parts)) else message
  }

  function Pruned(messages: seq<Message>): seq<Message> {
    seq(|messages|, i requires 0 <= i < |messages| => PrunedMessage(messages[i]))
  }

  /** The result objects that the shell rule rewrites. */
  function Shell(part: Part): set<ShellResult> {
    if part.toolName == "bash" && part.result.Object? then {part.result.shell} else {}
  }

  ghost function ShellsOf(parts: seq<Part>): set<ShellResult> {
    set i, o | 0 <= i < |parts| && o in Shell(parts[i]) :: o
  }

  ghost function ShellsIn(message: Message): set<ShellResult> {
    if message.Tool? then ShellsOf(message.parts) else {}
  }

  ghost function Shells(messages: seq<Message>): set<ShellResult> {
    set i, o | 0 <= i < |messages| && o in ShellsIn(messages[i]) :: o
  }

  // ----- pruning twice -----

  /** Cutting is idempotent although a cut text is still longer than the limit. */
  lemma CutTwice(text: Text, keep: nat, mark: Text)
    ensures Cut(Cut(text, keep, mark), keep, mark) == Cut(text, keep, mark)
    ensures |text| > 2 * keep && mark != [] ==> |Cut(text, keep, mark)| > 2 * keep
  {
    var once := Cut(text, keep, mark);
    if |text| > 2 * keep {
      assert once[..keep] == text[..keep] && once[|once| - keep..] == text[|text| - keep..];
      assert |mark| == 0 ==> once == text[..keep] + text[|text| - keep..];
    }
  }

  /** What a cut keeps: both ends, with the mark between them, and nothing else. */
  lemma CutKeepsEnds(text: Text, keep: nat, mark: Text)
    ensures |text| <= 2 * keep ==> Cut(text, keep, mark) == text
    ensures |text| > 2 * keep ==>
              var cut := Cut(text, keep, mark);
              && |cut| == 2 * keep + |mark| && cut[keep..keep + |mark|] == mark
              && cut[..keep] == text[..keep] && cut[|cut| - keep..] == text[|text| - keep..]
  {
  }

  /** The positions at which a line that is not empty begins. */
  function LineStarts(text: Text): nat {
    if text == [] then 0
    else
      var n := |text| - 1;
      (if text[n] != NEWLINE && (n == 0 || text[n - 1] == NEWLINE) then 1 else 0) + LineStarts(text[..n])
  }

  lemma {:induction false} NonEmptyAppends(a: seq<Text>, b: seq<Text>)
    ensures NonEmpty(a + b) == NonEmpty(a) + NonEmpty(b)
  {
    if a == [] {
      assert a + b == b;
    } else {
      assert (a + b)[0] == a[0] && (a + b)[1..] == a[1..] + b;
      NonEmptyAppends(a[1..], b);
    }
  }

  /** The last part, one character longer. */
  function Extended(parts: seq<Text>, x: Unit): seq<Text>
    requires parts != []
  {
    parts[..|parts| - 1] + [parts[|parts| - 1] + [x]]
  }

  lemma PrefixedExtends(h: Unit, parts: seq<Text>, x: Unit, c: Unit)
    requires parts != []
    ensures Prefixed(h, Extended(parts, x), c) == Extended(Prefixed(h, parts, c), x)
  {
    var p, q := Prefixed(h, Extended(parts, x), c), Extended(Prefixed(h, parts, c), x);
    assert |p| == |q| && forall i :: 0 <= i < |p| ==> p[i] == q[i];
  }

  /** One more character: a separator opens an empty part, anything else extends the last part. */
  lemma {:induction false} SplitOneMore(s: Text, x: Unit, c: Unit)
    ensures Split(s + [x], c) == if x == c then Split(s, c) + [[]] else Extended(Split(s, c), x)
  {
    hide Prefixed, Extended;
    if s == [] {
      assert [x][1..] == [] && s + [x] == [x];
      SplitOne(x, c);
    } else {
      assert (s + [x])[0] == s[0] && (s + [x])[1..] == s[1..] + [x];
      SplitOneMore(s[1..], x, c);
      PrefixedConcat(s[0], Split(s[1..], c), [[]], c);
      PrefixedExtends(s[0], Split(s[1..], c), x, c);
    }
  }

  lemma SplitOne(x: Unit, c: Unit)
    ensures Split([x], c) == if x == c then [[]] + [[]] else Extended([[]], x)
  {
    assert [x][1..] == [] && Split([], c) == [[]];
    assert [x] + [] == [] + [x];
    assert Extended([[]], x) == [[] + [x]];
  }

  lemma LastPartCounts(parts: seq<Text>, x: Unit)
    requires parts != []
    ensures NonEmpty(Extended(parts, x)) == NonEmpty(parts) + (if parts[|parts| - 1] == [] then 1 else 0)
    ensures NonEmpty(parts + [[]]) == NonEmpty(parts)
  {
    hide NonEmpty;
    var front, last := parts[..|parts| - 1], parts[|parts| - 1];
    assert parts == front + [last];
    NonEmptyAppends(parts, [[]]);
    NonEmptyAppends(front, [last]);
    NonEmptyAppends(front, [last + [x]]);
    CountOne([]);
    CountOne(last);
    CountOne(last + [x]);
  }

  lemma CountOne(line: Text)
    ensures NonEmpty([line]) == if line == [] then 0 else 1
  {
    assert [line][1..] == [];
  }

  /** The count in a summary is the number of lines that are not empty. */
  lemma {:induction false} CountsLines(text: Text)
    ensures NonEmpty(Split(text, NEWLINE)) == LineStarts(text)
  {
    hide Split, NonEmpty, Extended;
    if text == [] {
      NoLines();
    } else {
      var n := |text| - 1;
      var front := text[..n];
      CountsLines(front);
      SplitOneMore(front, text[n], NEWLINE);
      LastPart(front, NEWLINE);
      LastPartCounts(Split(front, NEWLINE), text[n]);
      assert text == front + [text[n]];
    }
  }

  lemma NoLines()
    ensures NonEmpty(Split([], NEWLINE)) == 0
  {
    assert Split<Unit>([], NEWLINE) == [[]];
    CountOne([]);
  }

  lemma {:induction false} NonEmptyBound(lines: seq<Text>)
    ensures NonEmpty(lines) <= |lines|
  {
    if lines != [] { NonEmptyBound(lines[1..]); }
  }

  lemma {:induction false} SplitBound(s: Text, c: Unit)
    ensures |Split(s, c)| <= |s| + 1
  {
    if s != [] { SplitBound(s[1..], c); }
  }

  lemma PowerBound()
    ensures MAX_LENGTH < Pow10(16)
  {
    assert Pow10(4) == 10000;
    assert Pow10(8) == 10000 * Pow10(4);
    assert Pow10(12) == 10000 * Pow10(8);
    assert Pow10(16) == 10000 * Pow10(12);
  }

  /** A summary is short, whatever it counts, so it is not summarised again. */
  lemma SummaryIsShort(text: Text)
    requires |text| < MAX_LENGTH
    ensures |Summary(text)| <= LIST_LIMIT
  {
    var n := NonEmpty(Split(text, NEWLINE));
    NonEmptyBound(Split(text, NEWLINE));
    SplitBound(text, NEWLINE);
    PowerBound();
    DecimalLength(n, 16);
  }

  lemma ListingTwice(text: Text)
    requires |text| < MAX_LENGTH
    ensures PruneListing(PruneListing(text)) == PruneListing(text)
  {
    SummaryIsShort(text);
  }

  predicate Holdable(part: Part) {
    part.result.Plain? ==> |part.result.text| < MAX_LENGTH
  }

  lemma PartTwice(part: Part)
    requires Holdable(part)
    ensures PrunedPart(PrunedPart(part)) == PrunedPart(part)
  {
    hide Cut, PruneListing;
    if part.result.Plain? {
      ListingTwice(part.result.text);
      CutTwice(part.result.text, READ_KEEP, READ_MARK);
    }
  }

  lemma PartsTwice(parts: seq<Part>)
    requires forall i :: 0 <= i < |parts| ==> Holdable(parts[i])
    ensures PrunedParts(PrunedParts(parts)) == PrunedParts(parts)
  {
    forall i | 0 <= i < |parts| ensures PrunedPart(PrunedPart(parts[i])) == PrunedPart(parts[i]) {
      PartTwice(parts[i]);
    }
  }

  /** Pruning a conversation twice is pruning it once. */
  lemma PruneTwice(messages: seq<Message>)
    requires forall i :: 0 <= i < |messages| && messages[i].Tool? ==>
               forall j :: 0 <= j < |messages[i].parts| ==> Holdable(messages[i].parts[j])
    ensures Pruned(Pruned(messages)) == Pruned(messages)
  {
    forall i | 0 <= i < |messages| ensures PrunedMessage(PrunedMessage(messages[i])) == PrunedMessage(messages[i]) {
      if messages[i].Tool? { PartsTwice(messages[i].parts); }
    }
  }

  /** So is pruning the object of a shell result, in place, any number of times. */
  lemma OutputTwice(output: Option<Text>)
    ensures PrunedOutput(PrunedOutput(output)) == PrunedOutput(output)
  {
    if output.Some? { CutTwice(output.value, BASH_KEEP, BASH_MARK); }
  }

  // ----- which tool gets which rule -----

  /** The rule for a part: by its tool and, for texts, their length. */
  ghost predicate PrunedAs(before: Part, after: Part) {
    && after.toolName == before.toolName && after.callId == before.callId
    && after.result ==
       if before.toolName == "list_files" && before.result.Plain? && |before.result.text| > 500 then
         Plain(JsonText.Units("[Summary: ") + JsonText.Units(Decimal(LineStarts(before.result.text)))
               + JsonText.Units(" files/directories found. Output truncated to save context.]"))
       else if before.toolName == "read_file" && before.result.Plain? && |before.result.text| > 2000 then
         Plain(before.result.text[..1000]
               + JsonText.Units("\n\n... [CONTENT TRUNCATED FOR BREVITY] ...\n\n")
               + before.result.text[|before.result.text| - 1000..])
       else before.result
  }

  /** Messages of tools have their parts pruned; every other message is left as it is. */
  ghost predicate MessagePrunedAs(before: Message, after: Message) {
    match before
    case OtherMessage(_) => after == before
    case Tool(parts, extra) =>
      && after.Tool? && after.extra == extra && |after.parts| == |parts|
      && forall j :: 0 <= j < |parts| ==> PrunedAs(parts[j], after.parts[j])
  }

  /** The rule for the output of the shell. */
  ghost predicate OutputPrunedAs(before: Option<Text>, after: Option<Text>) {
    after ==
    if before.Some? && |before.value| > 1000 then
      Some(before.value[..500] + JsonText.Units("\n... [STDOUT TRUNCATED] ...\n") +
           before.value[|before.value| - 500..])
    else before
  }

  /** Some part of the tool `bash` has this object as its result. */
  ghost predicate IsShellOutput(messages: seq<Message>, o: ShellResult) {
    exists i :: 0 <= i < |messages| && messages[i].Tool? && PartsHold(messages[i].parts, o)
  }

  ghost predicate PartsHold(parts: seq<Part>, o: ShellResult) {
    exists j :: 0 <= j < |parts| && parts[j].toolName == "bash" && parts[j].result == Object(o)
  }

  lemma PartRule(part: Part)
    ensures PrunedAs(part, PrunedPart(part))
  {
    if part.result.Plain? { CountsLines(part.result.text); }
  }

  lemma MessageRule(message: Message)
    ensures MessagePrunedAs(message, PrunedMessage(message))
  {
    hide PrunedPart, PrunedAs;
    if message.Tool? {
      forall j | 0 <= j < |message.parts| ensures PrunedAs(message.parts[j], PrunedPart(message.parts[j])) {
        PartRule(message.parts[j]);
      }
    }
  }

  lemma OutputRule(output: Option<Text>)
    ensures OutputPrunedAs(output, PrunedOutput(output))
  {
  }

  lemma ShellsAreOutputs(messages: seq<Message>, o: ShellResult)
    ensures o in Shells(messages) <==> IsShellOutput(messages, o)
  {
    if IsShellOutput(messages, o) {
      var i :| 0 <= i < |messages| && messages[i].Tool? && PartsHold(messages[i].parts, o);
      var j :| 0 <= j < |messages[i].parts| && messages[i].parts[j].toolName == "bash"
               && messages[i].parts[j].result == Object(o);
      assert o in Shell(messages[i].parts[j]) && o in ShellsIn(messages[i]);
    }
    if o in Shells(messages) {
      var i :| 0 <= i < |messages| && o in ShellsIn(messages[i]);
      var j :| 0 <= j < |messages[i].parts| && o in Shell(messages[i].parts[j]);
      assert PartsHold(messages[i].parts, o);
    }
  }

  // ----- the code -----

  /** A new part; the object of a shell result is rewritten where it is. */
  method PrunePart(part: Part) returns (r: Part)
    modifies Shell(part)
    ensures r == PrunedPart(part)
    ensures forall o :: o in Shell(part) ==> o.output == PrunedOutput(old(o.output))
  {
    var result := part.result;
    if part.toolName == "list_files" && result.Plain? && |result.text| > LIST_LIMIT {
      result := Plain(Summary(result.text));
    }
    if part.toolName == "read_file" && result.Plain? && |result.text| > 2 * READ_KEEP {
      result := Plain(result.text[..READ_KEEP] + READ_MARK + result.text[|result.text| - READ_KEEP..]);
    }
    if part.toolName == "bash" && result.Object? {
      var res := result.shell;
      if res.output.Some? && |res.output.value| > 2 * BASH_KEEP {
        var text := res.output.value;
        res.output := Some(text[..BASH_KEEP] + BASH_MARK + text[|text| - BASH_KEEP..]);
      }
    }
    r := part.(result := result);
  }

  lemma NextPart(parts: seq<Part>, i: nat)
    requires i < |parts|
    ensures ShellsOf(parts[..i + 1]) == ShellsOf(parts[..i]) + Shell(parts[i])
    ensures Shell(parts[i]) <= ShellsOf(parts)
  {
    var all, front := parts[..i + 1], parts[..i];
    assert all[i] == parts[i] && forall k :: 0 <= k < i ==> all[k] == front[k];
    assert forall o :: o in Shell(parts[i]) ==> o in Shell(all[i]);
    assert forall o, k :: 0 <= k < i && o in Shell(front[k]) ==> o in Shell(all[k]);
  }

  method PruneParts(parts: seq<Part>) returns (out: seq<Part>)
    modifies ShellsOf(parts)
    ensures out == PrunedParts(parts)
    ensures forall o :: o in ShellsOf(parts) ==> o.output == PrunedOutput(old(o.output))
  {
    out := [];
    for i := 0 to |parts|
      invariant |out| == i && forall k :: 0 <= k < i ==> out[k] == PrunedPart(parts[k])
      invariant forall o :: o in ShellsOf(parts) ==>
                  o.output == if o in ShellsOf(parts[..i]) then PrunedOutput(old(o.output)) else old(o.output)
    {
      hide PrunedPart, PrunedOutput, ShellsOf, Shell;
      NextPart(parts, i);
      forall o: ShellResult | o in ShellsOf(parts)
        ensures PrunedOutput(PrunedOutput(old(o.output))) == PrunedOutput(old(o.output))
      {
        OutputTwice(old(o.output));
      }
      var pruned := PrunePart(parts[i]);
      out := out + [pruned];
    }
    assert parts[..|parts|] == parts;
  }

  lemma NextMessage(messages: seq<Message>, i: nat)
    requires i < |messages|
    ensures Shells(messages[..i + 1]) == Shells(messages[..i]) + ShellsIn(messages[i])
    ensures ShellsIn(messages[i]) <= Shells(messages)
  {
    hide ShellsIn;
    var all, front := messages[..i + 1], messages[..i];
    assert all[i] == messages[i] && forall k :: 0 <= k < i ==> all[k] == front[k];
    assert forall o :: o in ShellsIn(messages[i]) ==> o in ShellsIn(all[i]);
    assert forall o, k :: 0 <= k < i && o in ShellsIn(front[k]) ==> o in ShellsIn(all[k]);
  }

  /** The messages given, if any were. */
  function Given(messages: Option<seq<Message>>): seq<Message> {
    if messages.Some? then messages.value else []
  }

  lemma MessagesRule(messages: seq<Message>)
    ensures forall i :: 0 <= i < |messages| ==> MessagePrunedAs(messages[i], Pruned(messages)[i])
  {
    hide MessagePrunedAs, PrunedMessage;
    forall i | 0 <= i < |messages| ensures MessagePrunedAs(messages[i], Pruned(messages)[i]) {
      MessageRule(messages[i]);
    }
  }

  /**
    New messages come back, one for one, and none when none were given; the shell results of the given
    ones are pruned in place, each once in effect, however many parts share it.
  */
  method PruneToolResults(given: Option<seq<Message>>) returns (out: seq<Message>)
    modifies Shells(Given(given))
    ensures out == Pruned(Given(given))
    ensures forall o :: o in Shells(Given(given)) ==> o.output == PrunedOutput(old(o.output))
    ensures |out| == |Given(given)| && forall i :: 0 <= i < |out| ==> MessagePrunedAs(Given(given)[i], out[i])
    ensures forall i, j ::
              && 0 <= i < |Given(given)| && Given(given)[i].Tool? && 0 <= j < |Given(given)[i].parts|
              && Given(given)[i].parts[j].result.Object? ==>
                var o := Given(given)[i].parts[j].result.shell;
                if IsShellOutput(Given(given), o) then OutputPrunedAs(old(o.output), o.output)
                else o.output == old(o.output)
  {
    hide MessagePrunedAs, OutputPrunedAs, IsShellOutput;
    MessagesRule(Given(given));
    forall o: ShellResult | o in Shells(Given(given)) || o !in Shells(Given(given))
      ensures o in Shells(Given(given)) <==> IsShellOutput(Given(given), o)
      ensures OutputPrunedAs(old(o.output), PrunedOutput(old(o.output)))
    {
      ShellsAreOutputs(Given(given), o);
      OutputRule(old(o.output));
    }
    if given.None? {
      return [];
    }
    var messages := given.value;
    out := [];
    for i := 0 to |messages|
      invariant |out| == i && forall k :: 0 <= k < i ==> out[k] == PrunedMessage(messages[k])
      invariant forall o :: o in Shells(messages) ==>
                  o.output == if o in Shells(messages[..i]) then PrunedOutput(old(o.output)) else old(o.output)
    {
      hide PrunedParts, PrunedOutput, ShellsOf, Shells;
      NextMessage(messages, i);
      forall o: ShellResult | o in Shells(messages)
        ensures PrunedOutput(PrunedOutput(old(o.output))) == PrunedOutput(old(o.output))
      {
        OutputTwice(old(o.output));
      }
      var message := messages[i];
      if message.Tool? {
        var parts := PruneParts(message.parts);
        message := message.(parts := parts);
      }
      out := out + [message];
    }
    assert messages[..|messages|] == messages;
  }
}

/**
 * The Enter branch of the editor's keydown handler (main.js:360-411): when the text from
 * the start of the cursor's line up to the cursor is a list item, Enter either continues
 * the list on a new line or, on an item that holds nothing but its marker, ends the list.
 * The three patterns are tried in order: a checklist item `^(\s*)- \[([ xX])\] `, an
 * unordered item `^(\s*)([*+-]) `, an ordered item `^(\s*)(\d+)\. `.
 */
module ListContinuation {
  import opened Wrappers
  import opened JsStrings
  import opened TextControl
  import opened Editor

  /** What a list pattern captures from the current line: the indent and the marker. */
  datatype ListItem =
    | Checklist(indent: string, mark: char)
    | Bullet(indent: string, marker: char)
    | Ordered(indent: string, num: string)

  /** The text a pattern requires right after the indent. */
  function Head(item: ListItem): string {
    match item
    case Checklist(_, m) => "- [" + [m] + "] "
    case Bullet(_, m) => [m, ' ']
    case Ordered(_, num) => num + ". "
  }

  /** Captures a pattern can produce: white space for `(\s*)`, and a marker its class admits. */
  predicate WellFormed(item: ListItem) {
    && AllSpace(item.indent)
    && match item
       case Checklist(_, m) => m == ' ' || m == 'x' || m == 'X'
       case Bullet(_, m) => m == '*' || m == '+' || m == '-'
       case Ordered(_, num) => num != [] && AllDigits(num)
  }

  /** `line` matches the item's pattern with exactly these captures. */
  predicate Shape(line: string, item: ListItem) {
    WellFormed(item) && StartsWith(line, item.indent + Head(item))
  }

  /** The order in which the handler tries the patterns. */
  function Rank(item: ListItem): nat {
    match item
    case Checklist(_, _) => 0
    case Bullet(_, _) => 1
    case Ordered(_, _) => 2
  }

  // ----- The three matchers -----

  function MatchChecklist(line: string): Option<ListItem> {
    var n := LeadingSpace(line);
    var rest := line[n..];
    if |rest| >= 6 && rest[..3] == "- [" && (rest[3] == ' ' || rest[3] == 'x' || rest[3] == 'X') && rest[4..6] == "] "
    then Some(Checklist(line[..n], rest[3]))
    else None
  }

  function MatchBullet(line: string): Option<ListItem> {
    var n := LeadingSpace(line);
    var rest := line[n..];
    if |rest| >= 2 && (rest[0] == '*' || rest[0] == '+' || rest[0] == '-') && rest[1] == ' '
    then Some(Bullet(line[..n], rest[0]))
    else None
  }

  function MatchOrdered(line: string): Option<ListItem> {
    var n := LeadingSpace(line);
    var rest := line[n..];
    var d := DigitRun(rest);
    if d > 0 && d + 2 <= |rest| && rest[d..d + 2] == ". "
    then Some(Ordered(line[..n], rest[..d]))
    else None
  }

  /** The handler's `match` chain: checklist first, then unordered, then ordered. */
  function MatchListItem(line: string): Option<ListItem> {
    var c := MatchChecklist(line);
    if c.Some? then c
    else
      var u := MatchBullet(line);
      if u.Some? then u else MatchOrdered(line)
  }

  /** The indent a pattern captures is the whole run of white space before the marker. */
  lemma IndentDetermined(line: string, ind: string, h: string)
    requires AllSpace(ind) && StartsWith(line, ind + h)
    requires h != [] && !IsSpace(h[0])
    ensures LeadingSpace(line) == |ind| && line[..|ind|] == ind
    ensures StartsWith(line[|ind|..], h)
  {
    assert forall i :: 0 <= i < |ind| ==> line[i] == (ind + h)[i];
    assert line[|ind|] == (ind + h)[|ind|];
    assert line[..|ind|] == (ind + h)[..|ind|];
    assert line[|ind|..][..|h|] == (ind + h)[|ind|..];
  }

  /** A line that begins with its leading white space and then `h` begins with their concatenation. */
  lemma Reassemble(line: string, n: nat, h: string)
    requires n <= |line| && StartsWith(line[n..], h)
    ensures StartsWith(line, line[..n] + h)
  {
    assert (line[..n] + h) == line[..n + |h|];
  }

  /** The checklist matcher succeeds with exactly the captures that fit its pattern. */
  lemma MatchChecklistIff(line: string, item: ListItem)
    ensures MatchChecklist(line) == Some(item) <==> item.Checklist? && Shape(line, item)
  {
    var n := LeadingSpace(line);
    var rest := line[n..];
    if MatchChecklist(line) == Some(item) {
      assert rest[..6] == "- [" + [rest[3]] + "] ";
      Reassemble(line, n, rest[..6]);
    }
    if item.Checklist? && Shape(line, item) {
      IndentDetermined(line, item.indent, Head(item));
    }
  }

  /** The unordered matcher succeeds with exactly the captures that fit its pattern. */
  lemma MatchBulletIff(line: string, item: ListItem)
    ensures MatchBullet(line) == Some(item) <==> item.Bullet? && Shape(line, item)
  {
    var n := LeadingSpace(line);
    var rest := line[n..];
    if MatchBullet(line) == Some(item) {
      assert rest[..2] == [rest[0], ' '];
      Reassemble(line, n, rest[..2]);
    }
    if item.Bullet? && Shape(line, item) {
      IndentDetermined(line, item.indent, Head(item));
    }
  }

  /** The ordered matcher succeeds with exactly the captures that fit its pattern: `\d+` takes every digit. */
  lemma MatchOrderedIff(line: string, item: ListItem)
    ensures MatchOrdered(line) == Some(item) <==> item.Ordered? && Shape(line, item)
  {
    if MatchOrdered(line) == Some(item) {
      MatchedOrderedShape(line);
    }
    if item.Ordered? && Shape(line, item) {
      IndentDetermined(line, item.indent, Head(item));
      DigitsThenDot(line[|item.indent|..], item.num);
    }
  }

  lemma MatchedOrderedShape(line: string)
    requires MatchOrdered(line).Some?
    ensures MatchOrdered(line).value.Ordered? && Shape(line, MatchOrdered(line).value)
  {
    var n := LeadingSpace(line);
    var rest := line[n..];
    var d := DigitRun(rest);
    assert rest[..d + 2] == rest[..d] + ". ";
    Reassemble(line, n, rest[..d + 2]);
  }

  /** After a run of digits followed by `". "`, the greedy `\d+` stops exactly at the dot. */
  lemma DigitsThenDot(rest: string, num: string)
    requires num != [] && AllDigits(num) && StartsWith(rest, num + ". ")
    ensures DigitRun(rest) == |num|
    ensures rest[..|num|] == num && rest[|num|..|num| + 2] == ". "
  {
    assert rest[..|num| + 2] == num + ". ";
    assert forall i :: 0 <= i < |num| ==> rest[i] == num[i];
    assert rest[|num|] == '.';
  }

  /**
   * The handler picks the first pattern, in the order tried, that the line fits, and
   * reports nothing when it fits none.
   */
  lemma MatchListItemIff(line: string, item: ListItem)
    ensures MatchListItem(line) == Some(item) <==>
      Shape(line, item) && forall other :: Shape(line, other) ==> Rank(item) <= Rank(other)
  {
    MatchChecklistIff(line, item);
    MatchBulletIff(line, item);
    MatchOrderedIff(line, item);
    if MatchChecklist(line).Some? {
      MatchChecklistIff(line, MatchChecklist(line).value);
    }
    if MatchBullet(line).Some? {
      MatchBulletIff(line, MatchBullet(line).value);
    }
    if MatchListItem(line) == Some(item) {
      forall other | Shape(line, other)
        ensures Rank(item) <= Rank(other)
      {
        MatchChecklistIff(line, other);
        MatchBulletIff(line, other);
      }
    }
  }

  lemma MatchListItemNone(line: string)
    ensures MatchListItem(line) == None <==> forall item :: !Shape(line, item)
  {
    if MatchListItem(line) == None {
      forall item ensures !Shape(line, item) {
        MatchChecklistIff(line, item);
        MatchBulletIff(line, item);
        MatchOrderedIff(line, item);
      }
    } else {
      MatchListItemIff(line, MatchListItem(line).value);
    }
  }

  // ----- What Enter does -----

  /** The item holds nothing but its marker: the trimmed line is `'- [ ]'`, `'- [x]'`, the marker, or `num.`. */
  predicate IsBare(line: string, item: ListItem) {
    var t := Trim(line);
    match item
    case Checklist(_, _) => t == "- [ ]" || t == "- [x]"
    case Bullet(_, m) => t == [m]
    case Ordered(_, num) => t == num + "."
  }

  /** The item that continues the list: an unticked box, the same marker, or the next number. */
  function Next(item: ListItem): ListItem {
    match item
    case Checklist(ind, _) => Checklist(ind, ' ')
    case Bullet(ind, m) => Bullet(ind, m)
    case Ordered(ind, num) => Ordered(ind, if AllDigits(num) then Decimal(DigitsValue(num) + 1) else num)
  }

  /** The text inserted at the cursor to continue the list. */
  function Continuation(item: ListItem): string {
    "\n" + NewLine(item)
  }

  /** The line that continuing the list opens: the same indent and the next marker. */
  function NewLine(item: ListItem): string {
    item.indent + Head(Next(item))
  }

  /** The text from the start of the cursor's line up to the cursor. */
  function CurrentLine(b: Buffer): string
    requires b.Valid()
  {
    b.text[LineStart(b.text, b.selStart)..b.selStart]
  }

  /**
   * Enter with the line start of LineStart: `None` when the handler leaves the key to the
   * browser, otherwise the buffer after its `setRangeText`.
   */
  function PressEnter(b: Buffer): (r: Option<Buffer>)
    requires b.Valid()
    ensures r.Some? ==> r.value.Valid()
  {
    var c := b.selStart;
    var ls := LineStart(b.text, c);
    var line := b.text[ls..c];
    var m := MatchListItem(line);
    if m.None? then None
    else if IsBare(line, m.value) then Some(RangeText(b, "\n", ls, c, End).value)
    else Some(RangeText(b, Continuation(m.value), c, c, End).value)
  }

  /** The Enter branch exactly as written, with the line start of main.js:363 and main.js:372. */
  function PressEnterAsWritten(b: Buffer): Option<Result<Buffer, DomException>>
    requires b.Valid()
  {
    var start := b.selStart;
    var lineStart := LineStartAsWritten(b.text, start);
    var currentLine := Substring(b.text, lineStart, start);
    var m := MatchListItem(currentLine);
    if m.None? then None
    else if IsBare(currentLine, m.value) then Some(RangeText(b, "\n", lineStart, start, End))
    else Some(RangeText(b, Continuation(m.value), start, start, End))
  }

  /** A line shorter than two characters fits no pattern. */
  lemma ShortLineNoMatch(line: string)
    requires |line| < 2
    ensures MatchListItem(line) == None
  {
    MatchListItemNone(line);
  }

  /**
   * Unlike insertAtLineStart, the Enter branch never throws: at offset 0 the line it reads
   * as written is empty or a single newline, which fits no pattern, and everywhere else it
   * reads the cursor's line.
   */
  lemma EnterAsWrittenAgrees(b: Buffer)
    requires b.Valid()
    ensures PressEnterAsWritten(b) == match PressEnter(b) case None => None case Some(r) => Some(Success(r))
  {
    var t, c := b.text, b.selStart;
    if c == 0 {
      ShortLineNoMatch(t[0..0]);
      ShortLineNoMatch(Substring(t, LineStartAsWritten(t, c), c));
    }
  }

  /** A line that fits no pattern is left to the browser. */
  lemma EnterIgnoresOtherLines(b: Buffer)
    requires b.Valid()
    ensures var ls := LineStart(b.text, b.selStart);
      PressEnter(b) == None <==> forall item :: !Shape(b.text[ls..b.selStart], item)
  {
    MatchListItemNone(b.text[LineStart(b.text, b.selStart)..b.selStart]);
  }

  /** On a bare item, Enter replaces the line up to the cursor by a newline: the list ends. */
  lemma EnterEndsList(b: Buffer, item: ListItem)
    requires b.Valid()
    requires MatchListItem(CurrentLine(b)) == Some(item) && IsBare(CurrentLine(b), item)
    ensures var c := b.selStart;
      var ls := LineStart(b.text, c);
      PressEnter(b) == Some(Buffer(b.text[..ls] + "\n" + b.text[c..], ls + 1, ls + 1))
  {
    var ls := LineStart(b.text, b.selStart);
    assert CurrentLine(b) == b.text[ls..b.selStart];
    ReplaceBeforeCursor(b, ls, "\n");
  }

  /** On any other item, Enter breaks the line at the cursor and inserts the next item's marker. */
  lemma EnterContinuesList(b: Buffer, item: ListItem)
    requires b.Valid()
    requires MatchListItem(CurrentLine(b)) == Some(item) && !IsBare(CurrentLine(b), item)
    ensures var c := b.selStart;
      var k := c + |Continuation(item)|;
      PressEnter(b) == Some(Buffer(b.text[..c] + Continuation(item) + b.text[c..], k, k))
  {
    InsertAtCursor(b, Continuation(item));
  }

  /** Inserting at the cursor in `End` mode puts the text there and the cursor after it. */
  lemma ReplaceBeforeCursor(b: Buffer, k: nat, s: string)
    requires b.Valid() && k <= b.selStart
    ensures var c := b.selStart;
      RangeText(b, s, k, c, End).value == Buffer(b.text[..k] + s + b.text[c..], k + |s|, k + |s|)
  {
    var r := RangeText(b, s, k, b.selStart, End).value;
    assert r.text == b.text[..k] + s + b.text[b.selStart..];
  }

  lemma InsertAtCursor(b: Buffer, s: string)
    requires b.Valid()
    ensures var c := b.selStart;
      RangeText(b, s, c, c, End).value == Buffer(b.text[..c] + s + b.text[c..], c + |s|, c + |s|)
  {
    var c := b.selStart;
    var r := RangeText(b, s, c, c, End).value;
    assert r.text == b.text[..c] + s + b.text[c..];
  }

  /**
   * The line a continuing Enter opens starts right after the inserted newline and holds the
   * indent and the next marker, with the cursor at its end.
   */
  lemma ContinuedLine(b: Buffer, item: ListItem)
    requires b.Valid()
    requires MatchListItem(CurrentLine(b)) == Some(item) && !IsBare(CurrentLine(b), item)
    ensures var c := b.selStart;
      var r := PressEnter(b).value;
      && LineStart(r.text, r.selStart) == c + 1
      && r.text[c + 1..r.selStart] == NewLine(item)
  {
    ContinueText(b, item);
    NewLineLacksNewline(b, item);
    SplitAfterNewline(b.text, b.selStart, NewLine(item), PressEnter(b).value);
  }

  lemma SplitAfterNewline(t: string, c: nat, x: string, r: Buffer)
    requires c <= |t| && Lacks(x, '\n')
    requires r.text == t[..c] + ("\n" + x) + t[c..] && r.selStart == c + 1 + |x|
    ensures r.selStart <= |r.text|
    ensures LineStart(r.text, r.selStart) == c + 1 && r.text[c + 1..r.selStart] == x
  {
    OpenedLine(t[..c], x, t[c..]);
  }

  lemma ContinueText(b: Buffer, item: ListItem)
    requires b.Valid()
    requires MatchListItem(CurrentLine(b)) == Some(item) && !IsBare(CurrentLine(b), item)
    ensures var t, c := b.text, b.selStart;
      var r := PressEnter(b).value;
      r.text == t[..c] + ("\n" + NewLine(item)) + t[c..] && r.selStart == c + 1 + |NewLine(item)|
  {
    EnterContinuesList(b, item);
  }

  /** The indent comes from a line without newlines, and markers have none. */
  lemma NewLineLacksNewline(b: Buffer, item: ListItem)
    requires b.Valid()
    requires MatchListItem(CurrentLine(b)) == Some(item)
    ensures Lacks(NewLine(item), '\n')
  {
    var line := CurrentLine(b);
    MatchListItemIff(line, item);
    assert item.indent == line[..|item.indent|];
    HeadLacksNewline(Next(item));
    LacksConcat(item.indent, Head(Next(item)), '\n');
  }

  /** After a newline and a newline-free `x`, the line start is just after that newline. */
  lemma OpenedLine(pre: string, x: string, post: string)
    requires Lacks(x, '\n')
    ensures var u := pre + ("\n" + x) + post;
      var k := |pre| + 1 + |x|;
      && k <= |u|
      && LineStart(u, k) == |pre| + 1
      && u[|pre| + 1..k] == x
  {
    var u := pre + ("\n" + x) + post;
    var k := |pre| + 1 + |x|;
    assert u[|pre|] == '\n';
    assert u[|pre| + 1..k] == x;
    LineStartUnique(u, k, |pre| + 1);
  }

  /** The line Enter starts is a bare item of the continued kind, and it has no newline. */
  lemma NewItemLine(item: ListItem)
    requires WellFormed(item)
    ensures WellFormed(Next(item))
    ensures Lacks(Head(Next(item)), '\n')
    ensures MatchListItem(NewLine(item)) == Some(Next(item))
    ensures IsBare(NewLine(item), Next(item))
  {
    NewItemMatches(item);
    MatchedWellFormed(NewLine(item), Next(item));
    NewItemBare(item);
    HeadLacksNewline(Next(item));
  }

  lemma HeadLacksNewline(item: ListItem)
    requires WellFormed(item)
    ensures Lacks(Head(item), '\n')
  {
    match item {
      case Checklist(_, m) =>
      case Bullet(_, m) =>
      case Ordered(_, num) =>
        assert forall i :: 0 <= i < |num| ==> Head(item)[i] == num[i];
    }
  }

  /** The line Enter starts holds only the new marker after the indent. */
  lemma NewItemBare(item: ListItem)
    requires WellFormed(item)
    ensures IsBare(NewLine(item), Next(item))
  {
    match item {
      case Checklist(_, _) => MarkerOnly(item, "- [ ]");
      case Bullet(_, m) => MarkerOnly(item, [m]);
      case Ordered(_, _) =>
        var d := Next(item).num;
        assert IsDigit((d + ".")[0]);
        MarkerOnly(item, d + ".");
    }
  }

  /** The line Enter opens trims to the new item's marker. */
  lemma MarkerOnly(item: ListItem, marker: string)
    requires AllSpace(item.indent) && Head(Next(item)) == marker + " "
    requires marker != [] && !IsSpace(marker[0]) && !IsSpace(marker[|marker| - 1])
    ensures Trim(NewLine(item)) == marker
  {
    BareLine(item.indent, marker);
  }

  /** An indent, a marker and the one space after it trim to the marker. */
  lemma BareLine(ind: string, marker: string)
    requires AllSpace(ind) && marker != [] && !IsSpace(marker[0]) && !IsSpace(marker[|marker| - 1])
    ensures Trim(ind + (marker + " ")) == marker
  {
    assert ind + (marker + " ") == ind + marker + " ";
    TrimPadded(ind, marker, " ");
  }

  /** The handler reads the line Enter starts as the continued item, with nothing preferred over it. */
  lemma NewItemMatches(item: ListItem)
    requires WellFormed(item)
    ensures MatchListItem(NewLine(item)) == Some(Next(item))
  {
    var n := Next(item);
    var h := Head(n);
    var line := item.indent + h;
    if n.Ordered? {
      assert h[0] == n.num[0];
    }
    assert StartsWith(line, item.indent + h);
    MatchListItemIff(line, n);
    forall other | Shape(line, other)
      ensures Rank(n) <= Rank(other)
    {
      if Rank(other) < Rank(n) {
        IndentDetermined(line, other.indent, Head(other));
        IndentDetermined(line, item.indent, h);
      }
    }
  }

  /**
   * Enter on a non-bare item and then Enter again on the new bare item leaves a blank line
   * at the cursor: the second press removes the marker the first one added.
   */
  lemma EnterTwice(b: Buffer, item: ListItem)
    requires b.Valid()
    requires MatchListItem(CurrentLine(b)) == Some(item) && !IsBare(CurrentLine(b), item)
    ensures var c := b.selStart;
      PressEnter(PressEnter(b).value) == Some(Buffer(b.text[..c] + "\n\n" + b.text[c..], c + 2, c + 2))
  {
    var t, c := b.text, b.selStart;
    ContinueText(b, item);
    ContinuedLine(b, item);
    MatchedWellFormed(CurrentLine(b), item);
    SecondEnter(PressEnter(b).value, c, item);
    DropLine(t[..c], NewLine(item), t[c..]);
  }

  lemma MatchedWellFormed(line: string, item: ListItem)
    requires MatchListItem(line) == Some(item)
    ensures WellFormed(item)
  {
    MatchListItemIff(line, item);
  }

  /** Enter on the line a continuing Enter opened ends the list there. */
  lemma SecondEnter(r: Buffer, c: nat, item: ListItem)
    requires r.Valid() && c + 1 <= r.selStart && WellFormed(item)
    requires LineStart(r.text, r.selStart) == c + 1 && r.text[c + 1..r.selStart] == NewLine(item)
    ensures PressEnter(r) == Some(Buffer(r.text[..c + 1] + "\n" + r.text[r.selStart..], c + 2, c + 2))
  {
    NewItemLine(item);
    assert CurrentLine(r) == NewLine(item);
    EnterEndsList(r, Next(item));
  }

  /** Replacing the line after the inserted newline by a newline leaves two newlines. */
  lemma DropLine(pre: string, x: string, post: string)
    ensures var u := pre + ("\n" + x) + post;
      u[..|pre| + 1] + "\n" + u[|pre| + 1 + |x|..] == pre + "\n\n" + post
  {
    var u := pre + ("\n" + x) + post;
    assert u[..|pre| + 1] == pre + "\n";
    assert u[|pre| + 1 + |x|..] == post;
  }

  /** `"- [ ] a"` is recognised as an unticked checklist item without indentation. */
  lemma ChecklistExample()
    ensures MatchListItem("- [ ] a") == Some(Checklist("", ' '))
  {
    var line := "- [ ] a";
    var item := Checklist("", ' ');
    assert StartsWith(line, item.indent + Head(item));
    MatchListItemIff(line, item);
  }

  /** After item `1.` Enter opens item `2.`. */
  lemma NextNumberExample()
    ensures Continuation(Ordered("", "1")) == "\n2. "
  {
    assert DigitsValue("1") == 10 * DigitsValue("") + 1;
    assert Decimal(2) == [DigitChar(2)];
  }

  /** Enter at the end of a one-line text holding a list item that is not bare appends the continuation. */
  lemma EnterOnOnlyLine(b: Buffer, item: ListItem)
    requires b.selStart == b.selEnd == |b.text| && LineStart(b.text, b.selStart) == 0
    requires MatchListItem(b.text) == Some(item) && !IsBare(b.text, item)
    ensures PressEnter(b) == Some(Buffer(b.text + Continuation(item), |b.text| + |Continuation(item)|, |b.text| + |Continuation(item)|))
  {
    assert CurrentLine(b) == b.text[0..|b.text|] == b.text;
    EnterContinuesList(b, item);
    AppendAtEnd(b.text, Continuation(item));
  }

  /** Without newlines the cursor's line at the end of the text starts at 0. */
  lemma OnlyLine(t: string)
    requires Lacks(t, '\n')
    ensures LineStart(t, |t|) == 0
  {
  }

  lemma AppendAtEnd(t: string, x: string)
    ensures t[..|t|] + x + t[|t|..] == t + x
  {
    assert t[..|t|] == t && t[|t|..] == [];
  }

  /** Enter after "- [ ] a" opens an unticked item on the next line, with the cursor after it. */
  lemma ChecklistEnterExample(t: string)
    requires t == "- [ ] a"
    ensures PressEnter(Buffer(t, 7, 7)) == Some(Buffer(t + "\n- [ ] ", 14, 14))
  {
    var item := Checklist("", ' ');
    ChecklistExample();
    SingleLine(t);
    OnlyLine(t);
    NotBare(t, item, "- [ ]", "- [x]");
    ChecklistContinuation();
    EnterOnOnlyLine(Buffer(t, 7, 7), item);
  }

  /** Enter after "1. first" opens item 2 on the next line, with the cursor after it. */
  lemma OrderedEnterExample(t: string)
    requires t == "1. first"
    ensures PressEnter(Buffer(t, 8, 8)) == Some(Buffer(t + "\n2. ", 12, 12))
  {
    var item := Ordered("", "1");
    OrderedExample();
    SingleLine(t);
    OnlyLine(t);
    NotBare(t, item, "1.", "1.");
    OrderedContinuation();
    EnterOnOnlyLine(Buffer(t, 8, 8), item);
  }

  lemma ChecklistContinuation()
    ensures Continuation(Checklist("", ' ')) == "\n- [ ] "
    ensures "- [ ] a" + "\n- [ ] " == "- [ ] a\n- [ ] "
  {
  }

  lemma OrderedContinuation()
    ensures Continuation(Ordered("", "1")) == "\n2. "
    ensures "1. first" + "\n2. " == "1. first\n2. "
  {
    NextNumberExample();
  }

  lemma OrderedExample()
    ensures MatchListItem("1. first") == Some(Ordered("", "1"))
  {
    var line := "1. first";
    DigitLine(line);
    assert line[0..] == line && line[..0] == [] && line[..1] == "1";
    assert DigitRun(line) == 1 + DigitRun(line[1..]);
    assert line[1..][0] == '.';
    assert line[1..3] == ". ";
  }

  /** A line that starts with a digit can only be an ordered item, and has no indent. */
  lemma DigitLine(line: string)
    requires line != [] && IsDigit(line[0])
    ensures MatchListItem(line) == MatchOrdered(line)
    ensures LeadingSpace(line) == 0
  {
  }

  lemma SingleLine(t: string)
    requires forall i :: 0 <= i < |t| ==> t[i] != '\n'
    ensures Lacks(t, '\n')
  {
  }

  /** A line without white space at its ends that is neither bare form of `item` is not bare. */
  lemma NotBare(t: string, item: ListItem, bare1: string, bare2: string)
    requires t != [] && !IsSpace(t[0]) && !IsSpace(t[|t| - 1])
    requires item.Checklist? ==> bare1 == "- [ ]" && bare2 == "- [x]"
    requires item.Bullet? ==> bare1 == bare2 == [item.marker]
    requires item.Ordered? ==> bare1 == bare2 == item.num + "."
    requires t != bare1 && t != bare2
    ensures !IsBare(t, item)
  {
    TrimPadded([], t, []);
    assert [] + t + [] == t;
  }

  /** The Enter branch on a textarea, performing the same calls as main.js:360-411. */
  method HandleEnter(ed: TextArea) returns (handled: bool)
    requires ed.Valid()
    modifies ed
    ensures handled <==> PressEnter(old(ed.State())).Some?
    ensures handled ==> ed.Valid() && ed.State() == PressEnter(old(ed.State())).value
    ensures !handled ==> ed.State() == old(ed.State())
  {
    EnterAsWrittenAgrees(ed.State());
    var start := ed.selectionStart;
    var lineStart := LineStartAsWritten(ed.value, start);
    var currentLine := Substring(ed.value, lineStart, start);
    var m := MatchListItem(currentLine);
    if m.None? {
      return false;
    }
    handled := true;
    if IsBare(currentLine, m.value) {
      var _ := ed.SetRangeText("\n", lineStart, start, End);
    } else {
      var _ := ed.SetRangeText(Continuation(m.value), start, start, End);
    }
  }
}

/**
 * The editing operations of main.js: wrap the selection (`insertText`), toggle a line
 * prefix (`insertAtLineStart`), insert a block (`insertBlock`), indent with Tab, and insert
 * an AI result. Each is a function on the textarea's value and selection built from
 * `setRangeText`, and a method that performs it on a TextArea through the same calls.
 */
module Editor {
  import opened Wrappers
  import opened JsStrings
  import opened TextControl

  // ----- Line geometry -----

  /** `value.lastIndexOf('\n', start - 1) + 1`: the line start as main.js:207 and main.js:363 compute it. */
  function LineStartAsWritten(t: string, cursor: nat): nat {
    LastIndexOf(t, '\n', cursor - 1) + 1
  }

  /** The start of the cursor's line: just after the last newline before the cursor, or 0. */
  function LineStart(t: string, cursor: nat): (ls: nat)
    requires cursor <= |t|
    ensures ls <= cursor
    ensures ls == 0 || t[ls - 1] == '\n'
    ensures Lacks(t[ls..cursor], '\n')
  {
    if cursor == 0 then 0 else LineStartAsWritten(t, cursor)
  }

  /** The end of the cursor's line: the first newline at or after the cursor, or the length. */
  function LineEnd(t: string, cursor: nat): (le: nat)
    requires cursor <= |t|
    ensures cursor <= le <= |t|
    ensures le == |t| || t[le] == '\n'
    ensures Lacks(t[cursor..le], '\n')
  {
    var i := IndexOf(t, '\n', cursor);
    if i == -1 then |t| else i
  }

  /** A line start is determined by the cursor: any newline-free stretch ending there that starts a line is it. */
  lemma LineStartUnique(t: string, cursor: nat, k: nat)
    requires k <= cursor <= |t|
    requires k == 0 || t[k - 1] == '\n'
    requires Lacks(t[k..cursor], '\n')
    ensures LineStart(t, cursor) == k
  {
  }

  lemma LineEndUnique(t: string, cursor: nat, k: nat)
    requires cursor <= k <= |t|
    requires k == |t| || t[k] == '\n'
    requires Lacks(t[cursor..k], '\n')
    ensures LineEnd(t, cursor) == k
  {
  }

  // ----- insertText -----

  /** `insertText(before, after, placeholder)` (main.js:187-203). */
  function WrapSelection(b: Buffer, before: string, after: string, placeholder: string): (r: Buffer)
    requires b.Valid()
    ensures r.Valid()
    ensures var s, e := b.selStart, b.selEnd;
      var mid := if s == e then placeholder else b.text[s..e];
      && r.text == b.text[..s] + before + mid + after + b.text[e..]
      && (s == e && placeholder != [] ==> r.selStart == s + |before| && r.selEnd == s + |before| + |placeholder|)
      && (s < e || placeholder == [] ==> r.selStart == s && r.selEnd == s + |before| + |mid| + |after|)
  {
    var s, e := b.selStart, b.selEnd;
    var selected := b.text[s..e];
    var text := if selected != [] then selected else placeholder;
    var r := RangeText(b, before + text + after, s, e, Select).value;
    assert r.text == b.text[..s] + (before + text + after) + b.text[e..];
    if selected == [] && placeholder != [] then
      var r1 := WithSelectionStart(r, s + |before|);
      assert r1 == Buffer(r.text, s + |before|, r.selEnd);
      WithSelectionEnd(r1, s + |before| + |placeholder|)
    else r
  }

  /** Removes `before` and `after` from around the `n` characters at offset `s`, when both are there. */
  function Unwrap(t: string, s: nat, before: string, n: nat, after: string): Option<string> {
    var m := s + |before|;
    var k := m + n;
    if k + |after| <= |t| && t[s..m] == before && t[k..k + |after|] == after
    then Some(t[..s] + t[m..k] + t[k + |after|..])
    else None
  }

  /**
   * Stripping `before` and `after` around the wrapped span gives back the text with that span
   * in place: the original text when something was selected (or no placeholder was given).
   */
  lemma WrapThenUnwrap(b: Buffer, before: string, after: string, placeholder: string)
    requires b.Valid()
    ensures var s, e := b.selStart, b.selEnd;
      var mid := if s == e then placeholder else b.text[s..e];
      var t := WrapSelection(b, before, after, placeholder).text;
      && Unwrap(t, s, before, |mid|, after) == Some(b.text[..s] + mid + b.text[e..])
      && (s < e || placeholder == [] ==> Unwrap(t, s, before, |mid|, after) == Some(b.text))
  {
    var s, e := b.selStart, b.selEnd;
    var mid := if s == e then placeholder else b.text[s..e];
    UnwrapWrapped(b.text[..s], before, mid, after, b.text[e..]);
    assert b.text[..s] + b.text[s..e] + b.text[e..] == b.text;
  }

  lemma UnwrapWrapped(pre: string, before: string, mid: string, after: string, post: string)
    ensures Unwrap(pre + before + mid + after + post, |pre|, before, |mid|, after) == Some(pre + mid + post)
  {
    var t := pre + before + mid + after + post;
    var m := |pre| + |before|;
    var k := m + |mid|;
    assert t[|pre|..m] == before && t[m..k] == mid && t[k..k + |after|] == after;
    assert t[..|pre|] == pre && t[k + |after|..] == post;
  }

  /** After wrapping, the selection covers the placeholder alone when it was used, else the whole replacement. */
  lemma WrapSelectionSelects(b: Buffer, before: string, after: string, placeholder: string)
    requires b.Valid()
    ensures var r := WrapSelection(b, before, after, placeholder);
      var s, e := b.selStart, b.selEnd;
      r.text[r.selStart..r.selEnd]
        == if s == e && placeholder != [] then placeholder else before + b.text[s..e] + after
  {
    var r := WrapSelection(b, before, after, placeholder);
    var s, e := b.selStart, b.selEnd;
    var mid := if s == e then placeholder else b.text[s..e];
    assert r.text[s..s + |before| + |mid| + |after|] == before + mid + after;
    assert r.text[s + |before|..s + |before| + |mid|] == mid;
  }

  method InsertText(ed: TextArea, before: string, after: string, placeholder: string)
    requires ed.Valid()
    modifies ed
    ensures ed.Valid() && ed.State() == WrapSelection(old(ed.State()), before, after, placeholder)
  {
    var start := ed.selectionStart;
    var end := ed.selectionEnd;
    var selected := ed.value[start..end];
    var text := if selected != [] then selected else placeholder;
    var _ := ed.SetRangeText(before + text + after, start, end, Select);
    if selected == [] && placeholder != [] {
      ed.SetSelectionStart(start + |before|);
      ed.SetSelectionEnd(start + |before| + |placeholder|);
    }
  }

  // ----- insertAtLineStart -----

  /** The rewritten line: `prefix` removed when the line starts with it, otherwise added in front. */
  function ToggledLine(line: string, prefix: string): string {
    if StartsWith(line, prefix) then line[|prefix|..] else prefix + line
  }

  /** `insertAtLineStart(prefix)` (main.js:205-220) exactly as written, with the line start of main.js:207. */
  function TogglePrefixAsWritten(b: Buffer, prefix: string): Result<Buffer, DomException>
    requires b.Valid()
  {
    var start := b.selStart;
    var lineStart := LineStartAsWritten(b.text, start);
    var lineEnd := IndexOf(b.text, '\n', start);
    var actualEnd := if lineEnd == -1 then |b.text| else lineEnd;
    var line := Substring(b.text, lineStart, actualEnd);
    RangeText(b, ToggledLine(line, prefix), lineStart, actualEnd, End)
  }

  /** With the cursor at 0 of a text that begins with a newline, the call as written throws and edits nothing. */
  lemma TogglePrefixAsWrittenThrows(t: string, prefix: string)
    requires |t| > 0 && t[0] == '\n'
    ensures LineStartAsWritten(t, 0) == 1
    ensures TogglePrefixAsWritten(Buffer(t, 0, 0), prefix) == Failure(IndexSizeError)
  {
  }

  /** `insertAtLineStart(prefix)` with the line start of LineStart, so the line at offset 0 is the first line. */
  function TogglePrefix(b: Buffer, prefix: string): (r: Buffer)
    requires b.Valid()
    ensures r.Valid()
    ensures var ls, le := LineStart(b.text, b.selStart), LineEnd(b.text, b.selStart);
      var line := ToggledLine(b.text[ls..le], prefix);
      && r.text == b.text[..ls] + line + b.text[le..]
      && r.selStart == ls + |line| && r.selEnd == ls + |line|
  {
    var start := b.selStart;
    var lineStart := LineStart(b.text, start);
    var actualEnd := LineEnd(b.text, start);
    var line := Substring(b.text, lineStart, actualEnd);
    var r := RangeText(b, ToggledLine(line, prefix), lineStart, actualEnd, End).value;
    assert r.text == b.text[..lineStart] + ToggledLine(line, prefix) + b.text[actualEnd..];
    r
  }

  /** The correction changes nothing except the case where the call as written throws. */
  lemma TogglePrefixAgrees(b: Buffer, prefix: string)
    requires b.Valid()
    requires b.selStart > 0 || b.text == [] || b.text[0] != '\n'
    ensures TogglePrefixAsWritten(b, prefix) == Success(TogglePrefix(b, prefix))
  {
    assert LineStartAsWritten(b.text, b.selStart) == LineStart(b.text, b.selStart);
  }

  /** At offset 0 of a text that begins with a newline, the corrected operation edits the empty first line. */
  lemma TogglePrefixAtFirstLine(t: string, prefix: string)
    requires |t| > 0 && t[0] == '\n' && prefix != []
    ensures TogglePrefix(Buffer(t, 0, 0), prefix) == Buffer(prefix + t, |prefix|, |prefix|)
  {
    LineEndUnique(t, 0, 0);
    assert ToggledLine(t[0..0], prefix) == prefix;
    var r := TogglePrefix(Buffer(t, 0, 0), prefix);
    assert r.text == [] + prefix + t[0..];
    assert t[0..] == t;
  }

  /**
   * After toggling a newline-free prefix, the cursor sits at the end of the rewritten line,
   * which is still the cursor's line and starts where the old one did.
   */
  lemma TogglePrefixCursorLine(b: Buffer, prefix: string)
    requires b.Valid()
    requires Lacks(prefix, '\n')
    ensures var ls, le := LineStart(b.text, b.selStart), LineEnd(b.text, b.selStart);
      var r := TogglePrefix(b, prefix);
      && LineStart(r.text, r.selStart) == ls
      && LineEnd(r.text, r.selStart) == r.selStart
      && r.text[ls..r.selStart] == ToggledLine(b.text[ls..le], prefix)
  {
    var t, c := b.text, b.selStart;
    var ls, le := LineStart(t, c), LineEnd(t, c);
    ToggledLineLacks(b, prefix);
    assert ls == 0 || t[..ls][ls - 1] == '\n';
    assert le == |t| || t[le..][0] == '\n';
    SpliceLine(t[..ls], ToggledLine(t[ls..le], prefix), t[le..]);
  }

  /** The toggled line holds no newline when neither the line nor the prefix does. */
  lemma ToggledLineLacks(b: Buffer, prefix: string)
    requires b.Valid()
    requires Lacks(prefix, '\n')
    ensures var ls, le := LineStart(b.text, b.selStart), LineEnd(b.text, b.selStart);
      Lacks(ToggledLine(b.text[ls..le], prefix), '\n')
  {
    var t, c := b.text, b.selStart;
    var ls, le := LineStart(t, c), LineEnd(t, c);
    var line := t[ls..le];
    LacksConcat(t[ls..c], t[c..le], '\n');
    assert line == t[ls..c] + t[c..le];
    if !StartsWith(line, prefix) {
      LacksConcat(prefix, line, '\n');
    }
  }

  /** A newline-free `x` placed between a line break and a line break (or the ends) is a whole line. */
  lemma SpliceLine(pre: string, x: string, post: string)
    requires pre == [] || pre[|pre| - 1] == '\n'
    requires Lacks(x, '\n')
    requires post == [] || post[0] == '\n'
    ensures var u, k := pre + x + post, |pre| + |x|;
      && LineStart(u, k) == |pre|
      && LineEnd(u, k) == k
      && u[|pre|..k] == x
  {
    var u, k := pre + x + post, |pre| + |x|;
    Pieces(pre, x, post);
    assert |pre| > 0 ==> u[|pre| - 1] == pre[|pre| - 1];
    LineStartUnique(u, k, |pre|);
    assert k < |u| ==> u[k] == post[0];
    LineEndUnique(u, k, k);
  }

  /** Toggling a prefix the line did not start with, twice in a row, restores the text. */
  lemma TogglePrefixTwice(b: Buffer, prefix: string)
    requires b.Valid()
    requires Lacks(prefix, '\n')
    requires !StartsWith(b.text[LineStart(b.text, b.selStart)..LineEnd(b.text, b.selStart)], prefix)
    ensures TogglePrefix(TogglePrefix(b, prefix), prefix).text == b.text
  {
    var t, c := b.text, b.selStart;
    var ls, le := LineStart(t, c), LineEnd(t, c);
    var b1 := TogglePrefix(b, prefix);
    TogglePrefixCursorLine(b, prefix);
    ToggleStrips(b1, prefix, ls);
    DropInserted(t, ls, le, prefix, b1.text);
  }

  /** Deleting the `|m|` characters inserted at `ls` gives back the text. */
  lemma DropInserted(t: string, ls: nat, le: nat, m: string, t1: string)
    requires ls <= le <= |t|
    requires t1 == t[..ls] + (m + t[ls..le]) + t[le..]
    ensures t1[..ls] + t1[ls + |m|..] == t
  {
    assert t1[..ls] == t[..ls];
    assert t1[ls + |m|..] == t[ls..le] + t[le..];
    assert t[..ls] + (t[ls..le] + t[le..]) == t;
  }

  /** When the cursor's line starts with the prefix, toggling deletes exactly that prefix. */
  lemma ToggleStrips(b: Buffer, prefix: string, ls: nat)
    requires b.Valid()
    requires ls == LineStart(b.text, b.selStart) && LineEnd(b.text, b.selStart) == b.selStart
    requires StartsWith(b.text[ls..b.selStart], prefix)
    ensures TogglePrefix(b, prefix).text == b.text[..ls] + b.text[ls + |prefix|..]
  {
    assert b.text[ls..b.selStart][|prefix|..] + b.text[b.selStart..] == b.text[ls + |prefix|..];
  }

  /** A concatenation lacks a character when both parts do. */
  lemma LacksConcat(x: string, y: string, ch: char)
    requires Lacks(x, ch) && Lacks(y, ch)
    ensures Lacks(x + y, ch)
  {
  }

  /** The three parts of `a + m + z`, recovered by slicing. */
  lemma Pieces(a: string, m: string, z: string)
    ensures (a + m + z)[..|a|] == a
    ensures (a + m + z)[|a|..|a| + |m|] == m
    ensures (a + m + z)[|a| + |m|..] == z
  {
  }

  // ----- insertBlock -----

  /** The newlines main.js:225-226 put in front of a block, given the text before the cursor. */
  function BlockPrefix(before: string): (p: string)
    ensures |p| <= 2 && forall i :: 0 <= i < |p| ==> p[i] == '\n'
    ensures before == [] ==> p == []
    ensures before != [] ==> EndsWith(before + p, "\n\n")
    ensures forall k :: 0 <= k < |p| ==> !EndsWith(before + p[..k], "\n\n")
  {
    var needsNewline := |before| > 0 && !EndsWith(before, "\n\n");
    if needsNewline then (if EndsWith(before, "\n") then "\n" else "\n\n") else ""
  }

  /** `insertBlock(text)` (main.js:222-231). */
  function InsertBlockResult(b: Buffer, block: string): (r: Buffer)
    requires b.Valid()
    ensures r.Valid()
    ensures var p := BlockPrefix(b.text[..b.selStart]);
      && r.text == b.text[..b.selStart] + (p + block + "\n") + b.text[b.selEnd..]
      && r.selStart == r.selEnd == b.selStart + |p| + |block| + 1
  {
    var start := b.selStart;
    var before := b.text[..start];
    var replacement := BlockPrefix(before) + block + "\n";
    var r := RangeText(b, replacement, start, b.selEnd, End).value;
    assert r.text == b.text[..start] + replacement + b.text[b.selEnd..];
    r
  }

  /** The inserted block begins a paragraph: what precedes it is empty or ends with a blank line. */
  lemma BlockStartsParagraph(b: Buffer, block: string)
    requires b.Valid()
    ensures var k := b.selStart + |BlockPrefix(b.text[..b.selStart])|;
      var t := InsertBlockResult(b, block).text;
      k <= |t| && (k == 0 || EndsWith(t[..k], "\n\n"))
  {
    var p := BlockPrefix(b.text[..b.selStart]);
    var t := InsertBlockResult(b, block).text;
    assert t[..b.selStart + |p|] == b.text[..b.selStart] + p;
  }

  method InsertBlock(ed: TextArea, block: string)
    requires ed.Valid()
    modifies ed
    ensures ed.Valid() && ed.State() == InsertBlockResult(old(ed.State()), block)
  {
    var start := ed.selectionStart;
    var before := ed.value[..start];
    var needsNewline := |before| > 0 && !EndsWith(before, "\n\n");
    var prefix := if needsNewline then (if EndsWith(before, "\n") then "\n" else "\n\n") else "";
    var _ := ed.SetRangeText(prefix + block + "\n", start, ed.selectionEnd, End);
  }

  method InsertAtLineStart(ed: TextArea, prefix: string)
    requires ed.Valid()
    modifies ed
    ensures ed.Valid() && ed.State() == TogglePrefix(old(ed.State()), prefix)
  {
    var start := ed.selectionStart;
    var lineStart := LineStart(ed.value, start);
    var lineEnd := IndexOf(ed.value, '\n', start);
    var actualEnd := if lineEnd == -1 then |ed.value| else lineEnd;
    var line := Substring(ed.value, lineStart, actualEnd);
    if StartsWith(line, prefix) {
      var _ := ed.SetRangeText(line[|prefix|..], lineStart, actualEnd, End);
    } else {
      var _ := ed.SetRangeText(prefix + line, lineStart, actualEnd, End);
    }
  }

  // ----- Tab -----

  /** The Tab branch of the keydown handler (main.js:351-357): two spaces at the selection start. */
  function IndentResult(b: Buffer): (r: Buffer)
    requires b.Valid()
    ensures r.Valid()
    ensures r.text == b.text[..b.selStart] + "  " + b.text[b.selStart..]
    ensures r.selStart == r.selEnd == b.selStart + 2
  {
    var r := RangeText(b, "  ", b.selStart, b.selStart, End).value;
    assert r.text == b.text[..b.selStart] + "  " + b.text[b.selStart..];
    r
  }

  /** Deleting the two characters before the cursor undoes Tab. */
  lemma IndentUndone(b: Buffer)
    requires b.Valid()
    ensures var r := IndentResult(b);
      r.selStart >= 2 && r.text[r.selStart - 2..r.selStart] == "  "
      && r.text[..r.selStart - 2] + r.text[r.selStart..] == b.text
  {
    var r := IndentResult(b);
    assert r.text[..b.selStart] == b.text[..b.selStart];
    assert r.text[b.selStart + 2..] == b.text[b.selStart..];
    assert b.text[..b.selStart] + b.text[b.selStart..] == b.text;
  }

  method IndentWithTab(ed: TextArea)
    requires ed.Valid()
    modifies ed
    ensures ed.Valid() && ed.State() == IndentResult(old(ed.State()))
  {
    var start := ed.selectionStart;
    var _ := ed.SetRangeText("  ", start, start, End);
  }

  // ----- AI result insertion -----

  /** main.js:653-655: a blank line goes before the result unless the text before the cursor is empty or ends a line. */
  function ResultPrefix(before: string): (p: string)
    ensures p == [] || p == "\n\n"
    ensures p == [] <==> before == [] || EndsWith(before, "\n")
  {
    var needsNewline := |before| > 0 && !EndsWith(before, "\n");
    if needsNewline then "\n\n" else ""
  }

  /** The AI-result insertion (main.js:650-660). */
  function InsertResultResult(b: Buffer, result: string): (r: Buffer)
    requires b.Valid()
    ensures r.Valid()
    ensures var p := ResultPrefix(b.text[..b.selStart]);
      && r.text == b.text[..b.selStart] + p + result + b.text[b.selEnd..]
      && r.selStart == r.selEnd == b.selStart + |p| + |result|
  {
    var start := b.selStart;
    var replacement := ResultPrefix(b.text[..start]) + result;
    var r := RangeText(b, replacement, start, b.selEnd, End).value;
    assert r.text == b.text[..start] + replacement + b.text[b.selEnd..];
    r
  }

  /** The inserted result begins a line, and a blank line when a prefix was needed. */
  lemma ResultStartsLine(b: Buffer, result: string)
    requires b.Valid()
    ensures var p := ResultPrefix(b.text[..b.selStart]);
      var k := b.selStart + |p|;
      var t := InsertResultResult(b, result).text;
      && k <= |t|
      && (k == 0 || t[k - 1] == '\n')
      && (p != [] ==> t[k - 2..k] == "\n\n")
      && t[k..k + |result|] == result
  {
    var p := ResultPrefix(b.text[..b.selStart]);
    var t := InsertResultResult(b, result).text;
    assert t[..b.selStart] == b.text[..b.selStart];
    assert t[b.selStart..b.selStart + |p|] == p;
  }

  method InsertAiResult(ed: TextArea, result: string)
    requires ed.Valid()
    modifies ed
    ensures ed.Valid() && ed.State() == InsertResultResult(old(ed.State()), result)
  {
    var start := ed.selectionStart;
    var before := ed.value[..start];
    var needsNewline := |before| > 0 && !EndsWith(before, "\n");
    var prefix := if needsNewline then "\n\n" else "";
    var _ := ed.SetRangeText(prefix + result, start, ed.selectionEnd, End);
  }
}

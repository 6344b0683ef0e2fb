/**
 * The text control the editor writes through: a textarea's value and selection, and the
 * operations of the HTML Living Standard, "APIs for the text control selections", that the
 * editor calls — `setRangeText(replacement, start, end, selectionMode)`, the
 * `selectionStart`/`selectionEnd` setters, and the `value` setter.
 */
module TextControl {
  import opened Wrappers
  import opened JsStrings

  /** The two selection modes the editor passes to `setRangeText`. */
  datatype SelectionMode = Select | End

  /** The exception `setRangeText` throws when `start` is after `end`. */
  datatype DomException = IndexSizeError

  /**
   * The API value of a textarea: its raw value with every CR LF pair and every lone CR
   * replaced by a single LF.
   */
  function NormalizeNewlines(s: string): (r: string)
    ensures Lacks(r, '\r')
    ensures |r| <= |s|
    decreases |s|
  {
    if s == [] then []
    else if s[0] == '\r' then "\n" + NormalizeNewlines(if |s| > 1 && s[1] == '\n' then s[2..] else s[1..])
    else [s[0]] + NormalizeNewlines(s[1..])
  }

  /** Text without CR is its own normal form. */
  lemma {:induction false} NormalizeKeepsPlainText(s: string)
    requires Lacks(s, '\r')
    ensures NormalizeNewlines(s) == s
  {
    if s != [] {
      assert s[0] != '\r';
      NormalizeKeepsPlainText(s[1..]);
    }
  }

  /** A CR LF pair becomes one LF. */
  lemma {:induction false} NormalizeCrLf(p: string, q: string)
    requires Lacks(p, '\r')
    ensures NormalizeNewlines(p + "\r\n" + q) == p + "\n" + NormalizeNewlines(q)
  {
    var s := p + "\r\n" + q;
    if p == [] {
      assert s == "\r\n" + q && s[2..] == q;
    } else {
      assert s[0] == p[0] != '\r' && s[1..] == p[1..] + "\r\n" + q;
      assert NormalizeNewlines(s) == [p[0]] + NormalizeNewlines(p[1..] + "\r\n" + q);
      NormalizeCrLf(p[1..], q);
      assert [p[0]] + (p[1..] + "\n" + NormalizeNewlines(q)) == p + "\n" + NormalizeNewlines(q);
    }
  }

  /** A CR not followed by LF becomes one LF. */
  lemma {:induction false} NormalizeLoneCr(p: string, q: string)
    requires Lacks(p, '\r') && (q == [] || q[0] != '\n')
    ensures NormalizeNewlines(p + "\r" + q) == p + "\n" + NormalizeNewlines(q)
  {
    var s := p + "\r" + q;
    if p == [] {
      assert s[0] == '\r' && s[1..] == q && (|s| > 1 ==> s[1] == q[0] != '\n');
      assert NormalizeNewlines(s) == "\n" + NormalizeNewlines(s[1..]);
    } else {
      assert s[0] == p[0] != '\r' && s[1..] == p[1..] + "\r" + q;
      assert NormalizeNewlines(s) == [p[0]] + NormalizeNewlines(p[1..] + "\r" + q);
      NormalizeLoneCr(p[1..], q);
      assert [p[0]] + (p[1..] + "\n" + NormalizeNewlines(q)) == p + "\n" + NormalizeNewlines(q);
    }
  }

  /** Normalising twice is normalising once. */
  lemma NormalizeIdempotent(s: string)
    ensures NormalizeNewlines(NormalizeNewlines(s)) == NormalizeNewlines(s)
  {
    NormalizeKeepsPlainText(NormalizeNewlines(s));
  }

  /** The textarea as a value: its text and its selection range. */
  datatype Buffer = Buffer(text: string, selStart: nat, selEnd: nat) {
    predicate Valid() {
      selStart <= selEnd <= |text|
    }
  }

  function Min(a: nat, b: nat): nat {
    if a <= b then a else b
  }

  /**
   * `setRangeText(replacement, start, end, mode)`: throws when `start > end`; otherwise
   * clamps both offsets to the length, replaces that range by `replacement`, and either
   * selects the inserted text (`Select`) or puts the cursor just after it (`End`).
   */
  function RangeText(b: Buffer, replacement: string, start: nat, end: nat, mode: SelectionMode): (r: Result<Buffer, DomException>)
    ensures r.Failure? <==> start > end
    ensures r.Success? ==>
      var s, e := Min(start, |b.text|), Min(end, |b.text|);
      var n := s + |replacement|;
      && r.value.Valid()
      && |r.value.text| == |b.text| - (e - s) + |replacement|
      && r.value.text[..s] == b.text[..s]
      && r.value.text[s..n] == replacement
      && r.value.text[n..] == b.text[e..]
      && (mode == Select ==> r.value.selStart == s && r.value.selEnd == n)
      && (mode == End ==> r.value.selStart == n && r.value.selEnd == n)
  {
    if start > end then Failure(IndexSizeError)
    else
      var s, e := Min(start, |b.text|), Min(end, |b.text|);
      var text := b.text[..s] + replacement + b.text[e..];
      var n := s + |replacement|;
      assert text[..s] == b.text[..s] && text[s..n] == replacement && text[n..] == b.text[e..];
      match mode
      case Select => Success(Buffer(text, s, n))
      case End => Success(Buffer(text, n, n))
  }

  /**
   * "Set the selection range": offsets past the end point at the end, and when the end
   * is not after the start both ends collapse onto `end`.
   */
  function SelectRange(b: Buffer, start: nat, end: nat): (r: Buffer)
    ensures r.text == b.text && r.Valid()
    ensures start <= end <= |b.text| ==> r.selStart == start && r.selEnd == end
  {
    var s, e := Min(start, |b.text|), Min(end, |b.text|);
    if e <= s then Buffer(b.text, e, e) else Buffer(b.text, s, e)
  }

  /** The `selectionStart` setter: an end before the new start is first moved up to it. */
  function WithSelectionStart(b: Buffer, v: nat): Buffer {
    SelectRange(b, v, if b.selEnd < v then v else b.selEnd)
  }

  /** The `selectionEnd` setter. */
  function WithSelectionEnd(b: Buffer, v: nat): Buffer {
    SelectRange(b, b.selStart, v)
  }

  /** A textarea element: the editor changes its value and selection in place. */
  class TextArea {
    var value: string
    var selectionStart: nat
    var selectionEnd: nat

    ghost predicate Valid()
      reads this
    {
      selectionStart <= selectionEnd <= |value|
    }

    function State(): Buffer
      reads this
    {
      Buffer(value, selectionStart, selectionEnd)
    }

    constructor (initial: string)
      ensures Valid() && State() == Buffer(initial, |initial|, |initial|)
    {
      value := initial;
      selectionStart, selectionEnd := |initial|, |initial|;
    }

    /**
     * Assigning `value`: the control holds the value with its line breaks normalised, and a
     * value that differs, once normalised, from the old one moves the cursor to its end.
     */
    method SetValue(v: string)
      requires Valid()
      modifies this
      ensures Valid()
      ensures var n := NormalizeNewlines(v);
        State() == if n == old(value) then old(State()) else Buffer(n, |n|, |n|)
    {
      var n := NormalizeNewlines(v);
      if n != value {
        value := n;
        selectionStart, selectionEnd := |n|, |n|;
      }
    }

    /** `setRangeText`; `ok` is false when it threw, and then nothing changed. */
    method SetRangeText(replacement: string, start: nat, end: nat, mode: SelectionMode) returns (ok: bool)
      modifies this
      ensures ok <==> start <= end
      ensures ok ==> Valid() && State() == RangeText(old(State()), replacement, start, end, mode).value
      ensures !ok ==> State() == old(State())
    {
      var r := RangeText(State(), replacement, start, end, mode);
      ok := r.Success?;
      if ok {
        value, selectionStart, selectionEnd := r.value.text, r.value.selStart, r.value.selEnd;
      }
    }

    method SetSelectionStart(v: nat)
      modifies this
      ensures Valid() && State() == WithSelectionStart(old(State()), v)
    {
      var r := WithSelectionStart(State(), v);
      selectionStart, selectionEnd := r.selStart, r.selEnd;
    }

    method SetSelectionEnd(v: nat)
      modifies this
      ensures Valid() && State() == WithSelectionEnd(old(State()), v)
    {
      var r := WithSelectionEnd(State(), v);
      selectionStart, selectionEnd := r.selStart, r.selEnd;
    }
  }
}

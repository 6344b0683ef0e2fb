/**
 * The counts main.js shows under the editor (main.js:84-101): words, characters and lines
 * of the textarea's value, and the empty-preview test of main.js:57-59.
 */
module EditorStats {
  import opened JsStrings

  /** No white space anywhere in `s`. */
  predicate NoSpace(s: string) {
    forall i :: 0 <= i < |s| ==> !IsSpace(s[i])
  }

  /** Number of characters before the first white space of `s`. */
  function NonSpaceRun(s: string): (n: nat)
    ensures n <= |s|
  {
    if |s| > 0 && !IsSpace(s[0]) then 1 + NonSpaceRun(s[1..]) else 0
  }

  /** The run has no white space and ends at white space or at the end of `s`. */
  lemma {:induction false} NonSpaceRunStops(s: string)
    ensures NoSpace(s[..NonSpaceRun(s)])
    ensures NonSpaceRun(s) < |s| ==> IsSpace(s[NonSpaceRun(s)])
  {
    if |s| > 0 && !IsSpace(s[0]) {
      var k := NonSpaceRun(s[1..]);
      NonSpaceRunStops(s[1..]);
      assert s[..1 + k] == [s[0]] + s[1..][..k];
    }
  }

  /**
   * `s.split(/\s+/)`: the pieces between maximal runs of white space. A run at the start or
   * at the end yields an empty first or last piece, and the empty string splits into `[""]`.
   */
  function SplitSpace(s: string): (r: seq<string>)
    ensures |r| >= 1
    decreases |s|
  {
    var n := NonSpaceRun(s);
    NonSpaceRunStops(s);
    if n == |s| then
      assert s[..n] == s;
      [s]
    else
      var m := LeadingSpace(s[n..]);
      [s[..n]] + SplitSpace(s[n + m..])
  }

  /**
   * The white-space runs `split(/\s+/)` cuts `s` at, in order: the separators between the
   * pieces of SplitSpace.
   */
  function SpaceRuns(s: string): seq<string>
    decreases |s|
  {
    var n := NonSpaceRun(s);
    NonSpaceRunStops(s);
    if n == |s| then []
    else
      var m := LeadingSpace(s[n..]);
      [s[n..n + m]] + SpaceRuns(s[n + m..])
  }

  /** Pieces with the separators `gs` between them: `ws[0] + gs[0] + ws[1] + ...`. */
  function JoinWith(ws: seq<string>, gs: seq<string>): string
    requires |ws| >= 1 && |gs| == |ws| - 1
  {
    if |ws| == 1 then ws[0] else ws[0] + gs[0] + JoinWith(ws[1..], gs[1..])
  }

  /** Separators as `\s+` matches them: non-empty runs of white space. */
  predicate Gaps(gs: seq<string>) {
    forall i :: 0 <= i < |gs| ==> gs[i] != [] && AllSpace(gs[i])
  }

  /** Words as `split(/\s+/)` produces them from trimmed text: none empty and none with white space. */
  predicate Words(ws: seq<string>) {
    |ws| >= 1 && forall i :: 0 <= i < |ws| ==> ws[i] != [] && NoSpace(ws[i])
  }

  /** The word count of main.js:93: 0 for blank text, else the pieces of the trimmed text split at white space. */
  function WordCount(content: string): nat {
    var t := Trim(content);
    if t != [] then |SplitSpace(t)| else 0
  }

  /** `content.split('\n')`: the pieces between newlines. */
  function SplitLines(s: string): (r: seq<string>)
    ensures |r| >= 1
    ensures forall i :: 0 <= i < |r| ==> Lacks(r[i], '\n')
    decreases |s|
  {
    var k := FirstFrom(s, '\n', 0);
    if k == -1 then [s] else [s[..k]] + SplitLines(s[k + 1..])
  }

  /** Lines joined by newlines. */
  function JoinLines(ls: seq<string>): string
    requires |ls| >= 1
  {
    if |ls| == 1 then ls[0] else ls[0] + "\n" + JoinLines(ls[1..])
  }

  /** Number of occurrences of `c` in `s`. */
  function Occurrences(s: string, c: char): nat {
    if s == [] then 0 else (if s[0] == c then 1 else 0) + Occurrences(s[1..], c)
  }

  /** The line count of main.js:86 and main.js:95. */
  function LineCount(content: string): nat {
    |SplitLines(content)|
  }

  /** The preview shows its placeholder instead of rendered markdown (main.js:59). */
  predicate ShowsPlaceholder(content: string) {
    Trim(content) == []
  }

  /** The counts main.js:91-95 displays. */
  datatype Stats = Stats(words: nat, chars: nat, lines: nat)

  function ComputeStats(content: string): (r: Stats)
    ensures r.chars == |content|
    ensures r.words == 0 <==> AllSpace(content)
    ensures r.lines == Occurrences(content, '\n') + 1
  {
    BlankHasNoWords(content);
    LineCountIsNewlinesPlusOne(content);
    Stats(WordCount(content), |content|, LineCount(content))
  }

  // ----- Words -----

  /** Blank text has no words and shows the placeholder; any other text has at least one word. */
  lemma BlankHasNoWords(content: string)
    ensures WordCount(content) == 0 <==> AllSpace(content)
    ensures ShowsPlaceholder(content) <==> AllSpace(content)
  {
  }

  /** The pieces and the white-space runs between them put back together give the text. */
  lemma {:induction false} SplitCoversText(s: string)
    ensures |SpaceRuns(s)| == |SplitSpace(s)| - 1
    ensures Gaps(SpaceRuns(s))
    ensures JoinWith(SplitSpace(s), SpaceRuns(s)) == s
    decreases |s|
  {
    if NonSpaceRun(s) == |s| {
      assert s[..|s|] == s;
    } else {
      var n, m := SplitStep(s);
      var w, g, rest := s[..n], s[n..n + m], s[n + m..];
      SplitCoversText(rest);
      GapsCons(g, SpaceRuns(rest));
      JoinCons(w, g, SplitSpace(rest), SpaceRuns(rest));
      Slices(s, n, n + m);
    }
  }

  lemma Slices(s: string, i: nat, j: nat)
    requires i <= j <= |s|
    ensures s[..i] + s[i..j] + s[j..] == s
  {
  }

  /** One step of the split: the first piece, then the white-space run after it, then the rest. */
  lemma SplitStep(s: string) returns (n: nat, m: nat)
    requires NonSpaceRun(s) < |s|
    ensures n == NonSpaceRun(s) && 0 < m && n + m <= |s| && m == LeadingSpace(s[n..])
    ensures NoSpace(s[..n]) && (!IsSpace(s[0]) ==> n > 0)
    ensures AllSpace(s[n..n + m])
    ensures SplitSpace(s) == [s[..n]] + SplitSpace(s[n + m..])
    ensures SpaceRuns(s) == [s[n..n + m]] + SpaceRuns(s[n + m..])
  {
    n := NonSpaceRun(s);
    NonSpaceRunStops(s);
    m := LeadingSpace(s[n..]);
    assert s[n..n + m] == s[n..][..m];
    SplitSpaceStep(s, n, m);
    SpaceRunsStep(s, n, m);
  }

  lemma SplitSpaceStep(s: string, n: nat, m: nat)
    requires n == NonSpaceRun(s) < |s| && m == LeadingSpace(s[n..])
    ensures SplitSpace(s) == [s[..n]] + SplitSpace(s[n + m..])
  {
  }

  lemma SpaceRunsStep(s: string, n: nat, m: nat)
    requires n == NonSpaceRun(s) < |s| && m == LeadingSpace(s[n..])
    ensures SpaceRuns(s) == [s[n..n + m]] + SpaceRuns(s[n + m..])
  {
  }

  lemma GapsCons(g: string, gs: seq<string>)
    requires g != [] && AllSpace(g) && Gaps(gs)
    ensures Gaps([g] + gs)
  {
  }

  lemma JoinCons(w: string, g: string, ws: seq<string>, gs: seq<string>)
    requires |ws| >= 1 && |gs| == |ws| - 1
    ensures JoinWith([w] + ws, [g] + gs) == w + g + JoinWith(ws, gs)
  {
    assert ([w] + ws)[1..] == ws && ([g] + gs)[1..] == gs;
  }

  /** Splitting words joined by runs of white space gives back the words. */
  lemma {:induction false} SplitJoin(ws: seq<string>, gs: seq<string>)
    requires Words(ws) && |gs| == |ws| - 1 && Gaps(gs)
    ensures SplitSpace(JoinWith(ws, gs)) == ws
  {
    if |ws| == 1 {
      RunStopsAtSpace(ws[0], []);
      assert ws[0] + [] == ws[0];
    } else {
      SplitJoin(ws[1..], gs[1..]);
      JoinStartsWithWord(ws[1..], gs[1..]);
      SplitAtGap(ws[0], gs[0], JoinWith(ws[1..], gs[1..]));
    }
  }

  /** A word, a run of white space and text starting with a word split into that word and the pieces of the text. */
  lemma SplitAtGap(w: string, g: string, rest: string)
    requires NoSpace(w) && g != [] && AllSpace(g) && rest != [] && !IsSpace(rest[0])
    ensures SplitSpace(w + g + rest) == [w] + SplitSpace(rest)
  {
    var s := w + g + rest;
    assert s == w + (g + rest);
    RunStopsAtSpace(w, g + rest);
    assert s[..|w|] == w;
    assert s[|w|..] == g + rest;
    GapLength(g, rest);
    assert s[|w| + |g|..] == rest;
  }

  /** `\s+` takes the whole run of white space and stops at the next word. */
  lemma GapLength(g: string, rest: string)
    requires AllSpace(g) && rest != [] && !IsSpace(rest[0])
    ensures LeadingSpace(g + rest) == |g|
  {
    var x := g + rest;
    assert forall i :: 0 <= i < |g| ==> x[i] == g[i];
    assert x[|g|] == rest[0];
  }

  /** Trimmed text that is not blank splits into words: no piece is empty. */
  lemma {:induction false} SplitTrimmed(s: string)
    requires s != [] && !IsSpace(s[0]) && !IsSpace(s[|s| - 1])
    ensures Words(SplitSpace(s))
    decreases |s|
  {
    if NonSpaceRun(s) < |s| {
      var n, m := SplitStep(s);
      NextWordStarts(s, n, m);
      var rest := s[n + m..];
      SplitTrimmed(rest);
      WordsCons(s[..n], SplitSpace(rest));
    } else {
      NonSpaceRunStops(s);
      assert s[..|s|] == s;
    }
  }

  /** In text ending in a word, the white-space run after a piece is followed by the next word. */
  lemma NextWordStarts(s: string, n: nat, m: nat)
    requires n < |s| && !IsSpace(s[|s| - 1]) && m == LeadingSpace(s[n..])
    ensures n + m < |s| && !IsSpace(s[n + m]) && !IsSpace(s[n + m..][|s| - n - m - 1])
  {
    assert s[n..][|s| - n - 1] == s[|s| - 1];
    assert m < |s[n..]|;
    assert s[n..][m] == s[n + m];
  }

  lemma WordsCons(w: string, ws: seq<string>)
    requires w != [] && NoSpace(w) && Words(ws)
    ensures Words([w] + ws)
  {
  }

  /**
   * Text that is not blank is white space, then words separated by runs of white space, then
   * white space; its word count is the number of those words.
   */
  lemma WordsOfText(content: string)
    requires !AllSpace(content)
    ensures var t := Trim(content);
      && Words(SplitSpace(t)) && Gaps(SpaceRuns(t)) && |SpaceRuns(t)| == |SplitSpace(t)| - 1
      && JoinWith(SplitSpace(t), SpaceRuns(t)) == t
      && WordCount(content) == |SplitSpace(t)|
  {
    SplitTrimmed(Trim(content));
    SplitCoversText(Trim(content));
  }

  /** The run of non-white-space characters ends where white space follows. */
  lemma {:induction false} RunStopsAtSpace(w: string, t: string)
    requires NoSpace(w) && (t == [] || IsSpace(t[0]))
    ensures NonSpaceRun(w + t) == |w|
  {
    if w != [] {
      assert (w + t)[1..] == w[1..] + t;
      RunStopsAtSpace(w[1..], t);
    } else {
      assert w + t == t;
    }
  }

  /** Text joined from words starts with the first word's first character and ends with the last word's last. */
  lemma {:induction false} JoinStartsWithWord(ws: seq<string>, gs: seq<string>)
    requires Words(ws) && |gs| == |ws| - 1
    ensures var s := JoinWith(ws, gs);
      s != [] && s[0] == ws[0][0] && s[|s| - 1] == ws[|ws| - 1][|ws[|ws| - 1]| - 1]
  {
    if |ws| > 1 {
      JoinStartsWithWord(ws[1..], gs[1..]);
    }
  }

  /**
   * The word count of `n` words separated by runs of white space, with any white space
   * before and after, is `n`.
   */
  lemma CountJoinedWords(p: string, ws: seq<string>, gs: seq<string>, q: string)
    requires AllSpace(p) && AllSpace(q)
    requires Words(ws) && |gs| == |ws| - 1 && Gaps(gs)
    ensures WordCount(p + JoinWith(ws, gs) + q) == |ws|
  {
    var s := JoinWith(ws, gs);
    JoinStartsWithWord(ws, gs);
    TrimPadded(p, s, q);
    SplitJoin(ws, gs);
  }

  // ----- Lines -----

  /** Joining the lines back with newlines gives the text. */
  lemma {:induction false} JoinSplitLines(s: string)
    ensures JoinLines(SplitLines(s)) == s
    decreases |s|
  {
    var k := FirstFrom(s, '\n', 0);
    if k != -1 {
      var rest := s[k + 1..];
      JoinSplitLines(rest);
      assert SplitLines(s) == [s[..k]] + SplitLines(rest);
      JoinLinesCons(s[..k], SplitLines(rest));
      Slices(s, k, k + 1);
      assert s[k..k + 1] == "\n";
    } else {
      assert SplitLines(s) == [s];
    }
  }

  lemma JoinLinesCons(l: string, ls: seq<string>)
    requires |ls| >= 1
    ensures JoinLines([l] + ls) == l + "\n" + JoinLines(ls)
  {
    assert ([l] + ls)[1..] == ls;
  }

  /** There is one more line than there are newlines; the empty text has one line. */
  lemma {:induction false} LineCountIsNewlinesPlusOne(s: string)
    ensures LineCount(s) == Occurrences(s, '\n') + 1
    decreases |s|
  {
    var k := FirstFrom(s, '\n', 0);
    if k == -1 {
      NoOccurrences(s, '\n');
    } else {
      LineCountIsNewlinesPlusOne(s[k + 1..]);
      NoOccurrences(s[..k], '\n');
      OccurrencesAppend(s[..k], s[k..], '\n');
      assert s[..k] + s[k..] == s;
      assert s[k..] == [s[k]] + s[k + 1..];
      OccurrencesAppend([s[k]], s[k + 1..], '\n');
    }
  }

  lemma {:induction false} NoOccurrences(s: string, c: char)
    requires Lacks(s, c)
    ensures Occurrences(s, c) == 0
  {
    if s != [] {
      NoOccurrences(s[1..], c);
    }
  }

  lemma {:induction false} OccurrencesAppend(a: string, b: string, c: char)
    ensures Occurrences(a + b, c) == Occurrences(a, c) + Occurrences(b, c)
  {
    if a != [] {
      assert (a + b)[1..] == a[1..] + b;
      OccurrencesAppend(a[1..], b, c);
    } else {
      assert a + b == b;
    }
  }
}

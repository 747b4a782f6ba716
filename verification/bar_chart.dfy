/** The bar chart of the top dishes or restaurants: `splitLabel` word-wraps
    each label, and only the first five groups are drawn. */
module BarChart {
  import opened Wrappers
  import opened Strings
  import opened Groups

  /** The wrapping width the chart uses. */
  const MaxCharsPerLine: int := 15

  /** How many groups the chart draws. */
  const ShownBars: nat := 5

  /** The state of the `forEach`: the finished lines and the line being
      built, which ends in a space once a word is on it. */
  datatype Wrap = Wrap(lines: seq<string>, line: string)

  /** `(line + word).length > maxChars`, lengths in UTF-16 code units. */
  predicate Overflows(line: string, word: string, maxChars: int) {
    JsLength(line) + JsLength(word) > maxChars
  }

  /** One word: start a new line when the word does not fit on the current
      one, else append it. */
  function Step(st: Wrap, word: string, maxChars: int): Wrap {
    if Overflows(st.line, word, maxChars) then Wrap(st.lines + [Trim(st.line)], word + " ")
    else Wrap(st.lines, st.line + word + " ")
  }

  /** The `forEach` over the words, from the empty state. */
  function WrapWords(words: seq<string>, maxChars: int): Wrap {
    if words == [] then Wrap([], "") else Step(WrapWords(words[..|words| - 1], maxChars), words[|words| - 1], maxChars)
  }

  /** `label.split(' ')`. */
  function Words(text: string): seq<string> {
    Split(text, " ")
  }

  /** What `splitLabel(label, maxChars)` returns. */
  function Wrapped(text: string, maxChars: int): seq<string> {
    var st := WrapWords(Words(text), maxChars);
    if st.line != "" then st.lines + [Trim(st.line)] else st.lines
  }

  /** `splitLabel`. */
  method SplitLabel(text: string, maxCharsPerLine: int) returns (result: seq<string>)
    ensures result == Wrapped(text, maxCharsPerLine)
  {
    var words := Split(text, " ");
    result := [];
    var line := "";
    for k := 0 to |words|
      invariant Wrap(result, line) == WrapWords(words[..k], maxCharsPerLine)
    {
      assert words[..k + 1][..k] == words[..k];
      var word := words[k];
      JsLengthAppend(line, word);
      if JsLength(line + word) > maxCharsPerLine {
        result := result + [Trim(line)];
        line := word + " ";
      } else {
        line := line + word + " ";
      }
    }
    assert words[..|words|] == words;
    if line != "" {
      result := result + [Trim(line)];
    }
  }

  /** After at least one word the current line is never empty, and it ends
      in a space. */
  lemma LineAfterWords(words: seq<string>, maxChars: int)
    requires words != []
    ensures var line := WrapWords(words, maxChars).line;
      line != "" && line[|line| - 1] == ' '
  {
  }

  /** There is always at least one line, even for the empty label. */
  lemma AtLeastOneLine(text: string, maxChars: int)
    ensures |Wrapped(text, maxChars)| >= 1
  {
    LineAfterWords(Words(text), maxChars);
  }

  /** Word `k` starts a new line exactly when the current line and the word
      together are longer than the limit; the line it closes is emitted
      trimmed, and nothing else is emitted. */
  lemma BreakExactlyWhenTooLong(words: seq<string>, maxChars: int, k: nat)
    requires k < |words|
    ensures var before := WrapWords(words[..k], maxChars);
      var after := WrapWords(words[..k + 1], maxChars);
      (|after.lines| == |before.lines| + 1 <==> JsLength(before.line) + JsLength(words[k]) > maxChars) &&
      (|after.lines| == |before.lines| + 1 ==> after.lines[|before.lines|] == Trim(before.line) && after.line == words[k] + " ") &&
      (|after.lines| == |before.lines| ==> after.lines == before.lines && after.line == before.line + words[k] + " ")
  {
    assert words[..k + 1][..k] == words[..k];
  }

  /** Lines once emitted stay: the state after a prefix of the words emits a
      prefix of the lines. */
  lemma {:induction false} LinesOnlyGrow(words: seq<string>, maxChars: int, k: nat)
    requires k <= |words|
    ensures var lines := WrapWords(words, maxChars).lines;
      var early := WrapWords(words[..k], maxChars).lines;
      |early| <= |lines| && lines[..|early|] == early
    decreases |words|
  {
    if k < |words| {
      var n := |words| - 1;
      assert words[..n][..k] == words[..k];
      LinesOnlyGrow(words[..n], maxChars, k);
    } else {
      assert words[..k] == words;
    }
  }

  /** When the first word alone is longer than the limit, the first line is
      the empty string. */
  lemma FirstLineEmptyWhenFirstWordTooLong(text: string, maxChars: int)
    requires JsLength(Words(text)[0]) > maxChars
    ensures Wrapped(text, maxChars)[0] == ""
  {
    FirstLineEmpty(Words(text), maxChars);
  }

  lemma FirstLineEmpty(words: seq<string>, maxChars: int)
    requires words != [] && JsLength(words[0]) > maxChars
    ensures |WrapWords(words, maxChars).lines| >= 1 && WrapWords(words, maxChars).lines[0] == ""
  {
    assert words[..1] == [words[0]];
    FirstWordAlone(words[0], maxChars);
    LinesOnlyGrow(words, maxChars, 1);
  }

  lemma FirstWordAlone(w: string, maxChars: int)
    requires JsLength(w) > maxChars
    ensures WrapWords([w], maxChars).lines == [""]
  {
    assert [w][..0] == [];
    assert "" + w == w;
    assert TrimStart("") == "";
  }

  // ---------------------------------------------------------------------
  // Long lines
  // ---------------------------------------------------------------------

  /** A finished line is within the limit, or is one trimmed word. */
  predicate LineFits(l: string, words: seq<string>, maxChars: int) {
    JsLength(l) <= maxChars || exists w :: w in words && l == Trim(w)
  }

  /** The current line is empty, at most one space over the limit, or one
      word and its space. */
  predicate OpenLineFits(line: string, words: seq<string>, maxChars: int) {
    line == "" || JsLength(line) <= maxChars + 1 || exists w :: w in words && line == w + " "
  }

  /** Closing a line that fits gives a finished line that fits. */
  lemma CloseFits(line: string, words: seq<string>, maxChars: int)
    requires maxChars >= 0
    requires line == "" || line[|line| - 1] == ' '
    requires OpenLineFits(line, words, maxChars)
    ensures LineFits(Trim(line), words, maxChars)
  {
    if line == "" {
      assert TrimStart(line) == "";
    } else {
      var p := line[..|line| - 1];
      assert line == p + " ";
      if exists w :: w in words && line == w + " " {
        var w :| w in words && line == w + " ";
        TrimIgnoresTrailingSpace(w);
      } else {
        ClosedLineShorter(p, maxChars);
      }
    }
  }

  lemma ClosedLineShorter(p: string, maxChars: int)
    requires JsLength(p + " ") <= maxChars + 1
    ensures JsLength(Trim(p + " ")) <= maxChars
  {
    JsLengthSpace(p);
    TrimDropsTrailingSpace(p);
  }

  lemma {:induction false} WrapFits(words: seq<string>, maxChars: int)
    requires maxChars >= 0
    ensures var st := WrapWords(words, maxChars);
      (forall i :: 0 <= i < |st.lines| ==> LineFits(st.lines[i], words, maxChars)) &&
      OpenLineFits(st.line, words, maxChars)
    decreases |words|
  {
    if words != [] {
      var n := |words| - 1;
      var prefix := words[..n];
      WrapFits(prefix, maxChars);
      assert words == prefix + [words[n]];
      if prefix != [] {
        LineAfterWords(prefix, maxChars);
      }
      WrapFitsStep(WrapWords(prefix, maxChars), prefix, words[n], maxChars);
    }
  }

  /** One more word keeps every line fitting. */
  lemma WrapFitsStep(before: Wrap, prefix: seq<string>, w: string, maxChars: int)
    requires maxChars >= 0
    requires before.line == "" || before.line[|before.line| - 1] == ' '
    requires forall i :: 0 <= i < |before.lines| ==> LineFits(before.lines[i], prefix, maxChars)
    requires OpenLineFits(before.line, prefix, maxChars)
    ensures var st := Step(before, w, maxChars);
      (forall i :: 0 <= i < |st.lines| ==> LineFits(st.lines[i], prefix + [w], maxChars)) &&
      OpenLineFits(st.line, prefix + [w], maxChars)
  {
    var words := prefix + [w];
    forall i | 0 <= i < |before.lines| ensures LineFits(before.lines[i], words, maxChars) {
      assert LineFits(before.lines[i], prefix, maxChars);
    }
    assert OpenLineFits(before.line, words, maxChars);
    assert w in words;
    if Overflows(before.line, w, maxChars) {
      CloseFits(before.line, words, maxChars);
    } else {
      JsLengthAppend(before.line, w);
      JsLengthSpace(before.line + w);
    }
  }

  /** A line longer than the limit is a single word of the label. */
  lemma LongLineIsOneWord(text: string, maxChars: int, i: nat)
    requires maxChars >= 0
    ensures i < |Wrapped(text, maxChars)| && JsLength(Wrapped(text, maxChars)[i]) > maxChars ==>
      exists w :: w in Words(text) && Wrapped(text, maxChars)[i] == Trim(w)
  {
    var words := Words(text);
    var st := WrapWords(words, maxChars);
    if i < |Wrapped(text, maxChars)| && JsLength(Wrapped(text, maxChars)[i]) > maxChars {
      WrapFits(words, maxChars);
      LineAfterWords(words, maxChars);
      if i == |st.lines| {
        CloseFits(st.line, words, maxChars);
      }
    }
  }

  // ---------------------------------------------------------------------
  // The round trip
  // ---------------------------------------------------------------------

  /** A word with no white space at either end. */
  predicate Plain(w: string) {
    |w| > 0 && !IsJsSpace(w[0]) && !IsJsSpace(w[|w| - 1])
  }

  predicate AllPlain(words: seq<string>) {
    forall i :: 0 <= i < |words| ==> Plain(words[i])
  }

  function NonEmpty(lines: seq<string>): (r: seq<string>)
    ensures forall i :: 0 <= i < |r| ==> r[i] != ""
  {
    if lines == [] then []
    else if lines[|lines| - 1] == "" then NonEmpty(lines[..|lines| - 1])
    else NonEmpty(lines[..|lines| - 1]) + [lines[|lines| - 1]]
  }

  /** Joined plain words start and end with those words' first and last
      characters. */
  lemma {:induction false} JoinPlain(ws: seq<string>)
    requires ws != [] && AllPlain(ws)
    ensures Plain(Join(ws, " "))
  {
    if |ws| > 1 {
      assert AllPlain(ws[1..]) by {
        forall i | 0 <= i < |ws| - 1 ensures ws[1..][i] == ws[i + 1] { }
      }
      JoinPlain(ws[1..]);
      var j := Join(ws, " ");
      assert j == ws[0] + " " + Join(ws[1..], " ");
      assert j[0] == ws[0][0];
      assert j[|j| - 1] == Join(ws[1..], " ")[|Join(ws[1..], " ")| - 1];
    }
  }

  /** Joining splits at any word boundary. */
  lemma {:induction false} JoinAt(ws: seq<string>, a: nat)
    requires 0 < a < |ws|
    ensures Join(ws, " ") == Join(ws[..a], " ") + " " + Join(ws[a..], " ")
  {
    if a == 1 {
      assert ws[..1] == [ws[0]];
      assert ws[1..] == ws[a..];
    } else {
      JoinAt(ws[1..], a - 1);
      assert ws[1..][..a - 1] == ws[..a][1..];
      assert ws[1..][a - 1..] == ws[a..];
      assert Join(ws[..a], " ") == ws[0] + " " + Join(ws[..a][1..], " ");
    }
  }

  /** While wrapping plain words, the current line holds the words since the
      last break, and the non-empty finished lines hold the words before it. */
  predicate RoundTripState(st: Wrap, ws: seq<string>, a: nat) {
    a < |ws| &&
    st.line == Join(ws[a..], " ") + " " &&
    (a == 0 ==> NonEmpty(st.lines) == []) &&
    (a > 0 ==> NonEmpty(st.lines) != [] && Join(NonEmpty(st.lines), " ") == Join(ws[..a], " "))
  }

  lemma {:induction false} WrapRoundTrip(ws: seq<string>, maxChars: int)
    requires ws != [] && AllPlain(ws)
    ensures exists a: nat :: RoundTripState(WrapWords(ws, maxChars), ws, a)
    decreases |ws|
  {
    var n := |ws| - 1;
    var prefix := ws[..n];
    var w := ws[n];
    assert ws == prefix + [w];
    if n == 0 {
      assert ws == [w] && ws[..0] == [];
      assert WrapWords(ws, maxChars) == Step(Wrap([], ""), w, maxChars);
      RoundTripFirst(w, maxChars);
    } else {
      assert AllPlain(prefix) by {
        forall i | 0 <= i < n ensures prefix[i] == ws[i] { }
      }
      WrapRoundTrip(prefix, maxChars);
      var before := WrapWords(prefix, maxChars);
      var a: nat :| RoundTripState(before, prefix, a);
      assert WrapWords(ws, maxChars) == Step(before, w, maxChars);
      if Overflows(before.line, w, maxChars) {
        RoundTripBreak(before, prefix, a, w, maxChars);
        assert RoundTripState(WrapWords(ws, maxChars), ws, n);
      } else {
        RoundTripAppend(before, prefix, a, w, maxChars);
        assert RoundTripState(WrapWords(ws, maxChars), ws, a);
      }
    }
  }

  lemma RoundTripFirst(w: string, maxChars: int)
    ensures RoundTripState(Step(Wrap([], ""), w, maxChars), [w], 0)
  {
    assert [w][0..] == [w];
    assert NonEmpty([""]) == [];
  }

  /** The words since the last break, joined, close the line: the finished
      non-empty lines then hold every word. */
  lemma CloseRun(lines: seq<string>, ws: seq<string>, a: nat)
    requires a < |ws| && AllPlain(ws)
    requires a == 0 ==> NonEmpty(lines) == []
    requires a > 0 ==> NonEmpty(lines) != [] && Join(NonEmpty(lines), " ") == Join(ws[..a], " ")
    ensures Trim(Join(ws[a..], " ") + " ") == Join(ws[a..], " ")
    ensures NonEmpty(lines + [Join(ws[a..], " ")]) != []
    ensures Join(NonEmpty(lines + [Join(ws[a..], " ")]), " ") == Join(ws, " ")
  {
    var run := ws[a..];
    var last := Join(run, " ");
    assert AllPlain(run) by {
      forall i | 0 <= i < |run| ensures run[i] == ws[a + i] { }
    }
    JoinPlain(run);
    assert Plain(last);
    TrimPadded(last);
    var closed := lines + [last];
    assert closed[..|closed| - 1] == lines;
    assert NonEmpty(closed) == NonEmpty(lines) + [last];
    if a > 0 {
      JoinSnoc(NonEmpty(lines), last, " ");
      JoinAt(ws, a);
    } else {
      assert ws[0..] == ws;
    }
  }

  /** A word that does not fit closes the line of the words since the last
      break; that line is those words joined. */
  lemma RoundTripBreak(before: Wrap, prefix: seq<string>, a: nat, w: string, maxChars: int)
    requires RoundTripState(before, prefix, a) && AllPlain(prefix)
    requires Overflows(before.line, w, maxChars)
    ensures RoundTripState(Step(before, w, maxChars), prefix + [w], |prefix|)
  {
    CloseRun(before.lines, prefix, a);
    var after := Step(before, w, maxChars);
    assert after.lines == before.lines + [Join(prefix[a..], " ")];
    var ws := prefix + [w];
    assert ws[|prefix|..] == [w];
    assert ws[..|prefix|] == prefix;
  }

  /** A word that fits joins the current line. */
  lemma RoundTripAppend(before: Wrap, prefix: seq<string>, a: nat, w: string, maxChars: int)
    requires RoundTripState(before, prefix, a)
    requires !Overflows(before.line, w, maxChars)
    ensures RoundTripState(Step(before, w, maxChars), prefix + [w], a)
  {
    var ws := prefix + [w];
    var run := prefix[a..];
    assert ws[a..] == run + [w];
    JoinSnoc(run, w, " ");
    assert ws[..a] == prefix[..a];
  }

  /** For a label of plain words separated by single spaces, the non-empty
      lines joined by single spaces give the label back. */
  lemma RoundTrip(text: string, maxChars: int)
    requires AllPlain(Words(text))
    ensures Join(NonEmpty(Wrapped(text, maxChars)), " ") == text
  {
    var ws := Words(text);
    WrapRoundTrip(ws, maxChars);
    var st := WrapWords(ws, maxChars);
    var a: nat :| RoundTripState(st, ws, a);
    CloseRun(st.lines, ws, a);
    assert Wrapped(text, maxChars) == st.lines + [Join(ws[a..], " ")];
    JoinSplit(text, " ");
  }

  // ---------------------------------------------------------------------
  // The chart data
  // ---------------------------------------------------------------------

  /** One bar: its wrapped label and its height (the count, or the money in
      cents). */
  datatype Bar = Bar(labelLines: seq<string>, value: int)

  /** `data.slice(0, 5)` drawn with labels wrapped at fifteen characters. */
  function ChartBars<A(==)>(data: seq<Group<string, A>>, displayOrderCount: bool): (bars: seq<Bar>)
    ensures |bars| == if |data| < ShownBars then |data| else ShownBars
    ensures forall i :: 0 <= i < |bars| ==>
      bars[i].labelLines == Wrapped(data[i].key, MaxCharsPerLine) &&
      bars[i].value == Measure(data[i], displayOrderCount)
  {
    var top := if |data| < ShownBars then data else data[..ShownBars];
    seq(|top|, i requires 0 <= i < |top| => Bar(Wrapped(top[i].key, MaxCharsPerLine), Measure(top[i], displayOrderCount)))
  }

  /** Drawn from a top-ten list sorted by the same measure, the bars never
      grow from left to right. */
  lemma BarsDescend<A>(gs: seq<Group<string, A>>, byCount: bool, i: nat, j: nat)
    requires i < j < |ChartBars(TopTen(gs, byCount), byCount)|
    ensures ChartBars(TopTen(gs, byCount), byCount)[i].value >= ChartBars(TopTen(gs, byCount), byCount)[j].value
  {
  }
}

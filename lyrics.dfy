/** Lyrics from a timed transcript (public/code/LyricsDetector.tsx): the
    grouping of transcript words into display lines, and the choice of the
    lines to show at a playback time. */
module Lyrics {
  import opened AudioTypes
  import opened Text

  /** A transcript word; start and end are in milliseconds. */
  datatype Word = Word(text: string, start: int, end: int)

  /** A display line; start and end are in seconds. */
  datatype LyricLine = LyricLine(text: string, startTime: real, endTime: real)

  /** The words `lo..hi` (both included) that make up one line. */
  datatype Span = Span(lo: nat, hi: nat)

  /** Longest line, in milliseconds (`maxLineDuration` of 4 seconds). */
  const MaxLineMs: int := 4000

  /** A longer silence before the next word ends the line (1 second). */
  const PauseMs: int := 1000

  // ---------------------------------------------------------------------
  // groupWordsIntoLines
  // ---------------------------------------------------------------------

  /** `/[.!?]/.test(text)`. */
  predicate HasPunct(s: string)
  {
    '.' in s || '!' in s || '?' in s
  }

  /** Whether word `i` ends the line that started at `lineStart`: it is the
      last word, it holds sentence punctuation, the line has lasted the
      maximum duration, or the next word comes after a pause. */
  predicate Closes(words: seq<Word>, i: nat, lineStart: int)
    requires i < |words|
  {
    || HasPunct(words[i].text)
    || words[i].end - lineStart >= MaxLineMs
    || (i + 1 < |words| && words[i + 1].start - words[i].end > PauseMs)
    || i == |words| - 1
  }

  /** The lines still to come when the open line started at word `lo` and
      the words before `i` have been read (`lo == i`: no line is open). */
  function Rest(words: seq<Word>, lo: nat, i: nat): seq<Span>
    requires lo <= i <= |words|
    decreases |words| - i
  {
    if i == |words| then []
    else if Closes(words, i, words[lo].start) then [Span(lo, i)] + Rest(words, i + 1, i + 1)
    else Rest(words, lo, i + 1)
  }

  /** The word spans of the lines of a transcript. */
  function LineSpans(words: seq<Word>): seq<Span>
  {
    Rest(words, 0, 0)
  }

  function Texts(ws: seq<Word>): seq<string>
  {
    seq(|ws|, k requires 0 <= k < |ws| => ws[k].text)
  }

  predicate InBounds(words: seq<Word>, spans: seq<Span>)
  {
    forall k :: 0 <= k < |spans| ==> spans[k].lo <= spans[k].hi < |words|
  }

  /** The texts of the words of each line. */
  function LineWords(words: seq<Word>, spans: seq<Span>): seq<seq<string>>
    requires InBounds(words, spans)
  {
    seq(|spans|, k requires 0 <= k < |spans| => Texts(words[spans[k].lo..spans[k].hi + 1]))
  }

  /** One display line: its words joined by spaces, from the first word's
      start to the closing word's end, in seconds. */
  function RenderLine(words: seq<Word>, s: Span): LyricLine
    requires s.lo <= s.hi < |words|
  {
    LyricLine(Join(Texts(words[s.lo..s.hi + 1]), " "),
      words[s.lo].start as real / 1000.0, words[s.hi].end as real / 1000.0)
  }

  function RenderLines(words: seq<Word>, spans: seq<Span>): seq<LyricLine>
    requires InBounds(words, spans)
  {
    seq(|spans|, k requires 0 <= k < |spans| => RenderLine(words, spans[k]))
  }

  /** The lines `groupWordsIntoLines` makes of a transcript. */
  function GroupLines(words: seq<Word>): seq<LyricLine>
  {
    LineSpansTile(words);
    RenderLines(words, LineSpans(words))
  }

  /** The source loop: words are gathered into `currentLine` until one of
      the closing rules fires, then the line is emitted and a new one begins. */
  method GroupWordsIntoLines(words: seq<Word>) returns (lines: seq<LyricLine>)
    ensures lines == GroupLines(words)
  {
    lines := [];
    var currentLine: seq<string> := [];
    var lineStart: Option<int> := None;
    ghost var lo := 0;
    ghost var spans: seq<Span> := [];
    for i := 0 to |words|
      invariant lo <= i
      invariant InBounds(words, spans) && lines == RenderLines(words, spans)
      invariant spans + Rest(words, lo, i) == LineSpans(words)
      invariant currentLine == Texts(words[lo..i])
      invariant lineStart == if lo < i then Some(words[lo].start) else None
    {
      var w := words[i];
      if |currentLine| == 0 {
        lineStart := Some(w.start);
      }
      currentLine := currentLine + [w.text];
      assert currentLine == Texts(words[lo..i + 1]);
      var isPunct := HasPunct(w.text);
      var duration := if lineStart.Some? then w.end - lineStart.value else 0;
      var gap := if i + 1 < |words| then words[i + 1].start - w.end else 0;
      var hasPause := gap > PauseMs;
      if isPunct || duration >= MaxLineMs || hasPause || i == |words| - 1 {
        var startTime := if lineStart.Some? then lineStart.value as real / 1000.0 else 0.0;
        lines := lines + [LyricLine(Join(currentLine, " "), startTime, w.end as real / 1000.0)];
        currentLine := [];
        lineStart := None;
        spans := spans + [Span(lo, i)];
        assert lines == RenderLines(words, spans);
        lo := i + 1;
        assert Texts(words[lo..i + 1]) == [];
      }
    }
  }

  /** `spans` covers the words `from..to - 1` with consecutive, non-empty
      spans, in order. */
  predicate Tiles(spans: seq<Span>, from: int, to: int)
    decreases |spans|
  {
    if spans == [] then from == to
    else spans[0].lo == from && from <= spans[0].hi < to && Tiles(spans[1..], spans[0].hi + 1, to)
  }

  lemma {:induction false} RestTiles(words: seq<Word>, lo: nat, i: nat)
    requires lo <= i <= |words| && (i < |words| || lo == i)
    ensures Tiles(Rest(words, lo, i), lo, |words|)
    decreases |words| - i
  {
    if i < |words| {
      if Closes(words, i, words[lo].start) {
        RestTiles(words, i + 1, i + 1);
        var tail := Rest(words, i + 1, i + 1);
        assert ([Span(lo, i)] + tail)[1..] == tail;
      } else {
        RestTiles(words, lo, i + 1);
      }
    }
  }

  /** Tiling, read position by position. */
  lemma {:induction false} TilesAt(spans: seq<Span>, from: int, to: int)
    requires Tiles(spans, from, to)
    ensures |spans| <= to - from
    ensures forall k :: 0 <= k < |spans| ==> from <= spans[k].lo <= spans[k].hi < to
    ensures forall k :: 0 < k < |spans| ==> spans[k].lo == spans[k - 1].hi + 1
    ensures spans != [] ==> spans[0].lo == from && spans[|spans| - 1].hi == to - 1
    decreases |spans|
  {
    if spans != [] {
      var tail := spans[1..];
      TilesAt(tail, spans[0].hi + 1, to);
      assert forall k :: 0 < k < |spans| ==> spans[k] == tail[k - 1];
    }
  }

  lemma LineSpansTile(words: seq<Word>)
    ensures Tiles(LineSpans(words), 0, |words|)
    ensures InBounds(words, LineSpans(words))
  {
    RestTiles(words, 0, 0);
    TilesAt(LineSpans(words), 0, |words|);
  }

  function Concat(xss: seq<seq<string>>): seq<string>
  {
    if xss == [] then [] else xss[0] + Concat(xss[1..])
  }

  lemma TextsSlice(ws: seq<Word>, a: nat, b: nat, c: nat)
    requires a <= b <= c <= |ws|
    ensures Texts(ws[a..b]) + Texts(ws[b..c]) == Texts(ws[a..c])
  {
  }

  lemma {:induction false} ConcatTiles(words: seq<Word>, spans: seq<Span>, from: nat, to: nat)
    requires Tiles(spans, from, to) && to <= |words|
    ensures InBounds(words, spans)
    ensures Concat(LineWords(words, spans)) == Texts(words[from..to])
    decreases |spans|
  {
    TilesAt(spans, from, to);
    if spans != [] {
      var s := spans[0];
      var tail := spans[1..];
      ConcatTiles(words, tail, s.hi + 1, to);
      var lines := LineWords(words, spans);
      assert lines[0] == Texts(words[from..s.hi + 1]);
      assert lines[1..] == LineWords(words, tail);
      assert Concat(lines) == lines[0] + Concat(LineWords(words, tail));
      TextsSlice(words, from, s.hi + 1, to);
    }
  }

  /** Grouping loses no word and adds none: the lines' words, read in
      order, are the transcript's words; no line is empty; the line count is
      at most the word count, and only an empty transcript gives no lines. */
  lemma GroupingPartition(words: seq<Word>)
    ensures InBounds(words, LineSpans(words))
    ensures Concat(LineWords(words, LineSpans(words))) == Texts(words)
    ensures forall k :: 0 <= k < |LineSpans(words)| ==> LineWords(words, LineSpans(words))[k] != []
    ensures |GroupLines(words)| == |LineSpans(words)| <= |words|
    ensures GroupLines(words) == [] <==> words == []
    ensures forall k :: 0 <= k < |GroupLines(words)| ==>
      GroupLines(words)[k].text == Join(LineWords(words, LineSpans(words))[k], " ")
  {
    GroupingContent(words);
    GroupingShape(words);
  }

  /** The words half of `GroupingPartition`. */
  lemma GroupingContent(words: seq<Word>)
    ensures InBounds(words, LineSpans(words))
    ensures Concat(LineWords(words, LineSpans(words))) == Texts(words)
    ensures forall k :: 0 <= k < |LineSpans(words)| ==> LineWords(words, LineSpans(words))[k] != []
  {
    var spans := LineSpans(words);
    LineSpansTile(words);
    ConcatTiles(words, spans, 0, |words|);
    assert words[0..|words|] == words;
  }

  /** The lines half of `GroupingPartition`. */
  lemma GroupingShape(words: seq<Word>)
    ensures InBounds(words, LineSpans(words))
    ensures |GroupLines(words)| == |LineSpans(words)| <= |words|
    ensures GroupLines(words) == [] <==> words == []
    ensures forall k :: 0 <= k < |GroupLines(words)| ==>
      GroupLines(words)[k].text == Join(LineWords(words, LineSpans(words))[k], " ")
  {
    var spans := LineSpans(words);
    LineSpansTile(words);
    TilesAt(spans, 0, |words|);
  }

  /** Every span ends at a word that closes its line, and no word before it
      in the span does. */
  predicate SpanClosed(words: seq<Word>, s: Span)
  {
    && s.lo <= s.hi < |words|
    && Closes(words, s.hi, words[s.lo].start)
    && forall m :: s.lo <= m < s.hi ==> !Closes(words, m, words[s.lo].start)
  }

  predicate AllClosed(words: seq<Word>, spans: seq<Span>)
    decreases |spans|
  {
    spans == [] || (SpanClosed(words, spans[0]) && AllClosed(words, spans[1..]))
  }

  lemma {:induction false} RestClosed(words: seq<Word>, lo: nat, i: nat)
    requires lo <= i <= |words| && (i < |words| || lo == i)
    requires forall m :: lo <= m < i ==> !Closes(words, m, words[lo].start)
    ensures AllClosed(words, Rest(words, lo, i))
    decreases |words| - i
  {
    if i < |words| {
      if Closes(words, i, words[lo].start) {
        RestClosed(words, i + 1, i + 1);
        var tail := Rest(words, i + 1, i + 1);
        assert ([Span(lo, i)] + tail)[1..] == tail;
      } else {
        RestClosed(words, lo, i + 1);
      }
    }
  }

  lemma {:induction false} AllClosedAt(words: seq<Word>, spans: seq<Span>, k: nat)
    requires AllClosed(words, spans) && k < |spans|
    ensures SpanClosed(words, spans[k])
    decreases k
  {
    if k > 0 {
      AllClosedAt(words, spans[1..], k - 1);
    }
  }

  /** The line rule, both ways: inside line `k`, a word closes the line
      exactly when it is the line's last word. The line starts at its first
      word's start and ends at its last word's end, in seconds; the lines
      follow each other word for word from the first word to the last. */
  lemma LineBreaks(words: seq<Word>, k: nat, m: nat)
    requires k < |LineSpans(words)|
    requires LineSpans(words)[k].lo <= m <= LineSpans(words)[k].hi
    ensures LineSpans(words)[k].hi < |words|
    ensures Closes(words, m, words[LineSpans(words)[k].lo].start) <==> m == LineSpans(words)[k].hi
    ensures GroupLines(words)[k].startTime == words[LineSpans(words)[k].lo].start as real / 1000.0
    ensures GroupLines(words)[k].endTime == words[LineSpans(words)[k].hi].end as real / 1000.0
    ensures k == 0 ==> LineSpans(words)[k].lo == 0
    ensures k > 0 ==> LineSpans(words)[k].lo == LineSpans(words)[k - 1].hi + 1
    ensures k == |LineSpans(words)| - 1 ==> LineSpans(words)[k].hi == |words| - 1
  {
    LineSpansTile(words);
    TilesAt(LineSpans(words), 0, |words|);
    RestClosed(words, 0, 0);
    AllClosedAt(words, LineSpans(words), k);
  }

  // ---------------------------------------------------------------------
  // Current-lyrics selection
  // ---------------------------------------------------------------------

  /** Added to the playback time before matching (0.5 s). */
  const TimeOffset: real := 0.5

  /** Slack on either side of a line's time range (0.5 s). */
  const Tolerance: real := 0.5

  /** How soon an upcoming line must start to be shown early (2 s). */
  const Lookahead: real := 2.0

  predicate InWindow(l: LyricLine, adjusted: real)
  {
    l.startTime - Tolerance <= adjusted <= l.endTime + Tolerance
  }

  /** `lyricLines.filter(...)`: the lines whose widened range holds `adjusted`. */
  function Showing(lines: seq<LyricLine>, adjusted: real): (r: seq<LyricLine>)
    ensures |r| <= |lines|
    ensures forall l :: l in r ==> l in lines && InWindow(l, adjusted)
  {
    if lines == [] then []
    else (if InWindow(lines[0], adjusted) then [lines[0]] else []) + Showing(lines[1..], adjusted)
  }

  /** `lyricLines.find(...)`: the position of the first line that starts
      after `adjusted`. */
  function FirstAfter(lines: seq<LyricLine>, adjusted: real): (r: Option<nat>)
    ensures r.Some? ==> r.value < |lines| && lines[r.value].startTime > adjusted
    ensures r.Some? ==> forall k :: 0 <= k < r.value ==> lines[k].startTime <= adjusted
    ensures r.None? ==> forall k :: 0 <= k < |lines| ==> lines[k].startTime <= adjusted
  {
    if lines == [] then None
    else if lines[0].startTime > adjusted then Some(0)
    else match FirstAfter(lines[1..], adjusted)
      case None => None
      case Some(k) => Some(k + 1)
  }

  function TextsOf(lines: seq<LyricLine>): (r: seq<string>)
    ensures |r| == |lines|
    ensures forall k :: 0 <= k < |lines| ==> r[k] == lines[k].text
  {
    seq(|lines|, k requires 0 <= k < |lines| => lines[k].text)
  }

  /** The time effect: nothing while stopped or before the transcript has
      loaded; else the texts of the lines around the adjusted time; else the
      next line if it starts within two seconds; else nothing. */
  function CurrentLyrics(isPlaying: bool, loaded: bool, lines: seq<LyricLine>, currentTime: real): (r: seq<string>)
    ensures !isPlaying || !loaded ==> r == []
    ensures |r| <= |lines|
  {
    if !isPlaying || !loaded then []
    else
      var adjusted := currentTime + TimeOffset;
      var matching := Showing(lines, adjusted);
      if |matching| > 0 then TextsOf(matching)
      else match FirstAfter(lines, adjusted)
        case Some(k) => if lines[k].startTime - adjusted < Lookahead then [lines[k].text] else []
        case None => []
  }

  /** The filter keeps the order of the lines: filtering a concatenation is
      concatenating the filtered parts. */
  lemma {:induction false} ShowingConcat(a: seq<LyricLine>, b: seq<LyricLine>, adjusted: real)
    ensures Showing(a + b, adjusted) == Showing(a, adjusted) + Showing(b, adjusted)
  {
    if a == [] {
      assert a + b == b;
    } else {
      assert (a + b)[1..] == a[1..] + b;
      ShowingConcat(a[1..], b, adjusted);
    }
  }

  /** ... and it drops exactly the lines outside the window. */
  lemma {:induction false} ShowingKeeps(lines: seq<LyricLine>, adjusted: real, k: nat)
    requires k < |lines| && InWindow(lines[k], adjusted)
    ensures lines[k] in Showing(lines, adjusted)
  {
    if k > 0 {
      ShowingKeeps(lines[1..], adjusted, k - 1);
    }
  }

  /** What the selection shows while playing a loaded transcript: the
      matching lines' texts when any line matches; otherwise at most one
      line, the first one starting after the adjusted time, and only when it
      starts less than two seconds later. */
  lemma SelectionCases(lines: seq<LyricLine>, currentTime: real)
    ensures var adjusted := currentTime + TimeOffset;
      var r := CurrentLyrics(true, true, lines, currentTime);
      && (Showing(lines, adjusted) != [] ==> r == TextsOf(Showing(lines, adjusted)))
      && (Showing(lines, adjusted) == [] ==>
            && (forall k :: 0 <= k < |lines| ==> !InWindow(lines[k], adjusted))
            && |r| <= 1
            && (r != [] <==> (FirstAfter(lines, adjusted).Some?
                  && lines[FirstAfter(lines, adjusted).value].startTime < adjusted + Lookahead))
            && (r != [] ==> r == [lines[FirstAfter(lines, adjusted).value].text]))
  {
    var adjusted := currentTime + TimeOffset;
    if Showing(lines, adjusted) == [] {
      forall k | 0 <= k < |lines| ensures !InWindow(lines[k], adjusted) {
        if InWindow(lines[k], adjusted) {
          ShowingKeeps(lines, adjusted, k);
        }
      }
    }
  }
}

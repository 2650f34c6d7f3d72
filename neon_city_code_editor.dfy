/** The Neon City code editor (src/components/NeonCityCodeEditor.tsx). It
    reveals a fetched source file line by line at a tempo-driven speed, then
    moves on to the next of six files, with a cursor whose blink rate follows
    the beat and the tempo. */
module NeonCityCodeEditor {
  import opened Text
  import opened AudioTypes

  /** The number of files the editor cycles through. */
  const FileCount: nat := 6

  /** The cursor glyph appended to the last revealed line. */
  const Cursor: char := '\U{258D}'

  function Clamp(lo: real, hi: real, x: real): (r: real)
    requires lo <= hi
    ensures lo <= r <= hi
    ensures lo <= x <= hi ==> r == x
    ensures x < lo ==> r == lo
    ensures x > hi ==> r == hi
  {
    if x < lo then lo else if x > hi then hi else x
  }

  /** The delay before the next line, in ms: `6000 / (bpm + 40·energy)`
      clamped to [8, 80], and 8 on a beat. A zero denominator is JavaScript's
      `Infinity`, which the clamp turns into 80. */
  function MsPerLine(bpm: real, energy: real, beat: bool): (r: real)
    ensures 8.0 <= r <= 80.0
    ensures beat ==> r == 8.0
    ensures var d := EffectiveBpm(bpm) + energy * 40.0;
      !beat && d != 0.0 && 8.0 <= 6000.0 / d <= 80.0 ==> r == 6000.0 / d
    ensures var d := EffectiveBpm(bpm) + energy * 40.0;
      !beat && d != 0.0 && 6000.0 / d < 8.0 ==> r == 8.0
    ensures var d := EffectiveBpm(bpm) + energy * 40.0;
      !beat && d != 0.0 && 6000.0 / d > 80.0 ==> r == 80.0
    ensures !beat && EffectiveBpm(bpm) + energy * 40.0 == 0.0 ==> r == 80.0
  {
    var d := EffectiveBpm(bpm) + energy * 40.0;
    var ms := if d == 0.0 then 80.0 else Clamp(8.0, 80.0, 6000.0 / d);
    if beat then 8.0 else ms
  }

  /** A faster tempo (or more energy) never slows the typing down. */
  lemma MsPerLineFasterWithTempo(bpm1: real, bpm2: real, energy: real)
    requires 0.0 < bpm1 <= bpm2 && energy >= 0.0
    ensures MsPerLine(bpm2, energy, false) <= MsPerLine(bpm1, energy, false)
  {
    DivAntitone(6000.0, bpm1 + energy * 40.0, bpm2 + energy * 40.0);
  }

  /** Dividing by a larger positive number gives a smaller quotient. */
  lemma DivAntitone(c: real, d1: real, d2: real)
    requires c > 0.0 && 0.0 < d1 <= d2
    ensures c / d2 <= c / d1
  {
    var q1, q2 := c / d1, c / d2;
    assert q1 * d1 == c && q2 * d2 == c;
    assert q2 * d1 <= q2 * d2 by {
      assert q2 > 0.0;
    }
    assert q2 * d1 <= q1 * d1;
  }

  /** The cursor blink interval in ms: 60 on a beat, otherwise 100 above
      160 bpm, 140 above 120 bpm and 200 at or below 120 bpm. */
  function BlinkMs(bpm: real, beat: bool): (r: nat)
    ensures r == 60 || r == 100 || r == 140 || r == 200
    ensures r == 60 <==> beat
    ensures !beat ==> (r == 200 <==> EffectiveBpm(bpm) <= 120.0)
    ensures !beat ==> (r == 140 <==> 120.0 < EffectiveBpm(bpm) <= 160.0)
    ensures !beat ==> (r == 100 <==> EffectiveBpm(bpm) > 160.0)
  {
    var b := EffectiveBpm(bpm);
    if beat then 60
    else if b > 160.0 then 100
    else if b > 120.0 then 140
    else 200
  }

  /** The blink interval never grows as the tempo rises. */
  lemma BlinkNonIncreasing(bpm1: real, bpm2: real, beat: bool)
    requires bpm1 <= bpm2
    ensures BlinkMs(bpm2, beat) <= BlinkMs(bpm1, beat)
  {
  }

  function Min(a: nat, b: nat): nat
  {
    if a <= b then a else b
  }

  /** The editor text: the first `linesShown` lines joined by newlines, with
      the cursor glyph after the last of them while the cursor is on and the
      file is not fully shown (just the glyph when no line is shown yet). */
  function EditorValue(lines: seq<string>, linesShown: nat, showCursor: bool): (r: string)
    ensures !(showCursor && linesShown < |lines|) ==> r == Join(lines[..Min(linesShown, |lines|)], "\n")
    ensures showCursor && linesShown < |lines| ==> r == Join(lines[..linesShown], "\n") + [Cursor]
  {
    var shown := lines[..Min(linesShown, |lines|)];
    if showCursor && linesShown < |lines| then
      if |shown| == 0 then [Cursor]
      else
        JoinAppendLast(shown, "\n", [Cursor]);
        Join(shown[..|shown| - 1] + [shown[|shown| - 1] + [Cursor]], "\n")
    else Join(shown, "\n")
  }

  /** Once every line is shown the editor holds exactly the fetched text. */
  lemma WholeFileShown(text: string, showCursor: bool)
    ensures EditorValue(Split(text, '\n'), |Split(text, '\n')|, showCursor) == text
  {
    SplitJoin(text, '\n');
    assert Split(text, '\n')[..|Split(text, '\n')|] == Split(text, '\n');
  }

  /** The component's state: the file being shown, its lines, how many are
      revealed, whether a fetch is pending, and the cursor. */
  class Editor {
    var fileIdx: nat
    var code: string
    var lines: seq<string>
    var linesShown: nat
    var loading: bool
    var showCursor: bool
    var scrollTop: int

    predicate Valid()
      reads this
    {
      fileIdx < FileCount && linesShown <= |lines|
    }

    constructor ()
      ensures Valid()
      ensures fileIdx == 0 && code == "" && lines == [] && linesShown == 0
      ensures loading && showCursor && scrollTop == 0
    {
      fileIdx, code, lines, linesShown := 0, "", [], 0;
      loading, showCursor, scrollTop := true, true, 0;
    }

    /** The effects on a new `fileIdx`: a fetch starts, and scrolling and
        typing are reset. */
    method OnFileIdx()
      requires Valid()
      modifies this
      ensures Valid()
      ensures loading && linesShown == 0 && scrollTop == 0
      ensures fileIdx == old(fileIdx) && code == old(code) && lines == old(lines)
      ensures showCursor == old(showCursor)
    {
      loading := true;
      scrollTop := 0;
      linesShown := 0;
    }

    /** The fetch resolves: the text is split into lines and typing starts
        from the top. */
    method FileLoaded(text: string)
      requires Valid()
      modifies this
      ensures Valid()
      ensures code == text && lines == Split(text, '\n') && linesShown == 0 && !loading
      ensures fileIdx == old(fileIdx) && showCursor == old(showCursor) && scrollTop == old(scrollTop)
    {
      code := text;
      lines := Split(text, '\n');
      linesShown := 0;
      loading := false;
    }

    /** The typing timeout fires: one more line is revealed, or after the
        last line the next file is selected from its top. Nothing is
        scheduled while a fetch is pending. */
    method TypingTimeout()
      requires Valid()
      modifies this
      ensures Valid()
      ensures old(loading) ==> linesShown == old(linesShown) && fileIdx == old(fileIdx)
      ensures !old(loading) && old(linesShown) < |lines| ==>
        linesShown == old(linesShown) + 1 && fileIdx == old(fileIdx)
      ensures !old(loading) && old(linesShown) == |lines| ==>
        linesShown == 0 && fileIdx == (old(fileIdx) + 1) % FileCount
      ensures code == old(code) && lines == old(lines) && loading == old(loading)
      ensures showCursor == old(showCursor) && scrollTop == old(scrollTop)
    {
      if loading {
        return;
      }
      if linesShown < |lines| {
        linesShown := linesShown + 1;
      } else {
        fileIdx := (fileIdx + 1) % FileCount;
        linesShown := 0;
      }
    }

    /** The blink interval toggles the cursor. */
    method BlinkTick()
      modifies this
      ensures showCursor == !old(showCursor)
      ensures fileIdx == old(fileIdx) && code == old(code) && lines == old(lines)
      ensures linesShown == old(linesShown) && loading == old(loading) && scrollTop == old(scrollTop)
    {
      showCursor := !showCursor;
    }

    /** The text the editor shows. */
    function Value(): (r: string)
      reads this
      requires Valid()
      ensures !showCursor || linesShown == |lines| ==> r == Join(lines[..linesShown], "\n")
      ensures showCursor && linesShown < |lines| ==> r == Join(lines[..linesShown], "\n") + [Cursor]
    {
      EditorValue(lines, linesShown, showCursor)
    }
  }
}

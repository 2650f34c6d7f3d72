/** The typewriter code panel (src/components/CodePanel.tsx). It picks the
    code for the current scene, types it one character per interval tick,
    starts over after the last character, clears on a scene change, and
    decorates the text with a blinking block cursor. */
module CodePanel {
  import opened AudioTypes
  import opened Arith

  /** JavaScript's `%`, which truncates toward zero (its result takes the
      sign of the dividend). */
  function JsRem(a: int, b: int): (r: int)
    requires b > 0
    ensures (a - r) % b == 0
    ensures a >= 0 ==> 0 <= r < b
    ensures a < 0 ==> -b < r <= 0
  {
    if a >= 0 then
      ModUnique(a - a % b, a / b, 0, b);
      a % b
    else
      var m := -a;
      assert m == m / b * b + m % b;
      ModUnique(a + m % b, -(m / b), 0, b);
      -(m % b)
  }

  /** `sceneCodeSnippets[currentScene % 3] || code || ''`: a snippet slot that
      is missing (out of range) or empty falls back to the `code` property,
      whose absence is the empty string. */
  function TargetCode(snippets: seq<string>, currentScene: int, code: string): (r: string)
    ensures var k := JsRem(currentScene, 3);
      && (0 <= k < |snippets| && snippets[k] != "" ==> r == snippets[k])
      && (!(0 <= k < |snippets| && snippets[k] != "") ==> r == code)
  {
    var k := JsRem(currentScene, 3);
    if 0 <= k < |snippets| && snippets[k] != "" then snippets[k] else code
  }

  /** With three non-empty snippets, as the panel ships, every scene the app
      produces (never negative) selects the snippet of its residue and the
      `code` property is never consulted. */
  lemma TargetIsSceneSnippet(snippets: seq<string>, currentScene: int, code: string)
    requires |snippets| == 3 && forall k :: 0 <= k < 3 ==> snippets[k] != ""
    requires currentScene >= 0
    ensures TargetCode(snippets, currentScene, code) == snippets[currentScene % 3] != ""
    ensures TargetCode(snippets, currentScene + 3, code) == TargetCode(snippets, currentScene, code)
  {
  }

  /** One tick of the typing interval over `code`, from position `index`:
      the next position and the displayed text. */
  function TypeTick(code: string, index: nat): (r: (nat, string))
    ensures index <= |code| ==> r.0 <= |code| && r.1 == code[..r.0]
    ensures r.0 == index + 1 || (index >= |code| && r.0 == 0)
  {
    if index < |code| then (index + 1, code[..index + 1]) else (0, "")
  }

  /** The position after `n` ticks from position `index`. */
  function Position(code: string, n: nat, index: nat): nat
  {
    if n == 0 then index else TypeTick(code, Position(code, n - 1, index)).0
  }

  /** Ticks compose: `n` ticks after `m` ticks are `n + m` ticks. */
  lemma {:induction false} PositionCompose(code: string, n: nat, m: nat, index: nat)
    ensures Position(code, n + m, index) == Position(code, n, Position(code, m, index))
  {
    if n > 0 {
      PositionCompose(code, n - 1, m, index);
    }
  }

  /** From the start, `j` ticks (up to the code's length) reveal exactly the
      first `j` characters. */
  lemma {:induction false} TypesPrefix(code: string, j: nat)
    requires j <= |code|
    ensures Position(code, j, 0) == j
    ensures j > 0 ==> TypeTick(code, Position(code, j - 1, 0)).1 == code[..j]
  {
    if j > 0 {
      TypesPrefix(code, j - 1);
    }
  }

  /** The tick after the whole code is shown clears the display, and from
      then on typing repeats with period `|code| + 1` ticks. */
  lemma TypingCycle(code: string, n: nat)
    ensures TypeTick(code, Position(code, |code|, 0)) == (0, "")
    ensures Position(code, n + (|code| + 1), 0) == Position(code, n, 0)
  {
    TypesPrefix(code, |code|);
    PositionCompose(code, n, |code| + 1, 0);
  }

  /** The loading indicator frames. */
  const Dots: seq<string> := ["", ".", "..", "..."]

  /** The text put into the editor: the typed code, followed by the block
      cursor exactly when the cursor is visible. */
  function EditorText(displayed: string, cursorVisible: bool): (r: string)
    ensures |r| == |displayed| + (if cursorVisible then 1 else 0)
    ensures r[..|displayed|] == displayed
    ensures cursorVisible <==> r == displayed + ['\U{2588}']
  {
    if cursorVisible then displayed + ['\U{2588}'] else displayed
  }

  /** The panel's React state and the refs its intervals close over.
      `typing` is the code the running typing interval types (`None` when no
      interval runs) and `currentIndex` that interval's position. */
  class Panel {
    var displayedCode: string
    var isLoading: bool
    var loadingDots: string
    var dotIndex: nat
    var cursorVisible: bool
    var lastScene: int
    var typing: Option<string>
    var currentIndex: nat

    /** The typing invariant: a running interval types non-empty code, its
        position is within that code, and once it has typed a character the
        display is exactly the typed prefix. The dots index is in range. */
    predicate Valid()
      reads this
    {
      && dotIndex < |Dots|
      && (typing.Some? ==>
            && typing.value != ""
            && currentIndex <= |typing.value|
            && (currentIndex > 0 ==> displayedCode == typing.value[..currentIndex]))
    }

    constructor (currentScene: int)
      ensures Valid()
      ensures displayedCode == "" && isLoading && loadingDots == "" && cursorVisible
      ensures lastScene == currentScene && typing == None && dotIndex == 0
    {
      displayedCode, isLoading, loadingDots, dotIndex := "", true, "", 0;
      cursorVisible, lastScene, typing, currentIndex := true, currentScene, None, 0;
    }

    /** The 800 ms loading interval: show the current frame, move to the next. */
    method LoadingTick()
      requires Valid()
      modifies this
      ensures Valid()
      ensures loadingDots == Dots[old(dotIndex)] && dotIndex == (old(dotIndex) + 1) % 4
      ensures displayedCode == old(displayedCode) && typing == old(typing) && currentIndex == old(currentIndex)
      ensures cursorVisible == old(cursorVisible) && isLoading == old(isLoading) && lastScene == old(lastScene)
    {
      loadingDots := Dots[dotIndex];
      dotIndex := (dotIndex + 1) % |Dots|;
    }

    /** The 2 s loading timer, or playback starting, ends the loading phase. */
    method FinishLoading()
      modifies this
      ensures !isLoading
      ensures displayedCode == old(displayedCode) && typing == old(typing) && currentIndex == old(currentIndex)
      ensures cursorVisible == old(cursorVisible) && lastScene == old(lastScene)
      ensures loadingDots == old(loadingDots) && dotIndex == old(dotIndex)
    {
      isLoading := false;
    }

    /** The 500 ms cursor interval toggles the cursor. */
    method BlinkTick()
      modifies this
      ensures cursorVisible == !old(cursorVisible)
      ensures displayedCode == old(displayedCode) && typing == old(typing) && currentIndex == old(currentIndex)
      ensures isLoading == old(isLoading) && lastScene == old(lastScene)
      ensures loadingDots == old(loadingDots) && dotIndex == old(dotIndex)
    {
      cursorVisible := !cursorVisible;
    }

    /** `startContinuousTyping`: empty code changes nothing; otherwise the old
        interval is replaced by one typing `codeToType` from position 0. */
    method StartContinuousTyping(codeToType: string)
      requires Valid()
      modifies this
      ensures Valid()
      ensures codeToType == "" ==> typing == old(typing) && currentIndex == old(currentIndex)
      ensures codeToType != "" ==> typing == Some(codeToType) && currentIndex == 0
      ensures displayedCode == old(displayedCode) && cursorVisible == old(cursorVisible)
      ensures isLoading == old(isLoading) && lastScene == old(lastScene)
      ensures loadingDots == old(loadingDots) && dotIndex == old(dotIndex)
    {
      if codeToType == "" {
        return;
      }
      typing := Some(codeToType);
      currentIndex := 0;
    }

    /** One tick of the typing interval: the next character is revealed, or
        after the last one the display is cleared and typing starts over. */
    method TypingTick()
      requires Valid()
      modifies this
      ensures Valid()
      ensures typing == old(typing)
      ensures old(typing).None? ==> displayedCode == old(displayedCode) && currentIndex == old(currentIndex)
      ensures old(typing).Some? ==> (currentIndex, displayedCode) == TypeTick(typing.value, old(currentIndex))
      ensures cursorVisible == old(cursorVisible) && isLoading == old(isLoading) && lastScene == old(lastScene)
      ensures loadingDots == old(loadingDots) && dotIndex == old(dotIndex)
    {
      if typing.None? {
        return;
      }
      var codeToType := typing.value;
      if currentIndex < |codeToType| {
        displayedCode := codeToType[..currentIndex + 1];
        currentIndex := currentIndex + 1;
      } else {
        currentIndex := 0;
        displayedCode := "";
      }
    }

    /** The timeout scheduled by a wrap-around: if an interval still runs,
        it shows the first character again and resumes from position 1. */
    method RestartTimeout()
      requires Valid()
      modifies this
      ensures Valid()
      ensures typing == old(typing)
      ensures old(typing).None? ==> displayedCode == old(displayedCode) && currentIndex == old(currentIndex)
      ensures old(typing).Some? ==> currentIndex == 1 && displayedCode == typing.value[..1]
      ensures cursorVisible == old(cursorVisible) && isLoading == old(isLoading) && lastScene == old(lastScene)
      ensures loadingDots == old(loadingDots) && dotIndex == old(dotIndex)
    {
      if typing.Some? {
        displayedCode := typing.value[..1];
        currentIndex := 1;
      }
    }

    /** The effect on load and on a new target: once loading is over, typing
        (re)starts on the target code if there is any. */
    method OnTargetCode(snippets: seq<string>, currentScene: int, code: string)
      requires Valid()
      modifies this
      ensures Valid()
      ensures var t := TargetCode(snippets, currentScene, code);
        if !isLoading && t != "" then typing == Some(t) && currentIndex == 0
        else typing == old(typing) && currentIndex == old(currentIndex)
      ensures displayedCode == old(displayedCode) && cursorVisible == old(cursorVisible)
      ensures isLoading == old(isLoading) && lastScene == old(lastScene)
      ensures loadingDots == old(loadingDots) && dotIndex == old(dotIndex)
    {
      var targetCode := TargetCode(snippets, currentScene, code);
      if !isLoading && targetCode != "" {
        StartContinuousTyping(targetCode);
      }
    }

    /** The scene-change effect: on a new scene the display is cleared, the
        running interval stopped, and typing restarts on the new target code
        (none when it is empty). The same scene changes nothing. */
    method OnSceneChange(snippets: seq<string>, currentScene: int, code: string)
      requires Valid()
      modifies this
      ensures Valid()
      ensures old(lastScene) == currentScene ==>
        && displayedCode == old(displayedCode) && typing == old(typing) && currentIndex == old(currentIndex)
      ensures old(lastScene) != currentScene ==>
        && displayedCode == ""
        && typing == (var t := TargetCode(snippets, currentScene, code); if t == "" then None else Some(t))
        && (typing.Some? ==> currentIndex == 0)
      ensures lastScene == currentScene
      ensures cursorVisible == old(cursorVisible) && isLoading == old(isLoading)
      ensures loadingDots == old(loadingDots) && dotIndex == old(dotIndex)
    {
      if lastScene != currentScene {
        lastScene := currentScene;
        displayedCode := "";
        typing := None;
        var newTargetCode := TargetCode(snippets, currentScene, code);
        if newTargetCode != "" {
          StartContinuousTyping(newTargetCode);
        }
      }
    }

    /** The text the editor shows. */
    function Text(): (r: string)
      reads this
      ensures cursorVisible <==> r == displayedCode + ['\U{2588}']
      ensures !cursorVisible ==> r == displayedCode
    {
      EditorText(displayedCode, cursorVisible)
    }
  }
}

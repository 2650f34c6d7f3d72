# BGVisuals core, modelled in Dafny

BGVisuals is a set of audio-reactive visuals for the browser. An audio
controller (Tone.js or Meyda) turns the playing track into an `AudioFeatures`
record: loudness, tempo, beat, energy and so on. The app uses that record to
pick a scene. Several components then react to it: a grid of rounded cubes
that bounce, p5 sketches with smoothing, beat flashes and scene cross-fades,
two typewriter code editors, a photo-booth slideshow, a space shooter and a
lyrics display driven by a timed transcript.

This project models the deterministic logic under that rendering glue and
proves properties of it. There is one Dafny module per source file:

- `AudioTypes`: the shared `AudioFeatures` record and the default tempo.
- `Text`: `join`, `split`, `toLowerCase` (on ASCII letters) and `includes`
  on strings.
- `RoundedBox`: the index buffer of `RoundedBoxGeometry` (validation, vertex
  pool, the five weaving passes, the 16-bit index buffer).
- `CubeGrid`: the cube grid of `ThreeCubeDance` (corner shrink, parity split,
  bounce schedule).
- `Lyrics`: transcript grouping and lyric selection.
- `CanvasVisualizer` and `PublicCanvasVisualizer`: the two p5 sketches'
  per-frame state.
- `CodePanel` and `NeonCityCodeEditor`: the two typewriter displays.
- `BackgroundImageSlideshow`: the slideshow strip and its timer.
- `SpaceShooter`: shots, shooting stars, zoom and camera easing.
- `AudioController` and `AudioControllerMeyda`: feature derivation and
  player lifecycle.
- `App`: the top-level state, the ticker and the tempo-to-scene rule.

Where the source changes state step by step, the model does too. React
state, refs and closure variables become fields of a class. Each timer
callback, animation-frame callback, event handler and effect becomes a
method that states the whole new state. Those methods are proved against
pure specification functions. The loops of the source (weaving, grouping,
pruning, strip building, grid building) are `while` loops with invariants.
Pure expressions of the source become functions, and lemmas prove what the
code promises about them.

Continuous quantities (seconds, loudness, alphas) are `real`. Millisecond
counts, indices and counters are `int`/`nat`. Randomness, clocks and square
roots are parameters.

## Model

| member | source | states |
|---|---|---|
| AudioTypes.Filled | src/types/audio.ts:1-13 | `new Array(n).fill(v)` has exactly n entries, each equal to v |
| AudioTypes.EffectiveBpm | src/App.tsx:60 | `bpm \|\| 120`: a missing (zero) tempo counts as 120 and any other tempo is kept, so the effective tempo is never zero |
| Text.Split | src/components/NeonCityCodeEditor.tsx:110 | splitting gives at least one piece, no piece contains the separator, and there is one piece more than there are separators |
| Text.SplitJoin | src/components/NeonCityCodeEditor.tsx:110 | joining the pieces of a split with the separator gives the text back |
| Text.JoinAppendLast | src/components/NeonCityCodeEditor.tsx:186-195 | appending text to the last part of a join appends it to the joined text |
| Text.ToLower | src/components/BackgroundImageSlideshow.tsx:162 | lower-casing maps each character through the ASCII lower-case map (A–Z to a–z, everything else kept), so the length is kept |
| Text.Contains | src/components/BackgroundImageSlideshow.tsx:162 | `includes` holds exactly when the substring occurs at some position |
| RoundedBox.Validate | src/components/ThreeCubeDance.tsx:20-30 | after validation radiusSegments is at least 1 (the floor of the input when that is at least 1); the radius is at most the input and at most half of each side, unchanged when it already fits and otherwise equal to the smallest half-side; so every edge half-extent is non-negative |
| RoundedBox.VInRange | src/components/ThreeCubeDance.tsx:37-38 | slot s of corner patch c (c below 8, s below the patch size) addresses a vertex below totalVertexCount |
| RoundedBox.SlotInPatch | src/components/ThreeCubeDance.tsx:53-54 | every grid position of a patch, the pole included, has a slot inside the patch, and the pole's slot is lastVertex |
| RoundedBox.GridInRange | src/components/ThreeCubeDance.tsx:137-301 | every grid position of every patch addresses a vertex of the pool |
| RoundedBox.FlipReversesWinding | src/components/ThreeCubeDance.tsx:155-159 | a quad is the two triangles abc and bdc in either winding; a flipped triangle is the same triangle with the other winding |
| RoundedBox.FanTriangles | src/components/ThreeCubeDance.tsx:178-227 | a fan is the triangles abc and acd in either winding |
| RoundedBox.FaceIndicesLength | src/components/ThreeCubeDance.tsx:178-227 | the six plates push 36 indices |
| RoundedBox.FaceIndicesInRange | src/components/ThreeCubeDance.tsx:178-227 | every plate index addresses a vertex of the pool |
| RoundedBox.PatchOffsets | src/components/ThreeCubeDance.tsx:181-223 | the plate offsets `cornerVertNumber * k` are the starts of patches 1 to 7 |
| RoundedBox.CornerBlockLength | src/components/ThreeCubeDance.tsx:137-176 | one corner patch pushes 6·rs·(rs−1) indices of row quads plus 3·rs of pole fan |
| RoundedBox.CornersLength | src/components/ThreeCubeDance.tsx:137-176 | the eight corner patches push eight times that |
| RoundedBox.CornersInRange | src/components/ThreeCubeDance.tsx:137-176 | every corner index addresses a vertex of the pool |
| RoundedBox.CornerQuadAt | src/components/ThreeCubeDance.tsx:144-160 | the row quad of the corner loop is the quad of the four grid neighbours in the patch's winding |
| RoundedBox.PoleTriAt | src/components/ThreeCubeDance.tsx:163-173 | the pole triangle joins two neighbours of the last row to the pole |
| RoundedBox.HeightEdgesLength | src/components/ThreeCubeDance.tsx:229-249 | the height edges push 4·6·rs indices |
| RoundedBox.HeightEdgesInRange | src/components/ThreeCubeDance.tsx:229-249 | every height-edge index addresses a vertex of the pool |
| RoundedBox.HeightQuadAt | src/components/ThreeCubeDance.tsx:235-247 | the height-edge quad joins patch i to patch i+4, with the winding flipped on odd i |
| RoundedBox.WidthEdgesLength | src/components/ThreeCubeDance.tsx:278-301 | the width edges push 4·6·rs indices |
| RoundedBox.WidthEdgesInRange | src/components/ThreeCubeDance.tsx:278-301 | every width-edge index addresses a vertex of the pool |
| RoundedBox.WidthQuadAt | src/components/ThreeCubeDance.tsx:283-299 | the width-edge quad joins the last column of one patch to the next patch, the last step going to the pole |
| RoundedBox.DepthEdgesLength | src/components/ThreeCubeDance.tsx:251-276 | the depth edges push 4·6·rs indices |
| RoundedBox.DepthEdgesInRange | src/components/ThreeCubeDance.tsx:251-276 | every depth-edge index addresses a vertex of the pool |
| RoundedBox.DepthQuadAt | src/components/ThreeCubeDance.tsx:256-274 | the depth-edge quad joins the start and end patches of each edge |
| RoundedBox.IndexListPasses | src/components/ThreeCubeDance.tsx:56-61 | the index list is the faces, then the corners, then the height, width and depth edges, in that order |
| RoundedBox.IndexListLength | src/components/ThreeCubeDance.tsx:137-301 | the index list has 48·rs² + 48·rs + 36 entries |
| RoundedBox.IndexListTriangles | src/components/ThreeCubeDance.tsx:137-301 | the index list is a whole number of triangles (its length is a multiple of 3) |
| RoundedBox.IndexListInRange | src/components/ThreeCubeDance.tsx:137-301 | every index is below totalVertexCount = 8·((rs+1)·rs + 1) |
| RoundedBox.ToUint16 | src/components/ThreeCubeDance.tsx:311 | the 16-bit conversion keeps the length and puts every entry in [0, 65536) |
| RoundedBox.ToUint16Lossless | src/components/ThreeCubeDance.tsx:311 | a list whose entries all fit in 16 bits is unchanged by the conversion |
| RoundedBox.IndexBufferExact | src/components/ThreeCubeDance.tsx:311 | whenever the pool has at most 65536 vertices, the index buffer holds the woven list unchanged |
| RoundedBox.DefaultGeometryBuffers | src/components/ThreeCubeDance.tsx:416 | the cubes' geometry with 4 radius segments has 168 vertices and 996 indices, and every index fits the 16-bit buffer |
| RoundedBox.Mirror | src/components/ThreeCubeDance.tsx:122-132 | the copy of a corner-0 vertex into patch c keeps its grid position |
| RoundedBox.Corner0HasLayout | src/components/ThreeCubeDance.tsx:87-120 | corner 0 holds rs rows of rs+1 vertices, row by row, followed by the pole at slot lastVertex |
| RoundedBox.PoolHasLayout | src/components/ThreeCubeDance.tsx:122-133 | the pool holds exactly totalVertexCount vertices: eight mirrored patches one after the other |
| RoundedBox.GridVertex | src/components/ThreeCubeDance.tsx:137-301 | the weaving's index arithmetic cornerVertNumber·c + rs1·row + col addresses the vertex at (row, col) of patch c |
| RoundedBox.DoVertices | src/components/ThreeCubeDance.tsx:64-133 | the vertex pass builds corner 0 row by row and its seven mirrors; the pool is the eight patches in order |
| RoundedBox.DistributeCornerVerts | src/components/ThreeCubeDance.tsx:122-132 | the distribution loop gives each of patches 1 to 7 the mirror of corner 0 and appends it to the pool |
| RoundedBox.MirrorCorner | src/components/ThreeCubeDance.tsx:124-131 | one pass of the distribution loop appends the mirror of corner 0 into patch i to that patch and to the pool |
| RoundedBox.PushQuad | src/components/ThreeCubeDance.tsx:155-159 | pushing a quad appends its six indices in the chosen winding |
| RoundedBox.PushTri | src/components/ThreeCubeDance.tsx:166-170 | pushing a triangle appends its three indices in the chosen winding |
| RoundedBox.DoFaces | src/components/ThreeCubeDance.tsx:178-227 | `doFaces` appends exactly the plate indices |
| RoundedBox.DoCorners | src/components/ThreeCubeDance.tsx:137-176 | `doCorners` appends exactly the corner indices of all eight patches |
| RoundedBox.WeaveCorner | src/components/ThreeCubeDance.tsx:141-174 | one pass of the corner loop appends the patch's row quads and then its pole fan |
| RoundedBox.DoHeightEdges | src/components/ThreeCubeDance.tsx:229-249 | `doHeightEdges` appends exactly the height-edge indices |
| RoundedBox.DoWidthEdges | src/components/ThreeCubeDance.tsx:278-301 | `doWidthEdges` appends exactly the width-edge indices |
| RoundedBox.WeaveWidthEdge | src/components/ThreeCubeDance.tsx:280-300 | one pass of the width-edge loop appends the quads of one edge |
| RoundedBox.DoDepthEdges | src/components/ThreeCubeDance.tsx:251-276 | `doDepthEdges` appends exactly the depth-edge indices |
| RoundedBox.BuildIndexBuffer | src/components/ThreeCubeDance.tsx:56-61 | the five weaving passes in order, converted to 16 bits, give the 16-bit form of the index list |
| RoundedBox.BuildAttributes | src/components/ThreeCubeDance.tsx:56-61 | the constructor's passes produce the whole pool, of totalVertexCount vertices, and the index attribute |
| RoundedBox.FillBuffer | src/components/ThreeCubeDance.tsx:303-309 | the fill loop copies the pool into the position buffer exactly, with no overrun |
| RoundedBox.RoundedBoxGeometry.constructor | src/components/ThreeCubeDance.tsx:15-315 | the geometry stores the validated parameters, a position buffer of totalVertexCount entries holding the pool, and the woven 16-bit index |
| CubeGrid.Sign | src/components/ThreeCubeDance.tsx:503-505 | `Math.sign` is −1, 0 or 1, and sign·x is the absolute value of x |
| CubeGrid.Shrink | src/components/ThreeCubeDance.tsx:503-505 | the shrunk coordinate keeps the sign of x or is 0; its magnitude is max(abs(x) − 0.1, 0), never more than abs(x) |
| CubeGrid.ShrinkPullsInward | src/components/ThreeCubeDance.tsx:503-505 | the shrink moves a coordinate toward the origin by at most the radius and never past it |
| CubeGrid.ShrinkMonotone | src/components/ThreeCubeDance.tsx:503-505 | the shrink keeps the order of coordinates |
| CubeGrid.ShrinkCollapse | src/components/ThreeCubeDance.tsx:503-505 | a coordinate collapses to 0 exactly when it lies within the radius of the origin |
| CubeGrid.ShrinkVec | src/components/ThreeCubeDance.tsx:503-507 | no coordinate of a shrunk vertex grows in magnitude |
| CubeGrid.ShrinkPositions | src/components/ThreeCubeDance.tsx:497-508 | the loop over the position buffer replaces every vertex by its shrunk form |
| CubeGrid.RowStartIsProduct | src/components/ThreeCubeDance.tsx:558 | the index of the first cube of row i is i·gridSize |
| CubeGrid.BuildGrid | src/components/ThreeCubeDance.tsx:490-566 | the nested creation loop puts each cube into evens or odds by the parity of i + j, in creation order |
| CubeGrid.EvensInOrder | src/components/ThreeCubeDance.tsx:558-563 | the evens group has strictly increasing, hence distinct, indices, all below the number of cubes made so far |
| CubeGrid.OddsInOrder | src/components/ThreeCubeDance.tsx:558-565 | the same for the odds group |
| CubeGrid.SplitColours | src/components/ThreeCubeDance.tsx:513-565 | only red cubes (i + j even) reach evens and only blue ones reach odds |
| CubeGrid.GroupMembership | src/components/ThreeCubeDance.tsx:490-566 | at any point of the loop, a cube made so far is in evens exactly when i + j is even and in odds exactly when it is odd, so it is in exactly one group; every member of a group is a cube made so far, with index i·n + j |
| CubeGrid.SplitLength | src/components/ThreeCubeDance.tsx:490-566 | the two groups together hold as many cubes as the loop has made |
| CubeGrid.RowBalance | src/components/ThreeCubeDance.tsx:490-566 | each pair of neighbouring cubes in a row adds one cube to each group |
| CubeGrid.GridBalance | src/components/ThreeCubeDance.tsx:490-566 | rows of even length keep both groups the same size |
| CubeGrid.GridSplit | src/components/ThreeCubeDance.tsx:490-566 | an even-sided grid splits into two equal groups, all red and all blue, each with distinct increasing indices in [0, n²); cube (i, j) of the grid is in evens exactly when i + j is even and in odds exactly when it is odd, and its index is i·n + j |
| CubeGrid.DefaultGridSplit | src/components/ThreeCubeDance.tsx:414 | the 20 × 20 grid gives 200 evens and 200 odds |
| CubeGrid.BounceHeight | src/components/ThreeCubeDance.tsx:700-711 | the bounce height is at least 2, and at least 3 when energy and volume are non-negative |
| CubeGrid.BounceResponds | src/components/ThreeCubeDance.tsx:700-711 | for non-negative inputs a beat adds exactly 2, and more energy or volume never lowers the bounce |
| CubeGrid.Delay | src/components/ThreeCubeDance.tsx:714 | the wave delay lies in [0, 0.5) |
| CubeGrid.DelayIncreasing | src/components/ThreeCubeDance.tsx:714 | later cubes of a group start strictly later |
| CubeGrid.BounceAt | src/components/ThreeCubeDance.tsx:693-727 | one cube's tween rises at least 2 and starts within 0.5 s; with non-negative energy its duration is at least 1.2 s and its rotation period at least 0.8 s |
| CubeGrid.AnimateBoxes | src/components/ThreeCubeDance.tsx:689-741 | the loop schedules one tween per cube of the group, in group order |
| CubeGrid.AnimateBoxesSchedule | src/components/ThreeCubeDance.tsx:689-741 | every scheduled bounce rises at least 2 and starts within 0.5 s, and start times increase along the group |
| Lyrics.GroupWordsIntoLines | public/code/LyricsDetector.tsx:25-58 | the grouping loop produces exactly the lines of the reference grouping |
| Lyrics.RestTiles | public/code/LyricsDetector.tsx:31-56 | the lines still to come cover the remaining words with consecutive, non-empty spans |
| Lyrics.TilesAt | public/code/LyricsDetector.tsx:31-56 | a tiling, read position by position: spans are in bounds, each starts where the previous ended, the first starts at the first word and the last ends at the last word |
| Lyrics.LineSpansTile | public/code/LyricsDetector.tsx:25-58 | the lines of a transcript tile all its words |
| Lyrics.TextsSlice | public/code/LyricsDetector.tsx:48 | the texts of two adjacent runs of words are the texts of their union |
| Lyrics.ConcatTiles | public/code/LyricsDetector.tsx:47-56 | the lines of a tiling, read in order, hold exactly the tiled words |
| Lyrics.GroupingContent | public/code/LyricsDetector.tsx:32-56 | grouping loses no word and adds none, and no line is empty |
| Lyrics.GroupingShape | public/code/LyricsDetector.tsx:25-58 | there are at most as many lines as words; no words gives no lines and some words give some line; each line's text is its words joined by spaces |
| Lyrics.GroupingPartition | public/code/LyricsDetector.tsx:25-58 | the two together: the lines partition the transcript, in order, into non-empty runs |
| Lyrics.RestClosed | public/code/LyricsDetector.tsx:41-47 | each line still to come ends at a word that closes it, and no earlier word of the line does |
| Lyrics.AllClosedAt | public/code/LyricsDetector.tsx:41-47 | the closing property, read at one line |
| Lyrics.LineBreaks | public/code/LyricsDetector.tsx:33-52 | inside a line, a word closes it exactly when it is the line's last word (last word, punctuation, 4 s span or a pause over 1 s); the line runs from its first word's start to its last word's end, in seconds; lines follow one another from the first word to the last |
| Lyrics.Showing | public/code/LyricsDetector.tsx:100-103 | the filter keeps only lines whose widened range holds the adjusted time |
| Lyrics.FirstAfter | public/code/LyricsDetector.tsx:110-111 | `find` returns the first line starting after the adjusted time, or none when there is no such line |
| Lyrics.TextsOf | public/code/LyricsDetector.tsx:105-107 | the map gives each line's text, in order |
| Lyrics.CurrentLyrics | public/code/LyricsDetector.tsx:88-119 | nothing is shown while stopped or before the transcript is loaded, and never more lines than the transcript has |
| Lyrics.ShowingConcat | public/code/LyricsDetector.tsx:100-103 | the filter keeps the order of the lines |
| Lyrics.ShowingKeeps | public/code/LyricsDetector.tsx:100-103 | the filter keeps every line whose window holds the time |
| Lyrics.SelectionCases | public/code/LyricsDetector.tsx:96-118 | while playing a loaded transcript: the matching lines' texts if any line matches; otherwise no line is in the window, and the result is the single next line exactly when it starts less than 2 s after the adjusted time, else nothing |
| CanvasVisualizer.Smooth | src/components/CanvasVisualizer.tsx:106-109 | a smoothing step moves the value a tenth of the way to the input, so it lies between the old value and the input |
| CanvasVisualizer.SmoothAllBounded | src/components/CanvasVisualizer.tsx:106-109 | inputs in [lo, hi] keep a smoothed value that starts there in [lo, hi] (for example [0, 1]) |
| CanvasVisualizer.Ramp | src/components/CanvasVisualizer.tsx:133-135 | the cross-fade grows by 0.008 while below 1 and then stays put |
| CanvasVisualizer.RampBounded | src/components/CanvasVisualizer.tsx:133-135 | started in [0, 1.008), the cross-fade never decreases and never leaves [0, 1.008) |
| CanvasVisualizer.Alpha | src/components/CanvasVisualizer.tsx:151-165 | the tint alpha is in (0.05, 1] while fading out, in [0, 1] while fading in, and 1 when the fade is complete |
| CanvasVisualizer.AlphaShape | src/components/CanvasVisualizer.tsx:151-165 | the alpha falls as the fade-out proceeds and rises as the fade-in proceeds |
| CanvasVisualizer.SmoothedFeatures | src/components/CanvasVisualizer.tsx:142-148 | the renderer gets smoothed energy, centroid and loudness and the flash as beat; every other field is kept |
| CanvasVisualizer.OrbCount | src/components/CanvasVisualizer.tsx:233 | for bass in [0, 1] there are 3 to 8 orbs, and exactly 3 below 0.2 |
| CanvasVisualizer.OrbCountMonotone | src/components/CanvasVisualizer.tsx:233 | more bass never means fewer orbs |
| CanvasVisualizer.StepKeepsInv | src/components/CanvasVisualizer.tsx:97-166 | every frame keeps the scene in 0..3 and the cross-fade in [0, 1.008), and a rendered frame's alpha is non-negative |
| CanvasVisualizer.SceneRotation | src/components/CanvasVisualizer.tsx:120-130 | the scene advances by one mod 4 only while playing and only when 90 s have passed, or 45 s with a smoothed bass above 0.5; a change records the time and restarts the cross-fade from 0, so after the frame's ramp step it is 0.008 |
| CanvasVisualizer.FlashSpacing | src/components/CanvasVisualizer.tsx:112-117 | a flash records its time, and a flash in the next frame needs more than 0.1 s after it |
| CanvasVisualizer.NotReadyIdle | src/components/CanvasVisualizer.tsx:98 | before the sketch is ready a draw call changes nothing and renders nothing |
| CanvasVisualizer.Sketch.constructor | src/components/CanvasVisualizer.tsx:50-61 | the closure variables start at their initial values, which satisfy the frame invariant |
| CanvasVisualizer.Sketch.MarkReady | src/components/CanvasVisualizer.tsx:71-90 | the image callbacks, on load or on failure alike, only mark the sketch ready |
| CanvasVisualizer.Sketch.Draw | src/components/CanvasVisualizer.tsx:97-166 | a draw call performs one frame step on the closure variables and keeps the invariant |
| PublicCanvasVisualizer.FollowsSceneProperty | public/code/CanvasVisualizer.tsx:147-153 | after a frame the sketch shows the scene property's scene, and the cross-fade restarts from 0 (0.008 after the frame's ramp step) exactly when the scene changed, otherwise it keeps ramping |
| PublicCanvasVisualizer.StepKeepsRamp | public/code/CanvasVisualizer.tsx:156-158 | frames keep the cross-fade in [0, 1.008) |
| PublicCanvasVisualizer.FlashRule | public/code/CanvasVisualizer.tsx:139-144 | a flash needs a beat and more than 0.1 s since the last one, and only a flash moves the last-flash time, to the current time |
| PublicCanvasVisualizer.Sketch.constructor | public/code/CanvasVisualizer.tsx:116-200 | the closure variables start at their initial values |
| PublicCanvasVisualizer.Sketch.MarkReady | public/code/CanvasVisualizer.tsx:116-200 | the image callbacks only mark the sketch ready |
| PublicCanvasVisualizer.Sketch.Draw | public/code/CanvasVisualizer.tsx:116-200 | a draw call performs one frame step; once ready, the shown scene is the property's |
| CodePanel.JsRem | src/components/CodePanel.tsx:302 | JavaScript's truncating `%`: the result differs from the dividend by a multiple of the divisor, lies in [0, b) for a non-negative dividend and in (−b, 0] for a negative one |
| CodePanel.TargetCode | src/components/CodePanel.tsx:302 | the target is the snippet at `currentScene % 3` when it is non-empty, else the `code` property, else the empty string |
| CodePanel.TargetIsSceneSnippet | src/components/CodePanel.tsx:302 | with three non-empty snippets every scene types its snippet, and scenes three apart type the same code |
| CodePanel.TypeTick | src/components/CodePanel.tsx:340-348 | a tick reveals one more character (the display is the prefix up to the new position) or, at full length, resets to position 0 and an empty display |
| CodePanel.PositionCompose | src/components/CodePanel.tsx:340-348 | n ticks after m ticks are n + m ticks |
| CodePanel.TypesPrefix | src/components/CodePanel.tsx:340-345 | from the start, j ticks reveal exactly the first j characters |
| CodePanel.TypingCycle | src/components/CodePanel.tsx:340-348 | after the whole code is shown the next tick clears the display, and typing repeats with period length + 1 |
| CodePanel.EditorText | src/components/CodePanel.tsx:366-371 | the editor text is the typed code, followed by the block cursor exactly when the cursor is visible |
| CodePanel.Panel.constructor | src/components/CodePanel.tsx:270-299 | the panel starts loading, with no typed code, a visible cursor and no typing interval |
| CodePanel.Panel.LoadingTick | src/components/CodePanel.tsx:273-282 | the loading dots cycle through '', '.', '..', '...' as the index advances mod 4 |
| CodePanel.Panel.FinishLoading | src/components/CodePanel.tsx:280-286 | the 2 s timer or starting playback ends loading and changes nothing else |
| CodePanel.Panel.BlinkTick | src/components/CodePanel.tsx:289-299 | each blink tick negates the cursor's visibility and changes nothing else |
| CodePanel.Panel.StartContinuousTyping | src/components/CodePanel.tsx:331-357 | empty code changes nothing; otherwise the old interval is replaced by one typing that code from position 0 |
| CodePanel.Panel.TypingTick | src/components/CodePanel.tsx:340-348 | one interval tick performs one typing step; the display stays a prefix of the code |
| CodePanel.Panel.RestartTimeout | src/components/CodePanel.tsx:350-355 | if an interval still runs, the restart shows its first character at position 1 |
| CodePanel.Panel.OnTargetCode | src/components/CodePanel.tsx:305-309 | once loading is over, a new target starts typing it |
| CodePanel.Panel.OnSceneChange | src/components/CodePanel.tsx:312-328 | a new scene clears the display, cancels the old interval and starts typing the new target; the same scene changes nothing |
| CodePanel.Panel.Text | src/components/CodePanel.tsx:366-371 | the editor shows the typed code, with the block cursor exactly when it is visible |
| NeonCityCodeEditor.Clamp | src/components/NeonCityCodeEditor.tsx:124 | the clamp lies in [lo, hi], keeps values already there and maps values outside to the nearer bound |
| NeonCityCodeEditor.MsPerLine | src/components/NeonCityCodeEditor.tsx:119-124 | the line delay always lies in [8, 80] ms and is exactly 8 on a beat; otherwise it is 6000/(bpm + 40·energy) when that lies in [8, 80], 8 when it is below 8 (a negative denominator included), and 80 when it is above 80 or the denominator is 0 |
| NeonCityCodeEditor.MsPerLineFasterWithTempo | src/components/NeonCityCodeEditor.tsx:123-124 | a faster tempo never slows the typing down |
| NeonCityCodeEditor.BlinkMs | src/components/NeonCityCodeEditor.tsx:143-148 | the blink interval is 60 ms exactly on a beat, otherwise 100 above 160 bpm, 140 above 120 bpm and 200 at or below 120 bpm |
| NeonCityCodeEditor.BlinkNonIncreasing | src/components/NeonCityCodeEditor.tsx:143-148 | the blink interval never grows as the tempo rises |
| NeonCityCodeEditor.EditorValue | src/components/NeonCityCodeEditor.tsx:186-195 | the editor shows the first linesShown lines joined by newlines, with the cursor glyph after the last shown line exactly when the cursor is on and lines remain |
| NeonCityCodeEditor.WholeFileShown | src/components/NeonCityCodeEditor.tsx:106-116 | once every line is shown the editor holds exactly the fetched text |
| NeonCityCodeEditor.Editor.constructor | src/components/NeonCityCodeEditor.tsx:72-116 | the editor starts on file 0, loading, with no lines shown and the cursor on |
| NeonCityCodeEditor.Editor.OnFileIdx | src/components/NeonCityCodeEditor.tsx:106-112 | a new file index starts a fetch and resets the revealed lines and the scroll position |
| NeonCityCodeEditor.Editor.FileLoaded | src/components/NeonCityCodeEditor.tsx:106-116 | a loaded file is split into lines and typing restarts from zero lines |
| NeonCityCodeEditor.Editor.TypingTimeout | src/components/NeonCityCodeEditor.tsx:119-140 | while lines remain each step reveals one more; at the end the next of the six files is chosen and the count resets, so the file index stays in [0, 6) |
| NeonCityCodeEditor.Editor.BlinkTick | src/components/NeonCityCodeEditor.tsx:143-152 | each blink negates the cursor and changes nothing else |
| NeonCityCodeEditor.Editor.Value | src/components/NeonCityCodeEditor.tsx:186-195 | the editor value of the current state |
| BackgroundImageSlideshow.Advance | src/components/BackgroundImageSlideshow.tsx:113 | the new index is (index + 3) mod the list length: inside the list and differing from index + 3 by a multiple of the length; for an index in the list of at least three images, it is index + 3, wrapped once past the end |
| BackgroundImageSlideshow.Window | src/components/BackgroundImageSlideshow.tsx:123-132 | the strip has exactly 3 entries, entry i being the image i places after the index, wrapping around (repeats allowed for short lists) |
| BackgroundImageSlideshow.BuildWindow | src/components/BackgroundImageSlideshow.tsx:126-131 | the loop builds exactly that strip |
| BackgroundImageSlideshow.NextStripFollows | src/components/BackgroundImageSlideshow.tsx:113-131 | after an advance the new strip continues where the previous one ended |
| BackgroundImageSlideshow.SingleImageStrip | src/components/BackgroundImageSlideshow.tsx:126-131 | a single image fills the strip three times |
| BackgroundImageSlideshow.IsBsky | src/components/BackgroundImageSlideshow.tsx:162 | the BSKY frame applies exactly when the lower-cased path contains "bsky" |
| BackgroundImageSlideshow.BskyIgnoresCase | src/components/BackgroundImageSlideshow.tsx:162 | lower-casing the path first does not change the BSKY test |
| BackgroundImageSlideshow.Slideshow.constructor | src/components/BackgroundImageSlideshow.tsx:22-86 | the slideshow starts at image 0, not fading, with an empty strip and no timer |
| BackgroundImageSlideshow.Slideshow.StartTimer | src/components/BackgroundImageSlideshow.tsx:96-120 | an interval starts exactly when there are images, and then the strip is shown |
| BackgroundImageSlideshow.Slideshow.IntervalTick | src/components/BackgroundImageSlideshow.tsx:101-117 | ticks alternate hide and show; hiding starts the fade-out, and only the show tick advances the index |
| BackgroundImageSlideshow.Slideshow.FadeOutDone | src/components/BackgroundImageSlideshow.tsx:104-110 | the fade-out timeout only ends the fade |
| BackgroundImageSlideshow.Slideshow.UpdateStrip | src/components/BackgroundImageSlideshow.tsx:123-132 | with images the strip is rebuilt from the current index; without images it is left alone |
| BackgroundImageSlideshow.Slideshow.Rendered | src/components/BackgroundImageSlideshow.tsx:134 | nothing is rendered without images |
| SpaceShooter.Move | src/components/SpaceShooter.tsx:397 | one frame of travel lowers z by the step and keeps x and y |
| SpaceShooter.MoveAll | src/components/SpaceShooter.tsx:395-403 | every body moves by the step, in order |
| SpaceShooter.Survivors | src/components/SpaceShooter.tsx:395-403 | no more survivors than bodies, and every survivor is at or above the cutoff |
| SpaceShooter.Removed | src/components/SpaceShooter.tsx:395-403 | no more removed bodies than bodies, and every removed body is below the cutoff |
| SpaceShooter.PrunePartition | src/components/SpaceShooter.tsx:395-403 | every moved body either survives or is removed: the two together are exactly the moved bodies |
| SpaceShooter.SurvivorsConcat | src/components/SpaceShooter.tsx:395-403 | pruning works piecewise, so survivors keep their relative order |
| SpaceShooter.PrunedAreMoved | src/components/SpaceShooter.tsx:395-403 | every survivor and every removed body is an input body moved by the step |
| SpaceShooter.KeptWhenAbove | src/components/SpaceShooter.tsx:397-401 | a body that stays at or above the cutoff is kept, moved by exactly the step |
| SpaceShooter.FromIsSuffix | src/components/SpaceShooter.tsx:395-403 | the index-based description of the loop's suffix agrees with the pruning of that suffix |
| SpaceShooter.MoveAndPrune | src/components/SpaceShooter.tsx:395-403 | the backward loop with in-place `splice` leaves exactly the survivors and removes exactly the bodies below the cutoff |
| SpaceShooter.PruneStep | src/components/SpaceShooter.tsx:396-402 | one iteration of the backward loop moves body i and splices it out exactly when it falls below the cutoff |
| SpaceShooter.WheelZoom | src/components/SpaceShooter.tsx:101-107 | the wheel moves the camera by a tenth of the delta, clamped to [−130, −30] |
| SpaceShooter.Ease | src/components/SpaceShooter.tsx:427-430 | one easing step shrinks the distance to the target −40 + 20·volume by a tenth |
| SpaceShooter.EaseNoOvershoot | src/components/SpaceShooter.tsx:427-430 | easing never overshoots: the new depth lies between the old one and the target |
| SpaceShooter.CapturedSilenceMissesBeat | src/components/SpaceShooter.tsx:36-38 | with start-up silence captured, a beat frame whose draw exceeds 0.7 fires nothing although the current beat would fire a shot, and the camera eases toward a different depth than the current loudness asks for |
| SpaceShooter.Steer | src/components/SpaceShooter.tsx:381-392 | the ship, when present, follows the mouse and keeps its depth |
| SpaceShooter.AutoShot | src/components/SpaceShooter.tsx:421-424 | a beat fires at most one shot, exactly when the draw exceeds 0.7 and a ship exists, at ship depth + 290 |
| SpaceShooter.Spawned | src/components/SpaceShooter.tsx:417-419 | at most one shooting star appears, exactly when the draw exceeds 0.99, at (x, 300, 200) |
| SpaceShooter.Shooter.constructor | src/components/SpaceShooter.tsx:21-32 | the scene starts without ship, shots, stars or camera |
| SpaceShooter.Shooter.Init | src/components/SpaceShooter.tsx:36-139 | initialisation puts the camera at depth 300 and builds the ship; the animation loop it starts keeps the loudness and beat of the render that ran it |
| SpaceShooter.Shooter.AnimateFrame | src/components/SpaceShooter.tsx:130-137 | a frame of the loop as written: it is the frame update with the captured loudness and beat, whatever the current ones are |
| SpaceShooter.Shooter.CreateShot | src/components/SpaceShooter.tsx:291-314 | without a ship nothing happens; otherwise exactly one shot is appended at ship depth + 290 |
| SpaceShooter.Shooter.Wheel | src/components/SpaceShooter.tsx:101-107 | the wheel clamps the camera depth to [−130, −30] and changes nothing else |
| SpaceShooter.Shooter.UpdateScene | src/components/SpaceShooter.tsx:336-431 | one frame with the current loudness and beat steers the ship, moves and prunes shots and stars, fires and spawns by the draws and eases the camera toward −40 + 20·volume; nothing happens before the camera exists |
| SpaceShooter.Shooter.MoveBodies | src/components/SpaceShooter.tsx:381-414 | the ship follows the mouse, and shots and stars move and are pruned, each list keeping exactly its survivors |
| SpaceShooter.Shooter.SpawnAndFire | src/components/SpaceShooter.tsx:416-424 | at most one shooting star and at most one shot are appended, exactly as the draws and the beat decide |
| SpaceShooter.Shooter.SteerShip | src/components/SpaceShooter.tsx:381-392 | the ship follows the mouse |
| SpaceShooter.Shooter.AdvanceShots | src/components/SpaceShooter.tsx:395-403 | the remaining shots are exactly those still at or above −300 after moving 6, in their old order |
| SpaceShooter.Shooter.AdvanceStars | src/components/SpaceShooter.tsx:406-414 | the remaining stars are exactly those still at or above −3000 after moving 20, in their old order |
| SpaceShooter.Shooter.SpawnShootingStar | src/components/SpaceShooter.tsx:316-334 | exactly one star is appended, at (x, 300, 200) |
| SpaceShooter.Shooter.EaseCamera | src/components/SpaceShooter.tsx:427-430 | the camera takes one easing step toward its audio target |
| AudioController.FileNameFor | src/components/AudioController.tsx:94-95 | the display name is the name of the first file with that path when that name is non-empty, and the path itself when no file has it or that name is empty |
| AudioController.SumOfSquares | src/components/AudioController.tsx:155 | the sum of squares is non-negative, and 0 for a silent waveform |
| AudioController.MeanSquare | src/components/AudioController.tsx:155 | the mean square is non-negative, and 0 for a silent waveform |
| AudioController.FeaturesFromRms | src/components/AudioController.tsx:158-170 | beat exactly when rms > 0.1; energy = min(1, 5·rms) ≤ 1; bpm ≥ 120, valence ≥ 0.5, arousal ≥ 0 and energy ≥ 0 for a non-negative rms; 13 mfcc entries, all equal to rms |
| AudioController.WaveformFeatures | src/components/AudioController.tsx:155-170 | the features of a waveform have energy in [0, 1] and bpm ≥ 120; a silent waveform has root 0, and the loudness derived from it is at most 0.1, so its features have no beat |
| AudioController.Controller.constructor | src/components/AudioController.tsx:43-52 | the controller starts uninitialised, with no file, player, analyser or frame loop |
| AudioController.Controller.Cleanup | src/components/AudioController.tsx:55-69 | cleanup leaves no frame loop, player or analyser, and marks the controller disposed |
| AudioController.Controller.InitAudio | src/components/AudioController.tsx:77-87 | the audio context's outcome is reported, and a started context marks the controller initialised |
| AudioController.Controller.LoadAudioFile | src/components/AudioController.tsx:103-133 | loading cleans up and then clears the disposed flag, leaving a fresh, stopped player |
| AudioController.Controller.HandleFileSelect | src/components/AudioController.tsx:90-100 | an empty selection is ignored; otherwise the file and its name are recorded, loading starts, the app hears not-ready and a fresh player is created |
| AudioController.Controller.OnLoad | src/components/AudioController.tsx:112-119 | on load, loading ends, the app hears ready and analysis starts |
| AudioController.Controller.OnLoadError | src/components/AudioController.tsx:120-124 | on error, loading ends and the app hears not-ready |
| AudioController.Controller.UpdateFeatures | src/components/AudioController.tsx:150-191 | once disposed nothing is sent; otherwise the features of the waveform's loudness are sent and the next frame is requested |
| AudioController.Controller.TogglePlayback | src/components/AudioController.tsx:205-234 | nothing happens unless a player exists, audio is initialised and a file is selected; then a running player stops and a stopped one starts, recording the start time |
| AudioController.Controller.Elapsed | src/components/AudioController.tsx:218-226 | time is reported only while the player runs and is not disposed, as the seconds since start |
| AudioControllerMeyda.OrZero | src/components/AudioControllerMeyda.tsx:93-98 | an absent number reads as 0 and a present one as itself |
| AudioControllerMeyda.FeaturesFromMeyda | src/components/AudioControllerMeyda.tsx:91-104 | missing numbers default to 0 and missing mfcc to 13 zeros; beat exactly when rms is present and above 0.1; energy = min(1, 5·rms) ≤ 1; bpm = 120 + 60·rms; valence = 0.5 + 0.3·rms; arousal = 2·rms |
| AudioControllerMeyda.MissingRmsIsSilent | src/components/AudioControllerMeyda.tsx:93-103 | a frame without loudness gives no beat, the base tempo, no energy, neutral valence and no arousal |
| AudioControllerMeyda.AgreesWithTone | src/components/AudioControllerMeyda.tsx:99-103 | with the same loudness, this controller derives the same beat, tempo, energy, valence and arousal as the Tone.js controller |
| AudioControllerMeyda.PlayingAfter | src/components/AudioControllerMeyda.tsx:138-145 | the play event sets playing and the pause event clears it |
| AudioControllerMeyda.Toggle | src/components/AudioControllerMeyda.tsx:160-167 | without an audio element nothing is asked; otherwise a playing element is paused and a paused one played |
| AudioControllerMeyda.ToggleFlips | src/components/AudioControllerMeyda.tsx:138-167 | a toggle followed by the event it triggers flips the playing flag |
| AudioControllerMeyda.Player.constructor | src/components/AudioControllerMeyda.tsx:40-47 | the player starts with no file, not playing, not ready, no analyser and nothing reported; the analyser effect has run with these values |
| AudioControllerMeyda.Player.HandleFileSelect | src/components/AudioControllerMeyda.tsx:49-63 | an empty selection is a no-op; otherwise the file and its name are recorded, ready and playing are cleared and the app hears not-ready; the analyser is left to the effect that the change triggers |
| AudioControllerMeyda.Player.OnReadyOrFile | src/components/AudioControllerMeyda.tsx:65-123 | when `isReady` or `selectedFile` changed since the effect last ran, the cleanup stops the old analyser and a new one starts exactly for a ready, selected file, telling the app ready; afterwards an analyser runs exactly when the file is ready and selected |
| AudioControllerMeyda.Player.OnLoadedMetadata | src/components/AudioControllerMeyda.tsx:129-133 | the duration is recorded and reported, and the player becomes ready |
| AudioControllerMeyda.Player.OnTimeUpdate | src/components/AudioControllerMeyda.tsx:134-137 | the element's time is recorded and reported |
| AudioControllerMeyda.Player.OnPlayEvent | src/components/AudioControllerMeyda.tsx:138-145 | play and pause events set the playing flag and report it |
| AudioControllerMeyda.Player.TogglePlayback | src/components/AudioControllerMeyda.tsx:160-167 | the button asks nothing without an element, and otherwise asks for the command whose event flips the playing flag |
| App.InitialFeatures | src/App.tsx:10-22 | the app starts at 120 bpm with no energy, no beat, no loudness, 13 zero mfcc values and neutral valence and arousal |
| App.SceneForBpm | src/App.tsx:59-66 | the scene is max(0, floor(bpm − 125)): 0 at or below 125 bpm, otherwise the whole number of bpm above 125 |
| App.SlowTempoIsSceneZero | src/App.tsx:59-66 | below 126 bpm the scene is 0 |
| App.SceneMonotone | src/App.tsx:59-66 | a faster tempo never selects an earlier scene |
| App.InitialSceneIsZero | src/App.tsx:10-22 | the initial features select scene 0 |
| App.NonNegative | src/App.tsx:83-90 | `Math.max(0, x)` is non-negative and keeps non-negative values |
| App.ClockAfterTicks | src/App.tsx:40-42 | n ticker steps add n tenths of a second |
| App.RunTicker | src/App.tsx:34-56 | running the ticker n times while playing advances the clock by n·0.1 s and keeps the scene |
| App.AppState.constructor | src/App.tsx:24-31 | the app starts stopped, at time 0, in scene 0, at 120 bpm, with no ticker and nothing ready |
| App.AppState.Tick | src/App.tsx:40-42 | while the ticker runs each step adds 0.1 s; otherwise nothing changes |
| App.AppState.OnBpm | src/App.tsx:59-66 | a tempo change records the effective tempo and the scene it selects |
| App.AppState.HandleFeaturesUpdate | src/App.tsx:69-71 | the record is replaced, and a changed tempo re-selects the scene |
| App.AppState.HandlePlayStateChange | src/App.tsx:74-80 | stopping resets the time and the scene to 0 and clears the ticker; starting keeps them and runs the ticker |
| App.AppState.HandleTimeUpdate | src/App.tsx:83-85 | a reported time is clamped at 0 |
| App.AppState.HandleDurationChange | src/App.tsx:88-90 | a reported duration is clamped at 0 |
| App.AppState.HandleAudioReady | src/App.tsx:93-95 | the audio-ready flag takes the reported value and nothing else changes |
| App.AppState.HandleAudioContextReady | src/App.tsx:98-100 | the audio-context flag takes the reported value and nothing else changes |

## Left out

- `RoundedBox.RoundedBoxGeometry.constructor`: takes the validated parameters. The validation itself is the function `RoundedBox.Validate`.
- Vertex coordinates and normals of the rounded box (the cos/sin of `doVertices`) are not modelled. A pool vertex is named by its patch and grid position, and the model covers counts, layout and the index list.
- The `isNaN` guards of the geometry's validation and all other IEEE-754 behaviour (NaN, infinities, rounding) are not modelled, because `real` is exact. JavaScript's `x || 0` on numbers is read as "absent gives 0" and loses the NaN case.
- CubeGrid: the grid side is a parameter (20 in the scene), and the BoxGeometry position buffer is an array parameter. Meshes, materials, textures and the tween library are not modelled; a tween is the record of what is handed to it.
- Lyrics: each word's confidence is not used and is not modelled. Fetching and parsing the transcript JSON is I/O and is not modelled. `maxLineDuration` is fixed at its default of 4 s.
- All drawing is not modelled: the p5 scene loops, Three.js scenes, Monaco editor widgets, JSX and CSS. Only the state the draw calls update is modelled.
- Timers and animation frames (`setInterval`, `setTimeout`, `requestAnimationFrame`) are method calls that the environment makes in some order. Their real timing and the ordering of React effects are not modelled.
- The debug frame counter and console logging of the visualisers are not modelled.
- CodePanel: the 500 ms restart timeout is a separate event (`RestartTimeout`), so its race with a later interval is not modelled. The scene snippets are a parameter.
- `Math.random` draws (star position, spawn and auto-shoot rolls) and `Date.now` readings are parameters.
- `Math.sqrt` is the predicate `IsSqrt`: the loudness is a parameter with a non-negative square equal to the mean square. The analyser buffer always holds 1024 samples, so the waveform is required to be non-empty.
- AudioController.SumOfSquares: states non-negativity and that silence sums to 0, but not the converse (a zero sum implies silence), because that needs the solver to prove `v·v = 0 ⇒ v = 0` on reals, which it does not.
- AudioController.MeanSquare: same weakening as `SumOfSquares`, for the same reason.
- AudioController.WaveformFeatures: for a silent waveform it proves that the derived loudness is at most 0.1, so there is no beat, but not that the loudness is exactly 0 (so not that energy is 0 and bpm is 120), because that again needs `v·v = 0 ⇒ v = 0` on reals.
- The Tone.js player, analyser and audio context are flags (exists, started, disposed). Their asynchronous behaviour and exceptions are not modelled; a failed start or load is a parameter or a separate event.
- AudioControllerMeyda: the Meyda analyser is a flag, and the `<audio>` element's presence is the `hasAudio` parameter. Its `play()` and `pause()` take effect through the play and pause events.
- AudioControllerMeyda.Player.OnReadyOrFile: every start of the analyser is taken to succeed. `startMeyda` calls `createMediaElementSource` on the same `<audio>` element at each start, and browsers allow one such source per element, so a start after a second file is selected probably throws before the analyser runs and before the app hears ready. Browser exceptions are not modelled.
- Text.ToLower: folds only the ASCII letters A–Z. JavaScript's `toLowerCase` applies the full Unicode case mapping, which folds letters such as the Kelvin sign U+212A to `k` and turns `İ` into two characters, so the length can change. Unicode case tables are not modelled; the image paths the slideshow ships are ASCII.
- BackgroundImageSlideshow.IsBsky: uses the ASCII `Text.ToLower`, so a path that spells "bsky" with a non-ASCII letter folding to an ASCII one (the Kelvin sign for `k`) gets no BSKY frame here, while the source gives it one.
- BackgroundImageSlideshow.BskyIgnoresCase: holds for ASCII case only, for the same reason.
- SpaceShooter: the captured `energy` only shapes the mountain wave, which is drawing and is not modelled.
- App: the ticker is a step method, and the interval's real 100 ms timing is not modelled. The unmount cleanup only clears the interval, which the `ticking` flag covers.
- src/components/HeartPacking.tsx, src/components/Disco5everThree.tsx, src/components/NeonCityReactiveBackground.tsx, src/components/BeatDetector.tsx, public/code/CodePanel.tsx and the transcription scripts are not part of this model. They are physics, presentation or network code with no state to state properties about.

## Findings

| source | as written | input that shows it | evidently intended | confidence | as-written member | corrected member |
|---|---|---|---|---|---|---|
| src/components/SpaceShooter.tsx:36-38 | `volume` and `beat` are constants of a render; the animation loop, started once by the mount effect (lines 40-161), keeps calling the `updateScene` of that first render, so every frame uses the start-up features | the scene mounts in silence (volume 0, no beat); later a frame has a beat, volume 1 and an auto-shoot draw of 0.8: no shot is fired and the camera keeps easing toward −40 | every frame reads the current features, as src/components/ThreeCubeDance.tsx:333-337 does through a ref: the beat fires the shot and the camera eases toward −20 | high; not executed | SpaceShooter.Shooter.AnimateFrame, SpaceShooter.CapturedSilenceMissesBeat | SpaceShooter.Shooter.UpdateScene |

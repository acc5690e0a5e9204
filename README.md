# explode, modelled in Dafny

`explode(bombs, force)` animates bombs going off in a one-dimensional
chamber. The chamber is a string of 1 to 50 cells, each either `'.'` (empty)
or `'B'` (a bomb). Each bomb emits one piece of shrapnel moving left and one
moving right, `force` cells per time step (1 to 10). The function returns a
list of strings. The first is the input itself. Each later one is the chamber
after one more step: `'<'` for left-moving shrapnel, `'>'` for right-moving,
`'X'` for both, `'.'` for nothing. The list ends with the first frame that is
all dots.

The model is one module, `Explode`, in `explode.dfy`. It follows the source's
imperative form:

- `Explode` is the main function. It is a method with the same validation
  order and the same `while` loop. The loop variable `chamber` starts as
  `None`, as in the source.
- `InitializeShrapnelLocations` and `UpdateShrapnel` are the two helpers.
  Each builds its sets by adding one element per loop iteration.
- `DrawChamber` is the drawing loop from the body of `explode`.

Each method is proved against specification functions:

- `BombSet` is the set of bomb indices.
- `Shift` moves a set of positions by a distance.
- `LeftAt` and `RightAt` give the shrapnel positions after `k` steps in
  closed form.
- `Render` and `Frame` give the frame that is drawn.
- `EmptyStepFrom` and `LastStep` give the first step whose frame is all dots.
- `Animation` is the whole result.

Lemmas state the properties of these functions. A ghost step counter `k`
ties the loop of `Explode` to the closed forms.

Errors are values of `Result`, not exceptions. `ChamberSizeError` carries
the length. `ForceRangeError` carries the force. `InvalidSymbolError` carries
nothing, because its message contains no data (explode.py:81).

Two behaviours of the code are worth stating outright:

- A chamber with no bombs yields two frames, `[bombs, bombs]`. The loop
  variable `chamber` starts as `None` (explode.py:40), so the loop always
  draws once before it compares with the all-dot chamber (`NoBombs`).
- Shrapnel that leaves the chamber is never removed from the sets; it just
  stops being drawn. `FrameEmptyIffNoneInside` shows that stopping on an
  all-dot frame is the same as stopping when no shrapnel is inside the
  chamber.

## Model

| member | source | states |
|---|---|---|
| `Explode.Explode` | explode.py:6-59 | A length outside 1..50 fails with `ChamberSizeError(length)`. Otherwise a force outside 1..10 fails with `ForceRangeError(force)`. Otherwise a cell other than `'.'`/`'B'` fails with `InvalidSymbolError`. A valid input returns exactly `Animation(bombs, force)`. No partial animation is ever returned. |
| `Explode.InitializeShrapnelLocations` | explode.py:62-82 | Succeeds iff every cell is `'.'` or `'B'`. On success, both the left set and the right set equal the set of bomb indices. On failure, the error is `InvalidSymbolError`. |
| `Explode.UpdateShrapnel` | explode.py:85-101 | The new left set is every old left position minus `force`. The new right set is every old right position plus `force`. Nothing is filtered out. |
| `Explode.ShiftMember` | explode.py:92-99 | A position is in a shifted set exactly when the position it came from is in the original set. |
| `Explode.ShiftPreservesSize` | explode.py:92-99 | Shifting a set keeps its size. No two pieces merge and none is dropped. |
| `Explode.StepAdvances` | explode.py:38-45 | One update takes the step-`k` sets to the step-`k+1` sets. After `k` updates, the left set is the bomb indices minus `k*force` and the right set is the bomb indices plus `k*force`. |
| `Explode.ShrapnelCount` | explode.py:38-45 | After any number of steps, each set has exactly as many positions as there are bombs. |
| `Explode.Render` | explode.py:48-53 | The frame has length `n`. Cell `i` is `'X'` iff `i` is in both sets, `'<'` iff only in the left set, `'>'` iff only in the right set, and `'.'` iff in neither. |
| `Explode.DrawChamber` | explode.py:47-56 | The drawing loop over `0..n-1` produces exactly `Render(left, right, n)`. |
| `Explode.EmptyChamber` | explode.py:41 | The all-dot chamber has length `n` and a `'.'` in every cell. |
| `Explode.Frames` | explode.py:43-57 | The frames appended in the first `k` passes of the loop are the frames of steps 1..k, in order. |
| `Explode.FrameCell` | explode.py:45-53 | After step `k`, cell `i` is `'<'` iff a bomb sits `k*force` cells to its right and none `k*force` cells to its left. It is `'>'` in the mirror case, `'X'` iff both bombs exist, and `'.'` iff neither does. |
| `Explode.FrameFromCells` | explode.py:48-53 | A string of the chamber's length that has, in every cell, the glyph `FrameCell` prescribes is the frame after step `k`. |
| `Explode.BeyondEdgeIsEmpty` | explode.py:40-57 | Once `k*force` reaches the chamber length, the frame after step `k` is all dots. This is the termination measure of the loop. |
| `Explode.EmptyStepFrom` | explode.py:40-43 | For `force >= 1`, there is a first step at or after `k` whose frame is all dots. Every step from `k` up to it draws a frame that is not all dots. |
| `Explode.FrameEmptyIffNoneInside` | explode.py:41-43 | A frame is all dots iff no left-moving and no right-moving position lies inside `0..length-1`. |
| `Explode.AnimationFrames` | explode.py:33-57 | The first entry is the input string itself. Entry `j >= 1` is the frame after step `j`, has the input's length, and uses only `'.'`, `'<'`, `'>'` and `'X'`. |
| `Explode.AnimationEnds` | explode.py:40-57 | The animation has at least two entries. The last is all dots, and no entry between the first and the last is. |
| `Explode.AnimationLength` | explode.py:40-57 | `(entries - 2) * force` is below the chamber length, so at most `ceil(length/force)` frames follow the input. This is the bound behind termination. |
| `Explode.NoBombs` | explode.py:40-43 | A chamber without bombs yields `[bombs, bombs]`. |
| `Explode.TwoBombsFrames` | explode.py:45-56 | For `"B...B"` with force 1, the frames after steps 1..5 are `.>.<.`, `..X..`, `.<.>.`, `<...>` and `.....`. |
| `Explode.TwoBombsLastStep` | explode.py:40-43 | For `"B...B"` with force 1, the loop stops after step 5. |
| `Explode.TwoBombsCross` | explode.py:6-59 | `"B...B"` with force 1 animates as `["B...B", ".>.<.", "..X..", ".<.>.", "<...>", "....."]`. |

## Left out

- Python 2 details (`xrange`) and the exact wording and `%`-formatting of the exception messages. Errors are datatype values instead.
- Arguments of other types (a float force, a non-string chamber). The force is an `int` and the chamber a string of characters.
- The order in which Python iterates a set in `_update_shrapnel`. The model takes the elements in an arbitrary order with `:|`. The resulting set does not depend on the order.
- Determinism is not stated as a lemma. `Animation` is a function, so equal arguments give equal results.
- Only one concrete scenario, `"B...B"` with force 1, is proved. The other example animations are not.

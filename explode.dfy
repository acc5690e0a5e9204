/**
  A model of `explode`: a chamber of length 1..50 holds bombs ('B') and empty
  cells ('.'). Every bomb bursts into one piece of shrapnel moving left and one
  moving right, `force` cells per time step. The result is the animation: the
  input itself, then one drawn frame per step ('<' left-moving, '>' right-moving,
  'X' both, '.' nothing), up to and including the first all-dot frame.

  The left-moving and right-moving positions are kept in two sets of integers;
  positions that leave the chamber stay in the sets and are simply not drawn.
 */
module Explode {

  // ---------------------------------------------------------------------------
  // Errors and results
  // ---------------------------------------------------------------------------

  /** Why `explode` refuses its input. */
  datatype Error =
    | ChamberSizeError(length: int)   // the chamber is not 1..50 cells long
    | ForceRangeError(force: int)     // the force is not in 1..10
    | InvalidSymbolError              // a cell is neither '.' nor 'B'

  datatype Result<T> = Ok(value: T) | Err(error: Error)

  datatype Option<T> = None | Some(value: T)

  const MinChamberSize: int := 1
  const MaxChamberSize: int := 50
  const MinForce: int := 1
  const MaxForce: int := 10

  // ---------------------------------------------------------------------------
  // Input and output alphabets
  // ---------------------------------------------------------------------------

  /** A cell of the input chamber. */
  predicate IsCell(c: char) {
    c == '.' || c == 'B'
  }

  predicate ValidSymbols(bombs: string) {
    forall i :: 0 <= i < |bombs| ==> IsCell(bombs[i])
  }

  /** A cell of a drawn frame. */
  predicate IsGlyph(c: char) {
    c == '.' || c == '<' || c == '>' || c == 'X'
  }

  /** Everything `explode` demands of its arguments. */
  predicate ValidInput(bombs: string, force: int) {
    && MinChamberSize <= |bombs| <= MaxChamberSize
    && MinForce <= force <= MaxForce
    && ValidSymbols(bombs)
  }

  /** Position `p` lies inside the chamber and holds a bomb. */
  predicate IsBomb(bombs: string, p: int) {
    0 <= p < |bombs| && bombs[p] == 'B'
  }

  /** The indices of the bombs. */
  function BombSet(bombs: string): set<int> {
    set p | 0 <= p < |bombs| && IsBomb(bombs, p)
  }

  /** The chamber with nothing in it, `'.' * n`. */
  function EmptyChamber(n: nat): (r: string)
    ensures |r| == n
    ensures forall i :: 0 <= i < n ==> r[i] == '.'
  {
    if n == 0 then [] else EmptyChamber(n - 1) + ['.']
  }

  // ---------------------------------------------------------------------------
  // Shrapnel positions
  // ---------------------------------------------------------------------------

  /** Every position of `s` moved by `d`. Nothing is dropped: a position
      that leaves the chamber stays in the set. */
  function Shift(s: set<int>, d: int): set<int> {
    set p | p in s :: p + d
  }

  /** A position is in the shifted set exactly when it came from `s`. */
  lemma ShiftMember(s: set<int>, d: int, x: int)
    ensures x in Shift(s, d) <==> x - d in s
  {
  }

  /** Shifting one more position adds exactly its image. */
  lemma ShiftInsert(s: set<int>, p: int, d: int)
    ensures Shift(s + {p}, d) == Shift(s, d) + {p + d}
  {
  }

  /** Two shifts add up. */
  lemma ShiftShift(s: set<int>, a: int, b: int)
    ensures Shift(Shift(s, a), b) == Shift(s, a + b)
  {
    forall x
      ensures x in Shift(Shift(s, a), b) <==> x in Shift(s, a + b)
    {
      ShiftMember(Shift(s, a), b, x);
      ShiftMember(s, a, x - b);
      ShiftMember(s, a + b, x);
    }
  }

  /** Left-moving shrapnel after `k` steps: each bomb index moved by `-k * force`. */
  function LeftAt(bombs: string, force: int, k: int): set<int> {
    Shift(BombSet(bombs), -(k * force))
  }

  /** Right-moving shrapnel after `k` steps: each bomb index moved by `k * force`. */
  function RightAt(bombs: string, force: int, k: int): set<int> {
    Shift(BombSet(bombs), k * force)
  }

  /** One update moves the step-`k` sets to the step-`k + 1` sets. */
  lemma StepAdvances(bombs: string, force: int, k: int)
    ensures Shift(LeftAt(bombs, force, k), -force) == LeftAt(bombs, force, k + 1)
    ensures Shift(RightAt(bombs, force, k), force) == RightAt(bombs, force, k + 1)
  {
    assert (k + 1) * force == k * force + force;
    ShiftShift(BombSet(bombs), -(k * force), -force);
    ShiftShift(BombSet(bombs), k * force, force);
  }

  // ---------------------------------------------------------------------------
  // Drawing
  // ---------------------------------------------------------------------------

  function Glyph(inLeft: bool, inRight: bool): char {
    if inLeft then (if inRight then 'X' else '<') else (if inRight then '>' else '.')
  }

  /** The frame drawn from the two sets, cell by cell over `0..n-1`. */
  function Render(left: set<int>, right: set<int>, n: nat): (r: string)
    ensures |r| == n
    ensures forall i :: 0 <= i < n ==>
      && (r[i] == 'X' <==> i in left && i in right)
      && (r[i] == '<' <==> i in left && i !in right)
      && (r[i] == '>' <==> i !in left && i in right)
      && (r[i] == '.' <==> i !in left && i !in right)
  {
    if n == 0 then [] else Render(left, right, n - 1) + [Glyph(n - 1 in left, n - 1 in right)]
  }

  /** The frame appended after step `k`. */
  function Frame(bombs: string, force: int, k: int): string {
    Render(LeftAt(bombs, force, k), RightAt(bombs, force, k), |bombs|)
  }

  /** The frames after steps `1..k`, in order. */
  function Frames(bombs: string, force: int, k: nat): (fs: seq<string>)
    ensures |fs| == k
    ensures forall j :: 0 <= j < k ==> fs[j] == Frame(bombs, force, j + 1)
  {
    if k == 0 then [] else Frames(bombs, force, k - 1) + [Frame(bombs, force, k)]
  }

  /** Once every bomb is at least a chamber length away, nothing is drawn. */
  lemma BeyondEdgeIsEmpty(bombs: string, force: int, k: int)
    ensures k * force >= |bombs| ==> Frame(bombs, force, k) == EmptyChamber(|bombs|)
  {
  }

  /** The first step at or after `k` whose frame is all dots. */
  function EmptyStepFrom(bombs: string, force: int, k: nat): (r: nat)
    requires force >= 1 && k >= 1
    ensures r >= k
    ensures Frame(bombs, force, r) == EmptyChamber(|bombs|)
    ensures forall j :: k <= j < r ==> Frame(bombs, force, j) != EmptyChamber(|bombs|)
    decreases |bombs| - k * force
  {
    if Frame(bombs, force, k) == EmptyChamber(|bombs|) then k
    else
      BeyondEdgeIsEmpty(bombs, force, k);
      assert (k + 1) * force == k * force + force;
      var r := EmptyStepFrom(bombs, force, k + 1);
      r
  }

  /** The step at which the loop of `explode` stops. */
  function LastStep(bombs: string, force: int): nat
    requires force >= 1
  {
    EmptyStepFrom(bombs, force, 1)
  }

  /** What `explode` returns for a valid input: the input, then the frames
      of steps 1 up to the first all-dot frame. */
  function Animation(bombs: string, force: int): seq<string>
    requires force >= 1
  {
    [bombs] + Frames(bombs, force, LastStep(bombs, force))
  }

  // ---------------------------------------------------------------------------
  // The operations
  // ---------------------------------------------------------------------------

  /** `_initialize_shrapnel_locations`: both sets start as the bomb indices;
      any cell other than '.' or 'B' is an error. */
  method InitializeShrapnelLocations(bombs: string) returns (r: Result<(set<int>, set<int>)>)
    ensures r.Ok? <==> ValidSymbols(bombs)
    ensures r.Ok? ==> r.value.0 == BombSet(bombs) && r.value.1 == BombSet(bombs)
    ensures r.Err? ==> r.error == InvalidSymbolError
  {
    var left: set<int> := {};
    var right: set<int> := {};
    for index := 0 to |bombs|
      invariant forall j :: j in left <==> 0 <= j < index && bombs[j] == 'B'
      invariant right == left
      invariant forall j :: 0 <= j < index ==> IsCell(bombs[j])
    {
      var ch := bombs[index];
      if ch == 'B' {
        left := left + {index};
        right := right + {index};
      } else if ch != '.' {
        return Err(InvalidSymbolError);
      }
    }
    return Ok((left, right));
  }

  /** `_update_shrapnel`: every left position moves by `-force`, every right
      position by `+force`. */
  method UpdateShrapnel(left: set<int>, right: set<int>, force: int)
    returns (nextLeft: set<int>, nextRight: set<int>)
    ensures nextLeft == Shift(left, -force)
    ensures nextRight == Shift(right, force)
  {
    nextLeft := {};
    var todo := left;
    assert left - todo == {};
    while todo != {}
      invariant todo <= left
      invariant nextLeft == Shift(left - todo, -force)
      decreases todo
    {
      assert (forall x :: x !in todo) ==> todo == {};
      var shrapnel: int :| shrapnel in todo;
      ShiftInsert(left - todo, shrapnel, -force);
      assert left - (todo - {shrapnel}) == (left - todo) + {shrapnel};
      nextLeft := nextLeft + {shrapnel - force};
      todo := todo - {shrapnel};
    }
    assert left - todo == left;
    nextRight := {};
    todo := right;
    assert right - todo == {};
    while todo != {}
      invariant todo <= right
      invariant nextRight == Shift(right - todo, force)
      decreases todo
    {
      assert (forall x :: x !in todo) ==> todo == {};
      var shrapnel: int :| shrapnel in todo;
      ShiftInsert(right - todo, shrapnel, force);
      assert right - (todo - {shrapnel}) == (right - todo) + {shrapnel};
      nextRight := nextRight + {shrapnel + force};
      todo := todo - {shrapnel};
    }
    assert right - todo == right;
  }

  /** Draws cells `0..n-1` from the two sets. */
  method DrawChamber(left: set<int>, right: set<int>, n: nat) returns (chamber: string)
    ensures chamber == Render(left, right, n)
  {
    chamber := [];
    for location := 0 to n
      invariant chamber == Render(left, right, location)
    {
      if location in left {
        chamber := chamber + [if location in right then 'X' else '<'];
      } else {
        chamber := chamber + [if location in right then '>' else '.'];
      }
    }
  }

  /** `explode`: validate, then step and draw until the drawn frame is all dots. */
  method Explode(bombs: string, force: int) returns (r: Result<seq<string>>)
    ensures !(MinChamberSize <= |bombs| <= MaxChamberSize) ==> r == Err(ChamberSizeError(|bombs|))
    ensures MinChamberSize <= |bombs| <= MaxChamberSize && !(MinForce <= force <= MaxForce) ==>
              r == Err(ForceRangeError(force))
    ensures (MinChamberSize <= |bombs| <= MaxChamberSize && MinForce <= force <= MaxForce &&
             !ValidSymbols(bombs)) ==> r == Err(InvalidSymbolError)
    ensures ValidInput(bombs, force) ==> r == Ok(Animation(bombs, force))
  {
    var chamberSize := |bombs|;
    if chamberSize < MinChamberSize || chamberSize > MaxChamberSize {
      return Err(ChamberSizeError(chamberSize));
    }
    if force < MinForce || force > MaxForce {
      return Err(ForceRangeError(force));
    }

    var animation := [bombs];

    var init := InitializeShrapnelLocations(bombs);
    if init.Err? {
      return Err(init.error);
    }
    var left, right := init.value.0, init.value.1;

    var chamber: Option<string> := None;
    var emptyChamber := EmptyChamber(chamberSize);
    ghost var k: nat := 0;
    ghost var last := LastStep(bombs, force);
    assert last >= 1 && Frame(bombs, force, last) == emptyChamber;
    while chamber != Some(emptyChamber)
      invariant left == LeftAt(bombs, force, k)
      invariant right == RightAt(bombs, force, k)
      invariant chamber == if k == 0 then None else Some(Frame(bombs, force, k))
      invariant animation == [bombs] + Frames(bombs, force, k)
      invariant k <= last
      decreases last - k
    {
      // a drawn frame that is not all dots is not the last one
      assert k != last;
      StepAdvances(bombs, force, k);
      left, right := UpdateShrapnel(left, right, force);
      k := k + 1;

      var drawn := DrawChamber(left, right, chamberSize);
      chamber := Some(drawn);
      animation := animation + [drawn];
    }
    // the first all-dot frame is the last one
    assert k == last;
    assert animation == Animation(bombs, force);
    return Ok(animation);
  }

  // ---------------------------------------------------------------------------
  // Properties
  // ---------------------------------------------------------------------------

  /** Moving a set loses nothing: no two positions land on the same cell. */
  lemma {:induction false} ShiftPreservesSize(s: set<int>, d: int)
    ensures |Shift(s, d)| == |s|
    decreases s
  {
    if s == {} {
      assert Shift(s, d) == {};
    } else {
      assert (forall x :: x !in s) ==> s == {};
      var p :| p in s;
      var rest := s - {p};
      assert s == rest + {p};
      ShiftPreservesSize(rest, d);
      ShiftInsert(rest, p, d);
      ShiftMember(rest, d, p + d);
    }
  }

  /** However many steps have passed, there are as many left-moving and as
      many right-moving pieces as there are bombs. */
  lemma ShrapnelCount(bombs: string, force: int, k: int)
    ensures |LeftAt(bombs, force, k)| == |BombSet(bombs)|
    ensures |RightAt(bombs, force, k)| == |BombSet(bombs)|
  {
    ShiftPreservesSize(BombSet(bombs), -(k * force));
    ShiftPreservesSize(BombSet(bombs), k * force);
  }

  /** The cell `i` of the frame after step `k`, read off the input: '<' when a
      bomb sits `k * force` cells to its right, '>' when one sits `k * force`
      cells to its left, 'X' when both, '.' when neither. */
  lemma FrameCell(bombs: string, force: int, k: int, i: int)
    requires 0 <= i < |bombs|
    ensures Frame(bombs, force, k)[i] == 'X' <==> IsBomb(bombs, i + k * force) && IsBomb(bombs, i - k * force)
    ensures Frame(bombs, force, k)[i] == '<' <==> IsBomb(bombs, i + k * force) && !IsBomb(bombs, i - k * force)
    ensures Frame(bombs, force, k)[i] == '>' <==> !IsBomb(bombs, i + k * force) && IsBomb(bombs, i - k * force)
    ensures Frame(bombs, force, k)[i] == '.' <==> !IsBomb(bombs, i + k * force) && !IsBomb(bombs, i - k * force)
  {
    ShiftMember(BombSet(bombs), -(k * force), i);
    ShiftMember(BombSet(bombs), k * force, i);
  }

  /** A frame is all dots exactly when no shrapnel is inside the chamber:
      stopping on the drawn frame is stopping when every piece has left. */
  lemma FrameEmptyIffNoneInside(bombs: string, force: int, k: int)
    ensures Frame(bombs, force, k) == EmptyChamber(|bombs|) <==>
      (forall p :: p in LeftAt(bombs, force, k) ==> p < 0 || p >= |bombs|) &&
      (forall p :: p in RightAt(bombs, force, k) ==> p < 0 || p >= |bombs|)
  {
  }

  /** Every frame after the input has the input's length and is drawn with
      '.', '<', '>' and 'X' only. */
  lemma AnimationFrames(bombs: string, force: int)
    requires force >= 1
    ensures Animation(bombs, force)[0] == bombs
    ensures forall j :: 1 <= j < |Animation(bombs, force)| ==>
      Animation(bombs, force)[j] == Frame(bombs, force, j)
    ensures forall j :: 1 <= j < |Animation(bombs, force)| ==>
      |Animation(bombs, force)[j]| == |bombs|
    ensures forall j, i :: 1 <= j < |Animation(bombs, force)| && 0 <= i < |Animation(bombs, force)[j]| ==>
      IsGlyph(Animation(bombs, force)[j][i])
  {
  }

  /** The animation holds the input and at least one frame; it ends with the
      first all-dot frame, and no frame before it is all dots. */
  lemma AnimationEnds(bombs: string, force: int)
    requires force >= 1
    ensures |Animation(bombs, force)| >= 2
    ensures Animation(bombs, force)[|Animation(bombs, force)| - 1] == EmptyChamber(|bombs|)
    ensures forall j :: 1 <= j < |Animation(bombs, force)| - 1 ==>
      Animation(bombs, force)[j] != EmptyChamber(|bombs|)
  {
  }

  /** At most ceil(|bombs| / force) frames follow the input: the step before
      the last one still had shrapnel inside the chamber. */
  lemma AnimationLength(bombs: string, force: int)
    requires force >= 1 && |bombs| >= 1
    ensures (|Animation(bombs, force)| - 2) * force < |bombs|
  {
    var last := LastStep(bombs, force);
    assert |Animation(bombs, force)| == last + 1;
    if last > 1 {
      assert Frame(bombs, force, last - 1) != EmptyChamber(|bombs|);
      BeyondEdgeIsEmpty(bombs, force, last - 1);
    }
  }

  /** A chamber without bombs still yields two frames: the loop draws once
      before it compares. */
  lemma NoBombs(bombs: string, force: int)
    requires force >= 1
    requires forall i :: 0 <= i < |bombs| ==> bombs[i] == '.'
    ensures Animation(bombs, force) == [bombs, bombs]
  {
    var f := Frame(bombs, force, 1);
    forall i | 0 <= i < |bombs|
      ensures f[i] == '.'
    {
      FrameCell(bombs, force, 1, i);
    }
    assert f == EmptyChamber(|bombs|) == bombs;
    assert LastStep(bombs, force) == 1;
  }

  /** A frame is determined cell by cell by the bombs `k * force` cells away. */
  lemma FrameFromCells(bombs: string, force: int, k: int, expected: string)
    requires |expected| == |bombs|
    requires forall i :: 0 <= i < |bombs| ==>
      expected[i] == Glyph(IsBomb(bombs, i + k * force), IsBomb(bombs, i - k * force))
    ensures Frame(bombs, force, k) == expected
  {
    forall i | 0 <= i < |bombs|
      ensures Frame(bombs, force, k)[i] == expected[i]
    {
      FrameCell(bombs, force, k, i);
    }
  }

  /** The five frames of two bombs at the ends of a five-cell chamber, force 1. */
  lemma TwoBombsFrames()
    ensures Frame("B...B", 1, 1) == ".>.<."
    ensures Frame("B...B", 1, 2) == "..X.."
    ensures Frame("B...B", 1, 3) == ".<.>."
    ensures Frame("B...B", 1, 4) == "<...>"
    ensures Frame("B...B", 1, 5) == "....."
  {
    FrameFromCells("B...B", 1, 1, ".>.<.");
    FrameFromCells("B...B", 1, 2, "..X..");
    FrameFromCells("B...B", 1, 3, ".<.>.");
    FrameFromCells("B...B", 1, 4, "<...>");
    FrameFromCells("B...B", 1, 5, ".....");
  }

  /** The first all-dot frame of `"B...B"` with force 1 is the fifth. */
  lemma TwoBombsLastStep()
    ensures LastStep("B...B", 1) == 5
  {
    TwoBombsFrames();
    assert EmptyChamber(5) == ".....";
    assert EmptyStepFrom("B...B", 1, 5) == 5;
    assert EmptyStepFrom("B...B", 1, 4) == 5;
    assert EmptyStepFrom("B...B", 1, 3) == 5;
    assert EmptyStepFrom("B...B", 1, 2) == 5;
  }

  /** The inner shrapnel of the two bombs crosses in the middle, and the
      chamber is empty after five steps. */
  lemma TwoBombsCross()
    ensures Animation("B...B", 1) == ["B...B", ".>.<.", "..X..", ".<.>.", "<...>", "....."]
  {
    TwoBombsFrames();
    TwoBombsLastStep();
    assert Frames("B...B", 1, 2) == [".>.<.", "..X.."];
    assert Frames("B...B", 1, 4) == [".>.<.", "..X..", ".<.>.", "<...>"];
    assert Frames("B...B", 1, 5) == [".>.<.", "..X..", ".<.>.", "<...>", "....."];
  }
}

/**
  The cube state of the solver library: six sticker colors, a face of nine
  stickers, a cube of six faces, and the quarter-turn moves the solver names.

  `Face` and `Cube3x3x3` are values (the library copies them freely and never
  changes one after it is built). Their queries `IsOneColor`, `HasValidFaces`
  and `IsSolved` are loops with early exits, so they are methods here, each
  proved equal to a specification predicate (`OneColor`, `ValidCounts`,
  `Solved`); the lemmas below state what those predicates mean.
 */
module Cube {
  import opened Wrappers

  datatype Color = Blue | Green | Orange | Red | White | Yellow

  // ---------------------------------------------------------------------------
  // Faces
  // ---------------------------------------------------------------------------

  /** Positions of the nine stickers of a face, row by row. */
  const TOP_LEFT: nat := 0
  const TOP: nat := 1
  const TOP_RIGHT: nat := 2
  const LEFT: nat := 3
  const CENTER: nat := 4
  const RIGHT: nat := 5
  const BOTTOM_LEFT: nat := 6
  const BOTTOM: nat := 7
  const BOTTOM_RIGHT: nat := 8

  /** The library's `[Color; 9]`. */
  type NineColors = s: seq<Color> | |s| == 9
    witness [Blue, Blue, Blue, Blue, Blue, Blue, Blue, Blue, Blue]

  datatype Face = Face(colors: NineColors)

  /** Builds a face from its nine stickers, given row by row. */
  function NewFace(tl: Color, t: Color, tr: Color,
                   l: Color, c: Color, r: Color,
                   bl: Color, b: Color, br: Color): (f: Face)
    ensures f.colors[TOP_LEFT] == tl && f.colors[TOP] == t && f.colors[TOP_RIGHT] == tr
    ensures f.colors[LEFT] == l && f.colors[CENTER] == c && f.colors[RIGHT] == r
    ensures f.colors[BOTTOM_LEFT] == bl && f.colors[BOTTOM] == b && f.colors[BOTTOM_RIGHT] == br
  {
    Face([tl, t, tr, l, c, r, bl, b, br])
  }

  /** Every face is built by `NewFace` from its own stickers, read position by position. */
  lemma NewFaceOfStickers(f: Face)
    ensures NewFace(f.colors[TOP_LEFT], f.colors[TOP], f.colors[TOP_RIGHT],
                    f.colors[LEFT], f.colors[CENTER], f.colors[RIGHT],
                    f.colors[BOTTOM_LEFT], f.colors[BOTTOM], f.colors[BOTTOM_RIGHT]) == f
  {
  }

  /**
    What the library calls "one color": the stickers at positions 1 to 5
    all equal the sticker at position 0. Positions 6, 7 and 8 are not looked at.
   */
  predicate OneColor(f: Face)
  {
    forall k :: 1 <= k < 6 ==> f.colors[k] == f.colors[0]
  }

  /** Compares positions 1 to 5 with position 0 and stops at the first mismatch. */
  method IsOneColor(f: Face) returns (one: bool)
    ensures one == OneColor(f)
  {
    var firstColor := f.colors[0];
    for k := 1 to 6
      invariant forall j :: 1 <= j < k ==> f.colors[j] == firstColor
    {
      if f.colors[k] != firstColor {
        return false;
      }
    }
    return true;
  }

  /** Whether a face is one color depends on its first six stickers only. */
  lemma OneColorIgnoresLastRow(f: Face, g: Face)
    requires f.colors[..6] == g.colors[..6]
    ensures OneColor(f) == OneColor(g)
  {
  }

  /** A face of nine equal stickers is one color, but not conversely: a face whose
      bottom-right sticker differs from the rest is reported as one color too. */
  lemma OneColorIsWeakerThanUniform()
    ensures forall f: Face :: (forall k :: 0 <= k < 9 ==> f.colors[k] == f.colors[0]) ==> OneColor(f)
    ensures exists f: Face :: OneColor(f) && f.colors[BOTTOM_RIGHT] != f.colors[TOP_LEFT]
  {
    var f := NewFace(Blue, Blue, Blue, Blue, Blue, Blue, Blue, Blue, Green);
    assert OneColor(f) && f.colors[BOTTOM_RIGHT] != f.colors[TOP_LEFT];
  }

  // ---------------------------------------------------------------------------
  // Counting stickers
  // ---------------------------------------------------------------------------

  /** How many stickers of `s` have color `c`. */
  function Occurrences(s: seq<Color>, c: Color): (n: nat)
    ensures n <= |s|
  {
    if s == [] then 0
    else Occurrences(s[..|s| - 1], c) + (if s[|s| - 1] == c then 1 else 0)
  }

  lemma OccurrencesSnoc(s: seq<Color>, x: Color, c: Color)
    ensures Occurrences(s + [x], c) == Occurrences(s, c) + (if x == c then 1 else 0)
  {
  }

  lemma {:induction false} OccurrencesAppend(s: seq<Color>, t: seq<Color>, c: Color)
    ensures Occurrences(s + t, c) == Occurrences(s, c) + Occurrences(t, c)
    decreases |t|
  {
    if t == [] {
      assert s + t == s;
    } else {
      var init := t[..|t| - 1];
      assert s + t == (s + init) + [t[|t| - 1]];
      assert t == init + [t[|t| - 1]];
      OccurrencesAppend(s, init, c);
      OccurrencesSnoc(s + init, t[|t| - 1], c);
      OccurrencesSnoc(init, t[|t| - 1], c);
    }
  }

  /** A run of stickers that all have color `c` counts its whole length. */
  lemma {:induction false} OccurrencesOfRun(s: seq<Color>, c: Color)
    requires forall k :: 0 <= k < |s| ==> s[k] == c
    ensures Occurrences(s, c) == |s|
  {
    if s != [] {
      OccurrencesOfRun(s[..|s| - 1], c);
    }
  }

  /** Every sticker has exactly one of the six colors. */
  lemma {:induction false} OccurrencesSumToLength(s: seq<Color>)
    ensures Occurrences(s, Blue) + Occurrences(s, Green) + Occurrences(s, Orange)
          + Occurrences(s, Red) + Occurrences(s, White) + Occurrences(s, Yellow) == |s|
  {
    if s != [] {
      OccurrencesSumToLength(s[..|s| - 1]);
    }
  }

  /** The stickers of the given faces, face after face. */
  function Stickers(faces: seq<Face>): (s: seq<Color>)
    ensures |s| == 9 * |faces|
  {
    if faces == [] then []
    else Stickers(faces[..|faces| - 1]) + faces[|faces| - 1].colors
  }

  lemma {:induction false} StickersAppend(f: seq<Face>, g: seq<Face>)
    ensures Stickers(f + g) == Stickers(f) + Stickers(g)
    decreases |g|
  {
    if g == [] {
      assert f + g == f;
    } else {
      var init := g[..|g| - 1];
      assert (f + g)[..|f + g| - 1] == f + init;
      StickersAppend(f, init);
    }
  }

  /** Counting over the first `n` faces never finds more than counting over all of them. */
  lemma OccurrencesGrowWithFaces(faces: seq<Face>, n: nat, c: Color)
    requires n <= |faces|
    ensures Occurrences(Stickers(faces[..n]), c) <= Occurrences(Stickers(faces), c)
  {
    assert faces == faces[..n] + faces[n..];
    StickersAppend(faces[..n], faces[n..]);
    OccurrencesAppend(Stickers(faces[..n]), Stickers(faces[n..]), c);
  }

  /** The stickers of face `i` are counted in the stickers of all faces. */
  lemma {:induction false} OccurrencesIncludeFace(faces: seq<Face>, i: nat, c: Color)
    requires i < |faces|
    ensures Occurrences(faces[i].colors, c) <= Occurrences(Stickers(faces), c)
  {
    var m := |faces| - 1;
    OccurrencesAppend(Stickers(faces[..m]), faces[m].colors, c);
    if i < m {
      OccurrencesIncludeFace(faces[..m], i, c);
    }
  }

  /** The stickers of two different faces are counted separately. */
  lemma {:induction false} OccurrencesIncludeTwoFaces(faces: seq<Face>, i: nat, j: nat, c: Color)
    requires i < |faces| && j < |faces| && i != j
    ensures Occurrences(faces[i].colors, c) + Occurrences(faces[j].colors, c)
         <= Occurrences(Stickers(faces), c)
  {
    var m := |faces| - 1;
    OccurrencesAppend(Stickers(faces[..m]), faces[m].colors, c);
    if i == m {
      OccurrencesIncludeFace(faces[..m], j, c);
    } else if j == m {
      OccurrencesIncludeFace(faces[..m], i, c);
    } else {
      OccurrencesIncludeTwoFaces(faces[..m], i, j, c);
    }
  }

  // ---------------------------------------------------------------------------
  // The cube
  // ---------------------------------------------------------------------------

  /** Slots of the color counter, one per color. */
  const BLUE: nat := 0
  const GREEN: nat := 1
  const ORANGE: nat := 2
  const RED: nat := 3
  const WHITE: nat := 4
  const YELLOW: nat := 5

  /** The counter slot of a color. */
  function ColorIndex(c: Color): (i: nat)
    ensures i < 6
  {
    match c
    case Blue => BLUE
    case Green => GREEN
    case Orange => ORANGE
    case Red => RED
    case White => WHITE
    case Yellow => YELLOW
  }

  /** The color a counter slot counts. */
  function ColorAt(i: nat): (c: Color)
    requires i < 6
    ensures ColorIndex(c) == i
  {
    if i == BLUE then Blue
    else if i == GREEN then Green
    else if i == ORANGE then Orange
    else if i == RED then Red
    else if i == WHITE then White
    else Yellow
  }

  /** Different colors are counted in different slots. */
  lemma SlotOfColor(c: Color)
    ensures ColorAt(ColorIndex(c)) == c
  {
  }

  /** Faces in the order front, left, back, right, top, bottom: the library's `[Face; 6]`. */
  type Faces = s: seq<Face> | |s| == 6
    witness var f := Face([Blue, Blue, Blue, Blue, Blue, Blue, Blue, Blue, Blue]); [f, f, f, f, f, f]

  datatype Cube3x3x3 = Cube3x3x3(faces: Faces)

  /** Rust's `u8`. */
  newtype u8 = x: int | 0 <= x < 256

  const INVALID_START_STATE := "Invalid start state"

  /** No color has more than nine stickers on the given faces. */
  predicate ValidCounts(faces: seq<Face>)
  {
    forall c: Color :: Occurrences(Stickers(faces), c) <= 9
  }

  /** What the validation loop tests: after each face, no running count exceeds nine. */
  predicate RunningCountsValid(faces: seq<Face>)
  {
    forall n: nat, c: Color :: 1 <= n <= |faces| ==> Occurrences(Stickers(faces[..n]), c) <= 9
  }

  /** Slot `ColorIndex(c)` of `counts` holds the number of stickers of color `c` in `seen`. */
  ghost predicate Tallies(counts: seq<u8>, seen: seq<Color>)
  {
    |counts| == 6 && forall c :: counts[ColorIndex(c)] as int == Occurrences(seen, c)
  }

  lemma TalliesStep(counts: seq<u8>, seen: seq<Color>, x: Color, next: seq<u8>)
    requires Tallies(counts, seen) && |next| == 6
    requires next[ColorIndex(x)] as int == counts[ColorIndex(x)] as int + 1
    requires forall k :: 0 <= k < 6 && k != ColorIndex(x) ==> next[k] == counts[k]
    ensures Tallies(next, seen + [x])
  {
    forall c ensures next[ColorIndex(c)] as int == Occurrences(seen + [x], c) {
      OccurrencesSnoc(seen, x, c);
      if c != x {
        SlotOfColor(c);
        SlotOfColor(x);
        assert ColorIndex(c) != ColorIndex(x);
      }
    }
  }

  lemma TalliesAt(counts: seq<u8>, seen: seq<Color>, k: nat)
    requires Tallies(counts, seen) && k < 6
    ensures counts[k] as int == Occurrences(seen, ColorAt(k))
  {
  }

  /**
    Adds the nine stickers of one face to the counters, one increment per
    sticker. The counters are `u8` values: each increment is checked to stay
    below 256, which holds because at most 45 stickers were counted before.
   */
  method CountFace(colorCount: array<u8>, face: Face, ghost counted: seq<Color>)
    requires Tallies(colorCount[..], counted) && |counted| <= 45
    modifies colorCount
    ensures Tallies(colorCount[..], counted + face.colors)
  {
    assert counted + face.colors[..0] == counted;
    for j := 0 to 9
      invariant Tallies(colorCount[..], counted + face.colors[..j])
    {
      var color := face.colors[j];
      ghost var seen := counted + face.colors[..j];
      ghost var before := colorCount[..];
      assert colorCount[ColorIndex(color)] as int == Occurrences(seen, color) <= |seen| < 54;
      colorCount[ColorIndex(color)] := colorCount[ColorIndex(color)] + 1;
      TalliesStep(before, seen, color, colorCount[..]);
      assert counted + face.colors[..j + 1] == seen + [color];
    }
    assert face.colors[..9] == face.colors;
  }

  /**
    Counts the stickers of each color in an array of six 8-bit counters, face
    by face, and gives up as soon as a counter passes nine.
   */
  method HasValidFaces(cube: Cube3x3x3) returns (valid: bool)
    ensures valid == ValidCounts(cube.faces)
  {
    var colorCount := new u8[6](_ => 0);
    for i := 0 to 6
      invariant Tallies(colorCount[..], Stickers(cube.faces[..i]))
      invariant forall c :: Occurrences(Stickers(cube.faces[..i]), c) <= 9
    {
      CountFace(colorCount, cube.faces[i], Stickers(cube.faces[..i]));
      ghost var done := cube.faces[..i + 1];
      assert Stickers(cube.faces[..i]) + cube.faces[i].colors == Stickers(done) by {
        assert done[..i] == cube.faces[..i];
      }
      for k := 0 to 6
        invariant forall m :: 0 <= m < k ==> colorCount[m] <= 9
      {
        if colorCount[k] > 9 {
          TalliesAt(colorCount[..], Stickers(done), k);
          OccurrencesGrowWithFaces(cube.faces, i + 1, ColorAt(k));
          return false;
        }
      }
      forall c ensures Occurrences(Stickers(done), c) <= 9 {
        TalliesAt(colorCount[..], Stickers(done), ColorIndex(c));
      }
    }
    assert cube.faces[..6] == cube.faces;
    return true;
  }

  /** Checking the running counts after every face decides the same as checking the totals once. */
  lemma RunningCheckIsFinalCheck(faces: seq<Face>)
    ensures RunningCountsValid(faces) <==> ValidCounts(faces)
  {
    if RunningCountsValid(faces) && faces != [] {
      assert faces[..|faces|] == faces;
    }
    if ValidCounts(faces) {
      forall n: nat, c: Color | 1 <= n <= |faces|
        ensures Occurrences(Stickers(faces[..n]), c) <= 9
      {
        OccurrencesGrowWithFaces(faces, n, c);
      }
    }
  }

  /** On six faces, "at most nine of each color" is "exactly nine of each color". */
  lemma ValidCountsIffNineEach(faces: Faces)
    ensures ValidCounts(faces) ==> forall c: Color :: Occurrences(Stickers(faces), c) == 9
    ensures (forall c: Color :: Occurrences(Stickers(faces), c) == 9) ==> ValidCounts(faces)
  {
    var s := Stickers(faces);
    OccurrencesSumToLength(s);
    if ValidCounts(faces) {
      assert Occurrences(s, Blue) <= 9 && Occurrences(s, Green) <= 9 && Occurrences(s, Orange) <= 9;
      assert Occurrences(s, Red) <= 9 && Occurrences(s, White) <= 9 && Occurrences(s, Yellow) <= 9;
      forall c: Color ensures Occurrences(s, c) == 9 {
        assert c.Blue? || c.Green? || c.Orange? || c.Red? || c.White? || c.Yellow?;
      }
    } else {
      assert !forall c: Color :: Occurrences(s, c) == 9;
    }
  }

  /** Validates the stickers and wraps the faces, unchanged, in a cube. */
  method NewCube(faces: Faces) returns (r: Result<Cube3x3x3, string>)
    ensures r.Err? <==> !ValidCounts(faces)
    ensures r.Err? ==> r.error == INVALID_START_STATE
    ensures r.Ok? ==> r.value.faces == faces
  {
    var cube := Cube3x3x3(faces);
    var valid := HasValidFaces(cube);
    if !valid {
      return Err(INVALID_START_STATE);
    }
    return Ok(cube);
  }

  /** Every face is one color, in the library's sense. */
  predicate Solved(cube: Cube3x3x3)
  {
    forall i :: 0 <= i < 6 ==> OneColor(cube.faces[i])
  }

  /** Asks each face in turn and stops at the first one that is not one color. */
  method IsSolved(cube: Cube3x3x3) returns (solved: bool)
    ensures solved == Solved(cube)
  {
    for i := 0 to 6
      invariant forall j :: 0 <= j < i ==> OneColor(cube.faces[j])
    {
      var one := IsOneColor(cube.faces[i]);
      if !one {
        return false;
      }
    }
    return true;
  }

  /** Whether a cube is solved depends on the first six stickers of each face only. */
  lemma SolvedIgnoresLastRows(a: Cube3x3x3, b: Cube3x3x3)
    requires forall i :: 0 <= i < 6 ==> a.faces[i].colors[..6] == b.faces[i].colors[..6]
    ensures Solved(a) == Solved(b)
  {
  }

  /** A face that is one color holds at least six stickers of its top-left color. */
  lemma OneColorHasSix(f: Face)
    requires OneColor(f)
    ensures Occurrences(f.colors, f.colors[TOP_LEFT]) >= 6
  {
    assert f.colors == f.colors[..6] + f.colors[6..];
    OccurrencesOfRun(f.colors[..6], f.colors[0]);
    OccurrencesAppend(f.colors[..6], f.colors[6..], f.colors[0]);
  }

  /**
    In a valid cube that is solved, no two faces share their top-left color:
    two such faces would hold at least twelve stickers of one color.
   */
  lemma ValidSolvedFacesDiffer(cube: Cube3x3x3)
    requires ValidCounts(cube.faces) && Solved(cube)
    ensures forall i, j :: 0 <= i < j < 6 ==> cube.faces[i].colors[TOP_LEFT] != cube.faces[j].colors[TOP_LEFT]
  {
    forall i, j | 0 <= i < j < 6
      ensures cube.faces[i].colors[TOP_LEFT] != cube.faces[j].colors[TOP_LEFT]
    {
      var c := cube.faces[i].colors[0];
      if cube.faces[j].colors[0] == c {
        OneColorHasSix(cube.faces[i]);
        OneColorHasSix(cube.faces[j]);
        OccurrencesIncludeTwoFaces(cube.faces, i, j, c);
        assert false;
      }
    }
  }

  // ---------------------------------------------------------------------------
  // Moves
  // ---------------------------------------------------------------------------

  /** The quarter turns the solver names. The library applies none of them. */
  datatype Move =
    | TopRotateLeft
    | TopRotateRight
    | BottomRotateLeft
    | BottomRotateRight
    | LeftRotateUp
    | LeftRotateDown
    | RightRotateUp
    | RightRotateDown
}

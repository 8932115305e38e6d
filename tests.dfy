/**
  The library's one example: a scrambled cube is built, handed to a solver and
  solved. The cube is valid, and since the solver returns it unchanged, what
  comes back is not solved.
 */
module LibTests {
  import opened Wrappers
  import opened Cube
  import opened Solver

  const EXAMPLE_FRONT := NewFace(Yellow, Yellow, Green, Green, Orange, Orange, Green, White, Blue)
  const EXAMPLE_LEFT := NewFace(Red, Orange, Green, Yellow, Blue, Orange, Yellow, Blue, White)
  const EXAMPLE_BACK := NewFace(Blue, Green, White, Green, Red, Red, Orange, Green, Blue)
  const EXAMPLE_RIGHT := NewFace(Red, White, Orange, Blue, Green, Yellow, White, Blue, Yellow)
  const EXAMPLE_TOP := NewFace(Blue, White, Yellow, White, White, Blue, Red, Orange, White)
  const EXAMPLE_BOTTOM := NewFace(Orange, Red, Orange, Yellow, Yellow, Red, Red, Red, Green)

  const EXAMPLE_FACES: Faces :=
    [EXAMPLE_FRONT, EXAMPLE_LEFT, EXAMPLE_BACK, EXAMPLE_RIGHT, EXAMPLE_TOP, EXAMPLE_BOTTOM]

  /** One if the sticker has color `c`, zero otherwise. */
  function Matches(x: Color, c: Color): nat {
    if x == c then 1 else 0
  }

  lemma OccurrencesOfPrefix(s: seq<Color>, k: nat, c: Color)
    requires 0 < k <= |s|
    ensures Occurrences(s[..k], c) == Occurrences(s[..k - 1], c) + Matches(s[k - 1], c)
  {
    assert s[..k][..k - 1] == s[..k - 1];
  }

  /** Counts the stickers of one face position by position. */
  lemma OccurrencesOnFace(f: Face, c: Color)
    ensures Occurrences(f.colors, c)
         == Matches(f.colors[0], c) + Matches(f.colors[1], c) + Matches(f.colors[2], c)
          + Matches(f.colors[3], c) + Matches(f.colors[4], c) + Matches(f.colors[5], c)
          + Matches(f.colors[6], c) + Matches(f.colors[7], c) + Matches(f.colors[8], c)
  {
    var s := f.colors;
    assert s[..9] == s;
    OccurrencesOfPrefix(s, 9, c);
    OccurrencesOfPrefix(s, 8, c);
    OccurrencesOfPrefix(s, 7, c);
    OccurrencesOfPrefix(s, 6, c);
    OccurrencesOfPrefix(s, 5, c);
    OccurrencesOfPrefix(s, 4, c);
    OccurrencesOfPrefix(s, 3, c);
    OccurrencesOfPrefix(s, 2, c);
    OccurrencesOfPrefix(s, 1, c);
  }

  lemma OccurrencesOfFacePrefix(faces: seq<Face>, n: nat, c: Color)
    requires 0 < n <= |faces|
    ensures Occurrences(Stickers(faces[..n]), c)
         == Occurrences(Stickers(faces[..n - 1]), c) + Occurrences(faces[n - 1].colors, c)
  {
    assert faces[..n][..n - 1] == faces[..n - 1];
    OccurrencesAppend(Stickers(faces[..n - 1]), faces[n - 1].colors, c);
  }

  /** Counts the stickers of a cube face by face. */
  lemma OccurrencesOnCube(faces: Faces, c: Color)
    ensures Occurrences(Stickers(faces), c)
         == Occurrences(faces[0].colors, c) + Occurrences(faces[1].colors, c)
          + Occurrences(faces[2].colors, c) + Occurrences(faces[3].colors, c)
          + Occurrences(faces[4].colors, c) + Occurrences(faces[5].colors, c)
  {
    assert faces[..6] == faces;
    OccurrencesOfFacePrefix(faces, 6, c);
    OccurrencesOfFacePrefix(faces, 5, c);
    OccurrencesOfFacePrefix(faces, 4, c);
    OccurrencesOfFacePrefix(faces, 3, c);
    OccurrencesOfFacePrefix(faces, 2, c);
    OccurrencesOfFacePrefix(faces, 1, c);
  }

  /** Exactly one of the six colors matches `c`. */
  lemma MatchesOneColor(c: Color)
    ensures Matches(Blue, c) + Matches(Green, c) + Matches(Orange, c)
          + Matches(Red, c) + Matches(White, c) + Matches(Yellow, c) == 1
  {
  }

  lemma ExampleStickers()
    ensures EXAMPLE_FRONT.colors == [Yellow, Yellow, Green, Green, Orange, Orange, Green, White, Blue]
    ensures EXAMPLE_LEFT.colors == [Red, Orange, Green, Yellow, Blue, Orange, Yellow, Blue, White]
    ensures EXAMPLE_BACK.colors == [Blue, Green, White, Green, Red, Red, Orange, Green, Blue]
    ensures EXAMPLE_RIGHT.colors == [Red, White, Orange, Blue, Green, Yellow, White, Blue, Yellow]
    ensures EXAMPLE_TOP.colors == [Blue, White, Yellow, White, White, Blue, Red, Orange, White]
    ensures EXAMPLE_BOTTOM.colors == [Orange, Red, Orange, Yellow, Yellow, Red, Red, Red, Green]
  {
  }

  /** How many stickers of each color each face of the example holds. */
  lemma ExampleFaceCounts(c: Color)
    ensures Occurrences(EXAMPLE_FRONT.colors, c)
         == Matches(Blue, c) + 3 * Matches(Green, c) + 2 * Matches(Orange, c) + Matches(White, c) + 2 * Matches(Yellow, c)
    ensures Occurrences(EXAMPLE_LEFT.colors, c)
         == 2 * Matches(Blue, c) + Matches(Green, c) + 2 * Matches(Orange, c) + Matches(Red, c) + Matches(White, c) + 2 * Matches(Yellow, c)
    ensures Occurrences(EXAMPLE_BACK.colors, c)
         == 2 * Matches(Blue, c) + 3 * Matches(Green, c) + Matches(Orange, c) + 2 * Matches(Red, c) + Matches(White, c)
    ensures Occurrences(EXAMPLE_RIGHT.colors, c)
         == 2 * Matches(Blue, c) + Matches(Green, c) + Matches(Orange, c) + Matches(Red, c) + 2 * Matches(White, c) + 2 * Matches(Yellow, c)
    ensures Occurrences(EXAMPLE_TOP.colors, c)
         == 2 * Matches(Blue, c) + Matches(Orange, c) + Matches(Red, c) + 4 * Matches(White, c) + Matches(Yellow, c)
    ensures Occurrences(EXAMPLE_BOTTOM.colors, c)
         == Matches(Green, c) + 2 * Matches(Orange, c) + 4 * Matches(Red, c) + 2 * Matches(Yellow, c)
  {
    ExampleStickers();
    OccurrencesOnFace(EXAMPLE_FRONT, c);
    OccurrencesOnFace(EXAMPLE_LEFT, c);
    OccurrencesOnFace(EXAMPLE_BACK, c);
    OccurrencesOnFace(EXAMPLE_RIGHT, c);
    OccurrencesOnFace(EXAMPLE_TOP, c);
    OccurrencesOnFace(EXAMPLE_BOTTOM, c);
  }

  /** The example holds exactly nine stickers of every color. */
  lemma ExampleHasNineOfEach(c: Color)
    ensures Occurrences(Stickers(EXAMPLE_FACES), c) == 9
  {
    OccurrencesOnCube(EXAMPLE_FACES, c);
    ExampleFaceCounts(c);
    MatchesOneColor(c);
  }

  /** The example passes validation. */
  lemma ExampleIsValid()
    ensures ValidCounts(EXAMPLE_FACES)
  {
    forall c: Color ensures Occurrences(Stickers(EXAMPLE_FACES), c) <= 9 {
      ExampleHasNineOfEach(c);
    }
  }

  /** The example is not solved: on the front face, position 2 differs from position 0. */
  lemma ExampleIsNotSolved()
    ensures EXAMPLE_FRONT.colors[TOP_RIGHT] != EXAMPLE_FRONT.colors[TOP_LEFT]
    ensures !Solved(Cube3x3x3(EXAMPLE_FACES))
  {
    assert !OneColor(EXAMPLE_FACES[0]) by {
      assert EXAMPLE_FACES[0].colors[2] != EXAMPLE_FACES[0].colors[0];
    }
  }

  /**
    The library's example, step by step: the cube is built without error, the
    solver hands it back unchanged, and the returned cube is not solved, so the
    example's final assertion does not hold of this solver.
   */
  method TestExample() returns (built: bool, returned: Option<Cube3x3x3>, solved: bool)
    ensures built
    ensures returned == Some(Cube3x3x3(EXAMPLE_FACES))
    ensures !solved
  {
    ExampleIsValid();
    var result := NewCube(EXAMPLE_FACES);
    built := result.Ok?;
    var solver := new CubeSolver(result.value);
    var solvedCube := solver.Solve();
    returned := solvedCube;
    ExampleIsNotSolved();
    solved := IsSolved(solvedCube.value);
  }
}

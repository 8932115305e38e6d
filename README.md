# rubiks-solver, modelled in Dafny

A model of the Rust library `rubiks-solver` (`src/lib.rs`): a value-type
representation of a 3×3×3 Rubik's cube and a placeholder depth-first solver.

- `Color` is one of six sticker colors; a `Face` holds nine stickers, row by
  row (`TOP_LEFT` = 0 … `BOTTOM_RIGHT` = 8); a `Cube3x3x3` holds six faces in
  the order front, left, back, right, top, bottom.
- `Cube3x3x3::new` validates a cube by counting the stickers of each color in
  six `u8` counters, face by face, and fails with `"Invalid start state"` as
  soon as a running count passes nine.
- `is_one_color` compares the stickers at positions 1 to 5 with the one at
  position 0; positions 6, 7 and 8 are never read. `is_solved` asks this of
  every face. The model keeps that behaviour exactly, and proves both that the
  last row of a face is ignored and that a face with a differing bottom-right
  sticker still counts as one color.
- `CubeSolver::solve` does not search: it takes the stored cube out of its
  `Option` and returns it, so the first call returns the cube unchanged and
  every later call returns `None`. `Move` names eight quarter turns; nothing
  applies them.

Files: `wrappers.dfy` (Rust's `Option` and `Result`), `cube.dfy` (module
`Cube`: colors, faces, the cube, validation, `Move`), `solver.dfy` (module
`Solver`: the `CubeSolver` class), `tests.dfy` (module `LibTests`: the
library's one example test).

The loops of `is_one_color`, `has_valid_faces` and `is_solved` are methods
(`IsOneColor`, `HasValidFaces`, `IsSolved`) proved equal to specification
predicates (`OneColor`, `ValidCounts`, `Solved`); the lemmas state what those
predicates mean. `HasValidFaces` keeps its counters in an `array<u8>`, where
`u8` is the range 0..255, so every increment is checked not to overflow; the
inner loop over one face's stickers is the method `CountFace`.

## Model

| member | source | states |
|---|---|---|
| `Cube.NewFace` | src/lib.rs:21-35 | the face stores its nine arguments in order: the sticker at each named position (`TOP_LEFT` … `BOTTOM_RIGHT`) is the argument of that name |
| `Cube.NewFaceOfStickers` | src/lib.rs:31-35 | every face is the face `Face::new` builds from its own nine stickers, so the constructor loses nothing |
| `Cube.IsOneColor` | src/lib.rs:37-47 | returns true exactly when the stickers at positions 1 to 5 all equal the sticker at position 0 |
| `Cube.OneColorIgnoresLastRow` | src/lib.rs:40-44 | two faces that agree on positions 0 to 5 get the same answer: positions 6, 7 and 8 never affect the result |
| `Cube.OneColorIsWeakerThanUniform` | src/lib.rs:37-47 | a face of nine equal stickers is one color, and some face whose bottom-right sticker differs from its top-left one is also reported as one color |
| `Cube.ColorIndex` | src/lib.rs:81-88 | each color is counted in one of the six counter slots `BLUE` … `YELLOW` |
| `Cube.ColorAt` | src/lib.rs:57-62 | each of the six counter slots counts exactly one color, the inverse of the slot assignment |
| `Cube.CountFace` | src/lib.rs:80-89 | after counting one face, each color's counter has grown by that face's stickers of that color; no increment overflows `u8`, since at most 45 stickers were counted before |
| `Cube.HasValidFaces` | src/lib.rs:76-99 | returns true exactly when no color has more than nine stickers over all six faces; the `u8` counters never overflow (each is the number of stickers of its color seen so far, at most 54) |
| `Cube.RunningCheckIsFinalCheck` | src/lib.rs:91-95 | checking the cumulative counts after every face accepts exactly the cubes that checking the totals once at the end accepts |
| `Cube.ValidCountsIffNineEach` | src/lib.rs:76-99 | on six faces, a cube passes validation exactly when each color appears exactly nine times |
| `Cube.NewCube` | src/lib.rs:64-74 | fails with `"Invalid start state"` exactly when validation fails; otherwise returns a cube whose faces are the input faces unchanged |
| `Cube.IsSolved` | src/lib.rs:101-109 | returns true exactly when every one of the six faces is one color |
| `Cube.SolvedIgnoresLastRows` | src/lib.rs:101-109 | two cubes whose faces agree on positions 0 to 5 are both solved or both unsolved |
| `Cube.ValidSolvedFacesDiffer` | src/lib.rs:76-109 | in a cube that passes validation and is solved, no two faces share their top-left color (two would hold at least twelve stickers of one color) |
| `Solver.CubeSolver.constructor` | src/lib.rs:133-139 | a new solver holds `Some` of its cube and an empty move list |
| `Solver.CubeSolver.Solve` | src/lib.rs:141-145 | returns the stored cube as it was and leaves `None` behind; the move list is unchanged |
| `Solver.SolveTwice` | src/lib.rs:133-145 | a fresh solver returns its cube unchanged on the first `solve` and `None` on the second |
| `LibTests.ExampleHasNineOfEach` | src/lib.rs:155-162 | the example cube holds exactly nine stickers of every color |
| `LibTests.ExampleIsValid` | src/lib.rs:155-163 | the example cube passes validation, so `unwrap` succeeds |
| `LibTests.ExampleIsNotSolved` | src/lib.rs:155-162 | the example's front face differs at position 2 from position 0, so the example cube is not solved |
| `LibTests.TestExample` | src/lib.rs:151-168 | the example is built without error, the solver returns `Some` of exactly that cube, and the returned cube is not solved: the example's final assertion does not hold |

## Left out

- The `nodes: SlotMap<Move>` field and the `slotmap` crate: a foreign type the solver never uses.
- Move application and any search: the library declares `Move` but has no code that applies a move or searches; `solve` only takes the stored cube.
- `Cube.IsSolved`, `Cube.IsOneColor` and `Cube.HasValidFaces` stop at the first failure, as the library does, but their contracts state only the result, not how many faces or stickers were inspected.
- The derived `Debug` and `Clone` implementations; `PartialEq` is Dafny's structural equality of datatypes.
- The error type `&'static str` is a Dafny `string`.

# Yams scorer (early version) in Dafny

This project models the early scorer of the Yams dice game in `src/yams.rs`.
A hand is five `u8` dice. `contains_three_of_a_kind` walks the hand and stops
at the first die whose value occurs at least three times. `calculate_yams_score`
returns the fixed score 28 when such a die exists. Otherwise it returns the
sum of the five dice (the "Chance" fallback), added up in a `u8` and widened
to `u32`.

The model is one module, `Yams`, in `yams.dfy`:

- `u8` and `u32` are newtypes over `int` with Rust's ranges. `Dice` is a
  sequence of exactly five `u8`. The source passes `&[u8; 5]` and never
  changes it, so a value is enough.
- `Count(s, v)` is the source's `iter().filter(..).count()`. `Sum(s)` is the
  mathematical sum of the dice.
- `HasThreeOfAKind` states three-of-a-kind as an existential over positions.
- `ContainsThreeOfAKind` is the source's `for` loop with its early
  `return true`, written as a method. Its postcondition says it returns
  exactly `HasThreeOfAKind`. It also says it agrees with the existential over
  values.
- `CalculateYamsScore` is the score function. It asks for `HasThreeOfAKind`,
  which the method is proved equal to, because a function cannot call a
  method. It requires that the sum fits in a `u8` only for hands without a
  three-of-a-kind, since only those are summed.

## Model

| member | source | states |
|---|---|---|
| `Yams.Count` | src/yams.rs:14 | the number of dice that show a value is at most the number of dice |
| `Yams.Sum` | src/yams.rs:7 | the sum of the dice is non-negative and at most 255 per die |
| `Yams.CalculateYamsScore` | src/yams.rs:3-10 | defined on every three-of-a-kind hand and on every other hand whose sum fits a `u8`; the score always fits a `u8` (it is 28 or the `u8` sum). What it returns in each branch is stated by `ThreeOfAKindScores28` and `NoThreeOfAKindScoresSum` |
| `Yams.ContainsThreeOfAKind` | src/yams.rs:12-19 | the loop with its early return gives true exactly when some position holds a value that occurs at least three times, which is the same as: some value occurs at least three times. So it does not matter which qualifying die is found first |
| `Yams.HasThreeOfAKindIffSomeValue` | src/yams.rs:13-18 | both directions: some position has a value counted at least three times if and only if some value is counted at least three times |
| `Yams.ThreeOfAKindScores28` | src/yams.rs:4-5 | a hand in which some value occurs three or more times has a three-of-a-kind and scores exactly 28, whatever its sum, even one that would overflow a `u8` |
| `Yams.NoThreeOfAKindScoresSum` | src/yams.rs:6-9 | a hand in which no value occurs three times scores the sum of its dice (no `u8` narrowing happens, since the sum fits) |
| `Yams.SumPermutation` | src/yams.rs:7 | two sequences of dice with the same multiset of values have the same sum |
| `Yams.ScoreIsPermutationInvariant` | src/yams.rs:3-19 | permuting the five dice keeps the sum, the presence of a three-of-a-kind and the score unchanged |
| `Yams.FacesFitInU8` | src/yams.rs:7 | five dice with faces 1..6 sum to 5..30, so the `u8` sum cannot overflow |
| `Yams.NoThreeOfAKindScoreBounds` | src/yams.rs:6-9 | a hand of faces 1..6 without a three-of-a-kind scores between 9 and 26. This is inside the range 5..30 of any hand |
| `Yams.NoThreeOfAKindScoreBoundsAttained` | src/yams.rs:6-9 | the bounds 9 (`[1,1,2,2,3]`) and 26 (`[6,6,5,5,4]`) are reached, so they are tight |
| `Yams.ThreeOfAKindExample` | src/yams.rs:26-29 | `[3,3,3,2,5]` scores 28 |
| `Yams.LargeThreeOfAKindExample` | src/yams.rs:4-5 | `[100,100,100,0,0]` scores 28 although its sum, 300, does not fit a `u8`: the sum is never taken |
| `Yams.ChanceExample` | src/yams.rs:32-35 | `[1,2,3,4,5]` scores 15 |

`HasThreeOfAKind` is the specification of `contains_three_of_a_kind`
(src/yams.rs:12-19): an existential over positions.
Helper lemmas without a row: `CountIsMultiplicity` (a count equals the
multiset multiplicity), `ThreeOfAKindAt`, `SumRemove`, `MultisetRemove`,
`SumOfFacesBounds` and `SumByFaceCounts` (the sum of faces as a weighted sum
of the face counts).

## Left out

- CalculateYamsScore: for a hand without a three-of-a-kind, requires that
  the five dice sum to at most 255. Past that, the `u8` sum at
  src/yams.rs:7 panics in a debug build and wraps in a release build.
  Neither behaviour is modelled. A three-of-a-kind hand is never summed, so
  it has no such requirement. Dice with faces 1..6 always meet the
  precondition (`FacesFitInU8`).
- The Rust test harness (`#[cfg(test)]`, `assert_eq!`) is not modelled. Its
  two test vectors are the lemmas `ThreeOfAKindExample` and `ChanceExample`.
- The rest of the game is not part of this source file, so it is not part of
  the model: the other combinations, the set of combinations still available,
  and the totals per round and per game.

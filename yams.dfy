/** A model of the early dice-game scorer: a five-die hand scores 28 when some
    value shows at least three times, and otherwise the plain sum of its dice
    ("Chance"). */
module Yams {

  /** Rust's `u8`, the type of one die and of the running sum. */
  newtype u8 = x: int | 0 <= x < 0x100

  /** Rust's `u32`, the type of a score. */
  newtype u32 = x: int | 0 <= x < 0x1_0000_0000

  /** A hand: exactly five dice (`[u8; 5]`). */
  type Dice = d: seq<u8> | |d| == 5 witness [0, 0, 0, 0, 0]

  /** A die face as the game uses it. */
  predicate IsFace(x: u8) { 1 <= x <= 6 }

  predicate AllFaces(s: seq<u8>) { forall i :: 0 <= i < |s| ==> IsFace(s[i]) }

  /** How many dice of `s` show `v` (the source's filter-and-count). */
  function Count(s: seq<u8>, v: u8): (n: nat)
    ensures n <= |s|
  {
    if s == [] then 0 else (if s[0] == v then 1 else 0) + Count(s[1..], v)
  }

  /** The mathematical sum of the dice, before any narrowing to `u8`. */
  function Sum(s: seq<u8>): (t: int)
    ensures 0 <= t <= 255 * |s|
  {
    if s == [] then 0 else s[0] as int + Sum(s[1..])
  }

  /** Some die of the hand shows a value that occurs at least three times. */
  predicate HasThreeOfAKind(dice: Dice) {
    exists i | 0 <= i < |dice| :: Count(dice, dice[i]) >= 3
  }

  /** The loop of `contains_three_of_a_kind`: walk the dice, stop at the first
      whose value occurs three times or more. */
  method ContainsThreeOfAKind(dice: Dice) returns (found: bool)
    ensures found <==> HasThreeOfAKind(dice)
    ensures found <==> exists v :: Count(dice, v) >= 3
  {
    HasThreeOfAKindIffSomeValue(dice);
    for i := 0 to |dice|
      invariant forall j :: 0 <= j < i ==> Count(dice, dice[j]) < 3
    {
      if Count(dice, dice[i]) >= 3 {
        return true;
      }
    }
    return false;
  }

  /** `calculate_yams_score`: 28 for a three-of-a-kind, else the dice summed in
      a `u8` and widened to `u32`. The sum is only taken when there is no
      three-of-a-kind, and only then must it not overflow the `u8`. */
  function CalculateYamsScore(dice: Dice): (r: u32)
    requires HasThreeOfAKind(dice) || Sum(dice) <= 255
    ensures r <= 255
  {
    if HasThreeOfAKind(dice) then 28
    else
      var sum: u8 := Sum(dice) as u8;
      sum as u32
  }

  // ---------------------------------------------------------------------------
  // Counting

  lemma {:induction false} CountIsMultiplicity(s: seq<u8>, v: u8)
    ensures Count(s, v) == multiset(s)[v]
  {
    if s != [] {
      assert s == [s[0]] + s[1..];
      CountIsMultiplicity(s[1..], v);
    }
  }

  /** A value shown three times is shown at some position. */
  lemma ThreeOfAKindAt(dice: Dice, v: u8)
    requires Count(dice, v) >= 3
    ensures HasThreeOfAKind(dice)
  {
    CountIsMultiplicity(dice, v);
    assert v in multiset(dice);
    var i :| 0 <= i < |dice| && dice[i] == v;
    assert Count(dice, dice[i]) >= 3;
  }

  /** The existential over positions agrees with the existential over values. */
  lemma HasThreeOfAKindIffSomeValue(dice: Dice)
    ensures HasThreeOfAKind(dice) <==> exists v :: Count(dice, v) >= 3
  {
    if HasThreeOfAKind(dice) {
      var i :| 0 <= i < |dice| && Count(dice, dice[i]) >= 3;
    }
    if exists v :: Count(dice, v) >= 3 {
      var v :| Count(dice, v) >= 3;
      ThreeOfAKindAt(dice, v);
    }
  }

  // ---------------------------------------------------------------------------
  // The two branches of the score

  /** A hand with a value shown three times or more scores 28, whatever its sum. */
  lemma ThreeOfAKindScores28(dice: Dice, v: u8)
    requires Count(dice, v) >= 3
    ensures HasThreeOfAKind(dice)
    ensures CalculateYamsScore(dice) == 28
  {
    HasThreeOfAKindIffSomeValue(dice);
  }

  /** A hand with no value shown three times scores the sum of its dice. */
  lemma NoThreeOfAKindScoresSum(dice: Dice)
    requires Sum(dice) <= 255
    requires forall v :: Count(dice, v) < 3
    ensures CalculateYamsScore(dice) as int == Sum(dice)
  {
  }

  // ---------------------------------------------------------------------------
  // Order of the dice does not matter

  lemma {:induction false} SumRemove(s: seq<u8>, k: nat)
    requires k < |s|
    ensures Sum(s) == s[k] as int + Sum(s[..k] + s[k + 1..])
  {
    if k > 0 {
      var rest := s[..k] + s[k + 1..];
      assert rest[0] == s[0];
      assert rest[1..] == s[1..][..k - 1] + s[1..][k..];
      SumRemove(s[1..], k - 1);
    } else {
      assert s[..0] + s[1..] == s[1..];
    }
  }

  lemma MultisetRemove(s: seq<u8>, k: nat)
    requires k < |s|
    ensures multiset(s) == multiset(s[..k] + s[k + 1..]) + multiset{s[k]}
  {
    assert s == s[..k] + [s[k]] + s[k + 1..];
  }

  lemma {:induction false} SumPermutation(a: seq<u8>, b: seq<u8>)
    requires multiset(a) == multiset(b)
    ensures Sum(a) == Sum(b)
    decreases |a|
  {
    if a == [] {
      assert |b| == |multiset(b)| == 0;
    } else {
      var x := a[0];
      assert a == [x] + a[1..];
      assert multiset(a) == multiset(a[1..]) + multiset{x};
      assert x in multiset(b);
      var k :| 0 <= k < |b| && b[k] == x;
      var rest := b[..k] + b[k + 1..];
      MultisetRemove(b, k);
      forall y ensures multiset(a[1..])[y] == multiset(rest)[y] {
        assert multiset(a)[y] == multiset(b)[y];
        assert multiset(a)[y] == multiset(a[1..])[y] + multiset{x}[y];
        assert multiset(b)[y] == multiset(rest)[y] + multiset{x}[y];
      }
      assert multiset(a[1..]) == multiset(rest);
      SumPermutation(a[1..], rest);
      SumRemove(b, k);
    }
  }

  /** Permuting the five dice changes neither the sum, nor whether there is a
      three-of-a-kind, nor the score. */
  lemma ScoreIsPermutationInvariant(a: Dice, b: Dice)
    requires multiset(a) == multiset(b)
    requires HasThreeOfAKind(a) || Sum(a) <= 255
    ensures Sum(b) == Sum(a)
    ensures HasThreeOfAKind(b) <==> HasThreeOfAKind(a)
    ensures CalculateYamsScore(b) == CalculateYamsScore(a)
  {
    SumPermutation(a, b);
    if HasThreeOfAKind(a) {
      var i :| 0 <= i < |a| && Count(a, a[i]) >= 3;
      CountIsMultiplicity(a, a[i]);
      CountIsMultiplicity(b, a[i]);
      ThreeOfAKindAt(b, a[i]);
    }
    if HasThreeOfAKind(b) {
      var i :| 0 <= i < |b| && Count(b, b[i]) >= 3;
      CountIsMultiplicity(a, b[i]);
      CountIsMultiplicity(b, b[i]);
      ThreeOfAKindAt(a, b[i]);
    }
  }

  // ---------------------------------------------------------------------------
  // Bounds for hands of faces 1..6

  lemma {:induction false} SumOfFacesBounds(s: seq<u8>)
    requires AllFaces(s)
    ensures |s| <= Sum(s) <= 6 * |s|
  {
    if s != [] {
      SumOfFacesBounds(s[1..]);
    }
  }

  /** Five faces of 1..6 sum to 5..30, so the `u8` sum never overflows. */
  lemma FacesFitInU8(dice: Dice)
    requires AllFaces(dice)
    ensures 5 <= Sum(dice) <= 30
  {
    SumOfFacesBounds(dice);
  }

  /** The sum of faces written as a weighted sum of how often each face shows. */
  lemma {:induction false} SumByFaceCounts(s: seq<u8>)
    requires AllFaces(s)
    ensures Count(s, 1) + Count(s, 2) + Count(s, 3) + Count(s, 4) + Count(s, 5) + Count(s, 6) == |s|
    ensures Sum(s) == Count(s, 1) + 2 * Count(s, 2) + 3 * Count(s, 3)
                      + 4 * Count(s, 4) + 5 * Count(s, 5) + 6 * Count(s, 6)
  {
    if s != [] {
      SumByFaceCounts(s[1..]);
    }
  }

  /** A hand of faces without a three-of-a-kind has every face at most twice,
      so its score, the sum, lies between 1+1+2+2+3 = 9 and 6+6+5+5+4 = 26
      (inside the range 5..30 of any hand). */
  lemma NoThreeOfAKindScoreBounds(dice: Dice)
    requires AllFaces(dice)
    requires !HasThreeOfAKind(dice)
    ensures Sum(dice) <= 255
    ensures 9 <= CalculateYamsScore(dice) <= 26
  {
    HasThreeOfAKindIffSomeValue(dice);
    SumByFaceCounts(dice);
    assert Count(dice, 1) < 3 && Count(dice, 2) < 3 && Count(dice, 3) < 3;
    assert Count(dice, 4) < 3 && Count(dice, 5) < 3 && Count(dice, 6) < 3;
  }

  /** Both bounds of NoThreeOfAKindScoreBounds are reached. */
  lemma NoThreeOfAKindScoreBoundsAttained()
    ensures CalculateYamsScore([1, 1, 2, 2, 3]) == 9
    ensures CalculateYamsScore([6, 6, 5, 5, 4]) == 26
  {
  }

  // ---------------------------------------------------------------------------
  // The two unit tests of the source

  lemma ThreeOfAKindExample()
    ensures CalculateYamsScore([3, 3, 3, 2, 5]) == 28
  {
  }

  /** A three-of-a-kind scores 28 even when its sum would overflow a `u8`:
      the sum is never taken. */
  lemma LargeThreeOfAKindExample()
    ensures CalculateYamsScore([100, 100, 100, 0, 0]) == 28
  {
    var d: Dice := [100, 100, 100, 0, 0];
    ThreeOfAKindScores28(d, 100);
  }

  lemma ChanceExample()
    ensures CalculateYamsScore([1, 2, 3, 4, 5]) == 15
  {
  }
}

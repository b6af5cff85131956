/** The System Usability Scale (SUS) score of one respondent.

    A SUS response is the ten answers, in questionnaire order, to Brooke's
    ten Likert items, each answered on the scale 1..5. Items at odd 1-based
    positions are phrased positively and contribute `answer - 1`; items at
    even positions are phrased negatively and contribute `5 - answer`. The
    ten contributions are summed (the raw sum, 0..40 for valid answers) and
    scaled by 2.5 to the 0..100 score.
 */
module SusScore {

  /** Number of items of the SUS instrument (the last ten survey columns). */
  const ItemCount: nat := 10

  /** Weight of one raw-sum unit in the final score. */
  const Step: real := 2.5

  /** An answer on the five-point Likert scale. */
  predicate ValidAnswer(v: int) {
    1 <= v <= 5
  }

  /** A complete, well-formed SUS response. */
  predicate ValidResponse(row: seq<int>) {
    |row| == ItemCount && forall i :: 0 <= i < |row| ==> ValidAnswer(row[i])
  }

  /** Item polarity, decided by the 1-based position of the item. */
  datatype Polarity = Positive | Negative

  function PolarityAt(pos: nat): Polarity {
    if pos % 2 == 1 then Positive else Negative
  }

  /** What the answer `value` at 1-based position `pos` adds to the raw sum. */
  function Contribution(pos: nat, value: int): (c: int)
    ensures ValidAnswer(value) ==> 0 <= c <= 4
  {
    match PolarityAt(pos)
    case Positive => value - 1
    case Negative => 5 - value
  }

  /** Raw sum over the first `n` items: the accumulator after `n` loop turns. */
  function RawPrefix(row: seq<int>, n: nat): int
    requires n <= |row|
    decreases n
  {
    if n == 0 then 0 else RawPrefix(row, n - 1) + Contribution(n, row[n - 1])
  }

  /** Raw sum of all ten contributions. */
  function RawSum(row: seq<int>): int
    requires |row| == ItemCount
  {
    RawPrefix(row, ItemCount)
  }

  /** The SUS score of a response: 2.5 times its raw sum. */
  function Score(row: seq<int>): real
    requires |row| == ItemCount
  {
    RawSum(row) as real * Step
  }

  /** The scorer as the source runs it: one pass over the ten items,
      adding each item's contribution to an integer accumulator, then
      scaling the accumulator by 2.5. No answer is checked. */
  method CalculateSusScore(row: seq<int>) returns (score: real)
    requires |row| == ItemCount
    ensures score == Score(row)
    ensures ValidResponse(row) ==> 0.0 <= score <= 100.0
  {
    var acc := 0;
    for i := 1 to ItemCount + 1
      invariant acc == RawPrefix(row, i - 1)
    {
      var value := row[i - 1];
      if i % 2 == 1 {
        acc := acc + (value - 1);
      } else {
        acc := acc + (5 - value);
      }
    }
    score := acc as real * Step;
    if ValidResponse(row) {
      ScoreBounds(row);
    }
  }

  // ---------------------------------------------------------------------
  // Polarity: how one answer moves its contribution

  /** A higher answer raises a positive item's contribution and lowers a
      negative item's, one unit per answer step. */
  lemma ContributionPolarity(pos: nat, v: int, w: int)
    ensures Contribution(pos, w) - Contribution(pos, v)
            == (if pos % 2 == 1 then w - v else v - w)
  {
  }

  // ---------------------------------------------------------------------
  // Bounds

  lemma {:induction false} RawPrefixBounds(row: seq<int>, n: nat)
    requires n <= |row|
    requires forall i :: 0 <= i < n ==> ValidAnswer(row[i])
    ensures 0 <= RawPrefix(row, n) <= 4 * n
  {
    if n > 0 {
      RawPrefixBounds(row, n - 1);
    }
  }

  /** For valid answers the raw sum lies in 0..40 and the score in 0..100. */
  lemma ScoreBounds(row: seq<int>)
    requires ValidResponse(row)
    ensures 0 <= RawSum(row) <= 40
    ensures 0.0 <= Score(row) <= 100.0
  {
    RawPrefixBounds(row, ItemCount);
  }

  /** The score is always a whole number of 2.5-point steps. */
  lemma ScoreIsWholeSteps(row: seq<int>)
    requires |row| == ItemCount
    ensures (Score(row) / Step).Floor as real == Score(row) / Step
    ensures (Score(row) / Step).Floor == RawSum(row)
  {
  }

  // ---------------------------------------------------------------------
  // An independent formula: Brooke's item sums

  /** Odd-position answers added, even-position answers subtracted. */
  function SignedPrefix(row: seq<int>, n: nat): int
    requires n <= |row|
    decreases n
  {
    if n == 0 then 0
    else SignedPrefix(row, n - 1) + (if n % 2 == 1 then row[n - 1] else -row[n - 1])
  }

  /** Over any prefix, the raw sum equals the signed sum of the answers
      shifted by -1 per positive item and +5 per negative item. */
  lemma {:induction false} RawPrefixBySignedSum(row: seq<int>, n: nat)
    requires n <= |row|
    ensures RawPrefix(row, n) == SignedPrefix(row, n) + 5 * (n / 2) - (n + 1) / 2
  {
    if n > 0 {
      RawPrefixBySignedSum(row, n - 1);
    }
  }

  /** Brooke's formula: score = 2.5 * ((sum of odd items - 5) + (25 - sum of even items)). */
  lemma ScoreBySignedSum(row: seq<int>)
    requires |row| == ItemCount
    ensures RawSum(row) == SignedPrefix(row, ItemCount) + 20
    ensures Score(row) == (SignedPrefix(row, ItemCount) + 20) as real * Step
  {
    RawPrefixBySignedSum(row, ItemCount);
  }

  // ---------------------------------------------------------------------
  // Fixed points

  /** When every one of the first `n` items contributes `c`, the prefix sums to `c * n`. */
  lemma {:induction false} UniformPrefix(row: seq<int>, n: nat, c: int)
    requires n <= |row|
    requires forall i :: 0 <= i < n ==> Contribution(i + 1, row[i]) == c
    ensures RawPrefix(row, n) == c * n
  {
    if n > 0 {
      UniformPrefix(row, n - 1, c);
    }
  }

  /** All answers neutral (3): score 50. */
  lemma AllNeutralScores50(row: seq<int>)
    requires |row| == ItemCount
    requires forall i :: 0 <= i < |row| ==> row[i] == 3
    ensures Score(row) == 50.0
  {
    UniformPrefix(row, ItemCount, 2);
  }

  /** Agreement with every positive item and disagreement with every
      negative one (5, 1, 5, 1, ...): score 100. */
  lemma BestAnswersScore100(row: seq<int>)
    requires |row| == ItemCount
    requires forall i :: 0 <= i < |row| ==> row[i] == (if i % 2 == 0 then 5 else 1)
    ensures Score(row) == 100.0
  {
    UniformPrefix(row, ItemCount, 4);
  }

  /** The reverse pattern (1, 5, 1, 5, ...): score 0. */
  lemma WorstAnswersScore0(row: seq<int>)
    requires |row| == ItemCount
    requires forall i :: 0 <= i < |row| ==> row[i] == (if i % 2 == 0 then 1 else 5)
    ensures Score(row) == 0.0
  {
    UniformPrefix(row, ItemCount, 0);
  }

  /** The pattern 4, 2, 4, 2, ...: every item contributes 3, score 75. */
  lemma FourTwoAnswersScore75(row: seq<int>)
    requires |row| == ItemCount
    requires forall i :: 0 <= i < |row| ==> row[i] == (if i % 2 == 0 then 4 else 2)
    ensures Score(row) == 75.0
  {
    UniformPrefix(row, ItemCount, 3);
  }

  // ---------------------------------------------------------------------
  // Sensitivity to one answer

  /** Changing the answer at index `k` leaves the prefixes before it alone
      and shifts every later prefix by the change in that item's contribution. */
  lemma {:induction false} RawPrefixUpdate(row: seq<int>, k: nat, v: int, n: nat)
    requires k < |row| && n <= |row|
    ensures RawPrefix(row[k := v], n)
            == RawPrefix(row, n)
               + (if k < n then Contribution(k + 1, v) - Contribution(k + 1, row[k]) else 0)
  {
    if n > 0 {
      RawPrefixUpdate(row, k, v, n - 1);
    }
  }

  /** Raising the answer at 1-based position `k + 1` by one raises the score
      by 2.5 for a positive item and lowers it by 2.5 for a negative item. */
  lemma RaiseAnswer(row: seq<int>, k: nat)
    requires |row| == ItemCount && k < ItemCount
    ensures Score(row[k := row[k] + 1])
            == Score(row) + (if (k + 1) % 2 == 1 then Step else -Step)
  {
    RawPrefixUpdate(row, k, row[k] + 1, ItemCount);
  }
}

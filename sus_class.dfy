/** Brooke's qualitative bands for a SUS score, and how a response's
    answers determine its band. */
module SusClass {
  import opened SusScore

  /** The five bands, in the order the classifier tests them. The report
      prints them in Portuguese; `Label` gives that text. */
  datatype Band = Unacceptable | Marginal | Good | Excellent | BestImaginable

  /** Position of a band in the order, lowest first. */
  function Rank(b: Band): nat {
    match b
    case Unacceptable => 0
    case Marginal => 1
    case Good => 2
    case Excellent => 3
    case BestImaginable => 4
  }

  /** The label the report prints for a band. The initials I, R, B, E, M
      follow the order of the classifier's tests and tell the labels apart. */
  function Label(b: Band): (s: string)
    ensures |s| > 0 && s[0] == ['I', 'R', 'B', 'E', 'M'][Rank(b)]
  {
    match b
    case Unacceptable => "Inaceitável"
    case Marginal => "Razoável"
    case Good => "Bom"
    case Excellent => "Excelente"
    case BestImaginable => "Melhor Usabilidade Possível"
  }

  /** The score at which the band of rank `k` (1..4) begins: 60, 70, 80, 90. */
  function Threshold(k: nat): real
    requires 1 <= k <= 4
  {
    (50 + 10 * k) as real
  }

  /** The classifier: a chain of tests from the lowest band up, in which
      every score that fails the first four falls to the last band. */
  function Classify(score: real): (b: Band)
    ensures Rank(b) >= 1 ==> Threshold(Rank(b)) <= score
    ensures Rank(b) <= 3 ==> score < Threshold(Rank(b) + 1)
  {
    if score < 60.0 then Unacceptable
    else if 60.0 <= score < 70.0 then Marginal
    else if 70.0 <= score < 80.0 then Good
    else if 80.0 <= score < 90.0 then Excellent
    else BestImaginable
  }

  /** What the classifier returns in the script: the label of the score's band. */
  function ClassifySus(score: real): (text: string)
    ensures text == "Inaceitável" <==> score < 60.0
    ensures text == "Razoável" <==> 60.0 <= score < 70.0
    ensures text == "Bom" <==> 70.0 <= score < 80.0
    ensures text == "Excelente" <==> 80.0 <= score < 90.0
    ensures text == "Melhor Usabilidade Possível" <==> 90.0 <= score
  {
    var b := Classify(score);
    LabelsDistinct(b, Unacceptable);
    LabelsDistinct(b, Marginal);
    LabelsDistinct(b, Good);
    LabelsDistinct(b, Excellent);
    LabelsDistinct(b, BestImaginable);
    Label(b)
  }

  /** The score lies in band `b`: at or above its threshold and below the next. */
  predicate InBand(score: real, b: Band) {
    (Rank(b) >= 1 ==> Threshold(Rank(b)) <= score) &&
    (Rank(b) <= 3 ==> score < Threshold(Rank(b) + 1))
  }

  /** The bands partition the scores: each score lies in exactly one band,
      and that band is the one the classifier returns. */
  lemma ClassifyIsTheBand(score: real, b: Band)
    ensures InBand(score, b) <==> Classify(score) == b
  {
  }

  /** The printed labels tell the bands apart. */
  lemma LabelsDistinct(b: Band, c: Band)
    ensures Label(b) == Label(c) <==> b == c
  {
    if b != c {
      assert Label(b)[0] != Label(c)[0];
    }
  }

  /** A band's rank counts the thresholds the score has reached. */
  function ThresholdsReached(score: real, k: nat): (n: nat)
    requires k <= 4
    ensures n <= k
  {
    if k == 0 then 0
    else ThresholdsReached(score, k - 1) + (if Threshold(k) <= score then 1 else 0)
  }

  lemma ClassifyCountsThresholds(score: real)
    ensures Rank(Classify(score)) == ThresholdsReached(score, 4)
  {
    var t1 := ThresholdsReached(score, 1);
    var t2 := ThresholdsReached(score, 2);
    var t3 := ThresholdsReached(score, 3);
    assert t1 == if 60.0 <= score then 1 else 0;
    assert t2 == t1 + if 70.0 <= score then 1 else 0;
    assert t3 == t2 + if 80.0 <= score then 1 else 0;
  }

  /** A higher score never lands in a lower band. */
  lemma ClassifyMonotone(s1: real, s2: real)
    requires s1 <= s2
    ensures Rank(Classify(s1)) <= Rank(Classify(s2))
  {
  }

  /** Each threshold belongs to the band it opens; anything below it to a lower one. */
  lemma BoundariesGoUp(k: nat, score: real)
    requires 1 <= k <= 4
    ensures Rank(Classify(Threshold(k))) == k
    ensures score < Threshold(k) ==> Rank(Classify(score)) < k
  {
  }

  lemma BoundaryValues()
    ensures Classify(59.9) == Unacceptable
    ensures Classify(60.0) == Marginal
    ensures Classify(69.9) == Marginal
    ensures Classify(70.0) == Good
    ensures Classify(80.0) == Excellent
    ensures Classify(90.0) == BestImaginable
    ensures Classify(100.0) == BestImaginable
  {
  }

  // ---------------------------------------------------------------------
  // From answers to band

  /** On SUS scores the thresholds 60, 70, 80, 90 are the raw sums 24, 28, 32, 36. */
  lemma ClassifyByRawSum(row: seq<int>, k: nat)
    requires |row| == ItemCount && 1 <= k <= 4
    ensures Rank(Classify(Score(row))) >= k <==> RawSum(row) >= 20 + 4 * k
  {
  }

  lemma BestAnswersAreBestImaginable(row: seq<int>)
    requires |row| == ItemCount
    requires forall i :: 0 <= i < |row| ==> row[i] == (if i % 2 == 0 then 5 else 1)
    ensures Classify(Score(row)) == BestImaginable
  {
    BestAnswersScore100(row);
  }

  lemma WorstAnswersAreUnacceptable(row: seq<int>)
    requires |row| == ItemCount
    requires forall i :: 0 <= i < |row| ==> row[i] == (if i % 2 == 0 then 1 else 5)
    ensures Classify(Score(row)) == Unacceptable
  {
    WorstAnswersScore0(row);
  }

  lemma FourTwoAnswersAreGood(row: seq<int>)
    requires |row| == ItemCount
    requires forall i :: 0 <= i < |row| ==> row[i] == (if i % 2 == 0 then 4 else 2)
    ensures Classify(Score(row)) == Good
  {
    FourTwoAnswersScore75(row);
  }

  lemma AllNeutralIsUnacceptable(row: seq<int>)
    requires |row| == ItemCount
    requires forall i :: 0 <= i < |row| ==> row[i] == 3
    ensures Classify(Score(row)) == Unacceptable
  {
    AllNeutralScores50(row);
  }
}

# SUS scorer

A model of the System Usability Scale (SUS) scorer of a survey-analysis
script. For every respondent the script takes the answers to Brooke's ten
SUS items, in questionnaire order, and computes a usability score: an item at
an odd 1-based position (positively phrased) contributes `answer - 1`, an item
at an even position (negatively phrased) contributes `5 - answer`; the ten
contributions are summed and the sum is multiplied by 2.5. The score is then
put in one of five ordered bands, labelled in Portuguese: "Inaceitável"
(below 60), "Razoável" (60 to below 70), "Bom" (70 to below 80),
"Excelente" (80 to below 90) and "Melhor Usabilidade Possível" (everything
else).

- `sus_score.dfy`, module `SusScore`: the scoring loop as a method
  (`CalculateSusScore`) proved against the recursive specification
  `RawPrefix`/`RawSum`/`Score`, and lemmas about that specification: bounds,
  whole 2.5-point steps, Brooke's signed-sum formula, the fixed points and
  the effect of raising one answer.
- `sus_class.dfy`, module `SusClass`: the classifier as a function over
  `real` scores (`Classify` to a band, `ClassifySus` to the printed label), the five bands as a datatype in the order of the
  classifier's tests, and lemmas: the bands partition the scores, thresholds
  belong to the band they open, the classification is monotone, and the
  band can be read off the raw sum.

Answers are `int` and scores are exact `real`s (2.5 times an integer); for
answers of realistic size (a questionnaire's 1..5, or anything within a few
million) the script's integer sum and its 2.5 scaling are exact too, so the
two agree. The scorer itself requires only that the row has the ten SUS
items. The script validates no answer, so the model has no rejection path
either; the range 1..5 appears as a precondition of the lemmas that need it
(bounds).

## Model

| member | source | states |
|---|---|---|
| SusScore.CalculateSusScore | sus-test.py:9-17 | the accumulator after the loop is the sum of the ten per-position contributions (odd position: answer - 1, even: 5 - answer) and the result is that sum times 2.5; for answers in 1..5 the result lies in 0..100 |
| SusScore.Contribution | sus-test.py:13-16 | each contribution of an answer in 1..5 lies in 0..4 |
| SusScore.ContributionPolarity | sus-test.py:13-16 | a higher answer raises a positive item's contribution and lowers a negative item's, by the same amount |
| SusScore.RawPrefixBounds | sus-test.py:10-16 | after n items of valid answers the accumulator lies in 0..4n |
| SusScore.ScoreBounds | sus-test.py:9-17 | for ten answers in 1..5 the raw sum lies in 0..40 and the score in 0..100 |
| SusScore.ScoreIsWholeSteps | sus-test.py:17 | the score divided by 2.5 is an integer, namely the raw sum |
| SusScore.RawPrefixBySignedSum | sus-test.py:11-16 | over any prefix the accumulator equals the odd-position answers minus the even-position answers, minus one per odd item, plus five per even item |
| SusScore.ScoreBySignedSum | sus-test.py:9-17 | score = 2.5 x (sum of odd answers - sum of even answers + 20) |
| SusScore.UniformPrefix | sus-test.py:10-16 | when every item contributes the same c, the accumulator after n items is c x n |
| SusScore.AllNeutralScores50 | sus-test.py:13-17 | ten answers of 3 score 50 |
| SusScore.BestAnswersScore100 | sus-test.py:13-17 | answers 5,1,5,1,... score 100 |
| SusScore.WorstAnswersScore0 | sus-test.py:13-17 | answers 1,5,1,5,... score 0 |
| SusScore.FourTwoAnswersScore75 | sus-test.py:13-17 | answers 4,2,4,2,... score 75 |
| SusScore.RawPrefixUpdate | sus-test.py:11-16 | changing one answer leaves the accumulator before its item unchanged and shifts it afterwards by that item's change in contribution |
| SusScore.RaiseAnswer | sus-test.py:13-17 | raising one answer by one raises the score by 2.5 at an odd position and lowers it by 2.5 at an even position |
| SusClass.Classify | sus-test.py:27-37 | the returned band's rank k means the score is at least the k-th threshold (60, 70, 80, 90) and below the next one; anything not below 90 is the top band |
| SusClass.Label | sus-test.py:29-37 | the text the report prints for each band, in the order of the if/elif chain; the initials I, R, B, E, M tell the five labels apart |
| SusClass.ClassifySus | sus-test.py:27-37 | the string the classifier returns: "Inaceitável" exactly below 60, "Razoável" exactly in [60, 70), "Bom" in [70, 80), "Excelente" in [80, 90), "Melhor Usabilidade Possível" exactly from 90 up |
| SusClass.ClassifyIsTheBand | sus-test.py:27-37 | a score lies in band b (half-open, lower bound included) if and only if the classifier returns b: the bands partition the scores |
| SusClass.LabelsDistinct | sus-test.py:29-37 | the five printed labels are pairwise distinct |
| SusClass.ClassifyCountsThresholds | sus-test.py:28-37 | the rank of the returned band is the number of thresholds 60, 70, 80, 90 the score reaches |
| SusClass.ClassifyMonotone | sus-test.py:28-37 | a higher score never gets a lower band |
| SusClass.BoundariesGoUp | sus-test.py:28-37 | each threshold belongs to the band it opens; any score below it gets a lower band |
| SusClass.BoundaryValues | sus-test.py:28-37 | 59.9 is Inaceitável, 60 Razoável, 69.9 Razoável, 70 Bom, 80 Excelente, 90 and 100 Melhor Usabilidade Possível |
| SusClass.ClassifyByRawSum | sus-test.py:9-37 | on SUS scores the band is at least the k-th exactly when the raw sum is at least 24, 28, 32, 36 for k = 1..4 |
| SusClass.BestAnswersAreBestImaginable | sus-test.py:9-37 | answers 5,1,5,1,... are classified Melhor Usabilidade Possível |
| SusClass.WorstAnswersAreUnacceptable | sus-test.py:9-37 | answers 1,5,1,5,... are classified Inaceitável |
| SusClass.FourTwoAnswersAreGood | sus-test.py:9-37 | answers 4,2,4,2,... are classified Bom |
| SusClass.AllNeutralIsUnacceptable | sus-test.py:9-37 | ten neutral answers (score 50) are classified Inaceitável |

## Left out

- Reading the CSV file and selecting its last ten columns (sus-test.py:4-7): file I/O and a dataframe call; the model takes one respondent's ten answers as a sequence.
- Applying the scorer and the classifier to every row and storing the results as new columns (sus-test.py:20, 39): a dataframe `apply` with no logic of its own.
- The mean, median, minimum, maximum and label counts and their printing (sus-test.py:23-24, 42-48): floating-point reductions whose results are only printed.
- Missing or non-numeric answers: the script does not handle them and the model takes integer answers. An empty cell or a pandas NA marker becomes NaN, the score is NaN, every comparison fails and the row lands in "Melhor Usabilidade Possível"; any other text stays a string, `value - 1` or `5 - value` raises a TypeError and the whole script stops with no score at all.
- Machine widths: the script sums 64-bit integers (which wrap around on overflow) and scales by 2.5 in 64-bit floating point (which rounds large products); the model uses unbounded integers and exact reals, which agree with the script only for answers of realistic size.
- The second script, nexos-test.py (chart styling, CSV loading, translation tables, grouping, plotting and image output, standard deviations and correlations) is not part of this model: it is presentation glue over plotting and dataframe libraries.

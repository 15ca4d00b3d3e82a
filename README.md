# DayRank day scoring in Dafny

DayRank is a small desktop tool that rates a school day. Each of eight periods is given one of five ratings from a dropdown: Very Bad, Bad, OK, Good, Great. Pressing *Calculate* runs `DayAssessmentApp.calculate_day`, which:

1. turns each rating into a score (0, 25, 50, 75, 100);
2. takes the median of the eight scores;
3. if any period is Very Bad, shows the median lowered by 25, floored at 0, with a fixed penalty message on red;
4. otherwise places the median in one of five bands, each with its own message and background colour.

This project models that scoring as pure Dafny functions and proves what the code promises about it.

The model has three modules:

- `Ratings` (`ratings.dfy`) covers:
  - the five ratings (`Rating`);
  - the option texts (`Options`);
  - the `score_mapping` table (`ScoreMapping`);
  - `Score`, the score of a rating;
  - `Scores`, the score list of a sequence of ratings.
- `Stats` (`stats.dfy`) covers Python's `statistics.median` on a list of integers:
  - it sorts a copy (`Sort`, an insertion sort);
  - it takes the middle element for an odd count, or the mean of the two middle elements for an even count;
  - the result is a `real`.
- `DayAssessment` (`day_assessment.dfy`) covers the rest of `calculate_day`:
  - `ScoresOf` is the lookup list comprehension. An unknown text raises `KeyError`, modelled as `Failure(UnknownRating(text))` for the first such text.
  - `ScoreDay` is the penalty test and the if/elif band chain. An empty list makes `statistics.median` raise `StatisticsError`, modelled as `Failure(EmptyData)`. `any` on an empty list is false, so the median is still called.
  - `CalculateDay` composes the two. `Assess` is the same function on ratings rather than texts.

Three eight-period days are worked through to the exact number:

- Four Great, one Very Bad and three Good periods: the scores sort to `[0, 75, 75, 75, 100, 100, 100, 100]`. Their median is 87.5, and the day shows 62.5 with the penalty message.
- Three Great, one Very Bad and four Good periods: median 75, shown as 50.
- Seven Good periods and one Bad: median 75, "Your day was good.", light green.

## Model

| member | source | states |
|---|---|---|
| `Ratings.Index` | app.py:35 | every rating has a position among the five dropdown options |
| `Ratings.ScoreIsMappingLookup` | app.py:92-98 | the text of every rating is a key of `score_mapping`, and that key's value is the rating's score |
| `Ratings.ScoreRange` | app.py:92-98 | a rating scores 25 points per step up the dropdown; every score lies in [0, 100]; only Very Bad scores 0 |
| `Ratings.MappingCoversOptions` | app.py:35-40 | the keys of `score_mapping` are exactly the dropdown texts (the map is total over the options and has no other key); each key names one rating and maps to its score |
| `Ratings.MappingValues` | app.py:92-98 | every value of `score_mapping` is one of 0, 25, 50, 75, 100 |
| `Ratings.LabelInjective` | app.py:35 | distinct ratings have distinct dropdown texts |
| `Ratings.ScoreStrictlyIncreasing` | app.py:92-98 | the scores rise strictly with the dropdown position: one rating is below another exactly when its score is lower |
| `Ratings.Labels` | app.py:100 | the texts of a sequence of ratings, one per period, in order |
| `Ratings.Scores` | app.py:100 | the scores of a sequence of ratings, one per period, in order |
| `Ratings.ScoresRemove` | app.py:100 | taking one period out takes exactly its score out of the multiset of scores |
| `Ratings.ScoresPermutation` | app.py:100 | reordering the periods reorders their scores and changes nothing else |
| `Stats.InsertPermutes` | app.py:105 | insertion adds exactly the inserted element |
| `Stats.InsertSorted` | app.py:105 | inserting into an ascending list keeps it ascending |
| `Stats.SortSorted` | app.py:105 | the sorted copy the median is read from is ascending and holds exactly the input's elements |
| `Stats.SortedUnique` | app.py:105 | two ascending lists with the same elements are equal, so the sorted copy is unique |
| `Stats.MedianFromSorted` | app.py:105 | the median can be read off any ascending arrangement of the data: the middle element, or the mean of the two middle ones |
| `Stats.MedianPermutation` | app.py:105 | the median depends only on the multiset of the data |
| `Stats.MedianBounds` | app.py:109 | the median lies within any bounds every element satisfies, in particular between the minimum and the maximum |
| `Stats.CountsSort` | app.py:109 | sorting keeps the number of elements below or above any value |
| `Stats.MedianSplits` | app.py:109 | the median is a median in the order-free sense: at most half the values lie strictly below it and at most half strictly above it |
| `DayAssessment.Max0` | app.py:105 | `max(0, x)` is at least 0 and at least `x`, and equals one of them |
| `DayAssessment.ScoresOf` | app.py:100 | the lookup succeeds exactly when every text is a key; on success it gives each text's score in order; on failure it reports the first text that is not a key |
| `DayAssessment.ScoreDay` | app.py:103-124 | scoring fails exactly on an empty score list, with the `StatisticsError` case |
| `DayAssessment.CalculateDayFails` | app.py:100-109 | `calculate_day` fails exactly when no periods are given or some text is unknown; it reports the first unknown text, or `EmptyData` exactly when there are no periods |
| `DayAssessment.ScoresOfLabels` | app.py:100 | the texts of real ratings never fail the lookup and give the ratings' scores |
| `DayAssessment.CalculateDayOnRatings` | app.py:91-124 | on real ratings' texts, `calculate_day` is `Assess` on the ratings |
| `DayAssessment.ZeroIffVeryBad` | app.py:92-103 | the `any(score == 0)` test holds exactly when some period is Very Bad |
| `DayAssessment.MedianOfRatings` | app.py:105-109 | the median of the ratings' scores lies in [0, 100], and in [25, 100] when no period is Very Bad |
| `DayAssessment.PenaltyOverride` | app.py:103-107 | one Very Bad period overrides the bands: the result is `max(0, median - 25)` with the penalty message and red, whatever the median |
| `DayAssessment.PenaltyDrop` | app.py:105 | the penalised score is between 0 and the median; it is exactly 25 below the median once the median is at least 25, and 0 below that |
| `DayAssessment.NoPenaltyExact` | app.py:108-124 | with no Very Bad period the score is exactly the median, with the band the chain picks |
| `DayAssessment.BandsTopDown` | app.py:110-124 | the chain, tried top-down, selects by disjoint intervals: 100 exactly is excellent, [75, 100) good, [50, 75) okay, [25, 50) not great; everything else, below 25 or above 100, is bad |
| `DayAssessment.BandsOrdered` | app.py:110-124 | on [0, 100] a higher median never gets a worse colour; the top band's green differs from the next band's light green |
| `DayAssessment.ScoresOfValues` | app.py:92-100 | a successful lookup gives scores in [0, 100], and all of them are at least 25 when none is 0 |
| `DayAssessment.ScoreWithinRange` | app.py:100-109 | the score shown always lies in [0, 100] |
| `DayAssessment.ScoreDayNeverBad` | app.py:103-124 | on any non-empty list of values in [0, 100] with none strictly between 0 and 25 (which includes every list of table scores), the "Your day was bad." branch is never the outcome |
| `DayAssessment.BadBandUnreachable` | app.py:122-124 | no input reaching a result takes the final else branch |
| `DayAssessment.ScoreDayPermutation` | app.py:103-124 | the result depends only on the multiset of scores |
| `DayAssessment.PermutationInvariant` | app.py:100-124 | rearranging the ratings among the periods gives the same result |
| `DayAssessment.AllGreat` | app.py:110-112 | only Great periods give 100, "Your day was excellent!", green |
| `DayAssessment.AllVeryBad` | app.py:103-107 | only Very Bad periods give `max(0, 0 - 25)` = 0 with the penalty message |
| `DayAssessment.FourGreatOneVeryBadThreeGood` | app.py:100-107 | four Great, one Very Bad and three Good, in any order: median 87.5, shown as 62.5 with the penalty message on red, although 62.5 would band as okay |
| `DayAssessment.ThreeGreatOneVeryBadFourGood` | app.py:100-107 | three Great, one Very Bad and four Good, in any order: median 75, shown as 50 with the penalty message on red, although 50 would band as okay |
| `DayAssessment.SevenGoodOneBad` | app.py:100-115 | seven Good and one Bad, in any order: median 75, "Your day was good.", light green |

## Left out

- Widgets are left out: the window, the name box, the combo boxes and their default index, the button, the menu and the About dialog. `CalculateDay` takes the texts the combo boxes would return. The eight-period count appears only as `PeriodCount` and in the worked examples; the scoring lemmas hold for any number of periods.
- The result box is left out: the text written to it (app.py:126-129), the f-string formatting of the score, `QColor.name()` and the style sheet. The model returns the score, the message and a `Colour` whose `Rgb` gives the `QColor` components.
- Python's int/float distinction is left out. `statistics.median` returns an `int` for an odd count and a `float` for an even one, and `max(0, x)` can return the integer 0. The model uses `real` throughout, so the value is the same but the printed form is not modelled.
- Floating-point rounding is left out. Every value the eight scores can produce (multiples of 12.5 in [0, 100]) is exact in binary floating point, so `real` gives the same comparisons.
- `statistics.median` is library code that is not part of this model. `Stats.Median` follows its documented behaviour on integer data: sort, then take the middle element or the mean of the two middle elements. Any sorting algorithm gives the same sorted copy (`Stats.SortedUnique`), so the insertion sort stands in for Python's own.

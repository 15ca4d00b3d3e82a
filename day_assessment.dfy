/**
  The scoring done by `DayAssessmentApp.calculate_day` (app.py:91-124): the
  dropdown texts of the eight periods are turned into scores, a single
  Very Bad period switches to the penalty outcome, and otherwise the median
  score is placed in one of five bands, each with its message and colour.
 */
module DayAssessment {
  import Ratings
  import Stats

  datatype Result<T, E> = Success(value: T) | Failure(error: E)

  /** Why `calculate_day` stops short of a result. */
  datatype ScoreError =
    | UnknownRating(text: string)   // `score_mapping[text]` raises KeyError
    | EmptyData                     // `statistics.median([])` raises StatisticsError

  /** The number of periods the window offers (app.py:36). */
  const PeriodCount: nat := 8

  /** The background colours of the result box; the penalty and the bottom band share red. */
  datatype Colour = Red | Orange | Yellow | LightGreen | Green

  /** The `QColor` components of each colour. */
  function Rgb(c: Colour): (int, int, int) {
    match c
    case Red => (255, 0, 0)
    case Orange => (255, 165, 0)
    case Yellow => (255, 255, 0)
    case LightGreen => (144, 238, 144)
    case Green => (0, 255, 0)
  }

  /** Worst colour 0, best colour 4. */
  function Rank(c: Colour): nat {
    match c
    case Red => 0
    case Orange => 1
    case Yellow => 2
    case LightGreen => 3
    case Green => 4
  }

  /** The six outcomes: the penalty, and the five bands of an unpenalised day. */
  datatype Band = Penalised | Excellent | Good | Okay | NotGreat | Bad

  const PenaltyMessage: string := "Your day was significantly impacted with very bad period(s)."

  function Message(b: Band): string {
    match b
    case Penalised => PenaltyMessage
    case Excellent => "Your day was excellent!"
    case Good => "Your day was good."
    case Okay => "Your day was okay."
    case NotGreat => "Your day wasn't great."
    case Bad => "Your day was bad."
  }

  function BandColour(b: Band): Colour {
    match b
    case Penalised => Red
    case Excellent => Green
    case Good => LightGreen
    case Okay => Yellow
    case NotGreat => Orange
    case Bad => Red
  }

  /** What `calculate_day` shows: the score, the assessment text and the colour. */
  datatype DayResult = DayResult(score: real, assessment: string, colour: Colour)

  function Report(score: real, b: Band): DayResult {
    DayResult(score, Message(b), BandColour(b))
  }

  /** Python's `max(0, x)`. */
  function Max0(x: real): (r: real)
    ensures r >= 0.0 && r >= x
    ensures r == x || r == 0.0
  {
    if x > 0.0 then x else 0.0
  }

  /** The if/elif chain on an unpenalised median (app.py:110-124), first match wins. */
  function Banding(m: real): Band {
    if m == 100.0 then Excellent
    else if 75.0 <= m < 100.0 then Good
    else if 50.0 <= m < 75.0 then Okay
    else if 25.0 <= m < 50.0 then NotGreat
    else Bad
  }

  /**
    The list comprehension of app.py:100: each text looked up in
    `score_mapping`, left to right, the first text missing from it raising.
   */
  function ScoresOf(texts: seq<string>): (r: Result<seq<int>, ScoreError>)
    ensures r.Success? <==> forall i :: 0 <= i < |texts| ==> texts[i] in Ratings.ScoreMapping
    ensures r.Success? ==>
      |r.value| == |texts| &&
      forall i :: 0 <= i < |texts| ==> r.value[i] == Ratings.ScoreMapping[texts[i]]
    ensures r.Failure? ==>
      exists k :: 0 <= k < |texts| && texts[k] !in Ratings.ScoreMapping &&
        (forall j :: 0 <= j < k ==> texts[j] in Ratings.ScoreMapping) &&
        r.error == UnknownRating(texts[k])
  {
    if texts == [] then Success([])
    else if texts[0] !in Ratings.ScoreMapping then Failure(UnknownRating(texts[0]))
    else
      match ScoresOf(texts[1..])
      case Failure(e) =>
        ghost var k :| 1 <= k + 1 < |texts| && texts[1..][k] !in Ratings.ScoreMapping &&
          (forall j :: 0 <= j < k ==> texts[1..][j] in Ratings.ScoreMapping) &&
          e == UnknownRating(texts[1..][k]);
        assert texts[k + 1] !in Ratings.ScoreMapping;
        assert forall j :: 0 <= j < k + 1 ==> texts[j] in Ratings.ScoreMapping by {
          forall j | 0 <= j < k + 1 ensures texts[j] in Ratings.ScoreMapping {
            if j > 0 { assert texts[j] == texts[1..][j - 1]; }
          }
        }
        Failure(e)
      case Success(rest) =>
        Success([Ratings.ScoreMapping[texts[0]]] + rest)
  }

  /**
    The scoring of app.py:103-124 on the scores of all periods: any zero
    penalises the median by 25 points, floored at 0; otherwise the median is
    banded. An empty list has no median.
   */
  function ScoreDay(scores: seq<int>): (r: Result<DayResult, ScoreError>)
    ensures r.Failure? <==> |scores| == 0
    ensures r.Failure? ==> r.error == EmptyData
  {
    if 0 in scores then
      Success(Report(Max0(Stats.Median(scores) - 25.0), Penalised))
    else if |scores| == 0 then
      Failure(EmptyData)
    else
      var m := Stats.Median(scores);
      Success(Report(m, Banding(m)))
  }

  /** `calculate_day` on the dropdown texts of the periods, without the widget reads and writes. */
  function CalculateDay(texts: seq<string>): Result<DayResult, ScoreError> {
    match ScoresOf(texts)
    case Failure(e) => Failure(e)
    case Success(scores) => ScoreDay(scores)
  }

  /** `calculate_day` fails exactly on an unknown text (the first one is reported) or on no periods at all. */
  lemma CalculateDayFails(texts: seq<string>)
    ensures CalculateDay(texts).Failure? <==>
      |texts| == 0 || exists i :: 0 <= i < |texts| && texts[i] !in Ratings.ScoreMapping
    ensures CalculateDay(texts) == Failure(EmptyData) <==> |texts| == 0
    ensures CalculateDay(texts).Failure? && |texts| > 0 ==>
      exists k :: 0 <= k < |texts| && texts[k] !in Ratings.ScoreMapping &&
        (forall j :: 0 <= j < k ==> texts[j] in Ratings.ScoreMapping) &&
        CalculateDay(texts).error == UnknownRating(texts[k])
  {
  }

  /** The texts of actual ratings always pass the lookup, giving the ratings' scores. */
  lemma ScoresOfLabels(rs: seq<Ratings.Rating>)
    ensures ScoresOf(Ratings.Labels(rs)) == Success(Ratings.Scores(rs))
  {
    var texts := Ratings.Labels(rs);
    forall i | 0 <= i < |rs|
      ensures texts[i] in Ratings.ScoreMapping && Ratings.ScoreMapping[texts[i]] == Ratings.Scores(rs)[i]
    {
      Ratings.ScoreIsMappingLookup(rs[i]);
    }
  }

  /** `calculate_day` when every period shows one of the five options. */
  function Assess(rs: seq<Ratings.Rating>): Result<DayResult, ScoreError> {
    ScoreDay(Ratings.Scores(rs))
  }

  /** On the dropdown texts of actual ratings, `CalculateDay` is `Assess`: no lookup can fail. */
  lemma CalculateDayOnRatings(rs: seq<Ratings.Rating>)
    ensures CalculateDay(Ratings.Labels(rs)) == Assess(rs)
  {
    ScoresOfLabels(rs);
  }

  /** A zero score occurs exactly when some period is Very Bad. */
  lemma ZeroIffVeryBad(rs: seq<Ratings.Rating>)
    ensures 0 in Ratings.Scores(rs) <==> Ratings.VeryBad in rs
  {
    if 0 in Ratings.Scores(rs) {
      var i :| 0 <= i < |rs| && Ratings.Scores(rs)[i] == 0;
      Ratings.ScoreRange(rs[i]);
    }
    if Ratings.VeryBad in rs {
      var i :| 0 <= i < |rs| && rs[i] == Ratings.VeryBad;
      assert Ratings.Scores(rs)[i] == 0;
    }
  }

  /** The median score of some ratings lies in [0, 100], and in [25, 100] when no period is Very Bad. */
  lemma MedianOfRatings(rs: seq<Ratings.Rating>)
    requires |rs| > 0
    ensures 0.0 <= Stats.Median(Ratings.Scores(rs)) <= 100.0
    ensures Ratings.VeryBad !in rs ==> 25.0 <= Stats.Median(Ratings.Scores(rs))
  {
    var s := Ratings.Scores(rs);
    var lo := if Ratings.VeryBad in rs then 0 else 25;
    forall i | 0 <= i < |s| ensures lo <= s[i] <= 100 {
      Ratings.ScoreRange(rs[i]);
      assert rs[i] in rs;
    }
    Stats.MedianBounds(s, lo, 100);
  }

  /**
    A single Very Bad period forces the penalty outcome, the fixed message and
    red, with the median lowered by 25 and floored at 0, whatever band the
    median falls in.
   */
  lemma PenaltyOverride(rs: seq<Ratings.Rating>)
    requires Ratings.VeryBad in rs
    ensures Assess(rs) ==
      Success(DayResult(Max0(Stats.Median(Ratings.Scores(rs)) - 25.0), PenaltyMessage, Red))
  {
    ZeroIffVeryBad(rs);
  }

  /** The penalised score is never above the median, and is exactly 25 less once the median reaches 25. */
  lemma PenaltyDrop(rs: seq<Ratings.Rating>)
    requires Ratings.VeryBad in rs
    ensures var m := Stats.Median(Ratings.Scores(rs));
      var score := Assess(rs).value.score;
      0.0 <= score <= m && (m >= 25.0 ==> score == m - 25.0) && (m < 25.0 ==> score == 0.0)
  {
    PenaltyOverride(rs);
    MedianOfRatings(rs);
    var m := Stats.Median(Ratings.Scores(rs));
    var score := Assess(rs).value.score;
    assert score == Max0(m - 25.0);
  }

  /** Without a Very Bad period the score is the median itself, banded by the if/elif chain. */
  lemma NoPenaltyExact(rs: seq<Ratings.Rating>)
    requires |rs| > 0 && Ratings.VeryBad !in rs
    ensures var m := Stats.Median(Ratings.Scores(rs));
      Assess(rs) == Success(Report(m, Banding(m)))
  {
    ZeroIffVeryBad(rs);
  }

  /** The if/elif chain picks bands by disjoint half-open intervals and never picks the penalty. */
  lemma BandsTopDown(m: real)
    ensures Banding(m) != Penalised
    ensures Banding(m) == Excellent <==> m == 100.0
    ensures Banding(m) == Good <==> 75.0 <= m < 100.0
    ensures Banding(m) == Okay <==> 50.0 <= m < 75.0
    ensures Banding(m) == NotGreat <==> 25.0 <= m < 50.0
    ensures Banding(m) == Bad <==> m < 25.0 || m > 100.0
  {
  }

  /** On [0, 100] a higher median never gets a worse colour; the top band's green differs from the next band's. */
  lemma BandsOrdered(m1: real, m2: real)
    requires 0.0 <= m1 <= m2 <= 100.0
    ensures Rank(BandColour(Banding(m1))) <= Rank(BandColour(Banding(m2)))
    ensures BandColour(Excellent) != BandColour(Good) && Rgb(Green) != Rgb(LightGreen)
  {
  }

  /** Facts about the scores of a successful lookup: they come from the table, and zero only from "Very Bad". */
  lemma ScoresOfValues(texts: seq<string>)
    requires ScoresOf(texts).Success?
    ensures forall i :: 0 <= i < |texts| ==> 0 <= ScoresOf(texts).value[i] <= 100
    ensures 0 !in ScoresOf(texts).value ==> forall i :: 0 <= i < |texts| ==> ScoresOf(texts).value[i] >= 25
  {
    var s := ScoresOf(texts).value;
    forall i | 0 <= i < |texts| ensures 0 <= s[i] <= 100 && (s[i] != 0 ==> s[i] >= 25) {
      Ratings.MappingValues(texts[i]);
    }
  }

  /** The score shown always lies in [0, 100]. */
  lemma ScoreWithinRange(texts: seq<string>)
    requires CalculateDay(texts).Success?
    ensures 0.0 <= CalculateDay(texts).value.score <= 100.0
  {
    var s := ScoresOf(texts).value;
    ScoresOfValues(texts);
    Stats.MedianBounds(s, 0, 100);
  }

  /** On scores from the table, the bottom band is never the outcome. */
  lemma ScoreDayNeverBad(s: seq<int>)
    requires |s| > 0
    requires forall i :: 0 <= i < |s| ==> 0 <= s[i] <= 100 && (s[i] != 0 ==> s[i] >= 25)
    ensures ScoreDay(s).Success? && ScoreDay(s).value.assessment != Message(Bad)
  {
    if 0 !in s {
      forall i | 0 <= i < |s| ensures 25 <= s[i] <= 100 {
        assert s[i] in s;
      }
      Stats.MedianBounds(s, 25, 100);
    }
  }

  /**
    Without a zero every score is at least 25, so the median is too and the
    final "Your day was bad." branch is never taken; with a zero the penalty
    message is shown instead.
   */
  lemma BadBandUnreachable(texts: seq<string>)
    requires CalculateDay(texts).Success?
    ensures CalculateDay(texts).value.assessment != Message(Bad)
  {
    var s := ScoresOf(texts).value;
    ScoresOfValues(texts);
    ScoreDayNeverBad(s);
  }

  /** Scoring depends only on which scores occur, not on their order. */
  lemma ScoreDayPermutation(s: seq<int>, t: seq<int>)
    requires multiset(s) == multiset(t)
    ensures ScoreDay(s) == ScoreDay(t)
  {
    assert 0 in s <==> 0 in multiset(s);
    assert 0 in t <==> 0 in multiset(t);
    assert |s| == |multiset(s)| == |multiset(t)| == |t|;
    if |s| > 0 {
      Stats.MedianPermutation(s, t);
    }
  }

  /** The order of the periods does not matter: permuting the ratings gives the same outcome. */
  lemma PermutationInvariant(rs: seq<Ratings.Rating>, qs: seq<Ratings.Rating>)
    requires multiset(rs) == multiset(qs)
    ensures Assess(rs) == Assess(qs)
  {
    Ratings.ScoresPermutation(rs, qs);
    ScoreDayPermutation(Ratings.Scores(rs), Ratings.Scores(qs));
  }

  /** Only Great periods (eight in the window): median 100, "excellent", green. */
  lemma AllGreat(rs: seq<Ratings.Rating>)
    requires |rs| > 0 && forall i :: 0 <= i < |rs| ==> rs[i] == Ratings.Great
    ensures Assess(rs) == Success(DayResult(100.0, "Your day was excellent!", Green))
  {
    assert Ratings.VeryBad !in rs;
    NoPenaltyExact(rs);
    Stats.MedianBounds(Ratings.Scores(rs), 100, 100);
  }

  /** Only Very Bad periods: median 0, penalised to max(0, -25) = 0, penalty message. */
  lemma AllVeryBad(rs: seq<Ratings.Rating>)
    requires |rs| > 0 && forall i :: 0 <= i < |rs| ==> rs[i] == Ratings.VeryBad
    ensures Assess(rs) == Success(DayResult(0.0, PenaltyMessage, Red))
  {
    assert rs[0] == Ratings.VeryBad;
    PenaltyOverride(rs);
    Stats.MedianBounds(Ratings.Scores(rs), 0, 0);
  }

  /**
    Three eight-period days, each listed worst rating first. The lemmas below
    hold for every rearrangement of them, since the periods a rating is given
    in do not matter.
   */
  const FourGreatOneVeryBadThreeGoodDay: seq<Ratings.Rating> :=
    [Ratings.VeryBad, Ratings.Good, Ratings.Good, Ratings.Good,
     Ratings.Great, Ratings.Great, Ratings.Great, Ratings.Great]
  const ThreeGreatOneVeryBadFourGoodDay: seq<Ratings.Rating> :=
    [Ratings.VeryBad, Ratings.Good, Ratings.Good, Ratings.Good,
     Ratings.Good, Ratings.Great, Ratings.Great, Ratings.Great]
  const SevenGoodOneBadDay: seq<Ratings.Rating> :=
    [Ratings.Bad, Ratings.Good, Ratings.Good, Ratings.Good,
     Ratings.Good, Ratings.Good, Ratings.Good, Ratings.Good]

  lemma ScoresOfFourGreatOneVeryBadThreeGoodDay()
    ensures Ratings.Scores(FourGreatOneVeryBadThreeGoodDay) == [0, 75, 75, 75, 100, 100, 100, 100]
  {
  }

  lemma ScoresOfThreeGreatOneVeryBadFourGoodDay()
    ensures Ratings.Scores(ThreeGreatOneVeryBadFourGoodDay) == [0, 75, 75, 75, 75, 100, 100, 100]
  {
  }

  lemma ScoresOfSevenGoodOneBadDay()
    ensures Ratings.Scores(SevenGoodOneBadDay) == [25, 75, 75, 75, 75, 75, 75, 75]
  {
  }

  /** The scores of any arrangement of four Great, one Very Bad and three Good periods. */
  lemma ScoresFourGreatOneVeryBadThreeGood(rs: seq<Ratings.Rating>)
    requires multiset(rs) == multiset(FourGreatOneVeryBadThreeGoodDay)
    ensures multiset(Ratings.Scores(rs)) == multiset([0, 75, 75, 75, 100, 100, 100, 100])
  {
    Ratings.ScoresPermutation(rs, FourGreatOneVeryBadThreeGoodDay);
    ScoresOfFourGreatOneVeryBadThreeGoodDay();
  }

  /** The scores of any arrangement of three Great, one Very Bad and four Good periods. */
  lemma ScoresThreeGreatOneVeryBadFourGood(rs: seq<Ratings.Rating>)
    requires multiset(rs) == multiset(ThreeGreatOneVeryBadFourGoodDay)
    ensures multiset(Ratings.Scores(rs)) == multiset([0, 75, 75, 75, 75, 100, 100, 100])
  {
    Ratings.ScoresPermutation(rs, ThreeGreatOneVeryBadFourGoodDay);
    ScoresOfThreeGreatOneVeryBadFourGoodDay();
  }

  /** The scores of any arrangement of seven Good periods and one Bad. */
  lemma ScoresSevenGoodOneBad(rs: seq<Ratings.Rating>)
    requires multiset(rs) == multiset(SevenGoodOneBadDay)
    ensures multiset(Ratings.Scores(rs)) == multiset([25, 75, 75, 75, 75, 75, 75, 75])
  {
    Ratings.ScoresPermutation(rs, SevenGoodOneBadDay);
    ScoresOfSevenGoodOneBadDay();
  }

  lemma MedianOf875(s: seq<int>)
    requires multiset(s) == multiset([0, 75, 75, 75, 100, 100, 100, 100])
    ensures |s| > 0 && Stats.Median(s) == 87.5
  {
    Stats.MedianFromSorted(s, [0, 75, 75, 75, 100, 100, 100, 100]);
  }

  lemma MedianOf75Penalised(s: seq<int>)
    requires multiset(s) == multiset([0, 75, 75, 75, 75, 100, 100, 100])
    ensures |s| > 0 && Stats.Median(s) == 75.0
  {
    Stats.MedianFromSorted(s, [0, 75, 75, 75, 75, 100, 100, 100]);
  }

  lemma MedianOf75(s: seq<int>)
    requires multiset(s) == multiset([25, 75, 75, 75, 75, 75, 75, 75])
    ensures |s| > 0 && Stats.Median(s) == 75.0
  {
    Stats.MedianFromSorted(s, [25, 75, 75, 75, 75, 75, 75, 75]);
  }

  /** The day holds a Very Bad period. */
  lemma FourGreatOneVeryBadThreeGoodShape(rs: seq<Ratings.Rating>)
    requires multiset(rs) == multiset(FourGreatOneVeryBadThreeGoodDay)
    ensures Ratings.VeryBad in rs
  {
    assert FourGreatOneVeryBadThreeGoodDay[0] == Ratings.VeryBad;
    assert Ratings.VeryBad in multiset(rs);
  }

  /**
    Any day with four Great, one Very Bad and three Good periods: the scores
    sort to [0, 75, 75, 75, 100, 100, 100, 100], so the median is 87.5 and the
    penalised score 62.5, shown with the penalty message although 62.5 would
    band as "okay".
   */
  lemma FourGreatOneVeryBadThreeGood(rs: seq<Ratings.Rating>)
    requires multiset(rs) == multiset(FourGreatOneVeryBadThreeGoodDay)
    ensures Stats.Median(Ratings.Scores(rs)) == 87.5
    ensures Assess(rs) == Success(DayResult(62.5, PenaltyMessage, Red))
    ensures Banding(62.5) == Okay
  {
    ScoresFourGreatOneVeryBadThreeGood(rs);
    MedianOf875(Ratings.Scores(rs));
    FourGreatOneVeryBadThreeGoodShape(rs);
    PenaltyOverride(rs);
  }

  /** The day holds a Very Bad period. */
  lemma ThreeGreatOneVeryBadFourGoodShape(rs: seq<Ratings.Rating>)
    requires multiset(rs) == multiset(ThreeGreatOneVeryBadFourGoodDay)
    ensures Ratings.VeryBad in rs
  {
    assert ThreeGreatOneVeryBadFourGoodDay[0] == Ratings.VeryBad;
    assert Ratings.VeryBad in multiset(rs);
  }

  /** Any day with three Great, one Very Bad and four Good periods: median 75, penalised to 50 with the penalty message, not "okay". */
  lemma ThreeGreatOneVeryBadFourGood(rs: seq<Ratings.Rating>)
    requires multiset(rs) == multiset(ThreeGreatOneVeryBadFourGoodDay)
    ensures Stats.Median(Ratings.Scores(rs)) == 75.0
    ensures Assess(rs) == Success(DayResult(50.0, PenaltyMessage, Red))
    ensures Banding(50.0) == Okay
  {
    ScoresThreeGreatOneVeryBadFourGood(rs);
    MedianOf75Penalised(Ratings.Scores(rs));
    ThreeGreatOneVeryBadFourGoodShape(rs);
    PenaltyOverride(rs);
  }

  /** Seven Good periods and one Bad fill the eight periods of a day, none of them Very Bad. */
  lemma SevenGoodOneBadShape(rs: seq<Ratings.Rating>)
    requires multiset(rs) == multiset(SevenGoodOneBadDay)
    ensures |rs| == PeriodCount && Ratings.VeryBad !in rs
  {
    assert Ratings.VeryBad !in SevenGoodOneBadDay;
    assert Ratings.VeryBad !in multiset(rs);
    assert |rs| == |multiset(rs)| == |SevenGoodOneBadDay|;
  }

  /** Any day with seven Good periods and one Bad: median 75, "good", light green. */
  lemma SevenGoodOneBad(rs: seq<Ratings.Rating>)
    requires multiset(rs) == multiset(SevenGoodOneBadDay)
    ensures Assess(rs) == Success(DayResult(75.0, "Your day was good.", LightGreen))
  {
    ScoresSevenGoodOneBad(rs);
    SevenGoodOneBadShape(rs);
    MedianOf75(Ratings.Scores(rs));
    NoPenaltyExact(rs);
    var m := Stats.Median(Ratings.Scores(rs));
    assert Banding(m) == Good;
    assert Report(m, Good) == DayResult(75.0, "Your day was good.", LightGreen);
  }
}

/**
  The five ratings a period can be given, the dropdown texts that stand for
  them (app.py:35) and the fixed table that turns each text into a score
  (app.py:92-98).
 */
module Ratings {

  datatype Rating = VeryBad | Bad | OK | Good | Great

  /** The dropdown entries, worst first, in the order the combo boxes list them. */
  const Options: seq<string> := ["Very Bad", "Bad", "OK", "Good", "Great"]

  /** `score_mapping`: dropdown text to score. */
  const ScoreMapping: map<string, int> :=
    map["Very Bad" := 0, "Bad" := 25, "OK" := 50, "Good" := 75, "Great" := 100]

  /** Position of a rating in the dropdown, 0 for the worst. */
  function Index(r: Rating): (i: nat)
    ensures i < |Options|
  {
    match r
    case VeryBad => 0
    case Bad => 1
    case OK => 2
    case Good => 3
    case Great => 4
  }

  /** The dropdown text `currentText()` returns when this rating is selected. */
  function Label(r: Rating): string {
    Options[Index(r)]
  }

  /** The score of a rating, as `score_mapping` assigns it to the rating's dropdown text. */
  function Score(r: Rating): int {
    match r
    case VeryBad => 0
    case Bad => 25
    case OK => 50
    case Good => 75
    case Great => 100
  }

  /** `Score` is the table lookup: the table holds every rating's text and maps it to that rating's score. */
  lemma ScoreIsMappingLookup(r: Rating)
    ensures Label(r) in ScoreMapping
    ensures ScoreMapping[Label(r)] == Score(r)
  {
  }

  /** A rating scores 25 points per step up the dropdown; only Very Bad scores zero, and every score lies in [0, 100]. */
  lemma ScoreRange(r: Rating)
    ensures Score(r) == 25 * Index(r)
    ensures 0 <= Score(r) <= 100
    ensures Score(r) == 0 <==> r == VeryBad
  {
  }

  /** A value `score_mapping` can produce. */
  predicate IsScore(v: int) {
    v in {0, 25, 50, 75, 100}
  }

  /** The table is total over the dropdown: its keys are exactly the five option texts, each naming one rating. */
  lemma MappingCoversOptions(text: string)
    ensures text in ScoreMapping <==> text in Options
    ensures text in ScoreMapping ==> exists r :: Label(r) == text && ScoreMapping[text] == Score(r)
  {
    if text in ScoreMapping {
      var r :| r in [VeryBad, Bad, OK, Good, Great] && Label(r) == text;
    }
  }

  /** Every value of the table is one of 0, 25, 50, 75, 100. */
  lemma MappingValues(text: string)
    requires text in ScoreMapping
    ensures IsScore(ScoreMapping[text])
  {
  }

  /** Distinct ratings have distinct texts. */
  lemma LabelInjective(a: Rating, b: Rating)
    ensures Label(a) == Label(b) <==> a == b
  {
  }

  /** Scores rise strictly from Very Bad to Great. */
  lemma ScoreStrictlyIncreasing(a: Rating, b: Rating)
    ensures Index(a) < Index(b) <==> Score(a) < Score(b)
  {
  }

  /** The dropdown texts of a sequence of ratings. */
  function Labels(rs: seq<Rating>): (ts: seq<string>)
    ensures |ts| == |rs|
    ensures forall i :: 0 <= i < |rs| ==> ts[i] == Label(rs[i])
  {
    if rs == [] then [] else [Label(rs[0])] + Labels(rs[1..])
  }

  /** The scores of a sequence of ratings. */
  function Scores(rs: seq<Rating>): (vs: seq<int>)
    ensures |vs| == |rs|
    ensures forall i :: 0 <= i < |rs| ==> vs[i] == Score(rs[i])
  {
    if rs == [] then [] else [Score(rs[0])] + Scores(rs[1..])
  }

  lemma ScoresAppend(x: seq<Rating>, y: seq<Rating>)
    ensures Scores(x + y) == Scores(x) + Scores(y)
  {
    var l, r := Scores(x + y), Scores(x) + Scores(y);
    forall k | 0 <= k < |l| ensures l[k] == r[k] {
      if k < |x| {
        assert (x + y)[k] == x[k];
      } else {
        assert (x + y)[k] == y[k - |x|];
      }
    }
  }

  /** Taking one rating out of a sequence takes its score out of the scores. */
  lemma {:induction false} ScoresRemove(b: seq<Rating>, i: nat)
    requires i < |b|
    ensures multiset(Scores(b)) == multiset(Scores(b[..i] + b[i + 1..])) + multiset{Score(b[i])}
  {
    var rest := b[..i] + b[i + 1..];
    var p, v, q := Scores(b[..i]), Score(b[i]), Scores(b[i + 1..]);
    assert Scores(b) == p + [v] + q;
    ScoresAppend(b[..i], b[i + 1..]);
    calc {
      multiset(Scores(b));
      multiset(p + [v] + q);
      multiset(p) + multiset{v} + multiset(q);
      multiset(p + q) + multiset{v};
    }
  }

  /** Reordering the ratings reorders their scores and nothing more. */
  lemma {:induction false} ScoresPermutation(a: seq<Rating>, b: seq<Rating>)
    requires multiset(a) == multiset(b)
    ensures multiset(Scores(a)) == multiset(Scores(b))
  {
    assert |a| == |multiset(a)| == |multiset(b)| == |b|;
    if a != [] {
      var x := a[0];
      assert x in multiset(b);
      var i :| 0 <= i < |b| && b[i] == x;
      var rest := b[..i] + b[i + 1..];
      assert a == [x] + a[1..];
      assert b == b[..i] + [x] + b[i + 1..];
      calc {
        multiset(a[1..]);
        multiset(a) - multiset{x};
        multiset(b) - multiset{x};
        multiset(rest);
      }
      ScoresPermutation(a[1..], rest);
      ScoresRemove(b, i);
      ScoresRemove(a, 0);
      assert a[..0] + a[1..] == a[1..];
    }
  }
}

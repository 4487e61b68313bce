/**
 * The moderation verdict returned by the content classifier
 * (`SongEvaluation` in src/app/api/add-to-playlist/route.ts) and the
 * rejection message the handler builds from it.
 */
module Moderation {

  /** The closed enumeration of the response schema's `evaluation` field. */
  datatype Evaluation = Appropriate | LikelyAppropriate | LikelyInappropriate | Inappropriate

  /** The five fields of the classifier's reply. */
  datatype Verdict = Verdict(
    evaluation: Evaluation,
    reasoning: string,
    issues: seq<string>,
    songTitle: string,
    artist: string)

  /** The literal the classifier emits for each category. */
  function EvaluationName(e: Evaluation): (s: string)
  {
    match e
    case Appropriate => "appropriate"
    case LikelyAppropriate => "likely_appropriate"
    case LikelyInappropriate => "likely_inappropriate"
    case Inappropriate => "inappropriate"
  }

  /**
   * The handler's gate compares the raw string with "appropriate"; on the
   * datatype this is exactly the first category.
   */
  predicate Approved(v: Verdict)
    ensures Approved(v) <==> EvaluationName(v.evaluation) == "appropriate"
  {
    v.evaluation == Appropriate
  }

  lemma EvaluationNameInjective(e1: Evaluation, e2: Evaluation)
    requires EvaluationName(e1) == EvaluationName(e2)
    ensures e1 == e2
  {
  }

  /** The number of characters in all the parts together. */
  function TotalLength(parts: seq<string>): (n: nat)
  {
    if |parts| == 0 then 0 else |parts[0]| + TotalLength(parts[1..])
  }

  /**
   * `Array.prototype.join`: the parts with `sep` between neighbours. The
   * result starts with the first part and holds every character of every
   * part plus one separator fewer than there are parts.
   */
  function Join(parts: seq<string>, sep: string): (r: string)
    ensures |parts| == 0 ==> r == ""
    ensures |parts| > 0 ==> |r| + |sep| == TotalLength(parts) + |parts| * |sep|
    ensures |parts| > 0 ==> parts[0] <= r
  {
    if |parts| == 0 then ""
    else if |parts| == 1 then parts[0]
    else parts[0] + sep + Join(parts[1..], sep)
  }

  /**
   * JavaScript's join works left to right, putting the separator before every
   * part but the first; the recursive definition above agrees with it.
   */
  lemma {:induction false} JoinSnoc(parts: seq<string>, last: string, sep: string)
    requires |parts| > 0
    ensures Join(parts + [last], sep) == Join(parts, sep) + sep + last
  {
    if |parts| == 1 {
      assert parts + [last] == [parts[0], last];
      assert ([parts[0], last])[1..] == [last];
    } else {
      assert (parts + [last])[1..] == parts[1..] + [last];
      JoinSnoc(parts[1..], last, sep);
    }
  }

  const RejectionPrefix: string := "Song not added to playlist, decision: "
  const ReasonsInfix: string := " for reasons: "
  const IssueSeparator: string := ", "

  /** The 405 message for a verdict other than "appropriate". */
  function RejectionMessage(v: Verdict): (r: string)
    ensures RejectionPrefix <= r
    ensures EvaluationName(v.evaluation) <= r[|RejectionPrefix|..]
  {
    RejectionPrefix + EvaluationName(v.evaluation) + ReasonsInfix + Join(v.issues, IssueSeparator)
  }

  /**
   * The rejection message reports the decision faithfully: two verdicts with
   * the same message have the same category and the same joined issue list.
   */
  lemma RejectionMessageDetermines(v1: Verdict, v2: Verdict)
    requires RejectionMessage(v1) == RejectionMessage(v2)
    ensures v1.evaluation == v2.evaluation
    ensures Join(v1.issues, IssueSeparator) == Join(v2.issues, IssueSeparator)
  {
    var m1, m2 := RejectionMessage(v1), RejectionMessage(v2);
    var n1, n2 := EvaluationName(v1.evaluation), EvaluationName(v2.evaluation);
    var p := |RejectionPrefix|;
    assert m1[p] == n1[0] && m1[p + 7] == n1[7];
    assert m2[p] == n2[0] && m2[p + 7] == n2[7];
    EvaluationNameInjective(v1.evaluation, v2.evaluation);
    var k := p + |n1| + |ReasonsInfix|;
    assert m1[k..] == Join(v1.issues, IssueSeparator);
    assert m2[k..] == Join(v2.issues, IssueSeparator);
  }
}

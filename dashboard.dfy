/**
  The two value computations of the dashboard script public/app.js that
  decide what a tender card shows: the CSS class of the score badge and the
  summary text. The score arrives as the JSON of the `ai_score` column, so
  it may be null; in JavaScript `null >= 80` and `null >= 50` are both
  false.
*/
module Dashboard {
  import opened Wrappers
  import opened Schema

  const HighClass: Text := "score-high"
  const MediumClass: Text := "score-med"
  const NoClass: Text := ""

  /** The text shown when a tender has no usable summary. */
  const NoSummary: Text := "Sin resumen disponible."

  /** getScoreClass (public/app.js:26-30). */
  function ScoreClass(score: Option<int>): (c: Text)
    ensures c == HighClass <==> score.Some? && score.value >= 80
    ensures c == MediumClass <==> score.Some? && 50 <= score.value < 80
    ensures c == NoClass <==> score.None? || score.value < 50
  {
    match score
    case None => NoClass
    case Some(s) =>
      if s >= 80 then HighClass
      else if s >= 50 then MediumClass
      else NoClass
  }

  /** The badges in increasing order. */
  function ClassLevel(c: Text): nat {
    if c == HighClass then 2 else if c == MediumClass then 1 else 0
  }

  /** A higher score never gets a lower badge; a missing score gets the
      lowest, as a score of 0 would. */
  lemma ScoreClassMonotone(a: int, b: int)
    requires a <= b
    ensures ClassLevel(ScoreClass(Some(a))) <= ClassLevel(ScoreClass(Some(b)))
    ensures ScoreClass(None) == ScoreClass(Some(0))
  {
  }

  /** `tender.ai_summary || 'Sin resumen disponible.'` (public/app.js:14):
      the stored summary when it is a non-empty string, the fallback when
      it is NULL or empty. */
  function SummaryText(summary: Option<Text>): (r: Text)
    ensures r != ""
    ensures Truthy(summary) ==> r == summary.value
    ensures !Truthy(summary) ==> r == NoSummary
  {
    if Truthy(summary) then summary.value else NoSummary
  }
}

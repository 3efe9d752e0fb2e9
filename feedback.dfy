/** The feedback page: the overall score, the colour tier of a score and
    the list of personalised suggestions. */
module Feedback {
  import Js
  import opened TherapyContext

  /** The mean of pronunciation, fluency and engagement, rounded as
      `Math.round` does. */
  function OverallScore(speech: SpeechMetrics, emotion: EmotionMetrics): (score: int)
    ensures var mean := (speech.pronunciationAccuracy + speech.fluencyScore + emotion.engagementScore) / 3.0;
            mean - 0.5 < score as real <= mean + 0.5
  {
    Js.Round((speech.pronunciationAccuracy + speech.fluencyScore + emotion.engagementScore) / 3.0)
  }

  /** The three colour tiers a score falls into. */
  datatype Tier = Success | Warning | Destructive

  /** The tier rule both colour helpers share; the bounds are inclusive. */
  function TierOf(score: real): Tier {
    if score >= 80.0 then Success
    else if score >= 60.0 then Warning
    else Destructive
  }

  function TierRank(tier: Tier): nat {
    match tier
    case Destructive => 0
    case Warning => 1
    case Success => 2
  }

  /** `getScoreColor` */
  function ScoreColor(score: real): string {
    if score >= 80.0 then "text-success"
    else if score >= 60.0 then "text-warning"
    else "text-destructive"
  }

  /** `getScoreBg` */
  function ScoreBg(score: real): string {
    if score >= 80.0 then "from-success to-success/70"
    else if score >= 60.0 then "from-warning to-warning/70"
    else "from-destructive to-destructive/70"
  }

  function TierColor(tier: Tier): string {
    match tier
    case Success => "text-success"
    case Warning => "text-warning"
    case Destructive => "text-destructive"
  }

  function TierBg(tier: Tier): string {
    match tier
    case Success => "from-success to-success/70"
    case Warning => "from-warning to-warning/70"
    case Destructive => "from-destructive to-destructive/70"
  }

  /** The thresholds are inclusive, and the text colour and the background
      always pick the same tier. */
  lemma ColorAndBgAgree(score: real)
    ensures TierOf(score) == Success <==> score >= 80.0
    ensures TierOf(score) == Warning <==> 60.0 <= score < 80.0
    ensures TierOf(score) == Destructive <==> score < 60.0
    ensures ScoreColor(score) == TierColor(TierOf(score))
    ensures ScoreBg(score) == TierBg(TierOf(score))
  {
  }

  /** A higher score never gets a lower tier. */
  lemma TierMonotone(a: real, b: real)
    requires a <= b
    ensures TierRank(TierOf(a)) <= TierRank(TierOf(b))
  {
  }

  /** The bullet points of the suggestion list. */
  datatype Suggestion = VowelPractice | ReadAloud | ShorterSessions | DailyPractice

  function SuggestionText(s: Suggestion): string {
    match s
    case VowelPractice => "Practice vowel sounds and consonant clusters for clearer pronunciation"
    case ReadAloud => "Try reading aloud passages to improve speech flow and rhythm"
    case ShorterSessions => "Consider shorter, more focused sessions to maintain engagement"
    case DailyPractice => "Consistency is key - aim for daily practice sessions"
  }

  /** The position of a suggestion on the page. */
  function SuggestionRank(s: Suggestion): nat {
    match s
    case VowelPractice => 0
    case ReadAloud => 1
    case ShorterSessions => 2
    case DailyPractice => 3
  }

  /** The suggestions shown, in page order: one per metric below 70, then
      always the consistency reminder. */
  function Suggestions(speech: SpeechMetrics, emotion: EmotionMetrics): (list: seq<Suggestion>)
    ensures VowelPractice in list <==> speech.pronunciationAccuracy < 70.0
    ensures ReadAloud in list <==> speech.fluencyScore < 70.0
    ensures ShorterSessions in list <==> emotion.engagementScore < 70.0
    ensures 1 <= |list| <= 4 && list[|list| - 1] == DailyPractice
    ensures forall i, j :: 0 <= i < j < |list| ==> SuggestionRank(list[i]) < SuggestionRank(list[j])
    ensures forall i, j :: 0 <= i < j < |list| ==> list[i] != list[j]
  {
    (if speech.pronunciationAccuracy < 70.0 then [VowelPractice] else [])
    + (if speech.fluencyScore < 70.0 then [ReadAloud] else [])
    + (if emotion.engagementScore < 70.0 then [ShorterSessions] else [])
    + [DailyPractice]
  }
}

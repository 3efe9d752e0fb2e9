/** The therapy-session engine: the records the session works on, the
    neuro-adaptive decision engine that maps a speech snapshot and an emotion
    snapshot to a personalisation decision, and the provider that holds the
    live session state (active flag, start time, current metrics, cached
    decision and the append-only session history).

    Scores are exact reals; clock readings (`Date.now()`, `new Date()`) are
    the parameter `now`, in milliseconds. */
module TherapyContext {
  import opened Options
  import Js

  datatype Language = English | Tamil
  datatype EmotionState = Calm | Neutral | Frustrated
  datatype EngagementLevel = Focused | Distracted
  datatype TherapyLevel = Beginner | Intermediate | Advanced
  datatype FocusArea = Pronunciation | Fluency | Conversation

  datatype SpeechMetrics = SpeechMetrics(
    pronunciationAccuracy: real,
    fluencyScore: real,
    transcription: string)

  datatype EmotionMetrics = EmotionMetrics(
    emotionState: EmotionState,
    engagementLevel: EngagementLevel,
    engagementScore: real,
    confidence: real)

  datatype AdaptiveDecision = AdaptiveDecision(
    therapyLevel: TherapyLevel,
    focusArea: FocusArea,
    confidenceScore: int,
    recommendation: string)

  /** A completed session; `id` is the decimal spelling of the clock reading
      at the end, `startTime` the clock reading at the start. */
  datatype SessionData = SessionData(
    id: string,
    startTime: nat,
    duration: real,
    speechMetrics: SpeechMetrics,
    emotionMetrics: EmotionMetrics,
    adaptiveDecision: AdaptiveDecision)

  const DefaultSpeechMetrics := SpeechMetrics(0.0, 0.0, "")
  const DefaultEmotionMetrics := EmotionMetrics(Neutral, Focused, 75.0, 0.0)
  const DefaultAdaptiveDecision :=
    AdaptiveDecision(Beginner, Pronunciation, 0, "Start with basic pronunciation exercises")

  const BreakMessage := "Take a short break. Consider simpler, more engaging exercises."
  const AdvancedMessage := "Great progress! Ready for advanced conversational practice."
  const FoundationMessage := "Continue with foundational exercises. Practice makes perfect!"

  function FocusAreaName(area: FocusArea): string {
    match area
    case Pronunciation => "pronunciation"
    case Fluency => "fluency"
    case Conversation => "conversation"
  }

  function FocusMessage(area: FocusArea): string {
    "Focus on improving " + FocusAreaName(area) + " with moderate difficulty exercises."
  }

  // ---------------------------------------------------------------------
  // Decision engine
  // ---------------------------------------------------------------------

  function EmotionWeight(state: EmotionState): real {
    match state
    case Frustrated => 0.5
    case Calm => 1.2
    case Neutral => 1.0
  }

  function EngagementWeight(level: EngagementLevel): real {
    if level == Distracted then 0.6 else 1.0
  }

  /** The weighted composite score; it is not clamped to [0, 1]. */
  function CompositeScore(speech: SpeechMetrics, emotion: EmotionMetrics): real {
    var pronNorm := speech.pronunciationAccuracy / 100.0;
    var fluencyNorm := speech.fluencyScore / 100.0;
    var engagementNorm := emotion.engagementScore / 100.0;
    (pronNorm * 0.3 + fluencyNorm * 0.3 + engagementNorm * 0.4)
      * EmotionWeight(emotion.emotionState) * EngagementWeight(emotion.engagementLevel)
  }

  /** The level rule; both thresholds are strict. */
  function LevelFor(score: real): (level: TherapyLevel)
    ensures level == Advanced <==> score > 0.7
    ensures level == Intermediate <==> 0.4 < score <= 0.7
    ensures level == Beginner <==> score <= 0.4
  {
    if score > 0.7 then Advanced
    else if score > 0.4 then Intermediate
    else Beginner
  }

  /** The focus-area rule as written, including its `pronNorm < 0.5` branch,
      which assigns the value the area already had. */
  function FocusFor(pronNorm: real, fluencyNorm: real): (focus: FocusArea)
    ensures focus == Conversation <==> pronNorm > fluencyNorm && pronNorm > 0.6 && fluencyNorm > 0.6
    ensures focus == Fluency <==> pronNorm > fluencyNorm && pronNorm > 0.6 && fluencyNorm <= 0.6
    ensures focus == Pronunciation <==> !(pronNorm > fluencyNorm && pronNorm > 0.6)
  {
    if pronNorm > fluencyNorm && pronNorm > 0.6 then
      (if fluencyNorm > 0.6 then Conversation else Fluency)
    else if pronNorm < 0.5 then Pronunciation
    else Pronunciation
  }

  /** The recommendation, chosen by priority: frustration or distraction
      first, then the level of the score. */
  function RecommendationFor(emotion: EmotionMetrics, score: real, focus: FocusArea): (text: string)
    ensures emotion.emotionState == Frustrated || emotion.engagementLevel == Distracted ==> text == BreakMessage
    ensures emotion.emotionState != Frustrated && emotion.engagementLevel != Distracted ==>
              && (LevelFor(score) == Advanced ==> text == AdvancedMessage)
              && (LevelFor(score) == Intermediate ==> text == FocusMessage(focus))
              && (LevelFor(score) == Beginner ==> text == FoundationMessage)
  {
    if emotion.emotionState == Frustrated || emotion.engagementLevel == Distracted then BreakMessage
    else if score > 0.7 then AdvancedMessage
    else if score > 0.4 then FocusMessage(focus)
    else FoundationMessage
  }

  function CalculateAdaptiveDecision(speech: SpeechMetrics, emotion: EmotionMetrics): AdaptiveDecision {
    var score := CompositeScore(speech, emotion);
    var focus := FocusFor(speech.pronunciationAccuracy / 100.0, speech.fluencyScore / 100.0);
    AdaptiveDecision(LevelFor(score), focus, Js.Round(score * 100.0), RecommendationFor(emotion, score, focus))
  }

  /** The level thresholds are strict lower bounds: above 0.7 is advanced,
      above 0.4 (up to and including 0.7) intermediate, the rest beginner. */
  lemma LevelThresholds(speech: SpeechMetrics, emotion: EmotionMetrics)
    ensures var level := CalculateAdaptiveDecision(speech, emotion).therapyLevel;
            var score := CompositeScore(speech, emotion);
            && (level == Advanced <==> score > 0.7)
            && (level == Intermediate <==> 0.4 < score <= 0.7)
            && (level == Beginner <==> score <= 0.4)
  {
  }

  /** A higher composite score never gives a lower level. */
  lemma LevelMonotone(s1: real, s2: real)
    requires s1 <= s2
    ensures LevelRank(LevelFor(s1)) <= LevelRank(LevelFor(s2))
  {
  }

  function LevelRank(level: TherapyLevel): nat {
    match level
    case Beginner => 0
    case Intermediate => 1
    case Advanced => 2
  }

  /** The focus area is conversation exactly when pronunciation leads fluency
      and both are above 0.6, fluency exactly when pronunciation leads and is
      above 0.6 while fluency is not, and pronunciation in every other case:
      the `pronNorm < 0.5` branch never changes the outcome. */
  lemma FocusAreaRule(speech: SpeechMetrics, emotion: EmotionMetrics)
    ensures var focus := CalculateAdaptiveDecision(speech, emotion).focusArea;
            var p := speech.pronunciationAccuracy / 100.0;
            var f := speech.fluencyScore / 100.0;
            && (focus == Conversation <==> p > f && p > 0.6 && f > 0.6)
            && (focus == Fluency <==> p > f && p > 0.6 && f <= 0.6)
            && (focus == Pronunciation <==> !(p > f && p > 0.6))
  {
  }

  /** Frustration or distraction always yields the break message, however
      high the composite score. */
  lemma BreakOverridesScore(speech: SpeechMetrics, emotion: EmotionMetrics)
    requires emotion.emotionState == Frustrated || emotion.engagementLevel == Distracted
    ensures CalculateAdaptiveDecision(speech, emotion).recommendation == BreakMessage
  {
  }

  /** Without frustration or distraction the recommendation is the one for
      the level, the intermediate one naming the focus area. */
  lemma RecommendationFollowsLevel(speech: SpeechMetrics, emotion: EmotionMetrics)
    requires emotion.emotionState != Frustrated && emotion.engagementLevel != Distracted
    ensures var d := CalculateAdaptiveDecision(speech, emotion);
            && (d.therapyLevel == Advanced ==> d.recommendation == AdvancedMessage)
            && (d.therapyLevel == Intermediate ==> d.recommendation == FocusMessage(d.focusArea))
            && (d.therapyLevel == Beginner ==> d.recommendation == FoundationMessage)
  {
  }

  /** The confidence score is the composite score as a rounded percentage. */
  lemma ConfidenceIsRoundedPercentage(speech: SpeechMetrics, emotion: EmotionMetrics)
    ensures var c := CalculateAdaptiveDecision(speech, emotion).confidenceScore;
            var pct := CompositeScore(speech, emotion) * 100.0;
            pct - 0.5 < c as real <= pct + 0.5
  {
  }

  predicate InRange(x: real, lo: real, hi: real) {
    lo <= x <= hi
  }

  /** With every measurement inside its documented range, the composite
      lies in [0, 1.2] and the confidence score in [0, 120]: the calm weight
      lets both exceed 1 and 100. */
  lemma ScoreBounds(speech: SpeechMetrics, emotion: EmotionMetrics)
    requires InRange(speech.pronunciationAccuracy, 0.0, 100.0)
    requires InRange(speech.fluencyScore, 0.0, 100.0)
    requires InRange(emotion.engagementScore, 0.0, 100.0)
    ensures InRange(CompositeScore(speech, emotion), 0.0, 1.2)
    ensures 0 <= CalculateAdaptiveDecision(speech, emotion).confidenceScore <= 120
  {
    var base := speech.pronunciationAccuracy / 100.0 * 0.3 + speech.fluencyScore / 100.0 * 0.3
      + emotion.engagementScore / 100.0 * 0.4;
    assert 0.0 <= base <= 1.0;
    var w := EmotionWeight(emotion.emotionState) * EngagementWeight(emotion.engagementLevel);
    assert 0.0 <= w <= 1.2;
    assert CompositeScore(speech, emotion) == base * w;
    Js.RoundMonotone(0.0, CompositeScore(speech, emotion) * 100.0);
    Js.RoundMonotone(CompositeScore(speech, emotion) * 100.0, 120.0);
    Js.RoundOfInteger(0);
    Js.RoundOfInteger(120);
  }

  /** Full marks, calm and focused: the composite is 1.2, so the level is
      advanced and the confidence score 120. */
  lemma PerfectCalmSession()
    ensures var speech := SpeechMetrics(100.0, 100.0, "");
            var emotion := EmotionMetrics(Calm, Focused, 100.0, 0.0);
            var d := CalculateAdaptiveDecision(speech, emotion);
            && CompositeScore(speech, emotion) == 1.2
            && d.therapyLevel == Advanced && d.confidenceScore == 120
            && d.focusArea == Pronunciation && d.recommendation == AdvancedMessage
  {
    Js.RoundOfInteger(120);
  }

  // ---------------------------------------------------------------------
  // Partial updates
  // ---------------------------------------------------------------------

  /** `Partial<SpeechMetrics>`: a field is either supplied or absent. */
  datatype SpeechPatch = SpeechPatch(
    pronunciationAccuracy: Option<real>,
    fluencyScore: Option<real>,
    transcription: Option<string>)

  /** `Partial<EmotionMetrics>`. */
  datatype EmotionPatch = EmotionPatch(
    emotionState: Option<EmotionState>,
    engagementLevel: Option<EngagementLevel>,
    engagementScore: Option<real>,
    confidence: Option<real>)

  /** `{ ...prev, ...patch }` */
  function MergeSpeech(prev: SpeechMetrics, patch: SpeechPatch): SpeechMetrics {
    SpeechMetrics(
      patch.pronunciationAccuracy.GetOr(prev.pronunciationAccuracy),
      patch.fluencyScore.GetOr(prev.fluencyScore),
      patch.transcription.GetOr(prev.transcription))
  }

  /** `{ ...prev, ...patch }` */
  function MergeEmotion(prev: EmotionMetrics, patch: EmotionPatch): EmotionMetrics {
    EmotionMetrics(
      patch.emotionState.GetOr(prev.emotionState),
      patch.engagementLevel.GetOr(prev.engagementLevel),
      patch.engagementScore.GetOr(prev.engagementScore),
      patch.confidence.GetOr(prev.confidence))
  }

  /** Supplied fields overwrite, absent fields keep their old values. */
  lemma MergeSpeechFields(prev: SpeechMetrics, patch: SpeechPatch)
    ensures var m := MergeSpeech(prev, patch);
            && (patch.pronunciationAccuracy.Some? ==> m.pronunciationAccuracy == patch.pronunciationAccuracy.value)
            && (patch.pronunciationAccuracy.None? ==> m.pronunciationAccuracy == prev.pronunciationAccuracy)
            && (patch.fluencyScore.Some? ==> m.fluencyScore == patch.fluencyScore.value)
            && (patch.fluencyScore.None? ==> m.fluencyScore == prev.fluencyScore)
            && (patch.transcription.Some? ==> m.transcription == patch.transcription.value)
            && (patch.transcription.None? ==> m.transcription == prev.transcription)
  {
  }

  /** Supplied fields overwrite, absent fields keep their old values. */
  lemma MergeEmotionFields(prev: EmotionMetrics, patch: EmotionPatch)
    ensures var m := MergeEmotion(prev, patch);
            && (patch.emotionState.Some? ==> m.emotionState == patch.emotionState.value)
            && (patch.emotionState.None? ==> m.emotionState == prev.emotionState)
            && (patch.engagementLevel.Some? ==> m.engagementLevel == patch.engagementLevel.value)
            && (patch.engagementLevel.None? ==> m.engagementLevel == prev.engagementLevel)
            && (patch.engagementScore.Some? ==> m.engagementScore == patch.engagementScore.value)
            && (patch.engagementScore.None? ==> m.engagementScore == prev.engagementScore)
            && (patch.confidence.Some? ==> m.confidence == patch.confidence.value)
            && (patch.confidence.None? ==> m.confidence == prev.confidence)
  {
  }

  /** Applying the same patch twice is the same as applying it once, and the
      empty patch changes nothing. */
  lemma MergeIdempotent(s: SpeechMetrics, sp: SpeechPatch, e: EmotionMetrics, ep: EmotionPatch)
    ensures MergeSpeech(MergeSpeech(s, sp), sp) == MergeSpeech(s, sp)
    ensures MergeEmotion(MergeEmotion(e, ep), ep) == MergeEmotion(e, ep)
    ensures MergeSpeech(s, SpeechPatch(None, None, None)) == s
    ensures MergeEmotion(e, EmotionPatch(None, None, None, None)) == e
  {
  }

  // ---------------------------------------------------------------------
  // Provider state and its operations
  // ---------------------------------------------------------------------

  /** The provider's state as one value. */
  datatype TherapyState = TherapyState(
    isSessionActive: bool,
    selectedLanguage: Language,
    speechMetrics: SpeechMetrics,
    emotionMetrics: EmotionMetrics,
    adaptiveDecision: AdaptiveDecision,
    sessionHistory: seq<SessionData>,
    sessionStartTime: Option<nat>)

  const InitialState := TherapyState(false, English, DefaultSpeechMetrics, DefaultEmotionMetrics,
                                     DefaultAdaptiveDecision, [], None)

  function LanguageSet(st: TherapyState, lang: Language): TherapyState {
    st.(selectedLanguage := lang)
  }

  /** `startSession`: the metrics go back to their defaults; the cached
      decision and the history are left as they were. */
  function Started(st: TherapyState, now: nat): TherapyState {
    st.(isSessionActive := true, sessionStartTime := Some(now),
        speechMetrics := DefaultSpeechMetrics, emotionMetrics := DefaultEmotionMetrics)
  }

  /** The record `endSession` builds from the current state. */
  function SessionRecord(st: TherapyState, start: nat, now: nat): SessionData {
    SessionData(Js.ToDecimal(now), start, (now - start) as real / 1000.0,
                st.speechMetrics, st.emotionMetrics, st.adaptiveDecision)
  }

  /** `endSession`: one record is appended only when a start time is set. */
  function Ended(st: TherapyState, now: nat): TherapyState {
    var history :=
      if st.sessionStartTime.Some? then st.sessionHistory + [SessionRecord(st, st.sessionStartTime.value, now)]
      else st.sessionHistory;
    st.(sessionHistory := history, isSessionActive := false, sessionStartTime := None)
  }

  /** `updateSpeechMetrics`: merge, then recompute the decision from the
      merged speech and the current emotion. It applies in every state. */
  function SpeechUpdated(st: TherapyState, patch: SpeechPatch): TherapyState {
    var merged := MergeSpeech(st.speechMetrics, patch);
    st.(speechMetrics := merged, adaptiveDecision := CalculateAdaptiveDecision(merged, st.emotionMetrics))
  }

  /** `updateEmotionMetrics`: the mirror image of `SpeechUpdated`. */
  function EmotionUpdated(st: TherapyState, patch: EmotionPatch): TherapyState {
    var merged := MergeEmotion(st.emotionMetrics, patch);
    st.(emotionMetrics := merged, adaptiveDecision := CalculateAdaptiveDecision(st.speechMetrics, merged))
  }

  lemma StartResetsMetrics(st: TherapyState, now: nat)
    ensures var r := Started(st, now);
            && r.isSessionActive && r.sessionStartTime == Some(now)
            && r.speechMetrics == SpeechMetrics(0.0, 0.0, "")
            && r.emotionMetrics == EmotionMetrics(Neutral, Focused, 75.0, 0.0)
            && r.adaptiveDecision == st.adaptiveDecision
            && r.sessionHistory == st.sessionHistory
            && r.selectedLanguage == st.selectedLanguage
  {
  }

  /** With a start time set, ending appends exactly one record holding the
      current metrics and decision, and earlier records are kept. */
  lemma EndAppendsOneRecord(st: TherapyState, now: nat)
    requires st.sessionStartTime.Some?
    ensures var r := Ended(st, now);
            var n := |st.sessionHistory|;
            && |r.sessionHistory| == n + 1
            && r.sessionHistory[..n] == st.sessionHistory
            && r.sessionHistory[n].startTime == st.sessionStartTime.value
            && r.sessionHistory[n].duration == (now - st.sessionStartTime.value) as real / 1000.0
            && r.sessionHistory[n].speechMetrics == st.speechMetrics
            && r.sessionHistory[n].emotionMetrics == st.emotionMetrics
            && r.sessionHistory[n].adaptiveDecision == st.adaptiveDecision
            && Js.ParseDecimal(r.sessionHistory[n].id) == now
  {
    var r := Ended(st, now);
    assert r.sessionHistory[..|st.sessionHistory|] == st.sessionHistory;
  }

  /** Ending without a start time writes no history; either way the session
      is left inactive with no start time, and the metrics and decision stay. */
  lemma EndWithoutStartKeepsHistory(st: TherapyState, now: nat)
    ensures var r := Ended(st, now);
            && (st.sessionStartTime.None? ==> r.sessionHistory == st.sessionHistory)
            && !r.isSessionActive && r.sessionStartTime.None?
            && r.speechMetrics == st.speechMetrics && r.emotionMetrics == st.emotionMetrics
            && r.adaptiveDecision == st.adaptiveDecision
  {
  }

  /** A speech update changes the speech metrics by merging and the decision
      by recomputing; nothing else changes, whether or not a session is active. */
  lemma SpeechUpdateRecomputes(st: TherapyState, patch: SpeechPatch)
    ensures var r := SpeechUpdated(st, patch);
            && r.speechMetrics == MergeSpeech(st.speechMetrics, patch)
            && r.emotionMetrics == st.emotionMetrics
            && r.adaptiveDecision == CalculateAdaptiveDecision(r.speechMetrics, st.emotionMetrics)
            && r == st.(speechMetrics := r.speechMetrics, adaptiveDecision := r.adaptiveDecision)
  {
  }

  /** The mirror image of `SpeechUpdateRecomputes`. */
  lemma EmotionUpdateRecomputes(st: TherapyState, patch: EmotionPatch)
    ensures var r := EmotionUpdated(st, patch);
            && r.emotionMetrics == MergeEmotion(st.emotionMetrics, patch)
            && r.speechMetrics == st.speechMetrics
            && r.adaptiveDecision == CalculateAdaptiveDecision(st.speechMetrics, r.emotionMetrics)
            && r == st.(emotionMetrics := r.emotionMetrics, adaptiveDecision := r.adaptiveDecision)
  {
  }

  /** The cached decision agrees with the current metrics. */
  predicate DecisionCurrent(st: TherapyState) {
    st.adaptiveDecision == CalculateAdaptiveDecision(st.speechMetrics, st.emotionMetrics)
  }

  /** Every metrics update leaves the cached decision current. */
  lemma UpdatesMakeDecisionCurrent(st: TherapyState, sp: SpeechPatch, ep: EmotionPatch)
    ensures DecisionCurrent(SpeechUpdated(st, sp))
    ensures DecisionCurrent(EmotionUpdated(st, ep))
  {
  }

  /** Starting a session does not recompute the decision, so a decision that
      was current can be stale afterwards, and the record of a session ended
      before any update then holds default metrics beside the old decision. */
  lemma StartCanLeaveDecisionStale(end: nat)
    ensures var st := SpeechUpdated(EmotionUpdated(InitialState, EmotionPatch(Some(Calm), None, Some(100.0), None)),
                                    SpeechPatch(Some(100.0), Some(100.0), None));
            var h := Ended(Started(st, 0), end).sessionHistory;
            && DecisionCurrent(st)
            && !DecisionCurrent(Started(st, 0))
            && |h| == 1
            && h[0].speechMetrics == DefaultSpeechMetrics && h[0].emotionMetrics == DefaultEmotionMetrics
            && h[0].adaptiveDecision == st.adaptiveDecision
            && h[0].adaptiveDecision != CalculateAdaptiveDecision(h[0].speechMetrics, h[0].emotionMetrics)
  {
    var st := SpeechUpdated(EmotionUpdated(InitialState, EmotionPatch(Some(Calm), None, Some(100.0), None)),
                            SpeechPatch(Some(100.0), Some(100.0), None));
    PerfectCalmSession();
    assert st.adaptiveDecision.therapyLevel == Advanced;
    LevelThresholds(DefaultSpeechMetrics, DefaultEmotionMetrics);
    assert CompositeScore(DefaultSpeechMetrics, DefaultEmotionMetrics) == 0.3;
  }

  /** The session is active exactly when a start time is set. */
  predicate ActiveIffStarted(st: TherapyState) {
    st.isSessionActive <==> st.sessionStartTime.Some?
  }

  // ---------------------------------------------------------------------
  // Sequences of calls
  // ---------------------------------------------------------------------

  /** One call into the provider. */
  datatype Call =
    | SetLanguageCall(lang: Language)
    | StartCall(now: nat)
    | EndCall(now: nat)
    | SpeechCall(speech: SpeechPatch)
    | EmotionCall(emotion: EmotionPatch)

  function Apply(st: TherapyState, call: Call): TherapyState {
    match call
    case SetLanguageCall(lang) => LanguageSet(st, lang)
    case StartCall(now) => Started(st, now)
    case EndCall(now) => Ended(st, now)
    case SpeechCall(p) => SpeechUpdated(st, p)
    case EmotionCall(p) => EmotionUpdated(st, p)
  }

  function Run(st: TherapyState, calls: seq<Call>): TherapyState
    decreases |calls|
  {
    if calls == [] then st else Run(Apply(st, calls[0]), calls[1..])
  }

  function EndCount(calls: seq<Call>): nat {
    if calls == [] then 0 else (if calls[0].EndCall? then 1 else 0) + EndCount(calls[1..])
  }

  /** The history is append-only: whatever calls are made, the old history
      is a prefix of the new one, which grows by at most one record per
      `endSession`. */
  lemma {:induction false} HistoryAppendOnly(st: TherapyState, calls: seq<Call>)
    ensures st.sessionHistory <= Run(st, calls).sessionHistory
    ensures |Run(st, calls).sessionHistory| <= |st.sessionHistory| + EndCount(calls)
    decreases |calls|
  {
    if calls != [] {
      HistoryAppendOnly(Apply(st, calls[0]), calls[1..]);
    }
  }

  /** Every call keeps "active exactly when started", so it holds of every
      state reachable from the initial one. */
  lemma {:induction false} ActiveIffStartedInvariant(st: TherapyState, calls: seq<Call>)
    requires ActiveIffStarted(st)
    ensures ActiveIffStarted(Run(st, calls))
    decreases |calls|
  {
    if calls != [] {
      ActiveIffStartedInvariant(Apply(st, calls[0]), calls[1..]);
    }
  }

  /** Calls to `endSession` while idle, from a state reachable from the
      initial one, leave the history as it was. */
  lemma IdleEndKeepsHistory(st: TherapyState, now: nat)
    requires ActiveIffStarted(st) && !st.isSessionActive
    ensures Ended(st, now).sessionHistory == st.sessionHistory
  {
  }

  /** A whole session: start, one speech report of 80/80, one emotion report
      of neutral, focused and 80, end. The composite is 0.8, so the one
      record logged holds an advanced decision with confidence 80. */
  lemma EndToEndSession(start: nat, end: nat)
    ensures var calls := [StartCall(start),
                          SpeechCall(SpeechPatch(Some(80.0), Some(80.0), None)),
                          EmotionCall(EmotionPatch(Some(Neutral), Some(Focused), Some(80.0), None)),
                          EndCall(end)];
            var h := Run(InitialState, calls).sessionHistory;
            && |h| == 1
            && h[0].startTime == start
            && h[0].duration == (end - start) as real / 1000.0
            && h[0].speechMetrics == SpeechMetrics(80.0, 80.0, "")
            && h[0].adaptiveDecision.therapyLevel == Advanced
            && h[0].adaptiveDecision.confidenceScore == 80
  {
    var speech := SpeechMetrics(80.0, 80.0, "");
    var emotion := EmotionMetrics(Neutral, Focused, 80.0, 0.0);
    assert CompositeScore(speech, emotion) == 0.8;
    Js.RoundOfInteger(80);
    var calls := [StartCall(start),
                  SpeechCall(SpeechPatch(Some(80.0), Some(80.0), None)),
                  EmotionCall(EmotionPatch(Some(Neutral), Some(Focused), Some(80.0), None)),
                  EndCall(end)];
    var s1 := Started(InitialState, start);
    var s2 := SpeechUpdated(s1, SpeechPatch(Some(80.0), Some(80.0), None));
    var s3 := EmotionUpdated(s2, EmotionPatch(Some(Neutral), Some(Focused), Some(80.0), None));
    assert s3.adaptiveDecision == CalculateAdaptiveDecision(speech, emotion);
    assert Run(InitialState, calls) == Run(s1, calls[1..]);
    assert Run(s1, calls[1..]) == Run(s2, calls[2..]);
    assert Run(s2, calls[2..]) == Run(s3, calls[3..]);
    assert Run(s3, calls[3..]) == Ended(s3, end);
  }

  /** One start/end cycle: start at `start`, end at `end`. */
  function Cycle(st: TherapyState, start: nat, end: nat): TherapyState {
    Ended(Started(st, start), end)
  }

  lemma CycleAppends(st: TherapyState, start: nat, end: nat)
    ensures var h := Cycle(st, start, end).sessionHistory;
            && |h| == |st.sessionHistory| + 1
            && h[..|st.sessionHistory|] == st.sessionHistory
            && h[|st.sessionHistory|].startTime == start
  {
    var h := Cycle(st, start, end).sessionHistory;
    assert h == st.sessionHistory + [SessionRecord(Started(st, start), start, end)];
  }

  /** `n` start/end cycles, the i-th starting at `starts[i]` and ending at
      `ends[i]`. */
  function Cycles(st: TherapyState, starts: seq<nat>, ends: seq<nat>): TherapyState
    requires |starts| == |ends|
    decreases |starts|
  {
    if starts == [] then st
    else Cycles(Cycle(st, starts[0], ends[0]), starts[1..], ends[1..])
  }

  /** After `n` start/end cycles the history holds exactly `n` more records,
      the old ones unchanged and the new ones in the order the sessions were
      started. */
  lemma {:induction false} CyclesAppendRecords(st: TherapyState, starts: seq<nat>, ends: seq<nat>)
    requires |starts| == |ends|
    ensures var h := Cycles(st, starts, ends).sessionHistory;
            && |h| == |st.sessionHistory| + |starts|
            && h[..|st.sessionHistory|] == st.sessionHistory
            && forall i :: 0 <= i < |starts| ==> h[|st.sessionHistory| + i].startTime == starts[i]
    decreases |starts|
  {
    if starts != [] {
      var next := Cycle(st, starts[0], ends[0]);
      CycleAppends(st, starts[0], ends[0]);
      CyclesAppendRecords(next, starts[1..], ends[1..]);
      var h := Cycles(st, starts, ends).sessionHistory;
      assert h == Cycles(next, starts[1..], ends[1..]).sessionHistory;
      var n := |st.sessionHistory|;
      assert h[..n + 1] == next.sessionHistory;
      assert h[..n] == next.sessionHistory[..n];
      forall i | 0 <= i < |starts|
        ensures h[n + i].startTime == starts[i]
      {
        if i > 0 {
          assert h[(n + 1) + (i - 1)].startTime == starts[1..][i - 1];
        } else {
          assert h[n] == h[..n + 1][n];
        }
      }
    }
  }

  /** Sessions started at non-decreasing clock readings are logged in
      chronological order of their start times. */
  lemma CyclesChronological(starts: seq<nat>, ends: seq<nat>)
    requires |starts| == |ends|
    requires forall i, j :: 0 <= i <= j < |starts| ==> starts[i] <= starts[j]
    ensures var h := Cycles(InitialState, starts, ends).sessionHistory;
            && |h| == |starts|
            && forall i, j :: 0 <= i <= j < |h| ==> h[i].startTime <= h[j].startTime
  {
    CyclesAppendRecords(InitialState, starts, ends);
    var h := Cycles(InitialState, starts, ends).sessionHistory;
    forall i, j | 0 <= i <= j < |h|
      ensures h[i].startTime <= h[j].startTime
    {
      assert h[0 + i].startTime == starts[i] && h[0 + j].startTime == starts[j];
    }
  }

  // ---------------------------------------------------------------------
  // The provider
  // ---------------------------------------------------------------------

  /** The React provider: each field is one piece of its state, and each
      method is one call, taken as a single sequential step. */
  class TherapyProvider {
    var isSessionActive: bool
    var selectedLanguage: Language
    var speechMetrics: SpeechMetrics
    var emotionMetrics: EmotionMetrics
    var adaptiveDecision: AdaptiveDecision
    var sessionHistory: seq<SessionData>
    var sessionStartTime: Option<nat>

    function State(): TherapyState
      reads this
    {
      TherapyState(isSessionActive, selectedLanguage, speechMetrics, emotionMetrics,
                   adaptiveDecision, sessionHistory, sessionStartTime)
    }

    constructor ()
      ensures State() == InitialState
    {
      isSessionActive := false;
      selectedLanguage := English;
      speechMetrics := DefaultSpeechMetrics;
      emotionMetrics := DefaultEmotionMetrics;
      adaptiveDecision := DefaultAdaptiveDecision;
      sessionHistory := [];
      sessionStartTime := None;
    }

    method SetLanguage(lang: Language)
      modifies this
      ensures State() == LanguageSet(old(State()), lang)
    {
      selectedLanguage := lang;
    }

    method StartSession(now: nat)
      modifies this
      ensures State() == Started(old(State()), now)
    {
      isSessionActive := true;
      sessionStartTime := Some(now);
      speechMetrics := DefaultSpeechMetrics;
      emotionMetrics := DefaultEmotionMetrics;
    }

    method EndSession(now: nat)
      modifies this
      ensures State() == Ended(old(State()), now)
      ensures old(sessionHistory) <= sessionHistory
    {
      if sessionStartTime.Some? {
        var start := sessionStartTime.value;
        var sessionData := SessionData(Js.ToDecimal(now), start, (now - start) as real / 1000.0,
                                       speechMetrics, emotionMetrics, adaptiveDecision);
        sessionHistory := sessionHistory + [sessionData];
      }
      isSessionActive := false;
      sessionStartTime := None;
    }

    method UpdateSpeechMetrics(patch: SpeechPatch)
      modifies this
      ensures State() == SpeechUpdated(old(State()), patch)
      ensures DecisionCurrent(State())
    {
      var updated := MergeSpeech(speechMetrics, patch);
      adaptiveDecision := CalculateAdaptiveDecision(updated, emotionMetrics);
      speechMetrics := updated;
    }

    method UpdateEmotionMetrics(patch: EmotionPatch)
      modifies this
      ensures State() == EmotionUpdated(old(State()), patch)
      ensures DecisionCurrent(State())
    {
      var updated := MergeEmotion(emotionMetrics, patch);
      adaptiveDecision := CalculateAdaptiveDecision(speechMetrics, updated);
      emotionMetrics := updated;
    }
  }
}

/**
 * The pure parts of the wellness app (app.py): the mood phrase, the way
 * the check-in answers are rendered into prompts, and the persona
 * descriptions and opening prompts of the three exercises.
 *
 * Prompt wording is abbreviated: each prompt is the `"".join` of short
 * labels and the interpolated values, so what is modelled is which values
 * a prompt carries, not its prose.
 */
module Wellness {
  import opened Wrappers
  import opened Text

  /** The check-in answers as they stand in the session. */
  datatype Assessment = Assessment(mood: int, sensations: seq<string>, attention: Option<string>)

  /** The five mood phrases, for ratings 1 to 5 in order. */
  const MoodPhrases: seq<string> := ["not good at all", "not so good", "neutral/okay", "good", "very good"]

  /** The phrase for a mood rating; any rating outside 1..5 reads "neutral". */
  function MoodDescription(rating: int): (r: string)
    ensures 1 <= rating <= 5 ==> r == MoodPhrases[rating - 1]
    ensures r == "neutral" <==> !(1 <= rating <= 5)
  {
    var moodMap := map[1 := "not good at all", 2 := "not so good", 3 := "neutral/okay",
                       4 := "good", 5 := "very good"];
    if rating in moodMap then moodMap[rating] else "neutral"
  }

  /** Distinct ratings in 1..5 get distinct phrases. */
  lemma MoodDescriptionInjective(a: int, b: int)
    requires 1 <= a <= 5 && 1 <= b <= 5
    requires MoodDescription(a) == MoodDescription(b)
    ensures a == b
  {
    assert MoodPhrases[a - 1] == MoodPhrases[b - 1];
  }

  /** The sensations as a comma-separated list, or "none specified" when there are none. */
  function SensationsText(sensations: seq<string>): (r: string)
    ensures sensations == [] ==> r == "none specified"
  {
    if sensations != [] then Join(", ", sensations) else "none specified"
  }

  /** Every reported sensation is named in the rendered text. */
  lemma SensationsTextNamesEach(sensations: seq<string>, k: nat)
    requires k < |sensations|
    ensures Embeds(SensationsText(sensations), sensations[k])
  {
    JoinEmbedsEach(", ", sensations, k);
  }

  /** `attention or "general"`: a missing or empty attention reads "general". */
  function AttentionText(attention: Option<string>): (r: string)
    ensures r != ""
    ensures attention.Some? && attention.value != "" ==> r == attention.value
    ensures attention == None || attention == Some("") ==> r == "general"
  {
    if attention.Some? && attention.value != "" then attention.value else "general"
  }

  /** The check-in block shared by the three persona descriptions. */
  function StatePieces(a: Assessment): seq<string> {
    ["Mood: ", MoodDescription(a.mood), " (", IntToString(a.mood), "/5)\nSensations: ",
     SensationsText(a.sensations), "\nAttention: ", AttentionText(a.attention), "\n"]
  }

  /** The prompt carries the three rendered check-in answers. */
  ghost predicate CarriesAssessment(prompt: string, a: Assessment) {
    && Embeds(prompt, MoodDescription(a.mood))
    && Embeds(prompt, SensationsText(a.sensations))
    && Embeds(prompt, AttentionText(a.attention))
  }

  lemma {:induction false} EmbedsStatePieces(header: seq<string>, a: Assessment, trailer: seq<string>)
    ensures CarriesAssessment(Join("", header + StatePieces(a) + trailer), a)
  {
    var pieces := header + StatePieces(a) + trailer;
    var h := |header|;
    assert pieces[h + 1] == MoodDescription(a.mood);
    assert pieces[h + 5] == SensationsText(a.sensations);
    assert pieces[h + 7] == AttentionText(a.attention);
    JoinEmbedsEach("", pieces, h + 1);
    JoinEmbedsEach("", pieces, h + 5);
    JoinEmbedsEach("", pieces, h + 7);
  }

  // ---- Empty Chair ----

  function EmptyChairTrailer(who: string, characteristics: string, topic: string, situation: string): seq<string> {
    ["Characteristics: ", characteristics, "\nTopic: ", topic, "\nSituation: ", situation,
     "\nStay in character as ", who, "\n"]
  }

  /** The system description of the Empty Chair persona. */
  function EmptyChairDescription(who: string, characteristics: string, topic: string, situation: string,
                                 a: Assessment): string {
    Join("", ["Empty chair; you are the user's ", who, "\n"] + StatePieces(a)
             + EmptyChairTrailer(who, characteristics, topic, situation))
  }

  function EmptyChairOpeningPieces(who: string, topic: string, situation: string): seq<string> {
    ["You are ", who, " in the empty chair. Topic: ", topic, "\nSituation: ", situation, "\nOpen in 1-2 sentences."]
  }

  /** The seed prompt that asks the Empty Chair persona for its opening line. */
  function EmptyChairOpening(who: string, topic: string, situation: string): string {
    Join("", EmptyChairOpeningPieces(who, topic, situation))
  }

  /** The Empty Chair description carries the four setup fields and the check-in answers. */
  lemma EmptyChairDescriptionCarriesFields(who: string, characteristics: string, topic: string,
                                           situation: string, a: Assessment)
    ensures var d := EmptyChairDescription(who, characteristics, topic, situation, a);
      && CarriesAssessment(d, a)
      && Embeds(d, who) && Embeds(d, characteristics) && Embeds(d, topic) && Embeds(d, situation)
  {
    var header := ["Empty chair; you are the user's ", who, "\n"];
    var trailer := EmptyChairTrailer(who, characteristics, topic, situation);
    var pieces := header + StatePieces(a) + trailer;
    EmbedsStatePieces(header, a, trailer);
    var n := |header| + |StatePieces(a)|;
    assert pieces[1] == who;
    assert pieces[n + 1] == characteristics;
    assert pieces[n + 3] == topic;
    assert pieces[n + 5] == situation;
    JoinEmbedsEach("", pieces, 1);
    JoinEmbedsEach("", pieces, n + 1);
    JoinEmbedsEach("", pieces, n + 3);
    JoinEmbedsEach("", pieces, n + 5);
  }

  /** The Empty Chair opening prompt carries the persona, the topic and the situation. */
  lemma EmptyChairOpeningCarriesFields(who: string, topic: string, situation: string)
    ensures var o := EmptyChairOpening(who, topic, situation);
      Embeds(o, who) && Embeds(o, topic) && Embeds(o, situation)
  {
    var opening := EmptyChairOpeningPieces(who, topic, situation);
    JoinEmbedsEach("", opening, 1);
    JoinEmbedsEach("", opening, 3);
    JoinEmbedsEach("", opening, 5);
  }

  // ---- Breathing ----

  /** The fixed rules of the breathing guide, including the JSON block it is asked to emit. */
  const BreathingRules: string := "Give each breathing exercise as a json block.\n"

  /** The system description of the breathing guide. */
  function BreathingDescription(a: Assessment): string {
    Join("", ["Breathing guide\n"] + StatePieces(a) + [BreathingRules])
  }

  function BreathingOpeningPieces(a: Assessment): seq<string> {
    ["Feeling ", MoodDescription(a.mood), "; noticing ", SensationsText(a.sensations),
     "\nAttention: ", AttentionText(a.attention), "\nGreet briefly; no JSON yet."]
  }

  /** The seed prompt that asks the breathing guide for a casual greeting. */
  function BreathingOpening(a: Assessment): string {
    Join("", BreathingOpeningPieces(a))
  }

  /** Both breathing prompts carry the check-in answers. */
  lemma BreathingPromptsCarryAssessment(a: Assessment)
    ensures CarriesAssessment(BreathingDescription(a), a)
    ensures CarriesAssessment(BreathingOpening(a), a)
  {
    EmbedsStatePieces(["Breathing guide\n"], a, [BreathingRules]);
    var pieces := BreathingOpeningPieces(a);
    JoinEmbedsEach("", pieces, 1);
    JoinEmbedsEach("", pieces, 3);
    JoinEmbedsEach("", pieces, 5);
  }

  // ---- Body Scan ----

  function BodyScanTrailer(area: string, feeling: string): seq<string> {
    ["Uncomfortable area: ", area, "\nBody feeling: ", feeling, "\n"]
  }

  /** The system description of the body scan guide. */
  function BodyScanDescription(area: string, feeling: string, a: Assessment): string {
    Join("", ["Body scan guide\n"] + StatePieces(a) + BodyScanTrailer(area, feeling))
  }

  function BodyScanOpeningPieces(area: string, feeling: string, a: Assessment): seq<string> {
    ["Uncomfortable area: ", area, "\nBody feeling: ", feeling, "\nMood: ", MoodDescription(a.mood),
     "; noticing ", SensationsText(a.sensations), "\nReassure briefly; no scan yet."]
  }

  /** The seed prompt that asks the body scan guide for a reassuring first message. */
  function BodyScanOpening(area: string, feeling: string, a: Assessment): string {
    Join("", BodyScanOpeningPieces(area, feeling, a))
  }

  /** The body scan prompts carry both setup answers and the check-in answers. */
  lemma BodyScanPromptsCarryFields(area: string, feeling: string, a: Assessment)
    ensures var d := BodyScanDescription(area, feeling, a);
      CarriesAssessment(d, a) && Embeds(d, area) && Embeds(d, feeling)
    ensures var o := BodyScanOpening(area, feeling, a);
      && Embeds(o, area) && Embeds(o, feeling)
      && Embeds(o, MoodDescription(a.mood)) && Embeds(o, SensationsText(a.sensations))
  {
    var header := ["Body scan guide\n"];
    var trailer := BodyScanTrailer(area, feeling);
    var pieces := header + StatePieces(a) + trailer;
    EmbedsStatePieces(header, a, trailer);
    var n := |header| + |StatePieces(a)|;
    assert pieces[n + 1] == area && pieces[n + 3] == feeling;
    JoinEmbedsEach("", pieces, n + 1);
    JoinEmbedsEach("", pieces, n + 3);
    var opening := BodyScanOpeningPieces(area, feeling, a);
    JoinEmbedsEach("", opening, 1);
    JoinEmbedsEach("", opening, 3);
    JoinEmbedsEach("", opening, 5);
    JoinEmbedsEach("", opening, 7);
  }
}

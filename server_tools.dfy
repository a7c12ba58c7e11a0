/**
 * The two keyword tools of the psychology assistant in server.py:
 * `analyze_thought_pattern` names the first cognitive distortion whose keywords
 * appear in a thought, and `get_coping_strategy` picks a coping strategy for a
 * distortion name. Both lower-case their input and then test keywords as
 * substrings, in a fixed order, the first hit deciding the answer.
 */
module ServerTools {
  import opened Text

  const AllOrNothingMessage := "Detected: All-or-Nothing Thinking. (Confidence: High)"
  const CatastrophizingMessage := "Detected: Catastrophizing. (Confidence: High)"
  const EmotionalReasoningMessage := "Detected: Emotional Reasoning. (Confidence: Medium)"
  const NoDistortionMessage := "No specific cognitive distortion detected with high confidence."

  const DecatastrophizingStrategy := "Strategy: 'Decatastrophizing'. Ask yourself: 'What is the worst that could happen? How likely is it? Can I survive it?'"
  const ShadesOfGrayStrategy := "Strategy: 'Shades of Gray'. Try to evaluate things on a scale of 0-100 rather than pass/fail."
  const FeelingsAreNotFactsStrategy := "Strategy: 'Feelings are not Facts'. Treat your emotion as a hypothesis to be tested, not the truth."
  const MindfulnessStrategy := "Strategy: Mindfulness. Observe the thought without judgment and let it pass."

  /** `analyze_thought_pattern`: one of four fixed messages, for every thought. */
  function AnalyzeThoughtPattern(thoughtText: string): (r: string)
    ensures r in {AllOrNothingMessage, CatastrophizingMessage, EmotionalReasoningMessage, NoDistortionMessage}
  {
    var thoughtLower := Lower(thoughtText);
    if Contains(thoughtLower, "always") || Contains(thoughtLower, "never") then
      AllOrNothingMessage
    else if Contains(thoughtLower, "disaster") || Contains(thoughtLower, "awful") || Contains(thoughtLower, "worst") then
      CatastrophizingMessage
    else if Contains(thoughtLower, "feel") && Contains(thoughtLower, "must") then
      EmotionalReasoningMessage
    else
      NoDistortionMessage
  }

  /** `get_coping_strategy`: one of four fixed strategies, for every distortion name. */
  function GetCopingStrategy(distortionType: string): (r: string)
    ensures r in {DecatastrophizingStrategy, ShadesOfGrayStrategy, FeelingsAreNotFactsStrategy, MindfulnessStrategy}
  {
    var key := Lower(distortionType);
    if Contains(key, "catastrophizing") then
      DecatastrophizingStrategy
    else if Contains(key, "all_or_nothing") then
      ShadesOfGrayStrategy
    else if Contains(key, "emotional_reasoning") then
      FeelingsAreNotFactsStrategy
    else
      MindfulnessStrategy
  }

  // The keyword groups, stated by occurrence in the original text, in any case.

  /** "always" or "never" appears in the thought. */
  ghost predicate AbsoluteWords(t: string)
  {
    OccursIgnoringCase(t, "always") || OccursIgnoringCase(t, "never")
  }

  /** "disaster", "awful" or "worst" appears in the thought. */
  ghost predicate CatastrophicWords(t: string)
  {
    OccursIgnoringCase(t, "disaster") || OccursIgnoringCase(t, "awful") || OccursIgnoringCase(t, "worst")
  }

  /** Both "feel" and "must" appear in the thought. */
  ghost predicate EmotionalWords(t: string)
  {
    OccursIgnoringCase(t, "feel") && OccursIgnoringCase(t, "must")
  }

  /** Each substring test of the classifier succeeds exactly when its keyword occurs, in any case. */
  lemma ThoughtKeywords(t: string)
    ensures Contains(Lower(t), "always") <==> OccursIgnoringCase(t, "always")
    ensures Contains(Lower(t), "never") <==> OccursIgnoringCase(t, "never")
    ensures Contains(Lower(t), "disaster") <==> OccursIgnoringCase(t, "disaster")
    ensures Contains(Lower(t), "awful") <==> OccursIgnoringCase(t, "awful")
    ensures Contains(Lower(t), "worst") <==> OccursIgnoringCase(t, "worst")
    ensures Contains(Lower(t), "feel") <==> OccursIgnoringCase(t, "feel")
    ensures Contains(Lower(t), "must") <==> OccursIgnoringCase(t, "must")
  {
    ContainsLowerIff(t, "always");
    ContainsLowerIff(t, "never");
    ContainsLowerIff(t, "disaster");
    ContainsLowerIff(t, "awful");
    ContainsLowerIff(t, "worst");
    ContainsLowerIff(t, "feel");
    ContainsLowerIff(t, "must");
  }

  /** All-or-Nothing wins whenever "always" or "never" occurs, whatever else the thought holds. */
  lemma AllOrNothingIff(t: string)
    ensures AnalyzeThoughtPattern(t) == AllOrNothingMessage <==> AbsoluteWords(t)
  {
    ThoughtKeywords(t);
  }

  /** Catastrophizing exactly when one of its words occurs and no All-or-Nothing word does. */
  lemma CatastrophizingIff(t: string)
    ensures AnalyzeThoughtPattern(t) == CatastrophizingMessage <==> !AbsoluteWords(t) && CatastrophicWords(t)
  {
    ThoughtKeywords(t);
  }

  /** Emotional Reasoning exactly when "feel" and "must" both occur and no earlier keyword does. */
  lemma EmotionalReasoningIff(t: string)
    ensures AnalyzeThoughtPattern(t) == EmotionalReasoningMessage
        <==> !AbsoluteWords(t) && !CatastrophicWords(t) && EmotionalWords(t)
  {
    ThoughtKeywords(t);
  }

  /** The default message exactly when no keyword group fires. */
  lemma NoDistortionIff(t: string)
    ensures AnalyzeThoughtPattern(t) == NoDistortionMessage
        <==> !AbsoluteWords(t) && !CatastrophicWords(t) && !EmotionalWords(t)
  {
    ThoughtKeywords(t);
  }

  /** Thoughts that differ only in the case of their letters get the same answer. */
  lemma AnalyzeIgnoresCase(a: string, b: string)
    requires SameIgnoringCase(a, b)
    ensures AnalyzeThoughtPattern(a) == AnalyzeThoughtPattern(b)
  {
    LowerDecidesCase(a, b);
  }

  /** Keywords match inside longer words: "NEVERtheless" holds "never", and All-or-Nothing outranks "awful". */
  lemma SubstringWithinWord()
    ensures AnalyzeThoughtPattern("NEVERtheless, it feels awful") == AllOrNothingMessage
  {
    var t := "NEVERtheless, it feels awful";
    assert t[0..5] == "NEVER";
    assert MatchesAt(t, "never", 0);
    AllOrNothingIff(t);
  }

  /** The strategy follows the first of the three distortion names that occurs in the key, in any case. */
  lemma CopingStrategyIff(d: string)
    ensures GetCopingStrategy(d) == DecatastrophizingStrategy <==> OccursIgnoringCase(d, "catastrophizing")
    ensures GetCopingStrategy(d) == ShadesOfGrayStrategy
        <==> !OccursIgnoringCase(d, "catastrophizing") && OccursIgnoringCase(d, "all_or_nothing")
    ensures GetCopingStrategy(d) == FeelingsAreNotFactsStrategy
        <==> !OccursIgnoringCase(d, "catastrophizing") && !OccursIgnoringCase(d, "all_or_nothing")
             && OccursIgnoringCase(d, "emotional_reasoning")
    ensures GetCopingStrategy(d) == MindfulnessStrategy
        <==> !OccursIgnoringCase(d, "catastrophizing") && !OccursIgnoringCase(d, "all_or_nothing")
             && !OccursIgnoringCase(d, "emotional_reasoning")
  {
    ContainsLowerIff(d, "catastrophizing");
    ContainsLowerIff(d, "all_or_nothing");
    ContainsLowerIff(d, "emotional_reasoning");
  }

  /** Distortion names that differ only in case get the same strategy. */
  lemma CopingStrategyIgnoresCase(a: string, b: string)
    requires SameIgnoringCase(a, b)
    ensures GetCopingStrategy(a) == GetCopingStrategy(b)
  {
    LowerDecidesCase(a, b);
  }
}

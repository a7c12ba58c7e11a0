/**
 * The keyword tools of main.py, the stand-alone psychology assistant. Its two
 * tools are written out here as main.py has them, apart from server.py's, and are
 * proved to answer exactly as server.py's do.
 */
module MainTools {
  import opened Text
  import ServerTools

  /** `analyze_thought_pattern` of main.py. */
  function AnalyzeThoughtPattern(thoughtText: string): (r: string)
    ensures r in {ServerTools.AllOrNothingMessage, ServerTools.CatastrophizingMessage,
                  ServerTools.EmotionalReasoningMessage, ServerTools.NoDistortionMessage}
  {
    var thoughtLower := Lower(thoughtText);
    if Contains(thoughtLower, "always") || Contains(thoughtLower, "never") then
      "Detected: All-or-Nothing Thinking. (Confidence: High)"
    else if Contains(thoughtLower, "disaster") || Contains(thoughtLower, "awful") || Contains(thoughtLower, "worst") then
      "Detected: Catastrophizing. (Confidence: High)"
    else if Contains(thoughtLower, "feel") && Contains(thoughtLower, "must") then
      "Detected: Emotional Reasoning. (Confidence: Medium)"
    else
      "No specific cognitive distortion detected with high confidence."
  }

  /** `get_coping_strategy` of main.py. */
  function GetCopingStrategy(distortionType: string): (r: string)
    ensures r in {ServerTools.DecatastrophizingStrategy, ServerTools.ShadesOfGrayStrategy,
                  ServerTools.FeelingsAreNotFactsStrategy, ServerTools.MindfulnessStrategy}
  {
    var key := Lower(distortionType);
    if Contains(key, "catastrophizing") then
      "Strategy: 'Decatastrophizing'. Ask yourself: 'What is the worst that could happen? How likely is it? Can I survive it?'"
    else if Contains(key, "all_or_nothing") then
      "Strategy: 'Shades of Gray'. Try to evaluate things on a scale of 0-100 rather than pass/fail."
    else if Contains(key, "emotional_reasoning") then
      "Strategy: 'Feelings are not Facts'. Treat your emotion as a hypothesis to be tested, not the truth."
    else
      "Strategy: Mindfulness. Observe the thought without judgment and let it pass."
  }

  /** main.py's classifier returns the same string as server.py's, for every thought. */
  lemma AnalyzeAgreesWithServer(t: string)
    ensures AnalyzeThoughtPattern(t) == ServerTools.AnalyzeThoughtPattern(t)
  {
  }

  /** main.py's strategy selector returns the same string as server.py's, for every key. */
  lemma CopingStrategyAgreesWithServer(d: string)
    ensures GetCopingStrategy(d) == ServerTools.GetCopingStrategy(d)
  {
  }

  /**
   * main.py's classifier: All-or-Nothing first, then Catastrophizing, then Emotional
   * Reasoning, then the default, each decided by its keywords occurring in any case.
   */
  lemma AnalyzePrecedence(t: string)
    ensures AnalyzeThoughtPattern(t) == ServerTools.AllOrNothingMessage <==> ServerTools.AbsoluteWords(t)
    ensures AnalyzeThoughtPattern(t) == ServerTools.CatastrophizingMessage
        <==> !ServerTools.AbsoluteWords(t) && ServerTools.CatastrophicWords(t)
    ensures AnalyzeThoughtPattern(t) == ServerTools.EmotionalReasoningMessage
        <==> !ServerTools.AbsoluteWords(t) && !ServerTools.CatastrophicWords(t) && ServerTools.EmotionalWords(t)
    ensures AnalyzeThoughtPattern(t) == ServerTools.NoDistortionMessage
        <==> !ServerTools.AbsoluteWords(t) && !ServerTools.CatastrophicWords(t) && !ServerTools.EmotionalWords(t)
  {
    ServerTools.ThoughtKeywords(t);
  }

  /** main.py's classifier depends only on the lower-cased thought. */
  lemma AnalyzeIgnoresCase(a: string, b: string)
    requires SameIgnoringCase(a, b)
    ensures AnalyzeThoughtPattern(a) == AnalyzeThoughtPattern(b)
  {
    AnalyzeAgreesWithServer(a);
    AnalyzeAgreesWithServer(b);
    ServerTools.AnalyzeIgnoresCase(a, b);
  }

  /** main.py's strategy selector: catastrophizing, then all_or_nothing, then emotional_reasoning, then Mindfulness. */
  lemma CopingStrategyPrecedence(d: string)
    ensures GetCopingStrategy(d) == ServerTools.DecatastrophizingStrategy <==> OccursIgnoringCase(d, "catastrophizing")
    ensures GetCopingStrategy(d) == ServerTools.ShadesOfGrayStrategy
        <==> !OccursIgnoringCase(d, "catastrophizing") && OccursIgnoringCase(d, "all_or_nothing")
    ensures GetCopingStrategy(d) == ServerTools.FeelingsAreNotFactsStrategy
        <==> !OccursIgnoringCase(d, "catastrophizing") && !OccursIgnoringCase(d, "all_or_nothing")
             && OccursIgnoringCase(d, "emotional_reasoning")
    ensures GetCopingStrategy(d) == ServerTools.MindfulnessStrategy
        <==> !OccursIgnoringCase(d, "catastrophizing") && !OccursIgnoringCase(d, "all_or_nothing")
             && !OccursIgnoringCase(d, "emotional_reasoning")
  {
    ServerTools.CopingStrategyIff(d);
  }
}

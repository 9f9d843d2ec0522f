/**
 * How the questionnaire's suggestion and the engine relate: the profile that
 * `ask_model_profile` returns is what `recommend_settings` reads, and the two
 * goal tables agree except on the balanced goal.
 */
module Consistency {
  import opened Wrappers
  import opened Strings
  import opened Values
  import opened GoalRules
  import opened Recommender
  import opened ModelProfile

  /** The profile dictionary as the engine reads it: both keys it asks for are present. */
  function UsageOf(p: Profile): UsageInfo {
    UsageInfo(Some(p.modelSize), Some(p.goal))
  }

  /** The four named rules are the same in both tables; the profile adds a fifth, "Balanced". */
  lemma SharedRules()
    ensures ProfileRules[..4] == EngineRules
    ensures ProfileRules[4] == Rule("Balanced", Sampling(0.7, 0.9, 40)) && EngineFallback == Sampling(0.7, 0.9, 60)
  {
  }

  /** A goal naming one of the four specific goals gets the same sampling from both tables. */
  lemma NamedGoalsAgree(goal: string)
    requires Contains(goal, "Creativity") || Contains(goal, "Accuracy") ||
             Contains(goal, "Natural Dialogue") || Contains(goal, "Factual Recall")
    ensures HasSampling(Suggested(goal)) && SamplingOf(Suggested(goal)) == GoalSampling(goal)
  {
    FirstMatchOfProfileRules(goal);
    SuggestedSampling(goal);
  }

  /** A goal naming none of the four but containing "Balanced": same temperature and top_p, top_k 40 against 60. */
  lemma BalancedGoalsDiffer(goal: string)
    requires !Contains(goal, "Creativity") && !Contains(goal, "Accuracy")
    requires !Contains(goal, "Natural Dialogue") && !Contains(goal, "Factual Recall")
    requires Contains(goal, "Balanced")
    ensures HasSampling(Suggested(goal))
    ensures SamplingOf(Suggested(goal)) == GoalSampling(goal).(topK := 40)
    ensures GoalSampling(goal).topK == 60
  {
    FirstMatchOfProfileRules(goal);
    SuggestedSampling(goal);
  }

  /** A goal with no keyword at all keeps the profile defaults, whose top_k 40 again differs from the engine's 60. */
  lemma UnmatchedGoalsDiffer(goal: string)
    requires NoneMatch(ProfileRules, goal)
    ensures Suggested(goal) == DefaultSettings
    ensures SamplingOf(Suggested(goal)) == GoalSampling(goal).(topK := 40)
    ensures GoalSampling(goal).topK == 60
  {
    SuggestedShape(goal);
    FirstMatchOfProfileRules(goal);
    assert !Contains(goal, ProfileRules[0].keyword) && !Contains(goal, ProfileRules[1].keyword);
    assert !Contains(goal, ProfileRules[2].keyword) && !Contains(goal, ProfileRules[3].keyword);
  }

  // Which keywords each offered goal contains.

  lemma CreativityChoiceKeywords()
    ensures Contains(CreativityChoice, "Creativity")
  {
    OccursBetween("\U{1F4A1} ", "Creativity", (" (story" + "telling," + " brain" + "storming," + " poetry)"));
  }

  /** Letters the choice text lacks. */
  lemma AccuracyChoiceLetters()
    ensures 'v' !in AccuracyChoice
  {
  }

  lemma AccuracyChoiceKeywords()
    ensures !Contains(AccuracyChoice, "Creativity") && Contains(AccuracyChoice, "Accuracy")
  {
    OccursBetween("\U{1F3AF} ", "Accuracy", (" (technical" + " answers," + " document" + "ation)"));
    AccuracyChoiceLetters();
    AbsentCharRulesOut(AccuracyChoice, "Creativity", 'v');
  }

  /** Letters the choice text lacks. */
  lemma DialogueChoiceLetters()
    ensures 'y' !in DialogueChoice
  {
  }

  lemma DialogueChoiceKeywords()
    ensures !Contains(DialogueChoice, "Creativity") && !Contains(DialogueChoice, "Accuracy")
    ensures Contains(DialogueChoice, "Natural Dialogue")
  {
    OccursBetween("\U{1F5E3}\U{FE0F} ", "Natural Dialogue", " (chatbots)");
    DialogueChoiceLetters();
    AbsentCharRulesOut(DialogueChoice, "Creativity", 'y');
    AbsentCharRulesOut(DialogueChoice, "Accuracy", 'y');
  }

  /** Letters the choice text lacks. */
  lemma RecallChoiceLetters()
    ensures 'y' !in RecallChoice && 'N' !in RecallChoice
  {
  }

  lemma RecallChoiceKeywords()
    ensures !Contains(RecallChoice, "Creativity") && !Contains(RecallChoice, "Accuracy")
    ensures !Contains(RecallChoice, "Natural Dialogue") && Contains(RecallChoice, "Factual Recall")
  {
    OccursBetween("\U{1F50D} ", "Factual Recall", (" (retrieval" + " QA)"));
    RecallChoiceLetters();
    AbsentCharRulesOut(RecallChoice, "Creativity", 'y');
    AbsentCharRulesOut(RecallChoice, "Accuracy", 'y');
    AbsentCharRulesOut(RecallChoice, "Natural Dialogue", 'N');
  }

  /** Letters the choice text lacks. */
  lemma BalancedChoiceLetters()
    ensures 'y' !in BalancedChoice && 'N' !in BalancedChoice && 'F' !in BalancedChoice
  {
  }

  lemma BalancedChoiceKeywords()
    ensures !Contains(BalancedChoice, "Creativity") && !Contains(BalancedChoice, "Accuracy")
    ensures !Contains(BalancedChoice, "Natural Dialogue") && !Contains(BalancedChoice, "Factual Recall")
    ensures Contains(BalancedChoice, "Balanced")
  {
    OccursBetween("\U{2699}\U{FE0F} ", "Balanced", ("/general" + " purpose"));
    BalancedChoiceLetters();
    AbsentCharRulesOut(BalancedChoice, "Creativity", 'y');
    AbsentCharRulesOut(BalancedChoice, "Accuracy", 'y');
    AbsentCharRulesOut(BalancedChoice, "Natural Dialogue", 'N');
    AbsentCharRulesOut(BalancedChoice, "Factual Recall", 'F');
  }

  /** The rows each offered goal selects in the engine and in the questionnaire. */
  lemma GoalChoiceRows(i: int)
    requires 0 <= i < |GoalChoices|
    ensures var g := GoalChoices[i]; var e, q := GoalSampling(g), SamplingOf(Suggested(g));
      HasSampling(Suggested(g)) &&
      (i == 0 ==> e == q == Sampling(1.0, 0.95, 100)) &&
      (i == 1 ==> e == q == Sampling(0.3, 0.85, 50)) &&
      (i == 2 ==> e == q == Sampling(0.7, 0.9, 40)) &&
      (i == 3 ==> e == q == Sampling(0.4, 0.8, 30)) &&
      (i == 4 ==> e == Sampling(0.7, 0.9, 60) && q == Sampling(0.7, 0.9, 40))
  {
    FirstMatchOfProfileRules(GoalChoices[i]);
    SuggestedSampling(GoalChoices[i]);
    if i == 0 { CreativityChoiceKeywords(); }
    else if i == 1 { AccuracyChoiceKeywords(); }
    else if i == 2 { DialogueChoiceKeywords(); }
    else if i == 3 { RecallChoiceKeywords(); }
    else { BalancedChoiceKeywords(); }
  }

  /** Every size the questionnaire offers is a key of both size tables, so its answers never reach the RAM rule. */
  lemma SizeChoicesAreTableKeys(ramGb: real, i: int)
    requires 0 <= i < |SizeChoices|
    ensures SizeChoices[i] in SizeContext && SizeChoices[i] in SizeBatch
    ensures ContextLength(ramGb, SizeChoices[i]) == SizeContext[SizeChoices[i]]
  {
  }

  /** The engine sizes a returned profile by its size answer and, for a named goal, samples as the profile suggests. */
  lemma ProfileFeedsEngine(hw: HardwareInfo, p: Profile)
    requires p.generationSettings == Suggested(p.goal)
    ensures var c := Recommend(hw, UsageOf(p));
      c.contextLength == ContextLength(RamGb(hw), p.modelSize) && c.batchSize == BatchSize(p.modelSize)
    ensures Contains(p.goal, "Creativity") || Contains(p.goal, "Accuracy") ||
            Contains(p.goal, "Natural Dialogue") || Contains(p.goal, "Factual Recall") ==>
      var c := Recommend(hw, UsageOf(p));
      HasSampling(p.generationSettings) &&
      SamplingOf(p.generationSettings) == Sampling(c.temperature, c.topP, c.topK)
  {
    if Contains(p.goal, "Creativity") || Contains(p.goal, "Accuracy") ||
       Contains(p.goal, "Natural Dialogue") || Contains(p.goal, "Factual Recall") {
      NamedGoalsAgree(p.goal);
    }
  }
}

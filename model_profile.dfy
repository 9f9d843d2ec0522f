/**
 * The part of `ask_model_profile` that is not prompting: the generation
 * settings suggested for the chosen goal, and the profile record returned.
 * The answers to the prompts are parameters.
 */
module ModelProfile {
  import opened Wrappers
  import opened Strings
  import opened Values
  import opened GoalRules

  /** The choices offered for the model-size question. */
  const SizeChoices: seq<string> := ["Under 2 GB", "2-4 GB", "4-8 GB", "8-13 GB", "More than 13 GB", "Other"]

  // The choices offered for the goal question, each with its emoji prefix. Each text is
  // written as a concatenation of short pieces, which lets the verifier index into it.
  const CreativityChoice: string :=
    "\U{1F4A1} " + "Creativity" + (" (story" + "telling," + " brain" + "storming," + " poetry)")
  const AccuracyChoice: string :=
    "\U{1F3AF} " + "Accuracy" + (" (technical" + " answers," + " document" + "ation)")
  const DialogueChoice: string := "\U{1F5E3}\U{FE0F} " + "Natural Dialogue" + " (chatbots)"
  const RecallChoice: string := "\U{1F50D} " + "Factual Recall" + (" (retrieval" + " QA)")
  const BalancedChoice: string := "\U{2699}\U{FE0F} " + "Balanced" + ("/general" + " purpose")
  const GoalChoices: seq<string> := [CreativityChoice, AccuracyChoice, DialogueChoice, RecallChoice, BalancedChoice]

  /** The settings dictionary before the goal is looked at. */
  const DefaultSettings: map<string, Value> := map[
    "temperature" := RealV(0.7),
    "top_p" := RealV(0.9),
    "top_k" := IntV(40),
    "repeat_penalty" := RealV(1.1),
    "max_tokens" := IntV(1024)]

  /** The `if`/`elif` branches of the suggestion, in order; there is no `else`. */
  const ProfileRules: seq<Rule> := [
    Rule("Creativity", Sampling(1.0, 0.95, 100)),
    Rule("Accuracy", Sampling(0.3, 0.85, 50)),
    Rule("Natural Dialogue", Sampling(0.7, 0.9, 40)),
    Rule("Factual Recall", Sampling(0.4, 0.8, 30)),
    Rule("Balanced", Sampling(0.7, 0.9, 40))]

  /** The dictionary a branch passes to `config.update`. */
  function SamplingUpdate(s: Sampling): map<string, Value> {
    map["temperature" := RealV(s.temperature), "top_p" := RealV(s.topP), "top_k" := IntV(s.topK)]
  }

  /** The suggested settings: the defaults, updated by the first rule whose keyword is in the goal. */
  function Suggested(goal: string): map<string, Value> {
    match FirstMatch(ProfileRules, goal)
    case None => DefaultSettings
    case Some(s) => DefaultSettings + SamplingUpdate(s)
  }

  /** The dictionary holds a real temperature and top_p and an integer top_k. */
  predicate HasSampling(config: map<string, Value>) {
    "temperature" in config && config["temperature"].RealV? &&
    "top_p" in config && config["top_p"].RealV? &&
    "top_k" in config && config["top_k"].IntV?
  }

  /** Temperature, top_p and top_k as read back from a settings dictionary. */
  function SamplingOf(config: map<string, Value>): Sampling
    requires HasSampling(config)
  {
    Sampling(config["temperature"].r, config["top_p"].r, config["top_k"].i)
  }

  /** The suggestion block: start from the defaults and update them in place for the goal. */
  method SuggestSettings(goal: string) returns (config: map<string, Value>)
    ensures config == Suggested(goal)
    ensures config.Keys == DefaultSettings.Keys
    ensures config["repeat_penalty"] == RealV(1.1) && config["max_tokens"] == IntV(1024)
    ensures NoneMatch(ProfileRules, goal) ==> config == DefaultSettings
  {
    config := DefaultSettings;
    if Contains(goal, "Creativity") {
      config := config + map["temperature" := RealV(1.0), "top_p" := RealV(0.95), "top_k" := IntV(100)];
    } else if Contains(goal, "Accuracy") {
      config := config + map["temperature" := RealV(0.3), "top_p" := RealV(0.85), "top_k" := IntV(50)];
    } else if Contains(goal, "Natural Dialogue") {
      config := config + map["temperature" := RealV(0.7), "top_p" := RealV(0.9), "top_k" := IntV(40)];
    } else if Contains(goal, "Factual Recall") {
      config := config + map["temperature" := RealV(0.4), "top_p" := RealV(0.8), "top_k" := IntV(30)];
    } else if Contains(goal, "Balanced") {
      config := config + map["temperature" := RealV(0.7), "top_p" := RealV(0.9), "top_k" := IntV(40)];
    }
    FirstMatchOfProfileRules(goal);
    SuggestedShape(goal);
  }

  /** FirstMatch over the five rules, one branch at a time. */
  lemma FirstMatchOfProfileRules(goal: string)
    ensures FirstMatch(ProfileRules, goal) ==
      if Contains(goal, "Creativity") then Some(Sampling(1.0, 0.95, 100))
      else if Contains(goal, "Accuracy") then Some(Sampling(0.3, 0.85, 50))
      else if Contains(goal, "Natural Dialogue") then Some(Sampling(0.7, 0.9, 40))
      else if Contains(goal, "Factual Recall") then Some(Sampling(0.4, 0.8, 30))
      else if Contains(goal, "Balanced") then Some(Sampling(0.7, 0.9, 40))
      else None
  {
    var rules := ProfileRules;
    assert rules[1..][1..] == rules[2..] && rules[2..][1..] == rules[3..];
    assert rules[3..][1..] == rules[4..] && rules[4..][1..] == [];
    assert FirstMatch(rules, goal) ==
      if Contains(goal, rules[0].keyword) then Some(rules[0].sampling) else FirstMatch(rules[1..], goal);
    assert FirstMatch(rules[1..], goal) ==
      if Contains(goal, rules[1].keyword) then Some(rules[1].sampling) else FirstMatch(rules[2..], goal);
    assert FirstMatch(rules[2..], goal) ==
      if Contains(goal, rules[2].keyword) then Some(rules[2].sampling) else FirstMatch(rules[3..], goal);
    assert FirstMatch(rules[3..], goal) ==
      if Contains(goal, rules[3].keyword) then Some(rules[3].sampling) else FirstMatch(rules[4..], goal);
    assert FirstMatch(rules[4..], goal) ==
      if Contains(goal, rules[4].keyword) then Some(rules[4].sampling) else FirstMatch([], goal);
  }

  /** Only temperature, top_p and top_k ever change; the other defaults are kept for every goal. */
  lemma SuggestedChangesOnlySampling(goal: string, key: string)
    requires key in DefaultSettings && key != "temperature" && key != "top_p" && key != "top_k"
    ensures key in Suggested(goal) && Suggested(goal)[key] == DefaultSettings[key]
  {
  }

  /** The suggestion has the five default keys, keeps repeat_penalty 1.1 and max_tokens 1024, and is the default when no keyword occurs. */
  lemma SuggestedShape(goal: string)
    ensures Suggested(goal).Keys == DefaultSettings.Keys
    ensures Suggested(goal)["repeat_penalty"] == RealV(1.1) && Suggested(goal)["max_tokens"] == IntV(1024)
    ensures NoneMatch(ProfileRules, goal) ==> Suggested(goal) == DefaultSettings
  {
    match FirstMatch(ProfileRules, goal)
    case None =>
    case Some(s) =>
      assert (DefaultSettings + SamplingUpdate(s)).Keys == DefaultSettings.Keys;
  }

  /** The Natural Dialogue and Balanced branches write the default values back, so they change nothing. */
  lemma DefaultMatchingBranches(goal: string)
    requires !Contains(goal, "Creativity") && !Contains(goal, "Accuracy")
    requires Contains(goal, "Natural Dialogue") ||
             (!Contains(goal, "Factual Recall") && Contains(goal, "Balanced"))
    ensures Suggested(goal) == DefaultSettings
  {
    FirstMatchOfProfileRules(goal);
    DefaultSamplingUpdate();
  }

  /** Updating the defaults with their own sampling values leaves them as they are. */
  lemma DefaultSamplingUpdate()
    ensures DefaultSettings + SamplingUpdate(Sampling(0.7, 0.9, 40)) == DefaultSettings
  {
  }

  /** The sampling a suggestion carries: the first matching rule's, or the defaults' (0.7, 0.9, 40). */
  lemma SuggestedSampling(goal: string)
    ensures HasSampling(Suggested(goal))
    ensures SamplingOf(Suggested(goal)) == FirstMatch(ProfileRules, goal).GetOr(Sampling(0.7, 0.9, 40))
  {
    match FirstMatch(ProfileRules, goal)
    case None =>
    case Some(s) =>
      assert SamplingOf(DefaultSettings + SamplingUpdate(s)) == s;
  }

  /** The five branches in priority order, and the untouched defaults when no keyword occurs. */
  lemma SuggestedTable(goal: string)
    ensures var s := SamplingOf(Suggested(goal));
      if Contains(goal, "Creativity") then s == Sampling(1.0, 0.95, 100)
      else if Contains(goal, "Accuracy") then s == Sampling(0.3, 0.85, 50)
      else if Contains(goal, "Natural Dialogue") then s == Sampling(0.7, 0.9, 40)
      else if Contains(goal, "Factual Recall") then s == Sampling(0.4, 0.8, 30)
      else if Contains(goal, "Balanced") then s == Sampling(0.7, 0.9, 40)
      else Suggested(goal) == DefaultSettings
  {
    FirstMatchOfProfileRules(goal);
    SuggestedSampling(goal);
  }

  /** The answers given at the prompts. */
  datatype Answers = Answers(
    modelName: string,
    modelSize: string,
    quantization: string,
    format: string,
    language: string,
    useCase: string,
    goal: string)

  /** The dictionary `ask_model_profile` returns. */
  datatype Profile = Profile(
    modelName: string,
    modelSize: string,
    quantization: string,
    format: string,
    language: string,
    useCase: string,
    goal: string,
    generationSettings: map<string, Value>)

  /** The answers passed through unchanged, with the suggested settings for the goal. */
  method AskModelProfile(answers: Answers) returns (profile: Profile)
    ensures profile.modelName == answers.modelName && profile.modelSize == answers.modelSize
    ensures profile.quantization == answers.quantization && profile.format == answers.format
    ensures profile.language == answers.language && profile.useCase == answers.useCase
    ensures profile.goal == answers.goal
    ensures profile.generationSettings == Suggested(answers.goal)
  {
    var config := SuggestSettings(answers.goal);
    profile := Profile(answers.modelName, answers.modelSize, answers.quantization, answers.format,
                       answers.language, answers.useCase, answers.goal, config);
  }
}

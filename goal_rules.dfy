/**
 * The goal-to-sampling choice shared by the engine and the questionnaire:
 * an ordered list of (keyword, sampling) rules, the first rule whose keyword
 * occurs in the goal text winning.
 */
module GoalRules {
  import opened Wrappers
  import opened Strings

  /** Temperature, top_p and top_k. */
  datatype Sampling = Sampling(temperature: real, topP: real, topK: int)

  /** One `elif` branch: the substring it tests and the values it picks. */
  datatype Rule = Rule(keyword: string, sampling: Sampling)

  /** No rule's keyword occurs in `goal`. */
  predicate NoneMatch(rules: seq<Rule>, goal: string) {
    forall i :: 0 <= i < |rules| ==> !Contains(goal, rules[i].keyword)
  }

  /** Rule `i` is the first whose keyword occurs in `goal`. */
  predicate FirstMatchAt(rules: seq<Rule>, goal: string, i: int) {
    0 <= i < |rules| && Contains(goal, rules[i].keyword) &&
    forall j :: 0 <= j < i ==> !Contains(goal, rules[j].keyword)
  }

  /** The sampling of the first rule whose keyword occurs in `goal`, if any. */
  function FirstMatch(rules: seq<Rule>, goal: string): (r: Option<Sampling>)
    ensures r.None? <==> NoneMatch(rules, goal)
    ensures r.Some? ==> exists i :: FirstMatchAt(rules, goal, i) && r.value == rules[i].sampling
  {
    if rules == [] then None
    else if Contains(goal, rules[0].keyword) then
      assert FirstMatchAt(rules, goal, 0);
      Some(rules[0].sampling)
    else
      var r := FirstMatch(rules[1..], goal);
      assert forall i :: 1 <= i < |rules| ==> rules[i] == rules[1..][i - 1];
      assert forall i :: FirstMatchAt(rules[1..], goal, i) ==> FirstMatchAt(rules, goal, i + 1);
      r
  }

  /** The first matching rule is unique, so FirstMatch's contract determines its result. */
  lemma FirstMatchAtUnique(rules: seq<Rule>, goal: string, i: int, j: int)
    requires FirstMatchAt(rules, goal, i) && FirstMatchAt(rules, goal, j)
    ensures i == j
  {
  }
}

/**
 * `RuleKnowledgeGraph`: a constant table from rule names to the moment a
 * rule is checked and the conditions it lists.
 */
module RuleGraph {
  import opened Common

  /** One entry of the graph: its "Check Moment" and its "Conditions". */
  datatype Rule = Rule(checkMoment: string, conditions: seq<string>)

  const OffsideConditions: seq<string> := [
    "Attacker is in opponent's half",
    "Attacker is ahead of the second-last defender",
    "Attacker is ahead of the ball"
  ]

  /** The constant `graph`. */
  const Graph: map<string, Rule> := map[
    "Offside" := Rule("Ball is kicked", OffsideConditions),
    "Throw-In" := Rule("Ball crosses sideline", ["Ball completely out", "Crosses left or right boundary"]),
    "Goal Kick" := Rule("Ball crosses goal line", ["Last touched by attacking team"]),
    "Corner" := Rule("Ball crosses goal line", ["Last touched by defending team"])
  ]

  /** `get_rule`: the entry for a name, or `None` for a name the graph lacks. */
  function GetRule(name: string): (r: Option<Rule>)
    ensures r.Some? <==> name in Graph
    ensures r.Some? ==> r.value == Graph[name]
  {
    if name in Graph then Some(Graph[name]) else None
  }

  /**
   * `get_conditions`: the conditions of a known rule, and `[]` for an
   * unknown one. Every entry of the graph is a non-empty dict, so the
   * source's truthiness test on the entry is a presence test.
   */
  function GetConditions(name: string): (cs: seq<string>)
    ensures name !in Graph ==> cs == []
    ensures name in Graph ==> cs == Graph[name].conditions
  {
    match GetRule(name)
    case None => []
    case Some(rule) => rule.conditions
  }

  /** The graph has exactly four rules. */
  lemma Keys()
    ensures Graph.Keys == {"Offside", "Throw-In", "Goal Kick", "Corner"}
  {
  }

  /** The Offside conditions are the three "Attacker is ..." strings, in this order. */
  lemma OffsideConditionsExact()
    ensures GetConditions("Offside") == OffsideConditions
    ensures |OffsideConditions| == 3
  {
  }

  /**
   * The names the throw-in and corner/goal-kick deciders look up are not
   * keys of the graph, so those lookups give `None` and no conditions.
   */
  lemma DecidersFindNoRule()
    ensures GetRule("Throw-In Rule").None? && GetRule("Corner Rule").None? && GetRule("Goal Kick Rule").None?
    ensures GetConditions("Throw-In Rule") == [] && GetConditions("Corner Rule") == []
  {
    Keys();
  }
}

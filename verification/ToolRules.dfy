/** config/config.go: which permission rule decides about a tool call. */
module ToolRules {
  import opened Glob

  datatype Rule = Rule(title: string, input: map<string, string>, action: string)

  /** A rule that names nothing applies to nothing; otherwise everything it names has to match. */
  ghost predicate Applies(rule: Rule, title: string, input: map<string, string>, lower: string -> string) {
    && (rule.title != "" || rule.input != map[])
    && (rule.title != "" ==> Matches(lower(rule.title), lower(title)))
    && (forall name :: name in rule.input ==> name in input && Matches(lower(rule.input[name]), lower(input[name])))
  }

  /** matchRule, walking the rule's parameters in any order; `lower` is strings.ToLower. */
  method MatchRule(rule: Rule, title: string, input: map<string, string>, lower: string -> string) returns (ok: bool)
    ensures ok <==> Applies(rule, title, input, lower)
  {
    if rule.title == "" && |rule.input| == 0 {
      return false;
    }
    if rule.title != "" {
      var titleMatches := WildcardMatch(lower(rule.title), lower(title));
      if !titleMatches {
        return false;
      }
    }
    var todo := rule.input.Keys;
    while todo != {}
      invariant todo <= rule.input.Keys
      invariant forall name :: name in rule.input && name !in todo ==>
                  name in input && Matches(lower(rule.input[name]), lower(input[name]))
      decreases todo
    {
      var name :| name in todo;
      todo := todo - {name};
      if name !in input {
        return false;
      }
      var matches := WildcardMatch(lower(rule.input[name]), lower(input[name]));
      if !matches {
        return false;
      }
    }
    return true;
  }

  /** MatchToolPermission: the first rule that applies decides, whatever comes after it; with none, nothing does. */
  method MatchToolPermission(rules: seq<Rule>, title: string, input: map<string, string>, lower: string -> string)
    returns (action: string)
    ensures (exists i :: 0 <= i < |rules| && Applies(rules[i], title, input, lower) && action == rules[i].action
                         && forall j :: 0 <= j < i ==> !Applies(rules[j], title, input, lower))
         || (action == "" && forall i :: 0 <= i < |rules| ==> !Applies(rules[i], title, input, lower))
  {
    for i := 0 to |rules|
      invariant forall j :: 0 <= j < i ==> !Applies(rules[j], title, input, lower)
    {
      var applies := MatchRule(rules[i], title, input, lower);
      if applies {
        return rules[i].action;
      }
    }
    return "";
  }
}

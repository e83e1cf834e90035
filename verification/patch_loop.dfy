/** `add_custom_labels` written as the source writes it: three nested
    loops over items, groups and rules, appending each customised rule to
    the envelope's rule list the moment it is produced. Each loop is its
    own method here. */
module PatchLoop {
  import opened Rules
  import opened Envelope
  import opened Patcher
  import opened Selection
  import opened CustomLabels

  /** Selecting from a list extended by one rule extends the selection by
      that rule's contribution. */
  lemma SelectedSnoc(rs: seq<Rule>, r: Rule, p: LabelPatch)
    ensures Selected(rs + [r], p) ==
              Selected(rs, p) + (if Appendable(r, p) then [VisitRule(r, p).rule] else [])
  {
  }

  /** The innermost loop (`for rule in group['rules']`): `custom` is the
      envelope's rule list, grown by one rule per match. */
  method VisitRulesLoop(rules: seq<Rule>, p: LabelPatch, custom: seq<Rule>)
    returns (rulesOut: seq<Rule>, customOut: seq<Rule>)
    ensures PointwiseVisited(rules, rulesOut, p)
    ensures customOut == custom + Selected(rules, p)
  {
    rulesOut := [];
    customOut := custom;
    var j := 0;
    while j < |rules|
      invariant 0 <= j <= |rules|
      invariant PointwiseVisited(rules[..j], rulesOut, p)
      invariant customOut == custom + Selected(rules[..j], p)
    {
      var v := VisitRule(rules[j], p);
      SelectedSnoc(rules[..j], rules[j], p);
      assert rules[..j + 1] == rules[..j] + [rules[j]];
      rulesOut := rulesOut + [v.rule];
      if v.appended {
        customOut := customOut + [v.rule];
      }
      j := j + 1;
    }
    assert rules[..j] == rules;
  }

  /** The middle loop (`for group in item['spec']['groups']`). */
  method VisitGroupsLoop(groups: seq<Group>, p: LabelPatch, custom: seq<Rule>)
    returns (groupsOut: seq<Group>, customOut: seq<Rule>)
    ensures GroupShape(groupsOut) == GroupShape(groups)
    ensures PointwiseVisited(FlattenGroups(groups), FlattenGroups(groupsOut), p)
    ensures customOut == custom + Selected(FlattenGroups(groups), p)
  {
    groupsOut := [];
    customOut := custom;
    var g := 0;
    while g < |groups|
      invariant 0 <= g <= |groups|
      invariant GroupShape(groupsOut) == GroupShape(groups[..g])
      invariant PointwiseVisited(FlattenGroups(groups[..g]), FlattenGroups(groupsOut), p)
      invariant customOut == custom + Selected(FlattenGroups(groups[..g]), p)
    {
      var rules := groups[g].rules;
      var rulesOut;
      rulesOut, customOut := VisitRulesLoop(rules, p, customOut);
      var gOut := groups[g].(rules := rulesOut);
      assert groups[..g + 1] == groups[..g] + [groups[g]];
      GroupStep(groups[..g], groups[g], groupsOut, gOut, p);
      groupsOut := groupsOut + [gOut];
      g := g + 1;
    }
    assert groups[..g] == groups;
  }

  /** The outer loop (`for item in rules_json['items']`). */
  method VisitItemsLoop(doc: Doc, p: LabelPatch, custom: seq<Rule>)
    returns (docOut: Doc, customOut: seq<Rule>)
    ensures Shape(docOut) == Shape(doc)
    ensures PointwiseVisited(Flatten(doc), Flatten(docOut), p)
    ensures customOut == custom + Selected(Flatten(doc), p)
  {
    docOut := [];
    customOut := custom;
    var i := 0;
    while i < |doc|
      invariant 0 <= i <= |doc|
      invariant Shape(docOut) == Shape(doc[..i])
      invariant PointwiseVisited(Flatten(doc[..i]), Flatten(docOut), p)
      invariant customOut == custom + Selected(Flatten(doc[..i]), p)
    {
      var groupsOut;
      groupsOut, customOut := VisitGroupsLoop(doc[i].groups, p, customOut);
      var itOut := doc[i].(groups := groupsOut);
      ItemStepAt(doc, i, docOut, itOut, p);
      docOut := docOut + [itOut];
      i := i + 1;
    }
    assert doc[..i] == doc;
  }

  /** The whole pass: the loops run with the envelope's rule list
      (`BASE['spec']['groups'][0]['rules']`) as the list they append to;
      it computes what AddCustomLabels describes. */
  method AddCustomLabelsLoop(doc: Doc, p: LabelPatch, env: PromRule) returns (docOut: Doc, envOut: PromRule)
    requires HasCustomGroup(env)
    ensures docOut == AddCustomLabels(doc, p, env).0
    ensures envOut == AddCustomLabels(doc, p, env).1
  {
    var custom;
    docOut, custom := VisitItemsLoop(doc, p, CustomRules(env));
    var first := env.groups[0];
    envOut := env.(groups := [first.(rules := custom)] + env.groups[1..]);
    SameOutcome(doc, p, env, docOut, envOut);
  }

  /** Appending one visited group to a visited prefix of an item's groups
      keeps the loop's invariants. */
  lemma GroupStep(prefix: seq<Group>, g: Group, prefixOut: seq<Group>, gOut: Group, p: LabelPatch)
    requires GroupShape(prefixOut) == GroupShape(prefix)
    requires PointwiseVisited(FlattenGroups(prefix), FlattenGroups(prefixOut), p)
    requires gOut.name == g.name
    requires PointwiseVisited(g.rules, gOut.rules, p)
    ensures GroupShape(prefixOut + [gOut]) == GroupShape(prefix + [g])
    ensures PointwiseVisited(FlattenGroups(prefix + [g]), FlattenGroups(prefixOut + [gOut]), p)
    ensures Selected(FlattenGroups(prefix + [g]), p) == Selected(FlattenGroups(prefix), p) + Selected(g.rules, p)
  {
    FlattenGroupsConcat(prefix, [g]);
    FlattenGroupsConcat(prefixOut, [gOut]);
    assert FlattenGroups([g]) == g.rules;
    assert FlattenGroups([gOut]) == gOut.rules;
    PointwiseConcat(FlattenGroups(prefix), FlattenGroups(prefixOut), g.rules, gOut.rules, p);
    SelectedConcat(FlattenGroups(prefix), g.rules, p);
    GroupShapeSnoc(prefix, g);
    GroupShapeSnoc(prefixOut, gOut);
  }

  /** Appending one visited item to a visited prefix of the dump keeps
      the loop's invariants. */
  lemma ItemStep(prefix: Doc, it: Item, prefixOut: Doc, itOut: Item, p: LabelPatch)
    requires Shape(prefixOut) == Shape(prefix)
    requires PointwiseVisited(Flatten(prefix), Flatten(prefixOut), p)
    requires GroupShape(itOut.groups) == GroupShape(it.groups)
    requires PointwiseVisited(FlattenGroups(it.groups), FlattenGroups(itOut.groups), p)
    ensures Shape(prefixOut + [itOut]) == Shape(prefix + [it])
    ensures PointwiseVisited(Flatten(prefix + [it]), Flatten(prefixOut + [itOut]), p)
    ensures Selected(Flatten(prefix + [it]), p) == Selected(Flatten(prefix), p) + Selected(FlattenGroups(it.groups), p)
  {
    FlattenConcat(prefix, [it]);
    FlattenConcat(prefixOut, [itOut]);
    assert Flatten([it]) == FlattenGroups(it.groups);
    assert Flatten([itOut]) == FlattenGroups(itOut.groups);
    PointwiseConcat(Flatten(prefix), Flatten(prefixOut), FlattenGroups(it.groups), FlattenGroups(itOut.groups), p);
    SelectedConcat(Flatten(prefix), FlattenGroups(it.groups), p);
    ShapeSnoc(prefix, it);
    ShapeSnoc(prefixOut, itOut);
  }

  /** ItemStep for the prefix `doc[..i]` and the next item `doc[i]`. */
  lemma ItemStepAt(doc: Doc, i: nat, prefixOut: Doc, itOut: Item, p: LabelPatch)
    requires i < |doc|
    requires Shape(prefixOut) == Shape(doc[..i])
    requires PointwiseVisited(Flatten(doc[..i]), Flatten(prefixOut), p)
    requires GroupShape(itOut.groups) == GroupShape(doc[i].groups)
    requires PointwiseVisited(FlattenGroups(doc[i].groups), FlattenGroups(itOut.groups), p)
    ensures Shape(prefixOut + [itOut]) == Shape(doc[..i + 1])
    ensures PointwiseVisited(Flatten(doc[..i + 1]), Flatten(prefixOut + [itOut]), p)
    ensures Selected(Flatten(doc[..i + 1]), p) == Selected(Flatten(doc[..i]), p) + Selected(FlattenGroups(doc[i].groups), p)
  {
    assert doc[..i + 1] == doc[..i] + [doc[i]];
    ItemStep(doc[..i], doc[i], prefixOut, itOut, p);
  }

  /** A dump and envelope with the properties AddCustomLabels promises are
      the ones it returns. */
  lemma SameOutcome(doc: Doc, p: LabelPatch, env: PromRule, docOut: Doc, envOut: PromRule)
    requires HasCustomGroup(env)
    requires Shape(docOut) == Shape(doc)
    requires PointwiseVisited(Flatten(doc), Flatten(docOut), p)
    requires envOut == env.(groups := [env.groups[0].(rules := CustomRules(env) + Selected(Flatten(doc), p))] + env.groups[1..])
    ensures (docOut, envOut) == AddCustomLabels(doc, p, env)
  {
    var expected := AddCustomLabels(doc, p, env);
    PointwiseDetermined(Flatten(doc), Flatten(docOut), Flatten(expected.0), p);
    DocDetermined(docOut, expected.0);
    assert envOut.groups[0] == expected.1.groups[0];
    assert expected.1.groups == [expected.1.groups[0]] + expected.1.groups[1..];
  }
}

/** Concrete runs of the patcher on small dumps. */
module Scenarios {
  import opened Wrappers
  import opened Rules
  import opened Envelope
  import opened Patcher
  import opened Selection
  import opened CustomLabels

  const NoFields: map<string, string> := map[]

  /** A run over a dump of one item with one group, starting from Base. */
  lemma SingleGroupRun(name: string, rs: seq<Rule>, p: LabelPatch)
    ensures HasCustomGroup(Base)
    ensures var out := AddCustomLabels([Item([Group(name, rs)])], p, Base);
            && out.0 == [Item([Group(name, PatchRules(rs, p).result)])]
            && out.1 == Base.(groups := [Group(CustomGroupName, Selected(rs, p))])
  {
    var doc := [Item([Group(name, rs)])];
    var expected := [Item([Group(name, PatchRules(rs, p).result)])];
    var out := AddCustomLabels(doc, p, Base);
    FlattenSingleGroup(name, rs);
    FlattenSingleGroup(name, PatchRules(rs, p).result);
    assert GroupShape(expected[0].groups) == GroupShape(doc[0].groups);
    assert Shape(expected) == Shape(doc);
    PointwiseDetermined(rs, Flatten(out.0), Flatten(expected), p);
    DocDetermined(out.0, expected);
    FromBase(doc, p);
  }

  /** One group "g" holding alerts Foo and Bar, both with empty labels;
      only Foo is listed; the label is l=v. The envelope receives one rule,
      Foo-custom with l=v, and the dump's Foo is that same rule while Bar
      is untouched. */
  lemma FooIsCustomised()
    ensures var foo := Rule(Some("Foo"), Some(map[]), NoFields);
            var bar := Rule(Some("Bar"), Some(map[]), NoFields);
            var custom := Rule(Some("Foo-custom"), Some(map["l" := "v"]), NoFields);
            var out := AddCustomLabels([Item([Group("g", [foo, bar])])], LabelPatch(["Foo"], "l", "v"), Base);
            && out.1 == Base.(groups := [Group(CustomGroupName, [custom])])
            && out.0 == [Item([Group("g", [custom, bar])])]
  {
    var foo := Rule(Some("Foo"), Some(map[]), NoFields);
    var bar := Rule(Some("Bar"), Some(map[]), NoFields);
    var custom := Rule(Some("Foo-custom"), Some(map["l" := "v"]), NoFields);
    var p := LabelPatch(["Foo"], "l", "v");
    assert "Foo" + CustomSuffix == "Foo-custom";
    assert "Bar" !in p.alerts;
    assert VisitRule(foo, p) == Visit(custom, true);
    assert VisitRule(bar, p) == Visit(bar, false);
    SingleGroupRun("g", [foo, bar], p);
    assert PatchRules([foo, bar], p).result == [custom, bar];
    assert [foo, bar][..1] == [foo];
    assert Selected([foo, bar], p) == [custom];
  }

  /** A list naming no alert of the dump appends nothing and leaves the
      dump as it was. */
  lemma UnknownNameChangesNothing()
    ensures var foo := Rule(Some("Foo"), Some(map[]), NoFields);
            var doc := [Item([Group("g", [foo])])];
            var out := AddCustomLabels(doc, LabelPatch(["Nope"], "l", "v"), Base);
            out.1 == Base && out.0 == doc
  {
    var foo := Rule(Some("Foo"), Some(map[]), NoFields);
    var p := LabelPatch(["Nope"], "l", "v");
    assert "Foo" !in p.alerts;
    SingleGroupRun("g", [foo], p);
    assert PatchRules([foo], p).result == [foo];
    assert Selected([foo], p) == [];
  }

  /** A listed rule with no labels is not appended, yet the dump holds it
      renamed. */
  lemma LabellessListedIsRenamedOnly()
    ensures var foo := Rule(Some("Foo"), None, NoFields);
            var out := AddCustomLabels([Item([Group("g", [foo])])], LabelPatch(["Foo"], "l", "v"), Base);
            && out.1 == Base
            && out.0 == [Item([Group("g", [Rule(Some("Foo-custom"), None, NoFields)])])]
  {
    var foo := Rule(Some("Foo"), None, NoFields);
    var p := LabelPatch(["Foo"], "l", "v");
    assert "Foo" + CustomSuffix == "Foo-custom";
    assert VisitRule(foo, p) == Visit(Rule(Some("Foo-custom"), None, NoFields), false);
    SingleGroupRun("g", [foo], p);
    assert PatchRules([foo], p).result == [Rule(Some("Foo-custom"), None, NoFields)];
    assert Selected([foo], p) == [];
  }

  /** Matching is exact: "Foo" does not match an alert named "FooBar" nor
      " Foo"; a recording rule (no alert) is skipped. */
  lemma MatchIsExact()
    ensures !Listed(Rule(Some("FooBar"), Some(map[]), NoFields), LabelPatch(["Foo"], "l", "v"))
    ensures !Listed(Rule(Some(" Foo"), Some(map[]), NoFields), LabelPatch(["Foo"], "l", "v"))
    ensures !Listed(Rule(None, Some(map[]), map["record" := "job:up:sum"]), LabelPatch(["Foo"], "l", "v"))
  {
  }

  /** An existing value of the label is overwritten and other labels kept. */
  lemma LabelIsOverwritten()
    ensures var r := Rule(Some("Foo"), Some(map["l" := "old", "severity" := "warning"]), NoFields);
            VisitRule(r, LabelPatch(["Foo"], "l", "v")).rule.labels
              == Some(map["l" := "v", "severity" := "warning"])
  {
    var r := Rule(Some("Foo"), Some(map["l" := "old", "severity" := "warning"]), NoFields);
    var after := VisitRule(r, LabelPatch(["Foo"], "l", "v")).rule.labels.value;
    assert after == map["l" := "v", "severity" := "warning"];
  }

  /** Matches from a later item come after those of an earlier item. */
  lemma ItemOrderIsKept()
    ensures var a := Rule(Some("A"), Some(map[]), NoFields);
            var b := Rule(Some("B"), Some(map[]), NoFields);
            var doc := [Item([Group("g1", [b])]), Item([Group("g2", [a])])];
            CustomRules(AddCustomLabels(doc, LabelPatch(["A", "B"], "k", "x"), Base).1)
              == [Rule(Some("B-custom"), Some(map["k" := "x"]), NoFields),
                  Rule(Some("A-custom"), Some(map["k" := "x"]), NoFields)]
  {
    var a := Rule(Some("A"), Some(map[]), NoFields);
    var b := Rule(Some("B"), Some(map[]), NoFields);
    var p := LabelPatch(["A", "B"], "k", "x");
    var doc := [Item([Group("g1", [b])]), Item([Group("g2", [a])])];
    FlattenSingleGroup("g1", [b]);
    FlattenSingleGroup("g2", [a]);
    FlattenConcat([doc[0]], [doc[1]]);
    assert doc == [doc[0]] + [doc[1]];
    assert Flatten(doc) == [b, a];
    assert "A" + CustomSuffix == "A-custom";
    assert "B" + CustomSuffix == "B-custom";
    assert [b, a][..1] == [b];
    assert Selected([b, a], p) == [VisitRule(b, p).rule, VisitRule(a, p).rule];
    FromBase(doc, p);
  }
}

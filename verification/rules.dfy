/** The rule dump read by the patcher: the JSON object returned by
    `oc get promrule -A -o json`, shaped
    items[*].spec.groups[*].rules[*]. */
module Rules {
  import opened Wrappers

  /** One rule of a PrometheusRule group. `alert` is absent on recording
      rules, `labels` is optional. Every other key of the rule object
      (`expr`, `for`, `annotations`, `record`, ...) is kept in `other`,
      with its JSON value as opaque text: the patcher never reads it.
      A rule read from JSON never has "alert" or "labels" among the keys of
      `other` (see WellFormedRule); the patcher keeps that property. */
  datatype Rule = Rule(
    alert: Option<string>,
    labels: Option<map<string, string>>,
    other: map<string, string>)

  /** `other` holds only the keys that have no field of their own. */
  predicate WellFormedRule(r: Rule)
  {
    "alert" !in r.other && "labels" !in r.other
  }

  /** A named rule group (`spec.groups[*]`). */
  datatype Group = Group(name: string, rules: seq<Rule>)

  /** One PrometheusRule object of the top-level `items` array; only its
      `spec.groups` is visited. */
  datatype Item = Item(groups: seq<Group>)

  /** The whole dump: its `items` array. */
  type Doc = seq<Item>

  /** The rules of a sequence of groups, group by group. */
  function FlattenGroups(gs: seq<Group>): seq<Rule>
  {
    if gs == [] then [] else gs[0].rules + FlattenGroups(gs[1..])
  }

  /** Every rule of the dump in traversal order: item-major, then group,
      then rule. */
  function Flatten(doc: Doc): seq<Rule>
  {
    if doc == [] then [] else FlattenGroups(doc[0].groups) + Flatten(doc[1..])
  }

  /** The name and rule count of each group, in order. */
  function GroupShape(gs: seq<Group>): seq<(string, nat)>
  {
    seq(|gs|, i requires 0 <= i < |gs| => (gs[i].name, |gs[i].rules|))
  }

  /** The nesting of a dump: per item, per group, its name and rule count.
      Two dumps with the same shape have the same number, order and names
      of items and groups and the same number of rules in each group. */
  function Shape(doc: Doc): seq<seq<(string, nat)>>
  {
    seq(|doc|, i requires 0 <= i < |doc| => GroupShape(doc[i].groups))
  }

  lemma {:induction false} FlattenGroupsConcat(a: seq<Group>, b: seq<Group>)
    ensures FlattenGroups(a + b) == FlattenGroups(a) + FlattenGroups(b)
    decreases |a|
  {
    if a != [] {
      assert (a + b)[1..] == a[1..] + b;
      FlattenGroupsConcat(a[1..], b);
    } else {
      assert a + b == b;
    }
  }

  lemma {:induction false} FlattenConcat(a: Doc, b: Doc)
    ensures Flatten(a + b) == Flatten(a) + Flatten(b)
    decreases |a|
  {
    if a != [] {
      assert (a + b)[1..] == a[1..] + b;
      FlattenConcat(a[1..], b);
    } else {
      assert a + b == b;
    }
  }

  /** Group names, rule counts and the rules in order fix a group list. */
  lemma {:induction false} GroupsDetermined(a: seq<Group>, b: seq<Group>)
    requires GroupShape(a) == GroupShape(b)
    requires FlattenGroups(a) == FlattenGroups(b)
    ensures a == b
    decreases |a|
  {
    assert |a| == |GroupShape(a)| == |b|;
    if a != [] {
      assert GroupShape(a)[0] == GroupShape(b)[0];
      var n := |a[0].rules|;
      assert a[0].rules == FlattenGroups(a)[..n] == FlattenGroups(b)[..n] == b[0].rules;
      assert GroupShape(a[1..]) == GroupShape(a)[1..];
      assert GroupShape(b[1..]) == GroupShape(b)[1..];
      GroupsDetermined(a[1..], b[1..]);
      assert a == [a[0]] + a[1..];
      assert b == [b[0]] + b[1..];
    }
  }

  /** The shape and the rules in traversal order fix a dump: nothing else
      of it is modelled. */
  lemma {:induction false} DocDetermined(a: Doc, b: Doc)
    requires Shape(a) == Shape(b)
    requires Flatten(a) == Flatten(b)
    ensures a == b
    decreases |a|
  {
    assert |a| == |Shape(a)| == |b|;
    if a != [] {
      assert Shape(a)[0] == Shape(b)[0];
      var n := |FlattenGroups(a[0].groups)|;
      GroupRuleCount(a[0].groups, b[0].groups);
      assert FlattenGroups(a[0].groups) == Flatten(a)[..n] == Flatten(b)[..n] == FlattenGroups(b[0].groups);
      GroupsDetermined(a[0].groups, b[0].groups);
      assert Shape(a[1..]) == Shape(a)[1..];
      assert Shape(b[1..]) == Shape(b)[1..];
      DocDetermined(a[1..], b[1..]);
      assert a == [a[0]] + a[1..];
      assert b == [b[0]] + b[1..];
    }
  }

  /** Group lists of the same shape hold the same number of rules. */
  lemma {:induction false} GroupRuleCount(a: seq<Group>, b: seq<Group>)
    requires GroupShape(a) == GroupShape(b)
    ensures |FlattenGroups(a)| == |FlattenGroups(b)|
    decreases |a|
  {
    assert |a| == |GroupShape(a)| == |b|;
    if a != [] {
      assert GroupShape(a)[0] == GroupShape(b)[0];
      assert GroupShape(a[1..]) == GroupShape(a)[1..];
      assert GroupShape(b[1..]) == GroupShape(b)[1..];
      GroupRuleCount(a[1..], b[1..]);
    }
  }

  lemma GroupShapeSnoc(gs: seq<Group>, g: Group)
    ensures GroupShape(gs + [g]) == GroupShape(gs) + [(g.name, |g.rules|)]
  {
  }

  lemma ShapeSnoc(doc: Doc, it: Item)
    ensures Shape(doc + [it]) == Shape(doc) + [GroupShape(it.groups)]
  {
  }

  lemma FlattenSingleGroup(name: string, rs: seq<Rule>)
    ensures Flatten([Item([Group(name, rs)])]) == rs
  {
    var g := Group(name, rs);
    assert [Item([g])][1..] == [];
    assert [g][1..] == [];
    assert FlattenGroups([g]) == rs + [] == rs;
    assert Flatten([Item([g])]) == FlattenGroups([g]) + [];
  }
}

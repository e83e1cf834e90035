/** The rule label patcher (`add_custom_labels`): walks the dump item by
    item, group by group, rule by rule; every rule whose alert name is in
    the list is renamed `<name>-custom`, gets the label, and is appended to
    the envelope's custom group. The appended rule is the document's own
    rule object, so the document is changed too. */
module Patcher {
  import opened Wrappers
  import opened Rules
  import opened Envelope

  /** The alert-name list and the label to set (`--label`, `--value`). */
  datatype LabelPatch = LabelPatch(alerts: seq<string>, key: string, value: string)

  const CustomSuffix: string := "-custom"

  /** The rule has an `alert` field equal, as a string, to an entry of the list. */
  predicate Listed(r: Rule, p: LabelPatch)
  {
    r.alert.Some? && r.alert.value in p.alerts
  }

  /** The rule is listed and has a `labels` map: only such rules reach
      the append. */
  predicate Appendable(r: Rule, p: LabelPatch)
  {
    Listed(r, p) && r.labels.Some?
  }

  /** `after` is `before` with `key` set to `value`: the key is overwritten
      or added, every other entry is kept and none is added. */
  predicate LabelSet(before: map<string, string>, after: map<string, string>, key: string, value: string)
  {
    && key in after && after[key] == value
    && after.Keys == before.Keys + {key}
    && (forall k :: k in before && k != key ==> after[k] == before[k])
  }

  /** `custom` is `orig`, a rule that reaches the append, as it is
      appended: renamed `<name>-custom`, the label set, all else kept. */
  predicate CustomisedFrom(orig: Rule, custom: Rule, p: LabelPatch)
  {
    && Appendable(orig, p)
    && custom.alert == Some(orig.alert.value + CustomSuffix)
    && custom.labels.Some?
    && LabelSet(orig.labels.value, custom.labels.value, p.key, p.value)
    && custom.other == orig.other
  }

  /** What one loop iteration leaves behind: the rule as it now stands in
      the document and whether that same rule was appended to the envelope. */
  datatype Visit = Visit(rule: Rule, appended: bool)

  /** One iteration of the innermost loop. A missing `alert` or `labels`
      field raises KeyError, which is swallowed; the rename happens before
      the `labels` lookup, so a listed rule without labels is renamed but
      not appended. */
  function VisitRule(r: Rule, p: LabelPatch): (v: Visit)
    ensures v.appended <==> Appendable(r, p)
    ensures !Listed(r, p) ==> v.rule == r
    ensures Listed(r, p) ==> v.rule.alert == Some(r.alert.value + CustomSuffix)
    ensures Listed(r, p) ==> v.rule.other == r.other
    ensures Listed(r, p) && r.labels.None? ==> v.rule.labels.None?
    ensures Appendable(r, p) ==>
              v.rule.labels.Some? && LabelSet(r.labels.value, v.rule.labels.value, p.key, p.value)
  {
    match r.alert
    case None => Visit(r, false)
    case Some(name) =>
      if name !in p.alerts then Visit(r, false)
      else
        var renamed := r.(alert := Some(name + CustomSuffix));
        match renamed.labels
        case None => Visit(renamed, false)
        case Some(ls) => Visit(renamed.(labels := Some(ls[p.key := p.value])), true)
  }

  /** A visit never puts an "alert" or "labels" key among a rule's
      other keys. */
  lemma VisitKeepsWellFormed(r: Rule, p: LabelPatch)
    requires WellFormedRule(r)
    ensures WellFormedRule(VisitRule(r, p).rule)
  {
  }

  /** Each rule of `after` is what visiting the rule at the same position
      of `before` left in the document. */
  predicate PointwiseVisited(before: seq<Rule>, after: seq<Rule>, p: LabelPatch)
  {
    && |after| == |before|
    && forall i :: 0 <= i < |before| ==> after[i] == VisitRule(before[i], p).rule
  }

  /** Visiting is a function of the rule: two pointwise-visited copies of
      one list are equal. */
  lemma PointwiseDetermined(rs: seq<Rule>, a: seq<Rule>, b: seq<Rule>, p: LabelPatch)
    requires PointwiseVisited(rs, a, p) && PointwiseVisited(rs, b, p)
    ensures a == b
  {
  }

  /** The outcome of a traversal: the updated part of the document and the
      rules appended to the envelope while walking it, in order. */
  datatype Pass<T> = Pass(result: T, appended: seq<Rule>)

  lemma PointwiseConcat(a: seq<Rule>, a': seq<Rule>, b: seq<Rule>, b': seq<Rule>, p: LabelPatch)
    requires PointwiseVisited(a, a', p) && PointwiseVisited(b, b', p)
    ensures PointwiseVisited(a + b, a' + b', p)
  {
  }

  /** The innermost loop over one group's rules. */
  function PatchRules(rs: seq<Rule>, p: LabelPatch): (res: Pass<seq<Rule>>)
    ensures PointwiseVisited(rs, res.result, p)
    ensures |res.appended| <= |rs|
    ensures forall r :: r in res.appended ==> r in res.result
  {
    if rs == [] then Pass([], [])
    else
      var v := VisitRule(rs[0], p);
      var rest := PatchRules(rs[1..], p);
      Pass([v.rule] + rest.result, (if v.appended then [v.rule] else []) + rest.appended)
  }

  /** The middle loop over an item's groups. Group names and rule counts
      are kept. */
  function PatchGroups(gs: seq<Group>, p: LabelPatch): (res: Pass<seq<Group>>)
    ensures GroupShape(res.result) == GroupShape(gs)
    ensures PointwiseVisited(FlattenGroups(gs), FlattenGroups(res.result), p)
    ensures |res.appended| <= |FlattenGroups(gs)|
  {
    if gs == [] then Pass([], [])
    else
      var head := PatchRules(gs[0].rules, p);
      var rest := PatchGroups(gs[1..], p);
      var g := gs[0].(rules := head.result);
      var out := [g] + rest.result;
      assert out[1..] == rest.result;
      PointwiseConcat(gs[0].rules, head.result, FlattenGroups(gs[1..]), FlattenGroups(rest.result), p);
      assert GroupShape(out) == [(g.name, |g.rules|)] + GroupShape(rest.result);
      assert GroupShape(gs) == [(gs[0].name, |gs[0].rules|)] + GroupShape(gs[1..]);
      Pass(out, head.appended + rest.appended)
  }

  /** The outer loop over the dump's items. */
  function PatchItems(doc: Doc, p: LabelPatch): (res: Pass<Doc>)
    ensures Shape(res.result) == Shape(doc)
    ensures PointwiseVisited(Flatten(doc), Flatten(res.result), p)
    ensures |res.appended| <= |Flatten(doc)|
  {
    if doc == [] then Pass([], [])
    else
      var head := PatchGroups(doc[0].groups, p);
      var rest := PatchItems(doc[1..], p);
      var it := doc[0].(groups := head.result);
      var out := [it] + rest.result;
      assert out[1..] == rest.result;
      PointwiseConcat(FlattenGroups(doc[0].groups), FlattenGroups(head.result),
                      Flatten(doc[1..]), Flatten(rest.result), p);
      assert Shape(out) == [GroupShape(it.groups)] + Shape(rest.result);
      assert Shape(doc) == [GroupShape(doc[0].groups)] + Shape(doc[1..]);
      Pass(out, head.appended + rest.appended)
  }
}

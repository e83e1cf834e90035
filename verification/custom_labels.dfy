/** `add_custom_labels` as a whole: one pass over the dump that returns the
    dump as the pass leaves it and the envelope with the customised rules
    appended. Saving the envelope and the optional `oc apply` that follow
    the loops are not part of this model. */
module CustomLabels {
  import opened Wrappers
  import opened Rules
  import opened Envelope
  import opened Patcher
  import opened Selection

  /** Runs the three nested loops over `doc`, appending to `env`. The source
      indexes `groups[0]` of the envelope, hence the requirement. */
  function AddCustomLabels(doc: Doc, p: LabelPatch, env: PromRule): (out: (Doc, PromRule))
    requires HasCustomGroup(env)
    ensures Shape(out.0) == Shape(doc)
    ensures PointwiseVisited(Flatten(doc), Flatten(out.0), p)
    ensures HasCustomGroup(out.1)
    ensures CustomRules(out.1) == CustomRules(env) + Selected(Flatten(doc), p)
    ensures out.1.apiVersion == env.apiVersion
    ensures out.1.kind == env.kind
    ensures out.1.metadata == env.metadata
    ensures |out.1.groups| == |env.groups|
    ensures out.1.groups[0].name == env.groups[0].name
    ensures out.1.groups[1..] == env.groups[1..]
  {
    var pass := PatchItems(doc, p);
    PatchItemsAppendsSelected(doc, p);
    (pass.result, AppendCustomRules(env, pass.appended))
  }

  /** The rules one call adds to the envelope. */
  function NewRules(doc: Doc, p: LabelPatch, env: PromRule): (added: seq<Rule>)
    requires HasCustomGroup(env)
    ensures added == Selected(Flatten(doc), p)
  {
    CustomRules(AddCustomLabels(doc, p, env).1)[|CustomRules(env)|..]
  }

  /** Exactly one rule is appended per rule of the dump that has a listed
      alert and a labels map, so never more than the dump has rules. */
  lemma AppendedCount(doc: Doc, p: LabelPatch, env: PromRule)
    requires HasCustomGroup(env)
    ensures |NewRules(doc, p, env)| == |MatchIndices(Flatten(doc), p)|
    ensures |CustomRules(AddCustomLabels(doc, p, env).1)| <= |CustomRules(env)| + |Flatten(doc)|
  {
    SelectedByIndices(Flatten(doc), p);
  }

  /** The appended rules are, in traversal order, the very rules the dump
      holds after the pass at the positions of the rules that reached the
      append (the source appends the rule object itself, not a copy), and
      a position is among them exactly when its original rule has a listed
      alert and a labels map. */
  lemma AppendedAreTheDocumentsRules(doc: Doc, p: LabelPatch, env: PromRule)
    requires HasCustomGroup(env)
    ensures var ix := MatchIndices(Flatten(doc), p);
            var after := Flatten(AddCustomLabels(doc, p, env).0);
            && |NewRules(doc, p, env)| == |ix|
            && (forall k :: 0 <= k < |ix| ==> NewRules(doc, p, env)[k] == after[ix[k]])
            && (forall k, l :: 0 <= k < l < |ix| ==> ix[k] < ix[l])
            && (forall i :: 0 <= i < |Flatten(doc)| ==> (i in ix <==> Appendable(Flatten(doc)[i], p)))
  {
    SelectedByIndices(Flatten(doc), p);
  }

  /** Every appended rule is a matched rule of the dump renamed to
      `<name>-custom`, with the label set and all else kept. */
  lemma AppendedAreCustomised(doc: Doc, p: LabelPatch, env: PromRule)
    requires HasCustomGroup(env)
    ensures forall k :: 0 <= k < |NewRules(doc, p, env)| ==>
              exists i :: 0 <= i < |Flatten(doc)| && CustomisedFrom(Flatten(doc)[i], NewRules(doc, p, env)[k], p)
  {
    var added := NewRules(doc, p, env);
    SelectedAreCustomised(Flatten(doc), p);
    forall k | 0 <= k < |added|
      ensures exists i :: 0 <= i < |Flatten(doc)| && CustomisedFrom(Flatten(doc)[i], added[k], p)
    {
      assert added[k] == Selected(Flatten(doc), p)[k];
    }
  }

  /** A rule without an `alert`, or whose alert is not exactly a list
      entry, is left as it was and is not appended. */
  lemma UnlistedUntouched(doc: Doc, p: LabelPatch, env: PromRule, i: nat)
    requires HasCustomGroup(env)
    requires i < |Flatten(doc)| && !Listed(Flatten(doc)[i], p)
    ensures Flatten(AddCustomLabels(doc, p, env).0)[i] == Flatten(doc)[i]
    ensures i !in MatchIndices(Flatten(doc), p)
  {
  }

  /** A listed rule without `labels` is renamed in the dump, since the
      rename comes before the failing lookup, but it is not appended and
      keeps no labels. */
  lemma LabellessRenamedNotAppended(doc: Doc, p: LabelPatch, env: PromRule, i: nat)
    requires HasCustomGroup(env)
    requires i < |Flatten(doc)|
    requires Listed(Flatten(doc)[i], p) && Flatten(doc)[i].labels.None?
    ensures var r := Flatten(doc)[i];
            var r' := Flatten(AddCustomLabels(doc, p, env).0)[i];
            r' == r.(alert := Some(r.alert.value + CustomSuffix))
    ensures i !in MatchIndices(Flatten(doc), p)
  {
  }

  /** A call keeps an envelope built from Base in Base's shape. */
  lemma KeepsEnveloped(doc: Doc, p: LabelPatch, env: PromRule)
    requires Enveloped(env)
    ensures Enveloped(AddCustomLabels(doc, p, env).1)
  {
  }

  /** Starting from Base, the result is Base with the selected rules in
      its `custom-alerts` group. */
  lemma FromBase(doc: Doc, p: LabelPatch)
    ensures HasCustomGroup(Base)
    ensures AddCustomLabels(doc, p, Base).1 ==
              Base.(groups := [Group(CustomGroupName, Selected(Flatten(doc), p))])
  {
    var out := AddCustomLabels(doc, p, Base).1;
    var sel := Selected(Flatten(doc), p);
    assert CustomRules(out) == [] + sel == sel;
    assert out.groups[0] == Group(CustomGroupName, sel);
    assert out.groups == [out.groups[0]];
  }

  /** The envelope is shared state: a second call appends after the first
      call's rules instead of starting afresh. */
  lemma CallsAccumulate(doc1: Doc, p1: LabelPatch, doc2: Doc, p2: LabelPatch, env: PromRule)
    requires HasCustomGroup(env)
    ensures var env1 := AddCustomLabels(doc1, p1, env).1;
            var env2 := AddCustomLabels(doc2, p2, env1).1;
            CustomRules(env2) == CustomRules(env) + Selected(Flatten(doc1), p1) + Selected(Flatten(doc2), p2)
  {
  }
}

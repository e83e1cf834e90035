/** An independent account of what the patcher appends: the rules that
    reach the append, taken from the flat traversal order one at a time
    from the end of the list of rules seen so far, exactly as the
    envelope grows while the loops run. */
module Selection {
  import opened Rules
  import opened Patcher

  /** The rules the envelope receives while `rs` is walked: every rule
      that reaches the append, in its visited (renamed, labelled) form. */
  function Selected(rs: seq<Rule>, p: LabelPatch): (sel: seq<Rule>)
    ensures |sel| <= |rs|
  {
    if rs == [] then []
    else
      var n := |rs| - 1;
      Selected(rs[..n], p) + (if Appendable(rs[n], p) then [VisitRule(rs[n], p).rule] else [])
  }

  /** The positions in `rs` of the rules that reach the append, ascending. */
  function MatchIndices(rs: seq<Rule>, p: LabelPatch): (ix: seq<nat>)
    ensures forall k :: 0 <= k < |ix| ==> ix[k] < |rs| && Appendable(rs[ix[k]], p)
    ensures forall k, l :: 0 <= k < l < |ix| ==> ix[k] < ix[l]
    ensures forall i :: 0 <= i < |rs| && Appendable(rs[i], p) ==> i in ix
  {
    if rs == [] then []
    else
      var n := |rs| - 1;
      MatchIndices(rs[..n], p) + (if Appendable(rs[n], p) then [n] else [])
  }

  /** Selected is the visited rule at each matching position, in order:
      one entry per rule with a listed alert and a labels map, and no
      other. */
  lemma {:induction false} SelectedByIndices(rs: seq<Rule>, p: LabelPatch)
    ensures |Selected(rs, p)| == |MatchIndices(rs, p)|
    ensures forall k :: 0 <= k < |MatchIndices(rs, p)| ==>
              Selected(rs, p)[k] == VisitRule(rs[MatchIndices(rs, p)[k]], p).rule
    decreases |rs|
  {
    if rs != [] {
      var n := |rs| - 1;
      var pre := rs[..n];
      SelectedByIndices(pre, p);
      var ix := MatchIndices(rs, p);
      var ixPre := MatchIndices(pre, p);
      forall k | 0 <= k < |ixPre|
        ensures Selected(rs, p)[k] == VisitRule(rs[ix[k]], p).rule
      {
        assert ix[k] == ixPre[k];
        assert rs[ixPre[k]] == pre[ixPre[k]];
      }
    }
  }

  /** Every selected rule is the customised form of some rule of `rs`. */
  lemma SelectedAreCustomised(rs: seq<Rule>, p: LabelPatch)
    ensures forall k :: 0 <= k < |Selected(rs, p)| ==>
              exists i :: 0 <= i < |rs| && CustomisedFrom(rs[i], Selected(rs, p)[k], p)
  {
    var ix := MatchIndices(rs, p);
    SelectedByIndices(rs, p);
    forall k | 0 <= k < |Selected(rs, p)|
      ensures exists i :: 0 <= i < |rs| && CustomisedFrom(rs[i], Selected(rs, p)[k], p)
    {
      assert CustomisedFrom(rs[ix[k]], Selected(rs, p)[k], p);
    }
  }

  /** Walking two lists one after the other selects from each in turn. */
  lemma {:induction false} SelectedConcat(a: seq<Rule>, b: seq<Rule>, p: LabelPatch)
    ensures Selected(a + b, p) == Selected(a, p) + Selected(b, p)
    decreases |b|
  {
    if b == [] {
      assert a + b == a;
    } else {
      var n := |b| - 1;
      assert (a + b)[..|a + b| - 1] == a + b[..n];
      assert (a + b)[|a + b| - 1] == b[n];
      SelectedConcat(a, b[..n], p);
    }
  }

  lemma SelectedSingleton(r: Rule, p: LabelPatch)
    ensures Selected([r], p) == if Appendable(r, p) then [VisitRule(r, p).rule] else []
  {
  }

  /** The rule loop appends exactly the selected rules. */
  lemma {:induction false} PatchRulesAppendsSelected(rs: seq<Rule>, p: LabelPatch)
    ensures PatchRules(rs, p).appended == Selected(rs, p)
    decreases |rs|
  {
    if rs != [] {
      PatchRulesAppendsSelected(rs[1..], p);
      SelectedSingleton(rs[0], p);
      SelectedConcat([rs[0]], rs[1..], p);
      assert [rs[0]] + rs[1..] == rs;
    }
  }

  /** The group loop appends exactly the selected rules of its groups. */
  lemma {:induction false} PatchGroupsAppendsSelected(gs: seq<Group>, p: LabelPatch)
    ensures PatchGroups(gs, p).appended == Selected(FlattenGroups(gs), p)
    decreases |gs|
  {
    if gs != [] {
      PatchRulesAppendsSelected(gs[0].rules, p);
      PatchGroupsAppendsSelected(gs[1..], p);
      SelectedConcat(gs[0].rules, FlattenGroups(gs[1..]), p);
    }
  }

  /** The item loop appends exactly the selected rules of the whole dump,
      in item-major, group, rule order. */
  lemma {:induction false} PatchItemsAppendsSelected(doc: Doc, p: LabelPatch)
    ensures PatchItems(doc, p).appended == Selected(Flatten(doc), p)
    decreases |doc|
  {
    if doc != [] {
      PatchGroupsAppendsSelected(doc[0].groups, p);
      PatchItemsAppendsSelected(doc[1..], p);
      SelectedConcat(FlattenGroups(doc[0].groups), Flatten(doc[1..]), p);
    }
  }
}

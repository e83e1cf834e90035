# Prometheus custom-alert label patcher — Dafny model

The tool reads a dump of PrometheusRule objects (`items[*].spec.groups[*].rules[*]`)
and a list of alert names. It walks every rule in order: items first, then each
item's groups, then each group's rules. Every rule whose `alert` equals a listed
name, as an exact string, is handled in three steps:

1. it is renamed `<name>-custom`;
2. its `labels` map gets `labels[key] = value`;
3. it is appended to the single `custom-alerts` group of a fixed PrometheusRule
   envelope (`BASE`: `monitoring.coreos.com/v1`, kind `PrometheusRule`, namespace
   `openshift-monitoring`, name `prometheus`, label `role: alert-rules`,
   generation 1).

A missing `alert` or `labels` field raises a KeyError that is swallowed for that rule.
The rename happens before the `labels` lookup. So a listed rule without labels is
renamed but never appended. The appended rule is the dump's own rule object, not a
copy, so the dump is changed as well. `BASE` is module-level state, so the envelope
accumulates across calls.

Files:

- `wrappers.dfy` (`Wrappers`): `Option`, used for the optional `alert` and `labels` fields.
- `rules.dfy` (`Rules`): the dump as datatypes (`Rule`, `Group`, `Item`, `Doc`). It also
  defines the flat traversal order `Flatten` and the nesting `Shape`, with lemmas
  relating them.
- `envelope.dfy` (`Envelope`): the `BASE` envelope, its fixed shape, and appending to its
  first group.
- `patcher.dfy` (`Patcher`): one loop iteration (`VisitRule`) and the three loops as
  recursive functions (`PatchRules`, `PatchGroups`, `PatchItems`).
- `selection.dfy` (`Selection`): an independent account of what gets appended. `Selected`
  grows at the end, as the envelope does. `MatchIndices` gives the positions of the
  appended rules. The lemmas prove the loops append exactly that.
- `custom_labels.dfy` (`CustomLabels`): `add_custom_labels` as a function of
  (dump, patch, envelope), and the properties of one call.
- `patch_loop.dfy` (`PatchLoop`): the same pass written as the source's nested loops,
  appending one rule at a time. It is proved to compute `AddCustomLabels`.
- `scenarios.dfy` (`Scenarios`): concrete runs on small dumps.

The envelope is an explicit state that is passed in and returned. The alert list,
label key and label value are the `LabelPatch` parameter.

Two effects on the dump follow from how the loop body is written:

- A matched rule is appended as the dump's own object (`custom_rule = rule`), so the
  dump changes too: each matched rule in it becomes the appended rule
  (`AppendedAreTheDocumentsRules`).
- A listed rule without `labels` is renamed before the failing lookup, so it stays
  renamed in the dump although it is not appended (`LabellessRenamedNotAppended`).
- The program saves only the envelope, so neither change to the dump can be seen in
  its output.

## Model

| member | source | states |
|---|---|---|
| Patcher.VisitRule | main.py:113-123 | a rule is appended iff its alert is in the list and it has labels; an unlisted or alert-less rule is unchanged; a listed rule is renamed `<name>-custom` with its other fields kept; a listed rule without labels stays without labels; an appended rule has the key set to the value, every other label kept and none added |
| Patcher.PatchRules | main.py:112-124 | the rule loop keeps the group's rule count and leaves each rule as its own iteration left it; it appends at most one rule per rule, and each appended rule is one of the group's updated rules |
| Patcher.PatchGroups | main.py:110-125 | the group loop keeps group names and rule counts, updates each rule in place, and appends at most as many rules as the item holds |
| Patcher.PatchItems | main.py:108-126 | the item loop keeps the number, order and nesting of items, groups and rules; each rule in traversal order is its visited form; it appends at most as many rules as the dump holds |
| Selection.Selected | main.py:108-119 | the rules the envelope receives over a walk never outnumber the rules walked |
| Selection.MatchIndices | main.py:113-119 | the positions of appended rules are strictly ascending, and a position is included iff its rule has a listed alert and a labels map |
| Selection.SelectedByIndices | main.py:108-119 | the appended rules are exactly one per rule with a listed alert and labels, in traversal order, each in its visited form |
| Selection.SelectedAreCustomised | main.py:114-119 | every appended rule is some matched rule renamed `<name>-custom`, with the label set and its other labels and fields kept |
| Selection.SelectedConcat | main.py:108-112 | walking two rule lists one after the other appends what each walk appends, first list first |
| Selection.PatchRulesAppendsSelected | main.py:112-119 | the rule loop appends exactly the selected rules of its group |
| Selection.PatchGroupsAppendsSelected | main.py:110-119 | the group loop appends exactly the selected rules of the item's groups, group by group |
| Selection.PatchItemsAppendsSelected | main.py:108-119 | the item loop appends exactly the selected rules of the whole dump in item, group, rule order |
| Envelope.AppendCustomRules | main.py:119 | appending adds the rules at the end of the first group; header, metadata, group count, group name and the other groups are unchanged |
| Envelope.BaseIsEnveloped | main.py:8-27 | `BASE` has the fixed header and one empty `custom-alerts` group |
| Envelope.AppendKeepsEnveloped | main.py:19-27 | appending keeps the envelope's fixed header and its single `custom-alerts` group |
| CustomLabels.AddCustomLabels | main.py:102-126 | one call keeps the dump's shape and updates every rule in place. The envelope's rules become the prior rules followed by the selected rules. The envelope's apiVersion, kind, metadata, group count, first group's name and other groups are unchanged |
| CustomLabels.NewRules | main.py:119 | the rules one call adds to the envelope are the selected rules of the dump |
| CustomLabels.AppendedCount | main.py:108-119 | a call adds one rule per rule with a listed alert and labels, never more than the dump holds |
| CustomLabels.AppendedAreTheDocumentsRules | main.py:115-119 | each appended rule equals the dump's rule at its matched position after the call (aliasing); positions ascend; a position matches iff its rule has a listed alert and labels |
| CustomLabels.AppendedAreCustomised | main.py:115-119 | every added rule is some matched rule of the dump renamed `<name>-custom`, with the label set and all else kept |
| CustomLabels.UnlistedUntouched | main.py:113-114 | a rule without an alert, or whose alert is not exactly a list entry, is unchanged in the dump and is not appended |
| CustomLabels.LabellessRenamedNotAppended | main.py:115-123 | a listed rule without labels is renamed `<name>-custom` in the dump, otherwise unchanged, and not appended |
| CustomLabels.KeepsEnveloped | main.py:8-27 | a call keeps an envelope in `BASE`'s fixed shape |
| CustomLabels.FromBase | main.py:8-27 | starting from `BASE`, the result is `BASE` whose `custom-alerts` group holds exactly the selected rules |
| CustomLabels.CallsAccumulate | main.py:119 | since the envelope is shared state, a second call appends after the first call's rules |
| PatchLoop.SelectedSnoc | main.py:119 | appending after one more rule extends the selection by that rule's contribution only |
| PatchLoop.VisitRulesLoop | main.py:112-124 | the imperative rule loop updates each rule in place and extends the envelope's list by the selected rules |
| PatchLoop.VisitGroupsLoop | main.py:110-125 | the imperative group loop keeps group names and counts, updates rules in place, and extends the envelope's list by the selected rules |
| PatchLoop.VisitItemsLoop | main.py:108-126 | the imperative item loop keeps the dump's shape, updates every rule in place, and extends the envelope's list by the selected rules of the whole dump |
| Patcher.VisitKeepsWellFormed | main.py:115-118 | a visit changes only `alert` and `labels`, so a rule whose other keys exclude those two still does afterwards |
| PatchLoop.AddCustomLabelsLoop | main.py:102-126 | the three nested loops, appending to the envelope one rule at a time, leave exactly the dump and the envelope that `AddCustomLabels` describes (same shape, every rule updated in place, the selected rules appended in traversal order) |
| Scenarios.FooIsCustomised | main.py:113-119 | with Foo and Bar and only Foo listed, the envelope gets Foo-custom with l=v; the dump's Foo becomes that rule and Bar is unchanged |
| Scenarios.UnknownNameChangesNothing | main.py:113-114 | a list naming no alert of the dump leaves the envelope and the dump unchanged |
| Scenarios.LabellessListedIsRenamedOnly | main.py:115-123 | a listed rule without labels is renamed in the dump and the envelope stays empty |
| Scenarios.MatchIsExact | main.py:114 | matching is exact string equality: no prefix match, no trimming, and alert-less recording rules never match |
| Scenarios.LabelIsOverwritten | main.py:118 | an existing value of the label is overwritten and other labels are kept |
| Scenarios.ItemOrderIsKept | main.py:108-119 | matches from an earlier item are appended before matches from a later item |

## Left out

- `parse_args` (main.py:30-47): command-line parsing. The label key, value and alert list are the `LabelPatch` parameter.
- `read_alerts` and `read_rules` (main.py:50-74): file reading, JSON parsing, whitespace stripping and the exits on a missing file or bad JSON. The alert list is given already stripped.
- `get_rules` and `apply_rules` (main.py:77-84, 95-99): these run the external `oc` command.
- `save_rules` (main.py:87-92) and the save/apply calls at main.py:128-130: JSON output to disk. The model returns the envelope instead.
- Missing `items`, `spec`, `groups` or `rules` keys (main.py:108-112) raise an uncaught KeyError in the source. The typed dump is always well formed, so this crash is not modelled.
- Fields of the wrong JSON type are not modelled. Examples: `labels` being null or a list, or a non-string `alert`. In the source most of these raise an uncaught TypeError.
- Keys of an item other than `spec.groups`, and keys of a group other than `name` and `rules`, are not represented. The patcher never reads or writes them. A rule's other keys are kept as opaque text in `Rule.other`.
- The key order of JSON objects is not modelled. Labels are a `map`, so the position where a new label key is inserted is not represented.
- CustomLabels.CallsAccumulate: envelope entries are modelled as values, not as references to the dump's rule objects. A later call that re-patches the same dump object (say, listing `Foo-custom` after a call that produced it) rewrites the entry already in the envelope in the source, but leaves the earlier entries unchanged in the model. The same holds for `CustomLabels.AddCustomLabels` when its envelope came from an earlier call on the same dump. The program makes a single call, where the two agree.
- The index counters (main.py:106, 109, 111, 124-126) and the commented-out line 121 have no effect and are not modelled.

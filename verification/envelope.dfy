/** The fixed PrometheusRule envelope (`BASE`) into which the patcher
    collects the customised rules. In the source it is a module-level
    object whose single group's rule list grows on every match; here it
    is a value passed in and returned. */
module Envelope {
  import opened Rules

  datatype Metadata = Metadata(
    generation: int,
    labels: map<string, string>,
    name: string,
    namespace: string)

  datatype PromRule = PromRule(
    apiVersion: string,
    kind: string,
    metadata: Metadata,
    groups: seq<Group>)

  const CustomGroupName: string := "custom-alerts"

  const BaseMetadata: Metadata :=
    Metadata(1, map["role" := "alert-rules"], "prometheus", "openshift-monitoring")

  /** The envelope as the program starts: one empty `custom-alerts` group. */
  const Base: PromRule :=
    PromRule("monitoring.coreos.com/v1", "PrometheusRule", BaseMetadata,
             [Group(CustomGroupName, [])])

  /** The envelope has a first group to append to (`groups[0]`). */
  predicate HasCustomGroup(env: PromRule)
  {
    |env.groups| > 0
  }

  /** The envelope still has Base's fixed header and its single
      `custom-alerts` group, whatever rules that group holds. */
  predicate Enveloped(env: PromRule)
  {
    && env.apiVersion == Base.apiVersion
    && env.kind == Base.kind
    && env.metadata == Base.metadata
    && |env.groups| == 1
    && env.groups[0].name == CustomGroupName
  }

  /** The rules collected so far. */
  function CustomRules(env: PromRule): seq<Rule>
    requires HasCustomGroup(env)
  {
    env.groups[0].rules
  }

  /** Appends rules to the first group, in order, as repeated `append`
      calls on `groups[0].rules` do. Nothing else of the envelope changes. */
  function AppendCustomRules(env: PromRule, rs: seq<Rule>): (env': PromRule)
    requires HasCustomGroup(env)
    ensures HasCustomGroup(env')
    ensures CustomRules(env') == CustomRules(env) + rs
    ensures env'.apiVersion == env.apiVersion
    ensures env'.kind == env.kind
    ensures env'.metadata == env.metadata
    ensures |env'.groups| == |env.groups|
    ensures env'.groups[0].name == env.groups[0].name
    ensures env'.groups[1..] == env.groups[1..]
  {
    var g := env.groups[0];
    env.(groups := [g.(rules := g.rules + rs)] + env.groups[1..])
  }

  /** Base is a well-formed envelope with nothing collected yet. */
  lemma BaseIsEnveloped()
    ensures Enveloped(Base)
    ensures HasCustomGroup(Base) && CustomRules(Base) == []
  {
  }

  /** Appending never breaks the envelope's fixed shape. */
  lemma AppendKeepsEnveloped(env: PromRule, rs: seq<Rule>)
    requires Enveloped(env)
    ensures Enveloped(AppendCustomRules(env, rs))
  {
  }
}

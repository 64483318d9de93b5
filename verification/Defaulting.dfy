/**
 The agent API's specs and their defaulting (agent/pkg/apis/agent/v1alpha1). The API server applies the
 defaulters to every Playbook and PlaybookDeployment it stores.
 */
module Defaulting {
  import opened Common

  datatype Policy = Policy(timeout: Option<int>, backoffLimit: Option<int>)

  type Files = map<string, string>

  datatype PlaybookSpec = PlaybookSpec(policy: Option<Policy>, files: Files, entrypoint: string)

  datatype DeploymentSpec = DeploymentSpec(
    labels: map<string, string>, annotations: map<string, string>, template: PlaybookSpec,
    revisionHistoryLimit: Option<int>, paused: bool)

  const TEN_MINUTES := 600_000_000_000

  function Or<T>(o: Option<T>, default: T): Option<T> {
    if o.None? then Some(default) else o
  }

  function DefaultPolicy(p: Policy): Policy {
    Policy(Or(p.timeout, TEN_MINUTES), Or(p.backoffLimit, 3))
  }

  function DefaultPlaybook(s: PlaybookSpec): PlaybookSpec {
    s.(policy := Some(DefaultPolicy(if s.policy.None? then Policy(None, None) else s.policy.value)))
  }

  function DefaultDeployment(d: DeploymentSpec): DeploymentSpec {
    d.(revisionHistoryLimit := Or(d.revisionHistoryLimit, 10), template := DefaultPlaybook(d.template))
  }

  /** t is s, field by field, with every missing policy field filled in: ten minutes and three attempts. */
  predicate OnlyGapsFilled(s: PlaybookSpec, t: PlaybookSpec) {
    && t.files == s.files && t.entrypoint == s.entrypoint && t.policy.Some?
    && (t.policy.value.timeout
        == if s.policy.Some? && s.policy.value.timeout.Some? then s.policy.value.timeout
           else Some(600_000_000_000))
    && (t.policy.value.backoffLimit
        == if s.policy.Some? && s.policy.value.backoffLimit.Some? then s.policy.value.backoffLimit else Some(3))
  }

  // ---- The generated defaulters, on the objects they change in place ----------------------------

  class PolicyObject {
    var timeout: Option<int>
    var backoffLimit: Option<int>

    constructor ()
      ensures Value() == Policy(None, None)
    {
      timeout, backoffLimit := None, None;
    }

    function Value(): Policy
      reads this
    {
      Policy(timeout, backoffLimit)
    }
  }

  class PlaybookSpecObject {
    var policy: PolicyObject?
    var files: Files
    var entrypoint: string

    function Value(): PlaybookSpec
      reads this, policy
    {
      PlaybookSpec(if policy == null then None else Some(policy.Value()), files, entrypoint)
    }
  }

  class DeploymentSpecObject {
    var labels: map<string, string>
    var annotations: map<string, string>
    const template: PlaybookSpecObject
    var revisionHistoryLimit: Option<int>
    var paused: bool

    constructor (template: PlaybookSpecObject, paused: bool)
      ensures this.template == template
    {
      labels, annotations, this.template, revisionHistoryLimit, this.paused := map[], map[], template, None, paused;
    }

    function Value(): DeploymentSpec
      reads this, template, template.policy
    {
      DeploymentSpec(labels, annotations, template.Value(), revisionHistoryLimit, paused)
    }
  }

  method SetDefaultsPolicy(obj: PolicyObject)
    modifies obj
    ensures obj.Value() == DefaultPolicy(old(obj.Value()))
    ensures obj.timeout == if old(obj.timeout).Some? then old(obj.timeout) else Some(600_000_000_000)
    ensures obj.backoffLimit == if old(obj.backoffLimit).Some? then old(obj.backoffLimit) else Some(3)
  {
    if obj.timeout == None {
      obj.timeout := Some(TEN_MINUTES);
    }
    if obj.backoffLimit == None {
      var limit := 3;
      obj.backoffLimit := Some(limit);
    }
  }

  method SetDefaultsPlaybookSpec(obj: PlaybookSpecObject)
    modifies obj
    ensures obj.files == old(obj.files) && obj.entrypoint == old(obj.entrypoint)
    ensures obj.policy != null
    ensures old(obj.policy) != null ==> obj.policy == old(obj.policy)
    ensures old(obj.policy) == null ==> fresh(obj.policy) && obj.policy.Value() == Policy(None, None)
  {
    if obj.policy == null {
      obj.policy := new PolicyObject();
    }
  }

  method SetDefaultsPlaybookDeploymentSpec(obj: DeploymentSpecObject)
    modifies obj
    ensures obj.revisionHistoryLimit == if old(obj.revisionHistoryLimit).Some? then old(obj.revisionHistoryLimit)
                                        else Some(10)
    ensures obj.labels == old(obj.labels) && obj.annotations == old(obj.annotations) && obj.paused == old(obj.paused)
  {
    if obj.revisionHistoryLimit == None {
      var limit := 10;
      obj.revisionHistoryLimit := Some(limit);
    }
  }

  method SetObjectDefaultsPlaybook(spec: PlaybookSpecObject)
    modifies spec, spec.policy
    ensures spec.Value() == DefaultPlaybook(old(spec.Value()))
    ensures spec.policy == old(spec.policy) || fresh(spec.policy)
    ensures OnlyGapsFilled(old(spec.Value()), spec.Value())
  {
    SetDefaultsPlaybookSpec(spec);
    if spec.policy != null {
      SetDefaultsPolicy(spec.policy);
    }
  }

  method SetObjectDefaultsPlaybookDeployment(spec: DeploymentSpecObject)
    modifies spec, spec.template, spec.template.policy
    ensures spec.Value() == DefaultDeployment(old(spec.Value()))
    ensures var d, after := old(spec.Value()), spec.Value();
            && after.labels == d.labels && after.annotations == d.annotations && after.paused == d.paused
            && OnlyGapsFilled(d.template, after.template)
            && after.revisionHistoryLimit == if d.revisionHistoryLimit.Some? then d.revisionHistoryLimit else Some(10)
  {
    SetDefaultsPlaybookDeploymentSpec(spec);
    SetDefaultsPlaybookSpec(spec.template);
    if spec.template.policy != null {
      SetDefaultsPolicy(spec.template.policy);
    }
  }

  // ---- What the rollout relies on ---------------------------------------------------------------

  /** Every optional field below the spec is present. */
  predicate Complete(s: PlaybookSpec) {
    s.policy.Some? && s.policy.value.timeout.Some? && s.policy.value.backoffLimit.Some?
  }

  /** Defaulting is idempotent, and its fixed points are exactly the complete specs. */
  lemma FixedPointsAreComplete(s: PlaybookSpec)
    ensures DefaultPlaybook(DefaultPlaybook(s)) == DefaultPlaybook(s)
    ensures Complete(s) <==> DefaultPlaybook(s) == s
  {
    if DefaultPlaybook(s) == s {
      assert s.policy == DefaultPlaybook(s).policy;
    }
  }

  /** A Playbook made from a stored deployment's template is stored with exactly that template's spec. */
  lemma DefaultsAgree(d: DeploymentSpec)
    ensures DefaultPlaybook(DefaultDeployment(d).template) == DefaultDeployment(d).template
    ensures DefaultDeployment(DefaultDeployment(d)) == DefaultDeployment(d)
  {
    FixedPointsAreComplete(d.template);
  }
}

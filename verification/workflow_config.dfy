/** The hourly FFDI workflow configuration document and its semantic
    validation: every identifier the document references must resolve in the
    registry under the fetch operation for its kind. Validation walks three
    groups in a fixed order (inputs, associations, workflow configuration),
    one lookup per identifier, and stops at the first lookup that fails.
 */
module WorkflowConfig {
  import opened Registry

  /** The four input datasets a model run reads, as registry handles. */
  datatype ModelInputs = ModelInputs(
    hourlyTemperature: string,
    relativeHumidity: string,
    windSpeed: string,
    dailyMcAdf: string)

  /** The person and organisation the model run is associated with. */
  datatype ModelAssociations = ModelAssociations(person: string, organisation: string)

  /** The registered model run workflow template. */
  datatype ModelConfigurationEntities = ModelConfigurationEntities(workflowTemplate: string)

  /** The whole configuration document. */
  datatype HourlyFFDIWorkflowConfig = HourlyFFDIWorkflowConfig(
    inputs: ModelInputs,
    associations: ModelAssociations,
    workflowConfiguration: ModelConfigurationEntities)

  /** Reference order of the lookups each group is expected to make. */
  function InputsPlan(m: ModelInputs): seq<Lookup>
  {
    [ Lookup(Dataset, m.hourlyTemperature),
      Lookup(Dataset, m.relativeHumidity),
      Lookup(Dataset, m.windSpeed),
      Lookup(Dataset, m.dailyMcAdf) ]
  }

  function AssociationsPlan(a: ModelAssociations): seq<Lookup>
  {
    [ Lookup(Person, a.person), Lookup(Organisation, a.organisation) ]
  }

  function TemplatePlan(w: ModelConfigurationEntities): seq<Lookup>
  {
    [ Lookup(WorkflowTemplate, w.workflowTemplate) ]
  }

  /** Reference order of all seven lookups of a full validation. */
  function ConfigPlan(c: HourlyFFDIWorkflowConfig): seq<Lookup>
  {
    [ Lookup(Dataset, c.inputs.hourlyTemperature),
      Lookup(Dataset, c.inputs.relativeHumidity),
      Lookup(Dataset, c.inputs.windSpeed),
      Lookup(Dataset, c.inputs.dailyMcAdf),
      Lookup(Person, c.associations.person),
      Lookup(Organisation, c.associations.organisation),
      Lookup(WorkflowTemplate, c.workflowConfiguration.workflowTemplate) ]
  }

  /** The kind of fetch at each position of a full validation, whatever the identifiers. */
  const KindOrder: seq<Kind> :=
    [Dataset, Dataset, Dataset, Dataset, Person, Organisation, WorkflowTemplate]

  /** Every identifier of the document resolves under its own kind. */
  predicate AllResolve(resolves: Lookup -> bool, c: HourlyFFDIWorkflowConfig)
  {
    && resolves(Lookup(Dataset, c.inputs.hourlyTemperature))
    && resolves(Lookup(Dataset, c.inputs.relativeHumidity))
    && resolves(Lookup(Dataset, c.inputs.windSpeed))
    && resolves(Lookup(Dataset, c.inputs.dailyMcAdf))
    && resolves(Lookup(Person, c.associations.person))
    && resolves(Lookup(Organisation, c.associations.organisation))
    && resolves(Lookup(WorkflowTemplate, c.workflowConfiguration.workflowTemplate))
  }

  /** Number of lookups of kind `k` in a trace. */
  function CountKind(trace: seq<Lookup>, k: Kind): nat
  {
    if trace == [] then 0
    else (if trace[0].kind == k then 1 else 0) + CountKind(trace[1..], k)
  }

  /** `ModelInputs.validate_entities`: one dataset fetch per input, in
      declaration order, stopping at the first failure. */
  function ValidateInputs(m: ModelInputs, resolves: Lookup -> bool): (v: Verdict)
    ensures v == CheckAll(resolves, InputsPlan(m))
    ensures IsShortCircuitRun(resolves, InputsPlan(m), v)
    ensures v.ok <==> (&& resolves(Lookup(Dataset, m.hourlyTemperature))
                       && resolves(Lookup(Dataset, m.relativeHumidity))
                       && resolves(Lookup(Dataset, m.windSpeed))
                       && resolves(Lookup(Dataset, m.dailyMcAdf)))
    ensures 1 <= |v.trace| <= 4
    ensures forall i :: 0 <= i < |v.trace| ==> v.trace[i].kind == Dataset
  {
    var ids := [m.hourlyTemperature, m.relativeHumidity, m.windSpeed, m.dailyMcAdf];
    var plan := Lookups(Dataset, ids);
    assert plan == InputsPlan(m);
    assert plan[0] == Lookup(Dataset, m.hourlyTemperature) && plan[1] == Lookup(Dataset, m.relativeHumidity);
    assert plan[2] == Lookup(Dataset, m.windSpeed) && plan[3] == Lookup(Dataset, m.dailyMcAdf);
    CheckAllIsShortCircuitRun(resolves, plan);
    CheckAll(resolves, plan)
  }

  /** `ModelAssociations.validate_entities`: a loop over the people, then a
      loop over the organisations, each returning early on failure. */
  function ValidateAssociations(a: ModelAssociations, resolves: Lookup -> bool): (v: Verdict)
    ensures v == CheckAll(resolves, AssociationsPlan(a))
    ensures IsShortCircuitRun(resolves, AssociationsPlan(a), v)
    ensures v.ok <==> resolves(Lookup(Person, a.person)) && resolves(Lookup(Organisation, a.organisation))
    ensures !resolves(Lookup(Person, a.person)) ==> v.trace == [Lookup(Person, a.person)]
  {
    var people := Lookups(Person, [a.person]);
    var organisations := Lookups(Organisation, [a.organisation]);
    assert people + organisations == AssociationsPlan(a);
    CheckAllAppend(resolves, people, organisations);
    CheckAllIsShortCircuitRun(resolves, people + organisations);
    AndThen(CheckAll(resolves, people), CheckAll(resolves, organisations))
  }

  /** `ModelConfigurationEntities.validate_entities`: one workflow template fetch. */
  function ValidateConfigurationEntities(w: ModelConfigurationEntities, resolves: Lookup -> bool): (v: Verdict)
    ensures v == CheckAll(resolves, TemplatePlan(w))
    ensures IsShortCircuitRun(resolves, TemplatePlan(w), v)
    ensures v.ok <==> resolves(Lookup(WorkflowTemplate, w.workflowTemplate))
    ensures v.trace == [Lookup(WorkflowTemplate, w.workflowTemplate)] && v.authCalls == 1
  {
    var templates := Lookups(WorkflowTemplate, [w.workflowTemplate]);
    assert templates == TemplatePlan(w);
    CheckAllIsShortCircuitRun(resolves, templates);
    CheckAll(resolves, templates)
  }

  /** `HourlyFFDIWorkflowConfig.validate_entities`: the three groups in
      order, returning `false` as soon as one group fails. */
  function ValidateConfig(c: HourlyFFDIWorkflowConfig, resolves: Lookup -> bool): (v: Verdict)
    ensures v.ok == (&& ValidateInputs(c.inputs, resolves).ok
                     && ValidateAssociations(c.associations, resolves).ok
                     && ValidateConfigurationEntities(c.workflowConfiguration, resolves).ok)
    ensures !ValidateInputs(c.inputs, resolves).ok ==> v == ValidateInputs(c.inputs, resolves)
    ensures ValidateInputs(c.inputs, resolves).ok && !ValidateAssociations(c.associations, resolves).ok ==>
              v.trace == InputsPlan(c.inputs) + ValidateAssociations(c.associations, resolves).trace
  {
    AndThen(ValidateInputs(c.inputs, resolves),
            AndThen(ValidateAssociations(c.associations, resolves),
                    ValidateConfigurationEntities(c.workflowConfiguration, resolves)))
  }

  /** The nested group structure makes exactly the lookups of the flat
      seven-step plan, in the same order, with the same early return. */
  lemma ValidateConfigFollowsPlan(c: HourlyFFDIWorkflowConfig, resolves: Lookup -> bool)
    ensures ValidateConfig(c, resolves) == CheckAll(resolves, ConfigPlan(c))
    ensures IsShortCircuitRun(resolves, ConfigPlan(c), ValidateConfig(c, resolves))
  {
    var ip, ap, tp := InputsPlan(c.inputs), AssociationsPlan(c.associations), TemplatePlan(c.workflowConfiguration);
    CheckAllAppend(resolves, ap, tp);
    CheckAllAppend(resolves, ip, ap + tp);
    assert ConfigPlan(c) == ip + (ap + tp);
    CheckAllIsShortCircuitRun(resolves, ConfigPlan(c));
  }

  /** Validation passes exactly when all seven identifiers resolve. */
  lemma ValidateConfigIffAllResolve(c: HourlyFFDIWorkflowConfig, resolves: Lookup -> bool)
    ensures ValidateConfig(c, resolves).ok <==> AllResolve(resolves, c)
  {
  }

  /** Position by position, the plan's kinds are the fixed kind order. */
  lemma ConfigPlanKinds(c: HourlyFFDIWorkflowConfig)
    ensures |ConfigPlan(c)| == |KindOrder| == 7
    ensures forall i :: 0 <= i < 7 ==> ConfigPlan(c)[i].kind == KindOrder[i]
  {
  }

  /** Whatever the registry answers, the attempted lookups follow the fixed
      kind order, one credential per lookup, and there are at most seven. */
  lemma ValidateConfigKinds(c: HourlyFFDIWorkflowConfig, resolves: Lookup -> bool)
    ensures 1 <= |ValidateConfig(c, resolves).trace| <= 7
    ensures ValidateConfig(c, resolves).authCalls == |ValidateConfig(c, resolves).trace|
    ensures forall i :: 0 <= i < |ValidateConfig(c, resolves).trace| ==>
              ValidateConfig(c, resolves).trace[i].kind == KindOrder[i]
  {
    var v := ValidateConfig(c, resolves);
    var plan := ConfigPlan(c);
    assert IsShortCircuitRun(resolves, plan, v) by {
      ValidateConfigFollowsPlan(c, resolves);
    }
    RunFollowsPlan(resolves, plan, v);
    ConfigPlanKinds(c);
  }

  /** A failing inputs group is the whole story: no person, organisation or
      workflow template is looked up. A failing associations group likewise
      keeps the workflow template from being looked up. */
  lemma FailedGroupSkipsLaterGroups(c: HourlyFFDIWorkflowConfig, resolves: Lookup -> bool)
    ensures !ValidateInputs(c.inputs, resolves).ok ==>
              forall i :: 0 <= i < |ValidateConfig(c, resolves).trace| ==>
                ValidateConfig(c, resolves).trace[i].kind == Dataset
    ensures !ValidateAssociations(c.associations, resolves).ok ==>
              forall i :: 0 <= i < |ValidateConfig(c, resolves).trace| ==>
                ValidateConfig(c, resolves).trace[i].kind != WorkflowTemplate
  {
  }

  /** Counting kinds distributes over concatenation of traces. */
  lemma {:induction false} CountKindAppend(a: seq<Lookup>, b: seq<Lookup>, k: Kind)
    ensures CountKind(a + b, k) == CountKind(a, k) + CountKind(b, k)
  {
    if a == [] {
      assert a + b == b;
    } else {
      assert (a + b)[1..] == a[1..] + b;
      CountKindAppend(a[1..], b, k);
    }
  }

  /** A trace whose lookups are all of kind `j` holds `|t|` lookups of kind
      `j` and none of any other kind. */
  lemma {:induction false} CountKindUniform(t: seq<Lookup>, j: Kind, k: Kind)
    requires forall i :: 0 <= i < |t| ==> t[i].kind == j
    ensures CountKind(t, k) == if j == k then |t| else 0
  {
    if t != [] {
      CountKindUniform(t[1..], j, k);
    }
  }

  /** The seven-step plan holds four dataset lookups and one of each other kind. */
  lemma ConfigPlanCounts(c: HourlyFFDIWorkflowConfig, k: Kind)
    ensures CountKind(ConfigPlan(c), k) == if k == Dataset then 4 else 1
  {
    var datasets := InputsPlan(c.inputs);
    var people := [Lookup(Person, c.associations.person)];
    var organisations := [Lookup(Organisation, c.associations.organisation)];
    var templates := TemplatePlan(c.workflowConfiguration);
    assert ConfigPlan(c) == datasets + people + organisations + templates;
    CountKindAppend(datasets, people, k);
    CountKindAppend(datasets + people, organisations, k);
    CountKindAppend(datasets + people + organisations, templates, k);
    CountKindUniform(datasets, Dataset, k);
    CountKindUniform(people, Person, k);
    CountKindUniform(organisations, Organisation, k);
    CountKindUniform(templates, WorkflowTemplate, k);
  }

  /** On full success exactly seven lookups happen: four datasets, one
      person, one organisation and one workflow template. */
  lemma ValidateConfigSuccessCounts(c: HourlyFFDIWorkflowConfig, resolves: Lookup -> bool)
    requires ValidateConfig(c, resolves).ok
    ensures |ValidateConfig(c, resolves).trace| == 7
    ensures ValidateConfig(c, resolves).authCalls == 7
    ensures CountKind(ValidateConfig(c, resolves).trace, Dataset) == 4
    ensures CountKind(ValidateConfig(c, resolves).trace, Person) == 1
    ensures CountKind(ValidateConfig(c, resolves).trace, Organisation) == 1
    ensures CountKind(ValidateConfig(c, resolves).trace, WorkflowTemplate) == 1
  {
    ValidateConfigFollowsPlan(c, resolves);
    assert ValidateConfig(c, resolves).trace == ConfigPlan(c);
    ConfigPlanCounts(c, Dataset);
    ConfigPlanCounts(c, Person);
    ConfigPlanCounts(c, Organisation);
    ConfigPlanCounts(c, WorkflowTemplate);
  }

  /** If the first dataset does not resolve, validation stops after that
      single lookup: nothing else of the inputs, and no other group, is tried. */
  lemma FirstInputFailureStopsAtOnce(c: HourlyFFDIWorkflowConfig, resolves: Lookup -> bool)
    requires !resolves(Lookup(Dataset, c.inputs.hourlyTemperature))
    ensures ValidateConfig(c, resolves) == Verdict(false, [Lookup(Dataset, c.inputs.hourlyTemperature)], 1)
  {
  }

  /** If every input resolves but the person does not, validation stops right
      after the person lookup: neither the organisation nor the workflow
      template is looked up. */
  lemma PersonFailureSkipsRest(c: HourlyFFDIWorkflowConfig, resolves: Lookup -> bool)
    requires ValidateInputs(c.inputs, resolves).ok
    requires !resolves(Lookup(Person, c.associations.person))
    ensures !ValidateConfig(c, resolves).ok
    ensures ValidateConfig(c, resolves).trace == InputsPlan(c.inputs) + [Lookup(Person, c.associations.person)]
    ensures ValidateConfig(c, resolves).authCalls == 5
  {
  }

  /** A worked case: four datasets, a person and an organisation that resolve
      and a workflow template that does not. */
  function ScenarioConfig(): HourlyFFDIWorkflowConfig
  {
    HourlyFFDIWorkflowConfig(
      ModelInputs("ds1", "ds2", "ds3", "ds4"),
      ModelAssociations("p1", "o1"),
      ModelConfigurationEntities("wt1"))
  }

  predicate ScenarioRegistry(l: Lookup)
  {
    l.id != "wt1"
  }

  /** In the worked case validation fails on the seventh lookup, after six
      that succeeded. */
  lemma MissingTemplateScenario()
    ensures !ValidateConfig(ScenarioConfig(), ScenarioRegistry).ok
    ensures ValidateConfig(ScenarioConfig(), ScenarioRegistry).trace == ConfigPlan(ScenarioConfig())
    ensures ValidateConfig(ScenarioConfig(), ScenarioRegistry).authCalls == 7
  {
    var c := ScenarioConfig();
    var plan := ConfigPlan(c);
    assert forall i :: 0 <= i < 6 ==> ScenarioRegistry(plan[i]);
    ShortCircuitRunIsCheckAll(ScenarioRegistry, plan, Verdict(false, plan, 7));
    ValidateConfigFollowsPlan(c, ScenarioRegistry);
  }

  /** The example document `dump_example` writes: every identifier is the
      placeholder "TODO". */
  function ExampleConfig(): (c: HourlyFFDIWorkflowConfig)
    ensures forall i :: 0 <= i < |ConfigPlan(c)| ==> ConfigPlan(c)[i].id == "TODO"
  {
    HourlyFFDIWorkflowConfig(
      inputs := ModelInputs(
        hourlyTemperature := "TODO",
        relativeHumidity := "TODO",
        windSpeed := "TODO",
        dailyMcAdf := "TODO"),
      associations := ModelAssociations(person := "TODO", organisation := "TODO"),
      workflowConfiguration := ModelConfigurationEntities(workflowTemplate := "TODO"))
  }

  /** The example document passes validation exactly when the registry
      resolves the placeholder under all four kinds; otherwise it already
      fails on the first lookup the placeholder does not pass. */
  lemma ExampleConfigValidation(resolves: Lookup -> bool)
    ensures ValidateConfig(ExampleConfig(), resolves).ok <==>
              (forall k: Kind :: resolves(Lookup(k, "TODO")))
    ensures !resolves(Lookup(Dataset, "TODO")) ==>
              ValidateConfig(ExampleConfig(), resolves) == Verdict(false, [Lookup(Dataset, "TODO")], 1)
  {
    ValidateConfigIffAllResolve(ExampleConfig(), resolves);
    if !resolves(Lookup(Dataset, "TODO")) {
      FirstInputFailureStopsAtOnce(ExampleConfig(), resolves);
    }
    if AllResolve(resolves, ExampleConfig()) {
      forall k: Kind ensures resolves(Lookup(k, "TODO")) {
        match k
        case Dataset =>
        case Person =>
        case Organisation =>
        case WorkflowTemplate =>
      }
    }
  }
}

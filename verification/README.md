# Hourly FFDI workflow configuration: entity validation

A model of the semantic validation pass of the hourly FFDI (Forest Fire
Danger Index) workflow configuration in `workflow_config.py`. The document
names seven registry entities: four input datasets, a person, an
organisation and a model run workflow template. `validate_entities` checks
that each one exists in the registry. It makes one fetch per identifier, in
a fixed order, and returns `False` at the first fetch that raises an
`Exception`.

- `registry.dfy` (module `Registry`) models the registry as the validation
  pass sees it. A `Lookup` is a fetch operation (`Kind`) paired with an
  identifier. `resolves: Lookup -> bool` is an oracle that says whether the
  fetch returns or raises an `Exception`. A `Verdict` holds three things:
  the boolean the source returns, the lookups it attempted in order, and how
  many times it called the credential factory `auth()`.
  - `Lookups` turns an id list from the source into lookups of one kind.
  - `CheckAll` is the shared "for each id: fetch, return False on
    exception" loop. `ValidateIds` is the same loop written imperatively and
    proved equal to `CheckAll`.
  - `IsShortCircuitRun` is an independent definition of what such a run
    must look like. `CheckAllIsShortCircuitRun` and
    `ShortCircuitRunIsCheckAll` prove the two directions, and
    `CheckAllCharacterised` combines them.
- `workflow_config.dfy` (module `WorkflowConfig`) holds the four document
  datatypes and one validation function per `validate_entities`.
  - The reference lookup orders are `InputsPlan`, `AssociationsPlan` and
    `TemplatePlan` for the groups' id lists (workflow_config.py:35-40,
    66-72, 102-104). `ConfigPlan` is the flat seven-step order
    (workflow_config.py:151-166).
  - Lemmas tie the nested group structure to `ConfigPlan`.
  - `ExampleConfig` is the example document that `dump_example` builds.

Behaviour the model takes from the code:
- Validation is a pure function of the document and the oracle, so it
  cannot change the document's fields.
- Identifier fields are plain `str` and nothing checks for emptiness
  (workflow_config.py:18-30, 58-61, 97), so the model accepts any string.
- `auth()` is evaluated as an argument of every fetch (workflow_config.py:45,
  77, 86, 109), so the model counts one credential call per attempted lookup.
- `auth()` runs inside the same `try` as the fetch. A credential failure
  therefore also becomes `False` for that identifier. The lookup still
  appears in the trace and still counts one credential call.

## Model

| member | source | states |
|---|---|---|
| Registry.Lookups | workflow_config.py:35-45 | One lookup per listed identifier, in list order, each with the group's single fetch kind. |
| Registry.CheckAll | workflow_config.py:42-51 | The per-group loop makes one credential call per attempted lookup and never more lookups than planned. A passing loop attempted every planned lookup. |
| Registry.CheckAllIsShortCircuitRun | workflow_config.py:42-51 | The loop is a short-circuiting run of its plan. It passes iff every planned lookup resolves, and its trace is the prefix of the plan up to and including the first failure. |
| Registry.ShortCircuitRunIsCheckAll | workflow_config.py:42-51 | Any verdict that meets the short-circuit definition is the loop's own verdict, so nothing else could be returned. |
| Registry.CheckAllCharacterised | workflow_config.py:42-51 | A verdict is the loop's result if and only if it is a short-circuiting run of the plan. |
| Registry.ValidateIds | workflow_config.py:42-51 | The imperative loop with early `return False` computes the same verdict, trace and credential count as the functional loop. |
| Registry.AndThen | workflow_config.py:151-172 | Sequencing two checks with early return. The result is the conjunction, and a failing first check is returned unchanged. |
| Registry.CheckAllAppend | workflow_config.py:74-92 | Two early-return loops run back to back behave like one loop over the concatenated lookups. |
| Registry.RunFollowsPlan | workflow_config.py:42-49 | Every attempted lookup is the planned lookup at its position, there are no more lookups than planned, and a non-empty plan always gets at least one attempt. |
| WorkflowConfig.ValidateInputs | workflow_config.py:32-51 | Dataset fetches for hourly_temperature, relative_humidity, wind_speed and daily_mc_adf, in that order, stopping at the first failure. The group passes iff all four resolve as datasets. It makes 1 to 4 lookups, all of kind Dataset. |
| WorkflowConfig.ValidateAssociations | workflow_config.py:63-92 | A person fetch followed by an organisation fetch, stopping at the first failure. The group passes iff both resolve. A failing person means the organisation is never fetched. |
| WorkflowConfig.ValidateConfigurationEntities | workflow_config.py:99-115 | Exactly one workflow template fetch. The group passes iff the template resolves. |
| WorkflowConfig.ValidateConfig | workflow_config.py:148-172 | The top-level result is the ordered conjunction of the three group results. A failing inputs group is returned as is. A failing associations group ends the trace after the associations lookups. |
| WorkflowConfig.ValidateConfigFollowsPlan | workflow_config.py:148-172 | The nested groups make exactly the short-circuiting run of the flat seven-step order: four datasets, then person, organisation, workflow template. |
| WorkflowConfig.ValidateConfigIffAllResolve | workflow_config.py:148-172 | Top-level validation returns true iff all seven identifiers resolve under their kind-specific fetch. |
| WorkflowConfig.ValidateConfigKinds | workflow_config.py:148-172 | For any registry, the run makes 1 to 7 lookups. The kind at each position follows the fixed order, and credential calls equal lookups. |
| WorkflowConfig.FailedGroupSkipsLaterGroups | workflow_config.py:151-163 | If inputs fail, only datasets are looked up. If associations fail, no workflow template is looked up. |
| WorkflowConfig.ValidateConfigSuccessCounts | workflow_config.py:148-172 | A passing validation made exactly 7 lookups and 7 credential calls: 4 Dataset, 1 Person, 1 Organisation, 1 WorkflowTemplate. |
| WorkflowConfig.FirstInputFailureStopsAtOnce | workflow_config.py:151-156 | An unresolvable hourly_temperature dataset fails validation after that one lookup and one credential call. |
| WorkflowConfig.PersonFailureSkipsRest | workflow_config.py:74-81 | If all inputs resolve but the person does not, validation fails after the four dataset lookups and the person lookup. Neither organisation nor template is fetched. |
| WorkflowConfig.MissingTemplateScenario | workflow_config.py:165-170 | Case ds1..ds4, p1 and o1 resolve but wt1 does not. Validation fails after six successful lookups and one failed lookup. |
| WorkflowConfig.ExampleConfig | workflow_config.py:128-142 | The example document has all seven identifier fields equal to "TODO". |
| WorkflowConfig.ExampleConfigValidation | workflow_config.py:128-142 | The example passes validation iff the registry resolves "TODO" under every kind. If "TODO" is not a dataset, it fails on the first lookup. |

## Left out

- `load_config` and pydantic's `parse_file` (workflow_config.py:175-196): file reading, JSON parsing and runtime schema checking belong to libraries outside this model. A parsed configuration is simply a value of `HourlyFFDIWorkflowConfig`.
- `pprint` and the JSON serialisation and file writing in `dump_example` (workflow_config.py:123-124, 144-146): key order and indentation come from the `json` and pydantic libraries. Only the in-memory example document is modelled (`ExampleConfig`).
- The registry fetch calls and bearer token acquisition: both are network I/O. They are abstracted as the `resolves` oracle, plus a count of credential calls. The oracle is deterministic, so a registry whose answer changes between two fetches of the same identifier is not modelled.
- The registry endpoint string: it is passed unchanged to every fetch, so it is folded into the oracle.
- Validation that raises or never returns: the handlers catch only `Exception` (workflow_config.py:46, 78, 87, 110), so a `BaseException` such as `KeyboardInterrupt` escapes `validate_entities`, and a fetch may block forever. The `resolves` oracle is total, so the model has no outcome where validation raises or does not terminate.
- The different exception kinds (not found, unauthorised, transport): the code collapses all of them to `False`, and so does the model.
- `print` diagnostics and exception message texts, including the repeated "Validating registered associations..." message in the configuration-entities group. They have no behavioural contract.
- The `__main__` entry point (workflow_config.py:199-200), which only calls `dump_example` with a fixed path.

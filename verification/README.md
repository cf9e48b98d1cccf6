# Agentic evaluation sandbox — Dafny model

This project models the core of the agentic evaluation sandbox (`aes`). The
sandbox loads a scenario (a header, ordered roles and ordered steps) from a
parsed JSON/YAML document. It then runs a stubbed simulation that makes up one
"Doer" action and one "Judge" approval per step. Finally it writes the run as a
JSON artifact and appends a five-field summary line to an evidence log.

Modules. The first three are support with no Python module of their own; the rest follow
`src/aes/`:

- `Wrappers`: `Option` and `Result`.
- `Json`: the parsed document (`Value`), plus Python truth testing and `str()` coercion.
- `Decimal`: Python's decimal formatting of naturals and its inverse parser.
- `Models`: `Role`, `Step`, `Scenario` and `RunRecord`, from `src/aes/models.py`. The
  dataclass defaults are default constructor arguments. `Step` has none.
  `Event` is the per-step dict built in `src/aes/runner.py:18-23`, given a datatype of its own.
- `Loader`: `load_scenario` as a function `Load(doc, render): Result<Scenario, LoadError>`, defined on the
  documents that do not crash Python (`Loadable`).
- `Runner`: `simulate_run` as `Simulate`. The two clock readings and the generated UUID are
  parameters.
- `Evidence`: `write_run_artifacts` over an abstract output tree. Run artifacts and evidence
  logs are maps from path to JSON values; a path is a sequence of components.
- `Cli`: the `run` subcommand, which chains load, simulate and write.

Python's `str()` is modelled concretely for strings (unchanged), `None`
(`"None"`), booleans (`"True"`/`"False"`) and integers (signed decimal). Floats,
lists and dicts get their text from `render`, an uninterpreted function
parameter.

Points of the code worth knowing:

- `or []` (src/aes/loader.py:32-33) empties every falsy value: null, `0`, `0.0`, `""`, `false`,
  `[]` and `{}`.
- The two `ValueError` texts are "Scenario file must contain a JSON/YAML object"
  (src/aes/loader.py:26) and "Scenario must include at least one step" (src/aes/loader.py:39).
- When PyYAML is missing, a `.yaml` file is passed to `json.loads` (src/aes/loader.py:17-20).
  Parsing itself is outside the model.

## Model

| member | source | states |
|---|---|---|
| Json.Get | src/aes/loader.py:28-30 | `dict.get` finds a value exactly when the key is present, and finds the value stored under it |
| Json.Truthy | src/aes/loader.py:32-33 | a value is truthy exactly when it is not null, `false`, `0`, `0.0`, `""`, `[]` or `{}`, which decides whether `or []` replaces it |
| Json.ToStr | src/aes/loader.py:28-30 | `str()` returns strings unchanged, maps `None` to "None" and booleans to "True"/"False", and gives integers a sign plus decimal digits that parse back to the integer; floats, lists and dicts are left to `render` |
| Decimal.Format | src/aes/loader.py:36 | the decimal text of a natural is canonical: non-empty, digits only, and no leading zero |
| Decimal.ParseFormat | src/aes/runner.py:25 | the count written into a summary or step id can be read back exactly |
| Decimal.FormatParse | src/aes/loader.py:36 | every canonical digit string is the text of exactly one natural |
| Decimal.FormatInjective | src/aes/loader.py:36 | different positions never get the same decimal text |
| Models.RoleDefaults | src/aes/models.py:7-10 | a role built from only a name has an empty description |
| Models.ScenarioDefaults | src/aes/models.py:19-25 | a scenario built without roles and steps has empty sequences for both; the datatype does not require any steps |
| Models.RunRecordDefaults | src/aes/models.py:28-39 | a run record built without `success` and `notes` is successful and has no notes |
| Loader.LoadError.Message | src/aes/loader.py:25-39 | the two `ValueError` texts, "Scenario file must contain a JSON/YAML object" for a non-object and "Scenario must include at least one step" for no steps, each naming exactly one error |
| Loader.Entries | src/aes/loader.py:32-33 | `get(key, []) or []` yields no entries when the key is absent or its value is falsy, and otherwise yields the list's own non-empty items |
| Loader.Field | src/aes/loader.py:28-30 | the default is used only when the key is absent; a present value is coerced with `str()`, and that includes `null` |
| Loader.LoadRoles | src/aes/loader.py:35 | one role per entry, same length and order; a missing name becomes "Role" and a missing description becomes "" |
| Loader.LoadSteps | src/aes/loader.py:36 | one step per entry, same length and order; a step with no "id" gets "step-" plus its 1-based position, and a step with no "goal" gets "" |
| Loader.Load | src/aes/loader.py:23-41 | it fails with NotAnObject exactly when the document is not an object, and with NoSteps exactly when the steps resolve to none; every success has at least one step and exactly the defaulted id, title, description, roles and steps |
| Loader.LoadPresentNull | src/aes/loader.py:28-30 | a header key that is present with null reads "None", not the default |
| Loader.LoadFalsyRoles | src/aes/loader.py:32 | an absent, null or otherwise falsy "roles" gives no roles |
| Loader.DefaultStepIdsDistinct | src/aes/loader.py:36 | two steps that both take the positional default id never share an id |
| Loader.DefaultStepIdInjective | src/aes/loader.py:36 | "step-" ids for different positions differ |
| Loader.LoadDocument | src/aes/loader.py:28-41 | loading a scenario's own document returns that scenario, whatever `render` does, as long as it has a step |
| Loader.LoadMinimalExample | src/aes/loader.py:28-41 | `{"steps": [{"goal": "g"}]}` loads with every header default and the single step "step-1" |
| Runner.SelectRunId | src/aes/runner.py:12 | the caller's run id is used when it is present and non-empty; otherwise, when it is missing or "", the fresh id is used |
| Runner.DoerAction | src/aes/runner.py:16 | the doer text is `doer: completed goal '` followed by the goal and a closing quote, and the goal can be read back from it |
| Runner.JudgeAction | src/aes/runner.py:17 | the judge text is `judge: approved '` followed by the step id and a closing quote, and the id can be read back from it |
| Runner.Summary | src/aes/runner.py:25 | the summary is "Executed ", the count in decimal, then " steps with stubbed Doer/Judge", and the count can be read back from it |
| Runner.Events | src/aes/runner.py:14-23 | one event per step, in step order; each event copies the step's id and goal and has the fixed-format doer and judge texts |
| Runner.Simulate | src/aes/runner.py:10-45 | same number and order of events as steps; the scenario id and title are copied; the summary reports the step count; the outputs are the constant stub score; timestamps come from the clock readings; success is true and notes are None; a scenario with steps gives a run with events |
| Runner.EventActionsEmbedStep | src/aes/runner.py:16-17 | the goal can be read back from each event's doer text, and the step id from its judge text |
| Runner.SummaryReportsStepCount | src/aes/runner.py:25 | the count read back from the summary equals the number of steps |
| Runner.EventsRecoverSteps | src/aes/runner.py:14-23 | the recorded events give back exactly the scenario's steps, in order |
| Evidence.EventsToValues | src/aes/evidence.py:19 | each event is serialised as its own dict, in order |
| Evidence.RecordToValue | src/aes/evidence.py:19 | `run.__dict__` has exactly the ten field names as keys, writes absent notes as null, and holds the serialised events, the outputs and the success flag |
| Evidence.EventsRoundTrip | src/aes/evidence.py:19 | reading the serialised events back gives the events |
| Evidence.EventRoundTrip | src/aes/evidence.py:19 | reading one serialised event back gives the event |
| Evidence.RecordRoundTrip | src/aes/evidence.py:19 | reading a run artifact back gives the run record, field for field |
| Evidence.LogEntry | src/aes/evidence.py:23-29 | the evidence line has exactly the keys run_id, scenario_id, summary, success and outputs, each equal to the run's field |
| Evidence.LogEntryIsProjection | src/aes/evidence.py:23-29 | the evidence line is the artifact restricted to those five keys, so steps, title, timestamps and notes are left out |
| Evidence.WriteRunArtifacts | src/aes/evidence.py:16-31 | it returns `<out>/runs/<run_id>.json` and `<out>/evidence.jsonl`; the artifact there is exactly `run.__dict__` (`RecordToValue`), reads back as the run, and replaces any earlier one; other artifacts are unchanged; the log is the old log (or empty) plus exactly one entry; other logs are unchanged |
| Evidence.ArtifactIsNotLog | src/aes/evidence.py:18-21 | a run artifact path never equals an evidence log path, so the two writes never touch the same file |
| Evidence.TwoWritesAppendInOrder | src/aes/evidence.py:22-29 | two runs written into one directory add their entries after the existing log, in call order |
| Evidence.SameRunIdOverwrites | src/aes/evidence.py:18-19 | a second run with the same run id replaces the first run's artifact |
| Cli.RunCommand | src/aes/cli.py:27-33 | a loader error propagates unchanged and nothing is written; otherwise the artifact holds the simulated run and the log gains exactly its entry |
| Cli.RunCommandOfLoaded | src/aes/cli.py:28-30 | after a successful load, the command writes the simulation of the loaded scenario |
| Cli.RunCommandLogsScenario | src/aes/cli.py:28-30 | after a successful load, the command appends exactly one evidence entry after the existing log, naming the loaded scenario's id and reporting success |
| Cli.RunCommandRecordsSteps | tests/test_aes_cli.py:17-28 | for every document on which the command succeeds, a run artifact and an evidence log exist, and the artifact reads back as a run with non-empty steps and success true |
| Cli.ExampleLoads | src/aes/loader.py:23-41 | an example document with id "s1", title "T" and steps "a" and "b" loads to exactly that scenario |
| Cli.EndToEndArtifact | src/aes/cli.py:27-33 | running that example document into "tmp" leaves a successful artifact for "s1" whose events are "a" then "b" |
| Cli.EndToEndEvidence | src/aes/cli.py:27-33 | running that example document appends exactly one line to "tmp/evidence.jsonl", naming "s1" and reporting success |

## Left out

- Reading the scenario file and choosing a parser (`_read_structured_file`, src/aes/loader.py:15-20): these are file I/O and foreign JSON/YAML libraries. The loader starts from the parsed value.
- YAML-only scalars such as dates: the parsed value covers JSON's types only.
- Float values: `Float` holds a mathematical real. NaN and Infinity cannot be represented at all. `-0.0` and `0.0`
  are one value, so `str()` cannot tell them apart, although Python prints "-0.0" and "0.0".
- Json.ToStr: the text Python's `str()` gives floats, lists and dicts comes from an uninterpreted `render`. Python's `repr` rules are not modelled.
- Documents the loader crashes on: a truthy `roles`/`steps` value that is not a list, or an entry that is not a dict. Python raises a type or attribute error there rather than a validation error. `Loader.Loadable` excludes these documents with a precondition.
- `uuid.uuid4()` and `datetime.now(...).isoformat()` (src/aes/runner.py:11-12,33): the fresh id and both timestamps are parameters.
- `ensure_out_dirs` (src/aes/evidence.py:9-13): directory creation is not modelled, and the output tree is only the artifacts and logs.
- Evidence.WriteRunArtifacts: `json.dumps` text, indentation and the trailing newline are not modelled; files hold JSON values.
- Path normalisation: paths are component sequences. A run id containing a separator or an absolute path is not resolved the way pathlib would.
- I/O failures and partial writes, such as an artifact written but the log append failing, are not modelled.
- Concurrent appends to the evidence log: these are uncoordinated in the source.
- `build_parser`, argument parsing, the printed confirmation lines and the `return 1` branch of `main` (src/aes/cli.py:12-20,31-36): these are argparse wiring and printing. The branch is unreachable because the subcommand is required.

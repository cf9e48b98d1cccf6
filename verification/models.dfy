/** The records of src/aes/models.py. Python dataclass defaults become
    default constructor arguments, so `Role("Doer")` has an empty
    description and a `RunRecord` built without `success` or `notes` is
    successful and has no notes. `Step` has no defaults: both fields must be
    given. */
module Models {
  import opened Wrappers
  import opened Json

  datatype Role = Role(name: string, description: string := "")

  datatype Step = Step(id: string, goal: string)

  /** A scenario: descriptive header plus ordered roles and steps. The
      datatype itself allows an empty step list; only loading rejects it. */
  datatype Scenario = Scenario(
    id: string,
    title: string,
    description: string,
    roles: seq<Role> := [],
    steps: seq<Step> := [])

  /** One simulated step execution. The source builds it as a dict with
      the keys "step_id", "goal", "doer" and "judge". */
  datatype Event = Event(stepId: string, goal: string, doer: string, judge: string)

  /** The result of one simulated run. `outputs` is an arbitrary dict in the
      source and is kept as a parsed value here. */
  datatype RunRecord = RunRecord(
    runId: string,
    scenarioId: string,
    scenarioTitle: string,
    summary: string,
    steps: seq<Event>,
    outputs: Value,
    startedAt: string,
    completedAt: string,
    success: bool := true,
    notes: Option<string> := None)

  /** A role built from its name alone has an empty description. */
  lemma RoleDefaults(name: string)
    ensures Role(name).description == ""
    ensures Role(name) == Role(name, "")
  {
  }

  /** A scenario built without roles or steps has empty sequences for
      both, and nothing forces the step list to be non-empty. */
  lemma ScenarioDefaults(id: string, title: string, description: string)
    ensures Scenario(id, title, description).roles == []
    ensures Scenario(id, title, description).steps == []
  {
  }

  /** A run record built without `success` and `notes` is successful and
      carries no notes. */
  lemma RunRecordDefaults(runId: string, scenarioId: string, scenarioTitle: string, summary: string,
                          steps: seq<Event>, outputs: Value, startedAt: string, completedAt: string)
    ensures RunRecord(runId, scenarioId, scenarioTitle, summary, steps, outputs, startedAt, completedAt).success
    ensures RunRecord(runId, scenarioId, scenarioTitle, summary, steps, outputs, startedAt, completedAt).notes == None
  {
  }
}

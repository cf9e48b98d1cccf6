/** `simulate_run` (src/aes/runner.py): a stubbed run that fabricates one
    Doer action and one Judge approval per step. The two clock readings and
    the freshly generated UUID are parameters, so the simulation is a pure
    function. */
module Runner {
  import opened Wrappers
  import opened Json
  import Decimal
  import opened Models

  /** `run_id or str(uuid.uuid4())`: the caller's id unless it is missing or
      empty. */
  function SelectRunId(runId: Option<string>, freshId: string): (r: string)
    ensures runId.Some? && runId.value != "" ==> r == runId.value
    ensures runId == None || runId == Some("") ==> r == freshId
  {
    match runId
    case Some(id) => if id != "" then id else freshId
    case None => freshId
  }

  const DoerPrefix := "doer: completed goal '"
  const JudgePrefix := "judge: approved '"
  const SummaryPrefix := "Executed "
  const SummarySuffix := " steps with stubbed Doer/Judge"

  /** The fabricated Doer action for a goal: the goal quoted after a fixed
      prefix, so that it can be read back. */
  function DoerAction(goal: string): (r: string)
    ensures |r| == |DoerPrefix| + |goal| + 1
    ensures r[..|DoerPrefix|] == DoerPrefix && r[|r| - 1] == '\''
    ensures DoerGoal(r) == Some(goal)
  {
    QuotedRoundTrip(DoerPrefix, goal);
    DoerPrefix + goal + "'"
  }

  /** The fabricated Judge verdict for a step id: the id quoted after a
      fixed prefix, so that it can be read back. */
  function JudgeAction(stepId: string): (r: string)
    ensures |r| == |JudgePrefix| + |stepId| + 1
    ensures r[..|JudgePrefix|] == JudgePrefix && r[|r| - 1] == '\''
    ensures JudgedStep(r) == Some(stepId)
  {
    QuotedRoundTrip(JudgePrefix, stepId);
    JudgePrefix + stepId + "'"
  }

  /** The run summary for `count` executed steps: the count in decimal
      between fixed words, so that it can be read back. */
  function Summary(count: nat): (r: string)
    ensures |r| > |SummaryPrefix| + |SummarySuffix|
    ensures r[..|SummaryPrefix|] == SummaryPrefix
    ensures r[|r| - |SummarySuffix|..] == SummarySuffix
    ensures SummaryCount(r) == Some(count)
  {
    SummaryRoundTrip(count);
    SummaryPrefix + Decimal.Format(count) + SummarySuffix
  }

  /** `{"score": {"success": True, "reason": "deterministic stub"}}`. */
  const StubOutputs: Value :=
    Object(map["score" := Object(map["success" := Bool(true), "reason" := Str("deterministic stub")])])

  /** The event loop: one event per step, in step order. */
  function Events(steps: seq<Step>): (r: seq<Event>)
    ensures |r| == |steps|
    ensures forall i | 0 <= i < |r| ::
      && r[i].stepId == steps[i].id
      && r[i].goal == steps[i].goal
      && r[i].doer == DoerAction(steps[i].goal)
      && r[i].judge == JudgeAction(steps[i].id)
  {
    if steps == [] then []
    else
      var step := steps[0];
      [Event(step.id, step.goal, DoerAction(step.goal), JudgeAction(step.id))] + Events(steps[1..])
  }

  /** `simulate_run`, with the clock readings and the generated UUID given. */
  function Simulate(scenario: Scenario, runId: Option<string>, freshId: string,
                    startedAt: string, completedAt: string): (r: RunRecord)
    ensures r.runId == SelectRunId(runId, freshId)
    ensures r.scenarioId == scenario.id && r.scenarioTitle == scenario.title
    ensures |r.steps| == |scenario.steps|
    ensures forall i | 0 <= i < |r.steps| ::
      && r.steps[i].stepId == scenario.steps[i].id
      && r.steps[i].goal == scenario.steps[i].goal
      && r.steps[i].doer == DoerAction(scenario.steps[i].goal)
      && r.steps[i].judge == JudgeAction(scenario.steps[i].id)
    ensures r.summary == Summary(|scenario.steps|)
    ensures r.outputs == StubOutputs
    ensures r.startedAt == startedAt && r.completedAt == completedAt
    ensures r.success && r.notes == None
    ensures |scenario.steps| > 0 ==> r.steps != []
  {
    var events := Events(scenario.steps);
    RunRecord(
      runId := SelectRunId(runId, freshId),
      scenarioId := scenario.id,
      scenarioTitle := scenario.title,
      summary := Summary(|events|),
      steps := events,
      outputs := StubOutputs,
      startedAt := startedAt,
      completedAt := completedAt,
      success := true,
      notes := None)
  }

  /** Strips `prefix` and a closing quote from `s`, if both are there. */
  function Quoted(prefix: string, s: string): (r: Option<string>)
    ensures r.Some? ==> s == prefix + r.value + "'"
  {
    if |s| >= |prefix| + 1 && s[..|prefix|] == prefix && s[|s| - 1] == '\'' then
      var inner := s[|prefix|..|s| - 1];
      assert s == s[..|prefix|] + inner + [s[|s| - 1]];
      Some(inner)
    else None
  }

  /** The goal a Doer action reports, read back from its text. */
  function DoerGoal(doer: string): Option<string> {
    Quoted(DoerPrefix, doer)
  }

  /** The step id a Judge verdict approves, read back from its text. */
  function JudgedStep(judge: string): Option<string> {
    Quoted(JudgePrefix, judge)
  }

  /** The step count a summary reports, read back from its text. */
  function SummaryCount(summary: string): Option<nat> {
    var lo := |SummaryPrefix|;
    var hi := |summary| - |SummarySuffix|;
    if lo <= hi && summary[..lo] == SummaryPrefix && summary[hi..] == SummarySuffix then
      Decimal.Parse(summary[lo..hi])
    else None
  }

  /** Quoting after a prefix is undone by `Quoted`. */
  lemma QuotedRoundTrip(prefix: string, inner: string)
    ensures Quoted(prefix, prefix + inner + "'") == Some(inner)
  {
  }

  lemma SummaryRoundTrip(n: nat)
    ensures SummaryCount(SummaryPrefix + Decimal.Format(n) + SummarySuffix) == Some(n)
  {
  }

  /** The Doer and Judge texts embed the goal and the step id recoverably:
      each event's goal and step id can be read back from its actions. */
  lemma EventActionsEmbedStep(scenario: Scenario, runId: Option<string>, freshId: string,
                              startedAt: string, completedAt: string, i: nat)
    requires i < |scenario.steps|
    ensures DoerGoal(Simulate(scenario, runId, freshId, startedAt, completedAt).steps[i].doer)
            == Some(scenario.steps[i].goal)
    ensures JudgedStep(Simulate(scenario, runId, freshId, startedAt, completedAt).steps[i].judge)
            == Some(scenario.steps[i].id)
  {
  }

  /** The summary reports exactly the number of steps executed. */
  lemma SummaryReportsStepCount(scenario: Scenario, runId: Option<string>, freshId: string,
                                startedAt: string, completedAt: string)
    ensures SummaryCount(Simulate(scenario, runId, freshId, startedAt, completedAt).summary)
            == Some(|scenario.steps|)
  {
  }

  /** The step an event was made from. */
  function StepOf(e: Event): Step {
    Step(e.stepId, e.goal)
  }

  /** The recorded events give back the scenario's steps, in order: the
      simulation neither drops, adds nor reorders steps. */
  lemma EventsRecoverSteps(scenario: Scenario, runId: Option<string>, freshId: string,
                           startedAt: string, completedAt: string)
    ensures
      var events := Simulate(scenario, runId, freshId, startedAt, completedAt).steps;
      seq(|events|, i requires 0 <= i < |events| => StepOf(events[i])) == scenario.steps
  {
  }
}

/** The `run` subcommand of src/aes/cli.py: load, simulate, write. Argument
    parsing and the two confirmation lines printed afterwards are not
    modelled; a loader error propagates before anything is written. */
module Cli {
  import opened Wrappers
  import opened Json
  import opened Models
  import opened Loader
  import opened Runner
  import opened Evidence

  function RunCommand(doc: Value, render: Value -> string, outDir: Path, runId: Option<string>,
                      freshId: string, startedAt: string, completedAt: string, st: OutputState)
    : (r: Result<WriteResult, LoadError>)
    requires Loadable(doc)
    ensures r.Failure? <==> Load(doc, render).Failure?
    ensures r.Failure? ==> r.error == Load(doc, render).error
    ensures r.Success? ==>
      var run := Simulate(Load(doc, render).value, runId, freshId, startedAt, completedAt);
      && r.value.runPath == ArtifactPath(outDir, run.runId)
      && r.value.evidencePath == EvidencePath(outDir)
      && r.value.runPath in r.value.state.artifacts
      && r.value.evidencePath in r.value.state.logs
      && RecordFromValue(r.value.state.artifacts[r.value.runPath]) == Some(run)
      && var before := if r.value.evidencePath in st.logs then st.logs[r.value.evidencePath] else [];
         r.value.state.logs[r.value.evidencePath] == before + [LogEntry(run)]
  {
    match Load(doc, render)
    case Failure(e) => Failure(e)
    case Success(scenario) =>
      var run := Simulate(scenario, runId, freshId, startedAt, completedAt);
      Success(WriteRunArtifacts(run, outDir, st))
  }

  lemma RunCommandOfLoaded(doc: Value, render: Value -> string, scenario: Scenario, outDir: Path,
                           runId: Option<string>, freshId: string, startedAt: string, completedAt: string,
                           st: OutputState)
    requires Loadable(doc) && Load(doc, render) == Success(scenario)
    ensures RunCommand(doc, render, outDir, runId, freshId, startedAt, completedAt, st)
            == Success(WriteRunArtifacts(Simulate(scenario, runId, freshId, startedAt, completedAt), outDir, st))
  {
  }

  /** Whatever document is run, a successful command leaves a run artifact
      and an evidence log; the artifact reads back as a successful run, and
      it has events whenever the scenario loaded, which always has steps. */
  lemma RunCommandRecordsSteps(doc: Value, render: Value -> string, outDir: Path, runId: Option<string>,
                               freshId: string, startedAt: string, completedAt: string, st: OutputState)
    requires Loadable(doc)
    requires RunCommand(doc, render, outDir, runId, freshId, startedAt, completedAt, st).Success?
    ensures
      var w := RunCommand(doc, render, outDir, runId, freshId, startedAt, completedAt, st).value;
      && w.runPath in w.state.artifacts
      && w.evidencePath in w.state.logs
      && RecordFromValue(w.state.artifacts[w.runPath]).Some?
      && RecordFromValue(w.state.artifacts[w.runPath]).value.steps != []
      && RecordFromValue(w.state.artifacts[w.runPath]).value.success
  {
  }

  /** A successful command appends one entry that names the loaded
      scenario and reports success. */
  lemma RunCommandLogsScenario(doc: Value, render: Value -> string, outDir: Path, runId: Option<string>,
                               freshId: string, startedAt: string, completedAt: string, st: OutputState)
    requires Loadable(doc) && Load(doc, render).Success?
    ensures
      var r := RunCommand(doc, render, outDir, runId, freshId, startedAt, completedAt, st);
      var before := if EvidencePath(outDir) in st.logs then st.logs[EvidencePath(outDir)] else [];
      && r.Success?
      && r.value.evidencePath == EvidencePath(outDir)
      && EvidencePath(outDir) in r.value.state.logs
      && |r.value.state.logs[EvidencePath(outDir)]| == |before| + 1
      && r.value.state.logs[EvidencePath(outDir)][..|before|] == before
      && r.value.state.logs[EvidencePath(outDir)][|before|].Object?
      && r.value.state.logs[EvidencePath(outDir)][|before|].fields["scenario_id"] == Str(Load(doc, render).value.id)
      && r.value.state.logs[EvidencePath(outDir)][|before|].fields["success"] == Bool(true)
  {
  }

  /** An example document: id "s1", title "T", steps "a" and "b". */
  function ExampleDocument(): Value {
    Object(map[
      "id" := Str("s1"),
      "title" := Str("T"),
      "steps" := List([Object(map["id" := Str("a"), "goal" := Str("do X")]),
                       Object(map["id" := Str("b"), "goal" := Str("do Y")])])])
  }

  lemma ExampleLoads(render: Value -> string)
    ensures Loadable(ExampleDocument())
    ensures Load(ExampleDocument(), render)
            == Success(Scenario("s1", "T", "", [], [Step("a", "do X"), Step("b", "do Y")]))
  {
    var doc := ExampleDocument();
    var steps := LoadSteps(Entries(doc.fields, "steps"), 1, render);
    assert steps == [Step("a", "do X"), Step("b", "do Y")];
  }

  /** The example document run into "tmp": the artifact records the
      events of "a" then "b" for scenario "s1" and reports success. */
  lemma EndToEndArtifact(render: Value -> string, runId: Option<string>, freshId: string,
                         startedAt: string, completedAt: string, st: OutputState)
    ensures Loadable(ExampleDocument())
    ensures
      var r := RunCommand(ExampleDocument(), render, ["tmp"], runId, freshId, startedAt, completedAt, st);
      && r.Success?
      && r.value.runPath in r.value.state.artifacts
      && RecordFromValue(r.value.state.artifacts[r.value.runPath]).Some?
      && (var run := RecordFromValue(r.value.state.artifacts[r.value.runPath]).value;
          |run.steps| == 2 && run.steps[0].stepId == "a" && run.steps[1].stepId == "b"
          && run.scenarioId == "s1" && run.success)
  {
    ExampleLoads(render);
    var scenario := Scenario("s1", "T", "", [], [Step("a", "do X"), Step("b", "do Y")]);
    var run := Simulate(scenario, runId, freshId, startedAt, completedAt);
    var w := WriteRunArtifacts(run, ["tmp"], st);
    RunCommandOfLoaded(ExampleDocument(), render, scenario, ["tmp"], runId, freshId, startedAt, completedAt, st);
    assert RecordFromValue(w.state.artifacts[w.runPath]) == Some(run);
  }

  /** The same run appends exactly one line to "tmp/evidence.jsonl", after
      the lines already there, naming scenario "s1" and reporting
      success. */
  lemma EndToEndEvidence(render: Value -> string, runId: Option<string>, freshId: string,
                         startedAt: string, completedAt: string, st: OutputState)
    ensures Loadable(ExampleDocument())
    ensures
      var r := RunCommand(ExampleDocument(), render, ["tmp"], runId, freshId, startedAt, completedAt, st);
      var logPath := ["tmp", "evidence.jsonl"];
      var before := if logPath in st.logs then st.logs[logPath] else [];
      && r.Success?
      && r.value.evidencePath == logPath
      && logPath in r.value.state.logs
      && |r.value.state.logs[logPath]| == |before| + 1
      && r.value.state.logs[logPath][..|before|] == before
      && r.value.state.logs[logPath][|before|].Object?
      && r.value.state.logs[logPath][|before|].fields["scenario_id"] == Str("s1")
      && r.value.state.logs[logPath][|before|].fields["success"] == Bool(true)
  {
    ExampleLoads(render);
    assert EvidencePath(["tmp"]) == ["tmp", "evidence.jsonl"];
    RunCommandLogsScenario(ExampleDocument(), render, ["tmp"], runId, freshId, startedAt, completedAt, st);
  }
}

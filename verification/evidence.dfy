/** `write_run_artifacts` (src/aes/evidence.py) over an abstract output
    tree: run artifacts keyed by path, and evidence logs keyed by path, each
    a sequence of JSON lines. File contents are kept as the JSON values that
    `json.dumps` serialises; text formatting is not modelled. */
module Evidence {
  import opened Wrappers
  import opened Json
  import opened Models

  /** A filesystem path as its sequence of components. */
  type Path = seq<string>

  function ArtifactPath(outDir: Path, runId: string): Path {
    outDir + ["runs", runId + ".json"]
  }

  function EvidencePath(outDir: Path): Path {
    outDir + ["evidence.jsonl"]
  }

  /** The files the writer produces: whole-run artifacts and evidence logs. */
  datatype OutputState = OutputState(artifacts: map<Path, Value>, logs: map<Path, seq<Value>>)

  datatype WriteResult = WriteResult(runPath: Path, evidencePath: Path, state: OutputState)

  function EventToValue(e: Event): Value {
    Object(map["step_id" := Str(e.stepId), "goal" := Str(e.goal), "doer" := Str(e.doer), "judge" := Str(e.judge)])
  }

  function EventsToValues(events: seq<Event>): (r: seq<Value>)
    ensures |r| == |events|
    ensures forall i | 0 <= i < |r| :: r[i] == EventToValue(events[i])
  {
    if events == [] then [] else [EventToValue(events[0])] + EventsToValues(events[1..])
  }

  /** The keys of `run.__dict__`, one per `RunRecord` field. */
  const RecordKeys: set<string> := {"run_id", "scenario_id", "scenario_title", "summary", "steps",
                                    "outputs", "started_at", "completed_at", "success", "notes"}

  /** `run.__dict__` as the JSON object written to the run artifact: every
      field under its Python name, with absent notes written as `null`. */
  function RecordToValue(run: RunRecord): (v: Value)
    ensures v.Object? && v.fields.Keys == RecordKeys
    ensures v.fields["notes"] == Null <==> run.notes == None
    ensures v.fields["steps"] == List(EventsToValues(run.steps))
    ensures v.fields["outputs"] == run.outputs && v.fields["success"] == Bool(run.success)
  {
    Object(map[
      "run_id" := Str(run.runId),
      "scenario_id" := Str(run.scenarioId),
      "scenario_title" := Str(run.scenarioTitle),
      "summary" := Str(run.summary),
      "steps" := List(EventsToValues(run.steps)),
      "outputs" := run.outputs,
      "started_at" := Str(run.startedAt),
      "completed_at" := Str(run.completedAt),
      "success" := Bool(run.success),
      "notes" := match run.notes case Some(n) => Str(n) case None => Null])
  }

  function StrField(fields: map<string, Value>, key: string): Option<string> {
    if key in fields && fields[key].Str? then Some(fields[key].s) else None
  }

  function EventFromValue(v: Value): Option<Event> {
    if !v.Object? then None
    else
      var id :- StrField(v.fields, "step_id");
      var goal :- StrField(v.fields, "goal");
      var doer :- StrField(v.fields, "doer");
      var judge :- StrField(v.fields, "judge");
      Some(Event(id, goal, doer, judge))
  }

  function EventsFromValues(vs: seq<Value>): Option<seq<Event>> {
    if vs == [] then Some([])
    else
      var e :- EventFromValue(vs[0]);
      var rest :- EventsFromValues(vs[1..]);
      Some([e] + rest)
  }

  function ListField(fields: map<string, Value>, key: string): Option<seq<Value>> {
    if key in fields && fields[key].List? then Some(fields[key].items) else None
  }

  function BoolField(fields: map<string, Value>, key: string): Option<bool> {
    if key in fields && fields[key].Bool? then Some(fields[key].b) else None
  }

  /** A "notes" entry: `null` for no notes, or a string. */
  function NotesField(fields: map<string, Value>): Option<Option<string>> {
    if "notes" !in fields then None
    else
      match fields["notes"]
      case Null => Some(None)
      case Str(n) => Some(Some(n))
      case _ => None
  }

  /** Reading a run artifact back into a run record. */
  function RecordFromValue(v: Value): Option<RunRecord> {
    if !v.Object? || "outputs" !in v.fields then None
    else
      var f := v.fields;
      var runId :- StrField(f, "run_id");
      var scenarioId :- StrField(f, "scenario_id");
      var title :- StrField(f, "scenario_title");
      var summary :- StrField(f, "summary");
      var items :- ListField(f, "steps");
      var events :- EventsFromValues(items);
      var started :- StrField(f, "started_at");
      var completed :- StrField(f, "completed_at");
      var success :- BoolField(f, "success");
      var notes :- NotesField(f);
      Some(RunRecord(runId, scenarioId, title, summary, events, f["outputs"], started, completed, success, notes))
  }

  lemma EventRoundTrip(e: Event)
    ensures EventFromValue(EventToValue(e)) == Some(e)
  {
  }

  lemma {:induction false} EventsRoundTrip(events: seq<Event>)
    ensures EventsFromValues(EventsToValues(events)) == Some(events)
  {
    if events != [] {
      var vs := EventsToValues(events);
      assert vs == [EventToValue(events[0])] + EventsToValues(events[1..]);
      assert vs[1..] == EventsToValues(events[1..]);
      EventRoundTrip(events[0]);
      EventsRoundTrip(events[1..]);
      assert EventsFromValues(vs) == Some([events[0]] + events[1..]);
      assert [events[0]] + events[1..] == events;
    }
  }

  /** Reading back a written run artifact gives the run record, field for
      field. */
  lemma RecordRoundTrip(run: RunRecord)
    ensures RecordFromValue(RecordToValue(run)) == Some(run)
  {
    var f := RecordToValue(run).fields;
    assert StrField(f, "run_id") == Some(run.runId);
    assert StrField(f, "scenario_id") == Some(run.scenarioId);
    assert StrField(f, "scenario_title") == Some(run.scenarioTitle);
    assert StrField(f, "summary") == Some(run.summary);
    assert StrField(f, "started_at") == Some(run.startedAt);
    assert StrField(f, "completed_at") == Some(run.completedAt);
    assert ListField(f, "steps") == Some(EventsToValues(run.steps));
    assert BoolField(f, "success") == Some(run.success);
    assert NotesField(f) == Some(run.notes);
    EventsRoundTrip(run.steps);
  }

  /** The keys of an evidence log entry. */
  const LogKeys: set<string> := {"run_id", "scenario_id", "summary", "success", "outputs"}

  /** The condensed evidence line for a run. */
  function LogEntry(run: RunRecord): (e: Value)
    ensures e.Object? && e.fields.Keys == LogKeys
    ensures e.fields["run_id"] == Str(run.runId)
    ensures e.fields["scenario_id"] == Str(run.scenarioId)
    ensures e.fields["summary"] == Str(run.summary)
    ensures e.fields["success"] == Bool(run.success)
    ensures e.fields["outputs"] == run.outputs
  {
    Object(map[
      "run_id" := Str(run.runId),
      "scenario_id" := Str(run.scenarioId),
      "summary" := Str(run.summary),
      "success" := Bool(run.success),
      "outputs" := run.outputs])
  }

  /** `write_run_artifacts`: stores the whole record under
      `<out>/runs/<run_id>.json`, replacing any earlier artifact of that run
      id, and appends one entry to `<out>/evidence.jsonl`, creating the log
      when it does not exist yet. */
  function WriteRunArtifacts(run: RunRecord, outDir: Path, st: OutputState): (r: WriteResult)
    ensures r.runPath == ArtifactPath(outDir, run.runId)
    ensures r.evidencePath == EvidencePath(outDir)
    ensures r.state.artifacts.Keys == st.artifacts.Keys + {r.runPath}
    ensures r.state.artifacts[r.runPath] == RecordToValue(run)
    ensures RecordFromValue(r.state.artifacts[r.runPath]) == Some(run)
    ensures forall p | p in st.artifacts && p != r.runPath :: r.state.artifacts[p] == st.artifacts[p]
    ensures r.state.logs.Keys == st.logs.Keys + {r.evidencePath}
    ensures
      var before := if r.evidencePath in st.logs then st.logs[r.evidencePath] else [];
      var after := r.state.logs[r.evidencePath];
      |after| == |before| + 1 && after[..|before|] == before && after[|before|] == LogEntry(run)
    ensures forall p | p in st.logs && p != r.evidencePath :: r.state.logs[p] == st.logs[p]
  {
    var runPath := ArtifactPath(outDir, run.runId);
    var evidencePath := EvidencePath(outDir);
    var log := if evidencePath in st.logs then st.logs[evidencePath] else [];
    RecordRoundTrip(run);
    WriteResult(runPath, evidencePath,
      OutputState(st.artifacts[runPath := RecordToValue(run)], st.logs[evidencePath := log + [LogEntry(run)]]))
  }

  /** An artifact path never coincides with an evidence log path, whatever
      the output directories and run id: a ".json" name is never
      "evidence.jsonl". */
  lemma ArtifactIsNotLog(outDir: Path, runId: string, logDir: Path)
    ensures ArtifactPath(outDir, runId) != EvidencePath(logDir)
  {
    var a := ArtifactPath(outDir, runId);
    var e := EvidencePath(logDir);
    var name := runId + ".json";
    assert name[|name| - 1] == 'n';
    assert a[|a| - 1] == name;
    assert e[|e| - 1] == "evidence.jsonl";
  }

  /** The evidence line is the artifact restricted to the five logged
      keys: it omits the steps, the title, the timestamps and the notes. */
  lemma LogEntryIsProjection(run: RunRecord)
    ensures
      var full := RecordToValue(run).fields;
      LogEntry(run) == Object(map k | k in full && k in LogKeys :: full[k])
    ensures "steps" !in LogEntry(run).fields && "scenario_title" !in LogEntry(run).fields
    ensures "started_at" !in LogEntry(run).fields && "completed_at" !in LogEntry(run).fields
    ensures "notes" !in LogEntry(run).fields
  {
  }

  /** Two writes into one output directory append their entries in call
      order after everything already logged. */
  lemma TwoWritesAppendInOrder(first: RunRecord, second: RunRecord, outDir: Path, st: OutputState)
    ensures
      var mid := WriteRunArtifacts(first, outDir, st).state;
      var end := WriteRunArtifacts(second, outDir, mid).state;
      var before := if EvidencePath(outDir) in st.logs then st.logs[EvidencePath(outDir)] else [];
      end.logs[EvidencePath(outDir)] == before + [LogEntry(first), LogEntry(second)]
  {
  }

  /** Writing a second run with the same run id overwrites the first run's
      artifact. */
  lemma SameRunIdOverwrites(first: RunRecord, second: RunRecord, outDir: Path, st: OutputState)
    requires first.runId == second.runId
    ensures
      var mid := WriteRunArtifacts(first, outDir, st).state;
      var end := WriteRunArtifacts(second, outDir, mid).state;
      RecordFromValue(end.artifacts[ArtifactPath(outDir, first.runId)]) == Some(second)
  {
  }
}

/** `load_scenario` (src/aes/loader.py): validation and defaulting of an
    already-parsed document. Reading the file and choosing between the JSON
    and YAML parsers happen before this and are not modelled. */
module Loader {
  import opened Wrappers
  import opened Json
  import Decimal
  import opened Models

  /** The two `ValueError`s the loader raises. */
  datatype LoadError = NotAnObject | NoSteps {
    /** The `ValueError` text; each text belongs to exactly one error. */
    function Message(): (m: string)
      ensures m == "Scenario file must contain a JSON/YAML object" <==> this == NotAnObject
      ensures m == "Scenario must include at least one step" <==> this == NoSteps
    {
      match this
      case NotAnObject => "Scenario file must contain a JSON/YAML object"
      case NoSteps => "Scenario must include at least one step"
    }
  }

  /** `data.get(key, []) or []` can be iterated and each entry answers
      `.get`: the value is absent, falsy, or a list of objects. Any other
      value makes the source fail with a Python type or attribute error
      rather than a validation error. */
  predicate EntriesLoadable(fields: map<string, Value>, key: string) {
    key in fields && Truthy(fields[key]) ==>
      && fields[key].List?
      && forall i | 0 <= i < |fields[key].items| :: fields[key].items[i].Object?
  }

  /** The documents on which `load_scenario` returns or raises one of its
      own errors. Every non-object document qualifies. */
  predicate Loadable(doc: Value) {
    doc.Object? ==> EntriesLoadable(doc.fields, "roles") && EntriesLoadable(doc.fields, "steps")
  }

  /** `data.get(key, []) or []`: an absent or falsy value reads as no
      entries. */
  function Entries(fields: map<string, Value>, key: string): (r: seq<Value>)
    requires EntriesLoadable(fields, key)
    ensures key !in fields || !Truthy(fields[key]) ==> r == []
    ensures key in fields && Truthy(fields[key]) ==> r == fields[key].items && r != []
    ensures forall i | 0 <= i < |r| :: r[i].Object?
  {
    if key in fields && Truthy(fields[key]) then fields[key].items else []
  }

  /** `str(fields.get(key, default))`: the default only when the key is
      absent; a present value, `None` included, is coerced. */
  function Field(fields: map<string, Value>, key: string, default: string, render: Value -> string): (r: string)
    ensures key !in fields ==> r == default
    ensures key in fields ==> r == ToStr(fields[key], render)
  {
    match Get(fields, key)
    case Some(v) => ToStr(v, render)
    case None => default
  }

  function LoadRole(entry: Value, render: Value -> string): Role
    requires entry.Object?
  {
    Role(Field(entry.fields, "name", "Role", render), Field(entry.fields, "description", "", render))
  }

  /** The id a step at 1-based `position` receives when it has no "id" key. */
  function DefaultStepId(position: nat): string {
    "step-" + Decimal.Format(position)
  }

  function LoadStep(entry: Value, position: nat, render: Value -> string): Step
    requires entry.Object?
  {
    Step(Field(entry.fields, "id", DefaultStepId(position), render), Field(entry.fields, "goal", "", render))
  }

  /** The role list comprehension: one role per entry, in order. */
  function LoadRoles(entries: seq<Value>, render: Value -> string): (r: seq<Role>)
    requires forall i | 0 <= i < |entries| :: entries[i].Object?
    ensures |r| == |entries|
    ensures forall i | 0 <= i < |r| ::
      && r[i].name == Field(entries[i].fields, "name", "Role", render)
      && r[i].description == Field(entries[i].fields, "description", "", render)
  {
    if entries == [] then []
    else [LoadRole(entries[0], render)] + LoadRoles(entries[1..], render)
  }

  /** The step list comprehension over `enumerate(entries, start=first)`:
      one step per entry, in order, the entry at offset `i` numbered
      `first + i` for its default id. */
  function LoadSteps(entries: seq<Value>, first: nat, render: Value -> string): (r: seq<Step>)
    requires forall i | 0 <= i < |entries| :: entries[i].Object?
    ensures |r| == |entries|
    ensures forall i | 0 <= i < |r| ::
      && r[i].id == Field(entries[i].fields, "id", DefaultStepId(first + i), render)
      && r[i].goal == Field(entries[i].fields, "goal", "", render)
  {
    if entries == [] then []
    else [LoadStep(entries[0], first, render)] + LoadSteps(entries[1..], first + 1, render)
  }

  /** `load_scenario` on a parsed document. */
  function Load(doc: Value, render: Value -> string): (r: Result<Scenario, LoadError>)
    requires Loadable(doc)
    ensures r == Failure(NotAnObject) <==> !doc.Object?
    ensures r == Failure(NoSteps) <==> doc.Object? && Entries(doc.fields, "steps") == []
    ensures r.Success? ==> |r.value.steps| >= 1
    ensures r.Success? ==>
      && r.value.id == Field(doc.fields, "id", "scenario", render)
      && r.value.title == Field(doc.fields, "title", "Untitled Scenario", render)
      && r.value.description == Field(doc.fields, "description", "", render)
      && r.value.roles == LoadRoles(Entries(doc.fields, "roles"), render)
      && r.value.steps == LoadSteps(Entries(doc.fields, "steps"), 1, render)
  {
    if !doc.Object? then Failure(NotAnObject)
    else
      var id := Field(doc.fields, "id", "scenario", render);
      var title := Field(doc.fields, "title", "Untitled Scenario", render);
      var description := Field(doc.fields, "description", "", render);
      var roles := LoadRoles(Entries(doc.fields, "roles"), render);
      var steps := LoadSteps(Entries(doc.fields, "steps"), 1, render);
      if steps == [] then Failure(NoSteps)
      else Success(Scenario(id, title, description, roles, steps))
  }

  /** A header key that is present with a `null` value is coerced like any
      other value, so the scenario reads "None" rather than the default. */
  lemma LoadPresentNull(doc: Value, render: Value -> string)
    requires Loadable(doc) && Load(doc, render).Success?
    ensures Get(doc.fields, "id") == Some(Null) ==> Load(doc, render).value.id == "None"
    ensures Get(doc.fields, "title") == Some(Null) ==> Load(doc, render).value.title == "None"
    ensures Get(doc.fields, "description") == Some(Null) ==> Load(doc, render).value.description == "None"
  {
  }

  /** An absent, `null` or otherwise falsy "roles" value loads as no roles. */
  lemma LoadFalsyRoles(doc: Value, render: Value -> string)
    requires Loadable(doc) && Load(doc, render).Success?
    requires "roles" !in doc.fields || !Truthy(doc.fields["roles"])
    ensures Load(doc, render).value.roles == []
  {
  }

  /** Steps that rely on the positional default never share an id: the
      defaults "step-1", "step-2", ... are pairwise distinct. */
  lemma {:induction false} DefaultStepIdsDistinct(doc: Value, render: Value -> string, i: nat, j: nat)
    requires Loadable(doc) && Load(doc, render).Success?
    requires i < j < |Entries(doc.fields, "steps")|
    requires "id" !in Entries(doc.fields, "steps")[i].fields
    requires "id" !in Entries(doc.fields, "steps")[j].fields
    ensures Load(doc, render).value.steps[i].id != Load(doc, render).value.steps[j].id
  {
    var steps := Load(doc, render).value.steps;
    assert steps[i].id == DefaultStepId(1 + i);
    assert steps[j].id == DefaultStepId(1 + j);
    DefaultStepIdInjective(1 + i, 1 + j);
  }

  lemma DefaultStepIdInjective(m: nat, n: nat)
    requires m != n
    ensures DefaultStepId(m) != DefaultStepId(n)
  {
    Decimal.FormatInjective(m, n);
    assert DefaultStepId(m)[5..] == Decimal.Format(m);
    assert DefaultStepId(n)[5..] == Decimal.Format(n);
  }

  /** The document a scenario would be written as: every field present,
      roles and steps as lists of objects. */
  function Document(s: Scenario): (doc: Value)
    ensures doc.Object? && Loadable(doc)
  {
    Object(map[
      "id" := Str(s.id),
      "title" := Str(s.title),
      "description" := Str(s.description),
      "roles" := List(seq(|s.roles|, i requires 0 <= i < |s.roles| =>
        Object(map["name" := Str(s.roles[i].name), "description" := Str(s.roles[i].description)]))),
      "steps" := List(seq(|s.steps|, i requires 0 <= i < |s.steps| =>
        Object(map["id" := Str(s.steps[i].id), "goal" := Str(s.steps[i].goal)])))])
  }

  /** Loading the document of a scenario with at least one step gives that
      scenario back, whatever `render` does: every field is a string. */
  lemma LoadDocument(s: Scenario, render: Value -> string)
    requires |s.steps| >= 1
    ensures Load(Document(s), render) == Success(s)
  {
    var doc := Document(s);
    var roles := LoadRoles(Entries(doc.fields, "roles"), render);
    var steps := LoadSteps(Entries(doc.fields, "steps"), 1, render);
    assert |roles| == |s.roles|;
    assert forall i | 0 <= i < |roles| :: roles[i] == s.roles[i];
    assert roles == s.roles;
    assert forall i | 0 <= i < |steps| :: steps[i] == s.steps[i];
    assert steps == s.steps;
  }

  /** An example document: `{"steps": [{"goal": "g"}]}` loads with every header default and the step id "step-1". */
  lemma LoadMinimalExample(render: Value -> string)
    ensures
      var doc := Object(map["steps" := List([Object(map["goal" := Str("g")])])]);
      Loadable(doc) && Load(doc, render) == Success(Scenario("scenario", "Untitled Scenario", "", [], [Step("step-1", "g")]))
  {
    var doc := Object(map["steps" := List([Object(map["goal" := Str("g")])])]);
    assert Decimal.DigitChar(1) == '1';
    assert DefaultStepId(1) == "step-1";
    var steps := LoadSteps(Entries(doc.fields, "steps"), 1, render);
    assert steps == [Step("step-1", "g")];
  }
}

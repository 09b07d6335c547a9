/** The Spacelift webhook workflow: `SpaceLiftRunContext` projects a webhook
    payload onto a fixed record of run details, `get_trigger_command` names the
    command a run stands for, and the workflow's `run` reports the outcome. */
module WebhookWorkflow {
  import opened Json

  datatype CommitDetails = CommitDetails(hash: Json, message: Json, author: Json)
  datatype StackDetails = StackDetails(id: Json, name: Json, namespace: Json, repository: Json)
  datatype ChangeDetails = ChangeDetails(action: Json, entityType: Json, entityName: Json)

  /** `run_details`: every field holds whatever value the payload had there, or
      the default when the key is absent. */
  datatype RunDetails = RunDetails(
    runId: Json, state: Json, runType: Json, branch: Json, command: Json,
    commit: CommitDetails, stack: StackDetails, changes: seq<ChangeDetails>)

  /** A `SpaceLiftRunContext`: the raw payload and the details parsed from it. */
  datatype RunContext = RunContext(rawPayload: Json, runDetails: RunDetails)

  const Empty: Json := JObj(map[])

  /** One entry of the `changes` comprehension. */
  function ParseChange(change: Json): (r: Result<ChangeDetails>)
    ensures r.Ok? <==> ChangeIsWellShaped(change)
    ensures r.Ok? ==> r.value == ChangeDetails(
      FieldOrNull(change.fields, "action"),
      FieldOrNull(SubDict(change.fields, "entity"), "entity_type"),
      FieldOrNull(SubDict(change.fields, "entity"), "name"))
  {
    // only the first `get` on `change` and on `entity` can fail
    match change
    case JObj(m) =>
      var entity := FieldOr(m, "entity", Empty);
      var entityType :- Get(entity, "entity_type", JNull);
      Ok(ChangeDetails(FieldOrNull(m, "action"), entityType, FieldOrNull(entity.fields, "name")))
    case _ => Get(change, "action", JNull).PropagateFailure()
  }

  function ParseChanges(changes: seq<Json>): (r: Result<seq<ChangeDetails>>)
    ensures r.Ok? ==> |r.value| == |changes|
    ensures r.Ok? ==> forall i :: 0 <= i < |changes| ==> ParseChange(changes[i]) == Ok(r.value[i])
  {
    if changes == [] then Ok([])
    else
      var first :- ParseChange(changes[0]);
      var rest :- ParseChanges(changes[1..]);
      Ok([first] + rest)
  }

  /** Iterating `run_info.get('changes', [])`: a list yields its entries; a string
      or a dict yields strings, which have no `get`, so only an empty one passes;
      any other value is not iterable. */
  function ChangeEntries(changes: Json): (r: Result<seq<ChangeDetails>>)
    ensures r.Ok? && changes.JList? ==> |r.value| == |changes.items|
    ensures r.Ok? && !changes.JList? ==> r.value == []
    ensures !(changes.JList? || changes.JStr? || changes.JObj?) ==> r.Err? && r.error.TypeError?
  {
    match changes
    case JList(items) => ParseChanges(items)
    case JStr(s) => if s == "" then Ok([]) else Err(AttributeError("'str' object has no attribute 'get'"))
    case JObj(m) => if m == map[] then Ok([]) else Err(AttributeError("'str' object has no attribute 'get'"))
    case _ => Err(TypeError("'" + TypeName(changes) + "' object is not iterable"))
  }

  /** `SpaceLiftRunContext(payload)`, with its fields evaluated in source order;
      the first `get` on a value that is not a dict raises. */
  function ParseRunContext(payload: Json): (r: Result<RunContext>)
    ensures r.Ok? ==> r.value.rawPayload == payload
  {
    var run :- Lookup(payload, ["run_updated", "run"], Empty);
    var stack :- Lookup(payload, ["run_updated", "stack"], Empty);
    var runId :- Get(run, "id", JNull);
    var state :- Get(run, "state", JStr("UNKNOWN"));
    var runType :- Get(run, "type", JStr("UNSPECIFIED"));
    var branch :- Get(run, "branch", JStr("main"));
    var command :- Get(run, "command", JStr(""));
    var hash :- Lookup(run, ["commit", "hash"], JNull);
    var message :- Lookup(run, ["commit", "message"], JNull);
    var author :- Lookup(run, ["commit", "author"], JNull);
    var stackId :- Get(stack, "id", JNull);
    var name :- Get(stack, "name", JNull);
    var namespace :- Get(stack, "namespace", JNull);
    var repository :- Get(stack, "repository", JNull);
    var changeList :- Get(run, "changes", JList([]));
    var changes :- ChangeEntries(changeList);
    Ok(RunContext(payload, RunDetails(
      runId, state, runType, branch, command,
      CommitDetails(hash, message, author),
      StackDetails(stackId, name, namespace, repository),
      changes)))
  }

  /** `get_trigger_command`. */
  function TriggerCommand(details: RunDetails): (r: string)
    ensures details.state == JStr("APPLYING") || details.state == JStr("PLANNING") ==>
      |Display(details.stack.name)| <= |r| && r[|r| - |Display(details.stack.name)|..] == Display(details.stack.name)
    ensures details.state != JStr("APPLYING") && details.state != JStr("PLANNING") ==>
      |Display(details.state)| <= |r| && r[|r| - |Display(details.state)|..] == Display(details.state)
    ensures details.state == JStr("APPLYING") ==>
      |r| == |"terraform apply for stack "| + |Display(details.stack.name)|
    ensures details.state == JStr("PLANNING") ==>
      |r| == |"terraform plan for stack "| + |Display(details.stack.name)|
    ensures details.state != JStr("APPLYING") && details.state != JStr("PLANNING") ==>
      |r| == |"Unhandled state: "| + |Display(details.state)|
  {
    if details.state == JStr("APPLYING") then "terraform apply for stack " + Display(details.stack.name)
    else if details.state == JStr("PLANNING") then "terraform plan for stack " + Display(details.stack.name)
    else "Unhandled state: " + Display(details.state)
  }

  /** `SpaceliftWebhookWorkflow.run`: both branches only log, so the result is
      the same whatever the state; a parsing error is re-raised. */
  function Run(payload: Json): (r: Result<Json>)
    ensures r.Ok? <==> ParseRunContext(payload).Ok?
    ensures r.Err? ==> r.error == ParseRunContext(payload).error
    ensures r.Ok? ==>
      var details := ParseRunContext(payload).value.runDetails;
      r.value.JObj? && r.value.fields.Keys == {"status", "run_id", "state"} &&
      r.value.fields["status"] == JStr("processed") &&
      r.value.fields["run_id"] == details.runId && r.value.fields["state"] == details.state
  {
    var context :- ParseRunContext(payload);
    Ok(JObj(map[
      "status" := JStr("processed"),
      "run_id" := context.runDetails.runId,
      "state" := context.runDetails.state]))
  }

  /** The three commands are told apart by their first words: only an APPLYING
      run yields an apply, only a PLANNING run a plan, and every other state is
      reported as unhandled. */
  lemma TriggerCommandCases(details: RunDetails)
    ensures details.state == JStr("APPLYING") <==> "terraform apply for stack " <= TriggerCommand(details)
    ensures details.state == JStr("PLANNING") <==> "terraform plan for stack " <= TriggerCommand(details)
    ensures details.state != JStr("APPLYING") && details.state != JStr("PLANNING")
            <==> "Unhandled state: " <= TriggerCommand(details)
  {
    var c := TriggerCommand(details);
    if details.state == JStr("APPLYING") {
      assert c[10] == 'a';
    } else if details.state == JStr("PLANNING") {
      assert c[10] == 'p';
    } else {
      assert c[0] == 'U';
    }
  }

  // ---- When parsing succeeds -------------------------------------------------

  /** `key` is absent from `m` or holds a dict. */
  predicate DictOrAbsent(m: map<string, Json>, key: string)
  {
    key !in m || m[key].JObj?
  }

  /** The dict under `key`, or `{}` when the key is absent. */
  function SubDict(m: map<string, Json>, key: string): map<string, Json>
    requires DictOrAbsent(m, key)
  {
    if key in m then m[key].fields else map[]
  }

  predicate ChangeIsWellShaped(change: Json)
  {
    change.JObj? && DictOrAbsent(change.fields, "entity")
  }

  predicate ChangesAreWellShaped(changes: Json)
  {
    match changes
    case JList(items) => forall c :: c in items ==> ChangeIsWellShaped(c)
    case JStr(s) => s == ""
    case JObj(m) => m == map[]
    case _ => false
  }

  /** The payloads the constructor accepts: a dict whose `run_updated`, `run`,
      `stack`, `commit` and change `entity` sections are dicts wherever present,
      and whose `changes` is a list of dicts when present. */
  predicate WellShaped(payload: Json)
  {
    payload.JObj? && DictOrAbsent(payload.fields, "run_updated") &&
    var runUpdated := SubDict(payload.fields, "run_updated");
    DictOrAbsent(runUpdated, "run") && DictOrAbsent(runUpdated, "stack") &&
    var run := SubDict(runUpdated, "run");
    DictOrAbsent(run, "commit") &&
    ChangesAreWellShaped(if "changes" in run then run["changes"] else JList([]))
  }

  lemma {:induction false} ParseChangesSucceeds(items: seq<Json>)
    ensures ParseChanges(items).Ok? <==> forall c :: c in items ==> ChangeIsWellShaped(c)
    ensures ParseChanges(items).Ok? ==> |ParseChanges(items).value| == |items|
    decreases |items|
  {
    if items != [] {
      ParseChangesSucceeds(items[1..]);
      assert ParseChange(items[0]).Ok? <==> ChangeIsWellShaped(items[0]);
      assert forall c :: c in items <==> c == items[0] || c in items[1..];
    }
  }

  /** The constructor raises exactly on payloads that are not well shaped: a
      section that is present but null (or any other non-dict) is not replaced
      by its default and makes the chained `get` fail. */
  lemma ParseRunContextSucceeds(payload: Json)
    ensures ParseRunContext(payload).Ok? <==> WellShaped(payload)
  {
    if payload.JObj? && DictOrAbsent(payload.fields, "run_updated") {
      var runUpdated := SubDict(payload.fields, "run_updated");
      if DictOrAbsent(runUpdated, "run") && DictOrAbsent(runUpdated, "stack") {
        var run := SubDict(runUpdated, "run");
        var changes := if "changes" in run then run["changes"] else JList([]);
        if changes.JList? {
          ParseChangesSucceeds(changes.items);
        }
      }
    }
  }

  /** The value under `key`, or `default` when the key is absent: `m.get(key, default)`. */
  function FieldOr(m: map<string, Json>, key: string, default: Json): Json
  {
    if key in m then m[key] else default
  }

  /** `m.get(key)`. */
  function FieldOrNull(m: map<string, Json>, key: string): Json
  {
    FieldOr(m, key, JNull)
  }

  /** On a well-shaped payload the chained lookups reach the `run`, `stack` and
      `commit` sections, with `{}` for an absent one. */
  lemma SectionsOf(payload: Json)
    requires WellShaped(payload)
    ensures
      var run := SubDict(SubDict(payload.fields, "run_updated"), "run");
      Lookup(payload, ["run_updated", "run"], Empty) == Ok(JObj(run)) &&
      DictOrAbsent(run, "commit") &&
      forall k :: Lookup(JObj(run), ["commit", k], JNull) == Ok(FieldOrNull(SubDict(run, "commit"), k))
    ensures Lookup(payload, ["run_updated", "stack"], Empty) == Ok(JObj(SubDict(SubDict(payload.fields, "run_updated"), "stack")))
  {
    var runUpdated := SubDict(payload.fields, "run_updated");
    assert Get(payload, "run_updated", Empty) == Ok(JObj(runUpdated));
    assert ["run_updated", "run"][1..] == ["run"];
    assert ["run_updated", "stack"][1..] == ["stack"];
    var run := SubDict(runUpdated, "run");
    assert Get(JObj(run), "commit", Empty) == Ok(JObj(SubDict(run, "commit")));
    forall k
      ensures Lookup(JObj(run), ["commit", k], JNull) == Ok(FieldOrNull(SubDict(run, "commit"), k))
    {
      assert ["commit", k][1..] == [k];
    }
  }

  /** Every scalar field of the details is the payload's value at its key, even
      null, or the default when the key is absent: `UNKNOWN` for the state,
      `UNSPECIFIED` for the type, `main` for the branch, `''` for the command and
      None for everything else. */
  lemma FieldsFollowPayload(payload: Json)
    requires WellShaped(payload)
    ensures ParseRunContext(payload).Ok?
    ensures
      var run := SubDict(SubDict(payload.fields, "run_updated"), "run");
      var d := ParseRunContext(payload).value.runDetails;
      d.runId == FieldOrNull(run, "id") &&
      d.state == FieldOr(run, "state", JStr("UNKNOWN")) &&
      d.runType == FieldOr(run, "type", JStr("UNSPECIFIED")) &&
      d.branch == FieldOr(run, "branch", JStr("main")) &&
      d.command == FieldOr(run, "command", JStr(""))
    ensures
      var run := SubDict(SubDict(payload.fields, "run_updated"), "run");
      var commit := SubDict(run, "commit");
      ParseRunContext(payload).value.runDetails.commit == CommitDetails(
        FieldOrNull(commit, "hash"), FieldOrNull(commit, "message"), FieldOrNull(commit, "author"))
    ensures
      var stack := SubDict(SubDict(payload.fields, "run_updated"), "stack");
      ParseRunContext(payload).value.runDetails.stack == StackDetails(
        FieldOrNull(stack, "id"), FieldOrNull(stack, "name"),
        FieldOrNull(stack, "namespace"), FieldOrNull(stack, "repository"))
  {
    ParseRunContextSucceeds(payload);
    SectionsOf(payload);
  }

  /** `changes` has one entry per entry of `run.changes`, in the same order,
      each carrying only the change's action and its entity's type and name. */
  lemma ChangesFollowPayload(payload: Json)
    requires WellShaped(payload)
    ensures ParseRunContext(payload).Ok?
    ensures
      var run := SubDict(SubDict(payload.fields, "run_updated"), "run");
      var changes := ParseRunContext(payload).value.runDetails.changes;
      ("changes" !in run ==> changes == []) &&
      ("changes" in run && run["changes"].JList? ==>
        |changes| == |run["changes"].items| &&
        forall i :: 0 <= i < |changes| ==>
          var change := run["changes"].items[i];
          change.JObj? && DictOrAbsent(change.fields, "entity") &&
          changes[i] == ChangeDetails(
            FieldOrNull(change.fields, "action"),
            FieldOrNull(SubDict(change.fields, "entity"), "entity_type"),
            FieldOrNull(SubDict(change.fields, "entity"), "name")))
  {
    ParseRunContextSucceeds(payload);
  }

  /** A payload without a `run_updated` section parses to the defaults. */
  lemma MissingSectionsDefaults(payload: Json)
    requires payload.JObj? && "run_updated" !in payload.fields
    ensures ParseRunContext(payload) == Ok(RunContext(payload, RunDetails(
      JNull, JStr("UNKNOWN"), JStr("UNSPECIFIED"), JStr("main"), JStr(""),
      CommitDetails(JNull, JNull, JNull),
      StackDetails(JNull, JNull, JNull, JNull),
      [])))
  {
  }

  /** A key that is present keeps its value, even null: only absent keys get
      defaults. */
  lemma PresentNullIsKept(run: map<string, Json>)
    requires "state" in run && run["state"] == JNull
    requires WellShaped(JObj(map["run_updated" := JObj(map["run" := JObj(run)])]))
    ensures ParseRunContext(JObj(map["run_updated" := JObj(map["run" := JObj(run)])])).Ok?
    ensures ParseRunContext(JObj(map["run_updated" := JObj(map["run" := JObj(run)])])).value.runDetails.state == JNull
  {
    ParseRunContextSucceeds(JObj(map["run_updated" := JObj(map["run" := JObj(run)])]));
  }

  /** An explicit null `commit` makes `.get('hash')` fail, so the workflow raises. */
  lemma NullCommitRaises(run: map<string, Json>)
    requires "commit" in run && run["commit"] == JNull
    ensures Run(JObj(map["run_updated" := JObj(map["run" := JObj(run)])])).Err?
  {
    ParseRunContextSucceeds(JObj(map["run_updated" := JObj(map["run" := JObj(run)])]));
  }

  // ---- Round trip --------------------------------------------------------------

  function EncodeChange(c: ChangeDetails): Json
  {
    JObj(map["action" := c.action, "entity" := JObj(map["entity_type" := c.entityType, "name" := c.entityName])])
  }

  function EncodeChanges(cs: seq<ChangeDetails>): seq<Json>
  {
    if cs == [] then [] else [EncodeChange(cs[0])] + EncodeChanges(cs[1..])
  }

  function EncodeRun(d: RunDetails): Json
  {
    JObj(map[
      "id" := d.runId, "state" := d.state, "type" := d.runType, "branch" := d.branch,
      "command" := d.command,
      "commit" := JObj(map["hash" := d.commit.hash, "message" := d.commit.message, "author" := d.commit.author]),
      "changes" := JList(EncodeChanges(d.changes))])
  }

  function EncodeStack(s: StackDetails): Json
  {
    JObj(map["id" := s.id, "name" := s.name, "namespace" := s.namespace, "repository" := s.repository])
  }

  /** A webhook payload carrying every field of `details`. */
  function EncodePayload(d: RunDetails): Json
  {
    JObj(map["run_updated" := JObj(map["run" := EncodeRun(d), "stack" := EncodeStack(d.stack)])])
  }

  lemma {:induction false} ParseEncodedChanges(cs: seq<ChangeDetails>)
    ensures ParseChanges(EncodeChanges(cs)) == Ok(cs)
    decreases |cs|
  {
    if cs != [] {
      ParseEncodedChanges(cs[1..]);
      assert EncodeChanges(cs)[1..] == EncodeChanges(cs[1..]);
      assert [cs[0]] + cs[1..] == cs;
    }
  }

  lemma EncodedRunFields(d: RunDetails)
    ensures Get(EncodeRun(d), "id", JNull) == Ok(d.runId)
    ensures Get(EncodeRun(d), "state", JStr("UNKNOWN")) == Ok(d.state)
    ensures Get(EncodeRun(d), "type", JStr("UNSPECIFIED")) == Ok(d.runType)
    ensures Get(EncodeRun(d), "branch", JStr("main")) == Ok(d.branch)
    ensures Get(EncodeRun(d), "command", JStr("")) == Ok(d.command)
    ensures Get(EncodeRun(d), "changes", JList([])) == Ok(JList(EncodeChanges(d.changes)))
  {
  }

  lemma EncodedCommitFields(d: RunDetails)
    ensures Lookup(EncodeRun(d), ["commit", "hash"], JNull) == Ok(d.commit.hash)
    ensures Lookup(EncodeRun(d), ["commit", "message"], JNull) == Ok(d.commit.message)
    ensures Lookup(EncodeRun(d), ["commit", "author"], JNull) == Ok(d.commit.author)
  {
    var commit := EncodeRun(d).fields["commit"];
    assert Get(EncodeRun(d), "commit", Empty) == Ok(commit);
    assert ["commit", "hash"][1..] == ["hash"];
    assert ["commit", "message"][1..] == ["message"];
    assert ["commit", "author"][1..] == ["author"];
  }

  lemma EncodedStackFields(s: StackDetails)
    ensures Get(EncodeStack(s), "id", JNull) == Ok(s.id)
    ensures Get(EncodeStack(s), "name", JNull) == Ok(s.name)
    ensures Get(EncodeStack(s), "namespace", JNull) == Ok(s.namespace)
    ensures Get(EncodeStack(s), "repository", JNull) == Ok(s.repository)
  {
  }

  lemma EncodedSections(d: RunDetails)
    ensures Lookup(EncodePayload(d), ["run_updated", "run"], Empty) == Ok(EncodeRun(d))
    ensures Lookup(EncodePayload(d), ["run_updated", "stack"], Empty) == Ok(EncodeStack(d.stack))
  {
    assert ["run_updated", "run"][1..] == ["run"];
    assert ["run_updated", "stack"][1..] == ["stack"];
  }

  /** Every run-details record is recovered from a payload that carries it. */
  lemma ParseEncodedPayload(d: RunDetails)
    ensures ParseRunContext(EncodePayload(d)) == Ok(RunContext(EncodePayload(d), d))
  {
    EncodedSections(d);
    EncodedRunFields(d);
    EncodedCommitFields(d);
    EncodedStackFields(d.stack);
    ParseEncodedChanges(d.changes);
  }
}

/** The FastAPI webhook receiver: `parse_payload` flattens a Spacelift
    notification into typed pydantic records, and the `/webhook` handler answers
    with a summary of them, or with 400 "Invalid payload" when anything fails. */
module WebhookApp {
  import opened Json

  datatype CommitInfo = CommitInfo(author: string, branch: string, hash: string, message: string, url: string)
  datatype RunInfo = RunInfo(id: string, state: string, runType: string, createdAt: int, updatedAt: int)
  datatype StackInfo = StackInfo(id: string, name: string, namespace: string, labels: seq<string>)
  datatype SpaceInfo = SpaceInfo(id: string, name: string)
  datatype SpaceliftPayload = SpaceliftPayload(
    accountName: string, run: RunInfo, stack: StackInfo, space: SpaceInfo,
    commit: CommitInfo, changes: seq<map<string, Json>>)

  /** The request body after FastAPI validated it as a `WebhookPayload`: both
      sections are dicts. */
  datatype WebhookPayload = WebhookPayload(account: map<string, Json>, runUpdated: map<string, Json>)

  /** `payload.dict()`. */
  function AsDict(request: WebhookPayload): Json
  {
    JObj(map["account" := JObj(request.account), "run_updated" := JObj(request.runUpdated)])
  }

  // ---- pydantic field checks ----------------------------------------------------

  function AsStr(model: string, field: string, v: Json): Result<string>
  {
    if v.JStr? then Ok(v.s) else Err(ValidationError(model, field))
  }

  function AsInt(model: string, field: string, v: Json): Result<int>
  {
    if v.JInt? then Ok(v.i) else Err(ValidationError(model, field))
  }

  /** The items as strings, when every item is one. */
  function Strings(items: seq<Json>): (r: Option<seq<string>>)
    ensures r.Some? ==> EncodeStrings(r.value) == items
  {
    if items == [] then Some([])
    else if !items[0].JStr? then None
    else
      match Strings(items[1..])
      case None => None
      case Some(rest) =>
        assert ([items[0].s] + rest)[1..] == rest;
        Some([items[0].s] + rest)
  }

  /** The items as dicts, when every item is one. */
  function Dicts(items: seq<Json>): (r: Option<seq<map<string, Json>>>)
    ensures r.Some? ==> EncodeDicts(r.value) == items
  {
    if items == [] then Some([])
    else if !items[0].JObj? then None
    else
      match Dicts(items[1..])
      case None => None
      case Some(rest) =>
        assert ([items[0].fields] + rest)[1..] == rest;
        Some([items[0].fields] + rest)
  }

  /** A `List[str]` field: accepted exactly as the list of strings it holds. */
  function AsStrList(model: string, field: string, v: Json): (r: Result<seq<string>>)
    ensures r.Ok? ==> v == JList(EncodeStrings(r.value))
    ensures r.Err? ==> r.error == ValidationError(model, field)
  {
    if v.JList? && Strings(v.items).Some? then Ok(Strings(v.items).value)
    else Err(ValidationError(model, field))
  }

  /** A `List[Dict[str, Any]]` field: accepted exactly as the list of dicts it holds. */
  function AsDictList(model: string, field: string, v: Json): (r: Result<seq<map<string, Json>>>)
    ensures r.Ok? ==> v == JList(EncodeDicts(r.value))
    ensures r.Err? ==> r.error == ValidationError(model, field)
  {
    if v.JList? && Dicts(v.items).Some? then Ok(Dicts(v.items).value)
    else Err(ValidationError(model, field))
  }

  // ---- parse_payload --------------------------------------------------------------

  /** `RunInfo(...)` with its arguments looked up under `run_updated.run`. */
  function ParseRunInfo(payload: Json): Result<RunInfo>
  {
    var id :- Lookup(payload, ["run_updated", "run", "id"], JNull);
    var state :- Lookup(payload, ["run_updated", "run", "state"], JNull);
    var runType :- Lookup(payload, ["run_updated", "run", "type"], JNull);
    var createdAt :- Lookup(payload, ["run_updated", "run", "created_at"], JNull);
    var updatedAt :- Lookup(payload, ["run_updated", "run", "updated_at"], JNull);
    var id' :- AsStr("RunInfo", "id", id);
    var state' :- AsStr("RunInfo", "state", state);
    var runType' :- AsStr("RunInfo", "type", runType);
    var createdAt' :- AsInt("RunInfo", "created_at", createdAt);
    var updatedAt' :- AsInt("RunInfo", "updated_at", updatedAt);
    Ok(RunInfo(id', state', runType', createdAt', updatedAt'))
  }

  /** `StackInfo(...)` from `run_updated.stack`; `labels` defaults to `[]`. */
  function ParseStackInfo(payload: Json): Result<StackInfo>
  {
    var id :- Lookup(payload, ["run_updated", "stack", "id"], JNull);
    var name :- Lookup(payload, ["run_updated", "stack", "name"], JNull);
    var namespace :- Lookup(payload, ["run_updated", "stack", "namespace"], JNull);
    var labels :- Lookup(payload, ["run_updated", "stack", "labels"], JList([]));
    var id' :- AsStr("StackInfo", "id", id);
    var name' :- AsStr("StackInfo", "name", name);
    var namespace' :- AsStr("StackInfo", "namespace", namespace);
    var labels' :- AsStrList("StackInfo", "labels", labels);
    Ok(StackInfo(id', name', namespace', labels'))
  }

  /** `SpaceInfo(...)` from `run_updated.stack.space`. */
  function ParseSpaceInfo(payload: Json): Result<SpaceInfo>
  {
    var id :- Lookup(payload, ["run_updated", "stack", "space", "id"], JNull);
    var name :- Lookup(payload, ["run_updated", "stack", "space", "name"], JNull);
    var id' :- AsStr("SpaceInfo", "id", id);
    var name' :- AsStr("SpaceInfo", "name", name);
    Ok(SpaceInfo(id', name'))
  }

  /** `CommitInfo(...)` from `run_updated.run.commit`. */
  function ParseCommitInfo(payload: Json): Result<CommitInfo>
  {
    var author :- Lookup(payload, ["run_updated", "run", "commit", "author"], JNull);
    var branch :- Lookup(payload, ["run_updated", "run", "commit", "branch"], JNull);
    var hash :- Lookup(payload, ["run_updated", "run", "commit", "hash"], JNull);
    var message :- Lookup(payload, ["run_updated", "run", "commit", "message"], JNull);
    var url :- Lookup(payload, ["run_updated", "run", "commit", "url"], JNull);
    var author' :- AsStr("CommitInfo", "author", author);
    var branch' :- AsStr("CommitInfo", "branch", branch);
    var hash' :- AsStr("CommitInfo", "hash", hash);
    var message' :- AsStr("CommitInfo", "message", message);
    var url' :- AsStr("CommitInfo", "url", url);
    Ok(CommitInfo(author', branch', hash', message', url'))
  }

  /** `parse_payload`: the arguments in source order, then the outer model's own
      checks of `account_name` and `changes` (which defaults to `[]`). */
  function ParsePayload(payload: Json): (r: Result<SpaceliftPayload>)
    ensures r.Ok? ==> Lookup(payload, ["account", "name"], JNull) == Ok(JStr(r.value.accountName))
    ensures r.Ok? ==> ParseRunInfo(payload) == Ok(r.value.run) && ParseStackInfo(payload) == Ok(r.value.stack)
    ensures r.Ok? ==> ParseSpaceInfo(payload) == Ok(r.value.space) && ParseCommitInfo(payload) == Ok(r.value.commit)
    ensures r.Ok? ==> Lookup(payload, ["run_updated", "run", "changes"], JList([])) == Ok(JList(EncodeDicts(r.value.changes)))
    ensures (ParseRunInfo(payload).Err? || ParseStackInfo(payload).Err? ||
             ParseSpaceInfo(payload).Err? || ParseCommitInfo(payload).Err?) ==> r.Err?
  {
    var accountName :- Lookup(payload, ["account", "name"], JNull);
    var run :- ParseRunInfo(payload);
    var stack :- ParseStackInfo(payload);
    var space :- ParseSpaceInfo(payload);
    var commit :- ParseCommitInfo(payload);
    var changes :- Lookup(payload, ["run_updated", "run", "changes"], JList([]));
    var accountName' :- AsStr("SpaceliftPayload", "account_name", accountName);
    var changes' :- AsDictList("SpaceliftPayload", "changes", changes);
    Ok(SpaceliftPayload(accountName', run, stack, space, commit, changes'))
  }

  /** The `processed_data` part of the answer. */
  function ProcessedData(p: SpaceliftPayload): map<string, Json>
  {
    map[
      "account_name" := JStr(p.accountName),
      "run_id" := JStr(p.run.id),
      "run_state" := JStr(p.run.state),
      "stack_id" := JStr(p.stack.id),
      "stack_name" := JStr(p.stack.name),
      "space_id" := JStr(p.space.id),
      "space_name" := JStr(p.space.name),
      "commit_hash" := JStr(p.commit.hash),
      "commit_branch" := JStr(p.commit.branch),
      "changes_count" := JInt(|p.changes|)]
  }

  /** The answer to a request, given what `parse_payload` made of it. */
  function Respond(parsed: Result<SpaceliftPayload>): (r: Response<Json>)
    ensures r.Ok200? <==> parsed.Ok?
    ensures r.HttpError? ==> r.status == 400 && r.detail == "Invalid payload"
    ensures r.Ok200? ==>
      r.body.JObj? && r.body.fields.Keys == {"status", "message", "processed_data"} &&
      r.body.fields["status"] == JStr("success") &&
      r.body.fields["message"] == JStr("Webhook received and processed") &&
      r.body.fields["processed_data"] == JObj(ProcessedData(parsed.value))
  {
    match parsed
    case Err(_) => HttpError(400, "Invalid payload")
    case Ok(p) =>
      Ok200(JObj(map[
        "status" := JStr("success"),
        "message" := JStr("Webhook received and processed"),
        "processed_data" := JObj(ProcessedData(p))]))
  }

  /** The `/webhook` handler: every failure, whatever raised it, becomes 400
      "Invalid payload"; a success reports the parsed account, run and stack and
      the number of changes. */
  function Webhook(request: WebhookPayload): (r: Response<Json>)
    ensures r.Ok200? <==> ParsePayload(AsDict(request)).Ok?
    ensures r.HttpError? ==> r.status == 400 && r.detail == "Invalid payload"
    ensures r.Ok200? ==> r.body.JObj? && r.body.fields.Keys == {"status", "message", "processed_data"}
    ensures r.Ok200? ==> r.body.fields["status"] == JStr("success")
    ensures r.Ok200? ==> r.body.fields["message"] == JStr("Webhook received and processed")
    ensures r.Ok200? ==> r.body.fields["processed_data"] == JObj(ProcessedData(ParsePayload(AsDict(request)).value))
    ensures r.Ok200? ==>
      r.body.fields["processed_data"].fields["changes_count"] == JInt(|ParsePayload(AsDict(request)).value.changes|)
  {
    var parsed := ParsePayload(AsDict(request));
    if parsed.Ok? then ProcessedDataFields(parsed.value); Respond(parsed)
    else Respond(parsed)
  }

  lemma ProcessedDataFields(p: SpaceliftPayload)
    ensures ProcessedData(p)["changes_count"] == JInt(|p.changes|)
    ensures ProcessedData(p)["run_id"] == JStr(p.run.id)
    ensures ProcessedData(p)["stack_id"] == JStr(p.stack.id)
    ensures ProcessedData(p)["account_name"] == JStr(p.accountName)
  {
  }

  // ---- the lookups, one section at a time -----------------------------------------

  /** `d.get(k, {})`, for a dict `d`. */
  function Section(m: map<string, Json>, k: string): Json
  {
    if k in m then m[k] else JObj(map[])
  }

  lemma AccountLookup(request: WebhookPayload, key: string, default: Json)
    ensures Lookup(AsDict(request), ["account", key], default) == Get(JObj(request.account), key, default)
  {
    assert ["account", key][1..] == [key];
  }

  lemma SectionLookup(request: WebhookPayload, section: string, key: string, default: Json)
    ensures Lookup(AsDict(request), ["run_updated", section, key], default)
            == Get(Section(request.runUpdated, section), key, default)
  {
    var path := ["run_updated", section, key];
    assert path[1..] == [section, key] && path[1..][1..] == [key];
    assert Get(AsDict(request), "run_updated", JObj(map[])) == Ok(JObj(request.runUpdated));
    assert Get(JObj(request.runUpdated), section, JObj(map[])) == Ok(Section(request.runUpdated, section));
    assert Lookup(AsDict(request), path, default) == Lookup(JObj(request.runUpdated), path[1..], default);
    assert Lookup(JObj(request.runUpdated), path[1..], default) == Lookup(Section(request.runUpdated, section), [key], default);
  }

  lemma NestedLookup(request: WebhookPayload, section: string, sub: string, key: string, default: Json)
    ensures Lookup(AsDict(request), ["run_updated", section, sub, key], default)
            == (var outer :- Get(Section(request.runUpdated, section), sub, JObj(map[]));
                Get(outer, key, default))
  {
    var path := ["run_updated", section, sub, key];
    assert path[1..] == [section, sub, key] && path[1..][1..] == [sub, key] && path[1..][1..][1..] == [key];
    assert Get(AsDict(request), "run_updated", JObj(map[])) == Ok(JObj(request.runUpdated));
    assert Get(JObj(request.runUpdated), section, JObj(map[])) == Ok(Section(request.runUpdated, section));
    assert Lookup(AsDict(request), path, default) == Lookup(JObj(request.runUpdated), path[1..], default);
    assert Lookup(JObj(request.runUpdated), path[1..], default)
           == Lookup(Section(request.runUpdated, section), [sub, key], default);
    var outer := Get(Section(request.runUpdated, section), sub, JObj(map[]));
    assert [sub, key][1..] == [key];
    if outer.Ok? {
      assert Lookup(Section(request.runUpdated, section), [sub, key], default) == Lookup(outer.value, [key], default);
      assert Lookup(outer.value, [key], default) == Get(outer.value, key, default);
    } else {
      assert Lookup(Section(request.runUpdated, section), [sub, key], default) == outer.PropagateFailure();
    }
  }

  // ---- a request carrying a given payload -------------------------------------------

  function EncodeStrings(items: seq<string>): (r: seq<Json>)
    ensures |r| == |items|
  {
    if items == [] then [] else [JStr(items[0])] + EncodeStrings(items[1..])
  }

  function EncodeDicts(items: seq<map<string, Json>>): (r: seq<Json>)
    ensures |r| == |items|
  {
    if items == [] then [] else [JObj(items[0])] + EncodeDicts(items[1..])
  }

  lemma {:induction false} StringsOfEncoded(items: seq<string>)
    ensures Strings(EncodeStrings(items)) == Some(items)
    decreases |items|
  {
    if items != [] {
      var e := EncodeStrings(items);
      assert e == [JStr(items[0])] + EncodeStrings(items[1..]);
      assert e[0] == JStr(items[0]) && e[1..] == EncodeStrings(items[1..]);
      StringsOfEncoded(items[1..]);
      assert Strings(e) == Some([items[0]] + items[1..]);
      assert [items[0]] + items[1..] == items;
    }
  }

  lemma {:induction false} DictsOfEncoded(items: seq<map<string, Json>>)
    ensures Dicts(EncodeDicts(items)) == Some(items)
    decreases |items|
  {
    if items != [] {
      var e := EncodeDicts(items);
      assert e == [JObj(items[0])] + EncodeDicts(items[1..]);
      assert e[0] == JObj(items[0]) && e[1..] == EncodeDicts(items[1..]);
      DictsOfEncoded(items[1..]);
      assert Dicts(e) == Some([items[0]] + items[1..]);
      assert [items[0]] + items[1..] == items;
    }
  }

  function EncodeCommit(c: CommitInfo): Json
  {
    JObj(map["author" := JStr(c.author), "branch" := JStr(c.branch), "hash" := JStr(c.hash),
             "message" := JStr(c.message), "url" := JStr(c.url)])
  }

  function EncodeRun(p: SpaceliftPayload): map<string, Json>
  {
    map["id" := JStr(p.run.id), "state" := JStr(p.run.state), "type" := JStr(p.run.runType),
        "created_at" := JInt(p.run.createdAt), "updated_at" := JInt(p.run.updatedAt),
        "commit" := EncodeCommit(p.commit), "changes" := JList(EncodeDicts(p.changes))]
  }

  function EncodeStack(p: SpaceliftPayload): map<string, Json>
  {
    map["id" := JStr(p.stack.id), "name" := JStr(p.stack.name), "namespace" := JStr(p.stack.namespace),
        "labels" := JList(EncodeStrings(p.stack.labels)),
        "space" := JObj(map["id" := JStr(p.space.id), "name" := JStr(p.space.name)])]
  }

  /** A Spacelift notification carrying every field of `p`, with the run and
      stack sections given. */
  function RequestWith(p: SpaceliftPayload, run: map<string, Json>, stack: map<string, Json>): WebhookPayload
  {
    WebhookPayload(map["name" := JStr(p.accountName)], map["run" := JObj(run), "stack" := JObj(stack)])
  }

  function EncodeRequest(p: SpaceliftPayload): WebhookPayload
  {
    RequestWith(p, EncodeRun(p), EncodeStack(p))
  }

  /** The commit section holds every field of `p.commit`, among any others
      (such as `created_at`). */
  predicate CarriesCommit(p: SpaceliftPayload, commit: map<string, Json>)
  {
    "author" in commit && commit["author"] == JStr(p.commit.author) &&
    "branch" in commit && commit["branch"] == JStr(p.commit.branch) &&
    "hash" in commit && commit["hash"] == JStr(p.commit.hash) &&
    "message" in commit && commit["message"] == JStr(p.commit.message) &&
    "url" in commit && commit["url"] == JStr(p.commit.url)
  }

  /** The space section holds `p.space`'s id and name, among any others (such
      as `labels`). */
  predicate CarriesSpace(p: SpaceliftPayload, space: map<string, Json>)
  {
    "id" in space && space["id"] == JStr(p.space.id) &&
    "name" in space && space["name"] == JStr(p.space.name)
  }

  /** The run section holds every field of `p.run` and `p.commit`. */
  predicate CarriesRun(p: SpaceliftPayload, run: map<string, Json>)
  {
    "id" in run && run["id"] == JStr(p.run.id) &&
    "state" in run && run["state"] == JStr(p.run.state) &&
    "type" in run && run["type"] == JStr(p.run.runType) &&
    "created_at" in run && run["created_at"] == JInt(p.run.createdAt) &&
    "updated_at" in run && run["updated_at"] == JInt(p.run.updatedAt) &&
    "commit" in run && run["commit"].JObj? && CarriesCommit(p, run["commit"].fields) &&
    ("changes" in run ==> run["changes"] == JList(EncodeDicts(p.changes))) &&
    ("changes" !in run ==> p.changes == [])
  }

  /** The stack section holds every field of `p.stack` and `p.space`. */
  predicate CarriesStack(p: SpaceliftPayload, stack: map<string, Json>)
  {
    "id" in stack && stack["id"] == JStr(p.stack.id) &&
    "name" in stack && stack["name"] == JStr(p.stack.name) &&
    "namespace" in stack && stack["namespace"] == JStr(p.stack.namespace) &&
    "space" in stack && stack["space"].JObj? && CarriesSpace(p, stack["space"].fields) &&
    ("labels" in stack ==> stack["labels"] == JList(EncodeStrings(p.stack.labels))) &&
    ("labels" !in stack ==> p.stack.labels == [])
  }

  /** A notification carrying `p`: `account.name` is the account name, and the
      `run` and `stack` sections of `run_updated` carry the run and the stack.
      Any other keys (`account.id`, `run_updated.state`, `timing`, `urls`, ...)
      may be present and are ignored. */
  predicate CarriesPayload(p: SpaceliftPayload, request: WebhookPayload)
  {
    "name" in request.account && request.account["name"] == JStr(p.accountName) &&
    "run" in request.runUpdated && request.runUpdated["run"].JObj? &&
    CarriesRun(p, request.runUpdated["run"].fields) &&
    "stack" in request.runUpdated && request.runUpdated["stack"].JObj? &&
    CarriesStack(p, request.runUpdated["stack"].fields)
  }

  lemma RunInfoOf(p: SpaceliftPayload, request: WebhookPayload)
    requires CarriesPayload(p, request)
    ensures ParseRunInfo(AsDict(request)) == Ok(p.run)
  {
    assert Section(request.runUpdated, "run") == request.runUpdated["run"];
    SectionLookup(request, "run", "id", JNull);
    SectionLookup(request, "run", "state", JNull);
    SectionLookup(request, "run", "type", JNull);
    SectionLookup(request, "run", "created_at", JNull);
    SectionLookup(request, "run", "updated_at", JNull);
  }

  lemma CommitInfoOf(p: SpaceliftPayload, request: WebhookPayload)
    requires CarriesPayload(p, request)
    ensures ParseCommitInfo(AsDict(request)) == Ok(p.commit)
  {
    assert Section(request.runUpdated, "run") == request.runUpdated["run"];
    NestedLookup(request, "run", "commit", "author", JNull);
    NestedLookup(request, "run", "commit", "branch", JNull);
    NestedLookup(request, "run", "commit", "hash", JNull);
    NestedLookup(request, "run", "commit", "message", JNull);
    NestedLookup(request, "run", "commit", "url", JNull);
  }

  lemma StackInfoOf(p: SpaceliftPayload, request: WebhookPayload)
    requires CarriesPayload(p, request)
    ensures ParseStackInfo(AsDict(request)) == Ok(p.stack)
  {
    assert Section(request.runUpdated, "stack") == request.runUpdated["stack"];
    SectionLookup(request, "stack", "id", JNull);
    SectionLookup(request, "stack", "name", JNull);
    SectionLookup(request, "stack", "namespace", JNull);
    SectionLookup(request, "stack", "labels", JList([]));
    StringsOfEncoded(p.stack.labels);
  }

  lemma SpaceInfoOf(p: SpaceliftPayload, request: WebhookPayload)
    requires CarriesPayload(p, request)
    ensures ParseSpaceInfo(AsDict(request)) == Ok(p.space)
  {
    assert Section(request.runUpdated, "stack") == request.runUpdated["stack"];
    NestedLookup(request, "stack", "space", "id", JNull);
    NestedLookup(request, "stack", "space", "name", JNull);
  }

  /** Any notification whose sections carry `p` parses to `p`, whatever other
      keys it holds; `labels` and `changes` may be left out when empty. */
  lemma ParseRequestWith(p: SpaceliftPayload, request: WebhookPayload)
    requires CarriesPayload(p, request)
    ensures ParsePayload(AsDict(request)) == Ok(p)
  {
    AccountLookup(request, "name", JNull);
    RunInfoOf(p, request);
    CommitInfoOf(p, request);
    StackInfoOf(p, request);
    SpaceInfoOf(p, request);
    assert Section(request.runUpdated, "run") == request.runUpdated["run"];
    SectionLookup(request, "run", "changes", JList([]));
    DictsOfEncoded(p.changes);
  }

  /** Every payload record is recovered from a notification that carries it:
      `account_name` is `account.name`, the space comes from
      `run_updated.stack.space` and the commit from `run_updated.run.commit`. */
  lemma ParseEncodedRequest(p: SpaceliftPayload)
    ensures ParsePayload(AsDict(EncodeRequest(p))) == Ok(p)
  {
    assert CarriesPayload(p, EncodeRequest(p));
    ParseRequestWith(p, EncodeRequest(p));
  }

  /** A stack section without `labels` gives no labels, and a run section without
      `changes` gives no changes, so `changes_count` is 0. */
  lemma MissingListsDefault(p: SpaceliftPayload)
    requires p.stack.labels == [] && p.changes == []
    ensures ParsePayload(AsDict(RequestWith(p, EncodeRun(p) - {"changes"}, EncodeStack(p) - {"labels"}))) == Ok(p)
    ensures Webhook(RequestWith(p, EncodeRun(p) - {"changes"}, EncodeStack(p) - {"labels"})).Ok200?
  {
    assert CarriesPayload(p, RequestWith(p, EncodeRun(p) - {"changes"}, EncodeStack(p) - {"labels"}));
    ParseRequestWith(p, RequestWith(p, EncodeRun(p) - {"changes"}, EncodeStack(p) - {"labels"}));
  }

  /** A run section without a string `id` (the key missing, null, another type,
      or no run dict at all) fails the required field, and the handler answers
      400 "Invalid payload". */
  lemma MissingRunIdRejected(request: WebhookPayload)
    requires var run := Section(request.runUpdated, "run");
      !(run.JObj? && "id" in run.fields && run.fields["id"].JStr?)
    ensures Webhook(request) == HttpError(400, "Invalid payload")
  {
    AccountLookup(request, "name", JNull);
    SectionLookup(request, "run", "id", JNull);
    assert ParseRunInfo(AsDict(request)).Err?;
    assert ParsePayload(AsDict(request)).Err?;
  }
}

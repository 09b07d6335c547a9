# Spacelift glue: a Dafny model of its pure core

The repository ties Spacelift (an infrastructure-as-code platform) to Temporal
workflows and FastAPI endpoints. Around the network calls sit a few pure
computations, and these are what this project models and proves things about:

- **Dependency labels** (`scripts/add_dependency_labels.py`). The script
  turns a stack's fetched dependency graph into a sorted list of the other
  stacks' ids, without repetitions. It then computes the stack's new label
  list: the labels without the `dependsOn:` prefix, in their order, followed by
  one `dependsOn:<id>` label per dependency. A change is reported when the
  old and new `dependsOn:` labels differ as sets. Module `DependencyLabels`,
  with Python's string order and `sorted(set)` in `StringOrder`.
- **Dependent stacks**. This filter keeps the stacks that have a label
  containing `dependsOn:<stack_id>`. The repository holds three identical
  copies of it, and all three are `DependentStacks.DependentStacks`:
  - `src/temporal/activities/stack_dependencies.py`
  - `src/spacelift/activities/get_dependent_stacks.py`
  - `src/spacelift/workflow/dependent_stacks_workflow.py`

  The three cited copies appear in different rows of the table below.
- **Webhook workflow** (`src/spacelift/workflow/spacelift_webhook_workflow.py`).
  It projects a webhook payload onto a run-details record, filling in
  defaults for absent keys. It also holds the state-to-command mapping and
  the result of the workflow's `run`. Module `WebhookWorkflow`.
- **Webhook receiver** (`src/spacelift/webhook/app.py`). `parse_payload`
  builds typed records from a payload. The `/webhook` handler answers with a
  summary of them, or with 400 "Invalid payload". Module `WebhookApp`.
- **Value normaliser** (`src/spacelift/models/notification_policy.py`).
  `convert_to_dict` and `NotificationPolicy.to_dict`. Module
  `NotificationPolicy`.
- **Stack endpoints** (`app.py`). The label and state filters of
  `list_stacks` and `get_stacks_by_state`, and the error mapping of
  `get_stack`. Module `StackApi`.

Shared modules:

- `Json` holds the decoded JSON values and the Python exceptions. It also
  holds the Python operations the code relies on:
  - `dict.get`, which gives the default only for an absent key and keeps a
    present null;
  - `in`;
  - `str()`;
  - comprehensions whose condition may raise.
- `Seqs` states what an order-preserving filter is. This takes two
  predicates:
  - `IsSubsequence` says the result keeps the original order;
  - `KeepsExactly` compares multiset counts, so every element that passes is
    kept as often as it occurs and every other element is dropped.

What the Spacelift client returned (or raised) is always a parameter. A
Python exception is an `Err` value, and an HTTP answer is a `Response`.

## Model

| member | source | states |
|---|---|---|
| StringOrder.SortedList | scripts/add_dependency_labels.py:32 | `sorted()` of a set of strings is strictly ascending in Python's string order and holds exactly the set's elements, once each |
| StringOrder.StrictlySortedUnique | scripts/add_dependency_labels.py:32 | two strictly ascending lists with the same elements are equal, so the sorted output is canonical |
| DependencyLabels.StackDependencies | scripts/add_dependency_labels.py:27-33 | the dependency list is strictly sorted, has no duplicates, holds exactly the graph's ids other than the stack's own, and is empty for a null or empty graph |
| DependencyLabels.StackDependenciesCanonical | scripts/add_dependency_labels.py:29-32 | any strictly sorted list holding exactly the other stacks of the graph is the dependency list |
| DependencyLabels.NewLabels | scripts/add_dependency_labels.py:93-97 | the new list's non-`dependsOn:` labels are the current ones, in order, and its `dependsOn:` labels are one per dependency, in dependency order |
| DependencyLabels.SyncLabels | scripts/add_dependency_labels.py:79-99 | no dependencies means returning early with nothing computed; otherwise the new list's non-`dependsOn:` labels are the current ones in order, its `dependsOn:` labels are one per dependency in dependency order, every label after a `dependsOn:` label is one too (the other labels come first), and a change is reported iff the two sets of `dependsOn:` labels differ |
| DependencyLabels.OtherLabelsIdempotent | scripts/add_dependency_labels.py:97 | dropping `dependsOn:` labels twice is dropping them once, and leaves no `dependsOn:` label |
| DependencyLabels.SyncLabelsIdempotent | scripts/add_dependency_labels.py:93-99 | recomputing on the produced labels with the same dependencies gives the same labels and reports no change |
| DependencyLabels.DependencyLabelsSorted | scripts/add_dependency_labels.py:93 | for a sorted dependency list the new `dependsOn:` labels are strictly sorted too |
| DependencyLabels.SyncLabelsExample | scripts/add_dependency_labels.py:93-99 | `team:x`, `dependsOn:A`, `env:prod` with dependency `B` becomes `team:x`, `env:prod`, `dependsOn:B`, reported as a change |
| DependencyLabels.SyncLabelsReorderedExample | scripts/add_dependency_labels.py:96-99 | reordered and repeated `dependsOn:` labels with the same set are not reported as a change |
| Json.TryFilter | src/temporal/activities/stack_dependencies.py:35-45 | a comprehension whose condition may raise: the result is an order-preserving subsequence keeping exactly the items whose test is true; it fails iff some test raises, and then with the first such exception; empty input gives empty output |
| Json.IsSubstringAt | src/temporal/activities/stack_dependencies.py:39-40 | Python's `needle in haystack` on strings holds iff the needle occurs at some offset |
| DependentStacks.DependentStacks | src/temporal/activities/stack_dependencies.py:35-45 | the dependent stacks are an order-preserving subsequence of the input, each kept stack unchanged and kept iff its label test is true; the filter raises iff some stack's test raises; empty input gives empty output |
| DependentStacks.AnyContains | src/temporal/activities/stack_dependencies.py:38-44 | the short-circuiting `any`, scanning left to right: true only if some label contains the needle and every label before it evaluates to False, false only if no label does, and an error is the first raising label's error with only False before it |
| DependentStacks.DependsOn | src/temporal/activities/stack_dependencies.py:38-44 | a stack without `labels` does not depend on anything; labels that are null, a number or a bool raise |
| DependentStacks.AnyContainsStrings | src/temporal/activities/stack_dependencies.py:38-44 | on a list of string labels, `any(...)` never raises and is true iff some label contains the needle |
| DependentStacks.DependsOnWellFormed | src/spacelift/activities/get_dependent_stacks.py:24 | for labels that are absent or a list of strings, the test is "some label contains `dependsOn:<id>`"; a stack without `labels` is not kept |
| DependentStacks.DependentStacksWellFormed | src/spacelift/workflow/dependent_stacks_workflow.py:23-26 | on well-formed stacks the filter does not raise and keeps exactly the stacks with a label containing `dependsOn:<id>` |
| DependentStacks.SubstringMatchExample | src/temporal/activities/stack_dependencies.py:39-40 | matching is by substring: a `dependsOn:ab` label marks a dependency on stack `a` |
| WebhookWorkflow.ParseRunContext | src/spacelift/workflow/spacelift_webhook_workflow.py:14-59 | the context keeps the raw payload it was built from |
| WebhookWorkflow.ParseRunContextSucceeds | src/spacelift/workflow/spacelift_webhook_workflow.py:24-57 | building the context fails iff some section that is present (`run_updated`, `run`, `stack`, `commit`, a change's `entity`) is not a dict, or `changes` is not iterable into dicts; absent sections count as `{}` |
| WebhookWorkflow.MissingSectionsDefaults | src/spacelift/workflow/spacelift_webhook_workflow.py:24-33 | without `run_updated` the details are the defaults: state `UNKNOWN`, type `UNSPECIFIED`, branch `main`, command `''`, the rest null and no changes |
| WebhookWorkflow.PresentNullIsKept | src/spacelift/workflow/spacelift_webhook_workflow.py:30 | a `state` key that is present with null stays null; defaults apply to absent keys only |
| WebhookWorkflow.NullCommitRaises | src/spacelift/workflow/spacelift_webhook_workflow.py:37-39 | an explicit null `commit` makes the chained `get` fail, and the workflow's `run` raises |
| WebhookWorkflow.FieldsFollowPayload | src/spacelift/workflow/spacelift_webhook_workflow.py:24-47 | on a well-shaped payload every scalar field is the value at its key, even null, or the default when the key is absent: `UNKNOWN` state, `UNSPECIFIED` type, `main` branch, `''` command, None for the id, the commit fields and the stack fields |
| WebhookWorkflow.ParseChange | src/spacelift/workflow/spacelift_webhook_workflow.py:52-56 | one change parses iff it is a dict whose `entity` is a dict or absent, and then carries its `action` and the entity's `entity_type` and `name`, None where absent |
| WebhookWorkflow.ParseChanges | src/spacelift/workflow/spacelift_webhook_workflow.py:51-58 | the parsed list has one entry per change, entry `i` being change `i` parsed |
| WebhookWorkflow.ChangeEntries | src/spacelift/workflow/spacelift_webhook_workflow.py:57 | a list of changes gives one entry per change; an empty string or dict gives no entries; null, a number or a bool raises TypeError as not iterable |
| WebhookWorkflow.ParseChangesSucceeds | src/spacelift/workflow/spacelift_webhook_workflow.py:51-58 | the changes parse iff every entry is a dict whose `entity` is a dict or absent, and then there is one entry per change |
| WebhookWorkflow.ChangesFollowPayload | src/spacelift/workflow/spacelift_webhook_workflow.py:51-58 | `changes` has the length and order of `run.changes` (empty when absent), each entry carrying only `action`, `entity_type` and the entity's `name` |
| WebhookWorkflow.ParseEncodedChanges | src/spacelift/workflow/spacelift_webhook_workflow.py:51-58 | encoding a list of change records and parsing it back gives the list |
| WebhookWorkflow.ParseEncodedPayload | src/spacelift/workflow/spacelift_webhook_workflow.py:21-59 | a payload carrying every field of a run-details record parses back to that record |
| WebhookWorkflow.TriggerCommand | src/spacelift/workflow/spacelift_webhook_workflow.py:61-73 | an apply or plan command ends with the stack's name and is exactly as long as its fixed prefix plus that name; any other state gives a message ending with the state and exactly as long as "Unhandled state: " plus the state (with `TriggerCommandCases` fixing the prefix, this pins the whole text) |
| WebhookWorkflow.TriggerCommandCases | src/spacelift/workflow/spacelift_webhook_workflow.py:68-73 | the command is an apply iff the state is `APPLYING`, a plan iff it is `PLANNING`, and "Unhandled state" otherwise |
| WebhookWorkflow.Run | src/spacelift/workflow/spacelift_webhook_workflow.py:93-127 | `run` succeeds iff parsing does and re-raises its error; whatever the state, the answer has exactly `status` = "processed", `run_id` and `state` from the parsed details |
| WebhookApp.Respond | src/spacelift/webhook/app.py:91-109 | success answers `status` "success", `message` "Webhook received and processed" and `processed_data`; any failure answers 400 "Invalid payload" |
| WebhookApp.Webhook | src/spacelift/webhook/app.py:78-109 | 200 iff parsing succeeds, else 400 "Invalid payload"; the body has exactly `status` "success", `message` "Webhook received and processed" and `processed_data`, and `changes_count` is the number of parsed changes |
| WebhookApp.ProcessedDataFields | src/spacelift/webhook/app.py:94-104 | `changes_count`, `run_id`, `stack_id` and `account_name` equal the parsed values |
| WebhookApp.ParsePayload | src/spacelift/webhook/app.py:48-76 | a parsed payload holds the string at `account.name`, the run, stack, space and commit records built from their sections, and exactly the dicts listed at `run_updated.run.changes`; any record that fails to build makes parsing fail |
| WebhookApp.AsStrList | src/spacelift/webhook/app.py:30 | an accepted `List[str]` field was exactly the list of the strings it yields; a rejected one raises a validation error naming the model and field |
| WebhookApp.AsDictList | src/spacelift/webhook/app.py:42 | an accepted `List[Dict]` field was exactly the list of the dicts it yields; a rejected one raises a validation error naming the model and field |
| WebhookApp.ParseRequestWith | src/spacelift/webhook/app.py:48-76 | any request whose `account.name`, `run_updated.run` and `run_updated.stack` carry a payload record parses to it, whatever other keys the sections hold (`account.id`, `run_updated.state`, `timing`, `urls`, ...), the nested `commit` and `space` dicts included (`commit.created_at`, `space.labels`, ...); `labels` and `changes` may be absent when empty |
| WebhookApp.ParseEncodedRequest | src/spacelift/webhook/app.py:48-76 | a payload record is recovered from a request carrying it: `account_name` from `account.name`, space from `run_updated.stack.space`, commit from `run_updated.run.commit` |
| WebhookApp.MissingListsDefault | src/spacelift/webhook/app.py:62-75 | a stack without `labels` and a run without `changes` give empty lists, and the request is answered with 200 |
| WebhookApp.MissingRunIdRejected | src/spacelift/webhook/app.py:107-109 | a run without a string `id` (absent, null, another type, or no run dict) is answered with 400 "Invalid payload" |
| WebhookApp.StringsOfEncoded | src/spacelift/webhook/app.py:30 | a list of strings passes the `List[str]` check unchanged |
| WebhookApp.DictsOfEncoded | src/spacelift/webhook/app.py:42 | a list of dicts passes the `List[Dict[str, Any]]` check unchanged |
| NotificationPolicy.AsDictInner | src/spacelift/models/notification_policy.py:8 | `asdict` leaves no dataclass instance anywhere inside, and leaves a value without one unchanged |
| NotificationPolicy.ConvertToDict | src/spacelift/models/notification_policy.py:5-15 | dicts and dataclasses become dicts with the same keys, lists keep their length, and any other object becomes its string form |
| NotificationPolicy.ConvertFromJson | src/spacelift/models/notification_policy.py:9-14 | plain dicts, lists, str, int, float, bool and None come back unchanged |
| NotificationPolicy.ConvertIdempotent | src/spacelift/models/notification_policy.py:5-15 | converting the output again changes nothing |
| NotificationPolicy.ConvertAsDictInner | src/spacelift/models/notification_policy.py:7-8 | going through `asdict` before converting gives the same result as converting directly |
| NotificationPolicy.DataclassAsFields | src/spacelift/models/notification_policy.py:7-10 | a dataclass converts exactly as the dict of its fields does |
| NotificationPolicy.DataclassField | src/spacelift/models/notification_policy.py:7-8 | a dataclass field `k` becomes key `k` holding the converted field value |
| NotificationPolicy.ConvertList | src/spacelift/models/notification_policy.py:11-12 | list element `i` becomes the converted element `i` |
| NotificationPolicy.ToDict | src/spacelift/models/notification_policy.py:200-202 | `to_dict` has exactly the keys `account`, `run_updated`, `webhook_endpoints`, `internal_error` and `module_version` |
| NotificationPolicy.ToDictFields | src/spacelift/models/notification_policy.py:192-202 | each entry is the converted field; the account keeps its entries, and an absent optional section is null |
| StackApi.Upper | app.py:91 | `state.upper()` keeps the length, maps each lower-case ASCII letter to its upper-case letter and leaves every other character as it is |
| StackApi.UpperFixes | app.py:91 | upper-casing leaves no lower-case letter and changes nothing in an upper-case string |
| StackApi.HasLabel | app.py:86-87 | a stack without `labels` is not kept; on list labels the test is an exact element match; labels that are null, a number or a bool raise |
| StackApi.HasState | app.py:90-91 | a stack matches only when its `state` is a string with no lower-case letter |
| StackApi.FilterStacks | app.py:86-91 | only the label filter can raise; the result is an order-preserving subsequence of the stacks, and with a state given every kept stack has that upper-cased state |
| StackApi.ListStacks | app.py:73-95 | a failed fetch, or a filter that raises, answers 500 with the exception's text; otherwise the answer is 200 with the filtered list, an order-preserving subsequence of the fetched stacks |
| StackApi.NoFilters | app.py:86-93 | with neither `label` nor `state` given (None or empty), the fetched list is returned as it is |
| StackApi.LabelFilterExact | app.py:86-87 | on list-valued labels, the label filter does not raise and keeps exactly the stacks with `label` as an element (exact match); stacks without labels are dropped |
| StackApi.ListStacksFilters | app.py:86-93 | on list-valued labels, whichever parameters are given, the answer is 200 and keeps exactly the stacks carrying the label (if given) and having the upper-cased state (if given), in their original order |
| StackApi.GetStacksByState | app.py:97-114 | the answer keeps exactly the stacks whose `state` equals the upper-cased parameter, in order; a failed fetch answers 500 |
| StackApi.ByStateIsListStacks | app.py:111 | for a non-empty state, `get_stacks_by_state` answers what `list_stacks` answers with only that state |
| StackApi.EmptyStateDiffers | app.py:90-91 | for an empty state the two differ: `list_stacks` ignores it, `get_stacks_by_state` keeps only stacks whose state is ""; the `/stacks/state/{state}` route never passes "", so this shows only on a direct call |
| StackApi.StateNotNormalised | app.py:91 | only the parameter is upper-cased: a stack whose own state has a lower-case letter is matched by no parameter, while any spelling of the parameter matches its upper-cased form |
| StackApi.GetStack | app.py:116-129 | the stack is returned iff it was found and is non-empty; every failure, the missing stack included, answers 500 |
| StackApi.NotFoundBecomes500 | app.py:125-129 | a missing or empty stack answers 500 with detail "404: Stack not found" |
| StackApi.GetStackIntended | app.py:125-126 | with the 404 let through, a missing stack answers 404 "Stack not found" and other failures stay 500 |
| StackApi.GetStackDiffersOnlyWhenMissing | app.py:125-129 | the code as written and the intended handler differ exactly on a missing stack |

Helpers without a row of their own are covered by the rows of the members that use them:

- `Json.Get`, `Json.Lookup` and `Json.In` by the parsing and filtering rows.
- `Json.Display` by `WebhookWorkflow.TriggerCommand`.
- `Json.Describe` (Python's `str(e)` on an exception, app.py:95, 114, 129) by `StackApi.ListStacks`, `StackApi.GetStacksByState`, `StackApi.GetStack` and `StackApi.NotFoundBecomes500`.
- `WebhookApp.ParseRunInfo`, `ParseStackInfo`, `ParseSpaceInfo` and `ParseCommitInfo` by `WebhookApp.ParsePayload` and `WebhookApp.ParseRequestWith`.
- `WebhookApp.ProcessedData` by `WebhookApp.Respond` and `WebhookApp.ProcessedDataFields`.
- `DependentStacks.AnyLabelContains` by `DependentStacks.DependsOn` and `DependentStacks.DependsOnWellFormed`.

## Findings

| source | as written | input that shows it | evidently intended | confidence | as-written member | corrected member |
|---|---|---|---|---|---|---|
| app.py:125-129 | `raise HTTPException(status_code=404, ...)` sits inside a `try` whose `except Exception` turns every exception into a 500 | `get_stack_by_id` returning None (or `{}`) for the requested id | a 404 "Stack not found" answer, as the explicit 404 shows | high that the status is 500 as written; not executed | StackApi.NotFoundBecomes500 | StackApi.GetStackIntended |

## Left out

- The Spacelift client and its GraphQL queries (`get_stacks`, `get_stack_by_id`, `_execute`, `update_stack_labels`, `trigger_run`, the create and delete calls). Their results are parameters.
- `get_spacelift_client` (app.py:14-22) reads environment variables. Its ValueError becomes a 500 outside the `try`. The model folds this into the failed fetch, which answers 500 with the same detail.
- The other endpoints of `app.py` (spaces, contexts, blueprints, runs, deletes). They forward client calls and are not part of the modelled core.
- FastAPI routing, request decoding and `response_model` validation of answers, uvicorn, logging and `load_dotenv`.
- `src/app/app.py` and `src/spacelift/app.py`. They are not part of this model: they are Temporal connection and `uuid` plumbing around pydantic or dataclass parsing.
- All Temporal workflows, workers, retry policies and child workflows. Only the return value of `SpaceliftWebhookWorkflow.run` is modelled; its logging loop over the changes is left out.
- `main` in `scripts/add_dependency_labels.py`: argument parsing, printing, the hard-coded target stack lookup and the `--apply` write. The labels it reads and the dependencies it fetched are parameters of `DependencyLabels.SyncLabels`.
- DependencyLabels.StackDependencies takes the graph as the list of dependency ids. A graph entry without `stack` or `id` would raise KeyError, and that is not modelled.
- Dict key order. JSON objects and Python dicts are maps, so the order of keys in answers and in `to_dict` output is not modelled.
- Floats are opaque text: no arithmetic or comparison is done on them.
- Json.Display prints a float as its JSON text, whereas Python's f-string prints `str(float)` (JSON `1e2` shows as `100.0`). This only affects `WebhookWorkflow.TriggerCommand` when a state or stack name is a float.
- Json.Display renders a list or dict as a fixed marker rather than Python's full `repr`. This only affects `WebhookWorkflow.TriggerCommand` when a stack name or state is a list or dict.
- Json.Describe renders a pydantic ValidationError as model and field, not pydantic's full report. No modelled answer shows that text: `/webhook` answers the fixed "Invalid payload".
- WebhookApp.ParsePayload checks `str`, `int`, `List[str]` and `List[Dict]` fields strictly. Pydantic's lax coercions (for example the string "5" accepted as an int) are not modelled.
- WebhookWorkflow.ParseRunContext and the other parsers take an already decoded payload; JSON decoding is left out.
- StackApi.Upper upper-cases ASCII letters only. Python's `str.upper` also maps other scripts (and expands `ß` to `SS`), which is not modelled.
- NotificationPolicy.ConvertToDict models dict keys as strings only, and objects other than dataclasses, dicts, lists and primitives by their `str()` text, given as data. Tuples nested in a dataclass, which `asdict` keeps as tuples, fall in that last group. Calling `asdict` on a dataclass type rather than an instance (which raises) is not modelled.
- NotificationPolicy.ToDict takes the nested sections of a policy (`run_updated`, the endpoints, the internal error, the module versions) as generic values. The field lists of those dataclasses are not spelled out, and constructing a policy from keyword arguments is not modelled.
- `NotificationPolicy.to_json` is `json.dumps` of `to_dict` and is left out with JSON encoding.

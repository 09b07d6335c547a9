/** The stack endpoints of the Spacelift API wrapper: listing stacks filtered by
    label and state, and fetching one stack. What the Spacelift client returned
    (or raised) is a parameter. */
module StackApi {
  import opened Json
  import opened Seqs

  /** A stack as the client returns it: a dict of the queried fields. */
  type Stack = map<string, Json>

  /** `s.upper()` for ASCII letters; other characters are left as they are. */
  function Upper(s: string): (r: string)
    ensures |r| == |s|
    ensures forall i :: 0 <= i < |s| ==> ('a' <= s[i] <= 'z' ==> r[i] as int == s[i] as int - 32)
    ensures forall i :: 0 <= i < |s| ==> (!('a' <= s[i] <= 'z') ==> r[i] == s[i])
  {
    if s == [] then []
    else
      var c := if 'a' <= s[0] <= 'z' then (s[0] as int - 32) as char else s[0];
      [c] + Upper(s[1..])
  }

  /** A string with no lower-case ASCII letter. */
  predicate IsUpper(s: string)
  {
    forall i :: 0 <= i < |s| ==> !('a' <= s[i] <= 'z')
  }

  /** Upper-casing leaves an upper-case string as it is, so it is idempotent. */
  lemma UpperFixes(s: string)
    ensures IsUpper(Upper(s))
    ensures IsUpper(s) ==> Upper(s) == s
  {
  }

  /** `"labels" in stack and label in stack["labels"]`: `in` on the labels list
      is an exact element match (and raises when the labels cannot be searched). */
  function HasLabel(stack: Stack, name: string): (r: Result<bool>)
    ensures "labels" !in stack ==> r == Ok(false)
    ensures LabelsSearchable(stack) ==> r == Ok(Labelled(stack, name))
    ensures "labels" in stack && !(stack["labels"].JList? || stack["labels"].JStr? || stack["labels"].JObj?) ==> r.Err?
  {
    if "labels" in stack then In(name, stack["labels"]) else Ok(false)
  }

  /** `"state" in stack and stack["state"] == state.upper()`. */
  predicate HasState(stack: Stack, state: string)
    ensures HasState(stack, state) ==> "state" in stack && stack["state"].JStr? && IsUpper(stack["state"].s)
  {
    UpperFixes(state);
    "state" in stack && stack["state"] == JStr(Upper(state))
  }

  /** Python's truthiness of an optional query parameter. */
  predicate Given(param: Option<string>)
  {
    param.Some? && param.value != ""
  }

  /** The body of `list_stacks` inside its `try`: the label filter, then the
      state filter, each only when its parameter is given. */
  function FilterStacks(stacks: seq<Stack>, name: Option<string>, state: Option<string>): (r: Result<seq<Stack>>)
    ensures !Given(name) ==> r.Ok?
    ensures r.Ok? ==> IsSubsequence(r.value, stacks)
    ensures r.Ok? && Given(state) ==> forall i :: 0 <= i < |r.value| ==> HasState(r.value[i], state.value)
  {
    var byLabel :- if Given(name) then TryFilter(stacks, s => HasLabel(s, name.value)) else Ok(stacks);
    SubsequenceReflexive(stacks);
    if Given(state) then
      var kept := Filter(byLabel, s => HasState(s, state.value));
      SubsequenceTransitive(kept, byLabel, stacks);
      assert forall i :: 0 <= i < |kept| ==> multiset(kept)[kept[i]] > 0;
      Ok(kept)
    else Ok(byLabel)
  }

  /** `list_stacks`: any exception from the client or the filters becomes a 500
      whose detail is the exception's text. */
  function ListStacks(fetched: Result<seq<Stack>>, name: Option<string>, state: Option<string>): (r: Response<seq<Stack>>)
    ensures fetched.Err? ==> r == HttpError(500, Describe(fetched.error))
    ensures fetched.Ok? && FilterStacks(fetched.value, name, state).Err? ==>
      r == HttpError(500, Describe(FilterStacks(fetched.value, name, state).error))
    ensures fetched.Ok? && FilterStacks(fetched.value, name, state).Ok? ==>
      r == Ok200(FilterStacks(fetched.value, name, state).value)
    ensures r.HttpError? ==> r.status == 500
    ensures r.Ok200? ==> fetched.Ok? && IsSubsequence(r.body, fetched.value)
  {
    match fetched
    case Err(e) => HttpError(500, Describe(e))
    case Ok(stacks) =>
      match FilterStacks(stacks, name, state)
      case Err(e) => HttpError(500, Describe(e))
      case Ok(kept) => Ok200(kept)
  }

  /** `get_stacks_by_state`: only the state filter, applied unconditionally. */
  function GetStacksByState(fetched: Result<seq<Stack>>, state: string): (r: Response<seq<Stack>>)
    ensures fetched.Err? ==> r == HttpError(500, Describe(fetched.error))
    ensures fetched.Ok? ==> r.Ok200? && IsSubsequence(r.body, fetched.value)
    ensures fetched.Ok? ==> KeepsExactly(r.body, fetched.value, s => HasState(s, state))
  {
    match fetched
    case Err(e) => HttpError(500, Describe(e))
    case Ok(stacks) => Ok200(Filter(stacks, s => HasState(s, state)))
  }

  /** With neither `label` nor `state` given, the fetched list comes back as it is. */
  lemma NoFilters(stacks: seq<Stack>, name: Option<string>, state: Option<string>)
    requires !Given(name) && !Given(state)
    ensures ListStacks(Ok(stacks), name, state) == Ok200(stacks)
  {
  }

  /** Labels as Spacelift sends them: absent, or a list. */
  predicate LabelsSearchable(stack: Stack)
  {
    "labels" in stack ==> stack["labels"].JList?
  }

  /** Some label is exactly `name`. */
  predicate Labelled(stack: Stack, name: string)
  {
    "labels" in stack && stack["labels"].JList? && JStr(name) in stack["labels"].items
  }

  /** On searchable labels the label filter never raises and keeps exactly the
      stacks that carry `name` as one of their labels; stacks without labels
      are dropped. */
  lemma LabelFilterExact(stacks: seq<Stack>, name: string)
    requires forall s :: s in stacks ==> LabelsSearchable(s)
    ensures TryFilter(stacks, s => HasLabel(s, name)).Ok?
    ensures KeepsExactly(TryFilter(stacks, s => HasLabel(s, name)).value, stacks, s => Labelled(s, name))
  {
    forall i | 0 <= i < |stacks|
      ensures HasLabel(stacks[i], name) == Ok(Labelled(stacks[i], name))
    {
      assert stacks[i] in stacks;
    }
  }

  /** What `list_stacks` keeps: a stack passes when it carries the label, if one
      is given, and has the upper-cased state, if one is given. */
  predicate Wanted(stack: Stack, name: Option<string>, state: Option<string>)
  {
    (!Given(name) || Labelled(stack, name.value)) && (!Given(state) || HasState(stack, state.value))
  }

  /** On searchable labels `list_stacks` answers 200 with exactly the wanted
      stacks, in their original order, whichever parameters are given. */
  lemma ListStacksFilters(stacks: seq<Stack>, name: Option<string>, state: Option<string>)
    requires forall s :: s in stacks ==> LabelsSearchable(s)
    ensures ListStacks(Ok(stacks), name, state).Ok200?
    ensures IsSubsequence(ListStacks(Ok(stacks), name, state).body, stacks)
    ensures KeepsExactly(ListStacks(Ok(stacks), name, state).body, stacks, s => Wanted(s, name, state))
  {
    var byLabel: seq<Stack>;
    if Given(name) {
      LabelFilterExact(stacks, name.value);
      byLabel := TryFilter(stacks, s => HasLabel(s, name.value)).value;
    } else {
      byLabel := stacks;
    }
    var kept: seq<Stack>;
    if Given(state) {
      kept := Filter(byLabel, s => HasState(s, state.value));
    } else {
      kept := byLabel;
    }
    assert FilterStacks(stacks, name, state) == Ok(kept);
    ComposeCounts(stacks, byLabel, kept, name, state);
  }

  /** The two filter stages together keep exactly the wanted stacks. */
  lemma ComposeCounts(stacks: seq<Stack>, byLabel: seq<Stack>, kept: seq<Stack>, name: Option<string>, state: Option<string>)
    requires forall s :: multiset(byLabel)[s] == if !Given(name) || Labelled(s, name.value) then multiset(stacks)[s] else 0
    requires forall s :: multiset(kept)[s] == if !Given(state) || HasState(s, state.value) then multiset(byLabel)[s] else 0
    ensures KeepsExactly(kept, stacks, s => Wanted(s, name, state))
  {
  }

  /** `get_stacks_by_state` answers what `list_stacks` answers with only a
      (non-empty) state given. */
  lemma ByStateIsListStacks(fetched: Result<seq<Stack>>, state: string)
    requires state != ""
    ensures GetStacksByState(fetched, state) == ListStacks(fetched, None, Some(state))
  {
  }

  /** An empty state is where the two differ: `list_stacks` ignores it, while
      `get_stacks_by_state` keeps only the stacks whose state is "". The route
      `/stacks/state/{state}` never passes "", since a path parameter matches a
      non-empty segment, so the difference shows only on a direct call. */
  lemma EmptyStateDiffers()
    ensures ListStacks(Ok([map["state" := JStr("FINISHED")]]), None, Some("")) == Ok200([map["state" := JStr("FINISHED")]])
    ensures GetStacksByState(Ok([map["state" := JStr("FINISHED")]]), "") == Ok200([])
  {
    var stacks: seq<Stack> := [map["state" := JStr("FINISHED")]];
    assert !HasState(stacks[0], "");
    assert multiset(GetStacksByState(Ok(stacks), "").body)[stacks[0]] == 0;
  }

  /** The state parameter is upper-cased, the stack's own state is not: a stack
      whose state has a lower-case letter is found by no parameter, while the
      parameter matches the upper-cased state whatever its own case. */
  lemma StateNotNormalised(stack: Stack, state: string)
    ensures "state" in stack && stack["state"].JStr? && !IsUpper(stack["state"].s) ==> !HasState(stack, state)
    ensures HasState(map["state" := JStr(Upper(state))], state)
  {
    UpperFixes(state);
  }

  // ---- get_stack ------------------------------------------------------------------

  /** `get_stack` as written: an absent or empty stack raises a 404 inside the
      `try`, and the generic handler turns that, like any other exception, into
      a 500 whose detail is the 404's text. */
  function GetStack(fetched: Result<Option<Stack>>): (r: Response<Stack>)
    ensures r.Ok200? <==> fetched.Ok? && fetched.value.Some? && fetched.value.value != map[]
    ensures r.Ok200? ==> r.body == fetched.value.value
    ensures r.HttpError? ==> r.status == 500
  {
    match fetched
    case Err(e) => HttpError(500, Describe(e))
    case Ok(found) =>
      if found.None? || found.value == map[] then
        HttpError(500, Describe(HttpException(404, "Stack not found")))
      else Ok200(found.value)
  }

  /** The missing stack is reported as a 500 with detail "404: Stack not found". */
  lemma NotFoundBecomes500()
    ensures GetStack(Ok(None)) == HttpError(500, "404: Stack not found")
    ensures GetStack(Ok(Some(map[]))) == HttpError(500, "404: Stack not found")
  {
    var digits := ["0", "1", "2", "3", "4", "5", "6", "7", "8", "9"];
    assert 404 % 10 == 4 && 404 / 10 == 40 && 40 % 10 == 0 && 40 / 10 == 4 && 4 % 10 == 4;
    assert NatToString(4) == "4" by {
      assert digits[4] == "4";
    }
    assert NatToString(40) == "40" by {
      assert NatToString(40) == NatToString(4) + digits[0];
    }
    assert NatToString(404) == "404" by {
      assert NatToString(404) == NatToString(40) + digits[4];
    }
    assert Describe(HttpException(404, "Stack not found")) == "404: Stack not found";
  }

  /** `get_stack` with the 404 let through, as the handler's own `raise` means
      it: a missing stack is a 404, other failures stay 500s. */
  function GetStackIntended(fetched: Result<Option<Stack>>): (r: Response<Stack>)
    ensures fetched.Ok? && (fetched.value.None? || fetched.value.value == map[]) ==> r == HttpError(404, "Stack not found")
    ensures fetched.Err? ==> r == HttpError(500, Describe(fetched.error))
    ensures r.Ok200? <==> fetched.Ok? && fetched.value.Some? && fetched.value.value != map[]
  {
    match fetched
    case Err(e) => HttpError(500, Describe(e))
    case Ok(found) =>
      if found.None? || found.value == map[] then HttpError(404, "Stack not found")
      else Ok200(found.value)
  }

  /** The two agree on every request except a missing stack, where the status
      differs. */
  lemma GetStackDiffersOnlyWhenMissing(fetched: Result<Option<Stack>>)
    ensures GetStack(fetched) != GetStackIntended(fetched) <==>
      fetched.Ok? && (fetched.value.None? || fetched.value.value == map[])
  {
  }
}

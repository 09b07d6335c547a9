/** The dependent-stack filter: of all stacks, keep those with a label that
    contains `dependsOn:<stack_id>`. The repository holds three identical copies
    of it (the Temporal activity `fetch_dependent_stacks` and the two
    `get_dependent_stacks_activity` functions); all three are `DependentStacks`.
    The list of stacks is what the Spacelift client returned. */
module DependentStacks {
  import opened Json
  import opened Seqs
  import DependencyLabels

  /** A stack as the Spacelift client returns it: a dict of its queried fields. */
  type Stack = map<string, Json>

  /** `any(needle in x for x in items)`, evaluated left to right: the first label
      that contains the needle ends the scan, and a label before it that cannot
      be searched raises. */
  function AnyContains(needle: string, items: seq<Json>): (r: Result<bool>)
    ensures r == Ok(true) ==> exists i :: 0 <= i < |items| && In(needle, items[i]) == Ok(true) &&
                                forall k :: 0 <= k < i ==> In(needle, items[k]) == Ok(false)
    ensures r == Ok(false) ==> forall i :: 0 <= i < |items| ==> In(needle, items[i]) == Ok(false)
    ensures r.Err? ==> exists i :: 0 <= i < |items| && In(needle, items[i]) == r &&
                         forall k :: 0 <= k < i ==> In(needle, items[k]) == Ok(false)
  {
    if items == [] then Ok(false)
    else
      var hit :- In(needle, items[0]);
      if hit then Ok(true) else AnyContains(needle, items[1..])
  }

  /** `any(needle in x for x in labels)` for whatever `labels` holds: iterating a
      string yields its one-character strings, iterating a dict yields its keys,
      and other values are not iterable. */
  function AnyLabelContains(needle: string, labels: Json): Result<bool>
  {
    match labels
    case JList(items) => AnyContains(needle, items)
    case JStr(s) => Ok(exists k :: 0 <= k < |s| && IsSubstring(needle, [s[k]]))
    case JObj(m) => Ok(exists key :: key in m && IsSubstring(needle, key))
    case _ => Err(TypeError("'" + TypeName(labels) + "' object is not iterable"))
  }

  /** The condition of the comprehension for one stack; a stack without a
      `labels` key is searched as if its labels were `[]`. */
  function DependsOn(stack: Stack, stackId: string): (r: Result<bool>)
    ensures "labels" !in stack ==> r == Ok(false)
    ensures "labels" in stack && !(stack["labels"].JList? || stack["labels"].JStr? || stack["labels"].JObj?) ==> r.Err?
  {
    var labels := if "labels" in stack then stack["labels"] else JList([]);
    AnyLabelContains(DependencyLabels.DependencyLabel(stackId), labels)
  }

  /** `[stack for stack in stacks if any(...)]`: the stacks that depend on
      `stackId`, unchanged and in their original order. An exception raised while
      testing a stack propagates. */
  function DependentStacks(stacks: seq<Stack>, stackId: string): (r: Result<seq<Stack>>)
    ensures r.Ok? ==> IsSubsequence(r.value, stacks)
    ensures r.Ok? ==> KeepsExactly(r.value, stacks, s => DependsOn(s, stackId) == Ok(true))
    ensures r.Err? <==> exists i :: 0 <= i < |stacks| && DependsOn(stacks[i], stackId).Err?
    ensures stacks == [] ==> r == Ok([])
  {
    TryFilter(stacks, s => DependsOn(s, stackId))
  }

  /** The labels as Spacelift sends them: absent, or a list of strings. */
  predicate HasLabelStrings(stack: Stack)
  {
    "labels" !in stack || (stack["labels"].JList? && forall x :: x in stack["labels"].items ==> x.JStr?)
  }

  /** Some label of the stack contains `dependsOn:<stackId>` as a substring. */
  predicate HasDependencyLabel(stack: Stack, stackId: string)
  {
    "labels" in stack && stack["labels"].JList? &&
    exists x :: x in stack["labels"].items && x.JStr? && IsSubstring(DependencyLabels.DependencyLabel(stackId), x.s)
  }

  lemma {:induction false} AnyContainsStrings(needle: string, items: seq<Json>)
    requires forall x :: x in items ==> x.JStr?
    ensures AnyContains(needle, items) == Ok(exists x :: x in items && x.JStr? && IsSubstring(needle, x.s))
    decreases |items|
  {
    if items != [] {
      AnyContainsStrings(needle, items[1..]);
      assert In(needle, items[0]) == Ok(IsSubstring(needle, items[0].s));
      assert forall x :: x in items <==> x == items[0] || x in items[1..];
      if IsSubstring(needle, items[0].s) {
        assert items[0] in items;
      }
    }
  }

  /** On well-formed labels the test never raises and is exactly "some label
      contains `dependsOn:<stackId>`"; a stack without labels is not kept. */
  lemma DependsOnWellFormed(stack: Stack, stackId: string)
    requires HasLabelStrings(stack)
    ensures DependsOn(stack, stackId) == Ok(HasDependencyLabel(stack, stackId))
  {
    if "labels" in stack {
      AnyContainsStrings(DependencyLabels.DependencyLabel(stackId), stack["labels"].items);
    }
  }

  /** On well-formed stacks the filter succeeds and keeps exactly the stacks that
      have a label containing `dependsOn:<stackId>`. */
  lemma DependentStacksWellFormed(stacks: seq<Stack>, stackId: string)
    requires forall s :: s in stacks ==> HasLabelStrings(s)
    ensures DependentStacks(stacks, stackId).Ok?
    ensures KeepsExactly(DependentStacks(stacks, stackId).value, stacks, s => HasDependencyLabel(s, stackId))
  {
    forall i | 0 <= i < |stacks|
      ensures DependsOn(stacks[i], stackId) == Ok(HasDependencyLabel(stacks[i], stackId))
    {
      DependsOnWellFormed(stacks[i], stackId);
    }
    var r := DependentStacks(stacks, stackId).value;
    forall s
      ensures multiset(r)[s] == if HasDependencyLabel(s, stackId) then multiset(stacks)[s] else 0
    {
      if s in stacks {
        DependsOnWellFormed(s, stackId);
      }
    }
  }

  /** Matching is substring containment, not equality: a label naming stack "ab"
      also marks a dependency on stack "a". */
  lemma SubstringMatchExample()
    ensures DependsOn(map["labels" := JList([JStr("dependsOn:ab")])], "a") == Ok(true)
  {
    assert DependencyLabels.DependencyLabel("a") <= "dependsOn:ab";
  }
}

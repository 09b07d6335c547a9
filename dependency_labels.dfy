/** The dependency-label synchroniser script: post-processing of the dependency
    graph fetched for a stack, and the computation of the stack's new label list
    with its `dependsOn:<id>` labels. The query, the stack lookup and the label
    write are the Spacelift client's business; their results are parameters here. */
module DependencyLabels {
  import opened Json
  import opened Seqs
  import opened StringOrder

  const DependsOnPrefix: string := "dependsOn:"

  /** `get_stack_dependencies` after the query: `graph` holds the ids of the
      stacks listed in `dependenciesFullGraph` (None when the field is null).
      Duplicates and the stack's own id are dropped and the rest is sorted. */
  ghost function StackDependencies(graph: Option<seq<string>>, stackId: string): (deps: seq<string>)
    ensures StrictlySorted(deps)
    ensures forall i, j :: 0 <= i < j < |deps| ==> deps[i] != deps[j]
    ensures forall id :: id in deps <==> graph.Some? && id in graph.value && id != stackId
    ensures graph.None? || graph.value == [] ==> deps == []
  {
    if graph.None? || graph.value == [] then []
    else SortedList(Elems(graph.value) - {stackId})
  }

  /** The dependency list is canonical: it is the only ascending list without
      repetitions holding exactly the other stacks of the graph, so two fetches of
      the same graph give the same list. */
  lemma StackDependenciesCanonical(graph: Option<seq<string>>, stackId: string, other: seq<string>)
    requires StrictlySorted(other)
    requires forall id :: id in other <==> graph.Some? && id in graph.value && id != stackId
    ensures other == StackDependencies(graph, stackId)
  {
    StrictlySortedUnique(other, StackDependencies(graph, stackId));
  }

  /** `l.startswith("dependsOn:")`. */
  predicate IsDependencyLabel(name: string)
  {
    DependsOnPrefix <= name
  }

  /** `f"dependsOn:{dep_id}"`. */
  function DependencyLabel(id: string): string
  {
    DependsOnPrefix + id
  }

  /** `new_dependency_labels`: one label per dependency, in dependency order. */
  function DependencyLabelsFor(deps: seq<string>): seq<string>
  {
    seq(|deps|, i requires 0 <= i < |deps| => DependencyLabel(deps[i]))
  }

  /** A label the synchroniser leaves alone. */
  predicate IsOtherLabel(name: string)
  {
    !IsDependencyLabel(name)
  }

  /** `existing_dep_labels`: the current labels with the `dependsOn:` prefix. */
  function ExistingDependencyLabels(labels: seq<string>): seq<string>
  {
    Filter(labels, IsDependencyLabel)
  }

  /** The current labels without the `dependsOn:` prefix, in their order. */
  function OtherLabels(labels: seq<string>): seq<string>
  {
    Filter(labels, IsOtherLabel)
  }

  /** `new_labels`: the `dependsOn:` labels are replaced by one per dependency,
      every other label is kept. */
  function NewLabels(current: seq<string>, deps: seq<string>): (r: seq<string>)
    ensures OtherLabels(r) == OtherLabels(current)
    ensures ExistingDependencyLabels(r) == DependencyLabelsFor(deps)
  {
    FiltersDistribute(OtherLabels(current), DependencyLabelsFor(deps));
    DependencyLabelsOnly(DependencyLabelsFor(deps));
    OtherLabelsIdempotent(current);
    OtherLabels(current) + DependencyLabelsFor(deps)
  }

  /** What the script decides for one stack: nothing when there are no
      dependencies, otherwise the label list it would write and whether it
      reports a change. */
  datatype LabelUpdate = NoDependencies | Update(labels: seq<string>, changed: bool)

  /** The decision in `main`: an empty dependency list returns early; otherwise a
      change is reported when the current and the new dependency labels differ
      as sets. */
  function SyncLabels(current: seq<string>, deps: seq<string>): (r: LabelUpdate)
    ensures r.NoDependencies? <==> deps == []
    ensures r.Update? ==> OtherLabels(r.labels) == OtherLabels(current)
    ensures r.Update? ==> ExistingDependencyLabels(r.labels) == DependencyLabelsFor(deps)
    ensures r.Update? ==> forall i, j :: 0 <= i < j < |r.labels| && IsDependencyLabel(r.labels[i]) ==> IsDependencyLabel(r.labels[j])
    ensures r.Update? ==>
      (r.changed <==> Elems(ExistingDependencyLabels(r.labels)) != Elems(ExistingDependencyLabels(current)))
  {
    if deps == [] then NoDependencies
    else
      var labels := NewLabels(current, deps);
      OtherLabelsOnly(current);
      DependencyLabelsLast(OtherLabels(current), deps);
      Update(labels, Elems(ExistingDependencyLabels(current)) != Elems(DependencyLabelsFor(deps)))
  }

  /** Other labels followed by new dependency labels: every label after a
      `dependsOn:` label is one too. */
  lemma DependencyLabelsLast(others: seq<string>, deps: seq<string>)
    requires forall i :: 0 <= i < |others| ==> IsOtherLabel(others[i])
    ensures var labels := others + DependencyLabelsFor(deps);
      forall i, j :: 0 <= i < j < |labels| && IsDependencyLabel(labels[i]) ==> IsDependencyLabel(labels[j])
  {
    var labels := others + DependencyLabelsFor(deps);
    forall i, j | 0 <= i < j < |labels| && IsDependencyLabel(labels[i])
      ensures IsDependencyLabel(labels[j])
    {
      assert labels[j] == DependencyLabelsFor(deps)[j - |others|];
    }
  }

  /** What the other-label filter keeps has no `dependsOn:` prefix. */
  lemma OtherLabelsOnly(labels: seq<string>)
    ensures forall i :: 0 <= i < |OtherLabels(labels)| ==> IsOtherLabel(OtherLabels(labels)[i])
  {
    var r := OtherLabels(labels);
    forall i | 0 <= i < |r|
      ensures IsOtherLabel(r[i])
    {
      assert multiset(r)[r[i]] > 0;
    }
  }

  /** Both filters commute with concatenation. */
  lemma FiltersDistribute(a: seq<string>, b: seq<string>)
    ensures ExistingDependencyLabels(a + b) == ExistingDependencyLabels(a) + ExistingDependencyLabels(b)
    ensures OtherLabels(a + b) == OtherLabels(a) + OtherLabels(b)
  {
    FilterConcat(a, b, IsDependencyLabel);
    FilterConcat(a, b, IsOtherLabel);
  }

  /** A list made only of dependency labels is all kept by one filter and all
      dropped by the other. */
  lemma DependencyLabelsOnly(labels: seq<string>)
    requires forall l :: l in labels ==> IsDependencyLabel(l)
    ensures ExistingDependencyLabels(labels) == labels
    ensures OtherLabels(labels) == []
  {
    FilterUniform(labels, IsDependencyLabel);
    FilterUniform(labels, IsOtherLabel);
  }

  /** Filtering out dependency labels a second time changes nothing. */
  lemma OtherLabelsIdempotent(labels: seq<string>)
    ensures OtherLabels(OtherLabels(labels)) == OtherLabels(labels)
    ensures ExistingDependencyLabels(OtherLabels(labels)) == []
  {
    var r := OtherLabels(labels);
    OtherLabelsOnly(labels);
    FilterUniform(r, IsOtherLabel);
    FilterUniform(r, IsDependencyLabel);
  }

  /** Running the synchroniser again on the labels it produced, with the same
      dependencies, reproduces those labels and reports no change. */
  lemma SyncLabelsIdempotent(current: seq<string>, deps: seq<string>)
    requires SyncLabels(current, deps).Update?
    ensures SyncLabels(SyncLabels(current, deps).labels, deps) == Update(SyncLabels(current, deps).labels, false)
  {
    var labels := SyncLabels(current, deps).labels;
    assert NewLabels(labels, deps) == labels;
  }

  /** For a dependency list as `get_stack_dependencies` returns it, the new
      dependency labels are ascending and name each dependency exactly once. */
  lemma DependencyLabelsSorted(deps: seq<string>)
    requires StrictlySorted(deps)
    ensures StrictlySorted(DependencyLabelsFor(deps))
  {
    var labels := DependencyLabelsFor(deps);
    forall i, j | 0 <= i < j < |labels|
      ensures Lt(labels[i], labels[j])
    {
      LeCommonPrefix(DependsOnPrefix, deps[i], deps[j]);
      assert labels[i][|DependsOnPrefix|..] == deps[i] && labels[j][|DependsOnPrefix|..] == deps[j];
    }
  }

  /** Non-dependency labels keep their relative order and the new dependency
      labels follow them. */
  lemma SyncLabelsExample()
    ensures SyncLabels(["team:x", "dependsOn:A", "env:prod"], ["B"])
            == Update(["team:x", "env:prod", "dependsOn:B"], true)
  {
    var current := ["team:x", "dependsOn:A", "env:prod"];
    assert !IsDependencyLabel("team:x") && !IsDependencyLabel("env:prod");
    assert IsDependencyLabel("dependsOn:A");
    assert current[1..] == ["dependsOn:A", "env:prod"] && current[1..][1..] == ["env:prod"];
    assert current[1..][1..][1..] == [];
    assert OtherLabels(["env:prod"]) == ["env:prod"];
    assert OtherLabels(["dependsOn:A", "env:prod"]) == ["env:prod"];
    assert OtherLabels(current) == ["team:x", "env:prod"];
    assert ExistingDependencyLabels(["env:prod"]) == [];
    assert ExistingDependencyLabels(["dependsOn:A", "env:prod"]) == ["dependsOn:A"];
    assert ExistingDependencyLabels(current) == ["dependsOn:A"];
    var wanted := DependencyLabelsFor(["B"]);
    assert wanted[0] == "dependsOn:B";
    assert wanted == ["dependsOn:B"];
    assert NewLabels(current, ["B"]) == ["team:x", "env:prod", "dependsOn:B"];
    assert "dependsOn:A" != "dependsOn:B";
    assert "dependsOn:A" !in Elems(wanted);
    SyncLabelsUpdate(current, ["B"]);
  }

  /** With dependencies, the decision is the new list and the set comparison. */
  lemma SyncLabelsUpdate(current: seq<string>, deps: seq<string>)
    requires deps != []
    ensures SyncLabels(current, deps) ==
      Update(NewLabels(current, deps), Elems(ExistingDependencyLabels(current)) != Elems(DependencyLabelsFor(deps)))
  {
  }

  /** Reordered or repeated dependency labels alone are not reported as a change,
      although the list the script would write differs from the current one. */
  lemma SyncLabelsReorderedExample()
    ensures SyncLabels(["dependsOn:b", "dependsOn:a", "dependsOn:a"], ["a", "b"])
            == Update(["dependsOn:a", "dependsOn:b"], false)
  {
    var current := ["dependsOn:b", "dependsOn:a", "dependsOn:a"];
    assert IsDependencyLabel("dependsOn:a") && IsDependencyLabel("dependsOn:b");
    DependencyLabelsOnly(current);
    var wanted := DependencyLabelsFor(["a", "b"]);
    assert wanted[0] == "dependsOn:a" && wanted[1] == "dependsOn:b";
    assert wanted == ["dependsOn:a", "dependsOn:b"];
    DependencyLabelsOnly(wanted);
    assert Elems(current) == Elems(wanted);
  }
}

/** The models a route may use for a requested one: mapModelCandidates of
    internal/executor/executor.go. */
module ModelMappings {
  import opened Options
  import opened Wildcard

  datatype Mapping = Mapping(pattern: string, target: string)

  predicate Applies(m: Option<Mapping>, requested: string) {
    m.Some? && Matches(m.value.pattern, requested)
  }

  /** The mapping at `k` applies with this target, and none before it has the target. */
  ghost predicate FirstWith(mappings: seq<Option<Mapping>>, requested: string, k: int, target: string) {
    && 0 <= k < |mappings| && Applies(mappings[k], requested) && mappings[k].value.target == target
    && forall j :: 0 <= j < k && Applies(mappings[j], requested) ==> mappings[j].value.target != target
  }

  predicate Distinct(models: seq<string>) {
    forall i, j :: 0 <= i < j < |models| ==> models[i] != models[j]
  }

  /** There is always a candidate; the candidates are the targets of the mappings that apply, each
      once, in the order in which they first appear, or the requested model if none applies.
      `firsts` are their places in the list of mappings. */
  method MapModelCandidates(mappings: seq<Option<Mapping>>, requested: string)
    returns (candidates: seq<string>, ghost firsts: seq<int>)
    ensures candidates != [] && Distinct(candidates)
    ensures (forall m :: m in mappings ==> !Applies(m, requested)) ==> candidates == [requested]
    ensures (exists m :: m in mappings && Applies(m, requested)) ==>
              && |firsts| == |candidates|
              && (forall i, j :: 0 <= i < j < |firsts| ==> firsts[i] < firsts[j])
              && (forall i :: 0 <= i < |firsts| ==> FirstWith(mappings, requested, firsts[i], candidates[i]))
              && (forall m :: m in mappings && Applies(m, requested) ==> m.value.target in candidates)
  {
    hide Matches;
    candidates, firsts := [], [];
    for k := 0 to |mappings|
      invariant |firsts| == |candidates| && Distinct(candidates)
      invariant forall i :: 0 <= i < |firsts| ==> 0 <= firsts[i] < k
      invariant forall i, j :: 0 <= i < j < |firsts| ==> firsts[i] < firsts[j]
      invariant forall i :: 0 <= i < |firsts| ==> FirstWith(mappings, requested, firsts[i], candidates[i])
      invariant forall j :: 0 <= j < k && Applies(mappings[j], requested) ==> mappings[j].value.target in candidates
    {
      var m := mappings[k];
      if m.None? || !Matches(m.value.pattern, requested) {
        continue;
      }
      if m.value.target in candidates {
        continue;
      }
      candidates := candidates + [m.value.target];
      firsts := firsts + [k];
    }
    if |candidates| == 0 {
      assert forall m :: m in mappings ==> !Applies(m, requested);
      return [requested], [];
    }
    var first := mappings[firsts[0]];
    assert FirstWith(mappings, requested, firsts[0], candidates[0]);
    assert first in mappings && Applies(first, requested);
  }
}

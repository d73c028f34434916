/**
 * `useAnimation`: a single spec or an ordered list of specs becomes the ordered list of the
 * callbacks that resolve; entries that do not resolve are dropped.
 */
module UseAnimation {
  import opened Common
  import opened AnimationBuiltins
  import opened AnimationRegistry

  /** What the caller passes: nothing, one spec, or an array of specs. */
  datatype SpecInput = NoSpecs | OneSpec(spec: Spec) | SpecList(specs: seq<Spec>)

  /** A spec JavaScript treats as false: `null`, `undefined` or the empty string. */
  predicate Falsy(spec: Spec)
  {
    spec.Absent? || spec == NameSpec("")
  }

  /** `toArray`: nothing and falsy specs give `[]`, an array is kept as is, anything else is wrapped. */
  function ToArray(input: SpecInput): (r: seq<Spec>)
    ensures input.NoSpecs? ==> r == []
    ensures input.SpecList? ==> r == input.specs
    ensures input.OneSpec? && !Falsy(input.spec) ==> r == [input.spec]
    ensures input.OneSpec? && Falsy(input.spec) ==> r == []
    ensures |r| <= 1 || input.SpecList?
  {
    match input
    case NoSpecs => []
    case OneSpec(spec) => if Falsy(spec) then [] else [spec]
    case SpecList(specs) => specs
  }

  /** The resolved callbacks of `entries`, in input order (the reference definition of the loop below). */
  function Resolved(registry: map<string, Factory>, entries: seq<Spec>): seq<Animation>
    decreases |entries|
  {
    if entries == [] then []
    else
      var last := ResolveAnimation(registry, entries[|entries| - 1]);
      Resolved(registry, entries[..|entries| - 1]) + (if last.Some? then [last.value] else [])
  }

  /** The indices of the entries that resolve, in increasing order. */
  function ResolvedIndices(registry: map<string, Factory>, entries: seq<Spec>): seq<nat>
    decreases |entries|
  {
    if entries == [] then []
    else
      var n := |entries| - 1;
      ResolvedIndices(registry, entries[..n]) + (if ResolveAnimation(registry, entries[n]).Some? then [n] else [])
  }

  /** The loop inside the computed: resolve every entry and push the ones that resolve. */
  method ResolveAll(registry: map<string, Factory>, entries: seq<Spec>) returns (resolved: seq<Animation>)
    ensures resolved == Resolved(registry, entries)
    ensures |resolved| <= |entries|
  {
    resolved := [];
    var i := 0;
    while i < |entries|
      invariant 0 <= i <= |entries|
      invariant resolved == Resolved(registry, entries[..i])
      invariant |resolved| <= i
    {
      var anim := ResolveAnimation(registry, entries[i]);
      assert entries[..i + 1][..i] == entries[..i];
      if anim.Some? {
        resolved := resolved + [anim.value];
      }
      i := i + 1;
    }
    assert entries[..|entries|] == entries;
  }

  /**
   * The result is exactly the resolved entries in input order: there is a strictly increasing
   * choice of entry indices, one per callback, each callback being what its entry resolves to,
   * and an entry is chosen if and only if it resolves.
   */
  lemma {:induction false} ResolvedIsOrderedFilter(registry: map<string, Factory>, entries: seq<Spec>)
    ensures var r := Resolved(registry, entries); var idx := ResolvedIndices(registry, entries);
      && |idx| == |r| <= |entries|
      && (forall k :: 0 <= k < |idx| ==>
            idx[k] < |entries| && ResolveAnimation(registry, entries[idx[k]]) == Some(r[k]))
      && (forall k, l :: 0 <= k < l < |idx| ==> idx[k] < idx[l])
      && (forall j :: 0 <= j < |entries| ==> (ResolveAnimation(registry, entries[j]).Some? <==> j in idx))
    decreases |entries|
  {
    if entries != [] {
      var n := |entries| - 1;
      var init := entries[..n];
      ResolvedIsOrderedFilter(registry, init);
      var r0, idx0 := Resolved(registry, init), ResolvedIndices(registry, init);
      var r, idx := Resolved(registry, entries), ResolvedIndices(registry, entries);
      assert forall j :: 0 <= j < n ==> entries[j] == init[j];
      forall j | 0 <= j < |entries|
        ensures ResolveAnimation(registry, entries[j]).Some? <==> j in idx
      {
        if j < n {
          assert j in idx <==> j in idx0;
        }
      }
    }
  }

  /** No entry yields more than one callback. */
  lemma {:induction false} ResolvedBound(registry: map<string, Factory>, entries: seq<Spec>)
    ensures |Resolved(registry, entries)| <= |entries|
    decreases |entries|
  {
    if entries != [] {
      ResolvedBound(registry, entries[..|entries| - 1]);
    }
  }

  /** Every entry is kept when and only when every entry resolves; otherwise the result is shorter. */
  lemma {:induction false} ResolvedLength(registry: map<string, Factory>, entries: seq<Spec>)
    ensures |Resolved(registry, entries)| == |entries| <==>
      forall j :: 0 <= j < |entries| ==> ResolveAnimation(registry, entries[j]).Some?
    decreases |entries|
  {
    if entries != [] {
      var n := |entries| - 1;
      var init := entries[..n];
      ResolvedLength(registry, init);
      ResolvedBound(registry, init);
      var lastResolves := ResolveAnimation(registry, entries[n]).Some?;
      assert |Resolved(registry, entries)| == |Resolved(registry, init)| + (if lastResolves then 1 else 0);
      assert forall j :: 0 <= j < n ==> entries[j] == init[j];
      if forall j :: 0 <= j < |entries| ==> ResolveAnimation(registry, entries[j]).Some? {
        assert lastResolves;
        assert forall j :: 0 <= j < n ==> ResolveAnimation(registry, init[j]).Some?;
      }
    }
  }

  /**
   * The shortcut of `toArray` for a falsy single spec loses nothing: a single spec resolves to the
   * same list of callbacks whether or not it is wrapped.
   */
  lemma SingleSpecResolvesAlike(registry: map<string, Factory>, spec: Spec)
    ensures Resolved(registry, ToArray(OneSpec(spec)))
      == (if ResolveAnimation(registry, spec).Some? then [ResolveAnimation(registry, spec).value] else [])
  {
    assert [spec][..0] == [];
  }
}

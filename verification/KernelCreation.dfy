/**
 Creating all kernels of a program, as the older header does it: the runtime writes the new handles into memory that
 is then read as wrappers, and the caller's vector is assigned from there.  Nobody ever destroys that memory's
 wrappers.
 */
module KernelCreation {
  import opened Bindings
  import opened RefCounting
  import opened Ownership
  import opened VectorQueries

  /** The runtime creates objects, each with one count for whoever asked. */
  method CreateAll(values: seq<Handle>, rt: Runtime)
    requires rt.Conserved()
    modifies rt`counts, rt`owned
    ensures rt.Conserved() && rt.counts == old(rt.counts) + All(values) && rt.owned == old(rt.owned) + All(values)
  {
    forall h: Handle ensures (rt.counts + All(values))[h] + multiset{}[h] == (rt.owned + All(values))[h] + Held(rt.holders, h) {
      assert rt.counts[h] + multiset{}[h] == rt.owned[h] + Held(rt.holders, h);
    }
    rt.counts := rt.counts + multiset(values)[0 := 0];
    rt.owned := rt.owned + All(values);
  }

  /** What was handed out is owned, so that copying it finds it alive. */
  lemma HandedOutIsOwned(values: seq<Handle>, owned: multiset<Handle>)
    ensures Backed(values, owned + All(values))
  {
    forall i | 0 <= i < |values| && values[i] != 0 ensures values[i] in owned + All(values) {
      assert values[i] in multiset(values);
    }
  }

  /**
   The vector holds the kernels, and each kernel has two counts more: the vector's, and the one it was created with,
   which stays with nobody who would release it.
   */
  method CreateKernels(vec: WrapperVector, outcome: Outcome, rt: Runtime) returns (error: int)
    requires rt.Conserved() && Lists(vec.items, rt.holders)
    modifies vec, vec.items, rt
    ensures outcome.sizeError != CL_SUCCESS ==> error == outcome.sizeError
    ensures outcome.sizeError == CL_SUCCESS ==> error == outcome.dataError
    ensures rt.Conserved()
    ensures error != CL_SUCCESS ==> vec.items == old(vec.items) && rt.holders == old(rt.holders)
    ensures error != CL_SUCCESS ==> rt.counts == old(rt.counts) && rt.owned == old(rt.owned)
    ensures error == CL_SUCCESS ==> Filled(vec.items, outcome.values, rt.holders) && Holding(vec.items, outcome.values)
    ensures error == CL_SUCCESS ==> rt.owned == old(rt.owned) + All(outcome.values)
    ensures error == CL_SUCCESS ==>
      rt.counts + All(Handles(old(vec.items), old(rt.holders))) == old(rt.counts) + All(outcome.values) + All(outcome.values)
  {
    if outcome.sizeError != CL_SUCCESS {
      return outcome.sizeError;
    }
    if outcome.dataError != CL_SUCCESS {
      return outcome.dataError;
    }
    HandedOutIsOwned(outcome.values, rt.owned);
    CreateAll(outcome.values, rt);
    ResizeAndFill(vec, outcome.values, rt, true);
    FilledIsHolding(vec.items, outcome.values, rt);
    return CL_SUCCESS;
  }

  /** Even when the vector is gone again, exactly one count of every kernel is left. */
  method KernelsLeak(values: seq<Handle>, rt: Runtime)
    requires rt.Conserved()
    modifies rt
    ensures rt.Conserved() && rt.counts == old(rt.counts) + All(values)
  {
    var vec := new WrapperVector();
    ghost var start := rt.counts;
    var error := CreateKernels(vec, Outcome(CL_SUCCESS, CL_SUCCESS, values), rt);
    assert Handles([], old(rt.holders)) == [];
    assert rt.counts == start + All(values) + All(values);
    rt.NothingOwing();
    DestroyAll(vec.items, rt, multiset{}, {});
    rt.NothingOwing();
    SameRest(rt.counts, start + All(values), All(values));
  }
}

/**
 The two queries that fill a vector of wrappers from handles the runtime returns.

 The older header assigns the raw handles first and retains them in a second pass; the newer one resizes the
 vector and move-assigns retaining temporaries.  A query's outcome (the size call's error, the data call's error
 and the returned handles) is a parameter.
 */
module VectorQueries {
  import opened Bindings
  import opened RefCounting
  import opened Ownership

  datatype Outcome = Outcome(sizeError: int, dataError: int, values: seq<Handle>)

  class WrapperVector {
    var items: seq<Wrapper>

    constructor ()
      ensures items == []
    {
      items := [];
    }
  }

  ghost function Handles(ws: seq<Wrapper>, m: map<Wrapper, Handle>): (r: seq<Handle>)
    ensures |r| == |ws|
  {
    seq(|ws|, i requires 0 <= i < |ws| => Has(m, ws[i]))
  }

  /** The runtime owns a count of its own on every handle it returns. */
  ghost predicate Backed(values: seq<Handle>, owned: multiset<Handle>) {
    forall i | 0 <= i < |values| :: values[i] != 0 ==> values[i] in owned
  }

  lemma NextOf(ws: seq<Wrapper>, k: nat, m: map<Wrapper, Handle>)
    requires k < |ws|
    ensures All(Handles(ws[..k + 1], m)) == All(Handles(ws[..k], m)) + One(Has(m, ws[k]))
    ensures Members(ws[..k + 1]) == Members(ws[..k]) + {ws[k]}
  {
    var all := Handles(ws, m);
    AllLast(all, k);
    assert all[..k + 1] == Handles(ws[..k + 1], m) && all[..k] == Handles(ws[..k], m);
    assert ws[..k + 1] == ws[..k] + [ws[k]];
  }

  /** Destroys the next element of a range. */
  method DestroyNext(ws: seq<Wrapper>, k: nat, rt: Runtime, ghost owed: multiset<Handle>, ghost unpaid: set<Wrapper>,
                     ghost before: map<Wrapper, Handle>, ghost start: multiset<Handle>)
    requires Lists(ws, before) && k < |ws| && ws[k] !in unpaid && rt.Owing(owed, unpaid)
    requires rt.holders == before - Members(ws[..k]) && rt.counts + All(Handles(ws[..k], before)) == start
    modifies rt`counts, rt`holders
    ensures rt.Owing(owed, unpaid) && rt.holders == before - Members(ws[..k + 1])
    ensures rt.counts + All(Handles(ws[..k + 1], before)) == start
  {
    NextOf(ws, k, before);
    assert ws[k] !in Members(ws[..k]);
    ws[k].Destroy(rt, owed, unpaid);
  }

  /** Destroys a range of elements. */
  method DestroyAll(ws: seq<Wrapper>, rt: Runtime, ghost owed: multiset<Handle>, ghost unpaid: set<Wrapper>)
    requires Lists(ws, rt.holders) && rt.Owing(owed, unpaid) && Members(ws) !! unpaid
    modifies rt`counts, rt`holders
    ensures rt.Owing(owed, unpaid) && rt.holders == old(rt.holders) - Members(ws)
    ensures rt.counts + All(Handles(ws, old(rt.holders))) == old(rt.counts)
  {
    ghost var before := rt.holders;
    assert before - Members(ws[..0]) == before && All(Handles(ws[..0], before)) == multiset{};
    for k := 0 to |ws|
      invariant rt.Owing(owed, unpaid)
      invariant rt.holders == before - Members(ws[..k])
      invariant rt.counts + All(Handles(ws[..k], before)) == old(rt.counts)
    {
      assert ws[k] in Members(ws);
      DestroyNext(ws, k, rt, owed, unpaid, before, old(rt.counts));
    }
    assert ws[..|ws|] == ws;
  }

  /** The holders' map after the wrappers `ws` took over `values`, in order. */
  ghost function Assigned(m: map<Wrapper, Handle>, ws: seq<Wrapper>, values: seq<Handle>): map<Wrapper, Handle>
    requires |ws| == |values|
  {
    if ws == [] then m else
      var n := |ws| - 1; Assigned(m, ws[..n], values[..n])[ws[n] := values[n]]
  }

  lemma {:induction false} AssignedOnly(m: map<Wrapper, Handle>, ws: seq<Wrapper>, values: seq<Handle>, w: Wrapper)
    requires |ws| == |values| && w !in ws
    ensures Has(Assigned(m, ws, values), w) == Has(m, w)
  {
    if ws != [] {
      AssignedOnly(m, ws[..|ws| - 1], values[..|ws| - 1], w);
    }
  }

  lemma {:induction false} AssignedOne(m: map<Wrapper, Handle>, ws: seq<Wrapper>, values: seq<Handle>, i: nat)
    requires i < |ws| == |values| && Distinct(ws)
    ensures Has(Assigned(m, ws, values), ws[i]) == values[i]
  {
    var n := |ws| - 1;
    if i < n {
      AssignedOne(m, ws[..n], values[..n], i);
    }
  }

  lemma AssignedAll(m: map<Wrapper, Handle>, ws: seq<Wrapper>, values: seq<Handle>)
    requires |ws| == |values| && Distinct(ws)
    ensures Handles(ws, Assigned(m, ws, values)) == values
  {
    forall i | 0 <= i < |ws| ensures Has(Assigned(m, ws, values), ws[i]) == values[i] {
      AssignedOne(m, ws, values, i);
    }
  }

  lemma {:induction false} AssignedKeys(m: map<Wrapper, Handle>, ws: seq<Wrapper>, values: seq<Handle>)
    requires |ws| == |values|
    ensures Assigned(m, ws, values).Keys == m.Keys + Members(ws)
  {
    if ws != [] {
      var n := |ws| - 1;
      AssignedKeys(m, ws[..n], values[..n]);
      assert ws == ws[..n] + [ws[n]];
      assert Members(ws) == Members(ws[..n]) + {ws[n]};
    }
  }

  lemma AssignedNext(m: map<Wrapper, Handle>, ws: seq<Wrapper>, values: seq<Handle>, k: nat)
    requires k < |ws| == |values|
    ensures Assigned(m, ws[..k + 1], values[..k + 1]) == Assigned(m, ws[..k], values[..k])[ws[k] := values[k]]
  {
    assert ws[..k + 1][..k] == ws[..k] && values[..k + 1][..k] == values[..k];
  }

  /** Assigns a raw handle to the next of the existing elements. */
  method AssignNext(ws: seq<Wrapper>, values: seq<Handle>, k: nat, rt: Runtime, ghost before: map<Wrapper, Handle>, ghost start: multiset<Handle>)
    requires Lists(ws, before) && k < |ws| == |values| && rt.Owing(All(values[..k]), Members(ws[..k]))
    requires rt.holders == Assigned(before, ws[..k], values[..k]) && rt.counts + All(Handles(ws[..k], before)) == start
    modifies ws[k], rt`counts, rt`holders
    ensures rt.Owing(All(values[..k + 1]), Members(ws[..k + 1])) && rt.holders == Assigned(before, ws[..k + 1], values[..k + 1])
    ensures rt.counts + All(Handles(ws[..k + 1], before)) == start
  {
    NextOf(ws, k, before);
    AllLast(values, k);
    AssignedNext(before, ws, values, k);
    AssignedOnly(before, ws[..k], values[..k], ws[k]);
    AssignedKeys(before, ws[..k], values[..k]);
    assert ws[k] !in Members(ws[..k]);
    ws[k].RawAssign(values[k], rt, All(values[..k]), Members(ws[..k]));
  }

  /** Assigns raw handles to existing elements, one by one. */
  method AssignExisting(ws: seq<Wrapper>, values: seq<Handle>, rt: Runtime)
    requires |ws| == |values| && Lists(ws, rt.holders) && rt.Conserved()
    modifies ws, rt`counts, rt`holders
    ensures rt.Owing(All(values), Members(ws)) && rt.holders == Assigned(old(rt.holders), ws, values)
    ensures rt.counts + All(Handles(ws, old(rt.holders))) == old(rt.counts)
  {
    ghost var before := rt.holders;
    rt.NothingOwing();
    NothingYet(ws, values, before);
    assert Members(ws[..0]) == {};
    for k := 0 to |ws|
      invariant rt.Owing(All(values[..k]), Members(ws[..k])) && rt.holders == Assigned(before, ws[..k], values[..k])
      invariant rt.counts + All(Handles(ws[..k], before)) == old(rt.counts)
    {
      AssignNext(ws, values, k, rt, before, old(rt.counts));
    }
    assert ws[..|ws|] == ws && values[..|ws|] == values;
  }

  /** Constructs one more element. */
  method AdoptNext(ws: seq<Wrapper>, values: seq<Handle>, k: nat, rt: Runtime, ghost owed: multiset<Handle>, ghost unpaid: set<Wrapper>,
                   ghost before: map<Wrapper, Handle>)
    returns (w: Wrapper)
    requires |ws| == k < |values| && rt.holders == Assigned(before, ws, values[..k])
    requires rt.Owing(owed + All(values[..k]), unpaid + Members(ws))
    modifies rt`holders
    ensures fresh(w) && rt.holders == Assigned(before, ws + [w], values[..k + 1])
    ensures rt.Owing(owed + All(values[..k + 1]), unpaid + Members(ws + [w]))
  {
    AllLast(values, k);
    w := new Wrapper.Adopt(values[k], rt, owed + All(values[..k]), unpaid + Members(ws));
    assert (ws + [w])[..k] == ws && values[..k + 1][..k] == values[..k];
    assert owed + All(values[..k]) + One(values[k]) == owed + All(values[..k + 1]);
    assert unpaid + Members(ws) + {w} == unpaid + Members(ws + [w]);
  }

  /** Constructs elements from raw handles. */
  method AdoptAll(values: seq<Handle>, rt: Runtime, ghost owed: multiset<Handle>, ghost unpaid: set<Wrapper>)
    returns (ws: seq<Wrapper>)
    requires rt.Owing(owed, unpaid)
    modifies rt`holders
    ensures |ws| == |values| && Distinct(ws) && rt.holders == Assigned(old(rt.holders), ws, values)
    ensures rt.Owing(owed + All(values), unpaid + Members(ws))
    ensures forall i | 0 <= i < |ws| :: fresh(ws[i])
  {
    ghost var before := rt.holders;
    ws := [];
    assert owed + All(values[..0]) == owed && unpaid + Members(ws) == unpaid;
    for k := 0 to |values|
      invariant |ws| == k && rt.holders == Assigned(before, ws, values[..k])
      invariant rt.Owing(owed + All(values[..k]), unpaid + Members(ws))
      invariant forall i | 0 <= i < |ws| :: fresh(ws[i]) && allocated(ws[i])
      invariant Distinct(ws)
    {
      var w := AdoptNext(ws, values, k, rt, owed, unpaid, before);
      ws := ws + [w];
    }
    assert values[..|values|] == values;
  }

  lemma RestOf(ws: seq<Wrapper>, values: seq<Handle>, i: nat)
    requires i < |ws| == |values| && Distinct(ws)
    ensures All(values[i..]) - One(values[i]) == All(values[i + 1..])
    ensures Members(ws[i..]) - {ws[i]} == Members(ws[i + 1..]) && ws[i] in Members(ws[i..])
  {
    AllFirst(values, i);
    assert ws[i..] == [ws[i]] + ws[i + 1..];
  }

  /** One retaining step: the debt of the elements from `i` on shrinks to that of the elements after it. */
  method RetainOne(ws: seq<Wrapper>, values: seq<Handle>, i: nat, rt: Runtime)
    requires i < |ws| == |values| && Distinct(ws) && Has(rt.holders, ws[i]) == values[i]
    requires rt.Owing(All(values[i..]), Members(ws[i..])) && Backed(values, rt.owned)
    modifies rt`counts
    ensures rt.Owing(All(values[i + 1..]), Members(ws[i + 1..]))
    ensures rt.counts == old(rt.counts) + One(values[i])
  {
    RestOf(ws, values, i);
    if values[i] != 0 {
      EvenOwned(rt.counts, rt.owned, Paid(rt.holders, Members(ws[i..])), values[i]);
    }
    ws[i].PayOff(rt, All(values[i..]), Members(ws[i..]));
  }

  /**
   Retains the elements one by one.  Before each step the counts fall short by exactly the non-null handles of the
   elements that are still to come.
   */
  method RetainEach(ws: seq<Wrapper>, values: seq<Handle>, rt: Runtime)
    requires Distinct(ws) && |ws| == |values| && (forall i | 0 <= i < |ws| :: Has(rt.holders, ws[i]) == values[i])
    requires rt.Owing(All(values[0..]), Members(ws[0..])) && Backed(values, rt.owned)
    modifies rt`counts
    ensures rt.Owing(All(values[|ws|..]), Members(ws[|ws|..]))
    ensures rt.counts == old(rt.counts) + All(values[..|ws|])
  {
    for i := 0 to |ws|
      invariant rt.Owing(All(values[i..]), Members(ws[i..]))
      invariant rt.counts == old(rt.counts) + All(values[..i])
    {
      AllLast(values, i);
      RetainOne(ws, values, i, rt);
    }
  }

  /** Retains all elements: nothing is owed any more. */
  method RetainAll(ws: seq<Wrapper>, values: seq<Handle>, rt: Runtime)
    requires Distinct(ws) && |ws| == |values| && Handles(ws, rt.holders) == values
    requires rt.Owing(All(values), Members(ws)) && Backed(values, rt.owned)
    modifies rt`counts
    ensures rt.Conserved() && rt.counts == old(rt.counts) + All(values)
  {
    assert ws[0..] == ws && values[0..] == values && values[..|ws|] == values && Members(ws[|ws|..]) == {};
    forall i | 0 <= i < |ws| ensures Has(rt.holders, ws[i]) == values[i] {
      assert Handles(ws, rt.holders)[i] == values[i];
    }
    RetainEach(ws, values, rt);
    rt.AllPaid(All(values[|ws|..]));
  }

  /** The elements exist, and hold the values. */
  ghost predicate Filled(ws: seq<Wrapper>, values: seq<Handle>, m: map<Wrapper, Handle>) {
    Lists(ws, m) && Handles(ws, m) == values
  }

  /** The elements' handles are the values. */
  ghost predicate Holding(ws: seq<Wrapper>, values: seq<Handle>)
    reads ws
  {
    |ws| == |values| && forall i | 0 <= i < |ws| :: ws[i].handle == values[i]
  }

  lemma FilledIsHolding(ws: seq<Wrapper>, values: seq<Handle>, rt: Runtime)
    requires rt.Conserved() && Filled(ws, values, rt.holders)
    ensures Holding(ws, values)
  {
    forall i | 0 <= i < |ws| ensures ws[i].handle == values[i] {
      assert Handles(ws, rt.holders)[i] == values[i];
    }
  }

  /** The raw assignment to a vector that is long enough. */
  method AssignShrinking(vec: WrapperVector, values: seq<Handle>, rt: Runtime)
    requires rt.Conserved() && Lists(vec.items, rt.holders) && |values| <= |vec.items|
    modifies vec, vec.items, rt`counts, rt`holders
    ensures Filled(vec.items, values, rt.holders) && rt.Owing(All(values), Members(vec.items))
    ensures rt.counts + All(Handles(old(vec.items), old(rt.holders))) == old(rt.counts)
    ensures vec.items == old(vec.items)[..|values|]
  {
    var kept, rest := vec.items[..|values|], vec.items[|values|..];
    ghost var before := rt.holders;
    AssignExisting(kept, values, rt);
    RestKeeps(vec.items, |values|, before, values);
    DestroyAll(rest, rt, All(values), Members(kept));
    KeptSurvives(vec.items, |values|, before, values);
    vec.items := kept;
  }

  lemma RestKeeps(ws: seq<Wrapper>, n: nat, m: map<Wrapper, Handle>, values: seq<Handle>)
    requires Lists(ws, m) && n == |values| <= |ws|
    ensures var after := Assigned(m, ws[..n], values); Lists(ws[n..], after) && Members(ws[n..]) !! Members(ws[..n])
    ensures All(Handles(ws, m)) == All(Handles(ws[..n], m)) + All(Handles(ws[n..], Assigned(m, ws[..n], values)))
  {
    var after := Assigned(m, ws[..n], values);
    AssignedKeys(m, ws[..n], values);
    forall i | n <= i < |ws| ensures Has(after, ws[i]) == Has(m, ws[i]) {
      AssignedOnly(m, ws[..n], values, ws[i]);
    }
    assert Handles(ws, m)[..n] == Handles(ws[..n], m) && Handles(ws, m)[n..] == Handles(ws[n..], after);
    AllSplit(Handles(ws, m), n);
  }

  lemma KeptSurvives(ws: seq<Wrapper>, n: nat, m: map<Wrapper, Handle>, values: seq<Handle>)
    requires Lists(ws, m) && n == |values| <= |ws|
    ensures Filled(ws[..n], values, Assigned(m, ws[..n], values) - Members(ws[n..]))
  {
    var after := Assigned(m, ws[..n], values);
    AssignedKeys(m, ws[..n], values);
    AssignedAll(m, ws[..n], values);
    assert Handles(ws[..n], after - Members(ws[n..])) == Handles(ws[..n], after);
  }

  /** Elements constructed behind existing ones leave those as they are. */
  lemma GrownIsFilled(ws: seq<Wrapper>, more: seq<Wrapper>, m: map<Wrapper, Handle>, values: seq<Handle>)
    requires Lists(ws, m) && Distinct(more) && Members(more) !! m.Keys && |ws| + |more| == |values|
    ensures var k := |ws|; Filled(ws + more, values, Assigned(Assigned(m, ws, values[..k]), more, values[k..]))
    ensures All(values) == All(values[..|ws|]) + All(values[|ws|..])
    ensures Members(ws + more) == Members(ws) + Members(more)
  {
    var k := |ws|;
    var middle := Assigned(m, ws, values[..k]);
    var after := Assigned(middle, more, values[k..]);
    AssignedKeys(m, ws, values[..k]);
    AssignedKeys(middle, more, values[k..]);
    forall i | 0 <= i < |values| ensures Has(after, (ws + more)[i]) == values[i] {
      if i < k {
        assert ws[i] !in Members(more);
        AssignedOnly(middle, more, values[k..], ws[i]);
        AssignedOne(m, ws, values[..k], i);
      } else {
        AssignedOne(middle, more, values[k..], i - k);
      }
    }
    assert Handles(ws + more, after) == values;
    assert Distinct(ws + more);
    AllSplit(values, k);
  }

  /** The raw assignment to a vector that has to grow. */
  method AssignGrowing(vec: WrapperVector, values: seq<Handle>, rt: Runtime)
    requires rt.Conserved() && Lists(vec.items, rt.holders) && |vec.items| < |values|
    modifies vec, vec.items, rt`counts, rt`holders
    ensures Filled(vec.items, values, rt.holders) && rt.Owing(All(values), Members(vec.items))
    ensures rt.counts + All(Handles(old(vec.items), old(rt.holders))) == old(rt.counts)
    ensures vec.items[..|old(vec.items)|] == old(vec.items)
  {
    var k, items := |vec.items|, vec.items;
    ghost var before := rt.holders;
    AssignExisting(items, values[..k], rt);
    var more := AdoptAll(values[k..], rt, All(values[..k]), Members(items));
    GrownIsFilled(items, more, before, values);
    vec.items := items + more;
  }

  /** The raw assignment: elements are reused, added or destroyed as needed, and nothing is retained. */
  method AssignRaw(vec: WrapperVector, values: seq<Handle>, rt: Runtime)
    requires rt.Conserved() && Lists(vec.items, rt.holders)
    modifies vec, vec.items, rt`counts, rt`holders
    ensures Filled(vec.items, values, rt.holders) && rt.Owing(All(values), Members(vec.items))
    ensures rt.counts + All(Handles(old(vec.items), old(rt.holders))) == old(rt.counts)
  {
    if |values| <= |vec.items| {
      AssignShrinking(vec, values, rt);
    } else {
      AssignGrowing(vec, values, rt);
    }
  }

  /** The older query: assign the raw handles, then retain them. */
  method QueryThenRetain(vec: WrapperVector, outcome: Outcome, rt: Runtime) returns (error: int)
    requires rt.Conserved() && Lists(vec.items, rt.holders) && Backed(outcome.values, rt.owned)
    modifies vec, vec.items, rt`counts, rt`holders
    ensures outcome.sizeError != CL_SUCCESS ==> error == outcome.sizeError
    ensures outcome.sizeError == CL_SUCCESS ==> error == outcome.dataError
    ensures rt.Conserved()
    ensures error != CL_SUCCESS ==> vec.items == old(vec.items) && rt.holders == old(rt.holders) && rt.counts == old(rt.counts)
    ensures error == CL_SUCCESS ==> Filled(vec.items, outcome.values, rt.holders) && Holding(vec.items, outcome.values)
    ensures error == CL_SUCCESS ==>
      rt.counts + All(Handles(old(vec.items), old(rt.holders))) == old(rt.counts) + All(outcome.values)
  {
    if outcome.sizeError != CL_SUCCESS {
      return outcome.sizeError;
    }
    if outcome.dataError != CL_SUCCESS {
      return outcome.dataError;
    }
    AssignRaw(vec, outcome.values, rt);
    RetainAll(vec.items, outcome.values, rt);
    FilledIsHolding(vec.items, outcome.values, rt);
    return CL_SUCCESS;
  }

  /** Makes `n` wrappers that hold nothing. */
  method MakeEmpty(n: nat, rt: Runtime) returns (ws: seq<Wrapper>)
    requires rt.Conserved()
    modifies rt`holders
    ensures rt.Conserved() && |ws| == n && Distinct(ws) && (forall i | 0 <= i < n :: fresh(ws[i]))
    ensures rt.holders == Assigned(old(rt.holders), ws, seq(n, i => 0))
  {
    ghost var before := rt.holders;
    ws := [];
    for k := 0 to n
      invariant rt.Conserved() && |ws| == k && Distinct(ws)
      invariant forall i | 0 <= i < k :: fresh(ws[i]) && allocated(ws[i])
      invariant rt.holders == Assigned(before, ws, seq(k, i => 0))
    {
      var w := new Wrapper.Empty(rt);
      assert (ws + [w])[..k] == ws && seq(k + 1, i => 0)[..k] == seq<Handle>(k, i => 0);
      ws := ws + [w];
    }
  }

  /** A temporary that was moved from goes. */
  method Expire(temp: Wrapper, rt: Runtime)
    requires rt.Conserved() && temp in rt.holders && temp.handle == 0
    modifies rt`counts, rt`holders
    ensures rt.Conserved() && rt.holders == old(rt.holders) - {temp} && rt.counts == old(rt.counts)
  {
    rt.NothingOwing();
    temp.Destroy(rt, multiset{}, {});
    rt.NothingOwing();
  }

  lemma TemporaryIsGone(m: map<Wrapper, Handle>, w: Wrapper, temp: Wrapper, v: Handle)
    requires temp !in m && w != temp
    ensures m[temp := v][w := v][temp := 0] - {temp} == m[w := v]
  {
  }

  /** Copy-assigns one element from memory that is read as a wrapper; its owner keeps its count. */
  method CopyOne(w: Wrapper, v: Handle, rt: Runtime)
    requires rt.Conserved() && w in rt.holders && (v != 0 ==> v in rt.owned)
    modifies w, rt`counts, rt`holders
    ensures rt.Conserved() && rt.holders == old(rt.holders)[w := v]
    ensures rt.counts + One(old(rt.holders)[w]) == old(rt.counts) + One(v)
  {
    OwnedBesides(rt.counts, rt.owned, rt.holders, w, v);
    w.Replace(v, rt);
  }

  lemma OwnedBesides(counts: multiset<Handle>, owned: multiset<Handle>, m: map<Wrapper, Handle>, w: Wrapper, v: Handle)
    requires Even(counts, multiset{}, owned, m) && w in m && (v != 0 ==> v in owned)
    ensures One(m[w]) <= counts && (v != 0 ==> v in counts - One(m[w]))
  {
    EvenAlive(counts, owned, m, w, w);
    if v != 0 {
      assert counts[v] + multiset{}[v] == owned[v] + Held(m, v);
      if m[w] == v {
        HeldByOne(m, w);
      }
    }
  }

  /** Assigns one element from a retaining temporary, which ends up empty and goes. */
  method FillOne(w: Wrapper, v: Handle, rt: Runtime)
    requires rt.Conserved() && w in rt.holders && (v != 0 ==> v in rt.owned)
    modifies w, rt`counts, rt`holders
    ensures rt.Conserved() && rt.holders == old(rt.holders)[w := v]
    ensures rt.counts + One(old(rt.holders)[w]) == old(rt.counts) + One(v)
  {
    if v != 0 {
      EvenOwned(rt.counts, rt.owned, rt.holders, v);
    }
    EvenAlive(rt.counts, rt.owned, rt.holders, w, w);
    ghost var before := rt.holders;
    var temp := new Wrapper.Retaining(v, rt);
    w.MoveAssign(temp, rt);
    TemporaryIsGone(before, w, temp, v);
    Expire(temp, rt);
  }

  lemma AddUp(now: multiset<Handle>, next: multiset<Handle>, start: multiset<Handle>, given: multiset<Handle>, taken: multiset<Handle>,
              g: multiset<Handle>, t: multiset<Handle>)
    requires now + given == start + taken && next + g == now + t
    ensures next + (given + g) == start + (taken + t)
  {
    forall h: Handle ensures (next + (given + g))[h] == (start + (taken + t))[h] {
      assert (now + given)[h] == (start + taken)[h] && (next + g)[h] == (now + t)[h];
    }
  }

  /** Fills the next element, from a retaining temporary or by copying. */
  method FillNext(ws: seq<Wrapper>, values: seq<Handle>, k: nat, rt: Runtime, copying: bool, ghost before: map<Wrapper, Handle>, ghost start: multiset<Handle>)
    requires rt.Conserved() && Lists(ws, before) && k < |ws| == |values| && Backed(values, rt.owned)
    requires rt.holders == Assigned(before, ws[..k], values[..k])
    requires rt.counts + All(Handles(ws[..k], before)) == start + All(values[..k])
    modifies ws[k], rt`counts, rt`holders
    ensures rt.Conserved() && rt.holders == Assigned(before, ws[..k + 1], values[..k + 1])
    ensures rt.counts + All(Handles(ws[..k + 1], before)) == start + All(values[..k + 1])
  {
    NextOf(ws, k, before);
    AllLast(values, k);
    AssignedNext(before, ws, values, k);
    AssignedOnly(before, ws[..k], values[..k], ws[k]);
    AssignedKeys(before, ws[..k], values[..k]);
    ghost var now := rt.counts;
    if copying {
      CopyOne(ws[k], values[k], rt);
    } else {
      FillOne(ws[k], values[k], rt);
    }
    AddUp(now, rt.counts, start, All(Handles(ws[..k], before)), All(values[..k]), One(Has(before, ws[k])), One(values[k]));
  }

  lemma NothingYet(ws: seq<Wrapper>, values: seq<Handle>, m: map<Wrapper, Handle>)
    requires |ws| == |values|
    ensures Assigned(m, ws[..0], values[..0]) == m && All(Handles(ws[..0], m)) == All(values[..0]) == multiset{}
  {
  }

  /** Fills the elements one by one; counts and owners balance after each of them. */
  method FillAll(ws: seq<Wrapper>, values: seq<Handle>, rt: Runtime, copying: bool)
    requires rt.Conserved() && Lists(ws, rt.holders) && |ws| == |values| && Backed(values, rt.owned)
    modifies ws, rt`counts, rt`holders
    ensures rt.Conserved() && rt.holders == Assigned(old(rt.holders), ws, values)
    ensures rt.counts + All(Handles(ws, old(rt.holders))) == old(rt.counts) + All(values)
  {
    ghost var before := rt.holders;
    NothingYet(ws, values, before);
    for k := 0 to |ws|
      invariant rt.Conserved() && rt.holders == Assigned(before, ws[..k], values[..k])
      invariant rt.counts + All(Handles(ws[..k], before)) == old(rt.counts) + All(values[..k])
    {
      FillNext(ws, values, k, rt, copying, before, old(rt.counts));
    }
    assert ws[..|ws|] == ws && values[..|ws|] == values;
  }

  lemma NothingIn(n: nat)
    ensures All(seq(n, i => 0)) == multiset{}
  {
    var s: seq<Handle> := seq(n, i => 0);
    forall h | h in multiset(s) ensures h == 0 {
      assert h in s;
    }
  }

  lemma HandlesJoin(ws: seq<Wrapper>, more: seq<Wrapper>, m: map<Wrapper, Handle>)
    ensures Handles(ws + more, m) == Handles(ws, m) + Handles(more, m)
  {
  }

  lemma HandlesKept(ws: seq<Wrapper>, m: map<Wrapper, Handle>, m': map<Wrapper, Handle>)
    requires forall i | 0 <= i < |ws| :: Has(m', ws[i]) == Has(m, ws[i])
    ensures Handles(ws, m') == Handles(ws, m)
  {
  }

  lemma ResizedHandles(ws: seq<Wrapper>, more: seq<Wrapper>, m: map<Wrapper, Handle>, zeros: seq<Handle>)
    requires Lists(ws, m) && Distinct(more) && Members(more) !! m.Keys && |zeros| == |more|
    ensures Handles(ws + more, Assigned(m, more, zeros)) == Handles(ws, m) + zeros
  {
    var after := Assigned(m, more, zeros);
    forall i | 0 <= i < |ws| ensures Has(after, ws[i]) == Has(m, ws[i]) {
      assert ws[i] !in Members(more);
      AssignedOnly(m, more, zeros, ws[i]);
    }
    HandlesKept(ws, m, after);
    AssignedAll(m, more, zeros);
    HandlesJoin(ws, more, after);
  }

  lemma ResizedLists(ws: seq<Wrapper>, more: seq<Wrapper>, m: map<Wrapper, Handle>, zeros: seq<Handle>)
    requires Lists(ws, m) && Distinct(more) && Members(more) !! m.Keys && |zeros| == |more|
    ensures Lists(ws + more, Assigned(m, more, zeros))
  {
    AssignedKeys(m, more, zeros);
    forall i, j | 0 <= i < |ws| && 0 <= j < |more| ensures ws[i] != more[j] {
      assert more[j] in Members(more);
    }
    forall j | 0 <= j < |more| ensures more[j] in Assigned(m, more, zeros) {
      assert more[j] in Members(more);
    }
  }

  lemma ResizedCounts(ws: seq<Wrapper>, more: seq<Wrapper>, m: map<Wrapper, Handle>)
    requires Lists(ws, m) && Distinct(more) && Members(more) !! m.Keys
    ensures var after := Assigned(m, more, seq(|more|, i => 0)); All(Handles(ws + more, after)) == All(Handles(ws, m))
  {
    ResizedHandles(ws, more, m, seq(|more|, i => 0));
    NothingIn(|more|);
  }

  /** Drops elements behind the new end, or adds elements that hold nothing. */
  method Resize(vec: WrapperVector, n: nat, rt: Runtime)
    requires rt.Conserved() && Lists(vec.items, rt.holders)
    modifies vec, rt`counts, rt`holders
    ensures rt.Conserved() && Lists(vec.items, rt.holders) && |vec.items| == n
    ensures rt.counts + All(Handles(old(vec.items), old(rt.holders))) == old(rt.counts) + All(Handles(vec.items, rt.holders))
    ensures forall i | 0 <= i < n :: vec.items[i] in old(vec.items) || fresh(vec.items[i])
  {
    if n <= |vec.items| {
      ShrinkTo(vec, n, rt);
    } else {
      var more := MakeEmpty(n - |vec.items|, rt);
      ResizedLists(vec.items, more, old(rt.holders), seq(|more|, i => 0));
      ResizedCounts(vec.items, more, old(rt.holders));
      vec.items := vec.items + more;
    }
  }

  lemma KeptAndGone(ws: seq<Wrapper>, n: nat, m: map<Wrapper, Handle>)
    requires n <= |ws| && Lists(ws, m)
    ensures Lists(ws[..n], m - Members(ws[n..]))
    ensures All(Handles(ws, m)) == All(Handles(ws[..n], m - Members(ws[n..]))) + All(Handles(ws[n..], m))
  {
    var all := Handles(ws, m);
    AllSplit(all, n);
    assert all[..n] == Handles(ws[..n], m - Members(ws[n..])) && all[n..] == Handles(ws[n..], m);
  }

  method ShrinkTo(vec: WrapperVector, n: nat, rt: Runtime)
    requires rt.Conserved() && Lists(vec.items, rt.holders) && n <= |vec.items|
    modifies vec, rt`counts, rt`holders
    ensures rt.Conserved() && Lists(vec.items, rt.holders) && vec.items == old(vec.items)[..n]
    ensures rt.counts + All(Handles(old(vec.items), old(rt.holders))) == old(rt.counts) + All(Handles(vec.items, rt.holders))
  {
    var kept, rest := vec.items[..n], vec.items[n..];
    ghost var before := rt.holders;
    rt.NothingOwing();
    DestroyAll(rest, rt, multiset{}, {});
    rt.NothingOwing();
    KeptAndGone(vec.items, n, before);
    vec.items := kept;
  }

  lemma PassOn(start: multiset<Handle>, now: multiset<Handle>, next: multiset<Handle>,
               given: multiset<Handle>, held: multiset<Handle>, taken: multiset<Handle>)
    requires now + given == start + held && next + held == now + taken
    ensures next + given == start + taken
  {
    forall h: Handle ensures (next + given)[h] == (start + taken)[h] {
      assert (now + given)[h] == (start + held)[h] && (next + held)[h] == (now + taken)[h];
    }
  }

  /** Resizes, then assigns every element. */
  method ResizeAndFill(vec: WrapperVector, values: seq<Handle>, rt: Runtime, copying: bool)
    requires rt.Conserved() && Lists(vec.items, rt.holders) && Backed(values, rt.owned)
    modifies vec, vec.items, rt`counts, rt`holders
    ensures rt.Conserved() && Filled(vec.items, values, rt.holders)
    ensures rt.counts + All(Handles(old(vec.items), old(rt.holders))) == old(rt.counts) + All(values)
  {
    ghost var start, given := rt.counts, All(Handles(vec.items, rt.holders));
    Resize(vec, |values|, rt);
    ghost var before, now, held := rt.holders, rt.counts, All(Handles(vec.items, rt.holders));
    FillAll(vec.items, values, rt, copying);
    AssignedAll(before, vec.items, values);
    AssignedKeys(before, vec.items, values);
    PassOn(start, now, rt.counts, given, held, All(values));
  }

  /** The newer query; it is asked for nothing where there is no vector to fill. */
  method QueryRetaining(vec: WrapperVector?, outcome: Outcome, rt: Runtime) returns (error: int)
    requires rt.Conserved() && (vec != null ==> Lists(vec.items, rt.holders)) && Backed(outcome.values, rt.owned)
    modifies vec, if vec == null then [] else vec.items, rt`counts, rt`holders
    ensures outcome.sizeError != CL_SUCCESS ==> error == outcome.sizeError
    ensures outcome.sizeError == CL_SUCCESS ==> error == outcome.dataError
    ensures rt.Conserved()
    ensures error != CL_SUCCESS || vec == null ==> rt.holders == old(rt.holders) && rt.counts == old(rt.counts)
    ensures error != CL_SUCCESS && vec != null ==> vec.items == old(vec.items)
    ensures error == CL_SUCCESS && vec != null ==> Filled(vec.items, outcome.values, rt.holders) && Holding(vec.items, outcome.values)
    ensures error == CL_SUCCESS && vec != null ==>
      rt.counts + All(Handles(old(vec.items), old(rt.holders))) == old(rt.counts) + All(outcome.values)
  {
    if outcome.sizeError != CL_SUCCESS {
      return outcome.sizeError;
    }
    if outcome.dataError != CL_SUCCESS {
      return outcome.dataError;
    }
    if vec != null {
      ResizeAndFill(vec, outcome.values, rt, false);
      FilledIsHolding(vec.items, outcome.values, rt);
    }
    return CL_SUCCESS;
  }

  lemma SameRest(a: multiset<Handle>, b: multiset<Handle>, c: multiset<Handle>)
    requires a + c == b + c
    ensures a == b
  {
    forall h: Handle ensures a[h] == b[h] {
      assert (a + c)[h] == (b + c)[h];
    }
  }

  /** From equal starts the two queries end with equal errors, equal elements and equal counts. */
  method QueriesAgree(v1: WrapperVector, rt1: Runtime, v2: WrapperVector, rt2: Runtime, outcome: Outcome) returns (e1: int, e2: int)
    requires rt1 != rt2 && v1 != v2 && Members(v1.items) !! Members(v2.items)
    requires rt1.Conserved() && Lists(v1.items, rt1.holders) && Backed(outcome.values, rt1.owned)
    requires rt2.Conserved() && Lists(v2.items, rt2.holders) && Backed(outcome.values, rt2.owned)
    requires rt1.holders.Keys !! rt2.holders.Keys
    requires rt1.counts == rt2.counts && Handles(v1.items, rt1.holders) == Handles(v2.items, rt2.holders)
    modifies v1, v1.items, rt1`counts, rt1`holders, v2, v2.items, rt2`counts, rt2`holders
    ensures e1 == e2 && rt1.counts == rt2.counts && Handles(v1.items, rt1.holders) == Handles(v2.items, rt2.holders)
  {
    ghost var was := Handles(v1.items, rt1.holders);
    e1 := QueryThenRetain(v1, outcome, rt1);
    e2 := QueryRetaining(v2, outcome, rt2);
    if e1 == CL_SUCCESS {
      SameRest(rt1.counts, rt2.counts, All(was));
    }
  }
}

/**
 Reference-counted handles: the wrapper class of the OpenCL binding headers over the runtime's counters.

 The runtime is modelled by the multiset of counts it keeps; retaining and releasing need an object that is still
 alive and then succeed.  `owned` are the counts held by anybody but a wrapper, and `holders` lists the wrappers
 that exist with what each holds; the code has neither.
 */
module Ownership {
  import opened Bindings
  import opened RefCounting

  /** The holders' map, with nothing for the wrappers in `unpaid`. */
  ghost function Paid(m: map<Wrapper, Handle>, unpaid: set<Wrapper>): map<Wrapper, Handle> {
    map w | w in m :: if w in unpaid then 0 else m[w]
  }

  lemma NobodyUnpaid(m: map<Wrapper, Handle>)
    ensures Paid(m, {}) == m
  {
  }

  /** A debt is owed for every wrapper in `unpaid` that holds something. */
  lemma DebtIsOwed(m: map<Wrapper, Handle>, unpaid: set<Wrapper>, w: Wrapper)
    requires w in m && w in unpaid && m[w] != 0
    ensures Held(Paid(m, unpaid), m[w]) < Held(m, m[w])
  {
    var some, all := HoldersOf(Paid(m, unpaid), m[w]), HoldersOf(m, m[w]);
    assert some <= all && w in all && w !in some;
    assert |all| == |some| + |all - some|;
    assert w in all - some;
  }

  class Runtime {
    var counts: multiset<Handle>
    ghost var owned: multiset<Handle>
    ghost var holders: map<Wrapper, Handle>

    /** The list of holders is right, and counts and owners balance. */
    ghost predicate Conserved()
      reads this, holders.Keys
    {
      && (forall w | w in holders :: w.handle == holders[w])
      && Even(counts, multiset{}, owned, holders)
    }

    /**
     The wrappers in `unpaid` hold handles nobody retained for them: `owed` in all.  Both sides are even: everything
     with `owed` taken into account, and the counts as they are with those wrappers left out.
     */
    ghost predicate Owing(owed: multiset<Handle>, unpaid: set<Wrapper>)
      reads this, holders.Keys
    {
      && (forall w | w in holders :: w.handle == holders[w])
      && unpaid <= holders.Keys
      && Even(counts, owed, owned, holders)
      && Even(counts, multiset{}, owned, Paid(holders, unpaid))
    }

    lemma NothingOwing()
      ensures Owing(multiset{}, {}) <==> Conserved()
    {
      NobodyUnpaid(holders);
    }

    lemma AllPaid(owed: multiset<Handle>)
      requires Owing(owed, {})
      ensures Conserved()
    {
      NobodyUnpaid(holders);
    }

    /** An object is alive exactly as long as somebody owns it. */
    lemma AliveIffOwned(h: Handle)
      requires Conserved() && h != 0
      ensures h in counts <==> h in owned || exists w :: w in holders && w.handle == h
    {
      assert counts[h] + multiset{}[h] == owned[h] + Held(holders, h);
      HeldByNobody(holders, h);
    }

    constructor ()
      ensures Conserved() && holders == map[] && counts == owned == multiset{}
    {
      counts, owned, holders := multiset{}, multiset{}, map[];
    }

    method Retain(h: Handle)
      requires h in counts
      modifies this`counts
      ensures counts == old(counts) + multiset{h}
    {
      counts := counts + multiset{h};
    }

    /** Dropping the last count destroys the object: `h` is then no longer in `counts`. */
    method Release(h: Handle)
      requires h in counts
      modifies this`counts
      ensures counts == old(counts) - multiset{h}
    {
      counts := counts - multiset{h};
    }
  }

  class Wrapper {
    var handle: Handle

    /** Default construction: holds nothing. */
    constructor Empty(rt: Runtime)
      requires rt.Conserved()
      modifies rt`holders
      ensures rt.Conserved() && handle == 0 && rt.holders == old(rt.holders)[this := 0] && this !in old(rt.holders)
    {
      handle := 0;
      new;
      EvenSwap(rt.counts, multiset{}, rt.owned, rt.holders, this, 0);
      assert rt.counts - One(0) + One(0) == rt.counts;
      rt.holders := rt.holders[this := 0];
    }

    /** Construction from a raw handle takes over a count of somebody else, or runs into debt for it. */
    constructor Adopt(h: Handle, rt: Runtime, ghost owed: multiset<Handle>, ghost unpaid: set<Wrapper>)
      requires rt.Owing(owed, unpaid)
      modifies rt`holders
      ensures handle == h && rt.holders == old(rt.holders)[this := h] && this !in old(rt.holders)
      ensures rt.Owing(owed + One(h), unpaid + {this})
    {
      handle := h;
      new;
      EvenPut(rt.counts, owed, rt.owned, rt.holders, this, h, rt.counts, owed + One(h), rt.owned);
      ghost var paid := Paid(rt.holders, unpaid);
      EvenPut(rt.counts, multiset{}, rt.owned, paid, this, 0, rt.counts, multiset{}, rt.owned);
      assert Paid(rt.holders[this := h], unpaid + {this}) == paid[this := 0];
      rt.holders := rt.holders[this := h];
    }

    /** Construction from a raw handle with a count retained for it. */
    constructor Retaining(h: Handle, rt: Runtime)
      requires rt.Conserved() && (h != 0 ==> h in rt.counts)
      modifies rt`holders, rt`counts
      ensures handle == h && rt.holders == old(rt.holders)[this := h] && this !in old(rt.holders)
      ensures rt.Conserved() && rt.counts == old(rt.counts) + One(h)
    {
      handle := h;
      new;
      EvenPut(rt.counts, multiset{}, rt.owned, rt.holders, this, h, rt.counts + One(h), multiset{}, rt.owned);
      RetainHeld(rt);
      rt.holders := rt.holders[this := h];
    }

    /** Copy construction. */
    constructor Copy(rhs: Wrapper, rt: Runtime)
      requires rt.Conserved() && rhs in rt.holders
      modifies rt`holders, rt`counts
      ensures handle == rhs.handle && rt.holders == old(rt.holders)[this := handle] && this !in old(rt.holders)
      ensures rt.Conserved() && rt.counts == old(rt.counts) + One(handle)
    {
      handle := rhs.handle;
      new;
      EvenAlive(rt.counts, rt.owned, rt.holders, rhs, rhs);
      EvenPut(rt.counts, multiset{}, rt.owned, rt.holders, this, handle, rt.counts + One(handle), multiset{}, rt.owned);
      RetainHeld(rt);
      rt.holders := rt.holders[this := handle];
    }

    /** Move construction. */
    constructor Move(rhs: Wrapper, rt: Runtime)
      requires rt.Conserved() && rhs in rt.holders
      modifies rt`holders, rhs
      ensures handle == old(rhs.handle) && rhs.handle == 0 && this !in old(rt.holders)
      ensures rt.Conserved() && rt.holders == old(rt.holders)[this := handle][rhs := 0]
    {
      handle := rhs.handle;
      new;
      EvenMove(rt.counts, multiset{}, rt.owned, rt.holders, rhs, this);
      rhs.handle := 0;
      rt.holders := rt.holders[this := handle][rhs := 0];
    }

    /** Destruction: releases what the wrapper holds; no operation may use the wrapper afterwards. */
    method Destroy(rt: Runtime, ghost owed: multiset<Handle>, ghost unpaid: set<Wrapper>)
      requires rt.Owing(owed, unpaid) && this in rt.holders && this !in unpaid
      modifies rt`counts, rt`holders
      ensures rt.Owing(owed, unpaid) && rt.holders == old(rt.holders) - {this}
      ensures One(handle) <= old(rt.counts) && rt.counts == old(rt.counts) - One(handle)
    {
      ghost var paid := Paid(rt.holders, unpaid);
      EvenAlive(rt.counts, rt.owned, paid, this, this);
      EvenDrop(rt.counts, multiset{}, rt.owned, paid, this);
      EvenDrop(rt.counts, owed, rt.owned, rt.holders, this);
      assert Paid(rt.holders - {this}, unpaid) == paid - {this};
      ReleaseHeld(rt);
      rt.holders := rt.holders - {this};
    }

    /** Retains what this wrapper holds, if anything. */
    method RetainHeld(rt: Runtime)
      requires handle != 0 ==> handle in rt.counts
      modifies rt`counts
      ensures rt.counts == old(rt.counts) + One(handle)
    {
      if handle != 0 {
        rt.Retain(handle);
      }
    }

    /** Releases what this wrapper holds, if anything. */
    method ReleaseHeld(rt: Runtime)
      requires handle != 0 ==> handle in rt.counts
      modifies rt`counts
      ensures rt.counts == old(rt.counts) - One(handle)
    {
      if handle != 0 {
        rt.Release(handle);
      }
    }

    /** Gives up what this wrapper holds and takes over `v`: release, assign, retain. */
    method Replace(v: Handle, rt: Runtime)
      requires rt.Conserved() && this in rt.holders
      requires One(handle) <= rt.counts && (v != 0 ==> v in rt.counts - One(handle))
      modifies this, rt`counts, rt`holders
      ensures rt.Conserved() && rt.holders == old(rt.holders)[this := v]
      ensures rt.counts == old(rt.counts) - One(old(handle)) + One(v)
    {
      EvenSwap(rt.counts, multiset{}, rt.owned, rt.holders, this, v);
      ReleaseHeld(rt);
      handle := v;
      RetainHeld(rt);
      rt.holders := rt.holders[this := v];
    }

    /**
     Copy assignment.  Releasing first is safe: two wrappers own the two counts, so that what `rhs` holds is still
     alive when it is retained, even where both hold the same handle.
     */
    method CopyAssign(rhs: Wrapper, rt: Runtime)
      requires rt.Conserved() && this in rt.holders && rhs in rt.holders
      modifies this, rt`counts, rt`holders
      ensures rt.Conserved() && rt.holders == old(rt.holders)[this := old(rhs.handle)]
      ensures this == rhs ==> rt.counts == old(rt.counts)
      ensures this != rhs ==> rt.counts == old(rt.counts) - One(old(handle)) + One(rhs.handle)
      ensures this != rhs ==> One(rhs.handle) <= old(rt.counts) - One(old(handle))
    {
      if this != rhs {
        EvenAlive(rt.counts, rt.owned, rt.holders, this, rhs);
        Replace(rhs.handle, rt);
      }
    }

    /** Move assignment. */
    method MoveAssign(rhs: Wrapper, rt: Runtime)
      requires rt.Conserved() && this in rt.holders && rhs in rt.holders
      modifies this, rhs, rt`counts, rt`holders
      ensures rt.Conserved()
      ensures this == rhs ==> rt.counts == old(rt.counts) && rt.holders == old(rt.holders)
      ensures this != rhs ==> rt.counts == old(rt.counts) - One(old(handle)) && One(old(rhs.handle)) <= rt.counts
      ensures this != rhs ==> rt.holders == old(rt.holders)[this := old(rhs.handle)][rhs := 0]
    {
      if this != rhs {
        EvenAlive(rt.counts, rt.owned, rt.holders, this, rhs);
        EvenSwap(rt.counts, multiset{}, rt.owned, rt.holders, this, 0);
        ReleaseHeld(rt);
        ghost var gone := rt.holders[this := 0];
        EvenMove(rt.counts, multiset{}, rt.owned, gone, rhs, this);
        assert gone[this := rhs.handle][rhs := 0] == rt.holders[this := rhs.handle][rhs := 0];
        handle := rhs.handle;
        rhs.handle := 0;
        rt.holders := rt.holders[this := handle][rhs := 0];
      }
    }

    /** Assignment from a raw handle: nobody retains the new one. */
    method RawAssign(v: Handle, rt: Runtime, ghost owed: multiset<Handle>, ghost unpaid: set<Wrapper>)
      requires rt.Owing(owed, unpaid) && this in rt.holders && this !in unpaid
      modifies this, rt`counts, rt`holders
      ensures rt.holders == old(rt.holders)[this := v]
      ensures One(old(handle)) <= old(rt.counts) && rt.counts == old(rt.counts) - One(old(handle))
      ensures rt.Owing(owed + One(v), unpaid + {this})
    {
      ghost var paid := Paid(rt.holders, unpaid);
      ghost var after := rt.counts - One(handle);
      EvenAlive(rt.counts, rt.owned, paid, this, this);
      EvenPut(rt.counts, owed, rt.owned, rt.holders, this, v, after, owed + One(v), rt.owned);
      EvenPut(rt.counts, multiset{}, rt.owned, paid, this, 0, after, multiset{}, rt.owned);
      assert Paid(rt.holders[this := v], unpaid + {this}) == paid[this := 0];
      ReleaseHeld(rt);
      handle := v;
      rt.holders := rt.holders[this := v];
    }

    /** Assignment from a raw handle keeps the balance exactly when the caller hands over its own count of it. */
    method RawAssignGiving(v: Handle, rt: Runtime, ghost given: multiset<Handle>)
      requires rt.Conserved() && this in rt.holders && given <= rt.owned
      modifies this, rt
      ensures rt.owned == old(rt.owned) - given && rt.holders == old(rt.holders)[this := v]
      ensures One(old(handle)) <= old(rt.counts) && rt.counts == old(rt.counts) - One(old(handle))
      ensures rt.Conserved() <==> given == One(v)
    {
      rt.NothingOwing();
      RawAssign(v, rt, multiset{}, {});
      assert multiset{} + One(v) == One(v);
      BalancedIffGiven(rt.counts, v, rt.owned, rt.holders, given);
      rt.owned := rt.owned - given;
    }

    /** Retaining settles what was owed for this wrapper. */
    method PayOff(rt: Runtime, ghost owed: multiset<Handle>, ghost unpaid: set<Wrapper>)
      requires rt.Owing(owed, unpaid) && this in unpaid
      requires handle != 0 ==> handle in rt.counts
      modifies rt`counts
      ensures rt.counts == old(rt.counts) + One(handle)
      ensures One(handle) <= owed && rt.Owing(owed - One(handle), unpaid - {this})
    {
      ghost var paid := Paid(rt.holders, unpaid);
      ghost var after := rt.counts + One(handle);
      EvenPut(rt.counts, multiset{}, rt.owned, paid, this, handle, after, multiset{}, rt.owned);
      assert Paid(rt.holders, unpaid - {this}) == paid[this := handle];
      if handle != 0 {
        DebtIsOwed(rt.holders, unpaid, this);
        assert rt.counts[handle] + multiset{}[handle] == rt.owned[handle] + Held(paid, handle);
      }
      EvenPut(rt.counts, owed, rt.owned, rt.holders, this, handle, after, owed - One(handle), rt.owned);
      assert rt.holders[this := handle] == rt.holders;
      RetainHeld(rt);
    }
  }
}

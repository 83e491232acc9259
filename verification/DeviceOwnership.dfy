/**
 Device handles: the wrapper specialisation with a flag that says whether the runtime counts references to the
 device at all.  Platforms before version 1.2 do not, and then nothing may be retained or released.

 Retaining or releasing a device that is not alive is an error, which the wrappers ignore: no count changes.
 */
module DeviceOwnership {
  import opened Bindings
  import opened RefCounting
  import PlatformVersion

  class DeviceRuntime {
    /** The devices whose references are counted. */
    const counted: set<Handle>
    var counts: multiset<Handle>
    ghost var owned: multiset<Handle>
    /** The wrappers that exist, with the handle each of them has a count on; NULL where references are not counted. */
    ghost var holders: map<DeviceWrapper, Handle>

    predicate IsReferenceCountable(h: Handle) {
      h in counted
    }

    /** The handle if references to it are counted. */
    function Counted(h: Handle): Handle {
      if IsReferenceCountable(h) then h else 0
    }

    /** Every flag is right, and only counted references are held. */
    ghost predicate Flagged()
      reads this, holders.Keys
    {
      && 0 !in counted
      && (forall w | w in holders :: w.countable == IsReferenceCountable(w.handle) && holders[w] == Counted(w.handle))
    }

    /** Every flag is right, and counts and owners balance. */
    ghost predicate Conserved()
      reads this, holders.Keys
    {
      Flagged() && Even(counts, multiset{}, owned, holders)
    }

    /** The counts of devices without counting are the given ones. */
    ghost predicate UncountedAre(before: multiset<Handle>)
      reads this
    {
      forall h: Handle | !IsReferenceCountable(h) :: counts[h] == before[h]
    }

    /** What is counted is decided by the packed version of the platform each device belongs to. */
    constructor (version: map<Handle, nat>, ghost owned: multiset<Handle>, counts: multiset<Handle>)
      requires counts == owned
      ensures Conserved() && holders == map[] && this.counts == counts && this.owned == owned
      ensures forall h :: IsReferenceCountable(h) <==> h != 0 && h in version && PlatformVersion.CountsReferences(version[h])
    {
      this.counted := set h | h in version && h != 0 && PlatformVersion.CountsReferences(version[h]);
      this.counts, this.owned, this.holders := counts, owned, map[];
      new;
      forall h: Handle ensures counts[h] + multiset{}[h] == owned[h] + Held(holders, h) {
        HeldByNobody(holders, h);
      }
    }

    method Retain(h: Handle)
      requires IsReferenceCountable(h)
      modifies this`counts
      ensures counts == if h in old(counts) then old(counts) + multiset{h} else old(counts)
    {
      if h in counts {
        counts := counts + multiset{h};
      }
    }

    method Release(h: Handle)
      requires IsReferenceCountable(h)
      modifies this`counts
      ensures counts == if h in old(counts) then old(counts) - multiset{h} else old(counts)
    {
      if h in counts {
        counts := counts - multiset{h};
      }
    }

    /** In a balanced state the counts of a device without counting are what others own. */
    lemma UncountedIsUntouched(h: Handle)
      requires Conserved() && !IsReferenceCountable(h)
      ensures counts[h] == owned[h]
    {
      HeldByNobody(holders, h);
      assert counts[h] + multiset{}[h] == owned[h] + Held(holders, h);
    }

    /** A counted device is alive exactly as long as somebody owns it. */
    lemma AliveIffOwned(h: Handle)
      requires Conserved() && IsReferenceCountable(h)
      ensures h in counts <==> h in owned || exists w :: w in holders && w.handle == h
    {
      assert counts[h] + multiset{}[h] == owned[h] + Held(holders, h);
      HeldByNobody(holders, h);
    }
  }

  class DeviceWrapper {
    var handle: Handle
    var countable: bool

    constructor Empty(rt: DeviceRuntime)
      requires rt.Flagged()
      modifies rt`holders
      ensures rt.Flagged() && rt.holders == old(rt.holders)[this := 0] && this !in old(rt.holders) && handle == 0
      ensures old(rt.Conserved()) ==> rt.Conserved()
    {
      handle, countable := 0, false;
      new;
      if rt.Conserved() {
        EvenPut(rt.counts, multiset{}, rt.owned, rt.holders, this, 0, rt.counts, multiset{}, rt.owned);
      }
      rt.holders := rt.holders[this := 0];
    }

    /**
     Construction from a raw handle.  The flag is right in any case; the counts balance exactly if the caller hands
     over the one count that is needed, if any.
     */
    constructor Adopt(h: Handle, rt: DeviceRuntime, ghost given: multiset<Handle>)
      requires rt.Flagged() && given <= rt.owned
      modifies rt`holders, rt`owned
      ensures rt.Flagged() && handle == h && rt.holders == old(rt.holders)[this := rt.Counted(h)] && this !in old(rt.holders)
      ensures rt.owned == old(rt.owned) - given
      ensures old(rt.Conserved()) ==> (rt.Conserved() <==> given == One(rt.Counted(h)))
    {
      handle, countable := h, rt.IsReferenceCountable(h);
      new;
      JoinGiven(rt, rt.Counted(h), given);
    }

    /** A new wrapper is a holder from now on, and somebody else may have given up a count for it. */
    ghost method JoinGiven(rt: DeviceRuntime, c: Handle, given: multiset<Handle>)
      requires rt.Flagged() && this !in rt.holders && countable == rt.IsReferenceCountable(handle) && c == rt.Counted(handle)
      requires given <= rt.owned
      modifies rt`holders, rt`owned
      ensures rt.Flagged() && rt.holders == old(rt.holders)[this := c] && rt.owned == old(rt.owned) - given
      ensures old(rt.Conserved()) ==> (rt.Conserved() <==> given == One(c))
    {
      if rt.Conserved() {
        EvenPut(rt.counts, multiset{}, rt.owned, rt.holders, this, c, rt.counts, One(c), rt.owned);
        BalancedIffGiven(rt.counts, c, rt.owned, rt.holders[this := c], given);
      }
      rt.holders := rt.holders[this := c];
      rt.owned := rt.owned - given;
    }

    /** Copy construction; the flag is found out again. */
    constructor Copy(rhs: DeviceWrapper, rt: DeviceRuntime)
      requires rt.Flagged() && rhs in rt.holders
      modifies rt`holders, rt`counts
      ensures rt.Flagged() && handle == rhs.handle && this !in old(rt.holders) && rt.UncountedAre(old(rt.counts))
      ensures rt.holders == old(rt.holders)[this := rt.Counted(handle)]
      ensures old(rt.Conserved()) ==> rt.Conserved() && rt.counts == old(rt.counts) + One(rt.Counted(handle))
    {
      handle := rhs.handle;
      countable := rt.IsReferenceCountable(rhs.handle);
      new;
      if rt.Conserved() {
        EvenAlive(rt.counts, rt.owned, rt.holders, rhs, rhs);
      }
      Join(rt, rt.Counted(handle));
    }

    /** A new wrapper retains what it holds and is a holder from then on. */
    method Join(rt: DeviceRuntime, ghost c: Handle)
      requires rt.Flagged() && this !in rt.holders && countable == rt.IsReferenceCountable(handle) && c == rt.Counted(handle)
      requires rt.Conserved() ==> One(c) <= rt.counts
      modifies rt`holders, rt`counts
      ensures rt.Flagged() && rt.holders == old(rt.holders)[this := c] && rt.UncountedAre(old(rt.counts))
      ensures old(rt.Conserved()) ==> rt.Conserved() && rt.counts == old(rt.counts) + One(c)
    {
      if rt.Conserved() {
        EvenPut(rt.counts, multiset{}, rt.owned, rt.holders, this, c, rt.counts + One(c), multiset{}, rt.owned);
      }
      RetainHeld(rt, c);
      rt.holders := rt.holders[this := c];
    }

    /** Move construction; the flag moves along. */
    constructor Move(rhs: DeviceWrapper, rt: DeviceRuntime)
      requires rt.Flagged() && rhs in rt.holders
      modifies rt`holders, rhs
      ensures rt.Flagged() && handle == old(rhs.handle) && rhs.handle == 0 && this !in old(rt.holders)
      ensures rt.holders == old(rt.holders)[this := rt.Counted(handle)][rhs := 0]
      ensures old(rt.Conserved()) ==> rt.Conserved()
    {
      handle := rhs.handle;
      countable := rhs.countable;
      new;
      if rt.Conserved() {
        EvenMove(rt.counts, multiset{}, rt.owned, rt.holders, rhs, this);
      }
      rt.holders := rt.holders[this := rt.Counted(handle)][rhs := 0];
      rhs.handle := 0;
      rhs.countable := false;
    }

    method Destroy(rt: DeviceRuntime)
      requires rt.Flagged() && this in rt.holders
      modifies rt`counts, rt`holders
      ensures rt.Flagged() && rt.holders == old(rt.holders) - {this} && rt.UncountedAre(old(rt.counts))
      ensures old(rt.Conserved()) ==> rt.Conserved() && rt.counts + One(rt.Counted(handle)) == old(rt.counts)
    {
      if rt.Conserved() {
        EvenAlive(rt.counts, rt.owned, rt.holders, this, this);
        EvenDrop(rt.counts, multiset{}, rt.owned, rt.holders, this);
      }
      ReleaseHeld(rt, rt.Counted(handle));
      rt.holders := rt.holders - {this};
    }

    method RetainHeld(rt: DeviceRuntime, ghost c: Handle)
      requires countable == rt.IsReferenceCountable(handle) && c == rt.Counted(handle) && 0 !in rt.counted
      modifies rt`counts
      ensures rt.UncountedAre(old(rt.counts))
      ensures One(c) <= old(rt.counts) ==> rt.counts == old(rt.counts) + One(c)
    {
      if countable {
        rt.Retain(handle);
      }
    }

    method ReleaseHeld(rt: DeviceRuntime, ghost c: Handle)
      requires countable == rt.IsReferenceCountable(handle) && c == rt.Counted(handle) && 0 !in rt.counted
      modifies rt`counts
      ensures rt.UncountedAre(old(rt.counts))
      ensures One(c) <= old(rt.counts) ==> rt.counts == old(rt.counts) - One(c)
    {
      if countable {
        rt.Release(handle);
      }
    }

    /** Takes over handle and flag; nothing is retained or released. */
    method Take(v: Handle, flag: bool, rt: DeviceRuntime, ghost c: Handle)
      requires rt.Flagged() && this in rt.holders && flag == rt.IsReferenceCountable(v) && c == rt.Counted(v)
      modifies this, rt`holders
      ensures rt.Flagged() && rt.holders == old(rt.holders)[this := c] && handle == v && countable == flag
    {
      handle := v;
      countable := flag;
      rt.holders := rt.holders[this := c];
    }

    /** Release, take over handle and flag, retain. */
    method Replace(v: Handle, flag: bool, rt: DeviceRuntime, ghost was: Handle, ghost c: Handle)
      requires rt.Flagged() && this in rt.holders && flag == rt.IsReferenceCountable(v)
      requires was == rt.Counted(handle) && c == rt.Counted(v)
      requires rt.Conserved() ==> One(was) + One(c) <= rt.counts
      modifies this, rt`counts, rt`holders
      ensures rt.Flagged() && rt.holders == old(rt.holders)[this := c] && handle == v && rt.UncountedAre(old(rt.counts))
      ensures old(rt.Conserved()) ==> rt.Conserved() && rt.counts == old(rt.counts) - One(was) + One(c)
    {
      if rt.Conserved() {
        EvenSwap(rt.counts, multiset{}, rt.owned, rt.holders, this, c);
      }
      ReleaseHeld(rt, was);
      Take(v, flag, rt, c);
      RetainHeld(rt, c);
    }

    /** Copy assignment; the flag is copied, not found out again. */
    method CopyAssign(rhs: DeviceWrapper, rt: DeviceRuntime)
      requires rt.Flagged() && this in rt.holders && rhs in rt.holders
      modifies this, rt`counts, rt`holders
      ensures rt.Flagged() && rt.holders == old(rt.holders)[this := rt.Counted(rhs.handle)] && handle == rhs.handle
      ensures rt.UncountedAre(old(rt.counts)) && (this == rhs ==> rt.counts == old(rt.counts))
      ensures old(rt.Conserved()) ==> rt.Conserved()
      ensures old(rt.Conserved()) && this != rhs ==>
        rt.counts == old(rt.counts) - One(rt.Counted(old(handle))) + One(rt.Counted(rhs.handle))
    {
      if this != rhs {
        if rt.Conserved() {
          EvenAlive(rt.counts, rt.owned, rt.holders, this, rhs);
        }
        Replace(rhs.handle, rhs.countable, rt, rt.Counted(handle), rt.Counted(rhs.handle));
      }
    }

    /** Gives up whatever this wrapper holds. */
    method Drop(rt: DeviceRuntime, ghost was: Handle)
      requires rt.Flagged() && this in rt.holders && was == rt.Counted(handle)
      modifies this, rt`counts, rt`holders
      ensures rt.Flagged() && rt.holders == old(rt.holders)[this := 0] && rt.UncountedAre(old(rt.counts))
      ensures old(rt.Conserved()) ==> rt.Conserved() && rt.counts + One(was) == old(rt.counts)
    {
      if rt.Conserved() {
        EvenAlive(rt.counts, rt.owned, rt.holders, this, this);
      }
      Replace(0, false, rt, was, 0);
    }

    /** Move assignment; the flag moves along. */
    method MoveAssign(rhs: DeviceWrapper, rt: DeviceRuntime)
      requires rt.Flagged() && this in rt.holders && rhs in rt.holders
      modifies this, rhs, rt`counts, rt`holders
      ensures rt.Flagged() && rt.UncountedAre(old(rt.counts))
      ensures this == rhs ==> rt.counts == old(rt.counts) && rt.holders == old(rt.holders)
      ensures this != rhs ==> handle == old(rhs.handle) && rhs.handle == 0
      ensures this != rhs ==> rt.holders == old(rt.holders)[this := rt.Counted(old(rhs.handle))][rhs := 0]
      ensures old(rt.Conserved()) ==> rt.Conserved()
      ensures old(rt.Conserved()) && this != rhs ==> rt.counts + One(rt.Counted(old(handle))) == old(rt.counts)
    {
      if this != rhs {
        MoveFrom(rhs, rt, rt.Counted(handle), rt.Counted(rhs.handle));
      }
    }

    method MoveFrom(rhs: DeviceWrapper, rt: DeviceRuntime, ghost was: Handle, ghost c: Handle)
      requires rt.Flagged() && this in rt.holders && rhs in rt.holders && this != rhs
      requires was == rt.Counted(handle) && c == rt.Counted(rhs.handle)
      modifies this, rhs, rt`counts, rt`holders
      ensures rt.Flagged() && rt.UncountedAre(old(rt.counts)) && handle == old(rhs.handle) && rhs.handle == 0
      ensures rt.holders == old(rt.holders)[this := c][rhs := 0]
      ensures old(rt.Conserved()) ==> rt.Conserved() && rt.counts + One(was) == old(rt.counts)
    {
      ghost var m: map<DeviceWrapper, Handle> := rt.holders;
      Drop(rt, was);
      assert m[this := 0][this := c] == m[this := c];
      TakeFrom(rhs, rt, c);
    }

    /** A wrapper that holds nothing takes over what another one holds. */
    method TakeFrom(rhs: DeviceWrapper, rt: DeviceRuntime, ghost c: Handle)
      requires rt.Flagged() && this in rt.holders && rhs in rt.holders && this != rhs
      requires rt.holders[this] == 0 && c == rt.Counted(rhs.handle)
      modifies this, rhs, rt`holders
      ensures rt.Flagged() && handle == old(rhs.handle) && rhs.handle == 0
      ensures rt.holders == old(rt.holders)[this := c][rhs := 0]
      ensures old(rt.Conserved()) ==> rt.Conserved()
    {
      if rt.Conserved() {
        EvenMove(rt.counts, multiset{}, rt.owned, rt.holders, rhs, this);
      }
      Take(rhs.handle, rhs.countable, rt, c);
      rhs.Take(0, false, rt, 0);
    }

    /** Assignment from a raw handle; the flag is found out again. */
    method RawAssign(v: Handle, rt: DeviceRuntime, ghost given: multiset<Handle>)
      requires rt.Flagged() && this in rt.holders && given <= rt.owned
      modifies this, rt
      ensures rt.Flagged() && handle == v && rt.owned == old(rt.owned) - given && rt.UncountedAre(old(rt.counts))
      ensures rt.holders == old(rt.holders)[this := rt.Counted(v)]
      ensures old(rt.Conserved()) ==> rt.counts + One(rt.Counted(old(handle))) == old(rt.counts)
      ensures old(rt.Conserved()) ==> (rt.Conserved() <==> given == One(rt.Counted(v)))
    {
      RawReplace(v, rt, rt.Counted(handle), rt.Counted(v), given);
    }

    method RawReplace(v: Handle, rt: DeviceRuntime, ghost was: Handle, ghost c: Handle, ghost given: multiset<Handle>)
      requires rt.Flagged() && this in rt.holders && given <= rt.owned && was == rt.Counted(handle) && c == rt.Counted(v)
      modifies this, rt
      ensures rt.Flagged() && handle == v && rt.owned == old(rt.owned) - given && rt.UncountedAre(old(rt.counts))
      ensures rt.holders == old(rt.holders)[this := c]
      ensures old(rt.Conserved()) ==> rt.counts + One(was) == old(rt.counts) && (rt.Conserved() <==> given == One(c))
    {
      ghost var m: map<DeviceWrapper, Handle> := rt.holders;
      Drop(rt, was);
      assert m[this := 0][this := c] == m[this := c];
      TakeRaw(v, rt, c, given);
    }

    /** A wrapper that holds nothing takes over a raw handle. */
    method TakeRaw(v: Handle, rt: DeviceRuntime, ghost c: Handle, ghost given: multiset<Handle>)
      requires rt.Flagged() && this in rt.holders && given <= rt.owned && rt.holders[this] == 0 && c == rt.Counted(v)
      modifies this, rt`holders, rt`owned
      ensures rt.Flagged() && handle == v && rt.owned == old(rt.owned) - given && rt.holders == old(rt.holders)[this := c]
      ensures old(rt.Conserved()) ==> (rt.Conserved() <==> given == One(c))
    {
      if rt.Conserved() {
        EvenPut(rt.counts, multiset{}, rt.owned, rt.holders, this, c, rt.counts, One(c), rt.owned);
        BalancedIffGiven(rt.counts, c, rt.owned, rt.holders[this := c], given);
      }
      Take(v, rt.IsReferenceCountable(v), rt, c);
      rt.owned := rt.owned - given;
    }
  }
}

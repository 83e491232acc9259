/**
 Whole runs of device-wrapper operations, in any order and on any wrappers, borrowed devices included.
 */
module DeviceRuns {
  import opened Bindings
  import opened RefCounting
  import opened DeviceOwnership

  /** An operation on the wrappers a program has, named by their positions. */
  datatype Op =
    | MakeDefault
    | MakeTaking(taken: Handle)               // from a raw handle whose count, if any, is handed over
    | MakeBorrowing(borrowed: Handle)         // from a raw handle that somebody else goes on owning
    | MakeCopy(source: nat)
    | MakeMoved(source: nat)
    | Kill(target: nat)
    | AssignCopy(target: nat, source: nat)
    | AssignMoved(target: nat, source: nat)
    | AssignTaking(target: nat, taken: Handle)
    | AssignBorrowing(target: nat, borrowed: Handle)

  /** No count that is needed is merely borrowed. */
  predicate Balanced(op: Op, rt: DeviceRuntime) {
    op.MakeBorrowing? || op.AssignBorrowing? ==> !rt.IsReferenceCountable(op.borrowed)
  }

  /** A program's wrappers are all the wrappers there are, and all their flags are right. */
  ghost predicate Complete(ws: seq<DeviceWrapper>, rt: DeviceRuntime)
    reads rt, rt.holders.Keys
  {
    rt.Flagged() && Lists(ws, rt.holders) && rt.holders.Keys == Members(ws)
  }

  /** The runtime hands out a device, with a count for the caller if references to it are counted. */
  method HandOut(h: Handle, rt: DeviceRuntime)
    requires rt.Flagged()
    modifies rt`counts, rt`owned
    ensures rt.Flagged() && rt.UncountedAre(old(rt.counts)) && rt.owned == old(rt.owned) + One(rt.Counted(h))
    ensures old(rt.Conserved()) ==> rt.Conserved()
  {
    if rt.IsReferenceCountable(h) {
      if rt.Conserved() {
        forall x: Handle ensures (rt.counts + multiset{h})[x] + multiset{}[x] == (rt.owned + multiset{h})[x] + Held(rt.holders, x) {
          assert rt.counts[x] + multiset{}[x] == rt.owned[x] + Held(rt.holders, x);
        }
      }
      rt.counts := rt.counts + multiset{h};
      rt.owned := rt.owned + multiset{h};
    }
  }

  method MakeTaken(h: Handle, rt: DeviceRuntime) returns (w: DeviceWrapper)
    requires rt.Flagged()
    modifies rt
    ensures rt.Flagged() && fresh(w) && rt.holders.Keys == old(rt.holders.Keys) + {w} && rt.owned == old(rt.owned)
    ensures rt.UncountedAre(old(rt.counts)) && (old(rt.Conserved()) ==> rt.Conserved())
  {
    HandOut(h, rt);
    w := new DeviceWrapper.Adopt(h, rt, One(rt.Counted(h)));
  }

  method MakeBorrowed(h: Handle, rt: DeviceRuntime) returns (w: DeviceWrapper)
    requires rt.Flagged()
    modifies rt
    ensures rt.Flagged() && fresh(w) && rt.holders.Keys == old(rt.holders.Keys) + {w} && rt.owned == old(rt.owned)
    ensures rt.counts == old(rt.counts) && (old(rt.Conserved()) && !rt.IsReferenceCountable(h) ==> rt.Conserved())
  {
    w := new DeviceWrapper.Adopt(h, rt, multiset{});
    assert old(rt.owned) - multiset{} == old(rt.owned);
  }

  method AssignTaken(w: DeviceWrapper, h: Handle, rt: DeviceRuntime)
    requires rt.Flagged() && w in rt.holders
    modifies rt, w
    ensures rt.Flagged() && rt.holders.Keys == old(rt.holders.Keys) && rt.owned == old(rt.owned)
    ensures rt.UncountedAre(old(rt.counts)) && (old(rt.Conserved()) ==> rt.Conserved())
  {
    HandOut(h, rt);
    w.RawAssign(h, rt, One(rt.Counted(h)));
  }

  method AssignBorrowed(w: DeviceWrapper, h: Handle, rt: DeviceRuntime)
    requires rt.Flagged() && w in rt.holders
    modifies rt, w
    ensures rt.Flagged() && rt.holders.Keys == old(rt.holders.Keys) && rt.owned == old(rt.owned)
    ensures rt.UncountedAre(old(rt.counts)) && (old(rt.Conserved()) && !rt.IsReferenceCountable(h) ==> rt.Conserved())
  {
    w.RawAssign(h, rt, multiset{});
    assert old(rt.owned) - multiset{} == old(rt.owned);
  }

  /** The construction an operation stands for; NULL where it is not one, or has nothing to work on. */
  method Construct(ws: seq<DeviceWrapper>, op: Op, rt: DeviceRuntime) returns (made: DeviceWrapper?)
    requires Complete(ws, rt)
    modifies rt, ws
    ensures rt.Flagged() && rt.owned == old(rt.owned) && rt.UncountedAre(old(rt.counts))
    ensures old(rt.Conserved()) && Balanced(op, rt) ==> rt.Conserved()
    ensures made == null ==> rt.holders.Keys == old(rt.holders).Keys
    ensures made != null ==> fresh(made) && made !in old(rt.holders) && rt.holders.Keys == old(rt.holders).Keys + {made}
  {
    made := null;
    if op.MakeDefault? {
      made := new DeviceWrapper.Empty(rt);
    } else if op.MakeTaking? {
      made := MakeTaken(op.taken, rt);
    } else if op.MakeBorrowing? {
      made := MakeBorrowed(op.borrowed, rt);
    } else if op.MakeCopy? && op.source < |ws| {
      made := new DeviceWrapper.Copy(ws[op.source], rt);
    } else if op.MakeMoved? && op.source < |ws| {
      made := new DeviceWrapper.Move(ws[op.source], rt);
    }
  }

  /** The assignment an operation stands for, if it is one and names wrappers that exist. */
  method Assign(ws: seq<DeviceWrapper>, op: Op, rt: DeviceRuntime)
    requires Complete(ws, rt)
    modifies rt, ws
    ensures rt.Flagged() && rt.owned == old(rt.owned) && rt.UncountedAre(old(rt.counts))
    ensures rt.holders.Keys == old(rt.holders).Keys
    ensures old(rt.Conserved()) && Balanced(op, rt) ==> rt.Conserved()
  {
    if op.AssignCopy? && op.target < |ws| && op.source < |ws| {
      ws[op.target].CopyAssign(ws[op.source], rt);
    } else if op.AssignMoved? && op.target < |ws| && op.source < |ws| {
      ws[op.target].MoveAssign(ws[op.source], rt);
    } else if op.AssignTaking? && op.target < |ws| {
      AssignTaken(ws[op.target], op.taken, rt);
    } else if op.AssignBorrowing? && op.target < |ws| {
      AssignBorrowed(ws[op.target], op.borrowed, rt);
    }
  }

  /** Destroys one wrapper. */
  method Remove(ws: seq<DeviceWrapper>, i: nat, rt: DeviceRuntime) returns (rest: seq<DeviceWrapper>)
    requires Complete(ws, rt) && i < |ws|
    modifies rt`counts, rt`holders
    ensures Complete(rest, rt) && rest == ws[..i] + ws[i + 1..] && rt.UncountedAre(old(rt.counts))
    ensures old(rt.Conserved()) ==> rt.Conserved()
  {
    ws[i].Destroy(rt);
    rest := ws[..i] + ws[i + 1..];
    Without(ws, i);
  }

  /** One operation keeps every flag right; it keeps the balance where nothing that is needed is borrowed. */
  method Perform(ws: seq<DeviceWrapper>, op: Op, rt: DeviceRuntime) returns (now: seq<DeviceWrapper>)
    requires Complete(ws, rt)
    modifies rt, ws
    ensures Complete(now, rt) && rt.owned == old(rt.owned) && rt.UncountedAre(old(rt.counts))
    ensures old(rt.Conserved()) && Balanced(op, rt) ==> rt.Conserved()
    ensures forall i | 0 <= i < |now| :: now[i] in ws || fresh(now[i])
  {
    now := ws;
    if op.Kill? {
      if op.target < |ws| {
        now := Remove(ws, op.target, rt);
      }
    } else if op.AssignCopy? || op.AssignMoved? || op.AssignTaking? || op.AssignBorrowing? {
      Assign(ws, op, rt);
    } else {
      var made := Construct(ws, op, rt);
      if made != null {
        now := ws + [made];
        assert Members(now) == Members(ws) + {made};
      }
    }
  }

  /**
   Any run, balanced or not: every wrapper's flag says whether its device is counted, and the counts of devices
   without counting are what they were.  If no count that is needed was borrowed, the counts also balance, and a
   counted device is alive exactly if somebody owns it.
   */
  method Run(script: seq<Op>, rt: DeviceRuntime) returns (ws: seq<DeviceWrapper>)
    requires rt.Flagged() && rt.holders == map[]
    modifies rt
    ensures Complete(ws, rt) && rt.owned == old(rt.owned)
    ensures forall i | 0 <= i < |ws| :: fresh(ws[i]) && ws[i].countable == rt.IsReferenceCountable(ws[i].handle)
    ensures rt.UncountedAre(old(rt.counts))
    ensures old(rt.Conserved()) && (forall i | 0 <= i < |script| :: Balanced(script[i], rt)) ==> rt.Conserved()
  {
    ws := [];
    for k := 0 to |script|
      invariant Complete(ws, rt) && rt.owned == old(rt.owned) && rt.UncountedAre(old(rt.counts))
      invariant forall i | 0 <= i < |ws| :: fresh(ws[i]) && allocated(ws[i])
      invariant old(rt.Conserved()) && (forall i | 0 <= i < k :: Balanced(script[i], rt)) ==> rt.Conserved()
    {
      ws := Perform(ws, script[k], rt);
    }
  }

  /** Destroys all wrappers. */
  method CleanUp(ws: seq<DeviceWrapper>, rt: DeviceRuntime)
    requires Complete(ws, rt)
    modifies rt`counts, rt`holders
    ensures rt.Flagged() && rt.holders == map[] && rt.UncountedAre(old(rt.counts))
    ensures old(rt.Conserved()) ==> rt.Conserved() && rt.counts == rt.owned
  {
    var rest := ws;
    while rest != []
      invariant Complete(rest, rt) && rt.UncountedAre(old(rt.counts)) && (old(rt.Conserved()) ==> rt.Conserved())
      decreases |rest|
    {
      rest := Remove(rest, |rest| - 1, rt);
    }
    assert rt.holders.Keys == {};
    if rt.Conserved() {
      OwnersAreCounts(rt);
    }
  }

  lemma OwnersAreCounts(rt: DeviceRuntime)
    requires rt.Conserved() && rt.holders == map[]
    ensures rt.counts == rt.owned
  {
    forall h: Handle ensures rt.counts[h] == rt.owned[h] {
      HeldByNobody(rt.holders, h);
      assert rt.counts[h] + multiset{}[h] == rt.owned[h] + Held(rt.holders, h);
    }
  }

  /** A whole balanced program leaves every count as it was. */
  method RunAndCleanUp(script: seq<Op>, rt: DeviceRuntime)
    requires rt.Conserved() && rt.holders == map[] && forall i | 0 <= i < |script| :: Balanced(script[i], rt)
    modifies rt
    ensures rt.Conserved() && rt.holders == map[] && rt.counts == old(rt.counts)
  {
    OwnersAreCounts(rt);
    var ws := Run(script, rt);
    CleanUp(ws, rt);
  }
}

/**
 Whole runs of wrapper operations, in any order and on any wrappers.
 */
module OwnershipRuns {
  import opened Bindings
  import opened RefCounting
  import opened Ownership
  import opened VectorQueries

  /** An operation on the wrappers a program has, named by their positions. */
  datatype Op =
    | MakeDefault
    | MakeFromNew(made: Handle)
    | MakeRetaining(shared: Handle)
    | MakeCopy(source: nat)
    | MakeMoved(source: nat)
    | Kill(target: nat)
    | AssignCopy(target: nat, source: nat)
    | AssignMoved(target: nat, source: nat)
    | AssignFromNew(target: nat, made: Handle)

  /** A program's wrappers are all the wrappers there are. */
  ghost predicate Complete(ws: seq<Wrapper>, rt: Runtime)
    reads rt, rt.holders.Keys
  {
    rt.Conserved() && Lists(ws, rt.holders) && rt.holders.Keys == Members(ws)
  }

  /** The runtime creates an object and hands its first count to the caller; NULL stands for a failed creation. */
  method Create(h: Handle, rt: Runtime)
    requires rt.Conserved()
    modifies rt`counts, rt`owned
    ensures rt.Conserved() && rt.counts == old(rt.counts) + One(h) && rt.owned == old(rt.owned) + One(h)
  {
    if h != 0 {
      forall x: Handle ensures (rt.counts + multiset{h})[x] + multiset{}[x] == (rt.owned + multiset{h})[x] + Held(rt.holders, x) {
        assert rt.counts[x] + multiset{}[x] == rt.owned[x] + Held(rt.holders, x);
      }
      rt.counts := rt.counts + multiset{h};
      rt.owned := rt.owned + multiset{h};
    }
  }

  /** Construction from a raw handle whose count the caller hands over. */
  method AdoptGiven(h: Handle, rt: Runtime) returns (w: Wrapper)
    requires rt.Conserved() && One(h) <= rt.owned
    modifies rt`holders, rt`owned
    ensures rt.Conserved() && fresh(w) && w !in old(rt.holders)
    ensures rt.holders == old(rt.holders)[w := h] && rt.owned == old(rt.owned) - One(h)
  {
    rt.NothingOwing();
    w := new Wrapper.Adopt(h, rt, multiset{}, {});
    assert multiset{} + One(h) == One(h);
    BalancedIffGiven(rt.counts, h, rt.owned, rt.holders, One(h));
    rt.owned := rt.owned - One(h);
  }

  method CreateAndAdopt(h: Handle, rt: Runtime) returns (w: Wrapper)
    requires rt.Conserved()
    modifies rt
    ensures rt.Conserved() && fresh(w) && w !in old(rt.holders)
    ensures rt.holders == old(rt.holders)[w := h] && rt.owned == old(rt.owned) && rt.counts == old(rt.counts) + One(h)
  {
    Create(h, rt);
    w := AdoptGiven(h, rt);
  }

  method CreateAndAssign(w: Wrapper, h: Handle, rt: Runtime)
    requires rt.Conserved() && w in rt.holders
    modifies rt, w
    ensures rt.Conserved() && rt.holders == old(rt.holders)[w := h] && rt.owned == old(rt.owned)
  {
    Create(h, rt);
    w.RawAssignGiving(h, rt, One(h));
  }

  /** The construction an operation stands for; NULL where it is not one, or has nothing to work on. */
  method Construct(ws: seq<Wrapper>, op: Op, rt: Runtime) returns (made: Wrapper?)
    requires Complete(ws, rt)
    modifies rt, ws
    ensures rt.Conserved() && rt.owned == old(rt.owned)
    ensures made == null ==> rt.holders.Keys == old(rt.holders).Keys
    ensures made != null ==> fresh(made) && made !in old(rt.holders) && rt.holders.Keys == old(rt.holders).Keys + {made}
  {
    made := null;
    if op.MakeDefault? {
      made := new Wrapper.Empty(rt);
    } else if op.MakeFromNew? {
      made := CreateAndAdopt(op.made, rt);
    } else if op.MakeRetaining? && (op.shared == 0 || op.shared in rt.counts) {
      made := new Wrapper.Retaining(op.shared, rt);
    } else if op.MakeCopy? && op.source < |ws| {
      made := new Wrapper.Copy(ws[op.source], rt);
    } else if op.MakeMoved? && op.source < |ws| {
      made := new Wrapper.Move(ws[op.source], rt);
    }
  }

  /** The assignment an operation stands for, if it is one and names wrappers that exist. */
  method Assign(ws: seq<Wrapper>, op: Op, rt: Runtime)
    requires Complete(ws, rt)
    modifies rt, ws
    ensures rt.Conserved() && rt.owned == old(rt.owned) && rt.holders.Keys == old(rt.holders).Keys
  {
    if op.AssignCopy? && op.target < |ws| && op.source < |ws| {
      ws[op.target].CopyAssign(ws[op.source], rt);
    } else if op.AssignMoved? && op.target < |ws| && op.source < |ws| {
      ws[op.target].MoveAssign(ws[op.source], rt);
    } else if op.AssignFromNew? && op.target < |ws| {
      CreateAndAssign(ws[op.target], op.made, rt);
    }
  }

  /** Destroys one wrapper. */
  method Remove(ws: seq<Wrapper>, i: nat, rt: Runtime) returns (rest: seq<Wrapper>)
    requires Complete(ws, rt) && i < |ws|
    modifies rt`counts, rt`holders
    ensures Complete(rest, rt) && rest == ws[..i] + ws[i + 1..]
  {
    rt.NothingOwing();
    ws[i].Destroy(rt, multiset{}, {});
    rt.NothingOwing();
    rest := ws[..i] + ws[i + 1..];
    Without(ws, i);
  }

  /** One operation. */
  method Perform(ws: seq<Wrapper>, op: Op, rt: Runtime) returns (now: seq<Wrapper>)
    requires Complete(ws, rt)
    modifies rt, ws
    ensures Complete(now, rt) && rt.owned == old(rt.owned)
    ensures forall i | 0 <= i < |now| :: now[i] in ws || fresh(now[i])
  {
    now := ws;
    if op.Kill? {
      if op.target < |ws| {
        now := Remove(ws, op.target, rt);
      }
    } else if op.AssignCopy? || op.AssignMoved? || op.AssignFromNew? {
      Assign(ws, op, rt);
    } else {
      var made := Construct(ws, op, rt);
      if made != null {
        now := ws + [made];
        assert Members(now) == Members(ws) + {made};
      }
    }
  }

  /**
   Any run: whatever a program does to its wrappers, counts and owners balance at the end, an object is alive exactly
   if somebody owns it, and once all wrappers are gone only the counts of other owners are left.
   */
  method Run(script: seq<Op>, rt: Runtime) returns (ws: seq<Wrapper>)
    requires rt.Conserved() && rt.holders == map[]
    modifies rt
    ensures Complete(ws, rt) && rt.owned == old(rt.owned)
    ensures forall h: Handle | h != 0 :: h in rt.counts <==> h in rt.owned || exists w :: w in ws && w.handle == h
  {
    ws := [];
    for k := 0 to |script|
      invariant Complete(ws, rt) && rt.owned == old(rt.owned)
      invariant forall i | 0 <= i < |ws| :: fresh(ws[i]) && allocated(ws[i])
    {
      ws := Perform(ws, script[k], rt);
    }
    forall h: Handle | h != 0 ensures h in rt.counts <==> h in rt.owned || exists w :: w in ws && w.handle == h {
      rt.AliveIffOwned(h);
      assert forall w :: w in ws <==> w in Members(ws);
    }
  }

  /** A whole program: after a run and the destruction of every wrapper the counts are what they were. */
  method RunAndCleanUp(script: seq<Op>, rt: Runtime)
    requires rt.Conserved() && rt.holders == map[]
    modifies rt
    ensures rt.Conserved() && rt.holders == map[] && rt.counts == old(rt.counts)
  {
    ghost var before := rt.counts;
    OwnersAreCounts(rt);
    var ws := Run(script, rt);
    rt.NothingOwing();
    DestroyAll(ws, rt, multiset{}, {});
    rt.NothingOwing();
    OwnersAreCounts(rt);
  }

  lemma OwnersAreCounts(rt: Runtime)
    requires rt.Conserved() && rt.holders == map[]
    ensures rt.counts == rt.owned
  {
    forall h: Handle ensures rt.counts[h] == rt.owned[h] {
      HeldByNobody(rt.holders, h);
      assert rt.counts[h] + multiset{}[h] == rt.owned[h] + Held(rt.holders, h);
    }
  }
}

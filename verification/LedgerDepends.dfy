/** Which blocks cannot stay without a given one: those after it in its chain, and those that received from them. */
module LedgerDepends {
  import opened LedgerTypes
  import opened LedgerInvariant
  import opened LedgerRemove

  /** `x` is `h`, or stands on a block, or received from one, that depends on `h`. */
  ghost predicate Depends(t: Tables, g: Trail, h: Id, x: Id)
    decreases if x in g.past then g.past[x].time else 0
  {
    && x in t.blocks && x in g.past
    && var prev, source := t.blocks[x].block.Previous(), g.Source(t.blocks[x].block);
       || x == h
       || (prev in g.past && g.past[prev].time < g.past[x].time && Depends(t, g, h, prev))
       || (source in g.past && g.past[source].time < g.past[x].time && Depends(t, g, h, source))
  }

  /** Exactly the blocks that depend on `h` are gone. */
  ghost predicate Undone(t: Tables, g: Trail, t': Tables, h: Id) {
    && t'.blocks.Keys <= t.blocks.Keys
    && forall x {:trigger Depends(t, g, h, x)} | x in t.blocks :: x in t'.blocks <==> !Depends(t, g, h, x)
  }

  /** No block is gone that does not depend on `h`. */
  ghost predicate OnlyDependentsGone(t: Tables, g: Trail, t': Tables, h: Id) {
    && t'.blocks.Keys <= t.blocks.Keys
    && forall x {:trigger Depends(t, g, h, x)} | x in t.blocks && x !in t'.blocks :: Depends(t, g, h, x)
  }

  lemma {:induction false} DependsTransitively(t: Tables, g: Trail, a: Id, b: Id, x: Id)
    requires Depends(t, g, a, b) && Depends(t, g, b, x)
    ensures Depends(t, g, a, x)
    decreases if x in g.past then g.past[x].time else 0
  {
    if x != b {
      var prev, source := t.blocks[x].block.Previous(), g.Source(t.blocks[x].block);
      if prev in g.past && g.past[prev].time < g.past[x].time && Depends(t, g, b, prev) {
        DependsTransitively(t, g, a, b, prev);
      } else {
        DependsTransitively(t, g, a, b, source);
      }
    }
  }

  /** The head of a chain depends on every block of it. */
  lemma {:induction false} HeadDepends(t: Tables, g: Trail, gen: Genesis, x: Id)
    requires History(t, g, gen) && AccountsMatch(t, g) && x in t.blocks
    ensures g.past[x].account in t.accounts && Depends(t, g, x, t.accounts[g.past[x].account].head)
    decreases g.clock - g.past[x].time
  {
    assert Chained(t, g, x) && Listed(t, g, x);
    var s := t.blocks[x].successor;
    if s != 0 {
      assert Chained(t, g, s);
      HeadDepends(t, g, gen, s);
      assert Depends(t, g, x, x) && Depends(t, g, x, s);
      DependsTransitively(t, g, x, s, t.accounts[g.past[x].account].head);
    }
  }

  /** The head of the destination's chain depends on a send that is not pending any more. */
  lemma ReceiverDepends(t: Tables, g: Trail, gen: Genesis, h: Id)
    requires History(t, g, gen) && AccountsMatch(t, g) && PendingMatch(t, g) && h in t.blocks
    requires g.Sends(t.blocks[h].block)
    requires PendingKey(Destination(t.blocks[h].block), h) !in t.pending
    ensures var d := Destination(t.blocks[h].block); d in t.accounts && Depends(t, g, h, t.accounts[d].head)
  {
    assert PendingRow(t, g, PendingKey(Destination(t.blocks[h].block), h));
    assert TakenRow(t, g, gen, h);
    var r := g.taken[h];
    assert Valued(t, g, gen, r);
    assert Depends(t, g, h, h) && Depends(t, g, h, r);
    HeadDepends(t, g, gen, r);
    DependsTransitively(t, g, h, r, t.accounts[g.past[r].account].head);
  }

  /** A block that stays keeps what it stands on and what it received from. */
  lemma StayersKeep(t: Tables, g: Trail, t': Tables, g': Trail, gen: Genesis, body: Id -> Block, time: nat, x: Id)
    requires Sound(t, g, gen, body) && Sound(t', g', gen, body) && Shrunk(g, g', time) && x in t'.blocks
    ensures x in t.blocks && t'.blocks[x].block == t.blocks[x].block && g'.past[x] == g.past[x]
    ensures var b := t.blocks[x].block;
            && g'.Source(b) == g.Source(b)
            && (b.Previous() in g.past ==> b.Previous() in t'.blocks && t'.blocks[b.Previous()].successor == x)
            && (g.Source(b) in g.past ==> g.Source(b) in t'.blocks && g.Source(b) in g'.taken)
  {
    assert InfoRow(t, g, body, x) && InfoRow(t', g', body, x);
    assert Chained(t', g', x) && Valued(t', g', gen, x) && Valued(t, g, gen, x);
  }

  /** What depends on `a` among the blocks that are left depended on it before. */
  lemma {:induction false} DependedBefore(t: Tables, g: Trail, t': Tables, g': Trail, gen: Genesis, body: Id -> Block, time: nat,
                                          a: Id, x: Id)
    requires Sound(t, g, gen, body) && Sound(t', g', gen, body) && Shrunk(g, g', time) && Depends(t', g', a, x)
    ensures Depends(t, g, a, x)
    decreases if x in g'.past then g'.past[x].time else 0
  {
    StayersKeep(t, g, t', g', gen, body, time, x);
    if x != a {
      var prev, source := t.blocks[x].block.Previous(), g.Source(t.blocks[x].block);
      if prev in g'.past && g'.past[prev].time < g'.past[x].time && Depends(t', g', a, prev) {
        DependedBefore(t, g, t', g', gen, body, time, a, prev);
      } else {
        DependedBefore(t, g, t', g', gen, body, time, a, source);
      }
    }
  }

  /** What stays without `h` does not depend on it. */
  lemma {:induction false} StayersDoNotDepend(t: Tables, g: Trail, t': Tables, g': Trail, gen: Genesis, body: Id -> Block, time: nat,
                                              h: Id, x: Id)
    requires Sound(t, g, gen, body) && Sound(t', g', gen, body) && Shrunk(g, g', time)
    requires h !in t'.blocks && x in t'.blocks
    ensures !Depends(t, g, h, x)
    decreases g.past[x].time
  {
    StayersKeep(t, g, t', g', gen, body, time, x);
    var prev, source := t.blocks[x].block.Previous(), g.Source(t.blocks[x].block);
    if prev in g.past && g.past[prev].time < g.past[x].time {
      StayersDoNotDepend(t, g, t', g', gen, body, time, h, prev);
    }
    if source in g.past && g.past[source].time < g.past[x].time {
      StayersDoNotDepend(t, g, t', g', gen, body, time, h, source);
    }
  }

  /** Nor does anything else when `h` is left as a head that nobody received from. */
  lemma {:induction false} OthersDoNotDepend(t: Tables, g: Trail, t': Tables, g': Trail, gen: Genesis, body: Id -> Block, time: nat,
                                             h: Id, x: Id)
    requires Sound(t, g, gen, body) && Sound(t', g', gen, body) && Shrunk(g, g', time)
    requires h in t'.blocks && t'.blocks[h].successor == 0 && h !in g'.taken && x in t'.blocks && x != h
    ensures !Depends(t, g, h, x)
    decreases g.past[x].time
  {
    StayersKeep(t, g, t', g', gen, body, time, x);
    assert InfoRow(t', g', body, x) && 0 !in t'.blocks;
    var prev, source := t.blocks[x].block.Previous(), g.Source(t.blocks[x].block);
    if prev in g.past && g.past[prev].time < g.past[x].time {
      OthersDoNotDepend(t, g, t', g', gen, body, time, h, prev);
    }
    if source in g.past && g.past[source].time < g.past[x].time {
      OthersDoNotDepend(t, g, t', g', gen, body, time, h, source);
    }
  }

  /** With `h` gone and nothing gone that does not depend on it, exactly what depends on it is gone. */
  lemma UndoneConcludes(t: Tables, g: Trail, t': Tables, g': Trail, gen: Genesis, body: Id -> Block, time: nat, h: Id)
    requires Sound(t, g, gen, body) && Sound(t', g', gen, body) && Shrunk(g, g', time)
    requires OnlyDependentsGone(t, g, t', h) && h !in t'.blocks
    ensures Undone(t, g, t', h)
  {
    forall x | x in t.blocks ensures x in t'.blocks <==> !Depends(t, g, h, x) {
      if x in t'.blocks {
        StayersDoNotDepend(t, g, t', g', gen, body, time, h, x);
      }
    }
  }

  /** Going on with a block that depends on `h`. */
  lemma MoreDependentsGone(t: Tables, g: Trail, t1: Tables, g1: Trail, t2: Tables, gen: Genesis, body: Id -> Block, time: nat,
                           h: Id, y: Id)
    requires Sound(t, g, gen, body) && Sound(t1, g1, gen, body) && Shrunk(g, g1, time)
    requires OnlyDependentsGone(t, g, t1, h) && OnlyDependentsGone(t1, g1, t2, y) && Depends(t1, g1, h, y)
    ensures OnlyDependentsGone(t, g, t2, h)
  {
    forall x | x in t.blocks && x !in t2.blocks ensures Depends(t, g, h, x) {
      if x in t1.blocks {
        assert Depends(t1, g1, y, x);
        DependsTransitively(t1, g1, h, y, x);
        DependedBefore(t, g, t1, g1, gen, body, time, h, x);
      }
    }
  }

  /** Taking one block away takes only itself. */
  lemma OneGone(t: Tables, g: Trail, gen: Genesis, h: Id)
    requires History(t, g, gen) && Removable(t, g, gen, h)
    ensures OnlyDependentsGone(t, g, Dropped(t, g, h), h)
  {
    var prev := t.blocks[h].block.Previous();
    assert Chained(t, g, h);
    assert Dropped(t, g, h).blocks.Keys == t.blocks.Keys - {h};
    assert Depends(t, g, h, h);
  }

  /** Nothing depends on a block that is not there. */
  lemma {:induction false} DoesNotDepend(t: Tables, g: Trail, h: Id, x: Id)
    requires h !in t.blocks
    ensures !Depends(t, g, h, x)
    decreases if x in g.past then g.past[x].time else 0
  {
    if x in t.blocks && x in g.past {
      var prev, source := t.blocks[x].block.Previous(), g.Source(t.blocks[x].block);
      if prev in g.past && g.past[prev].time < g.past[x].time {
        DoesNotDepend(t, g, h, prev);
      }
      if source in g.past && g.past[source].time < g.past[x].time {
        DoesNotDepend(t, g, h, source);
      }
    }
  }

  lemma NothingDepends(t: Tables, g: Trail, h: Id)
    ensures h !in t.blocks ==> Undone(t, g, t, h)
  {
    if h !in t.blocks {
      forall x | x in t.blocks ensures !Depends(t, g, h, x) {
        DoesNotDepend(t, g, h, x);
      }
    }
  }

  /** What is left is the largest sound part of the ledger without `h`: no block goes that could have stayed. */
  lemma LargestWithout(t: Tables, g: Trail, t': Tables, gen: Genesis, body: Id -> Block, h: Id, u: Tables, f: Trail)
    requires Sound(t, g, gen, body) && Undone(t, g, t', h)
    requires Sound(u, f, gen, body) && Shrunk(g, f, 0) && h !in u.blocks
    ensures u.blocks.Keys <= t'.blocks.Keys
  {
    forall x | x in u.blocks ensures x in t'.blocks {
      StayersKeep(t, g, u, f, gen, body, 0, x);
      StayersDoNotDepend(t, g, u, f, gen, body, 0, h, x);
    }
  }
}

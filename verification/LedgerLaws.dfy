/** What holds of every sound ledger, in the words of someone who uses it. */
module LedgerLaws {
  import opened LedgerTypes
  import opened LedgerInvariant
  import opened LedgerExtend
  import opened LedgerRemove

  /** A send is received at most once. */
  lemma NoDoubleReceive(t: Tables, g: Trail, gen: Genesis, x: Id, y: Id)
    requires History(t, g, gen) && x in t.blocks && y in t.blocks && x != gen.hash && y != gen.hash
    requires g.Source(t.blocks[x].block) == g.Source(t.blocks[y].block) != 0
    ensures x == y
  {
    assert Valued(t, g, gen, x) && Valued(t, g, gen, y);
  }

  /** A send is either pending, for its full amount, or received by a block of its destination; never both. */
  lemma PendingOrReceived(t: Tables, g: Trail, gen: Genesis, h: Id)
    requires History(t, g, gen) && PendingMatch(t, g) && h in t.blocks && g.Sends(t.blocks[h].block)
    ensures var key := PendingKey(Destination(t.blocks[h].block), h);
            && (key in t.pending <==> forall x | x in t.blocks && x != gen.hash :: g.Source(t.blocks[x].block) != h)
            && (key in t.pending ==> t.pending[key].amount == g.Sent(t.blocks[h].block))
  {
    var key := PendingKey(Destination(t.blocks[h].block), h);
    assert PendingRow(t, g, key);
    forall x | x in t.blocks && x != gen.hash && g.Source(t.blocks[x].block) == h
      ensures key !in t.pending
    {
      assert Valued(t, g, gen, x);
    }
    if h in g.taken {
      assert TakenRow(t, g, gen, h);
    }
  }

  /** Nothing in an account stands higher than its head, and only the head stands as high. */
  lemma {:induction false} HeadIsHighest(t: Tables, g: Trail, gen: Genesis, x: Id)
    requires History(t, g, gen) && AccountsMatch(t, g) && x in t.blocks
    ensures g.past[x].account in t.accounts
    ensures var info := t.accounts[g.past[x].account];
            g.past[x].height <= info.blockCount && (g.past[x].height == info.blockCount ==> x == info.head)
    decreases g.clock - g.past[x].time
  {
    assert Chained(t, g, x) && Listed(t, g, x);
    assert AccountRow(t, g, g.past[x].account);
    var s := t.blocks[x].successor;
    if s != 0 {
      assert Chained(t, g, s);
      HeadIsHighest(t, g, gen, s);
    }
  }

  /** An account is one chain: it has at most one block of each height, so forks never coexist. */
  lemma {:induction false} OneBlockPerHeight(t: Tables, g: Trail, gen: Genesis, x: Id, y: Id)
    requires History(t, g, gen) && AccountsMatch(t, g) && x in t.blocks && y in t.blocks
    requires g.past[x].account == g.past[y].account && g.past[x].height == g.past[y].height
    ensures x == y
    decreases g.clock - g.past[x].time
  {
    assert Chained(t, g, x) && Chained(t, g, y) && Listed(t, g, x) && Listed(t, g, y);
    var s, r := t.blocks[x].successor, t.blocks[y].successor;
    if s != 0 && r != 0 {
      assert Chained(t, g, s) && Chained(t, g, r);
      OneBlockPerHeight(t, g, gen, s, r);
    } else {
      assert AccountRow(t, g, g.past[x].account);
      HeadIsHighest(t, g, gen, x);
      HeadIsHighest(t, g, gen, y);
    }
  }

  /** The account table's count is the length of the chain: every height up to it is taken. */
  lemma {:induction false} EveryHeightIsTaken(t: Tables, g: Trail, gen: Genesis, x: Id, k: nat) returns (y: Id)
    requires History(t, g, gen) && x in t.blocks && 1 <= k <= g.past[x].height
    ensures y in t.blocks && g.past[y].account == g.past[x].account && g.past[y].height == k
    decreases g.past[x].height
  {
    assert Chained(t, g, x);
    if k == g.past[x].height {
      y := x;
    } else {
      y := EveryHeightIsTaken(t, g, gen, t.blocks[x].block.Previous(), k);
    }
  }

  /** The block before is a state block at a multiple of 32 without a checkpoint. */
  predicate LeavesCheckpoint(t: Tables, b: Block) {
    && b.State? && b.previous in t.blocks && t.blocks[b.previous].block.State? && b.previous !in t.infos
    && b.account in t.accounts && t.accounts[b.account].blockCount % BLOCK_INFO_MAX == 0
  }

  /**
   Adding a block and taking it away again leaves the checkpoint table as it was, except that a state block at
   a multiple of 32 gains a checkpoint it did not have.
   */
  lemma CheckpointsRestoredIff(t: Tables, g: Trail, gen: Genesis, body: Id -> Block, h: Id, b: Block)
    requires Sound(t, g, gen, body) && Acceptable(t, g, h, b) && !Reserved(gen, h) && body(h) == b
    ensures var t', g' := Added(t, g, h, b), Recorded(t, g, h, b);
            h in t'.blocks && h in g'.past && (DroppedInfos(t', g', h) == t.infos <==> !LeavesCheckpoint(t, b))
  {
    var t', g' := Added(t, g, h, b), Recorded(t, g, h, b);
    var prev := b.Previous();
    assert InfoRow(t, g, body, h);
    assert g'.HeightAt(h) == g.HeightAt(prev) + 1;
    if prev != 0 {
      assert InfoRow(t, g, body, prev) && AccountRow(t, g, Owner(g, b)) && Chained(t, g, prev) && Valued(t, g, gen, prev);
      assert g'.BalanceAt(prev) == g.BalanceAt(prev);
      if g.HeightAt(prev) % BLOCK_INFO_MAX == 0 {
        assert prev in DroppedInfos(t', g', h);
        assert DroppedInfos(t', g', h)[prev] == BlockInfo(Owner(g, b), g.BalanceAt(prev));
      }
    }
  }
}

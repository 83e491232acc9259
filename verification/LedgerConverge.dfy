/**
 The tables are a function of the set of blocks: ledgers that hold the same blocks agree on every account,
 every pending entry, every frontier and every weight, in whatever order and through whatever rollbacks the
 blocks got there.
 */
module LedgerConverge {
  import opened LedgerTypes
  import opened LedgerInvariant

  ghost predicate SameBlocks(t: Tables, u: Tables) {
    && t.blocks.Keys == u.blocks.Keys
    && forall h | h in t.blocks :: t.blocks[h].block == u.blocks[h].block
  }

  ghost predicate SameMeaning(g: Trail, f: Trail, h: Id)
  {
    h in g.past && h in f.past ==> f.past[h] == g.past[h].(time := f.past[h].time)
  }

  /** Two histories of the same blocks give each block the same account, balance, representative and height. */
  lemma {:induction false} MeaningIsDetermined(t: Tables, g: Trail, u: Tables, f: Trail, gen: Genesis, h: Id)
    requires History(t, g, gen) && History(u, f, gen) && SameBlocks(t, u) && h in t.blocks
    ensures SameMeaning(g, f, h)
    decreases g.past[h].time
  {
    var b := t.blocks[h].block;
    var prev := b.Previous();
    assert Chained(t, g, h) && Chained(u, f, h);
    assert Valued(t, g, gen, h) && Valued(u, f, gen, h);
    if prev != 0 {
      MeaningIsDetermined(t, g, u, f, gen, prev);
    }
    assert g.BalanceAt(prev) == f.BalanceAt(prev);
    var source := g.Source(b);
    if h != gen.hash && !g.Sends(b) && source != 0 {
      SentIsDetermined(t, g, u, f, gen, source);
    }
  }

  lemma {:induction false} SentIsDetermined(t: Tables, g: Trail, u: Tables, f: Trail, gen: Genesis, h: Id)
    requires History(t, g, gen) && History(u, f, gen) && SameBlocks(t, u) && h in t.blocks
    ensures var b := t.blocks[h].block;
            && g.BalanceAt(b.Previous()) == f.BalanceAt(b.Previous())
            && (b.Send? || b.State? ==> g.Sent(b) == f.Sent(b))
            && g.Sends(b) == f.Sends(b) && g.Source(b) == f.Source(b)
    decreases g.past[h].time
  {
    assert Chained(t, g, h) && Chained(u, f, h);
    var prev := t.blocks[h].block.Previous();
    if prev != 0 {
      MeaningIsDetermined(t, g, u, f, gen, prev);
    }
  }

  lemma TakenIsDetermined(t: Tables, g: Trail, u: Tables, f: Trail, gen: Genesis, s: Id)
    requires History(t, g, gen) && History(u, f, gen) && SameBlocks(t, u) && s in g.taken
    ensures s in f.taken && f.taken[s] == g.taken[s]
  {
    assert TakenRow(t, g, gen, s);
    var h := g.taken[s];
    SentIsDetermined(t, g, u, f, gen, h);
    assert Valued(u, f, gen, h);
  }

  lemma SuccessorIsDetermined(t: Tables, g: Trail, u: Tables, f: Trail, gen: Genesis, h: Id)
    requires History(t, g, gen) && History(u, f, gen) && SameBlocks(t, u) && h in t.blocks
    ensures t.blocks[h].successor == u.blocks[h].successor
  {
    assert Chained(t, g, h) && Chained(u, f, h);
    var s, r := t.blocks[h].successor, u.blocks[h].successor;
    if s != 0 {
      assert Chained(u, f, s);
    }
    if r != 0 {
      assert Chained(t, g, r);
    }
  }

  lemma AccountIsDetermined(t: Tables, g: Trail, u: Tables, f: Trail, gen: Genesis, a: Id)
    requires History(t, g, gen) && History(u, f, gen) && SameBlocks(t, u)
    requires AccountsMatch(t, g) && AccountsMatch(u, f) && a in t.accounts
    ensures a in u.accounts && t.accounts[a] == u.accounts[a]
  {
    assert AccountRow(t, g, a);
    var h := t.accounts[a].head;
    MeaningIsDetermined(t, g, u, f, gen, h);
    SuccessorIsDetermined(t, g, u, f, gen, h);
    assert Listed(u, f, h);
    assert AccountRow(u, f, a);
  }

  lemma PendingIsDetermined(t: Tables, g: Trail, u: Tables, f: Trail, gen: Genesis, key: PendingKey)
    requires History(t, g, gen) && History(u, f, gen) && SameBlocks(t, u)
    requires PendingMatch(t, g) && PendingMatch(u, f) && key in t.pending
    ensures key in u.pending && t.pending[key] == u.pending[key]
  {
    assert PendingRow(t, g, key) && PendingRow(u, f, key);
    MeaningIsDetermined(t, g, u, f, gen, key.hash);
    SentIsDetermined(t, g, u, f, gen, key.hash);
    if key.hash in f.taken {
      assert SameBlocks(u, t);
      TakenIsDetermined(u, f, t, g, gen, key.hash);
    }
  }

  lemma FrontierIsDetermined(t: Tables, g: Trail, u: Tables, f: Trail, gen: Genesis, h: Id)
    requires History(t, g, gen) && History(u, f, gen) && SameBlocks(t, u)
    requires FrontiersMatch(t, g) && FrontiersMatch(u, f) && h in t.frontiers
    ensures h in u.frontiers && t.frontiers[h] == u.frontiers[h]
  {
    assert FrontierRow(t, g, h) && FrontierRow(u, f, h);
    MeaningIsDetermined(t, g, u, f, gen, h);
    SuccessorIsDetermined(t, g, u, f, gen, h);
  }

  predicate SameCheckpoint(t: Tables, u: Tables, h: Id) {
    (h in t.infos <==> h in u.infos) && (h in t.infos && h in u.infos ==> t.infos[h] == u.infos[h])
  }

  /** Checkpoints of blocks that are not state blocks depend on the stored blocks alone. */
  lemma CheckpointIsDetermined(t: Tables, g: Trail, u: Tables, f: Trail, gen: Genesis, body: Id -> Block, h: Id)
    requires Sound(t, g, gen, body) && Sound(u, f, gen, body) && SameBlocks(t, u) && !body(h).State?
    ensures SameCheckpoint(t, u, h)
  {
    assert InfoRow(t, g, body, h) && InfoRow(u, f, body, h);
    if h in t.blocks {
      MeaningIsDetermined(t, g, u, f, gen, h);
    }
  }

  /** Same blocks, same ledger. */
  lemma TablesAreDetermined(t: Tables, g: Trail, u: Tables, f: Trail, gen: Genesis, body: Id -> Block)
    requires Sound(t, g, gen, body) && Sound(u, f, gen, body) && SameBlocks(t, u)
    ensures t.blocks == u.blocks && t.accounts == u.accounts && t.pending == u.pending && t.frontiers == u.frontiers
    ensures forall h: Id | !body(h).State? :: SameCheckpoint(t, u, h)
  {
    assert SameBlocks(u, t);
    forall h: Id | !body(h).State? ensures SameCheckpoint(t, u, h) {
      CheckpointIsDetermined(t, g, u, f, gen, body, h);
    }
    forall h | h in t.blocks ensures t.blocks[h] == u.blocks[h] {
      SuccessorIsDetermined(t, g, u, f, gen, h);
    }
    forall a ensures a in t.accounts ==> a in u.accounts && t.accounts[a] == u.accounts[a] {
      if a in t.accounts { AccountIsDetermined(t, g, u, f, gen, a); }
    }
    forall a ensures a in u.accounts ==> a in t.accounts {
      if a in u.accounts { AccountIsDetermined(u, f, t, g, gen, a); }
    }
    forall k ensures k in t.pending ==> k in u.pending && t.pending[k] == u.pending[k] {
      if k in t.pending { PendingIsDetermined(t, g, u, f, gen, k); }
    }
    forall k ensures k in u.pending ==> k in t.pending {
      if k in u.pending { PendingIsDetermined(u, f, t, g, gen, k); }
    }
    forall h ensures h in t.frontiers ==> h in u.frontiers && t.frontiers[h] == u.frontiers[h] {
      if h in t.frontiers { FrontierIsDetermined(t, g, u, f, gen, h); }
    }
    forall h ensures h in u.frontiers ==> h in t.frontiers {
      if h in u.frontiers { FrontierIsDetermined(u, f, t, g, gen, h); }
    }
  }

  /** Same blocks, same voting weights. */
  lemma WeightsAreDetermined(t: Tables, g: Trail, w: map<Id, nat>, u: Tables, f: Trail, v: map<Id, nat>,
                             gen: Genesis, body: Id -> Block, r: Id)
    requires Sound(t, g, gen, body) && Sound(u, f, gen, body) && SameBlocks(t, u)
    requires Weighs(t, w, NoSkew()) && Weighs(u, v, NoSkew())
    ensures WeightIn(w, r) == WeightIn(v, r)
  {
    TablesAreDetermined(t, g, u, f, gen, body);
    assert Shares(t, r) == Shares(u, r);
    assert WeightDue(t, r) == WeightDue(u, r);
  }
}

/** Taking the head block of a chain away keeps every table right. */
module LedgerRemove {
  import opened LedgerTypes
  import opened LedgerInvariant
  import opened LedgerExtend
  import opened MapTotal

  /** The block is the head of its chain, and what it sent has not been received. */
  ghost predicate Removable(t: Tables, g: Trail, gen: Genesis, h: Id) {
    && h in t.blocks && h in g.past && h != gen.hash && g.past[h].height > 0
    && t.blocks[h].successor == 0
    && (g.Sends(t.blocks[h].block) ==> h !in g.taken)
  }

  function Forgotten(t: Tables, g: Trail, h: Id): Trail
    requires h in t.blocks
  {
    Trail(g.past - {h}, g.taken - {g.Source(t.blocks[h].block)}, g.clock)
  }

  function UnlinkedBlocks(blocks: map<Id, Entry>, h: Id): map<Id, Entry>
    requires h in blocks
  {
    var prev := blocks[h].block.Previous();
    (if prev in blocks then blocks[prev := Entry(blocks[prev].block, 0)] else blocks) - {h}
  }

  function DroppedPending(t: Tables, g: Trail, h: Id): map<PendingKey, PendingInfo>
    requires h in t.blocks && h in g.past
  {
    var b := t.blocks[h].block;
    var source := g.Source(b);
    if g.Sends(b) then t.pending - {PendingKey(Destination(b), h)}
    else if source != 0 && source in t.blocks && source in g.past && g.Sends(t.blocks[source].block) then
      t.pending[PendingKey(g.past[h].account, source) := PendingInfo(g.past[source].account, g.Sent(t.blocks[source].block))]
    else t.pending
  }

  function DroppedInfos(t: Tables, g: Trail, h: Id): map<Id, BlockInfo>
    requires h in t.blocks && h in g.past
  {
    var b, p := t.blocks[h].block, g.past[h];
    var prev := b.Previous();
    var kept := if prev != 0 && (p.height - 1) % BLOCK_INFO_MAX == 0
                then t.infos[prev := BlockInfo(p.account, g.BalanceAt(prev))] else t.infos;
    if !b.State? && p.height % BLOCK_INFO_MAX == 0 then kept - {h} else kept
  }

  function Dropped(t: Tables, g: Trail, h: Id): Tables
    requires h in t.blocks && h in g.past && g.past[h].height > 0
  {
    var b, p := t.blocks[h].block, g.past[h];
    var prev := b.Previous();
    Tables(
      UnlinkedBlocks(t.blocks, h),
      if prev == 0 then t.accounts - {p.account}
      else t.accounts[p.account := AccountInfo(prev, g.RepAt(prev), p.openBlock, g.BalanceAt(prev), p.height - 1)],
      DroppedPending(t, g, h),
      if prev in t.blocks && !t.blocks[prev].block.State? then (t.frontiers - {h})[prev := p.account] else t.frontiers - {h},
      DroppedInfos(t, g, h))
  }

  /** Some blocks are gone, none of them earlier than `time`; what is left is as it was. */
  ghost predicate Shrunk(g: Trail, g': Trail, time: nat) {
    && g'.clock == g.clock
    && g'.past.Keys <= g.past.Keys
    && (forall x | x in g'.past :: g'.past[x] == g.past[x])
    && (forall x | x in g.past && g.past[x].time < time :: x in g'.past)
  }

  lemma ShrunkTwice(g: Trail, g1: Trail, g2: Trail, first: nat, second: nat, time: nat)
    requires Shrunk(g, g1, first) && Shrunk(g1, g2, second) && time <= first && time <= second
    ensures Shrunk(g, g2, time)
  {
  }

  /** `h` is the one block more, and it is later than all others. */
  ghost predicate Newest(g: Trail, g': Trail, h: Id) {
    && h !in g.past && g'.past.Keys == g.past.Keys + {h}
    && forall x | x in g.past :: g.past[x].time < g'.past[h].time && g'.past[x] == g.past[x]
  }

  lemma RecordedIsNewest(t: Tables, g: Trail, gen: Genesis, h: Id, b: Block)
    requires History(t, g, gen) && h !in t.blocks
    ensures Newest(g, Recorded(t, g, h, b), h)
  {
    forall x | x in g.past ensures g.past[x].time < g.clock {
      assert Chained(t, g, x);
    }
  }

  lemma OnlyNewestIsGone(g: Trail, g1: Trail, g2: Trail, h: Id)
    requires Newest(g, g1, h) && Shrunk(g1, g2, g1.past[h].time) && h !in g2.past
    ensures g2.past.Keys == g.past.Keys
  {
    forall x | x in g.past ensures x in g2.past {
      assert x in g1.past && g1.past[x].time < g1.past[h].time;
    }
  }

  /** The block just added can be taken away again. */
  lemma AddedIsRemovable(t: Tables, g: Trail, gen: Genesis, h: Id, b: Block)
    requires History(t, g, gen) && PendingMatch(t, g) && Acceptable(t, g, h, b) && h != 0 && h != gen.hash
    ensures Removable(Added(t, g, h, b), Recorded(t, g, h, b), gen, h)
  {
    NewMeaning(t, g, gen, h, b);
    if g.Source(b) != 0 {
      SourceIsFresh(t, g, gen, h, b);
    }
    if h in g.taken {
      assert TakenRow(t, g, gen, h);
      assert Valued(t, g, gen, g.taken[h]);
    }
  }

  lemma NoNewChild(t: Tables, g: Trail, t': Tables, g': Trail, gen: Genesis, body: Id -> Block, h: Id, s: Id)
    requires Sound(t, g, gen, body) && Sound(t', g', gen, body) && g'.past.Keys <= g.past.Keys
    requires h in t.blocks && t.blocks[h].successor == 0 && s in t'.blocks
    ensures t'.blocks[s].block.Previous() != h
  {
    assert InfoRow(t, g, body, s) && InfoRow(t', g', body, s);
    assert Chained(t, g, s);
  }

  /** A head whose later blocks elsewhere were taken away is still a head with the same meaning. */
  lemma StillHead(t: Tables, g: Trail, t': Tables, g': Trail, gen: Genesis, body: Id -> Block, h: Id)
    requires Sound(t, g, gen, body) && Sound(t', g', gen, body)
    requires h in t.blocks && t.blocks[h].successor == 0 && Shrunk(g, g', g.past[h].time + 1)
    ensures h in t'.blocks && t'.blocks[h] == t.blocks[h] && g'.past[h] == g.past[h]
    ensures var prev := t.blocks[h].block.Previous();
            && g'.BalanceAt(prev) == g.BalanceAt(prev) && g'.RepAt(prev) == g.RepAt(prev)
            && g'.Sends(t.blocks[h].block) == g.Sends(t.blocks[h].block)
            && RepOfBlock(t', g.past[h].repBlock) == RepOfBlock(t, g.past[h].repBlock)
            && RepOfBlock(t', g.RepAt(prev)) == RepOfBlock(t, g.RepAt(prev))
  {
    assert Chained(t, g, h) && Chained(t', g', h);
    assert Represented(t, g, h) && Represented(t', g', h);
    assert InfoRow(t, g, body, h) && InfoRow(t', g', body, h);
    assert InfoRow(t, g, body, g.past[h].repBlock) && InfoRow(t', g', body, g.past[h].repBlock);
    var prev, s := t.blocks[h].block.Previous(), t'.blocks[h].successor;
    if s != 0 {
      NoNewChild(t, g, t', g', gen, body, h, s);
    }
    if prev != 0 {
      assert Represented(t, g, prev) && Represented(t', g', prev);
      assert InfoRow(t, g, body, g.RepAt(prev)) && InfoRow(t', g', body, g.RepAt(prev));
    }
  }

  /** The blocks that stay do not refer to the one that goes. */
  lemma StayingMeaning(t: Tables, g: Trail, gen: Genesis, h: Id, x: Id)
    requires History(t, g, gen) && Removable(t, g, gen, h) && x in t.blocks && x != h
    ensures var g' := Forgotten(t, g, h);
            var c := t.blocks[x].block;
            && c.Previous() != h && g.Source(c) != h
            && g'.BalanceAt(c.Previous()) == g.BalanceAt(c.Previous())
            && g'.RepAt(c.Previous()) == g.RepAt(c.Previous())
            && g'.OpenAt(c.Previous()) == g.OpenAt(c.Previous())
            && g'.HeightAt(c.Previous()) == g.HeightAt(c.Previous())
            && g'.Sends(c) == g.Sends(c)
            && g'.Source(c) == g.Source(c)
            && (c.Send? || c.State? ==> g'.Sent(c) == g.Sent(c))
  {
    assert Chained(t, g, x);
    assert Valued(t, g, gen, x);
  }

  lemma {:induction false} NotRepresentedByHead(t: Tables, g: Trail, gen: Genesis, h: Id, x: Id)
    requires History(t, g, gen) && Removable(t, g, gen, h) && x in t.blocks && x != h
    ensures g.past[x].repBlock != h
    decreases g.past[x].time
  {
    assert Chained(t, g, x);
    var prev := t.blocks[x].block.Previous();
    if prev != 0 && prev != h {
      NotRepresentedByHead(t, g, gen, h, prev);
    }
  }

  /** A chain whose head is its first block has no other block. */
  lemma {:induction false} OnlyBlockOfAccount(t: Tables, g: Trail, gen: Genesis, h: Id, x: Id)
    requires History(t, g, gen) && AccountsMatch(t, g)
    requires h in t.blocks && t.blocks[h].successor == 0 && t.blocks[h].block.Previous() == 0
    requires x in t.blocks && g.past[x].account == g.past[h].account
    ensures x == h
    decreases g.clock - g.past[x].time
  {
    assert Chained(t, g, x) && Listed(t, g, x) && Listed(t, g, h);
    var s := t.blocks[x].successor;
    if s != 0 {
      assert Chained(t, g, s);
      OnlyBlockOfAccount(t, g, gen, h, s);
    }
  }

  /** Nothing in an account is later than its head. */
  lemma {:induction false} HeadIsLatest(t: Tables, g: Trail, gen: Genesis, x: Id)
    requires History(t, g, gen) && AccountsMatch(t, g) && x in t.blocks
    ensures var a := g.past[x].account;
            && a in t.accounts && t.accounts[a].head in t.blocks && t.accounts[a].head in g.past
            && g.past[t.accounts[a].head].account == a && t.blocks[t.accounts[a].head].successor == 0
            && g.past[x].time <= g.past[t.accounts[a].head].time < g.clock
    decreases g.clock - g.past[x].time
  {
    assert Chained(t, g, x) && Listed(t, g, x);
    assert AccountRow(t, g, g.past[x].account);
    var s := t.blocks[x].successor;
    if s != 0 {
      assert Chained(t, g, s);
      HeadIsLatest(t, g, gen, s);
    }
  }

  /** A send that is not pending was received, and the receiving account's head is later than the send. */
  lemma ReceiverIsLater(t: Tables, g: Trail, gen: Genesis, h: Id)
    requires History(t, g, gen) && AccountsMatch(t, g) && PendingMatch(t, g) && h in t.blocks
    requires g.Sends(t.blocks[h].block)
    requires PendingKey(Destination(t.blocks[h].block), h) !in t.pending
    ensures var d := Destination(t.blocks[h].block);
            && d in t.accounts && t.accounts[d].head in t.blocks && t.accounts[d].head in g.past
            && g.past[h].time < g.past[t.accounts[d].head].time < g.clock
            && t.accounts[d].head != gen.hash
  {
    assert PendingRow(t, g, PendingKey(Destination(t.blocks[h].block), h));
    assert TakenRow(t, g, gen, h);
    assert Valued(t, g, gen, g.taken[h]);
    HeadIsLatest(t, g, gen, g.taken[h]);
    assert Valued(t, g, gen, gen.hash);
  }

  lemma DropKeepsChained(t: Tables, g: Trail, gen: Genesis, h: Id, x: Id)
    requires History(t, g, gen) && Removable(t, g, gen, h) && x in t.blocks && x != h
    ensures Chained(Dropped(t, g, h), Forgotten(t, g, h), x)
  {
    StayingMeaning(t, g, gen, h, x);
    assert Chained(t, g, h);
    assert Chained(t, g, x);
    var prev := t.blocks[h].block.Previous();
    if prev != 0 && t.blocks[x].successor == h {
      assert x == prev;
    }
  }

  lemma DropKeepsRepresented(t: Tables, g: Trail, gen: Genesis, h: Id, x: Id)
    requires History(t, g, gen) && Removable(t, g, gen, h) && x in t.blocks && x != h
    ensures Represented(Dropped(t, g, h), Forgotten(t, g, h), x)
  {
    NotRepresentedByHead(t, g, gen, h, x);
    assert Represented(t, g, x);
  }

  lemma DropKeepsValued(t: Tables, g: Trail, gen: Genesis, h: Id, x: Id)
    requires History(t, g, gen) && Removable(t, g, gen, h) && x in t.blocks && x != h
    ensures Valued(Dropped(t, g, h), Forgotten(t, g, h), gen, x)
  {
    StayingMeaning(t, g, gen, h, x);
    assert Valued(t, g, gen, x);
    assert Valued(t, g, gen, h);
    var source := g.Source(t.blocks[x].block);
    if source in t.blocks {
      StayingMeaning(t, g, gen, h, source);
    }
  }

  lemma DropKeepsTaken(t: Tables, g: Trail, gen: Genesis, h: Id, s: Id)
    requires History(t, g, gen) && Removable(t, g, gen, h)
    requires s in Forgotten(t, g, h).taken
    ensures TakenRow(Dropped(t, g, h), Forgotten(t, g, h), gen, s)
  {
    assert TakenRow(t, g, gen, s);
    StayingMeaning(t, g, gen, h, g.taken[s]);
  }

  lemma DropKeepsHistory(t: Tables, g: Trail, gen: Genesis, h: Id)
    requires History(t, g, gen) && Removable(t, g, gen, h)
    ensures History(Dropped(t, g, h), Forgotten(t, g, h), gen)
  {
    var t', g' := Dropped(t, g, h), Forgotten(t, g, h);
    forall x | x in t'.blocks
      ensures Chained(t', g', x)
    {
      DropKeepsChained(t, g, gen, h, x);
    }
    forall x | x in t'.blocks
      ensures Represented(t', g', x)
    {
      DropKeepsRepresented(t, g, gen, h, x);
    }
    forall x | x in t'.blocks
      ensures Valued(t', g', gen, x)
    {
      DropKeepsValued(t, g, gen, h, x);
    }
    forall s | s in g'.taken
      ensures TakenRow(t', g', gen, s)
    {
      DropKeepsTaken(t, g, gen, h, s);
    }
  }

  lemma DropKeepsAccounts(t: Tables, g: Trail, gen: Genesis, h: Id)
    requires History(t, g, gen) && AccountsMatch(t, g) && Removable(t, g, gen, h)
    ensures AccountsMatch(Dropped(t, g, h), Forgotten(t, g, h))
  {
    var t', g' := Dropped(t, g, h), Forgotten(t, g, h);
    var own, prev := g.past[h].account, t.blocks[h].block.Previous();
    assert Listed(t, g, h) && Chained(t, g, h);
    forall a | a in t'.accounts
      ensures AccountRow(t', g', a)
    {
      if a != own {
        assert AccountRow(t, g, a);
      }
    }
    forall x | x in t'.blocks
      ensures Listed(t', g', x)
    {
      assert Listed(t, g, x);
      if g.past[x].account == own && prev == 0 {
        OnlyBlockOfAccount(t, g, gen, h, x);
      }
    }
  }

  lemma DropKeepsPending(t: Tables, g: Trail, gen: Genesis, h: Id, key: PendingKey)
    requires History(t, g, gen) && PendingMatch(t, g) && Removable(t, g, gen, h)
    ensures PendingRow(Dropped(t, g, h), Forgotten(t, g, h), key)
  {
    assert PendingRow(t, g, key);
    assert Valued(t, g, gen, h);
    if key.hash in t.blocks && key.hash != h {
      StayingMeaning(t, g, gen, h, key.hash);
    }
  }

  lemma DropKeepsFrontiers(t: Tables, g: Trail, gen: Genesis, h: Id, x: Id)
    requires History(t, g, gen) && FrontiersMatch(t, g) && Removable(t, g, gen, h)
    ensures FrontierRow(Dropped(t, g, h), Forgotten(t, g, h), x)
  {
    assert FrontierRow(t, g, x);
    assert Chained(t, g, h);
  }

  lemma DropKeepsInfos(t: Tables, g: Trail, gen: Genesis, body: Id -> Block, h: Id, x: Id)
    requires History(t, g, gen) && InfosMatch(t, g, body) && Removable(t, g, gen, h)
    ensures InfoRow(Dropped(t, g, h), Forgotten(t, g, h), body, x)
  {
    assert InfoRow(t, g, body, x);
    assert InfoRow(t, g, body, h);
    assert Chained(t, g, h);
    if x in t.blocks {
      assert Chained(t, g, x) && Valued(t, g, gen, x);
    }
  }

  lemma DropKeepsSound(t: Tables, g: Trail, gen: Genesis, body: Id -> Block, h: Id)
    requires Sound(t, g, gen, body) && Removable(t, g, gen, h)
    ensures Sound(Dropped(t, g, h), Forgotten(t, g, h), gen, body)
  {
    var t', g' := Dropped(t, g, h), Forgotten(t, g, h);
    DropKeepsHistory(t, g, gen, h);
    DropKeepsAccounts(t, g, gen, h);
    forall key: PendingKey ensures PendingRow(t', g', key) {
      DropKeepsPending(t, g, gen, h, key);
    }
    forall x: Id ensures FrontierRow(t', g', x) {
      DropKeepsFrontiers(t, g, gen, h, x);
    }
    forall x: Id ensures InfoRow(t', g', body, x) {
      DropKeepsInfos(t, g, gen, body, h, x);
    }
  }

  // ---------------------------------------------------------------------------------------------
  // Supply and weights
  // ---------------------------------------------------------------------------------------------

  lemma PendingAfterDrop(t: Tables, g: Trail, gen: Genesis, h: Id)
    requires History(t, g, gen) && PendingMatch(t, g) && Removable(t, g, gen, h)
    ensures Total(PendingAmounts(Dropped(t, g, h)))
         == Total(PendingAmounts(t)) + g.past[h].balance - g.BalanceAt(t.blocks[h].block.Previous())
  {
    var b := t.blocks[h].block;
    var before, after := PendingAmounts(t), PendingAmounts(Dropped(t, g, h));
    assert Valued(t, g, gen, h);
    if g.Sends(b) {
      var key := PendingKey(Destination(b), h);
      assert PendingRow(t, g, key);
      TotalChange(before, after, key);
    } else if g.Source(b) != 0 {
      var key := PendingKey(g.past[h].account, g.Source(b));
      assert PendingRow(t, g, key);
      TotalChange(before, after, key);
    } else {
      assert after == before;
    }
  }

  lemma DropKeepsSupply(t: Tables, g: Trail, gen: Genesis, h: Id)
    requires History(t, g, gen) && AccountsMatch(t, g) && PendingMatch(t, g) && Removable(t, g, gen, h)
    ensures Supply(Dropped(t, g, h)) == Supply(t)
  {
    PendingAfterDrop(t, g, gen, h);
    var a := g.past[h].account;
    assert Listed(t, g, h) && AccountRow(t, g, a);
    TotalChange(Balances(t), Balances(Dropped(t, g, h)), a);
  }

  lemma OtherSharesStay(t: Tables, g: Trail, gen: Genesis, h: Id, r: Id, x: Id)
    requires History(t, g, gen) && AccountsMatch(t, g) && Removable(t, g, gen, h)
    requires x in t.accounts && x != g.past[h].account
    ensures x in Shares(Dropped(t, g, h), r) && Shares(Dropped(t, g, h), r)[x] == Shares(t, r)[x]
  {
    assert AccountRow(t, g, x);
    assert Represented(t, g, t.accounts[x].head);
    NotRepresentedByHead(t, g, gen, h, t.accounts[x].head);
  }

  lemma WeightDueAfterDrop(t: Tables, g: Trail, gen: Genesis, h: Id, r: Id)
    requires History(t, g, gen) && AccountsMatch(t, g) && Removable(t, g, gen, h)
    ensures WeightDue(Dropped(t, g, h), r)
         == WeightDue(t, r)
            - Portion(t, g.past[h].repBlock, g.past[h].balance, r)
            + Portion(t, g.RepAt(t.blocks[h].block.Previous()), g.BalanceAt(t.blocks[h].block.Previous()), r)
  {
    var t', a, prev := Dropped(t, g, h), g.past[h].account, t.blocks[h].block.Previous();
    forall x | x in Shares(t, r).Keys - {a}
      ensures At(Shares(t, r), x) == At(Shares(t', r), x)
    {
      OtherSharesStay(t, g, gen, h, r, x);
    }
    assert Listed(t, g, h) && AccountRow(t, g, a) && Chained(t, g, h);
    if prev != 0 {
      assert Represented(t, g, prev);
      NotRepresentedByHead(t, g, gen, h, prev);
    }
    TotalChange(Shares(t, r), Shares(t', r), a);
  }
}

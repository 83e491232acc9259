/** Adding a block at the head of its account's chain keeps every table right. */
module LedgerExtend {
  import opened LedgerTypes
  import opened LedgerInvariant
  import opened MapTotal

  /** Whose block it is: named by open and state blocks, inherited from the previous block otherwise. */
  function Owner(g: Trail, b: Block): Id {
    if b.Open? || b.State? then b.account
    else if b.previous in g.past then g.past[b.previous].account
    else 0
  }

  function KeyOf(g: Trail, b: Block): PendingKey {
    PendingKey(Owner(g, b), g.Source(b))
  }

  /** The block may follow: right position, funds it sends are there, what it receives is waiting for it. */
  ghost predicate Acceptable(t: Tables, g: Trail, h: Id, b: Block) {
    var a, prev, source := Owner(g, b), b.Previous(), g.Source(b);
    && h !in t.blocks
    && a != 0
    && (prev == 0 ==> (b.Open? || b.State?) && a !in t.accounts && source != 0)
    && (prev != 0 ==> prev in t.blocks && a in t.accounts && t.accounts[a].head == prev
                      && (t.blocks[prev].block.State? ==> b.State?))
    && (b.Send? ==> b.balance <= g.BalanceAt(prev))
    && (b.Receive? || b.Open? || source != 0 ==> KeyOf(g, b) in t.pending)
    && (b.State? && !g.Sends(b) ==>
          b.balance == g.BalanceAt(prev) + if source != 0 then t.pending[KeyOf(g, b)].amount else 0)
  }

  function NewBalance(t: Tables, g: Trail, b: Block): nat {
    if b.Send? || b.State? then b.balance
    else g.BalanceAt(b.Previous())
         + if g.Source(b) != 0 && KeyOf(g, b) in t.pending then t.pending[KeyOf(g, b)].amount else 0
  }

  function NewPast(t: Tables, g: Trail, h: Id, b: Block): Past {
    var prev := b.Previous();
    Past(Owner(g, b), NewBalance(t, g, b), if b.KeepsRepresentative() then g.RepAt(prev) else h,
         if prev == 0 then h else g.OpenAt(prev), g.HeightAt(prev) + 1, g.clock)
  }

  function Recorded(t: Tables, g: Trail, h: Id, b: Block): Trail {
    Trail(g.past[h := NewPast(t, g, h, b)],
          if g.Source(b) != 0 then g.taken[g.Source(b) := h] else g.taken,
          g.clock + 1)
  }

  function LinkedBlocks(blocks: map<Id, Entry>, h: Id, b: Block): map<Id, Entry> {
    var prev := b.Previous();
    (if prev in blocks then blocks[prev := Entry(blocks[prev].block, h)] else blocks)[h := Entry(b, 0)]
  }

  function Added(t: Tables, g: Trail, h: Id, b: Block): Tables {
    var p, prev := NewPast(t, g, h, b), b.Previous();
    Tables(
      LinkedBlocks(t.blocks, h, b),
      t.accounts[p.account := AccountInfo(h, p.repBlock, p.openBlock, p.balance, p.height)],
      if g.Sends(b) then t.pending[PendingKey(Destination(b), h) := PendingInfo(p.account, g.Sent(b))]
      else if g.Source(b) != 0 then t.pending - {KeyOf(g, b)}
      else t.pending,
      if b.State? then t.frontiers - {prev} else (t.frontiers - {prev})[h := p.account],
      if !b.State? && p.height % BLOCK_INFO_MAX == 0 then t.infos[h := BlockInfo(p.account, p.balance)] else t.infos)
  }

  /** The account's row as it should be right before block `b`. */
  predicate RowBefore(g: Trail, b: Block, a: Id, info: AccountInfo) {
    var prev := b.Previous();
    a == Owner(g, b) && info == AccountInfo(prev, g.RepAt(prev), g.OpenAt(prev), g.BalanceAt(prev), g.HeightAt(prev))
  }

  /** The tables with a block of one of the older kinds added, in terms of the account's row before. */
  function AddedToRow(t: Tables, h: Id, b: Block, a: Id, info: AccountInfo, repBlock: Id, openBlock: Id, balance: nat,
                      pending: map<PendingKey, PendingInfo>): Tables {
    Tables(
      LinkedBlocks(t.blocks, h, b),
      t.accounts[a := AccountInfo(h, repBlock, openBlock, balance, info.blockCount + 1)],
      pending,
      (t.frontiers - {b.Previous()})[h := a],
      if (info.blockCount + 1) % BLOCK_INFO_MAX == 0 then t.infos[h := BlockInfo(a, balance)] else t.infos)
  }

  lemma AddedSend(t: Tables, g: Trail, h: Id, b: Block, a: Id, info: AccountInfo)
    requires b.Send? && b.previous != 0 && RowBefore(g, b, a, info) && b.balance <= info.balance
    ensures Added(t, g, h, b) == AddedToRow(t, h, b, a, info, info.repBlock, info.openBlock, b.balance,
                                            t.pending[PendingKey(b.destination, h) := PendingInfo(a, info.balance - b.balance)])
  {
  }

  lemma AddedReceive(t: Tables, g: Trail, h: Id, b: Block, a: Id, info: AccountInfo)
    requires b.Receive? && b.previous != 0 && RowBefore(g, b, a, info) && b.source != 0 && PendingKey(a, b.source) in t.pending
    ensures Added(t, g, h, b) == AddedToRow(t, h, b, a, info, info.repBlock, info.openBlock,
                                            info.balance + t.pending[PendingKey(a, b.source)].amount,
                                            t.pending - {PendingKey(a, b.source)})
  {
  }

  lemma AddedOpen(t: Tables, g: Trail, h: Id, b: Block)
    requires b.Open? && b.source != 0 && PendingKey(b.account, b.source) in t.pending && 0 !in g.past
    ensures Added(t, g, h, b) == AddedToRow(t, h, b, b.account, AccountInfo(0, 0, 0, 0, 0), h, h,
                                            t.pending[PendingKey(b.account, b.source)].amount,
                                            t.pending - {PendingKey(b.account, b.source)})
  {
  }

  lemma AddedChange(t: Tables, g: Trail, h: Id, b: Block, a: Id, info: AccountInfo)
    requires b.Change? && b.previous != 0 && RowBefore(g, b, a, info)
    ensures Added(t, g, h, b) == AddedToRow(t, h, b, a, info, h, info.openBlock, info.balance, t.pending)
  {
  }

  lemma AddedState(t: Tables, g: Trail, h: Id, b: Block, info: AccountInfo)
    requires b.State? && RowBefore(g, b, b.account, info)
    ensures Added(t, g, h, b) == Tables(
              LinkedBlocks(t.blocks, h, b),
              t.accounts[b.account := AccountInfo(h, h, if b.previous == 0 then h else info.openBlock, b.balance, info.blockCount + 1)],
              if b.balance < info.balance then t.pending[PendingKey(b.link, h) := PendingInfo(b.account, info.balance - b.balance)]
              else if b.link != 0 then t.pending - {PendingKey(b.account, b.link)}
              else t.pending,
              t.frontiers - {b.previous},
              t.infos)
  {
  }

  /** Balances, senders and sources of the blocks already there do not change meaning. */
  lemma OldMeaning(t: Tables, g: Trail, gen: Genesis, h: Id, b: Block, x: Id)
    requires History(t, g, gen) && h !in t.blocks && h != 0 && x in t.blocks
    ensures var g' := Recorded(t, g, h, b);
            var c := t.blocks[x].block;
            && c.Previous() != h
            && g'.BalanceAt(c.Previous()) == g.BalanceAt(c.Previous())
            && g'.RepAt(c.Previous()) == g.RepAt(c.Previous())
            && g'.OpenAt(c.Previous()) == g.OpenAt(c.Previous())
            && g'.HeightAt(c.Previous()) == g.HeightAt(c.Previous())
            && g'.Sends(c) == g.Sends(c)
            && g'.Source(c) == g.Source(c)
            && (c.Send? || c.State? ==> g'.Sent(c) == g.Sent(c))
  {
    assert Chained(t, g, x);
  }

  lemma NewMeaning(t: Tables, g: Trail, gen: Genesis, h: Id, b: Block)
    requires History(t, g, gen) && Acceptable(t, g, h, b) && h != 0
    ensures var g' := Recorded(t, g, h, b);
            && b.Previous() != h
            && g'.BalanceAt(b.Previous()) == g.BalanceAt(b.Previous())
            && g'.Sends(b) == g.Sends(b)
            && g'.Source(b) == g.Source(b)
            && (b.Send? || b.State? ==> g'.Sent(b) == g.Sent(b))
  {
  }

  lemma AddKeepsOldChained(t: Tables, g: Trail, gen: Genesis, h: Id, b: Block, x: Id)
    requires History(t, g, gen) && AccountsMatch(t, g) && Acceptable(t, g, h, b) && h != 0
    requires x in t.blocks
    ensures Chained(Added(t, g, h, b), Recorded(t, g, h, b), x)
  {
    var prev := b.Previous();
    OldMeaning(t, g, gen, h, b, x);
    assert Chained(t, g, x);
    if prev != 0 {
      assert AccountRow(t, g, Owner(g, b));
      assert t.blocks[x].block.Previous() != prev;
    }
  }

  lemma AddKeepsNewChained(t: Tables, g: Trail, gen: Genesis, h: Id, b: Block)
    requires History(t, g, gen) && AccountsMatch(t, g) && Acceptable(t, g, h, b) && h != 0
    ensures Chained(Added(t, g, h, b), Recorded(t, g, h, b), h)
  {
    var prev := b.Previous();
    NewMeaning(t, g, gen, h, b);
    if prev != 0 {
      assert AccountRow(t, g, Owner(g, b));
      assert Chained(t, g, prev);
    }
  }

  lemma AddKeepsRepresented(t: Tables, g: Trail, gen: Genesis, h: Id, b: Block, x: Id)
    requires History(t, g, gen) && AccountsMatch(t, g) && Acceptable(t, g, h, b) && h != 0
    requires x in t.blocks || x == h
    ensures Represented(Added(t, g, h, b), Recorded(t, g, h, b), x)
  {
    if x != h {
      assert Represented(t, g, x);
    } else if b.KeepsRepresentative() {
      assert AccountRow(t, g, Owner(g, b));
      assert Represented(t, g, b.Previous());
      assert Chained(t, g, b.Previous());
    }
  }

  /** What the new block receives has not been received before. */
  lemma SourceIsFresh(t: Tables, g: Trail, gen: Genesis, h: Id, b: Block)
    requires History(t, g, gen) && PendingMatch(t, g) && Acceptable(t, g, h, b)
    requires g.Source(b) != 0
    ensures var s := g.Source(b);
            && Unreceived(t, g, KeyOf(g, b))
            && t.pending[KeyOf(g, b)] == PendingInfo(g.past[s].account, g.Sent(t.blocks[s].block))
            && s != gen.account && s != h && g.past[s].time < g.clock
  {
    assert PendingRow(t, g, KeyOf(g, b));
    assert Chained(t, g, g.Source(b));
  }

  /** Being valued only depends on the block, its source, and what the history says of both. */
  lemma ValuedCarries(t: Tables, g: Trail, t': Tables, g': Trail, gen: Genesis, x: Id)
    requires x in t.blocks && x in g.past && Valued(t, g, gen, x)
    requires x in t'.blocks && x in g'.past && t'.blocks[x].block == t.blocks[x].block && g'.past[x] == g.past[x]
    requires var c := t.blocks[x].block;
             g'.BalanceAt(c.Previous()) == g.BalanceAt(c.Previous()) && g'.Sends(c) == g.Sends(c) && g'.Source(c) == g.Source(c)
    requires var s := g.Source(t.blocks[x].block); x != gen.hash && s in g.taken && s in t.blocks && s in g.past ==>
               && s in g'.taken && g'.taken[s] == g.taken[s]
               && s in t'.blocks && s in g'.past && t'.blocks[s].block == t.blocks[s].block && g'.past[s] == g.past[s]
               && g'.Sends(t.blocks[s].block) == g.Sends(t.blocks[s].block)
               && (t.blocks[s].block.Send? || t.blocks[s].block.State? ==> g'.Sent(t.blocks[s].block) == g.Sent(t.blocks[s].block))
    ensures Valued(t', g', gen, x)
  {
  }

  lemma AddKeepsOldValued(t: Tables, g: Trail, gen: Genesis, h: Id, b: Block, x: Id)
    requires History(t, g, gen) && PendingMatch(t, g) && Acceptable(t, g, h, b) && h != 0
    requires x in t.blocks
    ensures Valued(Added(t, g, h, b), Recorded(t, g, h, b), gen, x)
  {
    OldMeaning(t, g, gen, h, b, x);
    assert Valued(t, g, gen, x);
    var source := g.Source(t.blocks[x].block);
    if g.Source(b) != 0 {
      SourceIsFresh(t, g, gen, h, b);
    }
    if source in t.blocks {
      OldMeaning(t, g, gen, h, b, source);
    }
    ValuedCarries(t, g, Added(t, g, h, b), Recorded(t, g, h, b), gen, x);
  }

  lemma AddKeepsNewValued(t: Tables, g: Trail, gen: Genesis, h: Id, b: Block)
    requires History(t, g, gen) && AccountsMatch(t, g) && PendingMatch(t, g) && Acceptable(t, g, h, b) && h != 0
    requires NewBalance(t, g, b) < AMOUNT_LIMIT
    ensures Valued(Added(t, g, h, b), Recorded(t, g, h, b), gen, h)
  {
    NewMeaning(t, g, gen, h, b);
    assert Chained(t, g, gen.hash);
    assert PendingRow(t, g, KeyOf(g, b));
    var source := g.Source(b);
    if source != 0 {
      SourceIsFresh(t, g, gen, h, b);
      OldMeaning(t, g, gen, h, b, source);
    }
  }

  lemma AddKeepsTaken(t: Tables, g: Trail, gen: Genesis, h: Id, b: Block, s: Id)
    requires History(t, g, gen) && PendingMatch(t, g) && Acceptable(t, g, h, b) && h != 0
    requires s in Recorded(t, g, h, b).taken
    ensures TakenRow(Added(t, g, h, b), Recorded(t, g, h, b), gen, s)
  {
    NewMeaning(t, g, gen, h, b);
    if g.Source(b) == 0 || s != g.Source(b) {
      assert TakenRow(t, g, gen, s);
      OldMeaning(t, g, gen, h, b, g.taken[s]);
    }
  }

  lemma AddKeepsAllChained(t: Tables, g: Trail, gen: Genesis, h: Id, b: Block)
    requires History(t, g, gen) && AccountsMatch(t, g) && Acceptable(t, g, h, b) && h != 0
    ensures var t', g' := Added(t, g, h, b), Recorded(t, g, h, b);
            forall x {:trigger Chained(t', g', x)} | x in t'.blocks :: Chained(t', g', x)
  {
    var t', g' := Added(t, g, h, b), Recorded(t, g, h, b);
    forall x | x in t'.blocks
      ensures Chained(t', g', x)
    {
      if x == h {
        AddKeepsNewChained(t, g, gen, h, b);
      } else {
        AddKeepsOldChained(t, g, gen, h, b, x);
      }
    }
  }

  lemma AddKeepsAllValued(t: Tables, g: Trail, gen: Genesis, h: Id, b: Block)
    requires History(t, g, gen) && AccountsMatch(t, g) && PendingMatch(t, g) && Acceptable(t, g, h, b)
    requires h != 0 && NewBalance(t, g, b) < AMOUNT_LIMIT
    ensures var t', g' := Added(t, g, h, b), Recorded(t, g, h, b);
            forall x {:trigger Valued(t', g', gen, x)} | x in t'.blocks :: Valued(t', g', gen, x)
  {
    var t', g' := Added(t, g, h, b), Recorded(t, g, h, b);
    forall x | x in t'.blocks
      ensures Valued(t', g', gen, x)
    {
      if x == h {
        AddKeepsNewValued(t, g, gen, h, b);
      } else {
        AddKeepsOldValued(t, g, gen, h, b, x);
      }
    }
  }

  lemma AddKeepsHistory(t: Tables, g: Trail, gen: Genesis, h: Id, b: Block)
    requires History(t, g, gen) && AccountsMatch(t, g) && PendingMatch(t, g) && Acceptable(t, g, h, b)
    requires !Reserved(gen, h) && NewBalance(t, g, b) < AMOUNT_LIMIT
    ensures History(Added(t, g, h, b), Recorded(t, g, h, b), gen)
  {
    var t', g' := Added(t, g, h, b), Recorded(t, g, h, b);
    AddKeepsAllChained(t, g, gen, h, b);
    AddKeepsAllValued(t, g, gen, h, b);
    forall x | x in t'.blocks
      ensures Represented(t', g', x)
    {
      AddKeepsRepresented(t, g, gen, h, b, x);
    }
    forall s | s in g'.taken
      ensures TakenRow(t', g', gen, s)
    {
      AddKeepsTaken(t, g, gen, h, b, s);
    }
  }

  lemma AddKeepsAccounts(t: Tables, g: Trail, gen: Genesis, h: Id, b: Block)
    requires History(t, g, gen) && AccountsMatch(t, g) && Acceptable(t, g, h, b) && h != 0
    ensures AccountsMatch(Added(t, g, h, b), Recorded(t, g, h, b))
  {
    var t', g' := Added(t, g, h, b), Recorded(t, g, h, b);
    var own, prev := Owner(g, b), b.Previous();
    if prev != 0 {
      assert AccountRow(t, g, own);
    }
    forall a | a in t'.accounts
      ensures AccountRow(t', g', a)
    {
      if a != own {
        assert AccountRow(t, g, a);
      }
    }
    forall x | x in t'.blocks
      ensures Listed(t', g', x)
    {
      if x != h {
        assert Listed(t, g, x);
      }
    }
  }

  /** The entry under which the new block's own send becomes pending. */
  lemma AddKeepsNewPending(t: Tables, g: Trail, gen: Genesis, h: Id, b: Block, key: PendingKey)
    requires History(t, g, gen) && PendingMatch(t, g) && Acceptable(t, g, h, b) && h != 0 && key.hash == h
    ensures PendingRow(Added(t, g, h, b), Recorded(t, g, h, b), key)
  {
    NewMeaning(t, g, gen, h, b);
    assert PendingRow(t, g, key);
    if g.Source(b) != 0 {
      SourceIsFresh(t, g, gen, h, b);
    }
    if h in g.taken {
      assert TakenRow(t, g, gen, h);
      assert Valued(t, g, gen, g.taken[h]);
    }
  }

  /** How the pending table looks under another block's hash. */
  lemma OldPendingEntry(t: Tables, g: Trail, h: Id, b: Block, key: PendingKey)
    requires key.hash != h
    ensures var p := Added(t, g, h, b).pending;
            && (key in p <==> key in t.pending && !(g.Source(b) != 0 && key == KeyOf(g, b)))
            && (key in p ==> p[key] == t.pending[key])
  {
  }

  /** Whether the send of another block is unreceived. */
  lemma OldUnreceived(t: Tables, g: Trail, gen: Genesis, h: Id, b: Block, key: PendingKey)
    requires History(t, g, gen) && h !in t.blocks && h != 0 && key.hash != h
    ensures Unreceived(Added(t, g, h, b), Recorded(t, g, h, b), key) <==>
            Unreceived(t, g, key) && !(g.Source(b) != 0 && key.hash == g.Source(b))
  {
    if key.hash in t.blocks {
      OldMeaning(t, g, gen, h, b, key.hash);
    }
  }

  /** Entries of other blocks stay, but for what the new block receives. */
  lemma AddKeepsOldPending(t: Tables, g: Trail, gen: Genesis, h: Id, b: Block, key: PendingKey)
    requires History(t, g, gen) && PendingMatch(t, g) && Acceptable(t, g, h, b) && h != 0 && key.hash != h
    ensures PendingRow(Added(t, g, h, b), Recorded(t, g, h, b), key)
  {
    assert PendingRow(t, g, key);
    OldPendingEntry(t, g, h, b, key);
    OldUnreceived(t, g, gen, h, b, key);
    if g.Source(b) != 0 {
      SourceIsFresh(t, g, gen, h, b);
    }
    if key in t.pending {
      OldMeaning(t, g, gen, h, b, key.hash);
    }
  }

  lemma AddKeepsPending(t: Tables, g: Trail, gen: Genesis, h: Id, b: Block, key: PendingKey)
    requires History(t, g, gen) && PendingMatch(t, g) && Acceptable(t, g, h, b) && h != 0
    ensures PendingRow(Added(t, g, h, b), Recorded(t, g, h, b), key)
  {
    if key.hash == h {
      AddKeepsNewPending(t, g, gen, h, b, key);
    } else {
      AddKeepsOldPending(t, g, gen, h, b, key);
    }
  }

  lemma AddKeepsFrontiers(t: Tables, g: Trail, gen: Genesis, h: Id, b: Block, x: Id)
    requires History(t, g, gen) && AccountsMatch(t, g) && FrontiersMatch(t, g) && Acceptable(t, g, h, b) && h != 0
    ensures FrontierRow(Added(t, g, h, b), Recorded(t, g, h, b), x)
  {
    assert FrontierRow(t, g, x);
    if b.Previous() != 0 {
      assert AccountRow(t, g, Owner(g, b));
    }
  }

  lemma AddKeepsInfos(t: Tables, g: Trail, body: Id -> Block, h: Id, b: Block, x: Id)
    requires t.blocks.Keys == g.past.Keys && InfosMatch(t, g, body) && h !in t.blocks && h != 1 && body(h) == b
    ensures InfoRow(Added(t, g, h, b), Recorded(t, g, h, b), body, x)
  {
    assert InfoRow(t, g, body, x);
  }

  lemma AddKeepsSound(t: Tables, g: Trail, gen: Genesis, body: Id -> Block, h: Id, b: Block)
    requires Sound(t, g, gen, body) && Acceptable(t, g, h, b)
    requires !Reserved(gen, h) && NewBalance(t, g, b) < AMOUNT_LIMIT && body(h) == b
    ensures Sound(Added(t, g, h, b), Recorded(t, g, h, b), gen, body)
  {
    var t', g' := Added(t, g, h, b), Recorded(t, g, h, b);
    AddKeepsHistory(t, g, gen, h, b);
    AddKeepsAccounts(t, g, gen, h, b);
    forall key: PendingKey ensures PendingRow(t', g', key) {
      AddKeepsPending(t, g, gen, h, b, key);
    }
    forall x: Id ensures FrontierRow(t', g', x) && InfoRow(t', g', body, x) {
      AddKeepsFrontiers(t, g, gen, h, b, x);
      AddKeepsInfos(t, g, body, h, b, x);
    }
  }

  // ---------------------------------------------------------------------------------------------
  // Supply and weights
  // ---------------------------------------------------------------------------------------------

  /** The account row the block builds on carries the balance before it; a new account counts as 0. */
  lemma BalanceBefore(t: Tables, g: Trail, gen: Genesis, h: Id, b: Block)
    requires History(t, g, gen) && AccountsMatch(t, g) && Acceptable(t, g, h, b)
    ensures At(Balances(t), Owner(g, b)) == g.BalanceAt(b.Previous())
  {
    if b.Previous() != 0 {
      assert AccountRow(t, g, Owner(g, b));
    }
  }

  lemma PendingAfterAdd(t: Tables, g: Trail, gen: Genesis, h: Id, b: Block)
    requires History(t, g, gen) && PendingMatch(t, g) && Acceptable(t, g, h, b)
    ensures Total(PendingAmounts(Added(t, g, h, b)))
         == Total(PendingAmounts(t)) + g.BalanceAt(b.Previous()) - NewBalance(t, g, b)
  {
    var before, after := PendingAmounts(t), PendingAmounts(Added(t, g, h, b));
    if g.Sends(b) {
      var key := PendingKey(Destination(b), h);
      assert PendingRow(t, g, key);
      TotalChange(before, after, key);
    } else if g.Source(b) != 0 {
      TotalChange(before, after, KeyOf(g, b));
    } else {
      assert after == before;
      assert b.Receive? ==> PendingRow(t, g, KeyOf(g, b));
    }
  }

  /** Sending moves value into the pending table and receiving takes it out: nothing is created or lost. */
  lemma AddKeepsSupply(t: Tables, g: Trail, gen: Genesis, h: Id, b: Block)
    requires History(t, g, gen) && AccountsMatch(t, g) && PendingMatch(t, g) && Acceptable(t, g, h, b)
    ensures Supply(Added(t, g, h, b)) == Supply(t)
  {
    PendingAfterAdd(t, g, gen, h, b);
    BalanceBefore(t, g, gen, h, b);
    TotalChange(Balances(t), Balances(Added(t, g, h, b)), Owner(g, b));
  }

  /** What a chain ending with balance `balance` and representative block `repBlock` adds to `r`'s weight. */
  function Portion(t: Tables, repBlock: Id, balance: nat, r: Id): nat {
    if RepOfBlock(t, repBlock) == r then balance else 0
  }

  /** Only the share of the block's own account changes. */
  lemma OtherSharesStay(t: Tables, g: Trail, gen: Genesis, h: Id, b: Block, r: Id, x: Id)
    requires History(t, g, gen) && AccountsMatch(t, g) && h !in t.blocks
    requires x in t.accounts && x != Owner(g, b)
    ensures Shares(Added(t, g, h, b), r)[x] == Shares(t, r)[x]
  {
    assert AccountRow(t, g, x);
    assert Represented(t, g, t.accounts[x].head);
  }

  lemma WeightDueAfterAdd(t: Tables, g: Trail, gen: Genesis, h: Id, b: Block, r: Id)
    requires History(t, g, gen) && AccountsMatch(t, g) && Acceptable(t, g, h, b) && h != 0
    ensures WeightDue(Added(t, g, h, b), r)
         == WeightDue(t, r)
            - Portion(t, g.RepAt(b.Previous()), g.BalanceAt(b.Previous()), r)
            + Portion(Added(t, g, h, b), NewPast(t, g, h, b).repBlock, NewBalance(t, g, b), r)
  {
    var t', a := Added(t, g, h, b), Owner(g, b);
    forall x | x in Shares(t, r).Keys - {a}
      ensures At(Shares(t, r), x) == At(Shares(t', r), x)
    {
      OtherSharesStay(t, g, gen, h, b, r, x);
    }
    TotalChange(Shares(t, r), Shares(t', r), a);
    if b.Previous() != 0 {
      assert AccountRow(t, g, a);
    }
  }

  /** The block of an earlier representative is found unchanged after the addition. */
  lemma RepOfOldBlock(t: Tables, g: Trail, gen: Genesis, h: Id, b: Block, x: Id)
    requires History(t, g, gen) && h !in t.blocks && x in t.blocks
    ensures RepOfBlock(Added(t, g, h, b), g.RepAt(x)) == RepOfBlock(t, g.RepAt(x))
  {
    assert Represented(t, g, x);
  }
}

/**
 The representation table: 128-bit sums that blocks change one representative at a time.  A change can pass
 through a value that does not fit; the sum that remains when a block is in, or out again, is exact.
 */
module LedgerWeights {
  import opened LedgerTypes
  import opened LedgerInvariant
  import opened LedgerExtend
  import opened LedgerRemove
  import opened MapTotal

  /** The stored weights moved with the block's account. */
  ghost predicate WeightsFollowAdd(t: Tables, g: Trail, w: map<Id, nat>, t': Tables, w': map<Id, nat>, h: Id, b: Block) {
    forall r: Id {:trigger WeightIn(w', r)} :: WeightIn(w', r) == WeightFollows(t, g, WeightIn(w, r), t', h, b, r)
  }

  ghost function WeightFollows(t: Tables, g: Trail, before: nat, t': Tables, h: Id, b: Block, r: Id): nat {
    Wrap(before
         - Portion(t, g.RepAt(b.Previous()), g.BalanceAt(b.Previous()), r)
         + Portion(t', NewPast(t, g, h, b).repBlock, NewBalance(t, g, b), r))
  }

  lemma NewBalanceFits(t: Tables, g: Trail, gen: Genesis, body: Id -> Block, h: Id, b: Block)
    requires Sound(t, g, gen, body) && Supply(t) == GENESIS_AMOUNT && Acceptable(t, g, h, b)
    ensures NewBalance(t, g, b) < AMOUNT_LIMIT
  {
    var a := Owner(g, b);
    if b.Previous() != 0 {
      assert AccountRow(t, g, a);
      BalanceIsBounded(t, a);
    }
    if g.Source(b) != 0 {
      if a in t.accounts {
        ReceivedFits(t, a, KeyOf(g, b));
      } else {
        TotalAtLeast(PendingAmounts(t), KeyOf(g, b));
        TotalMonotone(Balances(t), Balances(t));
      }
    }
  }

  lemma WeightAfterAddAt(t: Tables, g: Trail, gen: Genesis, before: nat, after: nat, h: Id, b: Block, r: Id)
    requires History(t, g, gen) && AccountsMatch(t, g) && Acceptable(t, g, h, b) && h != 0
    requires before == Wrap(WeightDue(t, r))
    requires after == WeightFollows(t, g, before, Added(t, g, h, b), h, b, r)
    ensures after == Wrap(WeightDue(Added(t, g, h, b), r))
  {
    WeightDueAfterAdd(t, g, gen, h, b, r);
    WrapAdd(WeightDue(t, r), WeightDue(Added(t, g, h, b), r) - WeightDue(t, r));
  }

  lemma WeightsAfterAdd(t: Tables, g: Trail, gen: Genesis, w: map<Id, nat>, w': map<Id, nat>, h: Id, b: Block)
    requires History(t, g, gen) && AccountsMatch(t, g) && Acceptable(t, g, h, b) && h != 0
    requires Weighs(t, w, NoSkew()) && WeightsFollowAdd(t, g, w, Added(t, g, h, b), w', h, b)
    ensures Weighs(Added(t, g, h, b), w', NoSkew())
  {
    forall r: Id
      ensures WeightIn(w', r) == Wrap(WeightDue(Added(t, g, h, b), r))
    {
      assert WeightIn(w, r) == Wrap(WeightDue(t, r) + NoSkew()(r));
      WeightAfterAddAt(t, g, gen, WeightIn(w, r), WeightIn(w', r), h, b, r);
    }
  }

  /** One representative's weight changed by `d`. */
  ghost predicate Bumped(w: map<Id, nat>, w': map<Id, nat>, rep: Id, d: int) {
    forall r: Id {:trigger WeightIn(w', r)} :: WeightIn(w', r) == if r == rep then Wrap(WeightIn(w, r) + d) else WeightIn(w, r)
  }

  /** Every stored weight is a 128-bit number. */
  ghost predicate Small(w: map<Id, nat>) {
    forall r: Id :: WeightIn(w, r) < AMOUNT_LIMIT
  }

  lemma OneBumpFollowsAdd(t: Tables, g: Trail, gen: Genesis, w: map<Id, nat>, w': map<Id, nat>,
                          h: Id, b: Block, rep: Id, d: int)
    requires History(t, g, gen) && h !in t.blocks && Small(w)
    requires b.KeepsRepresentative() && b.previous in t.blocks
    requires rep == RepOfBlock(t, g.RepAt(b.previous)) && d == NewBalance(t, g, b) - g.BalanceAt(b.previous)
    requires Bumped(w, w', rep, d)
    ensures WeightsFollowAdd(t, g, w, Added(t, g, h, b), w', h, b)
  {
    RepOfOldBlock(t, g, gen, h, b, b.previous);
    forall r: Id
      ensures WeightIn(w', r) == WeightFollows(t, g, WeightIn(w, r), Added(t, g, h, b), h, b, r)
    {
      if r != rep {
        WrapSmall(WeightIn(w, r));
      }
    }
  }

  /** Two changes, each of them optional, add up. */
  lemma TwoBumpsAt(x: nat, x1: nat, x2: nat, isFirst: bool, first: int, isSecond: bool, second: int)
    requires x < AMOUNT_LIMIT
    requires x1 == if isFirst then Wrap(x + first) else x
    requires x2 == if isSecond then Wrap(x1 + second) else x1
    ensures x2 == Wrap(x + (if isFirst then first else 0) + (if isSecond then second else 0))
  {
    WrapSmall(x);
    WrapAdd(x + first, second);
  }

  lemma GainThenLossAt(t: Tables, g: Trail, t': Tables, x: nat, x1: nat, x2: nat,
                       h: Id, b: Block, loser: Id, loss: int, gain: int, r: Id)
    requires x < AMOUNT_LIMIT && !b.KeepsRepresentative() && RepOfBlock(t', h) == b.Representative()
    requires loser == RepOfBlock(t, g.RepAt(b.Previous()))
    requires loss == 0 - g.BalanceAt(b.Previous()) && gain == NewBalance(t, g, b)
    requires x1 == if r == b.Representative() then Wrap(x + gain) else x
    requires x2 == if r == loser then Wrap(x1 + loss) else x1
    ensures x2 == WeightFollows(t, g, x, t', h, b, r)
  {
    TwoBumpsAt(x, x1, x2, r == b.Representative(), gain, r == loser, loss);
  }

  /** The new representative gains the balance after, then the old one loses the balance before. */
  lemma GainThenLoss(t: Tables, g: Trail, t': Tables, w: map<Id, nat>, w1: map<Id, nat>, w2: map<Id, nat>,
                     h: Id, b: Block, loser: Id, loss: int, gain: int)
    requires Small(w) && !b.KeepsRepresentative() && RepOfBlock(t', h) == b.Representative()
    requires loser == RepOfBlock(t, g.RepAt(b.Previous()))
    requires loss == 0 - g.BalanceAt(b.Previous()) && gain == NewBalance(t, g, b)
    requires Bumped(w, w1, b.Representative(), gain) && Bumped(w1, w2, loser, loss)
    ensures WeightsFollowAdd(t, g, w, t', w2, h, b)
  {
    forall r: Id
      ensures WeightIn(w2, r) == WeightFollows(t, g, WeightIn(w, r), t', h, b, r)
    {
      GainThenLossAt(t, g, t', WeightIn(w, r), WeightIn(w1, r), WeightIn(w2, r), h, b, loser, loss, gain, r);
    }
  }

  lemma LossThenGainAt(t: Tables, g: Trail, t': Tables, x: nat, x1: nat, x2: nat,
                       h: Id, b: Block, loser: Id, loss: int, gain: int, r: Id)
    requires x < AMOUNT_LIMIT && !b.KeepsRepresentative() && RepOfBlock(t', h) == b.Representative()
    requires loser == RepOfBlock(t, g.RepAt(b.Previous()))
    requires loss == 0 - g.BalanceAt(b.Previous()) && gain == NewBalance(t, g, b)
    requires x1 == if r == loser then Wrap(x + loss) else x
    requires x2 == if r == b.Representative() then Wrap(x1 + gain) else x1
    ensures x2 == WeightFollows(t, g, x, t', h, b, r)
  {
    TwoBumpsAt(x, x1, x2, r == loser, loss, r == b.Representative(), gain);
  }

  /** The old representative loses the balance before, then the new one gains the balance after. */
  lemma LossThenGain(t: Tables, g: Trail, t': Tables, w: map<Id, nat>, w1: map<Id, nat>, w2: map<Id, nat>,
                     h: Id, b: Block, loser: Id, loss: int, gain: int)
    requires Small(w) && !b.KeepsRepresentative() && RepOfBlock(t', h) == b.Representative()
    requires loser == RepOfBlock(t, g.RepAt(b.Previous()))
    requires loss == 0 - g.BalanceAt(b.Previous()) && gain == NewBalance(t, g, b)
    requires Bumped(w, w1, loser, loss) && Bumped(w1, w2, b.Representative(), gain)
    ensures WeightsFollowAdd(t, g, w, t', w2, h, b)
  {
    forall r: Id
      ensures WeightIn(w2, r) == WeightFollows(t, g, WeightIn(w, r), t', h, b, r)
    {
      LossThenGainAt(t, g, t', WeightIn(w, r), WeightIn(w1, r), WeightIn(w2, r), h, b, loser, loss, gain, r);
    }
  }

  lemma NoBump(w: map<Id, nat>, rep: Id)
    requires Small(w)
    ensures Bumped(w, w, rep, 0)
  {
    WrapSmall(WeightIn(w, rep));
  }

  lemma BumpedStaysSmall(w: map<Id, nat>, w': map<Id, nat>, rep: Id, d: int)
    requires Small(w) && Bumped(w, w', rep, d)
    ensures Small(w')
  {
  }

  /** Everything a ledger promises holds again after an accepted block. */
  lemma AddCompletes(t: Tables, g: Trail, w: map<Id, nat>, w': map<Id, nat>, gen: Genesis, body: Id -> Block, h: Id, b: Block)
    requires Sound(t, g, gen, body) && Supply(t) == GENESIS_AMOUNT && Weighs(t, w, NoSkew())
    requires Acceptable(t, g, h, b) && !Reserved(gen, h) && body(h) == b
    requires WeightsFollowAdd(t, g, w, Added(t, g, h, b), w', h, b)
    ensures var t' := Added(t, g, h, b);
            Sound(t', Recorded(t, g, h, b), gen, body) && Supply(t') == GENESIS_AMOUNT && Weighs(t', w', NoSkew())
  {
    NewBalanceFits(t, g, gen, body, h, b);
    AddKeepsSound(t, g, gen, body, h, b);
    AddKeepsSupply(t, g, gen, h, b);
    WeightsAfterAdd(t, g, gen, w, w', h, b);
  }

  // ---------------------------------------------------------------------------------------------
  // Taking a block away
  // ---------------------------------------------------------------------------------------------

  /** The weight after the head block `h` is taken out of the sum `before`. */
  ghost function WeightLeft(t: Tables, g: Trail, before: int, h: Id, r: Id): int
    requires h in t.blocks && h in g.past
  {
    var prev := t.blocks[h].block.Previous();
    before - Portion(t, g.past[h].repBlock, g.past[h].balance, r) + Portion(t, g.RepAt(prev), g.BalanceAt(prev), r)
  }

  ghost predicate WeightsFollowDrop(t: Tables, g: Trail, w: map<Id, nat>, w': map<Id, nat>, h: Id)
    requires h in t.blocks && h in g.past
  {
    forall r: Id {:trigger WeightIn(w', r)} :: WeightIn(w', r) == Wrap(WeightLeft(t, g, WeightIn(w, r), h, r))
  }

  lemma OneBumpFollowsDrop(t: Tables, g: Trail, w: map<Id, nat>, w': map<Id, nat>, h: Id, rep: Id, d: int)
    requires h in t.blocks && h in g.past && Small(w)
    requires g.RepAt(t.blocks[h].block.Previous()) == g.past[h].repBlock
    requires rep == RepOfBlock(t, g.past[h].repBlock)
    requires d == g.BalanceAt(t.blocks[h].block.Previous()) - g.past[h].balance
    requires Bumped(w, w', rep, d)
    ensures WeightsFollowDrop(t, g, w, w', h)
  {
    forall r: Id
      ensures WeightIn(w', r) == Wrap(WeightLeft(t, g, WeightIn(w, r), h, r))
    {
      if r != rep {
        WrapSmall(WeightIn(w, r));
      }
    }
  }

  /** Whose weight falls and whose rises, and by how much, when block `h` is taken away. */
  ghost predicate Taking(t: Tables, g: Trail, h: Id, loser: Id, loss: int, gainer: Id, gain: int)
    requires h in t.blocks && h in g.past
  {
    var prev := t.blocks[h].block.Previous();
    && loser == RepOfBlock(t, g.past[h].repBlock) && loss == 0 - g.past[h].balance
    && gainer == RepOfBlock(t, g.RepAt(prev)) && gain == g.BalanceAt(prev)
  }

  lemma TakeThenGiveAt(t: Tables, g: Trail, x: nat, x1: nat, x2: nat, h: Id,
                     loser: Id, loss: int, gainer: Id, gain: int, r: Id)
    requires h in t.blocks && h in g.past && x < AMOUNT_LIMIT
    requires Taking(t, g, h, loser, loss, gainer, gain)
    requires x1 == if r == loser then Wrap(x + loss) else x
    requires x2 == if r == gainer then Wrap(x1 + gain) else x1
    ensures x2 == Wrap(WeightLeft(t, g, x, h, r))
  {
    TwoBumpsAt(x, x1, x2, r == loser, loss, r == gainer, gain);
  }

  /** The block's representative loses first, then the one before gains. */
  lemma TakeThenGive(t: Tables, g: Trail, w: map<Id, nat>, w1: map<Id, nat>, w2: map<Id, nat>, h: Id,
                   loser: Id, loss: int, gainer: Id, gain: int)
    requires h in t.blocks && h in g.past && Small(w)
    requires Taking(t, g, h, loser, loss, gainer, gain)
    requires Bumped(w, w1, loser, loss) && Bumped(w1, w2, gainer, gain)
    ensures WeightsFollowDrop(t, g, w, w2, h)
  {
    forall r: Id
      ensures WeightIn(w2, r) == Wrap(WeightLeft(t, g, WeightIn(w, r), h, r))
    {
      TakeThenGiveAt(t, g, WeightIn(w, r), WeightIn(w1, r), WeightIn(w2, r), h, loser, loss, gainer, gain, r);
    }
  }

  lemma GiveThenTakeAt(t: Tables, g: Trail, x: nat, x1: nat, x2: nat, h: Id,
                     loser: Id, loss: int, gainer: Id, gain: int, r: Id)
    requires h in t.blocks && h in g.past && x < AMOUNT_LIMIT
    requires Taking(t, g, h, loser, loss, gainer, gain)
    requires x1 == if r == gainer then Wrap(x + gain) else x
    requires x2 == if r == loser then Wrap(x1 + loss) else x1
    ensures x2 == Wrap(WeightLeft(t, g, x, h, r))
  {
    TwoBumpsAt(x, x1, x2, r == gainer, gain, r == loser, loss);
  }

  /** The representative before gains first, then the block's loses. */
  lemma GiveThenTake(t: Tables, g: Trail, w: map<Id, nat>, w1: map<Id, nat>, w2: map<Id, nat>, h: Id,
                   loser: Id, loss: int, gainer: Id, gain: int)
    requires h in t.blocks && h in g.past && Small(w)
    requires Taking(t, g, h, loser, loss, gainer, gain)
    requires Bumped(w, w1, gainer, gain) && Bumped(w1, w2, loser, loss)
    ensures WeightsFollowDrop(t, g, w, w2, h)
  {
    forall r: Id
      ensures WeightIn(w2, r) == Wrap(WeightLeft(t, g, WeightIn(w, r), h, r))
    {
      GiveThenTakeAt(t, g, WeightIn(w, r), WeightIn(w1, r), WeightIn(w2, r), h, loser, loss, gainer, gain, r);
    }
  }

  lemma WeightAfterDropAt(t: Tables, g: Trail, gen: Genesis, before: nat, after: nat, h: Id, r: Id, skew: int)
    requires History(t, g, gen) && AccountsMatch(t, g) && Removable(t, g, gen, h)
    requires before == Wrap(WeightDue(t, r) + skew)
    requires after == Wrap(WeightLeft(t, g, before, h, r))
    ensures after == Wrap(WeightDue(Dropped(t, g, h), r) + skew)
  {
    WeightDueAfterDrop(t, g, gen, h, r);
    WrapAdd(WeightDue(t, r) + skew, WeightDue(Dropped(t, g, h), r) - WeightDue(t, r));
  }

  lemma WeightsAfterDrop(t: Tables, g: Trail, gen: Genesis, w: map<Id, nat>, w': map<Id, nat>, h: Id, skew: Id -> int)
    requires History(t, g, gen) && AccountsMatch(t, g) && Removable(t, g, gen, h)
    requires Weighs(t, w, skew) && WeightsFollowDrop(t, g, w, w', h)
    ensures Weighs(Dropped(t, g, h), w', skew)
  {
    forall r: Id
      ensures WeightIn(w', r) == Wrap(WeightDue(Dropped(t, g, h), r) + skew(r))
    {
      assert WeightIn(w, r) == Wrap(WeightDue(t, r) + skew(r));
      WeightAfterDropAt(t, g, gen, WeightIn(w, r), WeightIn(w', r), h, r, skew(r));
    }
  }

  /** Everything a ledger promises holds again after the head block is taken away. */
  lemma DropCompletes(t: Tables, g: Trail, w: map<Id, nat>, w': map<Id, nat>, gen: Genesis, body: Id -> Block, h: Id,
                      skew: Id -> int)
    requires Sound(t, g, gen, body) && Supply(t) == GENESIS_AMOUNT && Weighs(t, w, skew)
    requires Removable(t, g, gen, h) && WeightsFollowDrop(t, g, w, w', h)
    ensures var t' := Dropped(t, g, h);
            Sound(t', Forgotten(t, g, h), gen, body) && Supply(t') == GENESIS_AMOUNT && Weighs(t', w', skew)
  {
    DropKeepsSound(t, g, gen, body, h);
    DropKeepsSupply(t, g, gen, h);
    WeightsAfterDrop(t, g, gen, w, w', h, skew);
  }

  /** The skew while a state block's weights are already taken back and the block itself is still there. */
  ghost function SkewedBy(skew: Id -> int, loser: Id, loss: int, gainer: Id, gain: int): Id -> int {
    (r: Id) => skew(r) + (if r == loser then loss else 0) + (if r == gainer then gain else 0)
  }

  lemma SkewIsWhatIsLeft(t: Tables, g: Trail, h: Id, skew: Id -> int, loser: Id, loss: int, gainer: Id, gain: int,
                         due: int, r: Id)
    requires h in t.blocks && h in g.past && Taking(t, g, h, loser, loss, gainer, gain)
    ensures WeightLeft(t, g, due, h, r) + skew(r) == due + SkewedBy(skew, loser, loss, gainer, gain)(r)
  {
  }

  /** Taking the weights back early leaves them off by exactly that. */
  lemma EarlyWeights(t: Tables, g: Trail, w: map<Id, nat>, w': map<Id, nat>, h: Id, skew: Id -> int,
                     loser: Id, loss: int, gainer: Id, gain: int)
    requires h in t.blocks && h in g.past && Taking(t, g, h, loser, loss, gainer, gain)
    requires Weighs(t, w, skew) && WeightsFollowDrop(t, g, w, w', h)
    ensures Weighs(t, w', SkewedBy(skew, loser, loss, gainer, gain))
  {
    forall r: Id
      ensures WeightIn(w', r) == Wrap(WeightDue(t, r) + SkewedBy(skew, loser, loss, gainer, gain)(r))
    {
      var due := WeightDue(t, r) + skew(r);
      assert WeightIn(w, r) == Wrap(due);
      WrapAdd(due, WeightLeft(t, g, due, h, r) - due);
      SkewIsWhatIsLeft(t, g, h, skew, loser, loss, gainer, gain, WeightDue(t, r), r);
    }
  }

  /** Once the block is gone the early change is exactly right. */
  lemma LateWeights(t: Tables, g: Trail, gen: Genesis, w: map<Id, nat>, h: Id, skew: Id -> int,
                    loser: Id, loss: int, gainer: Id, gain: int)
    requires History(t, g, gen) && AccountsMatch(t, g) && Removable(t, g, gen, h)
    requires Taking(t, g, h, loser, loss, gainer, gain)
    requires Weighs(t, w, SkewedBy(skew, loser, loss, gainer, gain))
    ensures Weighs(Dropped(t, g, h), w, skew)
  {
    forall r: Id
      ensures WeightIn(w, r) == Wrap(WeightDue(Dropped(t, g, h), r) + skew(r))
    {
      WeightDueIsLeft(t, g, gen, h, r);
      SkewIsWhatIsLeft(t, g, h, skew, loser, loss, gainer, gain, WeightDue(t, r), r);
      assert WeightIn(w, r) == Wrap(WeightDue(t, r) + SkewedBy(skew, loser, loss, gainer, gain)(r));
    }
  }

  lemma WeightDueIsLeft(t: Tables, g: Trail, gen: Genesis, h: Id, r: Id)
    requires History(t, g, gen) && AccountsMatch(t, g) && Removable(t, g, gen, h)
    ensures WeightDue(Dropped(t, g, h), r) == WeightLeft(t, g, WeightDue(t, r), h, r)
  {
    WeightDueAfterDrop(t, g, gen, h, r);
  }
}

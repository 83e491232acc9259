/**
 The ledger: accepting blocks and rolling them back.

 The tables are fields that the methods update in the order the code does.  `trail` is the history behind the
 tables; no table depends on it.  Statements of the code that assert something are proved here.
 */
module BlockLattice {
  import opened LedgerTypes
  import opened LedgerInvariant
  import opened LedgerExtend
  import opened LedgerRemove
  import opened LedgerDepends
  import opened LedgerConverge
  import opened LedgerGenesis
  import opened LedgerLaws
  import opened LedgerWeights
  import opened LedgerAdmission

  /** The amount a block moves: the size of the change of its account's balance. */
  ghost function Moved(t: Tables, g: Trail, gen: Genesis, h: Id): nat {
    if h in t.blocks then
      var after, before := g.BalanceAt(h), g.BalanceAt(t.blocks[h].block.Previous());
      if after < before then before - after else after - before
    else if h == gen.account then GENESIS_AMOUNT
    else 0
  }

  /** How much later the clock is than the block. */
  ghost function TimeLeft(g: Trail, h: Id): nat {
    if h in g.past && g.past[h].time < g.clock then g.clock - g.past[h].time else 0
  }

  ghost function Age(g: Trail, h: Id): nat {
    if h in g.past then g.past[h].time + 1 else 0
  }

  /** What a call of `Process` reports and does. */
  ghost predicate Answered(t: Tables, g: Trail, w: map<Id, nat>, t': Tables, g': Trail, w': map<Id, nat>,
                           h: Id, b: Block, signedBy: set<Id>, code: Code, amount: nat)
  {
    && code == Verdict(t, g, h, b, signedBy) && Justified(t, g, h, b, signedBy)
    && (code == Progress ==> t' == Added(t, g, h, b) && g' == Recorded(t, g, h, b)
                             && amount == Difference(g.BalanceAt(b.Previous()), NewBalance(t, g, b)))
    && (code != Progress ==> t' == t && g' == g && w' == w)
  }

  function Difference(x: nat, y: nat): nat {
    if x < y then y - x else x - y
  }

  class Ledger {
    const gen: Genesis
    /** The one block that has a given hash. */
    ghost const body: Id -> Block
    var blocks: map<Id, Entry>
    var accounts: map<Id, AccountInfo>
    var pending: map<PendingKey, PendingInfo>
    var frontiers: map<Id, Id>
    var infos: map<Id, BlockInfo>
    var weights: map<Id, nat>
    ghost var trail: Trail

    ghost function Store(): Tables
      reads this
    {
      Tables(blocks, accounts, pending, frontiers, infos)
    }

    ghost predicate Kept()
      reads this
    {
      Sound(Store(), trail, gen, body) && Supply(Store()) == GENESIS_AMOUNT
    }

    /** The tables are right; the weights are off by `skew`. */
    ghost predicate Holds(skew: Id -> int)
      reads this
    {
      Kept() && Weighs(Store(), weights, skew)
    }

    ghost predicate Valid()
      reads this
    {
      Holds(NoSkew())
    }

    /** The store right after the genesis block is put into it. */
    constructor (gen: Genesis, ghost body: Id -> Block)
      requires !Reserved(gen, gen.hash) && gen.account != 0 && body(gen.hash) == gen.Block()
      ensures Valid() && this.gen == gen && this.body == body
      ensures Store() == GenesisTables(gen) && trail == GenesisTrail(gen)
    {
      this.gen := gen;
      this.body := body;
      blocks := map[gen.hash := Entry(gen.Block(), 0)];
      accounts := map[gen.account := AccountInfo(gen.hash, gen.hash, gen.hash, GENESIS_AMOUNT, 1)];
      pending := map[];
      weights := map[gen.account := GENESIS_AMOUNT];
      frontiers := map[gen.hash := gen.account];
      infos := map[];
      trail := GenesisTrail(gen);
      new;
      GenesisIsSound(gen, body);
      GenesisSupply(gen);
      GenesisWeights(gen);
    }

    // -------------------------------------------------------------------------------------------
    // Queries
    // -------------------------------------------------------------------------------------------

    /** The balance of the block's account right after the block; 0 for no block. */
    method Balance(h: Id) returns (balance: nat)
      requires Kept() && (h == 0 || h in blocks)
      ensures balance == trail.BalanceAt(h)
      decreases Age(trail, h)
    {
      var currentBalance, currentAmount := h, 0;
      balance := 0;
      BalanceFits(h);
      while currentBalance != 0 || currentAmount != 0
        invariant currentBalance == 0 || currentBalance in blocks
        invariant currentAmount == 0 || currentAmount == gen.account || currentAmount in blocks
        invariant currentAmount != 0 ==> Age(trail, currentAmount) < Age(trail, h)
        invariant Age(trail, currentBalance) <= Age(trail, h)
        invariant balance + SourceMoved(currentAmount) + trail.BalanceAt(currentBalance) == trail.BalanceAt(h)
        invariant currentBalance in blocks && blocks[currentBalance].block.State? ==> balance == 0 && currentAmount == 0
        decreases Age(trail, currentBalance), currentAmount
      {
        if currentAmount != 0 {
          var amount := Amount(currentAmount);
          WrapSmall(balance + amount);
          balance := Wrap(balance + amount);
          currentAmount := 0;
        } else {
          balance, currentBalance, currentAmount := VisitForBalance(currentBalance, balance);
        }
      }
    }

    /** What one block adds to a balance being summed, and where the sum goes on: block and source. */
    method VisitForBalance(h: Id, sum: nat) returns (balance: nat, currentBalance: Id, currentAmount: Id)
      requires Kept() && h in blocks
      requires sum + trail.BalanceAt(h) < AMOUNT_LIMIT && (blocks[h].block.State? ==> sum == 0)
      ensures currentBalance == 0 || (currentBalance in blocks && !blocks[currentBalance].block.State?)
      ensures currentAmount == 0 || currentAmount == gen.account || currentAmount in blocks
      ensures Age(trail, currentAmount) < Age(trail, h) && Age(trail, currentBalance) < Age(trail, h)
      ensures balance + SourceMoved(currentAmount) + trail.BalanceAt(currentBalance) == sum + trail.BalanceAt(h)
    {
      BackStep(h);
      BalanceFits(0);
      balance, currentBalance, currentAmount := sum, 0, 0;
      match blocks[h].block
      case Send(_, _, b) =>
        WrapSmall(sum + b);
        balance := Wrap(sum + b);
      case Receive(previous, source) =>
        if h in infos {
          WrapSmall(sum + infos[h].balance);
          balance := Wrap(sum + infos[h].balance);
        } else {
          currentAmount := source;
          currentBalance := previous;
        }
      case Open(source, _, _) =>
        currentAmount := source;
      case Change(previous, _) =>
        if h in infos {
          WrapSmall(sum + infos[h].balance);
          balance := Wrap(sum + infos[h].balance);
        } else {
          currentBalance := previous;
        }
      case State(_, _, _, b, _) =>
        balance := b;
    }

    lemma BalanceFits(h: Id)
      requires Kept() && (h == 0 || h in blocks)
      ensures trail.BalanceAt(h) < AMOUNT_LIMIT && 0 !in trail.past
    {
      if h in blocks {
        assert Valued(Store(), trail, gen, h);
      }
    }

    /** What the block says about the balance, its predecessor and its source. */
    lemma BackStep(h: Id)
      requires Kept() && h in blocks
      ensures var b := blocks[h].block;
              var prev, source := b.Previous(), trail.Source(b);
              && (prev == 0 || (prev in blocks && Age(trail, prev) < Age(trail, h)))
              && (prev in blocks && blocks[prev].block.State? ==> b.State?)
              && (!b.State? && h in infos ==> infos[h] == BlockInfo(trail.past[h].account, trail.BalanceAt(h)))
              && (b.Send? || b.State? ==> trail.BalanceAt(h) == b.balance)
              && (b.Change? ==> trail.BalanceAt(h) == trail.BalanceAt(prev))
              && (b.Open? || b.Receive? ==>
                    && (source == 0 || source == gen.account || source in blocks)
                    && Age(trail, source) < Age(trail, h)
                    && trail.BalanceAt(h) == trail.BalanceAt(prev) + SourceMoved(source))
    {
      var t, g := Store(), trail;
      assert Chained(t, g, h) && Valued(t, g, gen, h) && InfoRow(t, g, body, h);
      var source := g.Source(blocks[h].block);
      if source in blocks {
        assert Valued(t, g, gen, source);
      }
    }

    ghost function SourceMoved(source: Id): nat
      reads this
    {
      if source == 0 then 0 else Moved(Store(), trail, gen, source)
    }

    /** A receiving block moves what its source moved. */
    lemma MovedStep(h: Id)
      requires Kept() && h in blocks
      ensures var b := blocks[h].block;
              var source := trail.Source(b);
              && (b.Open? || b.Receive? ==> Moved(Store(), trail, gen, h) == SourceMoved(source))
              && (b.Receive? ==> source == 0 || source in blocks)
              && (b.Open? && source != gen.account ==> source in blocks)
              && (b.Open? && source == gen.account ==> h == gen.hash)
    {
      BackStep(h);
      assert Chained(Store(), trail, h) && Valued(Store(), trail, gen, h);
    }

    /** The amount the block moved; for the source of the genesis block, the whole supply. */
    method Amount(h: Id) returns (amount: nat)
      requires Kept() && (h in blocks || h == gen.account)
      ensures amount == Moved(Store(), trail, gen, h)
      decreases Age(trail, h)
    {
      var currentAmount, currentBalance := h, 0;
      amount := 0;
      ghost var goal := Moved(Store(), trail, gen, h);
      BalanceFits(0);
      while currentAmount != 0 || currentBalance != 0
        invariant currentAmount == 0 || currentAmount in blocks || currentAmount == h == gen.account
        invariant currentBalance == 0 || (currentBalance in blocks && Age(trail, currentBalance) < Age(trail, h))
        invariant currentAmount != 0 ==> currentBalance == 0 && amount == 0 && Moved(Store(), trail, gen, currentAmount) == goal
        invariant Age(trail, currentAmount) <= Age(trail, h)
        invariant currentAmount == 0 ==>
                    goal == if amount < trail.BalanceAt(currentBalance) then trail.BalanceAt(currentBalance) - amount
                            else amount - trail.BalanceAt(currentBalance)
        decreases Age(trail, currentAmount), currentAmount, currentBalance
      {
        if currentAmount != 0 {
          if currentAmount in blocks {
            BackStep(currentAmount);
            MovedStep(currentAmount);
            match blocks[currentAmount].block
            case Send(previous, _, balance) =>
              currentBalance := previous;
              amount := balance;
              currentAmount := 0;
            case Receive(_, source) =>
              currentAmount := source;
            case Open(source, _, _) =>
              if source != gen.account {
                currentAmount := source;
              } else {
                amount := GENESIS_AMOUNT;
                currentAmount := 0;
              }
            case Change(_, _) =>
              amount := 0;
              currentAmount := 0;
            case State(_, previous, _, balance, _) =>
              currentBalance := previous;
              amount := balance;
              currentAmount := 0;
          } else {
            assert h == gen.account;
            amount := GENESIS_AMOUNT;
            currentAmount := 0;
          }
        } else {
          var previous := Balance(currentBalance);
          amount := if amount < previous then previous - amount else amount - previous;
          currentBalance := 0;
        }
      }
    }

    /** The block that names the representative of the block's account at that point. */
    method Representative(h: Id) returns (result: Id)
      requires Kept() && h in blocks
      ensures result == trail.RepAt(h) && result in blocks
    {
      var current := h;
      result := 0;
      while result == 0
        invariant current in blocks && trail.RepAt(current) == trail.RepAt(h)
        invariant result == 0 || result == trail.RepAt(h)
        decreases result == 0, Age(trail, current)
      {
        BackStep(current);
        assert Chained(Store(), trail, current);
        match blocks[current].block
        case Send(previous, _, _) => current := previous;
        case Receive(previous, _) => current := previous;
        case Open(_, _, _) => result := current;
        case Change(_, _) => result := current;
        case State(_, _, _, _, _) => result := current;
      }
      assert Represented(Store(), trail, h);
    }

    /** The account that owns the block, found by walking to the next state block, checkpoint or frontier. */
    method AccountOf(h: Id) returns (result: Id)
      requires Kept() && h in blocks
      ensures result == trail.past[h].account && result != 0
    {
      var hash, successor := h, 1;
      var block := blocks[h].block;
      assert Chained(Store(), trail, h) && InfoRow(Store(), trail, body, 1);
      while successor != 0 && !block.State? && successor !in infos
        invariant hash in blocks && block == blocks[hash].block
        invariant trail.past[hash].account == trail.past[h].account && trail.past[hash].time < trail.clock
        invariant successor == 1 || successor == hash || (successor == 0 && blocks[hash].successor == 0)
        invariant 1 !in infos
        decreases trail.clock - trail.past[hash].time, successor
      {
        assert Chained(Store(), trail, hash);
        successor := blocks[hash].successor;
        if successor != 0 {
          assert Chained(Store(), trail, successor);
          hash := successor;
          block := blocks[hash].block;
        }
      }
      assert Chained(Store(), trail, hash);
      assert InfoRow(Store(), trail, body, hash) && FrontierRow(Store(), trail, hash);
      if block.State? {
        result := block.account;
      } else if successor == 0 {
        result := frontiers[hash];
      } else {
        result := infos[successor].account;
      }
    }

    lemma LatestIsHead(account: Id, latest: Id)
      requires Kept() && account in accounts
      requires latest == 0 ==> forall x | x in blocks :: trail.past[x].account != account
      requires latest != 0 ==> latest in blocks && trail.past[latest].account == account && blocks[latest].successor == 0
      ensures latest == accounts[account].head
    {
      assert AccountRow(Store(), trail, account);
      if latest != 0 {
        assert Listed(Store(), trail, latest);
      }
    }

    /** The last block of the account's chain, later than all others of the account; 0 if the account has no block. */
    method Latest(account: Id) returns (result: Id)
      requires Kept()
      ensures result == 0 <==> forall x | x in blocks :: trail.past[x].account != account
      ensures result != 0 ==> result in blocks && trail.past[result].account == account && blocks[result].successor == 0
      ensures forall x | x in blocks && trail.past[x].account == account :: trail.past[x].time <= trail.past[result].time
    {
      result := if account in accounts then accounts[account].head else 0;
      if account in accounts {
        assert AccountRow(Store(), trail, account);
      }
      forall x | x in blocks && trail.past[x].account == account
        ensures result in trail.past && trail.past[x].time <= trail.past[result].time
      {
        HeadIsLatest(Store(), trail, gen, x);
      }
    }

    // -------------------------------------------------------------------------------------------
    // The store
    // -------------------------------------------------------------------------------------------

    method BlockPut(h: Id, b: Block)
      requires b.Previous() == 0 || b.Previous() in blocks
      requires b.Previous() != h && 0 !in blocks
      modifies this`blocks
      ensures blocks == LinkedBlocks(old(blocks), h, b)
    {
      blocks := blocks[h := Entry(b, 0)];
      if b.Previous() != 0 {
        blocks := blocks[b.Previous() := Entry(blocks[b.Previous()].block, h)];
      }
    }

    /** Adds to the weight of the representative named by block `h`, in 128-bit arithmetic. */
    method RepresentationAdd(h: Id, amount: int)
      requires h in blocks
      modifies this`weights
      ensures Bumped(old(weights), weights, RepOfBlock(Store(), h), amount)
    {
      var representative := blocks[h].block.Representative();
      weights := weights[representative := Wrap(WeightIn(weights, representative) + amount)];
    }

    method ChangeLatest(account: Id, hash: Id, repBlock: Id, balance: nat, blockCount: nat, isState: bool)
      requires account in accounts || (hash in blocks && blocks[hash].block.Previous() == 0)
      requires hash == 0 ==> account in accounts
      modifies this`accounts, this`infos
      ensures accounts == if hash == 0 then old(accounts) - {account}
                          else old(accounts)[account := AccountInfo(hash, repBlock,
                            if account in old(accounts) then old(accounts)[account].openBlock else hash, balance, blockCount)]
      ensures infos == if hash != 0 && blockCount % BLOCK_INFO_MAX == 0 && !isState
                       then old(infos)[hash := BlockInfo(account, balance)] else old(infos)
    {
      var openBlock := if account in accounts then accounts[account].openBlock else hash;
      if hash != 0 {
        accounts := accounts[account := AccountInfo(hash, repBlock, openBlock, balance, blockCount)];
        if blockCount % BLOCK_INFO_MAX == 0 && !isState {
          infos := infos[hash := BlockInfo(account, balance)];
        }
      } else {
        accounts := accounts - {account};
      }
    }

    // -------------------------------------------------------------------------------------------
    // Accepting a block
    // -------------------------------------------------------------------------------------------

    /** A block that is not a state block is in the frontier table exactly when it is its account's head. */
    lemma FrontierMeans(h: Id)
      requires Kept() && h in blocks && !blocks[h].block.State?
      ensures var p := trail.past[h];
              && p.account != 0 && p.account in accounts && p.repBlock in blocks
              && (h in frontiers <==> accounts[p.account].head == h)
              && (h in frontiers <==> StoredHead(Store(), h))
              && (h in frontiers ==> frontiers[h] == p.account)
              && (h in frontiers ==> accounts[p.account] == AccountInfo(h, p.repBlock, p.openBlock, p.balance, p.height))
    {
      var t, g := Store(), trail;
      assert FrontierRow(t, g, h) && Listed(t, g, h) && Chained(t, g, h) && Represented(t, g, h);
      assert AccountRow(t, g, g.past[h].account);
    }

    /** The tests on a send block, in order. */
    method CheckSend(h: Id, b: Block, signedBy: set<Id>) returns (code: Code)
      requires Kept() && b.Send?
      ensures code == Verdict(Store(), trail, h, b, signedBy)
      ensures code == Progress ==> b.previous in frontiers
    {
      if h in blocks {
        return Old;
      }
      if b.previous !in blocks {
        return GapPrevious;
      }
      if blocks[b.previous].block.State? {
        return BlockPosition;
      }
      FrontierMeans(b.previous);
      if b.previous !in frontiers {
        return Fork;
      }
      var account := frontiers[b.previous];
      if account !in signedBy {
        return BadSignature;
      }
      var info := accounts[account];
      assert info.head == b.previous;
      if info.balance < b.balance {
        return NegativeSpend;
      }
      code := Progress;
    }

    method ProcessSend(h: Id, b: Block, signedBy: set<Id>) returns (code: Code, amount: nat)
      requires Valid() && !Reserved(gen, h) && body(h) == b && b.Send?
      modifies this
      ensures Valid()
      ensures Answered(old(Store()), old(trail), old(weights), Store(), trail, weights, h, b, signedBy, code, amount)
    {
      VerdictMeans(Store(), trail, gen, h, b, signedBy);
      amount := 0;
      code := CheckSend(h, b, signedBy);
      if code == Progress {
        FrontierMeans(b.previous);
        var account := frontiers[b.previous];
        amount := AcceptSend(h, b, account, accounts[account]);
      }
    }

    method AcceptSend(h: Id, b: Block, account: Id, info: AccountInfo) returns (amount: nat)
      requires Valid() && !Reserved(gen, h) && body(h) == b && b.Send? && Acceptable(Store(), trail, h, b)
      requires account == Owner(trail, b) && account in accounts && info == accounts[account] && b.previous in frontiers
      modifies this
      ensures Valid() && Store() == Added(old(Store()), old(trail), h, b)
      ensures trail == Recorded(old(Store()), old(trail), h, b) && amount == info.balance - b.balance
    {
      ghost var t, g, w := Store(), trail, weights;
      BuildsOnHead(h, b);
      amount := EnterSend(h, b, account, info);
      SameRepresentativeConcludes(t, g, w, h, b, RepOfBlock(t, info.repBlock), b.balance - info.balance);
    }

    /** A block that keeps the representative changes one weight. */
    lemma SameRepresentativeConcludes(t: Tables, g: Trail, w: map<Id, nat>, h: Id, b: Block, rep: Id, d: int)
      requires Sound(t, g, gen, body) && Supply(t) == GENESIS_AMOUNT && Weighs(t, w, NoSkew())
      requires Acceptable(t, g, h, b) && !Reserved(gen, h) && body(h) == b && b.KeepsRepresentative()
      requires Store() == Added(t, g, h, b) && trail == Recorded(t, g, h, b)
      requires rep == RepOfBlock(t, g.RepAt(b.previous)) && d == NewBalance(t, g, b) - g.BalanceAt(b.previous)
      requires Small(w) && Bumped(w, weights, rep, d)
      ensures Valid()
    {
      OneBumpFollowsAdd(t, g, gen, w, weights, h, b, rep, d);
      AddCompletes(t, g, w, weights, gen, body, h, b);
    }

    /** The account row is what the history says of the block before. */
    ghost predicate BuildsOn(b: Block, account: Id, info: AccountInfo)
      reads this
    {
      var prev := b.Previous();
      && account == Owner(trail, b)
      && info == AccountInfo(prev, trail.RepAt(prev), trail.OpenAt(prev), trail.BalanceAt(prev), trail.HeightAt(prev))
      && (account in accounts <==> prev != 0)
      && (account in accounts ==> info == accounts[account] && info.repBlock in blocks)
    }

    lemma BuildsOnHead(h: Id, b: Block)
      requires Valid() && Acceptable(Store(), trail, h, b)
      ensures var a := Owner(trail, b);
              BuildsOn(b, a, if a in accounts then accounts[a] else AccountInfo(0, 0, 0, 0, 0))
      ensures Small(weights)
    {
      var t, g, a := Store(), trail, Owner(trail, b);
      if a in accounts {
        assert AccountRow(t, g, a);
        assert Represented(t, g, b.Previous());
      }
      forall r: Id ensures WeightIn(weights, r) < AMOUNT_LIMIT {
        assert WeightIn(weights, r) == Wrap(WeightDue(t, r) + NoSkew()(r));
      }
    }

    method EnterSend(h: Id, b: Block, account: Id, info: AccountInfo) returns (amount: nat)
      requires h !in blocks && 0 !in blocks && h != 0 && b.Send? && b.previous in blocks && b.previous in frontiers
      requires BuildsOn(b, account, info) && b.balance <= info.balance
      modifies this
      ensures Store() == Added(old(Store()), old(trail), h, b) && trail == Recorded(old(Store()), old(trail), h, b)
      ensures Bumped(old(weights), weights, RepOfBlock(old(Store()), info.repBlock), b.balance - info.balance)
      ensures amount == info.balance - b.balance
    {
      ghost var t := Store();
      amount := info.balance - b.balance;
      RepresentationAdd(info.repBlock, 0 - amount);
      EnterSendRows(h, b, account, info, amount);
      AddedSend(t, trail, h, b, account, info);
      trail := Recorded(t, trail, h, b);
    }

    method EnterSendRows(h: Id, b: Block, account: Id, info: AccountInfo, amount: nat)
      requires h !in blocks && 0 !in blocks && h != 0 && b.Send? && b.previous in blocks && b.previous in frontiers
      requires account in accounts && info == accounts[account]
      modifies this`blocks, this`accounts, this`infos, this`pending, this`frontiers
      ensures Store() == AddedToRow(old(Store()), h, b, account, info, info.repBlock, info.openBlock, b.balance,
                                    old(pending)[PendingKey(b.destination, h) := PendingInfo(account, amount)])
    {
      BlockPut(h, b);
      ChangeLatest(account, h, info.repBlock, b.balance, info.blockCount + 1, false);
      pending := pending[PendingKey(b.destination, h) := PendingInfo(account, amount)];
      frontiers := frontiers - {b.previous};
      frontiers := frontiers[h := account];
    }

    /** The tests on a receive block, in order. */
    method CheckReceive(h: Id, b: Block, signedBy: set<Id>) returns (code: Code)
      requires Kept() && b.Receive?
      ensures code == Verdict(Store(), trail, h, b, signedBy)
      ensures code == Progress ==> b.previous in frontiers && PendingKey(Owner(trail, b), b.source) in pending
    {
      if h in blocks {
        return Old;
      }
      if b.previous !in blocks {
        return GapPrevious;
      }
      if blocks[b.previous].block.State? {
        return BlockPosition;
      }
      if b.source !in blocks {
        return GapSource;
      }
      FrontierMeans(b.previous);
      PendingMeans(PendingKey(Owner(trail, b), b.source));
      if b.previous !in frontiers {
        return Fork;
      }
      var account := frontiers[b.previous];
      if account !in signedBy {
        return BadSignature;
      }
      assert accounts[account].head == b.previous;
      if PendingKey(account, b.source) !in pending {
        return Unreceivable;
      }
      code := Progress;
    }

    method ProcessReceive(h: Id, b: Block, signedBy: set<Id>) returns (code: Code, amount: nat)
      requires Valid() && !Reserved(gen, h) && body(h) == b && b.Receive?
      modifies this
      ensures Valid()
      ensures Answered(old(Store()), old(trail), old(weights), Store(), trail, weights, h, b, signedBy, code, amount)
    {
      VerdictMeans(Store(), trail, gen, h, b, signedBy);
      amount := 0;
      code := CheckReceive(h, b, signedBy);
      if code == Progress {
        FrontierMeans(b.previous);
        var account := frontiers[b.previous];
        amount := pending[PendingKey(account, b.source)].amount;
        AcceptReceive(h, b, account, accounts[account]);
      }
    }

    /** A pending entry stands for a stored send of a listed account. */
    lemma PendingMeans(key: PendingKey)
      requires Kept()
      ensures key in pending ==> key.hash != 0 && key.hash in blocks && pending[key].source in accounts
      ensures key in pending <==> Awaits(Store(), trail, key.account, key.hash)
      ensures key in pending ==> pending[key].amount == AwaitedAmount(Store(), trail, key.account, key.hash)
    {
      assert PendingRow(Store(), trail, key);
      if key in pending {
        assert Listed(Store(), trail, key.hash);
      }
    }

    method AcceptReceive(h: Id, b: Block, account: Id, info: AccountInfo)
      requires Valid() && !Reserved(gen, h) && body(h) == b && b.Receive? && Acceptable(Store(), trail, h, b)
      requires account == Owner(trail, b) && account in accounts && info == accounts[account] && b.previous in frontiers
      modifies this
      ensures Valid() && Store() == Added(old(Store()), old(trail), h, b)
      ensures trail == Recorded(old(Store()), old(trail), h, b)
    {
      ghost var t, g, w := Store(), trail, weights;
      BuildsOnHead(h, b);
      ReceivedFits(t, account, PendingKey(account, b.source));
      PendingMeans(PendingKey(account, b.source));
      ghost var d := pending[PendingKey(account, b.source)].amount;
      EnterReceive(h, b, account, info);
      SameRepresentativeConcludes(t, g, w, h, b, RepOfBlock(t, info.repBlock), d);
    }

    method EnterReceive(h: Id, b: Block, account: Id, info: AccountInfo)
      requires h !in blocks && 0 !in blocks && h != 0 && b.Receive? && b.previous in blocks && b.previous in frontiers
      requires b.source != 0 && PendingKey(account, b.source) in pending
      requires BuildsOn(b, account, info)
      requires info.balance + pending[PendingKey(account, b.source)].amount < AMOUNT_LIMIT
      requires pending[PendingKey(account, b.source)].source in accounts
      modifies this
      ensures Store() == Added(old(Store()), old(trail), h, b) && trail == Recorded(old(Store()), old(trail), h, b)
      ensures Bumped(old(weights), weights, RepOfBlock(old(Store()), info.repBlock),
                     old(pending)[PendingKey(account, b.source)].amount)
    {
      ghost var t := Store();
      var key := PendingKey(account, b.source);
      var received := pending[key];
      WrapSmall(info.balance + received.amount);
      var newBalance := Wrap(info.balance + received.amount);
      assert received.source in accounts;
      pending := pending - {key};
      BlockPut(h, b);
      ChangeLatest(account, h, info.repBlock, newBalance, info.blockCount + 1, false);
      assert info.repBlock in t.blocks && RepOfBlock(t, info.repBlock) == RepOfBlock(Store(), info.repBlock);
      RepresentationAdd(info.repBlock, received.amount);
      frontiers := frontiers - {b.previous};
      frontiers := frontiers[h := account];
      AddedReceive(t, trail, h, b, account, info);
      trail := Recorded(t, trail, h, b);
    }

    /** The tests on an open block, in order. */
    method CheckOpen(h: Id, b: Block, signedBy: set<Id>) returns (code: Code)
      requires Kept() && b.Open?
      ensures code == Verdict(Store(), trail, h, b, signedBy)
      ensures code == Progress ==> PendingKey(b.account, b.source) in pending
    {
      if h in blocks {
        return Old;
      }
      if b.source !in blocks {
        return GapSource;
      }
      if b.account !in signedBy {
        return BadSignature;
      }
      if b.account in accounts {
        return Fork;
      }
      PendingMeans(PendingKey(b.account, b.source));
      if PendingKey(b.account, b.source) !in pending {
        return Unreceivable;
      }
      if b.account == 0 {
        return OpenedBurnAccount;
      }
      code := Progress;
    }

    method ProcessOpen(h: Id, b: Block, signedBy: set<Id>) returns (code: Code, amount: nat)
      requires Valid() && !Reserved(gen, h) && body(h) == b && b.Open?
      modifies this
      ensures Valid()
      ensures Answered(old(Store()), old(trail), old(weights), Store(), trail, weights, h, b, signedBy, code, amount)
    {
      VerdictMeans(Store(), trail, gen, h, b, signedBy);
      amount := 0;
      code := CheckOpen(h, b, signedBy);
      if code == Progress {
        AccountMeans(b.account);
        amount := pending[PendingKey(b.account, b.source)].amount;
        AcceptOpen(h, b);
      }
    }

    method AcceptOpen(h: Id, b: Block)
      requires Valid() && !Reserved(gen, h) && body(h) == b && b.Open? && Acceptable(Store(), trail, h, b)
      modifies this
      ensures Valid() && Store() == Added(old(Store()), old(trail), h, b)
      ensures trail == Recorded(old(Store()), old(trail), h, b)
    {
      ghost var t, g, w := Store(), trail, weights;
      BuildsOnHead(h, b);
      BalanceFits(0);
      PendingMeans(PendingKey(b.account, b.source));
      assert FrontierRow(t, g, 0);
      ghost var gain := pending[PendingKey(b.account, b.source)].amount;
      EnterOpen(h, b);
      BumpedStaysSmall(w, weights, b.representative, gain);
      NoBump(weights, 0);
      GainFirstConcludes(t, g, w, weights, h, b, 0, 0, gain);
    }

    /** A block that names a representative changes two weights; open and change blocks give first. */
    lemma GainFirstConcludes(t: Tables, g: Trail, w: map<Id, nat>, w1: map<Id, nat>, h: Id, b: Block,
                          loser: Id, loss: int, gain: int)
      requires Sound(t, g, gen, body) && Supply(t) == GENESIS_AMOUNT && Weighs(t, w, NoSkew())
      requires Acceptable(t, g, h, b) && !Reserved(gen, h) && body(h) == b && !b.KeepsRepresentative()
      requires Store() == Added(t, g, h, b) && trail == Recorded(t, g, h, b)
      requires Small(w) && loser == RepOfBlock(t, g.RepAt(b.Previous()))
      requires loss == 0 - g.BalanceAt(b.Previous()) && gain == NewBalance(t, g, b)
      requires Bumped(w, w1, b.Representative(), gain) && Bumped(w1, weights, loser, loss)
      ensures Valid()
    {
      GainThenLoss(t, g, Store(), w, w1, weights, h, b, loser, loss, gain);
      AddCompletes(t, g, w, weights, gen, body, h, b);
    }

    /** State blocks take first. */
    lemma LossFirstConcludes(t: Tables, g: Trail, w: map<Id, nat>, w1: map<Id, nat>, h: Id, b: Block,
                          loser: Id, loss: int, gain: int)
      requires Sound(t, g, gen, body) && Supply(t) == GENESIS_AMOUNT && Weighs(t, w, NoSkew())
      requires Acceptable(t, g, h, b) && !Reserved(gen, h) && body(h) == b && !b.KeepsRepresentative()
      requires Store() == Added(t, g, h, b) && trail == Recorded(t, g, h, b)
      requires Small(w) && loser == RepOfBlock(t, g.RepAt(b.Previous()))
      requires loss == 0 - g.BalanceAt(b.Previous()) && gain == NewBalance(t, g, b)
      requires Bumped(w, w1, loser, loss) && Bumped(w1, weights, b.Representative(), gain)
      ensures Valid()
    {
      LossThenGain(t, g, Store(), w, w1, weights, h, b, loser, loss, gain);
      AddCompletes(t, g, w, weights, gen, body, h, b);
    }

    method EnterOpen(h: Id, b: Block)
      requires h !in blocks && 0 !in blocks && h != 0 && b.Open? && 0 !in frontiers && 0 !in trail.past
      requires b.source != 0 && PendingKey(b.account, b.source) in pending && b.account !in accounts
      requires pending[PendingKey(b.account, b.source)].source in accounts
      modifies this
      ensures Store() == Added(old(Store()), old(trail), h, b) && trail == Recorded(old(Store()), old(trail), h, b)
      ensures Bumped(old(weights), weights, b.representative, old(pending)[PendingKey(b.account, b.source)].amount)
    {
      ghost var t := Store();
      var key := PendingKey(b.account, b.source);
      var received := pending[key];
      assert received.source in accounts;
      pending := pending - {key};
      BlockPut(h, b);
      ChangeLatest(b.account, h, h, received.amount, 1, false);
      RepresentationAdd(h, received.amount);
      frontiers := frontiers[h := b.account];
      assert frontiers == (t.frontiers - {0})[h := b.account];
      AddedOpen(t, trail, h, b);
      trail := Recorded(t, trail, h, b);
    }

    /** The tests on a change block, in order. */
    method CheckChange(h: Id, b: Block, signedBy: set<Id>) returns (code: Code)
      requires Kept() && b.Change?
      ensures code == Verdict(Store(), trail, h, b, signedBy)
      ensures code == Progress ==> b.previous in frontiers
    {
      if h in blocks {
        return Old;
      }
      if b.previous !in blocks {
        return GapPrevious;
      }
      if blocks[b.previous].block.State? {
        return BlockPosition;
      }
      FrontierMeans(b.previous);
      if b.previous !in frontiers {
        return Fork;
      }
      var account := frontiers[b.previous];
      assert accounts[account].head == b.previous;
      if account !in signedBy {
        return BadSignature;
      }
      code := Progress;
    }

    method ProcessChange(h: Id, b: Block, signedBy: set<Id>) returns (code: Code, amount: nat)
      requires Valid() && !Reserved(gen, h) && body(h) == b && b.Change?
      modifies this
      ensures Valid()
      ensures Answered(old(Store()), old(trail), old(weights), Store(), trail, weights, h, b, signedBy, code, amount)
    {
      VerdictMeans(Store(), trail, gen, h, b, signedBy);
      amount := 0;
      code := CheckChange(h, b, signedBy);
      if code == Progress {
        FrontierMeans(b.previous);
        var account := frontiers[b.previous];
        var balance := Balance(b.previous);
        AcceptChange(h, b, account, accounts[account], balance);
      }
    }

    method AcceptChange(h: Id, b: Block, account: Id, info: AccountInfo, balance: nat)
      requires Valid() && !Reserved(gen, h) && body(h) == b && b.Change? && Acceptable(Store(), trail, h, b)
      requires account == Owner(trail, b) && account in accounts && info == accounts[account] && b.previous in frontiers
      requires balance == info.balance
      modifies this
      ensures Valid() && Store() == Added(old(Store()), old(trail), h, b)
      ensures trail == Recorded(old(Store()), old(trail), h, b)
    {
      ghost var t, g, w := Store(), trail, weights;
      BuildsOnHead(h, b);
      ghost var w1 := EnterChange(h, b, account, info, balance);
      ghost var loss: int := -(balance as int);
      GainFirstConcludes(t, g, w, w1, h, b, RepOfBlock(t, info.repBlock), loss, balance);
    }

    method EnterChange(h: Id, b: Block, account: Id, info: AccountInfo, balance: nat) returns (ghost w1: map<Id, nat>)
      requires h !in blocks && 0 !in blocks && h != 0 && b.Change? && b.previous in blocks && b.previous in frontiers
      requires BuildsOn(b, account, info) && balance == info.balance
      modifies this
      ensures Store() == Added(old(Store()), old(trail), h, b) && trail == Recorded(old(Store()), old(trail), h, b)
      ensures Bumped(old(weights), w1, b.representative, balance)
      ensures Bumped(w1, weights, RepOfBlock(old(Store()), info.repBlock), -(balance as int))
    {
      ghost var t := Store();
      BlockPut(h, b);
      w1 := MoveWeight(h, balance, info.repBlock, t);
      ChangeLatest(account, h, h, info.balance, info.blockCount + 1, false);
      frontiers := frontiers - {b.previous};
      frontiers := frontiers[h := account];
      AddedChange(t, trail, h, b, account, info);
      trail := Recorded(t, trail, h, b);
    }

    /** The representative of the new block gains the balance, then the one before loses it. */
    method MoveWeight(h: Id, balance: nat, repBlock: Id, ghost t: Tables) returns (ghost w1: map<Id, nat>)
      requires h in blocks && repBlock in t.blocks && repBlock in blocks && blocks[repBlock].block == t.blocks[repBlock].block
      modifies this`weights
      ensures Bumped(old(weights), w1, blocks[h].block.Representative(), balance)
      ensures Bumped(w1, weights, RepOfBlock(t, repBlock), -(balance as int))
    {
      RepresentationAdd(h, balance);
      w1 := weights;
      RepresentationAdd(repBlock, 0 - balance);
    }

    method ProcessState(h: Id, b: Block, signedBy: set<Id>) returns (code: Code, amount: nat)
      requires Valid() && !Reserved(gen, h) && body(h) == b && b.State?
      modifies this
      ensures Valid()
      ensures Answered(old(Store()), old(trail), old(weights), Store(), trail, weights, h, b, signedBy, code, amount)
    {
      VerdictMeans(Store(), trail, gen, h, b, signedBy);
      amount := b.balance;
      if h in blocks {
        return Old, amount;
      }
      if b.account !in signedBy {
        return BadSignature, amount;
      }
      if b.account == 0 {
        return OpenedBurnAccount, amount;
      }
      var info, isSend;
      code, info, isSend, amount := CheckStatePosition(h, b);
      if code != Progress {
        return;
      }
      code := CheckStateFunds(h, b, isSend, amount);
      if code != Progress {
        return;
      }
      AcceptState(h, b, info, isSend, amount);
    }

    /** Does the block stand at the end of its account's chain, and does it send? */
    method CheckStatePosition(h: Id, b: Block) returns (code: Code, info: AccountInfo, isSend: bool, amount: nat)
      requires Kept() && b.State? && h !in blocks && b.account != 0
      ensures code in {Progress, Fork, GapPrevious, GapSource}
      ensures code == PositionVerdict(Store(), trail, b)
      ensures code == Progress ==>
                && info == (if b.account in accounts then accounts[b.account] else AccountInfo(0, 0, 0, 0, 0))
                && isSend == trail.Sends(b) && amount == Difference(info.balance, b.balance)
                && info.balance == trail.BalanceAt(b.previous)
                && (if b.account in accounts then b.previous == info.head != 0 else b.previous == 0 && b.link != 0)
    {
      AccountMeans(b.account);
      if b.previous in blocks {
        HeadMeans(Store(), trail, gen, b.previous);
      }
      amount := b.balance;
      info := if b.account in accounts then accounts[b.account] else AccountInfo(0, 0, 0, 0, 0);
      isSend := false;
      code := Progress;
      if b.account in accounts {
        if b.previous == 0 {
          code := Fork;
          return;
        }
        if b.previous !in blocks {
          code := GapPrevious;
          return;
        }
        isSend := b.balance < info.balance;
        amount := if isSend then info.balance - amount else amount - info.balance;
        if b.previous != info.head {
          code := Fork;
        }
      } else {
        if b.previous != 0 {
          code := GapPrevious;
          return;
        }
        if b.link == 0 {
          code := GapSource;
        }
      }
    }

    /** Is what a block that does not send claims to receive there for it? */
    method CheckStateFunds(h: Id, b: Block, isSend: bool, amount: nat) returns (code: Code)
      requires Kept() && b.State? && h !in blocks && b.account != 0
      requires isSend == trail.Sends(b) && amount == Difference(trail.BalanceAt(b.previous), b.balance)
      requires if b.account in accounts then b.previous == accounts[b.account].head != 0 else b.previous == 0 && b.link != 0
      ensures code in {Progress, GapSource, Unreceivable, BalanceMismatch}
      ensures code == Progress <==> Acceptable(Store(), trail, h, b)
      ensures code == FundsVerdict(Store(), trail, b)
    {
      AccountMeans(b.account);
      PendingMeans(PendingKey(b.account, b.link));
      code := Progress;
      if !isSend {
        if b.link != 0 {
          if b.link !in blocks {
            return GapSource;
          }
          if PendingKey(b.account, b.link) !in pending {
            return Unreceivable;
          }
          if amount != pending[PendingKey(b.account, b.link)].amount {
            return BalanceMismatch;
          }
        } else if amount != 0 {
          return BalanceMismatch;
        }
      }
    }

    lemma AccountMeans(a: Id)
      requires Kept()
      ensures 0 !in blocks && 0 !in trail.past
      ensures a in accounts ==> accounts[a].head in blocks && accounts[a].balance == trail.BalanceAt(accounts[a].head)
      ensures a in accounts ==> trail.past[accounts[a].head].account == a && StoredHead(Store(), accounts[a].head)
    {
      BalanceFits(0);
      if a in accounts {
        assert AccountRow(Store(), trail, a);
      }
    }

    method AcceptState(h: Id, b: Block, info: AccountInfo, isSend: bool, amount: nat)
      requires Valid() && !Reserved(gen, h) && body(h) == b && b.State? && Acceptable(Store(), trail, h, b)
      requires info == if b.account in accounts then accounts[b.account] else AccountInfo(0, 0, 0, 0, 0)
      requires isSend == trail.Sends(b) && amount == Difference(info.balance, b.balance)
      modifies this
      ensures Valid() && Store() == Added(old(Store()), old(trail), h, b)
      ensures trail == Recorded(old(Store()), old(trail), h, b)
    {
      ghost var t, g, w := Store(), trail, weights;
      BuildsOnHead(h, b);
      BalanceFits(0);
      NoBump(weights, 0);
      assert FrontierRow(t, g, 0) && FrontierRow(t, g, info.head);
      if info.head != 0 {
        assert Chained(t, g, info.head);
      }
      ghost var w1 := EnterState(h, b, info, isSend, amount);
      ghost var loss: int := -(info.balance as int);
      LossFirstConcludes(t, g, w, w1, h, b, RepOfBlock(t, info.repBlock), loss, b.balance);
    }

    method EnterState(h: Id, b: Block, info: AccountInfo, isSend: bool, amount: nat) returns (ghost w1: map<Id, nat>)
      requires h !in blocks && 0 !in blocks && h != 0 && b.State? && (b.previous == 0 || b.previous in blocks)
      requires BuildsOn(b, b.account, info) && (info.repBlock == 0 <==> b.previous == 0)
      requires 0 !in frontiers && 0 !in trail.past && Bumped(weights, weights, 0, 0)
      requires isSend == trail.Sends(b) && amount == Difference(info.balance, b.balance)
      requires b.previous in frontiers ==> frontiers[b.previous] != 0
      modifies this
      ensures Store() == Added(old(Store()), old(trail), h, b) && trail == Recorded(old(Store()), old(trail), h, b)
      ensures Bumped(old(weights), w1, RepOfBlock(old(Store()), info.repBlock), -(info.balance as int))
      ensures Bumped(w1, weights, b.representative, b.balance)
    {
      ghost var t := Store();
      BlockPut(h, b);
      w1 := MoveWeightBack(h, b.balance, info, t);
      EnterStateRows(h, b, info, isSend, amount);
      AddedState(t, trail, h, b, info);
      trail := Recorded(t, trail, h, b);
    }

    /** The representative before loses the account's balance, if there was one, then that of the new block gains the new one. */
    method MoveWeightBack(h: Id, balance: nat, info: AccountInfo, ghost t: Tables) returns (ghost w1: map<Id, nat>)
      requires h in blocks && 0 !in t.blocks && Bumped(weights, weights, 0, 0)
      requires if info.repBlock == 0 then info.balance == 0
               else info.repBlock in t.blocks && info.repBlock in blocks && blocks[info.repBlock].block == t.blocks[info.repBlock].block
      modifies this`weights
      ensures Bumped(old(weights), w1, RepOfBlock(t, info.repBlock), -(info.balance as int))
      ensures Bumped(w1, weights, blocks[h].block.Representative(), balance)
    {
      if info.repBlock != 0 {
        RepresentationAdd(info.repBlock, 0 - info.balance);
      }
      w1 := weights;
      RepresentationAdd(h, balance);
    }

    /** What a state block sends becomes pending, what it receives no longer is; it heads its account. */
    method EnterStateRows(h: Id, b: Block, info: AccountInfo, isSend: bool, amount: nat)
      requires b.State? && h != 0 && (b.account in accounts || (h in blocks && b.previous == 0 && blocks[h].block == b))
      requires info.head in frontiers ==> frontiers[info.head] != 0
      modifies this`pending, this`accounts, this`infos, this`frontiers
      ensures pending == if isSend then old(pending)[PendingKey(b.link, h) := PendingInfo(b.account, amount)]
                         else if b.link != 0 then old(pending) - {PendingKey(b.account, b.link)}
                         else old(pending)
      ensures accounts == old(accounts)[b.account := AccountInfo(h, h,
                if b.account in old(accounts) then old(accounts)[b.account].openBlock else h, b.balance, info.blockCount + 1)]
      ensures infos == old(infos) && frontiers == old(frontiers) - {info.head}
    {
      if isSend {
        pending := pending[PendingKey(b.link, h) := PendingInfo(b.account, amount)];
      } else if b.link != 0 {
        pending := pending - {PendingKey(b.account, b.link)};
      }
      ChangeLatest(b.account, h, h, b.balance, info.blockCount + 1, true);
      if info.head in frontiers {
        frontiers := frontiers - {info.head};
      }
    }

    /**
     Offers a block to the ledger.  It is accepted exactly when the ledger with it is sound, its account starts with
     funds, and its signature is the owner's; then it is added and nothing else changes.  Otherwise nothing changes
     at all.
     */
    method Process(h: Id, b: Block, signedBy: set<Id>) returns (code: Code, amount: nat)
      requires Valid() && !Reserved(gen, h) && body(h) == b
      modifies this
      ensures Valid()
      ensures Answered(old(Store()), old(trail), old(weights), Store(), trail, weights, h, b, signedBy, code, amount)
      ensures code == Progress <==> Admissible(old(Store()), old(trail), gen, body, h, b) && Owner(old(trail), b) in signedBy
    {
      AcceptableIffAdmissible(Store(), trail, gen, body, h, b);
      match b
      case Send(_, _, _) => code, amount := ProcessSend(h, b, signedBy);
      case Receive(_, _) => code, amount := ProcessReceive(h, b, signedBy);
      case Open(_, _, _) => code, amount := ProcessOpen(h, b, signedBy);
      case Change(_, _) => code, amount := ProcessChange(h, b, signedBy);
      case State(_, _, _, _, _) => code, amount := ProcessState(h, b, signedBy);
    }

    // -------------------------------------------------------------------------------------------
    // Rolling blocks back
    // -------------------------------------------------------------------------------------------

    /** The block, the one before it and the one before that are stored and linked. */
    ghost predicate Linked(h: Id)
      reads this
    {
      && h in blocks && 0 !in blocks
      && var prev := blocks[h].block.Previous();
         && prev != h
         && (prev != 0 ==>
               && prev in blocks
               && (blocks[prev].block.State? ==> blocks[h].block.State?)
               && var before := blocks[prev].block.Previous();
                  before == 0 || (before in blocks && before != h && before != prev && blocks[before].successor == prev))
    }

    /** The head block's account row is what the history says of it. */
    ghost predicate HeadRow(h: Id, account: Id, info: AccountInfo)
      reads this
    {
      && Linked(h) && h in trail.past && 0 !in trail.past
      && account == trail.past[h].account && account in accounts && info == accounts[account]
      && var p, prev := trail.past[h], blocks[h].block.Previous();
         && info == AccountInfo(h, p.repBlock, p.openBlock, p.balance, p.height)
         && p.height > 0 && p.repBlock in blocks
         && (prev != 0 ==> prev in trail.past && trail.RepAt(prev) in blocks)
    }

    lemma HeadRowHolds(h: Id)
      requires Kept() && h in blocks && blocks[h].successor == 0 && h != gen.hash
      ensures var a := trail.past[h].account;
              a in accounts && HeadRow(h, a, accounts[a])
      ensures trail.Sends(blocks[h].block) && h !in trail.taken ==> Removable(Store(), trail, gen, h)
      ensures !trail.Sends(blocks[h].block) ==> Removable(Store(), trail, gen, h)
    {
      var t, g := Store(), trail;
      assert Chained(t, g, h) && Listed(t, g, h) && Represented(t, g, h);
      assert AccountRow(t, g, g.past[h].account);
      var prev := blocks[h].block.Previous();
      if prev != 0 {
        assert Chained(t, g, prev) && Represented(t, g, prev);
      }
    }

    lemma LegacyHeadIsListed(h: Id)
      requires Kept() && h in blocks && blocks[h].successor == 0
      ensures blocks[h].block.State? <==> h !in frontiers
      ensures !blocks[h].block.State? && trail.past[h].height % BLOCK_INFO_MAX == 0 ==> h in infos
    {
      assert FrontierRow(Store(), trail, h) && InfoRow(Store(), trail, body, h);
    }

    /** Takes a block that is not a state block out of the block, frontier and checkpoint tables. */
    method Unlink(h: Id, account: Id, blockCount: nat)
      requires Linked(h) && !blocks[h].block.State? && blocks[h].block.Previous() != 0
      requires h in frontiers && (blockCount % BLOCK_INFO_MAX == 0 ==> h in infos)
      modifies this`blocks, this`frontiers, this`infos
      ensures blocks == UnlinkedBlocks(old(blocks), h)
      ensures frontiers == (old(frontiers) - {h})[old(blocks)[h].block.Previous() := account]
      ensures infos == if blockCount % BLOCK_INFO_MAX == 0 then old(infos) - {h} else old(infos)
    {
      var prev := blocks[h].block.Previous();
      blocks := blocks - {h};
      frontiers := frontiers - {h};
      frontiers := frontiers[prev := account];
      BlockPut(prev, blocks[prev].block);
      if blockCount % BLOCK_INFO_MAX == 0 {
        infos := infos - {h};
      }
    }

    /** The ledger is whole again after a head block was taken out of every table. */
    lemma DropConcludes(t: Tables, g: Trail, w: map<Id, nat>, h: Id, skew: Id -> int)
      requires Sound(t, g, gen, body) && Supply(t) == GENESIS_AMOUNT && Weighs(t, w, skew)
      requires Removable(t, g, gen, h) && Store() == Dropped(t, g, h) && trail == Forgotten(t, g, h)
      requires WeightsFollowDrop(t, g, w, weights, h)
      ensures Holds(skew) && h !in blocks && Shrunk(g, trail, g.past[h].time)
    {
      DropCompletes(t, g, w, weights, gen, body, h, skew);
    }

    /** A state of the ledger from which the head `h` can be taken away. */
    ghost predicate Droppable(t: Tables, g: Trail, w: map<Id, nat>, h: Id, skew: Id -> int) {
      && Sound(t, g, gen, body) && Supply(t) == GENESIS_AMOUNT && Weighs(t, w, skew) && Small(w)
      && Removable(t, g, gen, h)
    }

    /** The tables and the history are those of the given state without its head `h`. */
    ghost predicate Left(t: Tables, g: Trail, h: Id)
      requires h in t.blocks && h in g.past && g.past[h].height > 0
      reads this
    {
      Store() == Dropped(t, g, h) && trail == Forgotten(t, g, h)
    }

    lemma ReadyToDrop(h: Id, skew: Id -> int)
      requires Holds(skew) && Removable(Store(), trail, gen, h)
      ensures Droppable(Store(), trail, weights, h, skew)
    {
      WeightsAreSmall(skew);
    }

    /** Send and receive blocks change the weight of one representative. */
    lemma OneWeightConcludes(t: Tables, g: Trail, w: map<Id, nat>, h: Id, rep: Id, d: int, skew: Id -> int)
      requires Droppable(t, g, w, h, skew) && Left(t, g, h)
      requires t.blocks[h].block.KeepsRepresentative() && Bumped(w, weights, rep, d)
      requires rep == RepOfBlock(t, g.past[h].repBlock) && d == g.BalanceAt(t.blocks[h].block.Previous()) - g.past[h].balance
      ensures Holds(skew)
    {
      assert Chained(t, g, h);
      OneBumpFollowsDrop(t, g, w, weights, h, rep, d);
      DropConcludes(t, g, w, h, skew);
    }

    lemma WeightsAreSmall(skew: Id -> int)
      requires Holds(skew)
      ensures Small(weights)
    {
      forall r: Id ensures WeightIn(weights, r) < AMOUNT_LIMIT {
        assert WeightIn(weights, r) == Wrap(WeightDue(Store(), r) + skew(r));
      }
    }

    /** Rolls back whatever received the send `h`, until the send is pending again. */
    method RollbackReceivers(h: Id, destination: Id, ghost skew: Id -> int)
      requires Holds(skew) && h in blocks && blocks[h].successor == 0 && h != gen.hash
      requires trail.Sends(blocks[h].block) && Destination(blocks[h].block) == destination
      modifies this
      ensures Holds(skew) && PendingKey(destination, h) in pending
      ensures Shrunk(old(trail), trail, old(trail.past[h].time) + 1)
      ensures h in blocks && blocks[h] == old(blocks[h]) && trail.past[h] == old(trail.past[h])
      ensures OnlyDependentsGone(old(Store()), old(trail), Store(), h)
      ensures forall x | x in old(blocks) :: x in blocks <==> x == h || !Depends(old(Store()), old(trail), h, x)
      ensures PendingKey(destination, h) in old(pending) ==> Store() == old(Store()) && trail == old(trail)
      decreases TimeLeft(trail, h), 1
    {
      ghost var t, g := Store(), trail;
      ghost var later := g.past[h].time + 1;
      while PendingKey(destination, h) !in pending
        invariant Holds(skew) && Shrunk(g, trail, later) && OnlyDependentsGone(t, g, Store(), h)
        invariant PendingKey(destination, h) in t.pending ==> Store() == t && trail == g
        decreases blocks.Keys
      {
        StillHead(t, g, Store(), trail, gen, body, h);
        RollbackLatest(h, destination, skew, t, g);
      }
      StillHead(t, g, Store(), trail, gen, body, h);
      OthersStay(t, g, h, destination);
    }

    /** One turn: the head of the destination's chain goes, which depends on the send. */
    method RollbackLatest(h: Id, destination: Id, ghost skew: Id -> int, ghost t: Tables, ghost g: Trail)
      requires Holds(skew) && h in blocks && trail.Sends(blocks[h].block) && Destination(blocks[h].block) == destination
      requires PendingKey(destination, h) !in pending
      requires Sound(t, g, gen, body) && h in g.past && trail.past[h] == g.past[h]
      requires Shrunk(g, trail, g.past[h].time + 1) && OnlyDependentsGone(t, g, Store(), h)
      modifies this
      ensures Holds(skew) && Shrunk(g, trail, g.past[h].time + 1) && OnlyDependentsGone(t, g, Store(), h)
      ensures blocks.Keys < old(blocks.Keys)
      decreases TimeLeft(trail, h), 0
    {
      ReceiverIsLater(Store(), trail, gen, h);
      ReceiverDepends(Store(), trail, gen, h);
      ghost var t1, g1 := Store(), trail;
      var latest := Latest(destination);
      LatestIsHead(destination, latest);
      Rollback(latest, skew);
      ShrunkTwice(g, g1, trail, g.past[h].time + 1, g1.past[latest].time, g.past[h].time + 1);
      MoreDependentsGone(t, g, t1, g1, Store(), gen, body, g.past[h].time + 1, h, latest);
    }

    /** With the send pending again, everything else that is left does not depend on it. */
    lemma OthersStay(t: Tables, g: Trail, h: Id, destination: Id)
      requires Sound(t, g, gen, body) && Kept() && h in g.past && Shrunk(g, trail, g.past[h].time + 1)
      requires OnlyDependentsGone(t, g, Store(), h) && h in blocks && blocks[h].successor == 0
      requires PendingKey(destination, h) in pending
      ensures forall x | x in t.blocks :: x in blocks <==> x == h || !Depends(t, g, h, x)
    {
      assert PendingRow(Store(), trail, PendingKey(destination, h));
      forall x | x in t.blocks ensures x in blocks <==> x == h || !Depends(t, g, h, x) {
        if x in blocks && x != h {
          OthersDoNotDepend(t, g, Store(), trail, gen, body, g.past[h].time + 1, h, x);
        }
        assert x !in blocks ==> Depends(t, g, h, x);
      }
    }

    /** The head `h` is gone, after whatever received from it: exactly what depends on it is gone. */
    lemma HeadUndone(t: Tables, g: Trail, t1: Tables, g1: Trail, h: Id)
      requires Sound(t, g, gen, body) && Sound(t1, g1, gen, body) && h in g.past && Shrunk(g, g1, g.past[h].time + 1)
      requires OnlyDependentsGone(t, g, t1, h) && Removable(t1, g1, gen, h)
      requires Kept() && Store() == Dropped(t1, g1, h) && trail == Forgotten(t1, g1, h)
      ensures h !in blocks && Shrunk(g, trail, g.past[h].time) && Undone(t, g, Store(), h)
    {
      OneGone(t1, g1, gen, h);
      assert Depends(t1, g1, h, h);
      MoreDependentsGone(t, g, t1, g1, Store(), gen, body, g.past[h].time + 1, h, h);
      UndoneConcludes(t, g, Store(), trail, gen, body, g.past[h].time, h);
    }

    method RollbackSend(h: Id, ghost skew: Id -> int)
      requires Holds(skew) && h in blocks && blocks[h].successor == 0 && h != gen.hash && blocks[h].block.Send?
      modifies this
      ensures Holds(skew) && h !in blocks && Shrunk(old(trail), trail, old(trail.past[h].time))
      ensures Undone(old(Store()), old(trail), Store(), h)
      ensures old(Removable(Store(), trail, gen, h)) ==> Left(old(Store()), old(trail), h)
      decreases TimeLeft(trail, h), 2
    {
      var b := blocks[h].block;
      ghost var t, g := Store(), trail;
      assert PendingRow(t, g, PendingKey(b.destination, h));
      RollbackReceivers(h, b.destination, skew);
      ghost var t1, g1 := Store(), trail;
      assert PendingRow(Store(), trail, PendingKey(b.destination, h));
      HeadRowHolds(h);
      DropSend(h, b, skew);
      HeadUndone(t, g, t1, g1, h);
    }

    method DropSend(h: Id, b: Block, ghost skew: Id -> int)
      requires Holds(skew) && Removable(Store(), trail, gen, h) && blocks[h].block == b && b.Send?
      modifies this
      ensures Holds(skew) && Store() == Dropped(old(Store()), old(trail), h) && trail == Forgotten(old(Store()), old(trail), h)
    {
      ghost var t, g, w := Store(), trail, weights;
      HeadRowHolds(h);
      LegacyHeadIsListed(h);
      ReadyToDrop(h, skew);
      assert PendingRow(t, g, PendingKey(b.destination, h)) && Valued(t, g, gen, h) && Chained(t, g, h);
      var sent := pending[PendingKey(b.destination, h)];
      var representative := Representative(h);
      var balance := Balance(b.previous);
      LeaveSend(h, b, sent, accounts[sent.source], representative, balance);
      OneWeightConcludes(t, g, w, h, RepOfBlock(t, representative), sent.amount, skew);
    }

    method LeaveSend(h: Id, b: Block, sent: PendingInfo, info: AccountInfo, representative: Id, balance: nat)
      requires HeadRow(h, sent.source, info) && b == blocks[h].block && b.Send? && b.previous != 0
      requires PendingKey(b.destination, h) in pending && h in frontiers
      requires info.blockCount % BLOCK_INFO_MAX == 0 ==> h in infos
      requires representative in blocks && balance == trail.BalanceAt(b.previous) && info.repBlock == trail.RepAt(b.previous)
      requires info.openBlock == trail.OpenAt(b.previous)
      modifies this
      ensures Store() == Dropped(old(Store()), old(trail), h) && trail == Forgotten(old(Store()), old(trail), h)
      ensures Bumped(old(weights), weights, RepOfBlock(old(Store()), representative), sent.amount)
    {
      ghost var t := Store();
      pending := pending - {PendingKey(b.destination, h)};
      RepresentationAdd(representative, sent.amount);
      ChangeLatest(sent.source, b.previous, info.repBlock, balance, info.blockCount - 1, false);
      Unlink(h, sent.source, info.blockCount);
      trail := Forgotten(t, trail, h);
    }

    /** What a receiving block took comes back: its source, the source's account and the amount. */
    lemma SourceMeans(h: Id)
      requires Kept() && h in blocks && h != gen.hash && !trail.Sends(blocks[h].block) && trail.Source(blocks[h].block) != 0
      ensures var s := trail.Source(blocks[h].block);
              && s in blocks && s in trail.past && trail.Sends(blocks[s].block)
              && Moved(Store(), trail, gen, s) == trail.Sent(blocks[s].block)
              && trail.past[h].balance == trail.BalanceAt(blocks[h].block.Previous()) + trail.Sent(blocks[s].block)
    {
      assert Valued(Store(), trail, gen, h);
      assert Valued(Store(), trail, gen, trail.Source(blocks[h].block));
    }

    /** The pending entry a receive or open block gives back. */
    method TakenFrom(h: Id, source: Id) returns (taken: PendingInfo)
      requires Kept() && h in blocks && h != gen.hash && (blocks[h].block.Receive? || blocks[h].block.Open?)
      requires source == blocks[h].block.source
      ensures source != 0 && source in blocks && source in trail.past && trail.Sends(blocks[source].block)
      ensures taken == PendingInfo(trail.past[source].account, trail.Sent(blocks[source].block))
      ensures trail.past[h].balance == trail.BalanceAt(blocks[h].block.Previous()) + taken.amount
    {
      assert Valued(Store(), trail, gen, h);
      SourceMeans(h);
      var amount := Amount(source);
      var account := AccountOf(source);
      taken := PendingInfo(account, amount);
    }

    /** What is known of a receive block that is to be rolled back. */
    ghost predicate ReceiveFound(h: Id, b: Block, account: Id, representative: Id, current: Id, balance: nat, taken: PendingInfo)
      reads this
    {
      && account in accounts && HeadRow(h, account, accounts[account]) && b == blocks[h].block && b.Receive?
      && b.previous != 0 && h in frontiers && (accounts[account].blockCount % BLOCK_INFO_MAX == 0 ==> h in infos)
      && accounts[account].openBlock == trail.OpenAt(b.previous) && representative == trail.RepAt(b.previous)
      && current in blocks && current == trail.past[h].repBlock
      && b.source != 0 && b.source in blocks && b.source in trail.past && trail.Sends(blocks[b.source].block)
      && taken == PendingInfo(trail.past[b.source].account, trail.Sent(blocks[b.source].block))
      && balance == trail.BalanceAt(b.previous) && trail.past[h].balance == balance + taken.amount
    }

    method LookUpReceive(h: Id, b: Block) returns (representative: Id, taken: PendingInfo, destination: Id, current: Id, balance: nat)
      requires Kept() && Removable(Store(), trail, gen, h) && blocks[h].block == b && b.Receive?
      ensures ReceiveFound(h, b, destination, representative, current, balance, taken)
    {
      HeadRowHolds(h);
      LegacyHeadIsListed(h);
      assert Chained(Store(), trail, h);
      representative := Representative(b.previous);
      taken := TakenFrom(h, b.source);
      destination := AccountOf(h);
      current := Representative(h);
      balance := Balance(b.previous);
    }

    method DropReceive(h: Id, b: Block, ghost skew: Id -> int)
      requires Holds(skew) && Removable(Store(), trail, gen, h) && blocks[h].block == b && b.Receive?
      modifies this
      ensures Holds(skew) && Store() == Dropped(old(Store()), old(trail), h) && trail == Forgotten(old(Store()), old(trail), h)
    {
      ReadyToDrop(h, skew);
      var representative, taken, destination, current, balance := LookUpReceive(h, b);
      ghost var t, g, w := Store(), trail, weights;
      LeaveReceive(h, b, destination, representative, current, balance, taken);
      OneWeightConcludes(t, g, w, h, RepOfBlock(t, current), -(taken.amount as int), skew);
    }

    method LeaveReceive(h: Id, b: Block, account: Id, representative: Id, current: Id, balance: nat, taken: PendingInfo)
      requires ReceiveFound(h, b, account, representative, current, balance, taken)
      modifies this
      ensures Left(old(Store()), old(trail), h)
      ensures Bumped(old(weights), weights, RepOfBlock(old(Store()), current), -(taken.amount as int))
    {
      ghost var t := Store();
      var blockCount := accounts[account].blockCount;
      RepresentationAdd(current, 0 - taken.amount);
      ChangeLatest(account, b.previous, representative, balance, blockCount - 1, false);
      Unlink(h, account, blockCount);
      pending := pending[PendingKey(account, b.source) := taken];
      trail := Forgotten(t, trail, h);
    }

    /** What is known of an open block that is to be rolled back. */
    ghost predicate OpenFound(h: Id, b: Block, account: Id, current: Id, taken: PendingInfo)
      reads this
    {
      && account in accounts && HeadRow(h, account, accounts[account]) && b == blocks[h].block && b.Open?
      && h in frontiers && accounts[account].blockCount == 1 && current in blocks && current == trail.past[h].repBlock
      && b.source != 0 && b.source in blocks && b.source in trail.past && trail.Sends(blocks[b.source].block)
      && taken == PendingInfo(trail.past[b.source].account, trail.Sent(blocks[b.source].block))
      && trail.past[h].balance == taken.amount
    }

    method LookUpOpen(h: Id, b: Block) returns (taken: PendingInfo, destination: Id, current: Id)
      requires Kept() && Removable(Store(), trail, gen, h) && blocks[h].block == b && b.Open?
      ensures OpenFound(h, b, destination, current, taken)
    {
      HeadRowHolds(h);
      LegacyHeadIsListed(h);
      assert Chained(Store(), trail, h);
      taken := TakenFrom(h, b.source);
      destination := AccountOf(h);
      current := Representative(h);
    }

    method DropOpen(h: Id, b: Block, ghost skew: Id -> int)
      requires Holds(skew) && Removable(Store(), trail, gen, h) && blocks[h].block == b && b.Open?
      modifies this
      ensures Holds(skew) && Store() == Dropped(old(Store()), old(trail), h) && trail == Forgotten(old(Store()), old(trail), h)
    {
      ReadyToDrop(h, skew);
      var taken, destination, current := LookUpOpen(h, b);
      ghost var t, g, w := Store(), trail, weights;
      LeaveOpen(h, b, destination, current, taken);
      OpenConcludes(t, g, w, h, RepOfBlock(t, current), taken.amount, skew);
    }

    lemma OpenConcludes(t: Tables, g: Trail, w: map<Id, nat>, h: Id, rep: Id, amount: nat, skew: Id -> int)
      requires Droppable(t, g, w, h, skew) && Left(t, g, h) && t.blocks[h].block.Open?
      requires rep == RepOfBlock(t, g.past[h].repBlock) && g.past[h].balance == amount
      requires Bumped(w, weights, rep, -(amount as int))
      ensures Holds(skew)
    {
      ghost var loss: int := -(amount as int);
      BumpedStaysSmall(w, weights, rep, loss);
      NoBump(weights, 0);
      assert Chained(t, g, h);
      TakeFirstConcludes(t, g, w, weights, h, rep, loss, 0, 0, skew);
    }

    method LeaveOpen(h: Id, b: Block, account: Id, current: Id, taken: PendingInfo)
      requires OpenFound(h, b, account, current, taken)
      modifies this
      ensures Left(old(Store()), old(trail), h)
      ensures Bumped(old(weights), weights, RepOfBlock(old(Store()), current), -(taken.amount as int))
    {
      ghost var t := Store();
      RepresentationAdd(current, 0 - taken.amount);
      ChangeLatest(account, 0, 0, 0, 0, false);
      blocks := blocks - {h};
      pending := pending[PendingKey(account, b.source) := taken];
      frontiers := frontiers - {h};
      trail := Forgotten(t, trail, h);
    }

    /** A block that named a representative gives its weight back; open and state blocks take first. */
    lemma TakeFirstConcludes(t: Tables, g: Trail, w: map<Id, nat>, w1: map<Id, nat>, h: Id,
                             loser: Id, loss: int, gainer: Id, gain: int, skew: Id -> int)
      requires Droppable(t, g, w, h, skew) && Left(t, g, h)
      requires Taking(t, g, h, loser, loss, gainer, gain)
      requires Bumped(w, w1, loser, loss) && Bumped(w1, weights, gainer, gain)
      ensures Holds(skew)
    {
      TakeThenGive(t, g, w, w1, weights, h, loser, loss, gainer, gain);
      DropConcludes(t, g, w, h, skew);
    }

    /** Change blocks give first. */
    lemma GiveFirstConcludes(t: Tables, g: Trail, w: map<Id, nat>, w1: map<Id, nat>, h: Id,
                             loser: Id, loss: int, gainer: Id, gain: int, skew: Id -> int)
      requires Droppable(t, g, w, h, skew) && Left(t, g, h)
      requires Taking(t, g, h, loser, loss, gainer, gain)
      requires Bumped(w, w1, gainer, gain) && Bumped(w1, weights, loser, loss)
      ensures Holds(skew)
    {
      GiveThenTake(t, g, w, w1, weights, h, loser, loss, gainer, gain);
      DropConcludes(t, g, w, h, skew);
    }

    /** What is known of a change block that is to be rolled back. */
    ghost predicate ChangeFound(h: Id, b: Block, account: Id, representative: Id, balance: nat)
      reads this
    {
      && account in accounts && HeadRow(h, account, accounts[account]) && b == blocks[h].block && b.Change?
      && b.previous != 0 && h in frontiers && (accounts[account].blockCount % BLOCK_INFO_MAX == 0 ==> h in infos)
      && representative in blocks && representative == trail.RepAt(b.previous)
      && balance == trail.BalanceAt(b.previous) == accounts[account].balance
      && accounts[account].openBlock == trail.OpenAt(b.previous)
      && trail.past[h].repBlock == h
    }

    method LookUpChange(h: Id, b: Block) returns (account: Id, representative: Id, balance: nat)
      requires Kept() && Removable(Store(), trail, gen, h) && blocks[h].block == b && b.Change?
      ensures ChangeFound(h, b, account, representative, balance)
    {
      HeadRowHolds(h);
      LegacyHeadIsListed(h);
      assert Valued(Store(), trail, gen, h) && Chained(Store(), trail, h);
      representative := Representative(b.previous);
      account := AccountOf(b.previous);
      balance := Balance(b.previous);
    }

    method DropChange(h: Id, b: Block, ghost skew: Id -> int)
      requires Holds(skew) && Removable(Store(), trail, gen, h) && blocks[h].block == b && b.Change?
      modifies this
      ensures Holds(skew) && Store() == Dropped(old(Store()), old(trail), h) && trail == Forgotten(old(Store()), old(trail), h)
    {
      ReadyToDrop(h, skew);
      var account, representative, balance := LookUpChange(h, b);
      ghost var t, g, w := Store(), trail, weights;
      ghost var w1 := LeaveChange(h, b, account, representative, balance);
      GiveFirstConcludes(t, g, w, w1, h, b.representative, -(balance as int), RepOfBlock(t, representative), balance, skew);
    }

    method LeaveChange(h: Id, b: Block, account: Id, representative: Id, balance: nat) returns (ghost w1: map<Id, nat>)
      requires ChangeFound(h, b, account, representative, balance)
      modifies this
      ensures Left(old(Store()), old(trail), h)
      ensures Bumped(old(weights), w1, RepOfBlock(old(Store()), representative), balance)
      ensures Bumped(w1, weights, b.representative, -(balance as int))
    {
      ghost var t := Store();
      var info := accounts[account];
      RepresentationAdd(representative, balance);
      w1 := weights;
      RepresentationAdd(h, 0 - balance);
      ChangeLatest(account, b.previous, representative, info.balance, info.blockCount - 1, false);
      Unlink(h, account, info.blockCount);
      trail := Forgotten(t, trail, h);
    }

    /** Takes the head `h` of a chain away, and first whatever received what it sent. */
    method RollbackHead(h: Id, ghost skew: Id -> int)
      requires Holds(skew) && h in blocks && blocks[h].successor == 0 && h != gen.hash
      modifies this
      ensures Holds(skew) && h !in blocks && Shrunk(old(trail), trail, old(trail.past[h].time))
      ensures Undone(old(Store()), old(trail), Store(), h)
      ensures old(Removable(Store(), trail, gen, h)) ==> Left(old(Store()), old(trail), h)
      decreases TimeLeft(trail, h), 4
    {
      ghost var t, g := Store(), trail;
      HeadRowHolds(h);
      var b := blocks[h].block;
      match b
      case Send(_, _, _) => RollbackSend(h, skew);
      case Receive(_, _) => DropReceive(h, b, skew); HeadUndone(t, g, t, g, h);
      case Open(_, _, _) => DropOpen(h, b, skew); HeadUndone(t, g, t, g, h);
      case Change(_, _) => DropChange(h, b, skew); HeadUndone(t, g, t, g, h);
      case State(_, _, _, _, _) => RollbackState(h, b, skew);
    }

    method RollbackState(h: Id, b: Block, ghost skew: Id -> int)
      requires Holds(skew) && h in blocks && blocks[h].successor == 0 && h != gen.hash && blocks[h].block == b && b.State?
      modifies this
      ensures Holds(skew) && h !in blocks && Shrunk(old(trail), trail, old(trail.past[h].time))
      ensures Undone(old(Store()), old(trail), Store(), h)
      ensures old(Removable(Store(), trail, gen, h)) ==> Left(old(Store()), old(trail), h)
      decreases TimeLeft(trail, h), 3
    {
      ghost var t, g := Store(), trail;
      var representative, balance := LookUpState(h, b);
      var isSend := b.balance < balance;
      ghost var loss: int := -(b.balance as int);
      ghost var gainer := RepOfBlock(t, representative);
      ghost var early := TakeStateWeights(h, b, representative, balance, skew, loss, gainer);
      RollbackStateReceivers(h, b, isSend, early);
      ghost var t1, g1 := Store(), trail;
      DropState(h, b, representative, balance, isSend, skew, early, loss, gainer);
      HeadUndone(t, g, t1, g1, h);
    }

    /** What rolling a state block back looks up first. */
    method LookUpState(h: Id, b: Block) returns (representative: Id, balance: nat)
      requires Kept() && h in blocks && h != gen.hash && blocks[h].block == b && b.State?
      ensures representative == trail.RepAt(b.previous) && balance == trail.BalanceAt(b.previous)
      ensures if b.previous == 0 then representative == 0 else representative in blocks
      ensures trail.past[h].repBlock == h && trail.past[h].balance == b.balance
    {
      assert Chained(Store(), trail, h) && Valued(Store(), trail, gen, h);
      BalanceFits(0);
      representative := 0;
      if b.previous != 0 {
        representative := Representative(b.previous);
      }
      balance := Balance(b.previous);
    }

    /** Whatever received from a sending state block goes; the block itself is then ready to go. */
    method RollbackStateReceivers(h: Id, b: Block, isSend: bool, ghost skew: Id -> int)
      requires Holds(skew) && h in blocks && blocks[h].successor == 0 && h != gen.hash && blocks[h].block == b && b.State?
      requires isSend == trail.Sends(b)
      modifies this
      ensures Holds(skew) && Removable(Store(), trail, gen, h) && blocks[h].block == b && trail.Sends(b) == isSend
      ensures Shrunk(old(trail), trail, old(trail.past[h].time) + 1) && OnlyDependentsGone(old(Store()), old(trail), Store(), h)
      ensures trail.RepAt(b.previous) == old(trail.RepAt(b.previous)) && trail.BalanceAt(b.previous) == old(trail.BalanceAt(b.previous))
      ensures RepOfBlock(Store(), trail.RepAt(b.previous)) == RepOfBlock(old(Store()), old(trail.RepAt(b.previous)))
      ensures old(Removable(Store(), trail, gen, h)) ==> Store() == old(Store()) && trail == old(trail)
      decreases TimeLeft(trail, h), 2
    {
      ghost var t, g := Store(), trail;
      assert PendingRow(t, g, PendingKey(b.link, h));
      if isSend {
        RollbackReceivers(h, b.link, skew);
        StillHead(t, g, Store(), trail, gen, body, h);
        assert PendingRow(Store(), trail, PendingKey(b.link, h));
      }
      HeadRowHolds(h);
    }

    /** A state block's share of the weights goes back first, before anything that received from it. */
    method TakeStateWeights(h: Id, b: Block, representative: Id, balance: nat, ghost skew: Id -> int,
                            ghost loss: int, ghost gainer: Id)
      returns (ghost early: Id -> int)
      requires Holds(skew) && h in blocks && b == blocks[h].block && b.State?
      requires representative == trail.RepAt(b.previous) && balance == trail.BalanceAt(b.previous)
      requires if b.previous == 0 then representative == 0 else representative in blocks
      requires trail.past[h].repBlock == h && trail.past[h].balance == b.balance
      requires loss == 0 - b.balance && gainer == RepOfBlock(Store(), representative)
      modifies this`weights
      ensures Holds(early)
      ensures early == SkewedBy(skew, b.representative, loss, gainer, balance)
    {
      ghost var t, g, w := Store(), trail, weights;
      WeightsAreSmall(skew);
      BalanceFits(0);
      ghost var w1 := MoveStateWeights(h, b, representative, balance);
      early := SkewedBy(skew, b.representative, loss, gainer, balance);
      TakeThenGive(t, g, w, w1, weights, h, b.representative, loss, gainer, balance);
      EarlyWeights(t, g, w, weights, h, skew, b.representative, loss, gainer, balance);
    }

    method MoveStateWeights(h: Id, b: Block, representative: Id, balance: nat) returns (ghost w1: map<Id, nat>)
      requires h in blocks && b == blocks[h].block && b.State? && Small(weights) && 0 !in blocks
      requires if representative == 0 then balance == 0 else representative in blocks
      modifies this`weights
      ensures Bumped(old(weights), w1, b.representative, -(b.balance as int))
      ensures Bumped(w1, weights, RepOfBlock(Store(), representative), balance)
    {
      ghost var w := weights;
      RepresentationAdd(h, 0 - b.balance);
      w1 := weights;
      BumpedStaysSmall(w, w1, b.representative, -(b.balance as int));
      if representative != 0 {
        RepresentationAdd(representative, balance);
      } else {
        NoBump(w1, 0);
      }
    }

    method DropState(h: Id, b: Block, representative: Id, balance: nat, isSend: bool, ghost skew: Id -> int,
                     ghost early: Id -> int, ghost loss: int, ghost gainer: Id)
      requires Removable(Store(), trail, gen, h) && blocks[h].block == b && b.State?
      requires representative == trail.RepAt(b.previous) && balance == trail.BalanceAt(b.previous)
      requires isSend == trail.Sends(b)
      requires Holds(early)
      requires early == SkewedBy(skew, b.representative, loss, gainer, balance)
      requires loss == 0 - b.balance && gainer == RepOfBlock(Store(), representative)
      modifies this
      ensures Holds(skew) && Store() == Dropped(old(Store()), old(trail), h) && trail == Forgotten(old(Store()), old(trail), h)
    {
      HeadRowHolds(h);
      LegacyHeadIsListed(h);
      assert Valued(Store(), trail, gen, h) && Chained(Store(), trail, h);
      var taken := TakenByState(h, b, balance, isSend);
      ghost var t, g := Store(), trail;
      LeaveState(h, b, accounts[b.account], representative, balance, isSend, taken);
      EarlyWeightsConclude(t, g, h, b.representative, loss, gainer, balance, skew, early);
    }

    /** The pending entry a receiving state block gives back. */
    method TakenByState(h: Id, b: Block, balance: nat, isSend: bool) returns (taken: PendingInfo)
      requires Kept() && h in blocks && h != gen.hash && blocks[h].block == b && b.State?
      requires balance == trail.BalanceAt(b.previous) && isSend == trail.Sends(b)
      ensures !isSend && b.link != 0 ==>
                && b.link in blocks && b.link in trail.past && trail.Sends(blocks[b.link].block)
                && taken == PendingInfo(trail.past[b.link].account, trail.Sent(blocks[b.link].block))
    {
      taken := PendingInfo(0, 0);
      if !isSend && b.link != 0 {
        SourceMeans(h);
        assert Valued(Store(), trail, gen, h);
        var source := AccountOf(b.link);
        taken := PendingInfo(source, b.balance - balance);
      }
    }

    lemma EarlyWeightsConclude(t: Tables, g: Trail, h: Id, loser: Id, loss: int, gainer: Id, gain: int, skew: Id -> int,
                               early: Id -> int)
      requires Sound(t, g, gen, body) && Supply(t) == GENESIS_AMOUNT && Removable(t, g, gen, h)
      requires Taking(t, g, h, loser, loss, gainer, gain)
      requires Weighs(t, weights, early) && early == SkewedBy(skew, loser, loss, gainer, gain)
      requires Store() == Dropped(t, g, h) && trail == Forgotten(t, g, h)
      ensures Holds(skew) && h !in blocks && Shrunk(g, trail, g.past[h].time)
    {
      DropKeepsSound(t, g, gen, body, h);
      DropKeepsSupply(t, g, gen, h);
      LateWeights(t, g, gen, weights, h, skew, loser, loss, gainer, gain);
    }

    method LeaveState(h: Id, b: Block, info: AccountInfo, representative: Id, balance: nat, isSend: bool, taken: PendingInfo)
      requires b.State? && HeadRow(h, b.account, info) && b == blocks[h].block && h !in frontiers
      requires representative == trail.RepAt(b.previous) && balance == trail.BalanceAt(b.previous)
      requires b.previous == 0 ==> info.blockCount == 1
      requires b.previous != 0 ==> info.openBlock == trail.OpenAt(b.previous)
      requires isSend == trail.Sends(b)
      requires !isSend && b.link != 0 ==>
                 && b.link in blocks && b.link in trail.past && trail.Sends(blocks[b.link].block)
                 && taken == PendingInfo(trail.past[b.link].account, trail.Sent(blocks[b.link].block))
      modifies this`pending, this`accounts, this`infos, this`blocks, this`frontiers, this`trail
      ensures Store() == Dropped(old(Store()), old(trail), h) && trail == Forgotten(old(Store()), old(trail), h)
    {
      ghost var t := Store();
      if isSend {
        pending := pending - {PendingKey(b.link, h)};
      } else if b.link != 0 {
        pending := pending[PendingKey(b.account, b.link) := taken];
      }
      ChangeLatest(b.account, b.previous, representative, balance, info.blockCount - 1, false);
      UnlinkState(h, b);
      trail := Forgotten(t, trail, h);
    }

    method UnlinkState(h: Id, b: Block)
      requires Linked(h) && b == blocks[h].block && b.State? && h !in frontiers
      modifies this`blocks, this`frontiers
      ensures blocks == UnlinkedBlocks(old(blocks), h)
      ensures frontiers == if b.previous in old(blocks) && !old(blocks)[b.previous].block.State?
                           then (old(frontiers) - {h})[b.previous := b.account] else old(frontiers) - {h}
    {
      assert frontiers == frontiers - {h};
      if b.previous in blocks {
        BlockPut(b.previous, blocks[b.previous].block);
        if !blocks[b.previous].block.State? {
          frontiers := frontiers[b.previous := b.account];
        }
      }
      blocks := blocks - {h};
    }

    /** Rolls back the chain of `h` until `h` is gone.  Exactly the blocks that depend on `h` go with it. */
    method Rollback(h: Id, ghost skew: Id -> int)
      requires Holds(skew) && h in blocks && h != gen.hash
      modifies this
      ensures Holds(skew) && h !in blocks && Shrunk(old(trail), trail, old(trail.past[h].time))
      ensures Undone(old(Store()), old(trail), Store(), h)
      ensures old(Removable(Store(), trail, gen, h)) ==> Left(old(Store()), old(trail), h)
      decreases TimeLeft(trail, h), 6
    {
      var account := AccountOf(h);
      ghost var t, g := Store(), trail;
      while h in blocks
        invariant Holds(skew) && Shrunk(g, trail, g.past[h].time) && OnlyDependentsGone(t, g, Store(), h)
        invariant Removable(t, g, gen, h) ==> if h in blocks then Store() == t && trail == g else Left(t, g, h)
        decreases blocks.Keys
      {
        RollbackOne(h, account, skew, t, g);
      }
      UndoneConcludes(t, g, Store(), trail, gen, body, g.past[h].time, h);
    }

    /** One turn: the head of the chain goes, which depends on `h`. */
    method RollbackOne(h: Id, account: Id, ghost skew: Id -> int, ghost t: Tables, ghost g: Trail)
      requires Holds(skew) && h in blocks && h != gen.hash && account == trail.past[h].account
      requires Sound(t, g, gen, body) && h in g.past && trail.past[h] == g.past[h]
      requires Shrunk(g, trail, g.past[h].time) && OnlyDependentsGone(t, g, Store(), h)
      modifies this
      ensures Holds(skew) && Shrunk(g, trail, g.past[h].time) && OnlyDependentsGone(t, g, Store(), h)
      ensures blocks.Keys < old(blocks.Keys)
      ensures old(Removable(Store(), trail, gen, h)) ==> Left(old(Store()), old(trail), h)
      decreases TimeLeft(trail, h), 5
    {
      assert Listed(Store(), trail, h);
      HeadIsLatest(Store(), trail, gen, h);
      HeadDepends(Store(), trail, gen, h);
      assert Valued(Store(), trail, gen, gen.hash) && Valued(Store(), trail, gen, h);
      ghost var t1, g1 := Store(), trail;
      var head := accounts[account].head;
      RollbackHead(head, skew);
      ShrunkTwice(g, g1, trail, g.past[h].time, g1.past[head].time, g.past[h].time);
      MoreDependentsGone(t, g, t1, g1, Store(), gen, body, g.past[h].time, h, head);
    }

    // -------------------------------------------------------------------------------------------
    // Whole runs
    // -------------------------------------------------------------------------------------------

    /** The voting weight of a representative is the sum of the balances that name it: never more, never less. */
    lemma WeightIsExact(r: Id)
      requires Valid()
      ensures WeightIn(weights, r) == WeightDue(Store(), r) <= GENESIS_AMOUNT
    {
      WeightsAreExact(Store(), weights, r);
    }

    /** The same blocks are there as in an earlier sound state. */
    lemma SameKeysSameBlocks(t: Tables, g: Trail)
      requires Sound(t, g, gen, body) && Kept() && blocks.Keys == t.blocks.Keys
      ensures SameBlocks(t, Store())
    {
      forall h | h in t.blocks ensures t.blocks[h].block == blocks[h].block {
        assert InfoRow(t, g, body, h) && InfoRow(Store(), trail, body, h);
      }
    }

    /** Rolling back the block just accepted restores every table that decides anything, and every weight. */
    method ProcessAndRollback(h: Id, b: Block, signedBy: set<Id>) returns (code: Code)
      requires Valid() && !Reserved(gen, h) && body(h) == b
      modifies this
      ensures Valid()
      ensures blocks == old(blocks) && accounts == old(accounts) && pending == old(pending) && frontiers == old(frontiers)
      ensures code == Progress <==> Acceptable(old(Store()), old(trail), h, b) && Owner(old(trail), b) in signedBy
      ensures infos == old(infos) <==> !(code == Progress && LeavesCheckpoint(old(Store()), b))
      ensures forall r: Id :: WeightIn(weights, r) == WeightIn(old(weights), r)
    {
      ghost var t, g, w := Store(), trail, weights;
      var amount;
      code, amount := Process(h, b, signedBy);
      if code == Progress {
        RecordedIsNewest(t, g, gen, h, b);
        AddedIsRemovable(t, g, gen, h, b);
        CheckpointsRestoredIff(t, g, gen, body, h, b);
        ghost var g1 := trail;
        Rollback(h, NoSkew());
        OnlyNewestIsGone(g, g1, trail, h);
        Restored(t, g, w);
      }
    }

    /** A ledger with the blocks of an earlier valid state is in that state. */
    lemma Restored(t: Tables, g: Trail, w: map<Id, nat>)
      requires Sound(t, g, gen, body) && Weighs(t, w, NoSkew()) && Valid() && trail.past.Keys == g.past.Keys
      ensures t.blocks == blocks && t.accounts == accounts && t.pending == pending && t.frontiers == frontiers
      ensures forall x: Id | !body(x).State? :: SameCheckpoint(t, Store(), x)
      ensures forall r: Id :: WeightIn(weights, r) == WeightIn(w, r)
    {
      SameKeysSameBlocks(t, g);
      TablesAreDetermined(t, g, Store(), trail, gen, body);
      forall r: Id ensures WeightIn(weights, r) == WeightIn(w, r) {
        WeightsAreDetermined(t, g, w, Store(), trail, weights, gen, body, r);
      }
    }
  }
}

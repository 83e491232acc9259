/** What the tables of a sound ledger say, block by block and table by table. */
module LedgerInvariant {
  import opened LedgerTypes
  import opened MapTotal

  /** The block sits in its account's chain. */
  ghost predicate Chained(t: Tables, g: Trail, h: Id)
    requires h in t.blocks && h in g.past
  {
    var b, p, s := t.blocks[h].block, g.past[h], t.blocks[h].successor;
    var prev := b.Previous();
    && p.account != 0
    && p.time < g.clock
    && p.height == g.HeightAt(prev) + 1
    && p.openBlock == (if prev == 0 then h else g.OpenAt(prev))
    && p.repBlock == (if b.KeepsRepresentative() then g.RepAt(prev) else h)
    && (b.Open? || b.State? ==> p.account == b.account)
    && (prev == 0 ==> b.Open? || b.State?)
    && (prev != 0 ==>
          && prev in t.blocks && prev in g.past
          && g.past[prev].account == p.account
          && g.past[prev].time < p.time
          && t.blocks[prev].successor == h
          && (t.blocks[prev].block.State? ==> b.State?))
    && (s != 0 ==> s in t.blocks && t.blocks[s].block.Previous() == h)
  }

  /** The block that names the representative is an earlier or equal block of the same account. */
  ghost predicate Represented(t: Tables, g: Trail, h: Id)
    requires h in g.past
  {
    var p := g.past[h];
    && p.repBlock in t.blocks && p.repBlock in g.past
    && !t.blocks[p.repBlock].block.KeepsRepresentative()
    && g.past[p.repBlock].account == p.account
    && g.past[p.repBlock].time <= p.time
  }

  /** The balance after the block follows from the balance before it and from what it sends or receives. */
  ghost predicate Valued(t: Tables, g: Trail, gen: Genesis, h: Id)
    requires h in t.blocks && h in g.past
  {
    var b, p := t.blocks[h].block, g.past[h];
    var before, source := g.BalanceAt(b.Previous()), g.Source(b);
    && p.balance < AMOUNT_LIMIT
    && (b.State? ==> p.balance == b.balance)
    && (p.time == 0 <==> h == gen.hash)
    && if h == gen.hash then p.balance == GENESIS_AMOUNT && b == gen.Block()
       else if g.Sends(b) then p.balance == b.balance <= before
       else if source != 0 then
         && source in g.taken && g.taken[source] == h
         && source in t.blocks && source in g.past
         && g.past[source].time < p.time
         && g.Sends(t.blocks[source].block)
         && Destination(t.blocks[source].block) == p.account
         && p.balance == before + g.Sent(t.blocks[source].block)
       else p.balance == before && !b.Open? && !b.Receive?
  }

  /** Every record of a received send names a receiving block that is still there. */
  ghost predicate TakenRow(t: Tables, g: Trail, gen: Genesis, s: Id)
    requires s in g.taken
  {
    g.taken[s] in t.blocks && g.taken[s] != gen.hash && s != 0 && g.Source(t.blocks[g.taken[s]].block) == s
  }

  /**
   Numbers that the code uses for something else than a stored block: "none", the starting value of the
   successor walk, and the source of the genesis block.
   */
  predicate Reserved(gen: Genesis, h: Id) {
    h == 0 || h == 1 || h == gen.account
  }

  ghost predicate History(t: Tables, g: Trail, gen: Genesis) {
    && t.blocks.Keys == g.past.Keys
    && (forall h | h in t.blocks :: !Reserved(gen, h))
    && gen.hash in t.blocks
    && gen.account != 0
    && (forall h {:trigger Chained(t, g, h)} | h in t.blocks :: Chained(t, g, h))
    && (forall h {:trigger Represented(t, g, h)} | h in t.blocks :: Represented(t, g, h))
    && (forall h {:trigger Valued(t, g, gen, h)} | h in t.blocks :: Valued(t, g, gen, h))
    && (forall s {:trigger TakenRow(t, g, gen, s)} | s in g.taken :: TakenRow(t, g, gen, s))
  }

  /** The account table lists each chain's head and the state after it. */
  ghost predicate AccountRow(t: Tables, g: Trail, a: Id)
    requires a in t.accounts
  {
    var info := t.accounts[a];
    && info.head in t.blocks && info.head in g.past
    && t.blocks[info.head].successor == 0
    && var p := g.past[info.head];
       info == AccountInfo(info.head, p.repBlock, p.openBlock, p.balance, p.height) && p.account == a
  }

  /** Every block's account is listed, under the one block without a successor. */
  ghost predicate Listed(t: Tables, g: Trail, h: Id)
    requires h in t.blocks
  {
    && h in g.past
    && g.past[h].account in t.accounts
    && (t.blocks[h].successor == 0 ==> t.accounts[g.past[h].account].head == h)
  }

  ghost predicate AccountsMatch(t: Tables, g: Trail) {
    && (forall a {:trigger AccountRow(t, g, a)} | a in t.accounts :: AccountRow(t, g, a))
    && (forall h {:trigger Listed(t, g, h)} | h in t.blocks :: Listed(t, g, h))
  }

  /** A send nobody has received yet, under the key it is to be listed by. */
  ghost predicate Unreceived(t: Tables, g: Trail, key: PendingKey) {
    && key.hash in t.blocks && key.hash in g.past && key.hash !in g.taken
    && g.Sends(t.blocks[key.hash].block)
    && Destination(t.blocks[key.hash].block) == key.account
  }

  ghost predicate PendingRow(t: Tables, g: Trail, key: PendingKey) {
    && (key in t.pending <==> Unreceived(t, g, key))
    && (key in t.pending ==>
          t.pending[key] == PendingInfo(g.past[key.hash].account, g.Sent(t.blocks[key.hash].block)))
  }

  /** The pending table lists exactly the sends nobody has received. */
  ghost predicate PendingMatch(t: Tables, g: Trail) {
    forall key: PendingKey {:trigger PendingRow(t, g, key)} :: PendingRow(t, g, key)
  }

  ghost predicate FrontierRow(t: Tables, g: Trail, h: Id) {
    && (h in t.frontiers <==> h in t.blocks && t.blocks[h].successor == 0 && !t.blocks[h].block.State?)
    && (h in t.frontiers ==> h in g.past && t.frontiers[h] == g.past[h].account)
  }

  /** The frontier table lists exactly the heads that are not state blocks. */
  ghost predicate FrontiersMatch(t: Tables, g: Trail) {
    forall h: Id {:trigger FrontierRow(t, g, h)} :: FrontierRow(t, g, h)
  }

  ghost predicate InfoRow(t: Tables, g: Trail, body: Id -> Block, h: Id) {
    && (h in t.blocks ==> t.blocks[h].block == body(h))
    && (h == 1 ==> h !in t.infos)
    && (!body(h).State? ==>
          && (h in t.infos <==> h in t.blocks && g.HeightAt(h) % BLOCK_INFO_MAX == 0)
          && (h in t.infos ==> h in g.past && t.infos[h] == BlockInfo(g.past[h].account, g.past[h].balance)))
    && (body(h).State? && h in t.infos ==> t.infos[h] == BlockInfo(body(h).account, body(h).balance))
  }

  /**
   Exactly every 32nd block that is not a state block has a checkpoint.  Checkpoints under hashes of state
   blocks may be left behind, but say nothing wrong; `body` gives the one block that has a given hash.
   */
  ghost predicate InfosMatch(t: Tables, g: Trail, body: Id -> Block) {
    forall h: Id {:trigger InfoRow(t, g, body, h)} :: InfoRow(t, g, body, h)
  }

  ghost predicate Sound(t: Tables, g: Trail, gen: Genesis, body: Id -> Block) {
    && History(t, g, gen)
    && AccountsMatch(t, g)
    && PendingMatch(t, g)
    && FrontiersMatch(t, g)
    && InfosMatch(t, g, body)
  }

  // ---------------------------------------------------------------------------------------------
  // Supply and weights
  // ---------------------------------------------------------------------------------------------

  ghost function Balances(t: Tables): map<Id, int> {
    map a | a in t.accounts :: t.accounts[a].balance
  }

  ghost function PendingAmounts(t: Tables): map<PendingKey, int> {
    map k | k in t.pending :: t.pending[k].amount
  }

  /** Everything that exists: what accounts hold plus what is sent and not yet received. */
  ghost function Supply(t: Tables): int {
    Total(Balances(t)) + Total(PendingAmounts(t))
  }

  function RepOfBlock(t: Tables, h: Id): Id {
    if h in t.blocks then t.blocks[h].block.Representative() else 0
  }

  /** What each account adds to the weight of representative `r`. */
  ghost function Shares(t: Tables, r: Id): map<Id, int> {
    map a | a in t.accounts :: if RepOfBlock(t, t.accounts[a].repBlock) == r then t.accounts[a].balance else 0
  }

  ghost function WeightDue(t: Tables, r: Id): int {
    Total(Shares(t, r))
  }

  function WeightIn(weights: map<Id, nat>, r: Id): nat {
    if r in weights then weights[r] else 0
  }

  /** 128-bit arithmetic; `WrapIsModulo` says it is the remainder. */
  function Wrap(x: int): (r: nat)
    ensures r < AMOUNT_LIMIT
    decreases if x < 0 then AMOUNT_LIMIT - x else x
  {
    if x < 0 then Wrap(x + AMOUNT_LIMIT) else if x < AMOUNT_LIMIT then x else Wrap(x - AMOUNT_LIMIT)
  }

  lemma {:induction false} WrapIsModulo(x: int)
    ensures Wrap(x) == x % AMOUNT_LIMIT
    decreases if x < 0 then AMOUNT_LIMIT - x else x
  {
    if x < 0 {
      WrapIsModulo(x + AMOUNT_LIMIT);
    } else if x >= AMOUNT_LIMIT {
      WrapIsModulo(x - AMOUNT_LIMIT);
    }
  }

  lemma WrapShift(x: int)
    ensures Wrap(x + AMOUNT_LIMIT) == Wrap(x)
  {
  }

  lemma {:induction false} WrapAdd(x: int, y: int)
    ensures Wrap(Wrap(x) + y) == Wrap(x + y)
    decreases if x < 0 then AMOUNT_LIMIT - x else x
  {
    if x < 0 {
      WrapAdd(x + AMOUNT_LIMIT, y);
      WrapShift(x + y);
    } else if x >= AMOUNT_LIMIT {
      WrapAdd(x - AMOUNT_LIMIT, y);
      WrapShift(x + y - AMOUNT_LIMIT);
    }
  }

  /** The stored weights are what is due, up to `skew`, in 128-bit arithmetic. */
  ghost predicate Weighs(t: Tables, weights: map<Id, nat>, skew: Id -> int) {
    forall r: Id {:trigger WeightDue(t, r)} :: WeightIn(weights, r) == Wrap(WeightDue(t, r) + skew(r))
  }

  function NoSkew(): Id -> int {
    (r: Id) => 0
  }

  lemma WrapSmall(x: int)
    requires 0 <= x < AMOUNT_LIMIT
    ensures Wrap(x) == x
  {
  }

  lemma WeightDueIsBounded(t: Tables, r: Id)
    requires Supply(t) == GENESIS_AMOUNT
    ensures 0 <= WeightDue(t, r) <= GENESIS_AMOUNT
  {
    TotalMonotone(Shares(t, r), Balances(t));
    TotalMonotone(PendingAmounts(t), PendingAmounts(t));
  }

  /** No representative can exceed the supply, so nothing is lost to 128-bit arithmetic. */
  lemma WeightsAreExact(t: Tables, weights: map<Id, nat>, r: Id)
    requires Supply(t) == GENESIS_AMOUNT && Weighs(t, weights, NoSkew())
    ensures WeightIn(weights, r) == WeightDue(t, r) <= GENESIS_AMOUNT
  {
    WeightDueIsBounded(t, r);
    WrapSmall(WeightDue(t, r));
  }

  lemma BalanceIsBounded(t: Tables, a: Id)
    requires Supply(t) == GENESIS_AMOUNT && a in t.accounts
    ensures t.accounts[a].balance <= GENESIS_AMOUNT
  {
    TotalAtLeast(Balances(t), a);
    TotalMonotone(PendingAmounts(t), PendingAmounts(t));
  }

  /** A receiver's balance and the amount it receives fit in 128 bits together. */
  lemma ReceivedFits(t: Tables, a: Id, key: PendingKey)
    requires Supply(t) == GENESIS_AMOUNT && a in t.accounts && key in t.pending
    ensures t.accounts[a].balance + t.pending[key].amount <= GENESIS_AMOUNT
  {
    TotalAtLeast(Balances(t), a);
    TotalAtLeast(PendingAmounts(t), key);
  }
}

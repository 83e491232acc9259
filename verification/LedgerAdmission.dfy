/** Which blocks a ledger takes: exactly those with which it is still a sound ledger. */
module LedgerAdmission {
  import opened LedgerTypes
  import opened LedgerInvariant
  import opened LedgerExtend
  import opened LedgerRemove
  import opened LedgerLaws
  import opened LedgerWeights

  /** Some sound ledger has the same blocks and, later than all of them, `h`. */
  ghost predicate Extendable(t: Tables, g: Trail, gen: Genesis, body: Id -> Block, h: Id) {
    exists t', g' :: Extends(t, g, t', g', gen, body, h)
  }

  ghost predicate Extends(t: Tables, g: Trail, t': Tables, g': Trail, gen: Genesis, body: Id -> Block, h: Id) {
    Sound(t', g', gen, body) && Newest(g, g', h) && t'.blocks.Keys == t.blocks.Keys + {h}
  }

  /** A block the ledger should take: it can be added, and the first block of an account receives something. */
  ghost predicate Admissible(t: Tables, g: Trail, gen: Genesis, body: Id -> Block, h: Id, b: Block) {
    Extendable(t, g, gen, body, h) && (b.Previous() == 0 ==> g.Source(b) != 0)
  }

  lemma AddedExtends(t: Tables, g: Trail, gen: Genesis, body: Id -> Block, h: Id, b: Block)
    requires Sound(t, g, gen, body) && Supply(t) == GENESIS_AMOUNT && !Reserved(gen, h) && body(h) == b
    requires Acceptable(t, g, h, b)
    ensures Extends(t, g, Added(t, g, h, b), Recorded(t, g, h, b), gen, body, h)
  {
    NewBalanceFits(t, g, gen, body, h, b);
    AddKeepsSound(t, g, gen, body, h, b);
    RecordedIsNewest(t, g, gen, h, b);
  }

  /** The blocks already there mean in the larger ledger what they mean in the smaller one. */
  lemma SameInLarger(t: Tables, g: Trail, t': Tables, g': Trail, gen: Genesis, body: Id -> Block, h: Id, x: Id)
    requires Sound(t, g, gen, body) && Extends(t, g, t', g', gen, body, h) && x in t.blocks
    ensures x in t'.blocks && x in g'.past && g'.past[x] == g.past[x] && t'.blocks[x].block == t.blocks[x].block
    ensures var c := t.blocks[x].block;
            && g'.BalanceAt(c.Previous()) == g.BalanceAt(c.Previous())
            && g'.Sends(c) == g.Sends(c) && g'.Source(c) == g.Source(c)
            && (c.Send? || c.State? ==> g'.Sent(c) == g.Sent(c))
  {
    assert InfoRow(t, g, body, x) && InfoRow(t', g', body, x);
    assert Chained(t, g, x);
    assert 0 !in t.blocks && 0 !in t'.blocks;
  }

  /** What the larger ledger says of the new block, in terms of the smaller one. */
  lemma NewInLarger(t: Tables, g: Trail, t': Tables, g': Trail, gen: Genesis, body: Id -> Block, h: Id, b: Block)
    requires Sound(t, g, gen, body) && Extends(t, g, t', g', gen, body, h) && h !in t.blocks && body(h) == b
    ensures h in t'.blocks && h in g'.past && t'.blocks[h].block == b && h != gen.hash
    ensures b.Previous() == 0 || b.Previous() in t.blocks
    ensures Owner(g, b) == g'.past[h].account != 0
    ensures g'.BalanceAt(b.Previous()) == g.BalanceAt(b.Previous())
    ensures g'.Sends(b) == g.Sends(b) && g'.Source(b) == g.Source(b)
  {
    assert InfoRow(t', g', body, h) && Chained(t', g', h);
    assert 0 !in t.blocks && 0 !in t'.blocks && gen.hash in t.blocks;
  }

  lemma SameSuccessor(t: Tables, g: Trail, t': Tables, g': Trail, gen: Genesis, body: Id -> Block, h: Id, x: Id)
    requires Sound(t, g, gen, body) && Extends(t, g, t', g', gen, body, h) && x in t.blocks && t.blocks[x].successor != 0
    ensures x in t'.blocks && t'.blocks[x].successor == t.blocks[x].successor && t.blocks[x].successor in t.blocks
  {
    assert Chained(t, g, x) && 0 !in t.blocks;
    SameInLarger(t, g, t', g', gen, body, h, t.blocks[x].successor);
    assert Chained(t', g', t.blocks[x].successor);
  }

  lemma SameReceiver(t: Tables, g: Trail, t': Tables, g': Trail, gen: Genesis, body: Id -> Block, h: Id, s: Id)
    requires Sound(t, g, gen, body) && Extends(t, g, t', g', gen, body, h) && s in g.taken
    ensures s in g'.taken && g'.taken[s] == g.taken[s] && g.taken[s] in t.blocks
  {
    assert TakenRow(t, g, gen, s);
    SameInLarger(t, g, t', g', gen, body, h, g.taken[s]);
    assert Valued(t, g, gen, g.taken[s]) && Valued(t', g', gen, g.taken[s]);
  }

  /** The block before the new one is the head of its account. */
  lemma StandsOnHead(t: Tables, g: Trail, t': Tables, g': Trail, gen: Genesis, body: Id -> Block, h: Id, b: Block)
    requires Sound(t, g, gen, body) && Extends(t, g, t', g', gen, body, h) && h !in t.blocks && body(h) == b
    requires b.Previous() != 0
    ensures var a, prev := Owner(g, b), b.Previous();
            && prev in t.blocks && a in t.accounts && t.accounts[a].head == prev
            && (t.blocks[prev].block.State? ==> b.State?)
  {
    var prev := b.Previous();
    NewInLarger(t, g, t', g', gen, body, h, b);
    SameInLarger(t, g, t', g', gen, body, h, prev);
    assert Chained(t', g', h) && Chained(t, g, prev) && Listed(t, g, prev);
    if t.blocks[prev].successor != 0 {
      SameSuccessor(t, g, t', g', gen, body, h, prev);
    }
  }

  /** A first block finds its account without blocks. */
  lemma OpensNewAccount(t: Tables, g: Trail, t': Tables, g': Trail, gen: Genesis, body: Id -> Block, h: Id, b: Block)
    requires Sound(t, g, gen, body) && Extends(t, g, t', g', gen, body, h) && h !in t.blocks && body(h) == b
    requires b.Previous() == 0
    ensures (b.Open? || b.State?) && Owner(g, b) !in t.accounts
  {
    NewInLarger(t, g, t', g', gen, body, h, b);
    assert Chained(t', g', h) && 0 !in g'.past;
    if Owner(g, b) in t.accounts {
      assert AccountRow(t, g, Owner(g, b));
      var head := t.accounts[Owner(g, b)].head;
      assert Chained(t, g, head);
      var y := EveryHeightIsTaken(t, g, gen, head, 1);
      SameInLarger(t, g, t', g', gen, body, h, y);
      OneBlockPerHeight(t', g', gen, h, y);
    }
  }

  /** What the new block receives is pending for its account, with the amount its balance grows by. */
  lemma ReceivesPending(t: Tables, g: Trail, t': Tables, g': Trail, gen: Genesis, body: Id -> Block, h: Id, b: Block)
    requires Sound(t, g, gen, body) && Extends(t, g, t', g', gen, body, h) && h !in t.blocks && body(h) == b
    requires !g.Sends(b) && g.Source(b) != 0
    ensures KeyOf(g, b) in t.pending
    ensures g'.past[h].balance == g.BalanceAt(b.Previous()) + t.pending[KeyOf(g, b)].amount
  {
    var s := g.Source(b);
    NewInLarger(t, g, t', g', gen, body, h, b);
    assert Valued(t', g', gen, h);
    SameInLarger(t, g, t', g', gen, body, h, s);
    if s in g.taken {
      SameReceiver(t, g, t', g', gen, body, h, s);
    }
    assert PendingRow(t, g, KeyOf(g, b));
  }

  lemma ExtendedIsAcceptable(t: Tables, g: Trail, t': Tables, g': Trail, gen: Genesis, body: Id -> Block, h: Id, b: Block)
    requires Sound(t, g, gen, body) && Extends(t, g, t', g', gen, body, h) && h !in t.blocks && body(h) == b
    requires b.Previous() == 0 ==> g.Source(b) != 0
    ensures Acceptable(t, g, h, b)
  {
    NewInLarger(t, g, t', g', gen, body, h, b);
    assert Valued(t', g', gen, h);
    if b.Previous() == 0 {
      OpensNewAccount(t, g, t', g', gen, body, h, b);
    } else {
      StandsOnHead(t, g, t', g', gen, body, h, b);
    }
    if !g.Sends(b) && g.Source(b) != 0 {
      ReceivesPending(t, g, t', g', gen, body, h, b);
    }
  }

  /** The tests a block has to pass are exactly what the ledger needs to be sound with it: neither more nor less. */
  lemma AcceptableIffAdmissible(t: Tables, g: Trail, gen: Genesis, body: Id -> Block, h: Id, b: Block)
    requires Sound(t, g, gen, body) && Supply(t) == GENESIS_AMOUNT && !Reserved(gen, h) && body(h) == b
    ensures Acceptable(t, g, h, b) <==> Admissible(t, g, gen, body, h, b)
  {
    if Acceptable(t, g, h, b) {
      AddedExtends(t, g, gen, body, h, b);
    }
    if Admissible(t, g, gen, body, h, b) {
      var t', g' :| Extends(t, g, t', g', gen, body, h);
      ExtendedIsAcceptable(t, g, t', g', gen, body, h, b);
    }
  }

  // ---------------------------------------------------------------------------------------------
  // The answer to an offered block
  // ---------------------------------------------------------------------------------------------

  predicate StoredState(t: Tables, x: Id) {
    x in t.blocks && t.blocks[x].block.State?
  }

  predicate StoredHead(t: Tables, x: Id) {
    x in t.blocks && t.blocks[x].successor == 0
  }

  /** Is the stored block `s` a send to account `a` that nobody received, and for which amount? */
  ghost predicate Awaits(t: Tables, g: Trail, a: Id, s: Id) {
    Unreceived(t, g, PendingKey(a, s))
  }

  ghost function AwaitedAmount(t: Tables, g: Trail, a: Id, s: Id): nat {
    if Awaits(t, g, a, s) then g.Sent(t.blocks[s].block) else 0
  }

  /** The answer to a send, receive or change block: that of the first test that fails. */
  ghost function ChainVerdict(t: Tables, g: Trail, h: Id, b: Block, signedBy: set<Id>): Code
    requires b.Send? || b.Receive? || b.Change?
  {
    if h in t.blocks then Old
    else if b.previous !in t.blocks then GapPrevious
    else if StoredState(t, b.previous) then BlockPosition
    else if b.Receive? && b.source !in t.blocks then GapSource
    else if !StoredHead(t, b.previous) then Fork
    else if Owner(g, b) !in signedBy then BadSignature
    else if b.Send? && g.BalanceAt(b.previous) < b.balance then NegativeSpend
    else if b.Receive? && !Awaits(t, g, Owner(g, b), b.source) then Unreceivable
    else Progress
  }

  ghost function OpenVerdict(t: Tables, g: Trail, h: Id, b: Block, signedBy: set<Id>): Code
    requires b.Open?
  {
    if h in t.blocks then Old
    else if b.source !in t.blocks then GapSource
    else if b.account !in signedBy then BadSignature
    else if b.account in t.accounts then Fork
    else if !Awaits(t, g, b.account, b.source) then Unreceivable
    else if b.account == 0 then OpenedBurnAccount
    else Progress
  }

  /** The place a state block wants to have. */
  ghost function PositionVerdict(t: Tables, g: Trail, b: Block): Code
    requires b.State?
  {
    if b.account in t.accounts then
      if b.previous == 0 then Fork
      else if b.previous !in t.blocks then GapPrevious
      else if !StoredHead(t, b.previous) || b.previous !in g.past || g.past[b.previous].account != b.account then Fork
      else Progress
    else if b.previous != 0 then GapPrevious
    else if b.link == 0 then GapSource
    else Progress
  }

  /** What a state block in its place claims to receive; what it sends needs no check. */
  ghost function FundsVerdict(t: Tables, g: Trail, b: Block): Code
    requires b.State?
  {
    if g.Sends(b) then Progress
    else if b.link != 0 && b.link !in t.blocks then GapSource
    else if b.link != 0 && !Awaits(t, g, b.account, b.link) then Unreceivable
    else if b.balance != g.BalanceAt(b.previous) + AwaitedAmount(t, g, b.account, b.link) then BalanceMismatch
    else Progress
  }

  ghost function StateVerdict(t: Tables, g: Trail, h: Id, b: Block, signedBy: set<Id>): Code
    requires b.State?
  {
    if h in t.blocks then Old
    else if b.account !in signedBy then BadSignature
    else if b.account == 0 then OpenedBurnAccount
    else if PositionVerdict(t, g, b) != Progress then PositionVerdict(t, g, b)
    else FundsVerdict(t, g, b)
  }

  /** The answer the history calls for, without the pending and frontier tables that the code looks into. */
  ghost function Verdict(t: Tables, g: Trail, h: Id, b: Block, signedBy: set<Id>): Code {
    if b.Open? then OpenVerdict(t, g, h, b, signedBy)
    else if b.State? then StateVerdict(t, g, h, b, signedBy)
    else ChainVerdict(t, g, h, b, signedBy)
  }

  /** What is wrong with the block, for each code that refuses it. */
  ghost predicate Explained(t: Tables, g: Trail, b: Block, signedBy: set<Id>, code: Code) {
    var a, prev := Owner(g, b), b.Previous();
    var source := if b.Receive? || b.Open? then b.source else if b.State? then b.link else 0;
    match code
    case Progress => true
    case Old => true
    case BadSignature => a !in signedBy
    case BlockPosition => prev in t.blocks && t.blocks[prev].block.State? && !b.State?
    case GapPrevious => prev !in t.blocks || (b.State? && prev != 0 && a !in t.accounts)
    case GapSource => source !in t.blocks && !b.Send? && !b.Change?
    case Unreceivable => source in t.blocks && PendingKey(a, source) !in t.pending
    case NegativeSpend => b.Send? && g.BalanceAt(prev) < b.balance
    case OpenedBurnAccount => a == 0
    case BalanceMismatch =>
      && b.State? && !g.Sends(b)
      && b.balance != g.BalanceAt(prev) + if KeyOf(g, b) in t.pending then t.pending[KeyOf(g, b)].amount else 0
    case Fork =>
      // another block already stands where this one wants to stand
      if b.Open? || b.State? then a in t.accounts && t.accounts[a].head != prev
      else prev in t.blocks && t.blocks[prev].successor != 0
  }

  /** Progress is answered exactly for acceptable blocks signed by their owner, and every refusal has its reason. */
  ghost predicate Justified(t: Tables, g: Trail, h: Id, b: Block, signedBy: set<Id>) {
    var code := Verdict(t, g, h, b, signedBy);
    && (code == Progress <==> Acceptable(t, g, h, b) && Owner(g, b) in signedBy)
    && (code == Old <==> h in t.blocks)
    && Explained(t, g, b, signedBy, code)
  }

  /** The head of an account is its stored block without a successor. */
  lemma HeadMeans(t: Tables, g: Trail, gen: Genesis, x: Id)
    requires History(t, g, gen) && AccountsMatch(t, g) && x in t.blocks
    ensures x != 0 && g.past[x].account != 0 && g.past[x].account in t.accounts
    ensures t.accounts[g.past[x].account].head == x <==> StoredHead(t, x)
  {
    assert Chained(t, g, x) && Listed(t, g, x);
    assert AccountRow(t, g, g.past[x].account);
  }

  lemma ChainVerdictMeans(t: Tables, g: Trail, gen: Genesis, h: Id, b: Block, signedBy: set<Id>)
    requires History(t, g, gen) && AccountsMatch(t, g) && PendingMatch(t, g) && !b.Open? && !b.State?
    ensures Justified(t, g, h, b, signedBy)
  {
    if b.previous in t.blocks {
      HeadMeans(t, g, gen, b.previous);
    }
    if b.Receive? {
      assert PendingRow(t, g, PendingKey(Owner(g, b), b.source));
    }
  }

  lemma OpenVerdictMeans(t: Tables, g: Trail, gen: Genesis, h: Id, b: Block, signedBy: set<Id>)
    requires History(t, g, gen) && AccountsMatch(t, g) && PendingMatch(t, g) && b.Open?
    ensures Justified(t, g, h, b, signedBy)
  {
    assert PendingRow(t, g, PendingKey(b.account, b.source));
    if b.account in t.accounts {
      assert AccountRow(t, g, b.account);
    }
  }

  lemma StateVerdictMeans(t: Tables, g: Trail, gen: Genesis, h: Id, b: Block, signedBy: set<Id>)
    requires History(t, g, gen) && AccountsMatch(t, g) && PendingMatch(t, g) && b.State?
    ensures Justified(t, g, h, b, signedBy)
  {
    assert PendingRow(t, g, PendingKey(b.account, b.link));
    if b.account in t.accounts {
      assert AccountRow(t, g, b.account);
    }
    if b.previous in t.blocks {
      HeadMeans(t, g, gen, b.previous);
    }
  }

  lemma VerdictMeans(t: Tables, g: Trail, gen: Genesis, h: Id, b: Block, signedBy: set<Id>)
    requires History(t, g, gen) && AccountsMatch(t, g) && PendingMatch(t, g)
    ensures Justified(t, g, h, b, signedBy)
  {
    if b.Open? {
      OpenVerdictMeans(t, g, gen, h, b, signedBy);
    } else if b.State? {
      StateVerdictMeans(t, g, gen, h, b, signedBy);
    } else {
      ChainVerdictMeans(t, g, gen, h, b, signedBy);
    }
  }
}

/** Whole runs of the ledger: any sequence of offered and rolled-back blocks, on one node or on two. */
module LedgerRuns {
  import opened LedgerTypes
  import opened LedgerInvariant
  import opened LedgerDepends
  import opened LedgerLaws
  import opened LedgerExtend
  import opened LedgerAdmission
  import opened LedgerConverge
  import opened BlockLattice

  datatype Request = Offer(hash: Id, block: Block, signedBy: set<Id>) | Undo(hash: Id)

  /** Hashes do not collide, and no block hashes to a number that the code uses for something else. */
  ghost predicate Honest(r: Request, gen: Genesis, body: Id -> Block) {
    r.Offer? ==> !Reserved(gen, r.hash) && body(r.hash) == r.block
  }

  /** The ledger can be sound with the block, and its owner signed it. */
  ghost predicate Welcome(t: Tables, g: Trail, gen: Genesis, body: Id -> Block, r: Request)
    requires r.Offer?
  {
    Admissible(t, g, gen, body, r.hash, r.block) && Owner(g, r.block) in r.signedBy
  }

  /** An offer adds exactly the offered block, or nothing. */
  method PerformOffer(ledger: Ledger, r: Request)
    requires ledger.Valid() && Honest(r, ledger.gen, ledger.body) && r.Offer?
    modifies ledger
    ensures ledger.Valid()
    ensures Welcome(old(ledger.Store()), old(ledger.trail), ledger.gen, ledger.body, r) ==> ledger.blocks.Keys == old(ledger.blocks.Keys) + {r.hash}
    ensures !Welcome(old(ledger.Store()), old(ledger.trail), ledger.gen, ledger.body, r) ==> ledger.Store() == old(ledger.Store())
  {
    ghost var t, g := ledger.Store(), ledger.trail;
    var code, amount := ledger.Process(r.hash, r.block, r.signedBy);
    if code == Progress {
      AddedKeys(t, g, r.hash, r.block);
    }
  }

  lemma AddedKeys(t: Tables, g: Trail, h: Id, b: Block)
    requires b.Previous() == 0 || b.Previous() in t.blocks
    ensures Added(t, g, h, b).blocks.Keys == t.blocks.Keys + {h}
  {
  }

  /**
   An undo takes away exactly the blocks that depend on the one to be undone.  Blocks that are not there, and the
   genesis block, cannot be rolled back.
   */
  method PerformUndo(ledger: Ledger, h: Id)
    requires ledger.Valid()
    modifies ledger
    ensures ledger.Valid()
    ensures h != ledger.gen.hash ==> Undone(old(ledger.Store()), old(ledger.trail), ledger.Store(), h)
    ensures h == ledger.gen.hash ==> ledger.Store() == old(ledger.Store())
  {
    if h in ledger.blocks && h != ledger.gen.hash {
      ledger.Rollback(h, NoSkew());
    } else {
      NothingDepends(ledger.Store(), ledger.trail, h);
    }
  }

  /** Any request keeps the ledger valid and changes exactly the blocks it is about. */
  method Perform(ledger: Ledger, r: Request)
    requires ledger.Valid() && Honest(r, ledger.gen, ledger.body)
    modifies ledger
    ensures ledger.Valid()
    ensures r.Offer? && Welcome(old(ledger.Store()), old(ledger.trail), ledger.gen, ledger.body, r) ==> ledger.blocks.Keys == old(ledger.blocks.Keys) + {r.hash}
    ensures r.Offer? && !Welcome(old(ledger.Store()), old(ledger.trail), ledger.gen, ledger.body, r) ==> ledger.Store() == old(ledger.Store())
    ensures r.Undo? && r.hash != ledger.gen.hash ==> Undone(old(ledger.Store()), old(ledger.trail), ledger.Store(), r.hash)
    ensures r.Undo? && r.hash == ledger.gen.hash ==> ledger.Store() == old(ledger.Store())
  {
    match r {
      case Offer(_, _, _) => PerformOffer(ledger, r);
      case Undo(h) => PerformUndo(ledger, h);
    }
  }

  /** After any run all that was ever issued is still there, and every voting weight is what the balances make it. */
  method Run(ledger: Ledger, script: seq<Request>)
    requires ledger.Valid() && forall i | 0 <= i < |script| :: Honest(script[i], ledger.gen, ledger.body)
    modifies ledger
    ensures ledger.Valid() && Supply(ledger.Store()) == GENESIS_AMOUNT
    ensures forall r: Id :: WeightIn(ledger.weights, r) == WeightDue(ledger.Store(), r) <= GENESIS_AMOUNT
  {
    for i := 0 to |script|
      invariant ledger.Valid()
    {
      Perform(ledger, script[i]);
    }
    forall r: Id ensures WeightIn(ledger.weights, r) == WeightDue(ledger.Store(), r) <= GENESIS_AMOUNT {
      ledger.WeightIsExact(r);
    }
  }

  /** Two nodes that end up with the same blocks agree on everything, in whatever order the blocks came and went. */
  method NodesAgree(a: Ledger, b: Ledger, first: seq<Request>, second: seq<Request>)
    requires a != b && a.gen == b.gen && a.body == b.body && a.Valid() && b.Valid()
    requires forall i | 0 <= i < |first| :: Honest(first[i], a.gen, a.body)
    requires forall i | 0 <= i < |second| :: Honest(second[i], a.gen, a.body)
    modifies a, b
    ensures a.blocks.Keys == b.blocks.Keys ==>
      a.blocks == b.blocks && a.accounts == b.accounts && a.pending == b.pending && a.frontiers == b.frontiers
    ensures a.blocks.Keys == b.blocks.Keys ==> forall h: Id | !a.body(h).State? :: SameCheckpoint(b.Store(), a.Store(), h)
    ensures a.blocks.Keys == b.blocks.Keys ==> forall r: Id :: WeightIn(a.weights, r) == WeightIn(b.weights, r)
  {
    Run(a, first);
    Run(b, second);
    if a.blocks.Keys == b.blocks.Keys {
      a.Restored(b.Store(), b.trail, b.weights);
    }
  }

  // ---------------------------------------------------------------------------------------------
  // A checkpoint that is left behind
  // ---------------------------------------------------------------------------------------------

  const FIRST := Genesis(100, 7)

  /** Block 100 is the genesis block; each later number is a state block on the one before that changes nothing. */
  function ChainOfStates(h: Id): Block {
    if h <= 100 then FIRST.Block() else State(FIRST.account, h - 1, FIRST.account, GENESIS_AMOUNT, 0)
  }

  /** `n` blocks of that chain, none of them with a checkpoint. */
  ghost predicate Grown(ledger: Ledger, n: nat)
    reads ledger
  {
    && ledger.Valid() && ledger.gen == FIRST && ledger.body == ChainOfStates && n > 0
    && (forall h | h in ledger.blocks :: 100 <= h < 100 + n) && 100 + n - 1 in ledger.blocks
    && FIRST.account in ledger.accounts && ledger.accounts[FIRST.account].head == 100 + n - 1
    && ledger.accounts[FIRST.account].blockCount == n && ledger.accounts[FIRST.account].balance == GENESIS_AMOUNT
    && ledger.infos == map[]
  }

  lemma NextIsWelcome(ledger: Ledger, n: nat)
    requires Grown(ledger, n)
    ensures Acceptable(ledger.Store(), ledger.trail, 100 + n, ChainOfStates(100 + n))
  {
    assert AccountRow(ledger.Store(), ledger.trail, FIRST.account);
  }

  /** An acceptable block signed by its owner is added. */
  method TakeBlock(ledger: Ledger, h: Id, b: Block, signedBy: set<Id>)
    requires ledger.Valid() && !Reserved(ledger.gen, h) && ledger.body(h) == b
    requires Acceptable(ledger.Store(), ledger.trail, h, b) && Owner(ledger.trail, b) in signedBy
    modifies ledger
    ensures ledger.Valid() && ledger.Store() == Added(old(ledger.Store()), old(ledger.trail), h, b)
  {
    var code, amount := ledger.Process(h, b, signedBy);
  }

  method Grow(ledger: Ledger, n: nat)
    requires Grown(ledger, n)
    modifies ledger
    ensures Grown(ledger, n + 1)
  {
    NextIsWelcome(ledger, n);
    ghost var t, g := ledger.Store(), ledger.trail;
    assert AccountRow(t, g, FIRST.account);
    TakeBlock(ledger, 100 + n, ChainOfStates(100 + n), {FIRST.account});
    AddedState(t, g, 100 + n, ChainOfStates(100 + n), t.accounts[FIRST.account]);
  }

  /** A run from genesis to a state block of height 32, which has no checkpoint. */
  method GrowToThirtyTwo() returns (ledger: Ledger)
    ensures fresh(ledger) && Grown(ledger, BLOCK_INFO_MAX)
  {
    ledger := new Ledger(FIRST, ChainOfStates);
    for n := 1 to BLOCK_INFO_MAX
      invariant fresh(ledger) && Grown(ledger, n)
    {
      Grow(ledger, n);
    }
  }

  /** There, accepting one block more and rolling it back changes the checkpoint table. */
  method CheckpointIsLeftBehind(ledger: Ledger)
    requires Grown(ledger, BLOCK_INFO_MAX)
    modifies ledger
    ensures ledger.infos != old(ledger.infos) && ledger.blocks == old(ledger.blocks)
  {
    NextIsWelcome(ledger, BLOCK_INFO_MAX);
    ghost var t, g := ledger.Store(), ledger.trail;
    assert InfoRow(t, g, ChainOfStates, 131);
    var code := ledger.ProcessAndRollback(132, ChainOfStates(132), {FIRST.account});
  }
}

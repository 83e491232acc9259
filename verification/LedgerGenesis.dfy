/** The store as the genesis block leaves it. */
module LedgerGenesis {
  import opened LedgerTypes
  import opened LedgerInvariant
  import opened MapTotal

  function GenesisTables(gen: Genesis): Tables {
    Tables(
      map[gen.hash := Entry(gen.Block(), 0)],
      map[gen.account := AccountInfo(gen.hash, gen.hash, gen.hash, GENESIS_AMOUNT, 1)],
      map[],
      map[gen.hash := gen.account],
      map[])
  }

  function GenesisTrail(gen: Genesis): Trail {
    Trail(map[gen.hash := Past(gen.account, GENESIS_AMOUNT, gen.hash, gen.hash, 1, 0)], map[], 1)
  }

  lemma GenesisIsSound(gen: Genesis, body: Id -> Block)
    requires !Reserved(gen, gen.hash) && gen.account != 0 && body(gen.hash) == gen.Block()
    ensures Sound(GenesisTables(gen), GenesisTrail(gen), gen, body)
  {
  }

  lemma GenesisSupply(gen: Genesis)
    ensures Supply(GenesisTables(gen)) == GENESIS_AMOUNT
  {
    var t := GenesisTables(gen);
    TotalChange(map[], Balances(t), gen.account);
    assert PendingAmounts(t) == map[];
  }

  lemma GenesisWeights(gen: Genesis)
    ensures Weighs(GenesisTables(gen), map[gen.account := GENESIS_AMOUNT], NoSkew())
  {
    var t := GenesisTables(gen);
    forall r: Id
      ensures WeightIn(map[gen.account := GENESIS_AMOUNT], r) == Wrap(WeightDue(t, r) + NoSkew()(r))
    {
      TotalChange(map[], Shares(t, r), gen.account);
    }
  }
}

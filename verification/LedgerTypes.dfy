/**
 The block lattice: block kinds, the tables of the block store, and the history that the tables must agree with.

 Numbers of 256 bits (accounts and block hashes) are natural numbers with 0 as the "none" value.  Amounts are
 128-bit.  A block travels with its hash and with the set of accounts under whose keys its signature verifies,
 so hashing and signing are parameters of the model.
 */
module LedgerTypes {

  type Id = nat

  const AMOUNT_LIMIT: nat := 0x1_0000_0000_0000_0000_0000_0000_0000_0000
  const GENESIS_AMOUNT: nat := AMOUNT_LIMIT - 1
  const BLOCK_INFO_MAX: nat := 32

  type Amount = x: nat | x < AMOUNT_LIMIT

  datatype Block =
    | Send(previous: Id, destination: Id, balance: Amount)
    | Receive(previous: Id, source: Id)
    | Open(source: Id, representative: Id, account: Id)
    | Change(previous: Id, representative: Id)
    | State(account: Id, previous: Id, representative: Id, balance: Amount, link: Id)
  {
    function Previous(): Id {
      if Open? then 0 else previous
    }

    function Representative(): Id {
      if Send? || Receive? then 0 else representative
    }

    /** Send and receive blocks keep the representative of the block before them. */
    predicate KeepsRepresentative() {
      Send? || Receive?
    }
  }

  /** A stored block and the hash of the block after it, 0 for the head of a chain. */
  datatype Entry = Entry(block: Block, successor: Id)

  datatype AccountInfo = AccountInfo(head: Id, repBlock: Id, openBlock: Id, balance: nat, blockCount: nat)

  datatype PendingKey = PendingKey(account: Id, hash: Id)

  datatype PendingInfo = PendingInfo(source: Id, amount: nat)

  datatype BlockInfo = BlockInfo(account: Id, balance: nat)

  /** The store without the representation table, whose entries are specified up to a missing entry being 0. */
  datatype Tables = Tables(
    blocks: map<Id, Entry>,
    accounts: map<Id, AccountInfo>,
    pending: map<PendingKey, PendingInfo>,
    frontiers: map<Id, Id>,
    infos: map<Id, BlockInfo>)

  datatype Code =
    | Progress | BadSignature | Old | NegativeSpend | Fork | Unreceivable
    | GapPrevious | GapSource | OpenedBurnAccount | BalanceMismatch | BlockPosition

  /** The first block: its hash and the account that receives the whole supply. */
  datatype Genesis = Genesis(hash: Id, account: Id)
  {
    function Block(): Block {
      Open(account, account, account)
    }
  }

  // ---------------------------------------------------------------------------------------------
  // History
  // ---------------------------------------------------------------------------------------------

  /** What a block meant when it entered: whose it is, and the account's state right after it. */
  datatype Past = Past(account: Id, balance: nat, repBlock: Id, openBlock: Id, height: nat, time: nat)

  /** `taken` maps a send to the block that received it; `clock` is later than every block. */
  datatype Trail = Trail(past: map<Id, Past>, taken: map<Id, Id>, clock: nat)
  {
    function BalanceAt(h: Id): nat {
      if h in past then past[h].balance else 0
    }

    function RepAt(h: Id): Id {
      if h in past then past[h].repBlock else 0
    }

    function HeightAt(h: Id): nat {
      if h in past then past[h].height else 0
    }

    function OpenAt(h: Id): Id {
      if h in past then past[h].openBlock else 0
    }

    /** Does the block move funds out of its account? */
    predicate Sends(b: Block) {
      b.Send? || (b.State? && b.balance < BalanceAt(b.previous))
    }

    /** The send block this block receives, 0 if it receives nothing. */
    function Source(b: Block): Id {
      match b
      case Receive(_, source) => source
      case Open(source, _, _) => source
      case State(_, _, _, _, link) => if Sends(b) then 0 else link
      case _ => 0
    }

    /** What a sending block moves out. */
    function Sent(b: Block): nat
      requires b.Send? || b.State?
    {
      if b.balance <= BalanceAt(b.previous) then BalanceAt(b.previous) - b.balance else 0
    }
  }

  function Destination(b: Block): Id
    requires b.Send? || b.State?
  {
    if b.Send? then b.destination else b.link
  }
}

/** The values that pass between the parts of the block processor: transactions, notes and accounts. */
module BanknoteTypes {
  import opened Arithmetic

  /** A 256-bit hash, read as the natural number `Hash.Big()` gives. */
  type Hash = nat

  /** A 160-bit address, read as a natural number. */
  type Address = nat

  const ZERO_ADDRESS: Address := 0

  /** The amount at which a transfer of an absent note creates the note. */
  const INIT_NOTE_VALUE: int := 100000000

  datatype Option<+T> = None | Some(value: T)

  datatype TxType = BG | BT | BR | BS | NT

  /** The fields of a banknote transaction that block processing reads. */
  datatype BanknoteTx = BanknoteTx(
    txHash: Hash, kind: TxType, from: Address, to: Address, note: Hash, amount: int,
    new1: Hash, amount1: int, new2: Hash, amount2: int)

  datatype Note = Note(hash: Hash, value: int, owner: Address)

  /** An account as stored in a state trie. */
  datatype Account = Account(nonce: nat, balance: int)

  /** One entry of the account modification channel. */
  datatype Record = Record(from: Address, to: Address, amount: int)

  /** The low 64 bits of a hash. */
  function Low64(h: Hash): nat { h % 0x1_0000_0000_0000_0000 }

  /** The ledger a hash is routed to: its low 64 bits modulo the number of ledgers. */
  function GetLedgerHashByID(ledgers: nat, h: Hash): (id: nat)
    requires ledgers > 0
    ensures id < ledgers
  {
    Low64(h) % ledgers
  }

  /** `h` is `high` times 2 to the 64 plus `low`, and `low` is a whole number of rounds through the ledgers plus `id`. */
  predicate RoundsTo(h: Hash, ledgers: nat, high: nat, low: nat, rounds: nat, id: nat) {
    h == high * 0x1_0000_0000_0000_0000 + low && low < 0x1_0000_0000_0000_0000 && low == rounds * ledgers + id
  }

  /** It is the one ledger that a whole number of rounds through the ledgers leaves of the low 64 bits. */
  lemma RoutedIff(ledgers: nat, h: Hash, id: nat)
    requires ledgers > 0
    ensures GetLedgerHashByID(ledgers, h) == id <==> id < ledgers && exists high, low, rounds :: RoundsTo(h, ledgers, high, low, rounds, id)
  {
    var high, low := h / 0x1_0000_0000_0000_0000, Low64(h);
    DivMod(h, 0x1_0000_0000_0000_0000);
    DivMod(low, ledgers);
    if GetLedgerHashByID(ledgers, h) == id { assert RoundsTo(h, ledgers, high, low, low / ledgers, id); }
    if high', low', rounds :| RoundsTo(h, ledgers, high', low', rounds, id) {
      Quotient(h, 0x1_0000_0000_0000_0000, high', low');
      assert low' == low;
      if id < ledgers { Quotient(low, ledgers, rounds, id); }
    }
  }
}

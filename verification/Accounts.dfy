/** Account states, and the meaning of one transfer and one netted change on a state trie.
    A state trie is the map from address to stored account. */
module Accounts {
  import opened BanknoteTypes
  import opened MapSums

  type StateTrie = map<Address, Account>

  /** `Deduct` leaves the account alone unless the balance strictly exceeds the amount. */
  function Deducted(a: Account, amount: int): Account {
    if a.balance <= amount then a else a.(balance := a.balance - amount)
  }

  function Deposited(a: Account, amount: int): Account { a.(balance := a.balance + amount) }

  function Bumped(a: Account): Account { a.(nonce := a.nonce + 1) }

  /** The stored account, or the one an unknown address opens with. */
  function Opened(st: StateTrie, addr: Address, initBalance: int): Account {
    if addr in st then st[addr] else Account(0, initBalance)
  }

  /** The balances of a state trie above the opening balance. */
  function Above(st: StateTrie, initBalance: int): map<Address, int> { map a | a in st :: st[a].balance - initBalance }

  ghost function Excess(st: StateTrie, initBalance: int): int { MSum(Above(st, initBalance)) }

  predicate AllPositive(st: StateTrie) { forall a :: a in st ==> st[a].balance > 0 }

  /** The working copy of an account that processing decodes from the trie, changes and encodes back. */
  class AccountState {
    var Nonce: nat
    var Balance: int

    function Encode(): Account
      reads this
    {
      Account(Nonce, Balance)
    }

    /** Decodes a stored account. */
    constructor Decode(a: Account)
      ensures Nonce == a.nonce && Balance == a.balance && Encode() == a
    {
      Nonce := a.nonce;
      Balance := a.balance;
    }

    method Deduct(val: int) returns (ok: bool)
      modifies this`Balance
      ensures ok <==> old(Balance) > val
      ensures Balance == old(Balance) - if ok then val else 0
      ensures Encode() == Deducted(old(Encode()), val)
    {
      if Balance <= val {
        return false;
      }
      Balance := Balance - val;
      return true;
    }

    method Deposit(value: int)
      modifies this`Balance
      ensures Balance == old(Balance) + value
      ensures Encode() == Deposited(old(Encode()), value)
    {
      Balance := Balance + value;
    }
  }

  /** Reads an account from the trie, opening an unknown one with the initial balance. */
  method Open(st: StateTrie, addr: Address, initBalance: int) returns (state: AccountState)
    ensures fresh(state) && state.Encode() == Opened(st, addr, initBalance)
    ensures state.Nonce == (if addr in st then st[addr].nonce else 0)
    ensures state.Balance == (if addr in st then st[addr].balance else initBalance)
  {
    if addr in st {
      state := new AccountState.Decode(st[addr]);
    } else {
      state := new AccountState.Decode(Account(0, initBalance));
    }
  }
}

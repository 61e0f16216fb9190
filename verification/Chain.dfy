/** What every contract shares: addresses, the panic result, the token ledger and Rust's integer operators. */
module Chain {

  /** An account on the ledger. `Contract` is the address of the contract being modelled. */
  datatype Address = Contract | Account(id: nat)

  /** An address that can authorise a call: every address but the contract's own. */
  type Party = a: Address | a.Account? witness Account(0)

  /** The result of an entry point; `None` is a panic, which undoes every write of the call. */
  datatype Option<+T> = None | Some(value: T) {
    predicate IsFailure() { None? }

    function PropagateFailure<U>(): Option<U>
      requires None?
    {
      None
    }

    function Extract(): T
      requires Some?
    {
      value
    }

    function GetOr(default: T): T {
      if Some? then value else default
    }
  }

  /** The outcome of a guard: `Panic` when the guarded condition does not hold. */
  datatype Guard = Pass | Panic {
    predicate IsFailure() { Panic? }

    function PropagateFailure<U>(): Option<U>
      requires Panic?
    {
      None
    }
  }

  function Require(condition: bool): Guard {
    if condition then Pass else Panic
  }

  function Lookup<K, V>(m: map<K, V>, k: K): Option<V> {
    if k in m then Some(m[k]) else None
  }

  function GetOr<K, V>(m: map<K, V>, k: K, default: V): V {
    if k in m then m[k] else default
  }

  // ----- the external token contract -----

  /** The token's balances; an address without an entry holds nothing. */
  type Ledger = map<Address, int>

  function Balance(ledger: Ledger, a: Address): int {
    if a in ledger then ledger[a] else 0
  }

  /** The recipient's balance is read after the sender's write, so a transfer to oneself changes nothing. */
  function Transfer(ledger: Ledger, from: Address, to: Address, amount: int): Option<Ledger> {
    if !(0 <= amount <= Balance(ledger, from)) then None else
    var debited := ledger[from := Balance(ledger, from) - amount];
    Some(debited[to := Balance(debited, to) + amount])
  }

  /** The part of a payment of `amount` to `to` that account `a` receives. */
  function Credit(a: Address, to: Address, amount: int): int {
    if a == to then amount else 0
  }

  /** Every account's balance after a transfer, the parties' own and a self-transfer included. */
  lemma TransferMoves(ledger: Ledger, from: Address, to: Address, amount: int, a: Address)
    requires Transfer(ledger, from, to, amount).Some?
    ensures Balance(Transfer(ledger, from, to, amount).value, a)
         == Balance(ledger, a) + Credit(a, to, amount) - Credit(a, from, amount)
  {
  }

  function Burn(ledger: Ledger, from: Address, amount: int): Option<Ledger> {
    if !(0 <= amount <= Balance(ledger, from)) then None else
    Some(ledger[from := Balance(ledger, from) - amount])
  }

  // ----- Rust integers -----

  const U32_MAX: int := 0xFFFF_FFFF
  const U64_MAX: int := 0xFFFF_FFFF_FFFF_FFFF
  const I128_MIN: int := -0x8000_0000_0000_0000_0000_0000_0000_0000

  type U32 = x: int | 0 <= x <= 0xFFFF_FFFF
  type U64 = x: int | 0 <= x <= 0xFFFF_FFFF_FFFF_FFFF

  /** Division that truncates toward zero. */
  function Quot(n: int, d: int): int
    requires d != 0
  {
    if n >= 0 && d > 0 then n / d
    else if n < 0 && d < 0 then (-n) / (-d)
    else if n < 0 then -((-n) / d)
    else -(n / (-d))
  }

  /** The cast `as u32`. */
  function AsU32(x: int): U32 {
    x % 0x1_0000_0000
  }

  function Min(a: int, b: int): int {
    if a <= b then a else b
  }

  function Max(a: int, b: int): int {
    if a >= b then a else b
  }
}

/** The governance token: conservation, the supply cap, allowances and voting power. */
module GovernanceToken {
  import opened Chain
  import Runs
  import Sums

  datatype State = State(
    admin: Party, supply: int, balances: map<Address, int>, allowances: map<(Address, Address), int>,
    delegations: map<Address, Address>)

  datatype Call =
    | Send(from: Party, to: Address, amount: int)
    | SendFrom(signer: Party, holder: Address, to: Address, amount: int)
    | Allow(owner: Party, spender: Address, amount: int)
    | Mint(caller: Party, recipient: Address, amount: int)
    | Burn(from: Party, amount: int)
    | Delegate(delegator: Party, to: Address)
    | Revoke(delegator: Party)

  const MAX_SUPPLY := 1_000_000_000_000

  function Init(admin: Party): State {
    State(admin, 0, map[], map[], map[])
  }

  // ----- what each entry point does -----

  function BalanceOf(s: State, a: Address): int {
    GetOr(s.balances, a, 0)
  }

  function Allowance(s: State, owner: Address, spender: Address): int {
    GetOr(s.allowances, (owner, spender), 0)
  }

  /** Debits, writes, and only then reads the recipient's balance: a transfer to oneself changes nothing. */
  function Moved(balances: map<Address, int>, from: Address, to: Address, amount: int): map<Address, int> {
    var debited := balances[from := GetOr(balances, from, 0) - amount];
    debited[to := GetOr(debited, to, 0) + amount]
  }

  function Step(s: State, c: Call): Option<State> {
    match c
    case Send(from, to, amount) =>
      :- Require(amount > 0);
      :- Require(BalanceOf(s, from) >= amount);
      Some(s.(balances := Moved(s.balances, from, to, amount)))
    case SendFrom(spender, from, to, amount) =>
      :- Require(Allowance(s, from, spender) >= amount);
      :- Require(BalanceOf(s, from) >= amount);
      Some(s.(allowances := s.allowances[(from, spender) := Allowance(s, from, spender) - amount],
              balances := Moved(s.balances, from, to, amount)))
    case Allow(owner, spender, amount) =>
      Some(s.(allowances := s.allowances[(owner, spender) := amount]))
    case Mint(caller, recipient, amount) =>
      :- Require(caller == s.admin);
      :- Require(s.supply + amount <= MAX_SUPPLY);
      Some(s.(balances := s.balances[recipient := BalanceOf(s, recipient) + amount], supply := s.supply + amount))
    case Burn(from, amount) =>
      :- Require(BalanceOf(s, from) >= amount);
      Some(s.(balances := s.balances[from := BalanceOf(s, from) - amount], supply := s.supply - amount))
    case Delegate(delegator, to) =>
      Some(s.(delegations := s.delegations[delegator := to]))
    case Revoke(delegator) =>
      Some(s.(delegations := s.delegations - {delegator}))
  }

  function Next(s: State, c: Call): State {
    Step(s, c).GetOr(s)
  }

  // ----- conservation, on every run -----

  ghost function Held(a: Address, amount: int): int { amount }

  ghost predicate Conserved(s: State) {
    Sums.Sum(s.balances, Held) == s.supply
  }

  lemma MoveConserves(balances: map<Address, int>, from: Address, to: Address, amount: int)
    ensures Sums.Sum(Moved(balances, from, to, amount), Held) == Sums.Sum(balances, Held)
  {
    var debited := balances[from := GetOr(balances, from, 0) - amount];
    Sums.SumUpdate(balances, Held, from, debited[from]);
    Sums.SumUpdate(debited, Held, to, GetOr(debited, to, 0) + amount);
  }

  lemma NextConserves(s: State, c: Call)
    requires Conserved(s)
    ensures Conserved(Next(s, c))
  {
    match c
    case Send(from, to, amount) => MoveConserves(s.balances, from, to, amount);
    case SendFrom(_, from, to, amount) => MoveConserves(s.balances, from, to, amount);
    case Mint(_, recipient, amount) => Sums.SumUpdate(s.balances, Held, recipient, BalanceOf(s, recipient) + amount);
    case Burn(from, amount) => Sums.SumUpdate(s.balances, Held, from, BalanceOf(s, from) - amount);
    case _ =>
  }

  /** The balances always add up to the supply, self-transfers and negative amounts included. */
  lemma {:induction false} RunConserves(s: State, calls: seq<Call>)
    requires Conserved(s)
    ensures Conserved(Runs.Run(Next, s, calls))
    decreases |calls|
  {
    if calls != [] {
      NextConserves(s, calls[0]);
      RunConserves(Next(s, calls[0]), calls[1..]);
    }
  }

  lemma SelfTransferChangesNothing(s: State, a: Party, amount: int, who: Address)
    ensures BalanceOf(Next(s, Send(a, a, amount)), who) == BalanceOf(s, who)
  {
  }

  // ----- what each call brings and takes, and when it succeeds -----

  /** What a successful call adds to the balance of `a`, less what it takes from it. */
  function Change(a: Address): (State, Call) -> int {
    (s: State, c: Call) =>
      if Step(s, c).None? then 0 else
      match c
      case Send(from, to, x) => Credit(a, to, x) - Credit(a, from, x)
      case SendFrom(_, from, to, x) => Credit(a, to, x) - Credit(a, from, x)
      case Mint(_, to, x) => Credit(a, to, x)
      case Burn(from, x) => -Credit(a, from, x)
      case _ => 0
  }

  lemma BalanceStep(s: State, c: Call, a: Address)
    ensures BalanceOf(Next(s, c), a) == BalanceOf(s, a) + Change(a)(s, c)
  {
  }

  /** Over every run every balance changes by exactly what the successful calls bring it and take from it. */
  lemma {:induction false} BalanceLaw(s: State, calls: seq<Call>, a: Address)
    ensures BalanceOf(Runs.Run(Next, s, calls), a) == BalanceOf(s, a) + Runs.Collect(Next, Change(a), s, calls)
    decreases |calls|
  {
    if calls != [] {
      BalanceStep(s, calls[0], a);
      BalanceLaw(Next(s, calls[0]), calls[1..], a);
    }
  }

  /** A transfer within the sender's balance moves its amount, from the sender to the recipient. */
  lemma TransferMovesAmount(s: State, from: Party, to: Address, amount: int, a: Address)
    ensures Step(s, Send(from, to, amount)).Some? <==> 0 < amount <= BalanceOf(s, from)
    ensures 0 < amount <= BalanceOf(s, from) ==>
              BalanceOf(Next(s, Send(from, to, amount)), a)
              == BalanceOf(s, a) + Credit(a, to, amount) - Credit(a, from, amount)
  {
  }

  /** So does one within balance and allowance, and it lowers that allowance and no other by as much. */
  lemma SpendingMovesAmount(s: State, u: Party, from: Address, to: Address, amount: int, a: Address, b: Address)
    ensures var s', within := Next(s, SendFrom(u, from, to, amount)),
                              amount <= BalanceOf(s, from) && amount <= Allowance(s, from, u);
            && (Step(s, SendFrom(u, from, to, amount)).Some? <==> within)
            && (within ==> BalanceOf(s', a) == BalanceOf(s, a) + Credit(a, to, amount) - Credit(a, from, amount))
            && Allowance(s', a, b) == Allowance(s, a, b) - (if within && (a, b) == (from, u) then amount else 0)
  {
  }

  /** Minting succeeds exactly for the administrator within the cap, and changes one balance and the supply alike. */
  lemma MintBringsAmount(s: State, u: Party, to: Address, amount: int, a: Address)
    ensures Step(s, Mint(u, to, amount)).Some? <==> u == s.admin && amount <= MAX_SUPPLY - s.supply
    ensures Step(s, Mint(u, to, amount)).Some? ==>
              var s' := Next(s, Mint(u, to, amount));
              BalanceOf(s', a) == BalanceOf(s, a) + Credit(a, to, amount) && s'.supply == s.supply + amount
  {
  }

  /** Burning succeeds exactly within the balance, and lowers it and the supply alike. */
  lemma BurnTakesAmount(s: State, u: Party, amount: int, a: Address)
    ensures Step(s, Burn(u, amount)).Some? <==> amount <= BalanceOf(s, u)
    ensures Step(s, Burn(u, amount)).Some? ==>
              var s' := Next(s, Burn(u, amount));
              BalanceOf(s', a) == BalanceOf(s, a) - Credit(a, u, amount) && s'.supply == s.supply - amount
  {
  }

  // ----- the cap and non-negative balances -----

  ghost predicate Sound(s: State) {
    s.supply <= MAX_SUPPLY && forall a | a in s.balances :: s.balances[a] >= 0
  }

  /** What keeps one particular state sound: the contract checks the sign of the amount in `Send` only. */
  predicate Harmless(s: State, c: Call) {
    match c
    case SendFrom(_, from, to, amount) => from == to || amount >= -BalanceOf(s, to)
    case Mint(_, recipient, amount) => amount >= -BalanceOf(s, recipient)
    case Burn(_, amount) => s.supply - amount <= MAX_SUPPLY
    case _ => true
  }

  lemma SoundIffHarmless(s: State, c: Call)
    requires Sound(s) && Step(s, c).Some?
    ensures Sound(Next(s, c)) <==> Harmless(s, c)
  {
    var s' := Next(s, c);
    if c.SendFrom? && !Harmless(s, c) {
      assert c.to in s'.balances && s'.balances[c.to] < 0;
    }
    if c.Mint? && !Harmless(s, c) {
      assert c.recipient in s'.balances && s'.balances[c.recipient] < 0;
    }
  }

  /** The sign check the contract does not make. */
  predicate SignChecked(c: Call) {
    match c
    case SendFrom(_, from, to, amount) => from == to || amount >= 0
    case Mint(_, _, amount) => amount >= 0
    case Burn(_, amount) => amount >= 0
    case _ => true
  }

  /** A sound ledger whose balances add up, as every run of calls with checked signs leaves it. */
  ghost predicate Good(s: State) {
    Sound(s) && Conserved(s)
  }

  lemma InitIsGood(admin: Party)
    ensures Good(Init(admin))
  {
  }

  /** All tokens there can be, held by one account. */
  function FullState(holder: Party): State {
    Init(holder).(supply := MAX_SUPPLY, balances := map[holder := MAX_SUPPLY])
  }

  lemma FullStateIsReachable(holder: Party)
    ensures Next(Init(holder), Mint(holder, holder, MAX_SUPPLY)) == FullState(holder)
    ensures Good(FullState(holder))
  {
    InitIsGood(holder);
    NextConserves(Init(holder), Mint(holder, holder, MAX_SUPPLY));
  }

  /** A reachable state in which an unchecked sign does harm. */
  function HarmedState(c: Call): State {
    match c
    case SendFrom(signer, _, _, _) => Init(signer)
    case Mint(caller, _, _) => Init(caller)
    case Burn(from, _) => FullState(from)
    case _ => Init(Account(0))
  }

  /** Without the sign check a call can make a balance negative or break the cap, in a state some run leads to. */
  lemma UncheckedSignDoesHarm(c: Call)
    requires !SignChecked(c)
    ensures Good(HarmedState(c)) && Step(HarmedState(c), c).Some? && !Sound(Next(HarmedState(c), c))
  {
    if c.SendFrom? {
      InitIsGood(c.signer);
    } else if c.Mint? {
      InitIsGood(c.caller);
    } else {
      FullStateIsReachable(c.from);
    }
    SoundIffHarmless(HarmedState(c), c);
  }

  /**
   * A call is safe in every good state, keeping balances non-negative and the supply within its cap, exactly
   * when it passes the sign check that the contract leaves out.
   */
  lemma SafeIffSignChecked(c: Call)
    ensures (forall s | Good(s) && Step(s, c).Some? :: Good(Next(s, c))) <==> SignChecked(c)
  {
    if SignChecked(c) {
      forall s | Good(s) && Step(s, c).Some? ensures Good(Next(s, c)) {
        SoundIffHarmless(s, c);
        NextConserves(s, c);
      }
    } else {
      UncheckedSignDoesHarm(c);
    }
  }

  /** On real runs: a first mint or a first transfer on allowance with a negative amount overdraws an account. */
  lemma NegativeAmountsOverdraw(admin: Party, u: Party, v: Address, k: int)
    requires k > 0 && v != u
    ensures BalanceOf(Runs.Run(Next, Init(admin), [Mint(admin, v, -k)]), v) == -k
    ensures BalanceOf(Runs.Run(Next, Init(admin), [SendFrom(u, u, v, -k)]), v) == -k
  {
    var s0 := Init(admin);
    assert Runs.Run(Next, s0, [Mint(admin, v, -k)]) == Next(s0, Mint(admin, v, -k));
    assert Runs.Run(Next, s0, [SendFrom(u, u, v, -k)]) == Next(s0, SendFrom(u, u, v, -k));
  }

  /** Burning a negative amount is accepted and can lift the supply above its cap. */
  lemma NegativeBurnBreaksCap(s: State, from: Party, excess: int)
    requires Sound(s) && excess > MAX_SUPPLY - s.supply
    ensures Step(s, Burn(from, -excess)).Some? && Next(s, Burn(from, -excess)).supply > MAX_SUPPLY
  {
    assert excess > 0 && BalanceOf(s, from) >= 0;
  }

  // ----- who can lower a balance -----

  /** The account that authorises a call. */
  function Caller(c: Call): Party {
    match c
    case Send(from, _, _) => from
    case SendFrom(signer, _, _, _) => signer
    case Allow(owner, _, _) => owner
    case Mint(caller, _, _) => caller
    case Burn(from, _) => from
    case Delegate(delegator, _) => delegator
    case Revoke(delegator) => delegator
  }

  /** Account `a` made the call itself, or loses no more than it allowed the caller to spend. */
  predicate Consented(s: State, c: Call, a: Address) {
    || a == Caller(c)
    || (c.SendFrom? && c.holder == a && BalanceOf(s, a) - BalanceOf(Next(s, c), a) <= Allowance(s, a, c.signer))
  }

  /** The sign check that protects everybody but the caller. */
  predicate TakesOnlyWithConsent(c: Call) {
    match c
    case SendFrom(signer, holder, to, amount) => holder == to || to == signer || amount >= 0
    case Mint(caller, recipient, amount) => recipient == caller || amount >= 0
    case _ => true
  }

  /**
   * In every good state a balance falls only by its owner's own call or within an allowance the owner gave,
   * exactly under that check.
   */
  lemma BalancesFallOnlyByConsent(c: Call)
    ensures (forall s, a | Good(s) && BalanceOf(Next(s, c), a) < BalanceOf(s, a) :: Consented(s, c, a))
            <==> TakesOnlyWithConsent(c)
  {
    if !TakesOnlyWithConsent(c) {
      var s, a := HarmedState(c), if c.Mint? then c.recipient else c.to;
      UncheckedSignDoesHarm(c);
      assert BalanceOf(Next(s, c), a) < BalanceOf(s, a) && !Consented(s, c, a);
    }
  }

  /** Nobody may spend what `a` holds. */
  ghost predicate GrantsNothing(s: State, a: Address) {
    forall spender: Address :: Allowance(s, a, spender) <= 0
  }

  lemma IdleStep(s: State, c: Call, a: Address)
    requires GrantsNothing(s, a) && NonNegative(c) && Caller(c) != a
    ensures GrantsNothing(Next(s, c), a) && BalanceOf(Next(s, c), a) >= BalanceOf(s, a)
  {
    var s' := Next(s, c);
    forall spender: Address ensures Allowance(s', a, spender) <= 0 {
      assert Allowance(s, a, spender) <= 0;
    }
    if c.SendFrom? && c.holder == a {
      assert Allowance(s, a, c.signer) <= 0;
    }
  }

  /** On runs of non-negative amounts, an account that grants no allowance and makes no call never loses tokens. */
  lemma {:induction false} IdleHolderKeepsBalance(s: State, calls: seq<Call>, a: Address)
    requires GrantsNothing(s, a)
    requires forall c | c in calls :: NonNegative(c) && Caller(c) != a
    ensures BalanceOf(Runs.Run(Next, s, calls), a) >= BalanceOf(s, a)
    decreases |calls|
  {
    if calls != [] {
      assert calls[0] in calls;
      IdleStep(s, calls[0], a);
      IdleHolderKeepsBalance(Next(s, calls[0]), calls[1..], a);
    }
  }

  // ----- runs of non-negative amounts -----

  predicate NonNegative(c: Call) {
    (c.SendFrom? || c.Mint? || c.Burn?) ==> c.amount >= 0
  }

  lemma {:induction false} RunKeepsSound(s: State, calls: seq<Call>)
    requires Sound(s) && forall c | c in calls :: NonNegative(c)
    ensures Sound(Runs.Run(Next, s, calls))
    decreases |calls|
  {
    if calls != [] {
      var c := calls[0];
      assert c in calls;
      if Step(s, c).Some? {
        SoundIffHarmless(s, c);
      }
      RunKeepsSound(Next(s, c), calls[1..]);
    }
  }

  // ----- voting power -----

  function VotingPower(s: State, voter: Address): int {
    if voter in s.delegations then 0 else BalanceOf(s, voter)
  }

  ghost function PowerUnder(delegations: map<Address, Address>): (Address, int) -> int {
    (a: Address, amount: int) => if a in delegations then 0 else amount
  }

  /** The voting power of all holders together; an account without a balance entry has none. */
  ghost function TotalPower(s: State): int {
    Sums.Sum(s.balances, PowerUnder(s.delegations))
  }

  lemma PowerIsTheTerm(s: State, a: Address)
    ensures VotingPower(s, a) == if a in s.balances then PowerUnder(s.delegations)(a, s.balances[a]) else 0
  {
  }

  /** On runs of non-negative amounts, all voting power together never exceeds the supply, nor the supply its cap. */
  lemma PowerWithinSupply(admin: Party, calls: seq<Call>)
    requires forall c | c in calls :: NonNegative(c)
    ensures var s := Runs.Run(Next, Init(admin), calls);
            0 <= TotalPower(s) <= s.supply <= MAX_SUPPLY
            && forall a :: BalanceOf(s, a) >= 0 && 0 <= VotingPower(s, a) <= TotalPower(s)
  {
    var s := Runs.Run(Next, Init(admin), calls);
    RunConserves(Init(admin), calls);
    RunKeepsSound(Init(admin), calls);
    Sums.SumMono(s.balances, PowerUnder(s.delegations), Held);
    Sums.SumNonNeg(s.balances, PowerUnder(s.delegations));
    forall a ensures VotingPower(s, a) <= TotalPower(s) {
      PowerIsTheTerm(s, a);
      if a in s.balances {
        Sums.TermAtMostSum(s.balances, PowerUnder(s.delegations), a);
      }
    }
  }

  /** Delegating takes away the delegator's power and gives nobody any: not the delegate, not anyone else. */
  lemma DelegatingSilences(s: State, u: Party, v: Address, a: Address)
    ensures VotingPower(Next(s, Delegate(u, v)), a) == if a == u then 0 else VotingPower(s, a)
    ensures VotingPower(Next(s, Revoke(u)), a) == if a == u then BalanceOf(s, u) else VotingPower(s, a)
  {
  }

  /** What the accounts that delegate hold. */
  ghost function SilencedUnder(delegations: map<Address, Address>): (Address, int) -> int {
    (a: Address, amount: int) => if a in delegations then amount else 0
  }

  /**
   * On every run, negative amounts included, the power of all accounts is exactly the supply less what delegators
   * hold.
   */
  lemma PowerIsSupplyLessDelegated(admin: Party, calls: seq<Call>)
    ensures var s := Runs.Run(Next, Init(admin), calls);
            TotalPower(s) == s.supply - Sums.Sum(s.balances, SilencedUnder(s.delegations))
  {
    var s := Runs.Run(Next, Init(admin), calls);
    RunConserves(Init(admin), calls);
    Sums.SumSplit(s.balances, Held, PowerUnder(s.delegations), SilencedUnder(s.delegations));
  }

  // ----- allowances -----

  /** What a call moves out of `owner`'s account on `spender`'s allowance. */
  function SpentBy(owner: Address, spender: Address): (State, Call) -> int {
    (s: State, c: Call) =>
      if c.SendFrom? && c.holder == owner && c.signer == spender && Step(s, c).Some? then c.amount else 0
  }

  lemma AllowanceStep(s: State, c: Call, owner: Address, spender: Address)
    requires !(c.Allow? && c.owner == owner && c.spender == spender)
    ensures Allowance(Next(s, c), owner, spender) == Allowance(s, owner, spender) - SpentBy(owner, spender)(s, c)
    ensures NonNegative(c) && Allowance(s, owner, spender) >= 0 ==> Allowance(Next(s, c), owner, spender) >= 0
  {
  }

  /** Until the owner sets a new one, spending uses the allowance up, and with non-negative amounts never exceeds it. */
  lemma {:induction false} SpendingUsesAllowance(s: State, calls: seq<Call>, owner: Address, spender: Address)
    requires forall c | c in calls :: !(c.Allow? && c.owner == owner && c.spender == spender)
    ensures Allowance(Runs.Run(Next, s, calls), owner, spender)
         == Allowance(s, owner, spender) - Runs.Collect(Next, SpentBy(owner, spender), s, calls)
    ensures (forall c | c in calls :: NonNegative(c)) && Allowance(s, owner, spender) >= 0
            ==> Runs.Collect(Next, SpentBy(owner, spender), s, calls) <= Allowance(s, owner, spender)
    decreases |calls|
  {
    if calls != [] {
      assert calls[0] in calls;
      AllowanceStep(s, calls[0], owner, spender);
      SpendingUsesAllowance(Next(s, calls[0]), calls[1..], owner, spender);
    }
  }

  function SetsAllowance(owner: Address, spender: Address): Call -> Option<int> {
    (c: Call) => if c.Allow? && c.owner == owner && c.spender == spender then Some(c.amount) else None
  }

  /** On every run without spending of it, an allowance is the last one its owner set. */
  lemma {:induction false} AllowanceIsLastSet(s: State, calls: seq<Call>, owner: Address, spender: Address)
    requires forall c | c in calls :: !(c.SendFrom? && c.holder == owner && c.signer == spender)
    ensures Allowance(Runs.Run(Next, s, calls), owner, spender)
         == Runs.Last(calls, SetsAllowance(owner, spender))
              .GetOr(if (owner, spender) in s.allowances then s.allowances[(owner, spender)] else 0)
    decreases |calls|
  {
    if calls != [] {
      assert calls[0] in calls;
      AllowanceIsLastSet(Next(s, calls[0]), calls[1..], owner, spender);
    }
  }

  /** What a call says about the delegation of `u`: to somebody, or, by revoking it, to nobody. */
  function SetsDelegate(u: Address): Call -> Option<Option<Address>> {
    (c: Call) =>
      if c.Delegate? && c.delegator == u then Some(Some(c.to))
      else if c.Revoke? && c.delegator == u then Some(None)
      else None
  }

  lemma DelegateStep(s: State, c: Call, u: Address)
    ensures Lookup(Next(s, c).delegations, u) == SetsDelegate(u)(c).GetOr(Lookup(s.delegations, u))
  {
  }

  /** On every run an account's delegate is the last one it named, unless it revoked it since. */
  lemma {:induction false} DelegateIsLastNamed(s: State, calls: seq<Call>, u: Address)
    ensures Lookup(Runs.Run(Next, s, calls).delegations, u)
         == Runs.Last(calls, SetsDelegate(u)).GetOr(Lookup(s.delegations, u))
    decreases |calls|
  {
    if calls != [] {
      DelegateStep(s, calls[0], u);
      DelegateIsLastNamed(Next(s, calls[0]), calls[1..], u);
    }
  }

  // ----- who may change what -----

  function Minted(s: State, c: Call): int {
    if c.Mint? && c.caller == s.admin && Step(s, c).Some? then c.amount else 0
  }

  function Burned(s: State, c: Call): int {
    if c.Burn? && Step(s, c).Some? then c.amount else 0
  }

  /** Over every run the supply changes by exactly what the administrator mints less what holders burn. */
  lemma {:induction false} SupplyLaw(s: State, calls: seq<Call>)
    ensures Runs.Run(Next, s, calls).supply
         == s.supply + Runs.Collect(Next, Minted, s, calls) - Runs.Collect(Next, Burned, s, calls)
    decreases |calls|
  {
    if calls != [] {
      assert Next(s, calls[0]).supply == s.supply + Minted(s, calls[0]) - Burned(s, calls[0]);
      SupplyLaw(Next(s, calls[0]), calls[1..]);
    }
  }

  /** So through any run of non-negative amounts without calls of the administrator the supply never grows. */
  lemma {:induction false} SupplyNeverGrowsWithoutAdmin(s: State, calls: seq<Call>)
    requires forall c | c in calls :: NonNegative(c) && (c.Mint? ==> c.caller != s.admin)
    ensures Runs.Run(Next, s, calls).supply <= s.supply
    decreases |calls|
  {
    if calls != [] {
      assert calls[0] in calls;
      assert Next(s, calls[0]).admin == s.admin && Next(s, calls[0]).supply <= s.supply;
      SupplyNeverGrowsWithoutAdmin(Next(s, calls[0]), calls[1..]);
    }
  }

  // ----- the contract itself -----

  class Token {
    var admin: Party
    var supply: int
    var balances: map<Address, int>
    var allowances: map<(Address, Address), int>
    var delegations: map<Address, Address>

    function Snapshot(): State
      reads this
    {
      State(admin, supply, balances, allowances, delegations)
    }

    constructor (admin: Party)
      ensures Snapshot() == Init(admin)
    {
      this.admin, this.supply := admin, 0;
      this.balances, this.allowances, this.delegations := map[], map[], map[];
    }

    method Transfer(from: Party, to: Address, amount: int) returns (done: Option<()>)
      modifies this
      ensures Snapshot() == Next(old(Snapshot()), Send(from, to, amount))
      ensures done.Some? <==> Step(old(Snapshot()), Send(from, to, amount)).Some?
    {
      if amount <= 0 {
        return None;
      }
      var fromBalance := GetOr(balances, from, 0);
      :- Require(!(fromBalance < amount));
      balances := balances[from := fromBalance - amount];
      var toBalance := GetOr(balances, to, 0);
      balances := balances[to := toBalance + amount];
      return Some(());
    }

    method TransferFrom(spender: Party, from: Address, to: Address, amount: int) returns (done: Option<()>)
      modifies this
      ensures Snapshot() == Next(old(Snapshot()), SendFrom(spender, from, to, amount))
      ensures done.Some? <==> Step(old(Snapshot()), SendFrom(spender, from, to, amount)).Some?
    {
      var allowance := GetOr(allowances, (from, spender), 0);
      :- Require(!(allowance < amount));
      var fromBalance := GetOr(balances, from, 0);
      :- Require(!(fromBalance < amount));
      allowances := allowances[(from, spender) := allowance - amount];
      balances := balances[from := fromBalance - amount];
      var toBalance := GetOr(balances, to, 0);
      balances := balances[to := toBalance + amount];
      return Some(());
    }

    method MintTo(caller: Party, recipient: Address, amount: int) returns (done: Option<()>)
      modifies this
      ensures Snapshot() == Next(old(Snapshot()), Mint(caller, recipient, amount))
      ensures done.Some? <==> Step(old(Snapshot()), Mint(caller, recipient, amount)).Some?
    {
      if caller != admin {
        return None;
      }
      :- Require(!(supply + amount > MAX_SUPPLY));
      var balance := GetOr(balances, recipient, 0);
      balances := balances[recipient := balance + amount];
      supply := supply + amount;
      return Some(());
    }

    method BurnOwn(from: Party, amount: int) returns (done: Option<()>)
      modifies this
      ensures Snapshot() == Next(old(Snapshot()), Burn(from, amount))
      ensures done.Some? <==> Step(old(Snapshot()), Burn(from, amount)).Some?
    {
      var balance := GetOr(balances, from, 0);
      :- Require(!(balance < amount));
      balances := balances[from := balance - amount];
      supply := supply - amount;
      return Some(());
    }

    method DelegateTo(delegator: Party, to: Address)
      modifies this
      ensures Snapshot() == Next(old(Snapshot()), Delegate(delegator, to))
    {
      delegations := delegations[delegator := to];
    }

    method RevokeDelegation(delegator: Party)
      modifies this
      ensures Snapshot() == Next(old(Snapshot()), Revoke(delegator))
    {
      delegations := delegations - {delegator};
    }

    method Approve(owner: Party, spender: Address, amount: int)
      modifies this
      ensures Snapshot() == Next(old(Snapshot()), Allow(owner, spender, amount))
    {
      allowances := allowances[(owner, spender) := amount];
    }
  }
}

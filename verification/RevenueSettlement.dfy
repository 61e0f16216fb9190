/** The revenue settlement: basis-point splits, and the books behind every claim and distribution. */
module RevenueSettlement {
  import opened Chain
  import Arith
  import Runs
  import Sums

  datatype Pool = Pool(total: int, platform: int, publisher: int, treasury: int, burn: int)

  datatype State = State(
    admin: Party, treasuryAddress: Address, platformAddress: Address,
    pool: Pool, settlements: nat, balances: map<Party, int>, token: Ledger)

  datatype Call =
    | Record(caller: Party, amount: int, publisher: Party)
    | Distribute(caller: Party)
    | Claim(publisher: Party)
    | Outside(sender: Party, to: Address, amount: int)

  const PLATFORM_BPS := 250
  const PUBLISHER_BPS := 9_000
  const TREASURY_BPS := 500
  const BURN_BPS := 250

  function Init(admin: Party, treasury: Address, platform: Address, token: Ledger): State {
    State(admin, treasury, platform, Pool(0, 0, 0, 0, 0), 0, map[], token)
  }

  // ----- what each entry point does -----

  function Part(amount: int, bps: int): int {
    Quot(amount * bps, 10_000)
  }

  /** What is left for the publisher after the three fees. */
  function PublisherPart(amount: int): int {
    amount - Part(amount, PLATFORM_BPS) - Part(amount, TREASURY_BPS) - Part(amount, BURN_BPS)
  }

  function Dust(amount: int): int {
    amount - (Part(amount, PLATFORM_BPS) + Part(amount, TREASURY_BPS) + Part(amount, BURN_BPS) + PublisherPart(amount))
  }

  function RecordStep(s: State, caller: Party, amount: int, publisher: Party): Option<State> {
    if caller != s.admin then None else
    var p := s.pool;
    Some(s.(pool := Pool(p.total + amount,
                         p.platform + Part(amount, PLATFORM_BPS),
                         p.publisher + PublisherPart(amount),
                         p.treasury + (Part(amount, TREASURY_BPS) + Dust(amount)),
                         p.burn + Part(amount, BURN_BPS)),
            settlements := s.settlements + 1,
            balances := s.balances[publisher := GetOr(s.balances, publisher, 0) + PublisherPart(amount)]))
  }

  function PayIfPositive(ledger: Ledger, to: Address, amount: int): Option<Ledger> {
    if amount > 0 then Transfer(ledger, Contract, to, amount) else Some(ledger)
  }

  function BurnIfPositive(ledger: Ledger, amount: int): Option<Ledger> {
    if amount > 0 then Burn(ledger, Contract, amount) else Some(ledger)
  }

  /** A share that was paid becomes zero; one that was not positive stays. */
  function Unpaid(amount: int): int {
    if amount > 0 then 0 else amount
  }

  function DistributeStep(s: State, caller: Party): Option<State> {
    if caller != s.admin then None else
    var p := s.pool;
    var t1 :- PayIfPositive(s.token, s.platformAddress, p.platform);
    var t2 :- PayIfPositive(t1, s.treasuryAddress, p.treasury);
    var t3 :- BurnIfPositive(t2, p.burn);
    Some(s.(pool := p.(platform := Unpaid(p.platform), treasury := Unpaid(p.treasury), burn := Unpaid(p.burn)),
            token := t3))
  }

  function ClaimStep(s: State, publisher: Party): Option<State> {
    var due := GetOr(s.balances, publisher, 0);
    :- Require(due > 0);
    var token :- Transfer(s.token, Contract, publisher, due);
    Some(s.(balances := s.balances[publisher := 0], token := token))
  }

  function Step(s: State, c: Call): Option<State> {
    match c
    case Record(caller, amount, publisher) => RecordStep(s, caller, amount, publisher)
    case Distribute(caller) => DistributeStep(s, caller)
    case Claim(publisher) => ClaimStep(s, publisher)
    case Outside(sender, to, amount) =>
      var token :- Transfer(s.token, sender, to, amount);
      Some(s.(token := token))
  }

  function Next(s: State, c: Call): State {
    Step(s, c).GetOr(s)
  }

  // ----- the split -----

  /** Nothing is ever left over, and the publisher's part is nine tenths rounded up by less than three units. */
  lemma SplitIsExact(amount: int)
    ensures Dust(amount) == 0
    ensures amount >= 0 ==> 0 <= 10_000 * PublisherPart(amount) - PUBLISHER_BPS * amount < 30_000
    ensures amount >= 0 ==>
              Part(amount, PLATFORM_BPS) >= 0 && Part(amount, TREASURY_BPS) >= 0 && Part(amount, BURN_BPS) >= 0
  {
    if amount >= 0 {
      Arith.QuotIsFloor(amount * PLATFORM_BPS, 10_000);
      Arith.QuotIsFloor(amount * TREASURY_BPS, 10_000);
      Arith.QuotIsFloor(amount * BURN_BPS, 10_000);
    }
  }

  /** Of a non-negative amount 2.5 percent go to the platform and the burn each, 5 to the treasury, all rounded down. */
  lemma PartsAreFloors(amount: int)
    requires amount >= 0
    ensures 1000 * Part(amount, PLATFORM_BPS) <= 25 * amount < 1000 * (Part(amount, PLATFORM_BPS) + 1)
    ensures 100 * Part(amount, TREASURY_BPS) <= 5 * amount < 100 * (Part(amount, TREASURY_BPS) + 1)
    ensures 1000 * Part(amount, BURN_BPS) <= 25 * amount < 1000 * (Part(amount, BURN_BPS) + 1)
  {
    Arith.QuotIsFloor(amount * PLATFORM_BPS, 10_000);
    Arith.QuotIsFloor(amount * TREASURY_BPS, 10_000);
    Arith.QuotIsFloor(amount * BURN_BPS, 10_000);
  }

  // ----- the books, on every run -----

  ghost function DueTo(p: Party, due: int): int { due }

  ghost function Claimable(s: State): int {
    Sums.Sum(s.balances, DueTo)
  }

  /** What the contract owes: the undistributed platform, treasury and burn shares and every publisher's balance. */
  ghost function Owed(s: State): int {
    s.pool.platform + s.pool.treasury + s.pool.burn + Claimable(s)
  }

  function Positive(amount: int): int {
    Max(amount, 0)
  }

  /** Payouts that come back at once, because the address they go to is the contract's own. */
  function Returned(s: State, c: Call): int {
    if c.Distribute? && Step(s, c).Some? then
      Credit(Contract, s.platformAddress, Positive(s.pool.platform))
      + Credit(Contract, s.treasuryAddress, Positive(s.pool.treasury))
    else 0
  }

  /** Tokens a call pays out or burns, read off the contract's balance. */
  function Settled(s: State, c: Call): int {
    if c.Outside? then 0
    else Balance(s.token, Contract) - Balance(Next(s, c).token, Contract) + Returned(s, c)
  }

  /** Tokens a claim brings its publisher, read off the publisher's balance. */
  function ClaimedNow(s: State, c: Call): int {
    if c.Claim? then Balance(Next(s, c).token, c.publisher) - Balance(s.token, c.publisher) else 0
  }

  function Revenue(s: State, c: Call): int {
    if c.Record? && Step(s, c).Some? then c.amount else 0
  }

  /** A claim moves what is due, to its publisher and from nobody but the contract. */
  lemma ClaimPaysPublisher(s: State, publisher: Party, a: Address)
    requires ClaimStep(s, publisher).Some?
    ensures var due, s' := s.balances[publisher], Next(s, Claim(publisher));
            due > 0 && s'.balances[publisher] == 0
            && Balance(s'.token, a) == Balance(s.token, a) + Credit(a, publisher, due) - Credit(a, Contract, due)
  {
    TransferMoves(s.token, Contract, publisher, s.balances[publisher], a);
  }

  lemma PayMoves(ledger: Ledger, to: Address, amount: int, a: Address)
    requires PayIfPositive(ledger, to, amount).Some?
    ensures Balance(PayIfPositive(ledger, to, amount).value, a)
         == Balance(ledger, a) + Credit(a, to, Positive(amount)) - Credit(a, Contract, Positive(amount))
  {
  }

  lemma BurnMoves(ledger: Ledger, amount: int, a: Address)
    requires BurnIfPositive(ledger, amount).Some?
    ensures Balance(BurnIfPositive(ledger, amount).value, a)
         == Balance(ledger, a) - Credit(a, Contract, Positive(amount))
  {
  }

  /** A distribution moves the positive shares, each to its own address, and burns the rest. */
  lemma DistributionPaysShares(s: State, caller: Party, a: Address)
    requires DistributeStep(s, caller).Some?
    ensures var p, s' := s.pool, Next(s, Distribute(caller));
            var platform, treasury, burn := Positive(p.platform), Positive(p.treasury), Positive(p.burn);
            Balance(s'.token, a) == Balance(s.token, a) + Credit(a, s.platformAddress, platform)
            + Credit(a, s.treasuryAddress, treasury) - Credit(a, Contract, platform + treasury + burn)
  {
    var t1 := PayIfPositive(s.token, s.platformAddress, s.pool.platform).value;
    var t2 := PayIfPositive(t1, s.treasuryAddress, s.pool.treasury).value;
    PayMoves(s.token, s.platformAddress, s.pool.platform, a);
    PayMoves(t1, s.treasuryAddress, s.pool.treasury, a);
    BurnMoves(t2, s.pool.burn, a);
  }

  lemma BooksStep(s: State, c: Call)
    ensures Owed(Next(s, c)) + Settled(s, c) == Owed(s) + Revenue(s, c)
    ensures Next(s, c).pool.total == s.pool.total + Revenue(s, c)
    ensures Next(s, c).pool.publisher - Claimable(Next(s, c))
         == s.pool.publisher - Claimable(s) + ClaimedNow(s, c)
  {
    if Step(s, c).Some? {
      var s' := Next(s, c);
      match c
      case Record(_, amount, u) =>
        SplitIsExact(amount);
        Sums.SumUpdate(s.balances, DueTo, u, s'.balances[u]);
      case Claim(u) =>
        ClaimPaysPublisher(s, u, u);
        ClaimPaysPublisher(s, u, Contract);
        Sums.SumUpdate(s.balances, DueTo, u, 0);
      case Distribute(caller) => DistributionPaysShares(s, caller, Contract);
      case Outside(_, _, _) =>
    }
  }

  /**
   * The books balance on every run, negative amounts included: what is owed and the tokens that were paid or
   * burned add up to the revenue recorded, and the publishers' share is their balances plus the tokens their
   * claims brought them.
   */
  lemma {:induction false} BooksBalance(s: State, calls: seq<Call>)
    ensures var s' := Runs.Run(Next, s, calls);
            Owed(s') + Runs.Collect(Next, Settled, s, calls) - s'.pool.total == Owed(s) - s.pool.total
            && s'.pool.publisher - Claimable(s') - Runs.Collect(Next, ClaimedNow, s, calls)
               == s.pool.publisher - Claimable(s)
    decreases |calls|
  {
    if calls != [] {
      BooksStep(s, calls[0]);
      BooksBalance(Next(s, calls[0]), calls[1..]);
    }
  }

  /** The publisher parts recorded for `u`. */
  function EarnedBy(u: Party): (State, Call) -> int {
    (s: State, c: Call) => if c.Record? && c.publisher == u then PublisherPart(Revenue(s, c)) else 0
  }

  function ClaimedBy(u: Party): (State, Call) -> int {
    (s: State, c: Call) => if c.Claim? && c.publisher == u then ClaimedNow(s, c) else 0
  }

  lemma PublisherStep(s: State, c: Call, u: Party)
    ensures GetOr(Next(s, c).balances, u, 0) + ClaimedBy(u)(s, c) == GetOr(s.balances, u, 0) + EarnedBy(u)(s, c)
  {
    if c == Claim(u) && Step(s, c).Some? {
      ClaimPaysPublisher(s, u, u);
    }
  }

  /** On every run each publisher's balance and the tokens its claims brought it are its own recorded parts. */
  lemma {:induction false} PublisherGetsItsParts(s: State, calls: seq<Call>, u: Party)
    ensures GetOr(Runs.Run(Next, s, calls).balances, u, 0) + Runs.Collect(Next, ClaimedBy(u), s, calls)
         == GetOr(s.balances, u, 0) + Runs.Collect(Next, EarnedBy(u), s, calls)
    decreases |calls|
  {
    if calls != [] {
      PublisherStep(s, calls[0], u);
      PublisherGetsItsParts(Next(s, calls[0]), calls[1..], u);
    }
  }

  /** Tokens that arrive from outside: the funding of the contract. */
  function Funding(s: State, c: Call): int {
    if c.Outside? && c.to == Contract && Step(s, c).Some? then c.amount else 0
  }

  /** What the contract holds beyond what it owes. */
  ghost function Reserve(s: State): int {
    Balance(s.token, Contract) - Owed(s)
  }

  lemma ReserveStep(s: State, c: Call)
    ensures Reserve(Next(s, c)) == Reserve(s) + Funding(s, c) - Revenue(s, c) + Returned(s, c)
    ensures Returned(s, c) >= 0
  {
    BooksStep(s, c);
  }

  /**
   * Custody on every run, negative amounts included: the tokens beyond what is owed change by exactly the
   * funding less the revenue recorded, plus what payouts to the contract's own address bring back.
   */
  lemma {:induction false} CustodyLaw(s: State, calls: seq<Call>)
    ensures var s' := Runs.Run(Next, s, calls);
            Reserve(s') == Reserve(s) + Runs.Collect(Next, Funding, s, calls) - (s'.pool.total - s.pool.total)
            + Runs.Collect(Next, Returned, s, calls)
    ensures Runs.Collect(Next, Returned, s, calls) >= 0
    decreases |calls|
  {
    if calls != [] {
      BooksStep(s, calls[0]);
      ReserveStep(s, calls[0]);
      CustodyLaw(Next(s, calls[0]), calls[1..]);
    }
  }

  // ----- each share by itself -----

  /** What a recording adds to a share of `bps` basis points. */
  function Added(bps: int): (State, Call) -> int {
    (s: State, c: Call) => Part(Revenue(s, c), bps)
  }

  function PlatformPaid(s: State, c: Call): int {
    if c.Distribute? && Step(s, c).Some? then Positive(s.pool.platform) else 0
  }

  function TreasuryPaid(s: State, c: Call): int {
    if c.Distribute? && Step(s, c).Some? then Positive(s.pool.treasury) else 0
  }

  function Burnt(s: State, c: Call): int {
    if c.Distribute? && Step(s, c).Some? then Positive(s.pool.burn) else 0
  }

  function Recorded(s: State, c: Call): int {
    if c.Record? && Step(s, c).Some? then 1 else 0
  }

  lemma ShareStep(s: State, c: Call)
    ensures var p, p' := s.pool, Next(s, c).pool;
            && p'.platform == p.platform + Added(PLATFORM_BPS)(s, c) - PlatformPaid(s, c)
            && p'.treasury == p.treasury + Added(TREASURY_BPS)(s, c) - TreasuryPaid(s, c)
            && p'.burn == p.burn + Added(BURN_BPS)(s, c) - Burnt(s, c)
            && Next(s, c).settlements == s.settlements + Recorded(s, c)
  {
    SplitIsExact(Revenue(s, c));
  }

  /**
   * Over every run each share is its own parts of the revenues recorded, less what distributions took of that
   * share.
   */
  lemma {:induction false} SharesGetTheirParts(s: State, calls: seq<Call>)
    ensures var p, p' := s.pool, Runs.Run(Next, s, calls).pool;
            && p'.platform == p.platform + Runs.Collect(Next, Added(PLATFORM_BPS), s, calls)
                              - Runs.Collect(Next, PlatformPaid, s, calls)
            && p'.treasury == p.treasury + Runs.Collect(Next, Added(TREASURY_BPS), s, calls)
                              - Runs.Collect(Next, TreasuryPaid, s, calls)
            && p'.burn == p.burn + Runs.Collect(Next, Added(BURN_BPS), s, calls) - Runs.Collect(Next, Burnt, s, calls)
            && Runs.Run(Next, s, calls).settlements == s.settlements + Runs.Collect(Next, Recorded, s, calls)
    decreases |calls|
  {
    if calls != [] {
      ShareStep(s, calls[0]);
      SharesGetTheirParts(Next(s, calls[0]), calls[1..]);
    }
  }

  /** Exactly when each call succeeds; a payout to the contract's own address is there for the payouts after it. */
  lemma CallsSucceedIff(s: State, c: Call)
    ensures Step(s, c).Some? <==>
              match c
              case Record(u, _, _) => u == s.admin
              case Distribute(u) =>
                var p, t, b := Positive(s.pool.platform), Positive(s.pool.treasury), Positive(s.pool.burn);
                var afterP := Balance(s.token, Contract) - p + Credit(Contract, s.platformAddress, p);
                var afterT := afterP - t + Credit(Contract, s.treasuryAddress, t);
                && u == s.admin && (p > 0 ==> p <= Balance(s.token, Contract)) && (t > 0 ==> t <= afterP)
                && (b > 0 ==> b <= afterT)
              case Claim(u) => 0 < GetOr(s.balances, u, 0) <= Balance(s.token, Contract)
              case Outside(u, _, x) => 0 <= x <= Balance(s.token, u)
  {
    if c.Distribute? {
      var t1 := PayIfPositive(s.token, s.platformAddress, s.pool.platform);
      if t1.Some? {
        PayMoves(s.token, s.platformAddress, s.pool.platform, Contract);
        var t2 := PayIfPositive(t1.value, s.treasuryAddress, s.pool.treasury);
        if t2.Some? {
          PayMoves(t1.value, s.treasuryAddress, s.pool.treasury, Contract);
        }
      }
    }
  }

  // ----- solvency, on runs of non-negative amounts -----

  predicate NonNegative(c: Call) {
    c.Record? ==> c.amount >= 0
  }

  ghost predicate NoDebts(s: State) {
    && s.pool.platform >= 0 && s.pool.treasury >= 0 && s.pool.burn >= 0
    && (forall u | u in s.balances :: s.balances[u] >= 0)
  }

  lemma NextKeepsNoDebts(s: State, c: Call)
    requires NoDebts(s) && NonNegative(c)
    ensures NoDebts(Next(s, c))
  {
    if c.Record? {
      SplitIsExact(c.amount);
    }
  }

  lemma {:induction false} RunKeepsNoDebts(s: State, calls: seq<Call>)
    requires NoDebts(s) && forall c | c in calls :: NonNegative(c)
    ensures NoDebts(Runs.Run(Next, s, calls))
    decreases |calls|
  {
    if calls != [] {
      assert calls[0] in calls;
      NextKeepsNoDebts(s, calls[0]);
      RunKeepsNoDebts(Next(s, calls[0]), calls[1..]);
    }
  }

  lemma CoveredDebtsArePayable(s: State)
    requires NoDebts(s) && Reserve(s) >= 0
    ensures DistributeStep(s, s.admin).Some?
    ensures forall u: Party :: ClaimStep(s, u).Some? <==> GetOr(s.balances, u, 0) > 0
  {
    Sums.SumNonNeg(s.balances, DueTo);
    forall u | u in s.balances ensures s.balances[u] <= Claimable(s) {
      Sums.TermAtMostSum(s.balances, DueTo, u);
    }
  }

  /**
   * If what has been sent to the contract covers the recorded revenue, every claim and every distribution is
   * payable, in whatever order the earlier ones came.
   */
  lemma FundedPayoutsSucceed(admin: Party, treasury: Address, platform: Address, token: Ledger, calls: seq<Call>)
    requires forall c | c in calls :: NonNegative(c)
    requires var s0 := Init(admin, treasury, platform, token);
             Balance(token, Contract) + Runs.Collect(Next, Funding, s0, calls) >= Runs.Run(Next, s0, calls).pool.total
    ensures var s := Runs.Run(Next, Init(admin, treasury, platform, token), calls);
            DistributeStep(s, s.admin).Some?
            && forall u: Party :: ClaimStep(s, u).Some? <==> GetOr(s.balances, u, 0) > 0
  {
    var s0 := Init(admin, treasury, platform, token);
    CustodyLaw(s0, calls);
    RunKeepsNoDebts(s0, calls);
    CoveredDebtsArePayable(Runs.Run(Next, s0, calls));
  }

  // ----- who may change what -----

  /** Only the administrator records and distributes, and a publisher's balance is lowered only by the publisher. */
  lemma ChangesAreAuthorised(s: State, c: Call, u: Party)
    requires NonNegative(c)
    ensures var s' := Next(s, c);
            && (s'.pool != s.pool ==> (c.Record? || c.Distribute?) && c.caller == s.admin)
            && (GetOr(s'.balances, u, 0) < GetOr(s.balances, u, 0) ==> c == Claim(u))
            && (GetOr(s'.balances, u, 0) > GetOr(s.balances, u, 0) ==>
                  c.Record? && c.caller == s.admin && c.publisher == u)
  {
    if c.Record? {
      SplitIsExact(c.amount);
    }
  }

  /** Through any run of non-negative revenues in which a publisher claims nothing, its balance never falls. */
  lemma {:induction false} UnclaimedBalanceNeverFalls(s: State, calls: seq<Call>, u: Party)
    requires forall c | c in calls :: NonNegative(c) && c != Claim(u)
    ensures GetOr(Runs.Run(Next, s, calls).balances, u, 0) >= GetOr(s.balances, u, 0)
    decreases |calls|
  {
    if calls != [] {
      assert calls[0] in calls;
      ChangesAreAuthorised(s, calls[0], u);
      UnclaimedBalanceNeverFalls(Next(s, calls[0]), calls[1..], u);
    }
  }

  // ----- the contract itself -----

  class Settlement {
    var admin: Party
    var treasuryAddress: Address
    var platformAddress: Address
    var pool: Pool
    var settlements: nat
    var balances: map<Party, int>
    var token: Ledger

    function Snapshot(): State
      reads this
    {
      State(admin, treasuryAddress, platformAddress, pool, settlements, balances, token)
    }

    constructor (admin: Party, treasury: Address, platform: Address, token: Ledger)
      ensures Snapshot() == Init(admin, treasury, platform, token)
    {
      this.admin, this.treasuryAddress, this.platformAddress := admin, treasury, platform;
      this.pool, this.settlements, this.balances, this.token := Pool(0, 0, 0, 0, 0), 0, map[], token;
    }

    method RecordRevenue(caller: Party, amount: int, publisher: Party) returns (id: Option<nat>)
      modifies this
      ensures Snapshot() == Next(old(Snapshot()), Record(caller, amount, publisher))
      ensures id == if caller == old(admin) then Some(old(settlements) + 1) else None
    {
      if caller != admin {
        return None;
      }
      var state := pool;
      var platformFee := Quot(amount * PLATFORM_BPS, 10_000);
      var treasuryFee := Quot(amount * TREASURY_BPS, 10_000);
      var burnFee := Quot(amount * BURN_BPS, 10_000);
      var publisherAmount := amount - platformFee - treasuryFee - burnFee;
      var distributed := platformFee + treasuryFee + burnFee + publisherAmount;
      var dust := amount - distributed;
      state := state.(total := state.total + amount);
      state := state.(platform := state.platform + platformFee);
      state := state.(publisher := state.publisher + publisherAmount);
      state := state.(treasury := state.treasury + (treasuryFee + dust));
      state := state.(burn := state.burn + burnFee);
      pool := state;
      var current := GetOr(balances, publisher, 0);
      balances := balances[publisher := current + publisherAmount];
      settlements := settlements + 1;
      return Some(settlements);
    }

    method DistributePlatformRevenue(caller: Party) returns (done: Option<()>)
      modifies this
      ensures Snapshot() == Next(old(Snapshot()), Distribute(caller))
      ensures done.Some? <==> Step(old(Snapshot()), Distribute(caller)).Some?
    {
      if caller != admin {
        return None;
      }
      var state, held := pool, token;
      if state.platform > 0 {
        held :- Transfer(held, Contract, platformAddress, state.platform);
        state := state.(platform := 0);
      }
      if state.treasury > 0 {
        held :- Transfer(held, Contract, treasuryAddress, state.treasury);
        state := state.(treasury := 0);
      }
      if state.burn > 0 {
        held :- Burn(held, Contract, state.burn);
        state := state.(burn := 0);
      }
      pool, token := state, held;
      return Some(());
    }

    method ClaimPublisherBalance(publisher: Party) returns (done: Option<()>)
      modifies this
      ensures Snapshot() == Next(old(Snapshot()), Claim(publisher))
      ensures done.Some? <==> Step(old(Snapshot()), Claim(publisher)).Some?
    {
      var due := GetOr(balances, publisher, 0);
      :- Require(!(due <= 0));
      var sent :- Transfer(token, Contract, publisher, due);
      token := sent;
      balances := balances[publisher := 0];
      return Some(());
    }
  }
}

/** The ad-budget liquidity pool: what a run of deposits, withdrawals, loans and repayments can do to it. */
module LiquidityPool {
  import opened Chain
  import Arith
  import Runs
  import Sums

  datatype PoolState = PoolState(totalLiquidity: int, totalBorrowed: int, utilizationRate: U32)

  datatype Position = Position(deposited: int, shares: int)

  datatype Loan = Loan(borrower: Party, borrowed: int)

  /** The contract's storage beside the balances of the token it holds. */
  datatype State = State(pool: PoolState, totalShares: int, providers: map<Party, Position>, loans: map<nat, Loan>,
                         token: Ledger)

  datatype Call =
    | Deposit(provider: Party, amount: int)
    | Withdraw(provider: Party, shares: int)
    | Borrow(borrower: Party, campaign: nat, amount: int)
    | Repay(borrower: Party, campaign: nat, amount: int)
    | Outside(sender: Party, to: Address, amount: int)  // a token transfer that no entry point makes

  function Init(token: Ledger): State {
    State(PoolState(0, 0, 0), 0, map[], map[], token)
  }

  // ----- what each entry point does -----

  /** Shares minted for `amount`: one for one into an empty pool, pro rata otherwise. */
  function Mint(s: State, amount: int): int {
    if s.pool.totalLiquidity == 0 || s.totalShares == 0 then amount
    else Quot(amount * s.totalShares, s.pool.totalLiquidity)
  }

  /** Tokens due for `shares`. */
  function Payout(s: State, shares: int): int
    requires s.totalShares != 0
  {
    Quot(shares * s.pool.totalLiquidity, s.totalShares)
  }

  function Available(s: State): int {
    s.pool.totalLiquidity - s.pool.totalBorrowed
  }

  function SaturatingSub(a: int, b: int): int {
    Max(a - b, I128_MIN)
  }

  function Utilization(borrowed: int, liquidity: int): U32
    requires liquidity != 0
  {
    AsU32(Quot(borrowed * 100, liquidity))
  }

  function DepositStep(s: State, provider: Party, amount: int): Option<State> {
    if amount <= 0 then None else
    var token :- Transfer(s.token, provider, Contract, amount);
    var minted := Mint(s, amount);
    var position := GetOr(s.providers, provider, Position(0, 0));
    Some(State(
           s.pool.(totalLiquidity := s.pool.totalLiquidity + amount),
           s.totalShares + minted,
           s.providers[provider := Position(position.deposited + amount, position.shares + minted)],
           s.loans,
           token))
  }

  function WithdrawStep(s: State, provider: Party, shares: int): Option<State> {
    var position :- Lookup(s.providers, provider);
    :- Require(position.shares >= shares);
    :- Require(s.totalShares != 0);
    var amount := Payout(s, shares);
    :- Require(amount <= Available(s));
    var token :- Transfer(s.token, Contract, provider, amount);
    Some(State(
           s.pool.(totalLiquidity := s.pool.totalLiquidity - amount),
           s.totalShares - shares,
           s.providers[provider := Position(SaturatingSub(position.deposited, amount), position.shares - shares)],
           s.loans,
           token))
  }

  function BorrowStep(s: State, borrower: Party, campaign: nat, amount: int): Option<State> {
    if amount > Available(s) then None else
    :- Require(campaign !in s.loans);
    :- Require(s.pool.totalLiquidity != 0);
    var borrowed := s.pool.totalBorrowed + amount;
    var token :- Transfer(s.token, Contract, borrower, amount);
    Some(s.(pool := PoolState(s.pool.totalLiquidity, borrowed, Utilization(borrowed, s.pool.totalLiquidity)),
            loans := s.loans[campaign := Loan(borrower, amount)],
            token := token))
  }

  function RepayStep(s: State, borrower: Party, campaign: nat, amount: int): Option<State> {
    var loan :- Lookup(s.loans, campaign);
    :- Require(loan.borrower == borrower);
    var token :- Transfer(s.token, borrower, Contract, amount);
    var borrowed := s.pool.totalBorrowed - Min(amount, loan.borrowed);
    var rate := if s.pool.totalLiquidity > 0 then Utilization(borrowed, s.pool.totalLiquidity)
                else s.pool.utilizationRate;
    Some(s.(pool := PoolState(s.pool.totalLiquidity + amount, borrowed, rate),
            loans := s.loans - {campaign},
            token := token))
  }

  function OutsideStep(s: State, sender: Party, to: Address, amount: int): Option<State> {
    var token :- Transfer(s.token, sender, to, amount);
    Some(s.(token := token))
  }

  function Step(s: State, c: Call): Option<State> {
    match c
    case Deposit(p, amount) => DepositStep(s, p, amount)
    case Withdraw(p, shares) => WithdrawStep(s, p, shares)
    case Borrow(b, campaign, amount) => BorrowStep(s, b, campaign, amount)
    case Repay(b, campaign, amount) => RepayStep(s, b, campaign, amount)
    case Outside(from, to, amount) => OutsideStep(s, from, to, amount)
  }

  /** A panicking call leaves everything as it was. */
  function Next(s: State, c: Call): State {
    Step(s, c).GetOr(s)
  }

  function Held(s: State, provider: Party): int {
    GetOr(s.providers, provider, Position(0, 0)).shares
  }

  // ----- the inductive invariant -----

  ghost function Shares(p: Party, position: Position): int { position.shares }

  ghost function Owed(campaign: nat, loan: Loan): int { loan.borrowed }

  ghost predicate Inv(s: State) {
    && 0 <= s.totalShares <= s.pool.totalLiquidity
    && s.totalShares == Sums.Sum(s.providers, Shares)
    && (forall p | p in s.providers :: s.providers[p].shares >= 0)
    && 0 <= s.pool.totalBorrowed <= s.pool.totalLiquidity
    && Sums.Sum(s.loans, Owed) <= s.pool.totalBorrowed
    && (forall k | k in s.loans :: s.loans[k].borrowed >= 0)
    && s.pool.utilizationRate <= 100
  }

  /** Minting is the exact floor of the pro-rata share, and never more than one share a token. */
  lemma MintIsFloor(s: State, amount: int)
    requires Inv(s) && amount >= 0 && s.totalShares > 0
    ensures 0 <= Mint(s, amount) <= amount
    ensures Mint(s, amount) * s.pool.totalLiquidity
              <= amount * s.totalShares < (Mint(s, amount) + 1) * s.pool.totalLiquidity
  {
    var tl, ts := s.pool.totalLiquidity, s.totalShares;
    Arith.MulNonNeg(amount, ts);
    Arith.QuotIsFloor(amount * ts, tl);
    Arith.MulMono(ts, tl, amount);
    Arith.CancelFactor(Mint(s, amount), amount, tl);
  }

  /** A payout is the exact floor of the pro-rata part, and at least one token a share. */
  lemma PayoutIsFloor(s: State, shares: int)
    requires Inv(s) && 0 <= shares <= s.totalShares && s.totalShares > 0
    ensures shares <= Payout(s, shares) <= s.pool.totalLiquidity
    ensures Payout(s, shares) * s.totalShares
              <= shares * s.pool.totalLiquidity < (Payout(s, shares) + 1) * s.totalShares
  {
    var tl, ts := s.pool.totalLiquidity, s.totalShares;
    Arith.MulNonNeg(shares, tl);
    Arith.QuotIsFloor(shares * tl, ts);
    Arith.MulMono(ts, tl, shares);
    Arith.FloorIsGreatest(shares, shares * tl, ts);
    Arith.MulMono(shares, ts, tl);
    Arith.CancelFactor(Payout(s, shares), tl, ts);
  }

  /** A deposit credits its provider, and nobody else, with the floor of the pro-rata share. */
  lemma DepositCreditsFloor(s: State, provider: Party, amount: int)
    requires Inv(s) && DepositStep(s, provider, amount).Some? && s.totalShares > 0
    ensures var s' := Next(s, Deposit(provider, amount)); var minted := Held(s', provider) - Held(s, provider);
            minted * s.pool.totalLiquidity <= amount * s.totalShares < (minted + 1) * s.pool.totalLiquidity
            && forall q: Party | q != provider :: Held(s', q) == Held(s, q)
  {
    MintIsFloor(s, amount);
  }

  /** A withdrawal pays its provider the floor of the pro-rata part of the liquidity. */
  lemma WithdrawalPaysFloor(s: State, provider: Party, shares: int)
    requires Inv(s) && WithdrawStep(s, provider, shares).Some?
    ensures var s' := Next(s, Withdraw(provider, shares));
            var paid := Balance(s'.token, provider) - Balance(s.token, provider);
            0 <= paid && paid * s.totalShares <= shares * s.pool.totalLiquidity < (paid + 1) * s.totalShares
            && Held(s', provider) == Held(s, provider) - shares
  {
    if shares < 0 {
      NegativeWithdrawPanics(s, provider, shares);
    } else {
      Sums.TermAtMostSum(s.providers, Shares, provider);
      PayoutIsFloor(s, shares);
    }
  }

  /** Redeeming negative shares computes a negative payout, which the token refuses: withdrawing never mints. */
  lemma NegativeWithdrawPanics(s: State, provider: Party, shares: int)
    requires Inv(s) && shares < 0
    ensures WithdrawStep(s, provider, shares).None?
  {
    if s.totalShares != 0 {
      var tl, ts := s.pool.totalLiquidity, s.totalShares;
      assert (-shares) * tl == -(shares * tl);
      Arith.MulMono(1, -shares, tl);
      Arith.FloorIsGreatest(1, -(shares * tl), ts);
      assert Payout(s, shares) < 0;
    }
  }

  lemma UtilizationAtMost100(borrowed: int, liquidity: int)
    requires 0 <= borrowed <= liquidity && liquidity > 0
    ensures Utilization(borrowed, liquidity) == Quot(borrowed * 100, liquidity) <= 100
  {
    Arith.QuotIsFloor(borrowed * 100, liquidity);
    Arith.CancelFactor(Quot(borrowed * 100, liquidity), 100, liquidity);
  }

  lemma DepositKeepsInv(s: State, provider: Party, amount: int)
    requires Inv(s) && DepositStep(s, provider, amount).Some?
    ensures Inv(DepositStep(s, provider, amount).value)
  {
    var s' := DepositStep(s, provider, amount).value;
    if s.totalShares > 0 {
      MintIsFloor(s, amount);
    }
    Sums.SumUpdate(s.providers, Shares, provider, s'.providers[provider]);
  }

  /** Paying at most the pro-rata part leaves at least one token behind every remaining share. */
  lemma RedemptionLeavesCover(tl: int, ts: int, paid: int, shares: int)
    requires tl >= ts > 0 && shares <= ts && paid * ts <= shares * tl
    ensures tl - paid >= ts - shares
    ensures (tl - paid) * ts >= tl * (ts - shares)
  {
    assert (tl - paid) * ts == tl * ts - paid * ts;
    assert tl * (ts - shares) == tl * ts - shares * tl;
    Arith.MulMono(ts, tl, ts - shares);
    Arith.CancelFactor(ts - shares, tl - paid, ts);
  }

  lemma WithdrawKeepsInv(s: State, provider: Party, shares: int)
    requires Inv(s) && WithdrawStep(s, provider, shares).Some?
    ensures Inv(WithdrawStep(s, provider, shares).value)
  {
    if shares < 0 {
      NegativeWithdrawPanics(s, provider, shares);
    } else {
      var s' := WithdrawStep(s, provider, shares).value;
      Sums.TermAtMostSum(s.providers, Shares, provider);
      PayoutIsFloor(s, shares);
      Sums.SumUpdate(s.providers, Shares, provider, s'.providers[provider]);
      RedemptionLeavesCover(s.pool.totalLiquidity, s.totalShares, Payout(s, shares), shares);
    }
  }

  lemma BorrowKeepsInv(s: State, borrower: Party, campaign: nat, amount: int)
    requires Inv(s) && BorrowStep(s, borrower, campaign, amount).Some?
    ensures Inv(BorrowStep(s, borrower, campaign, amount).value)
  {
    UtilizationAtMost100(s.pool.totalBorrowed + amount, s.pool.totalLiquidity);
    Sums.SumUpdate(s.loans, Owed, campaign, Loan(borrower, amount));
  }

  lemma RepayKeepsInv(s: State, borrower: Party, campaign: nat, amount: int)
    requires Inv(s) && RepayStep(s, borrower, campaign, amount).Some?
    ensures Inv(RepayStep(s, borrower, campaign, amount).value)
  {
    Sums.TermAtMostSum(s.loans, Owed, campaign);
    Sums.SumRemove(s.loans, Owed, campaign);
    if s.pool.totalLiquidity > 0 {
      UtilizationAtMost100(s.pool.totalBorrowed - Min(amount, s.loans[campaign].borrowed), s.pool.totalLiquidity);
    }
  }

  lemma NextKeepsInv(s: State, c: Call)
    requires Inv(s)
    ensures Inv(Next(s, c))
  {
    if Step(s, c).Some? {
      match c
      case Deposit(p, amount) => DepositKeepsInv(s, p, amount);
      case Withdraw(p, shares) => WithdrawKeepsInv(s, p, shares);
      case Borrow(b, campaign, amount) => BorrowKeepsInv(s, b, campaign, amount);
      case Repay(b, campaign, amount) => RepayKeepsInv(s, b, campaign, amount);
      case Outside(_, _, _) =>
    }
  }

  lemma {:induction false} RunKeepsInv(s: State, calls: seq<Call>)
    requires Inv(s)
    ensures Inv(Runs.Run(Next, s, calls))
    decreases |calls|
  {
    if calls != [] {
      NextKeepsInv(s, calls[0]);
      RunKeepsInv(Next(s, calls[0]), calls[1..]);
    }
  }

  /** Every reachable pool: liquidity covers the shares, shares are the providers' shares, loans are covered. */
  lemma ReachableInv(token: Ledger, calls: seq<Call>)
    ensures Inv(Runs.Run(Next, Init(token), calls))
  {
    RunKeepsInv(Init(token), calls);
  }

  // ----- who is paid, and when -----

  /** What an entry point moves, in every account: a deposit and a repayment in, a payout and a loan out. */
  lemma PaymentsReachTheirParties(s: State, c: Call, a: Address)
    requires Step(s, c).Some? && !c.Outside?
    ensures var moved := Balance(Next(s, c).token, a) - Balance(s.token, a);
            match c
            case Deposit(p, amount) => moved == Credit(a, Contract, amount) - Credit(a, p, amount)
            case Withdraw(p, shares) =>
              s.totalShares != 0 && moved == Credit(a, p, Payout(s, shares)) - Credit(a, Contract, Payout(s, shares))
            case Borrow(b, _, amount) => moved == Credit(a, b, amount) - Credit(a, Contract, amount)
            case Repay(b, _, amount) => moved == Credit(a, Contract, amount) - Credit(a, b, amount)
  {
  }

  lemma WithdrawMovesPayout(s: State, provider: Party, shares: int, a: Address)
    requires WithdrawStep(s, provider, shares).Some?
    ensures Balance(Next(s, Withdraw(provider, shares)).token, a)
         == Balance(s.token, a) + Credit(a, provider, Payout(s, shares)) - Credit(a, Contract, Payout(s, shares))
  {
    PaymentsReachTheirParties(s, Withdraw(provider, shares), a);
  }

  /** A withdrawal succeeds exactly for shares that are held, while their payout is neither on loan nor missing. */
  lemma WithdrawSucceedsIff(s: State, provider: Party, shares: int)
    requires Inv(s)
    ensures WithdrawStep(s, provider, shares).Some? <==>
              && provider in s.providers && 0 <= shares <= Held(s, provider) && s.totalShares != 0
              && Payout(s, shares) <= Available(s) && Payout(s, shares) <= Balance(s.token, Contract)
  {
    if shares < 0 {
      NegativeWithdrawPanics(s, provider, shares);
    } else if provider in s.providers && shares <= Held(s, provider) && s.totalShares != 0 {
      Sums.TermAtMostSum(s.providers, Shares, provider);
      PayoutIsFloor(s, shares);
    }
  }

  // ----- share price and provider value -----

  /** The tokens a provider's shares stand for. */
  function Redeemable(s: State, provider: Party): int {
    if s.totalShares == 0 then 0 else Payout(s, Held(s, provider))
  }

  lemma MintDilutesNoOne(tl: int, ts: int, amount: int, minted: int)
    requires minted * tl <= amount * ts
    ensures (tl + amount) * ts >= tl * (ts + minted)
  {
    assert (tl + amount) * ts == tl * ts + amount * ts;
    assert tl * (ts + minted) == tl * ts + minted * tl;
  }

  /** While there are shares, no call lowers the liquidity behind one: TL'/TS' >= TL/TS, cross-multiplied. */
  lemma PriceNeverFalls(s: State, c: Call)
    requires Inv(s) && s.totalShares > 0
    ensures Next(s, c).pool.totalLiquidity * s.totalShares >= s.pool.totalLiquidity * Next(s, c).totalShares
  {
    var tl, ts := s.pool.totalLiquidity, s.totalShares;
    if Step(s, c).Some? {
      match c
      case Deposit(p, amount) =>
        MintIsFloor(s, amount);
        MintDilutesNoOne(tl, ts, amount, Mint(s, amount));
      case Withdraw(p, shares) =>
        if shares < 0 {
          NegativeWithdrawPanics(s, p, shares);
        } else {
          Sums.TermAtMostSum(s.providers, Shares, p);
          PayoutIsFloor(s, shares);
          RedemptionLeavesCover(tl, ts, Payout(s, shares), shares);
        }
      case Repay(_, _, amount) =>
        Arith.MulMono(tl, tl + amount, ts);
      case Borrow(_, _, _) =>
      case Outside(_, _, _) =>
    }
  }

  /** The provider whose position a call rewrites, if any. */
  function Actor(c: Call): Option<Party> {
    match c
    case Deposit(p, _) => Some(p)
    case Withdraw(p, _) => Some(p)
    case _ => None
  }

  lemma OthersKeepValue(s: State, c: Call, q: Party)
    requires Inv(s) && Actor(c) != Some(q)
    ensures Redeemable(Next(s, c), q) >= Redeemable(s, q)
  {
    var s' := Next(s, c);
    NextKeepsInv(s, c);
    var held := Held(s, q);
    assert Held(s', q) == held;
    if q in s.providers && held > 0 {
      Sums.TermAtMostSum(s.providers, Shares, q);
      Sums.TermAtMostSum(s'.providers, Shares, q);
      PriceNeverFalls(s, c);
      FloorFollowsPrice(held, s.pool.totalLiquidity, s.totalShares, s'.pool.totalLiquidity, s'.totalShares);
    } else if s'.totalShares > 0 {
      assert held * s'.pool.totalLiquidity == 0;
    }
  }

  lemma FloorFollowsPrice(held: int, tl: int, ts: int, tl': int, ts': int)
    requires held >= 0 && ts > 0 && ts' > 0 && tl >= 0 && tl' >= 0
    requires tl' * ts >= tl * ts'
    ensures Quot(held * tl, ts) <= Quot(held * tl', ts')
  {
    var v := Quot(held * tl, ts);
    Arith.MulNonNeg(held, tl);
    Arith.MulNonNeg(held, tl');
    Arith.QuotIsFloor(held * tl, ts);
    // v * ts <= held * tl, so v * ts' * ts <= held * tl * ts' <= held * tl' * ts
    Arith.MulMono(v * ts, held * tl, ts');
    Arith.MulMono(tl * ts', tl' * ts, held);
    assert (v * ts') * ts == v * ts * ts';
    assert (held * tl') * ts == tl' * ts * held;
    assert held * tl * ts' == tl * ts' * held;
    Arith.CancelFactor(v * ts', held * tl', ts);
    Arith.FloorIsGreatest(v, held * tl', ts');
  }

  /** Through any run in which a provider does not act, what its shares can redeem never falls. */
  lemma {:induction false} IdleProviderNeverLoses(s: State, calls: seq<Call>, q: Party)
    requires Inv(s)
    requires forall c | c in calls :: Actor(c) != Some(q)
    ensures Redeemable(Runs.Run(Next, s, calls), q) >= Redeemable(s, q)
    decreases |calls|
  {
    if calls != [] {
      assert calls[0] in calls;
      NextKeepsInv(s, calls[0]);
      OthersKeepValue(s, calls[0], q);
      IdleProviderNeverLoses(Next(s, calls[0]), calls[1..], q);
    }
  }

  // ----- rounding favours the pool -----

  lemma RedeemingTheMintPaysBackAtMost(tl: int, ts: int, amount: int, minted: int, paid: int)
    requires ts + minted > 0 && minted * tl <= amount * ts
    requires paid * (ts + minted) <= minted * (tl + amount)
    ensures paid <= amount
  {
    assert minted * (tl + amount) == minted * tl + minted * amount;
    assert amount * (ts + minted) == amount * ts + minted * amount;
    Arith.CancelFactor(paid, amount, ts + minted);
  }

  /** A pool that has liquidity but no shares. */
  predicate Stray(s: State) {
    s.totalShares == 0 && s.pool.totalLiquidity > 0
  }

  /** What the shares a deposit mints stand for: at most the deposit, or in a stray pool all of its liquidity too. */
  lemma MintedSharesAreWorth(s: State, provider: Party, amount: int)
    requires Inv(s) && DepositStep(s, provider, amount).Some?
    ensures
      var s', minted := DepositStep(s, provider, amount).value, Mint(s, amount);
      s'.totalShares > 0 && 0 <= minted <= Held(s', provider)
      && (if Stray(s) then Payout(s', minted) == s.pool.totalLiquidity + amount else 0 <= Payout(s', minted) <= amount)
  {
    var s' := DepositStep(s, provider, amount).value;
    var tl, ts, minted := s.pool.totalLiquidity, s.totalShares, Mint(s, amount);
    if ts == 0 {
      Arith.FloorIsUnique(tl + amount, amount * (tl + amount), amount);
    } else {
      MintIsFloor(s, amount);
      DepositKeepsInv(s, provider, amount);
      PayoutIsFloor(s', minted);
      RedeemingTheMintPaysBackAtMost(tl, ts, amount, minted, Payout(s', minted));
    }
  }

  /**
   * Depositing and at once redeeming the minted shares. In a pool that is not stray the redemption always
   * succeeds and the provider ends with at most what it had; in a stray pool it succeeds exactly when nothing is
   * on loan and the liquidity is really there, and the provider ends with all of it.
   */
  lemma DepositThenRedeem(s: State, provider: Party, amount: int)
    requires Inv(s) && DepositStep(s, provider, amount).Some? && Balance(s.token, Contract) >= 0
    ensures
      var s1 := Next(s, Deposit(provider, amount)); var redeemed := WithdrawStep(s1, provider, Mint(s, amount));
      && (redeemed.Some? <==>
            (Stray(s) ==> s.pool.totalBorrowed == 0 && s.pool.totalLiquidity <= Balance(s.token, Contract)))
      && (redeemed.Some? ==>
            var gained := Balance(redeemed.value.token, provider) - Balance(s.token, provider);
            if Stray(s) then gained == s.pool.totalLiquidity else gained <= 0)
  {
    var s1 := Next(s, Deposit(provider, amount));
    DepositKeepsInv(s, provider, amount);
    MintedSharesAreWorth(s, provider, amount);
    TransferMoves(s.token, provider, Contract, amount, Contract);
    TransferMoves(s.token, provider, Contract, amount, provider);
    WithdrawSucceedsIff(s1, provider, Mint(s, amount));
    if WithdrawStep(s1, provider, Mint(s, amount)).Some? {
      WithdrawMovesPayout(s1, provider, Mint(s, amount), provider);
    }
  }

  /** A fresh pool after a deposit of `a` and a loan of `b` of it. */
  lemma DepositAndLend(p: Party, q: Party, k: nat, a: int, b: int, token: Ledger)
    requires p != q && 0 <= b <= a && 0 < a <= Balance(token, p) && Balance(token, Contract) >= 0
    ensures var s := Next(Next(Init(token), Deposit(p, a)), Borrow(q, k, b));
            && Inv(s) && s.pool.totalLiquidity == a && s.pool.totalBorrowed == b && s.totalShares == a
            && s.providers == map[p := Position(a, a)] && s.loans == map[k := Loan(q, b)]
            && Balance(s.token, Contract) == Balance(token, Contract) + a - b
            && Balance(s.token, q) == Balance(token, q) + b && Balance(s.token, p) == Balance(token, p) - a
            && forall u: Party | u != p && u != q :: Balance(s.token, u) == Balance(token, u)
  {
    var s0, c, d := Init(token), Deposit(p, a), Borrow(q, k, b);
    var s1 := Next(s0, c);
    assert s1 == State(PoolState(a, 0, 0), a, map[p := Position(a, a)], map[], s1.token);
    NextKeepsInv(s0, c);
    NextKeepsInv(s1, d);
    forall u: Address
      ensures Balance(s1.token, u) == Balance(token, u) + Credit(u, Contract, a) - Credit(u, p, a)
    {
      PaymentsReachTheirParties(s0, c, u);
    }
    assert Step(s1, d).Some?;
    forall u: Address
      ensures Balance(Next(s1, d).token, u) == Balance(s1.token, u) + Credit(u, q, b) - Credit(u, Contract, b)
    {
      PaymentsReachTheirParties(s1, d, u);
    }
  }

  /** The exception is reachable: a loan of nothing, repaid with `b` tokens after every share has been redeemed. */
  lemma StrayLiquidityIsReachable(p: Party, q: Party, k: nat, a: int, b: int, token: Ledger)
    requires p != q && a > 0 && b > 0 && Balance(token, p) >= a && Balance(token, q) >= b
    requires Balance(token, Contract) >= 0
    ensures
      var s1 := Next(Init(token), Deposit(p, a));
      var s2 := Next(s1, Borrow(q, k, 0));
      var s3 := Next(s2, Withdraw(p, a));
      var s4 := Next(s3, Repay(q, k, b));
      Inv(s4) && Stray(s4) && s4.pool.totalLiquidity == b && s4.pool.totalBorrowed == 0
      && s4.loans == map[] && Balance(s4.token, Contract) == Balance(token, Contract) + b
      && forall u: Party | u != q :: Balance(s4.token, u) == Balance(token, u)
  {
    var s2 := Next(Next(Init(token), Deposit(p, a)), Borrow(q, k, 0));
    DepositAndLend(p, q, k, a, 0, token);
    RedeemAllAndRepay(s2, p, q, k, a, b);
  }

  lemma RedeemAllAndRepay(s: State, p: Party, q: Party, k: nat, a: int, b: int)
    requires Inv(s) && s.pool.totalLiquidity == s.totalShares == a > 0 && s.pool.totalBorrowed == 0
    requires s.providers == map[p := Position(a, a)] && s.loans == map[k := Loan(q, 0)] && p != q
    requires Balance(s.token, Contract) >= a && 0 < b <= Balance(s.token, q)
    ensures
      var s' := Next(Next(s, Withdraw(p, a)), Repay(q, k, b));
      Inv(s') && s'.totalShares == 0 && s'.pool.totalLiquidity == b && s'.pool.totalBorrowed == 0 && s'.loans == map[]
      && Balance(s'.token, Contract) == Balance(s.token, Contract) - a + b
      && Balance(s'.token, p) == Balance(s.token, p) + a
      && forall u: Party | u != p && u != q :: Balance(s'.token, u) == Balance(s.token, u)
  {
    var c, d := Withdraw(p, a), Repay(q, k, b);
    var s1 := Next(s, c);
    Arith.FloorIsUnique(a, a * a, a);
    assert s1.pool.totalLiquidity == 0 && s1.pool.totalBorrowed == 0 && s1.totalShares == 0 && s1.loans == s.loans;
    NextKeepsInv(s, c);
    NextKeepsInv(s1, d);
    forall u: Address
      ensures Balance(s1.token, u) == Balance(s.token, u) + Credit(u, p, a) - Credit(u, Contract, a)
    {
      PaymentsReachTheirParties(s, c, u);
    }
    assert Step(s1, d).Some?;
    forall u: Address
      ensures Balance(Next(s1, d).token, u) == Balance(s1.token, u) + Credit(u, Contract, b) - Credit(u, q, b)
    {
      PaymentsReachTheirParties(s1, d, u);
    }
  }

  /** And there whoever deposits next and redeems at once ends with `b` tokens more than before. */
  lemma StrayLiquidityIsGained(p: Party, q: Party, k: nat, a: int, b: int, token: Ledger, u: Party, amount: int)
    requires p != q && u != q && a > 0 && b > 0 && Balance(token, p) >= a && Balance(token, q) >= b
    requires Balance(token, Contract) >= 0 && 0 < amount <= Balance(token, u)
    ensures
      var s4 := Next(Next(Next(Next(Init(token), Deposit(p, a)), Borrow(q, k, 0)), Withdraw(p, a)), Repay(q, k, b));
      Balance(Runs.Run(Next, s4, [Deposit(u, amount), Withdraw(u, amount)]).token, u) == Balance(token, u) + b
  {
    StrayLiquidityIsReachable(p, q, k, a, b, token);
    var s4 := Next(Next(Next(Next(Init(token), Deposit(p, a)), Borrow(q, k, 0)), Withdraw(p, a)), Repay(q, k, b));
    DepositThenRedeem(s4, u, amount);
    var s5, c := Next(s4, Deposit(u, amount)), Withdraw(u, amount);
    assert Runs.Run(Next, s5, [c]) == Next(s5, c);
  }

  function Total(parts: seq<int>): int {
    if parts == [] then 0 else parts[0] + Total(parts[1..])
  }

  lemma {:induction false} TotalNonNeg(parts: seq<int>)
    requires forall x | x in parts :: x > 0
    ensures Total(parts) >= 0
    ensures parts != [] ==> Total(parts) > 0
  {
    if parts != [] {
      assert forall x | x in parts[1..] :: x in parts;
      assert parts[0] in parts;
      TotalNonNeg(parts[1..]);
    }
  }

  function Deposits(provider: Party, parts: seq<int>): seq<Call> {
    seq(|parts|, i requires 0 <= i < |parts| => Deposit(provider, parts[i]))
  }

  function Withdrawals(provider: Party, parts: seq<int>): seq<Call> {
    seq(|parts|, i requires 0 <= i < |parts| => Withdraw(provider, parts[i]))
  }

  lemma SecondMintIsNoCheaper(tl: int, ts: int, a: int, b: int, m: int, n: int)
    requires tl > 0 && a >= 0 && b >= 0
    requires m * tl <= a * ts && n * (tl + a) <= b * (ts + m)
    ensures n * tl <= b * ts
  {
    // n*(tl + a)*tl <= b*(ts + m)*tl = b*(ts*tl + m*tl) <= b*(ts*tl + a*ts) = b*ts*(tl + a)
    Arith.MulMono(n * (tl + a), b * (ts + m), tl);
    assert b * (ts + m) * tl == b * (ts * tl + m * tl);
    Arith.MulMono(ts * tl + m * tl, ts * tl + a * ts, b);
    assert (b * ts) * (tl + a) == b * (ts * tl + a * ts);
    assert n * (tl + a) * tl == (n * tl) * (tl + a);
    Arith.CancelFactor(n * tl, b * ts, tl + a);
  }

  lemma TwoMints(tl: int, ts: int, a: int, b: int, m: int, n: int)
    requires tl > 0 && ts > 0 && a >= 0 && b >= 0
    requires m * tl <= a * ts && n * (tl + a) <= b * (ts + m)
    ensures m + n <= Quot((a + b) * ts, tl)
  {
    SecondMintIsNoCheaper(tl, ts, a, b, m, n);
    assert (m + n) * tl == m * tl + n * tl;
    assert (a + b) * ts == a * ts + b * ts;
    Arith.MulNonNeg(a + b, ts);
    Arith.FloorIsGreatest(m + n, (a + b) * ts, tl);
  }

  lemma LaterMintIsNoCheaper(s: State, s': State, a: int, b: int)
    requires Inv(s) && Inv(s') && a >= 0 && b >= 0 && s.totalShares > 0
    requires s'.totalShares == s.totalShares + Mint(s, a) && s'.pool.totalLiquidity == s.pool.totalLiquidity + a
    ensures Mint(s, a) + Mint(s', b) <= Mint(s, a + b)
  {
    MintIsFloor(s, a);
    MintIsFloor(s', b);
    TwoMints(s.pool.totalLiquidity, s.totalShares, a, b, Mint(s, a), Mint(s', b));
  }

  /** Two deposits mint no more than one deposit of both amounts. */
  lemma TwoDepositsMintNoMore(s: State, provider: Party, a: int, b: int)
    requires Inv(s) && b >= 0 && DepositStep(s, provider, a).Some?
    ensures Mint(s, a) + Mint(DepositStep(s, provider, a).value, b) <= Mint(s, a + b)
  {
    var s' := DepositStep(s, provider, a).value;
    DepositKeepsInv(s, provider, a);
    if s.totalShares > 0 {
      LaterMintIsNoCheaper(s, s', a, b);
    } else if s'.totalShares > 0 {
      MintIsFloor(s', b);
    }
  }

  /** Splitting one deposit into any number of consecutive ones never yields more shares. */
  lemma {:induction false} SplitDepositYieldsNoMore(s: State, provider: Party, parts: seq<int>)
    requires Inv(s) && parts != [] && (forall x | x in parts :: x > 0)
    requires Balance(s.token, provider) >= Total(parts)
    ensures DepositStep(s, provider, Total(parts)).Some?
    ensures Held(Runs.Run(Next, s, Deposits(provider, parts)), provider)
              <= Held(Next(s, Deposit(provider, Total(parts))), provider)
    decreases |parts|
  {
    TotalNonNeg(parts);
    var a, rest := parts[0], parts[1..];
    assert forall x | x in rest :: x in parts;
    TotalNonNeg(rest);
    assert a in parts;
    var c := Deposit(provider, a);
    assert Deposits(provider, parts)[0] == c;
    assert Deposits(provider, parts)[1..] == Deposits(provider, rest);
    var s' := Next(s, c);
    DepositKeepsInv(s, provider, a);
    TwoDepositsMintNoMore(s, provider, a, Total(rest));
    if rest == [] {
      assert Deposits(provider, rest) == [];
    } else {
      SplitDepositYieldsNoMore(s', provider, rest);
    }
  }

  lemma TwoPayouts(tl: int, ts: int, x: int, y: int, p: int, q: int)
    requires tl >= 0 && x >= 0 && 0 <= y <= ts - x && ts > x
    requires p * ts <= x * tl && q * (ts - x) <= y * (tl - p)
    ensures p + q <= Quot((x + y) * tl, ts)
  {
    // with d = ts - x and r = x*tl - p*ts >= 0:  q*ts*d <= y*(tl - p)*ts = y*(tl*d + r) <= (y*tl + r)*d
    var d, r := ts - x, x * tl - p * ts;
    Arith.MulMono(q * d, y * (tl - p), ts);
    assert (tl - p) * ts == tl * d + r;
    assert y * (tl - p) * ts == y * ((tl - p) * ts);
    assert y * (tl * d + r) == y * tl * d + y * r;
    Arith.MulMono(y, d, r);
    assert (y * tl + r) * d == y * tl * d + r * d;
    assert q * d * ts == (q * ts) * d;
    Arith.CancelFactor(q * ts, y * tl + r, d);
    assert (p + q) * ts == p * ts + q * ts;
    assert (x + y) * tl == x * tl + y * tl;
    Arith.MulNonNeg(x + y, tl);
    Arith.FloorIsGreatest(p + q, (x + y) * tl, ts);
  }

  /** Two redemptions pay no more than one redemption of both amounts. */
  lemma TwoRedemptionsPayNoMore(s: State, provider: Party, x: int, y: int)
    requires Inv(s) && x >= 0 && y >= 0 && WithdrawStep(s, provider, x).Some?
    requires x + y <= s.totalShares
    ensures
      var s' := WithdrawStep(s, provider, x).value;
      Payout(s, x) + (if s'.totalShares == 0 then 0 else Payout(s', y)) <= Payout(s, x + y)
  {
    var s' := WithdrawStep(s, provider, x).value;
    WithdrawKeepsInv(s, provider, x);
    var tl, ts, p := s.pool.totalLiquidity, s.totalShares, Payout(s, x);
    PayoutIsFloor(s, x);
    if s'.totalShares == 0 {
      assert x + y == x;
    } else {
      PayoutIsFloor(s', y);
      TwoPayouts(tl, ts, x, y, p, Payout(s', y));
    }
  }

  /** If a provider can redeem `x + y` shares at once, it can redeem `x` and then `y`. */
  lemma PartsOfARedemptionSucceed(s: State, provider: Party, x: int, y: int)
    requires Inv(s) && x > 0 && y >= 0 && WithdrawStep(s, provider, x + y).Some?
    ensures WithdrawStep(s, provider, x).Some?
    ensures y > 0 ==>
              var s' := WithdrawStep(s, provider, x).value;
              WithdrawStep(s', provider, y).Some? && Payout(s, x) + Payout(s', y) <= Payout(s, x + y)
  {
    var tl, ts := s.pool.totalLiquidity, s.totalShares;
    Sums.TermAtMostSum(s.providers, Shares, provider);
    PayoutIsFloor(s, x);
    Arith.MulNonNeg(x + y, tl);
    Arith.MulMono(x, x + y, tl);
    Arith.FloorIsGreatest(Payout(s, x), (x + y) * tl, ts);
    var s' := WithdrawStep(s, provider, x).value;
    TwoRedemptionsPayNoMore(s, provider, x, y);
    WithdrawKeepsInv(s, provider, x);
    if y > 0 {
      PayoutIsFloor(s', y);
    }
  }

  /** Splitting one redemption into any number of consecutive ones never yields more tokens. */
  lemma {:induction false} SplitWithdrawalYieldsNoMore(s: State, provider: Party, parts: seq<int>)
    requires Inv(s) && parts != [] && (forall x | x in parts :: x > 0)
    requires WithdrawStep(s, provider, Total(parts)).Some?
    ensures Balance(Runs.Run(Next, s, Withdrawals(provider, parts)).token, provider)
         <= Balance(s.token, provider) + Payout(s, Total(parts))
    decreases |parts|
  {
    var a, rest := parts[0], parts[1..];
    assert forall x | x in rest :: x in parts;
    TotalNonNeg(rest);
    assert a in parts;
    var c := Withdraw(provider, a);
    assert Withdrawals(provider, parts)[0] == c;
    assert Withdrawals(provider, parts)[1..] == Withdrawals(provider, rest);
    PartsOfARedemptionSucceed(s, provider, a, Total(rest));
    WithdrawMovesPayout(s, provider, a, provider);
    if rest == [] {
      assert Withdrawals(provider, rest) == [];
    } else {
      WithdrawKeepsInv(s, provider, a);
      SplitWithdrawalYieldsNoMore(Next(s, c), provider, rest);
    }
  }

  // ----- custody over all runs -----

  /** Tokens that reach the pool through no entry point. */
  function Donation(s: State, c: Call): int {
    if c.Outside? && c.to == Contract && Step(s, c).Some? then c.amount else 0
  }

  function PrincipalRepaid(s: State, c: Call): int {
    if c.Repay? && Step(s, c).Some? then Min(c.amount, s.loans[c.campaign].borrowed) else 0
  }

  /** What the books call available beyond what the pool holds. */
  function Gap(s: State): int {
    Available(s) - Balance(s.token, Contract)
  }

  lemma GapStep(s: State, c: Call)
    requires Inv(s)
    ensures Gap(Next(s, c)) == Gap(s) + PrincipalRepaid(s, c) - Donation(s, c)
  {
  }

  /**
   * Custody over every run: the books run ahead of the pool's tokens by exactly the principal repaid,
   * because a repayment adds to the liquidity without having left it, and fall behind by exactly what is donated.
   */
  lemma {:induction false} CustodyLaw(s: State, calls: seq<Call>)
    requires Inv(s)
    ensures Gap(Runs.Run(Next, s, calls))
         == Gap(s) + Runs.Collect(Next, PrincipalRepaid, s, calls) - Runs.Collect(Next, Donation, s, calls)
    decreases |calls|
  {
    if calls != [] {
      NextKeepsInv(s, calls[0]);
      GapStep(s, calls[0]);
      CustodyLaw(Next(s, calls[0]), calls[1..]);
    }
  }

  lemma {:induction false} NoRepaymentNoGap(s: State, calls: seq<Call>)
    requires forall c | c in calls :: c.Deposit? || c.Withdraw? || c.Borrow?
    ensures Runs.Collect(Next, PrincipalRepaid, s, calls) == Runs.Collect(Next, Donation, s, calls) == 0
    decreases |calls|
  {
    if calls != [] {
      assert calls[0] in calls;
      NoRepaymentNoGap(Next(s, calls[0]), calls[1..]);
    }
  }

  /** On runs of deposits, withdrawals and loans the pool holds exactly what its books call available. */
  lemma CustodyWithoutRepayments(token: Ledger, calls: seq<Call>)
    requires Balance(token, Contract) == 0
    requires forall c | c in calls :: c.Deposit? || c.Withdraw? || c.Borrow?
    ensures var s := Runs.Run(Next, Init(token), calls);
            Balance(s.token, Contract) == s.pool.totalLiquidity - s.pool.totalBorrowed
  {
    CustodyLaw(Init(token), calls);
    NoRepaymentNoGap(Init(token), calls);
  }

  /** A held share can be redeemed exactly up to what the books call available, less their lead over the tokens. */
  lemma WithdrawalUnderGap(s: State, provider: Party, shares: int)
    requires Inv(s)
    ensures WithdrawStep(s, provider, shares).Some? <==>
              && provider in s.providers && 0 <= shares <= Held(s, provider) && s.totalShares != 0
              && Payout(s, shares) <= Available(s) - Max(Gap(s), 0)
  {
    WithdrawSucceedsIff(s, provider, shares);
  }

  /** How far the books of a run from a fresh pool end ahead of the tokens: principal repaid less what was given. */
  ghost function Lead(token: Ledger, calls: seq<Call>): int {
    Runs.Collect(Next, PrincipalRepaid, Init(token), calls) - Runs.Collect(Next, Donation, Init(token), calls)
    - Balance(token, Contract)
  }

  lemma LeadIsGap(token: Ledger, calls: seq<Call>)
    ensures Gap(Runs.Run(Next, Init(token), calls)) == Lead(token, calls)
  {
    CustodyLaw(Init(token), calls);
  }

  /** After every run: only what the repayments put on the books beyond the donations is withheld from the providers. */
  lemma ReachableWithdrawalSucceedsIff(token: Ledger, calls: seq<Call>, provider: Party, shares: int)
    ensures var s := Runs.Run(Next, Init(token), calls);
            WithdrawStep(s, provider, shares).Some? <==>
              && provider in s.providers && 0 <= shares <= Held(s, provider) && s.totalShares != 0
              && Payout(s, shares) <= Available(s) - Max(Lead(token, calls), 0)
  {
    ReachableInv(token, calls);
    LeadIsGap(token, calls);
    WithdrawalUnderGap(Runs.Run(Next, Init(token), calls), provider, shares);
  }

  /** A fresh pool after a deposit of `a`, a loan of `b` and a repayment of `r`. */
  lemma LendAndRepay(p: Party, q: Party, k: nat, a: int, b: int, r: int, token: Ledger)
    requires p != q && 0 < b <= a <= Balance(token, p) && 0 <= r <= Balance(token, q) + b
               && Balance(token, Contract) == 0
    ensures var s := Next(Next(Next(Init(token), Deposit(p, a)), Borrow(q, k, b)), Repay(q, k, r));
            && s.pool.totalLiquidity == a + r && s.pool.totalBorrowed == b - Min(r, b) && s.loans == map[]
            && s.totalShares == a && s.providers == map[p := Position(a, a)]
            && Balance(s.token, Contract) == a - b + r && Balance(s.token, q) == Balance(token, q) + b - r
  {
    var s := Next(Next(Init(token), Deposit(p, a)), Borrow(q, k, b));
    DepositAndLend(p, q, k, a, b, token);
    assert Step(s, Repay(q, k, r)).Some?;
    PaymentsReachTheirParties(s, Repay(q, k, r), Contract);
    PaymentsReachTheirParties(s, Repay(q, k, r), q);
  }

  /**
   * So even a repayment in full can leave a provider waiting: after a deposit of `a`, a loan of `b` and its repayment,
   * the sole provider's shares stand for a + b, the pool holds `a`, and redeeming them all panics.
   */
  lemma RepaymentStrandsProvider(p: Party, q: Party, k: nat, a: int, b: int, token: Ledger)
    requires p != q && 0 < b <= a <= Balance(token, p) && Balance(token, q) >= 0 && Balance(token, Contract) == 0
    ensures var s := Runs.Run(Next, Init(token), [Deposit(p, a), Borrow(q, k, b), Repay(q, k, b)]);
            s.pool.totalBorrowed == 0 && s.loans == map[] && Held(s, p) == s.totalShares == a
            && Redeemable(s, p) == a + b && Balance(s.token, Contract) == a && Gap(s) == b
            && WithdrawStep(s, p, a).None?
  {
    LendAndRepay(p, q, k, a, b, b, token);
    var s2 := Next(Next(Init(token), Deposit(p, a)), Borrow(q, k, b));
    assert Runs.Run(Next, s2, [Repay(q, k, b)]) == Next(s2, Repay(q, k, b));
    Arith.FloorIsUnique(a + b, a * (a + b), a);
  }

  // ----- when the other calls succeed, and what they leave -----

  lemma DepositSucceedsIff(s: State, provider: Party, amount: int)
    ensures DepositStep(s, provider, amount).Some? <==> 0 < amount <= Balance(s.token, provider)
  {
  }

  /** What a deposit leaves: liquidity and the provider's record grown by it, shares by the mint, loans as they were. */
  lemma DepositLeaves(s: State, provider: Party, amount: int)
    requires Inv(s) && DepositStep(s, provider, amount).Some?
    ensures var s' := Next(s, Deposit(provider, amount)); var minted := s'.totalShares - s.totalShares;
            && s'.pool == s.pool.(totalLiquidity := s.pool.totalLiquidity + amount) && s'.loans == s.loans
            && Held(s', provider) == Held(s, provider) + minted
            && Recorded(s', provider) == Recorded(s, provider) + amount
            && (s.totalShares == 0 ==> minted == amount)
            && forall q: Party | q != provider :: Recorded(s', q) == Recorded(s, q)
  {
    if s.totalShares > 0 {
      MintIsFloor(s, amount);
    }
  }

  /** The deposits recorded for a provider. */
  function Recorded(s: State, provider: Party): int {
    GetOr(s.providers, provider, Position(0, 0)).deposited
  }

  /** What a withdrawal leaves: liquidity and record lowered by what it pays, shares by those redeemed. */
  lemma WithdrawLeaves(s: State, provider: Party, shares: int)
    requires WithdrawStep(s, provider, shares).Some? && Recorded(s, provider) >= 0
    ensures var s' := Next(s, Withdraw(provider, shares));
            var paid := Balance(s'.token, provider) - Balance(s.token, provider);
            && s'.pool == s.pool.(totalLiquidity := s.pool.totalLiquidity - paid) && s'.loans == s.loans
            && s'.totalShares == s.totalShares - shares && Held(s', provider) == Held(s, provider) - shares
            && (paid - Recorded(s, provider) <= -I128_MIN ==>
                  Recorded(s', provider) == Recorded(s, provider) - paid)
            && forall q: Party | q != provider :: Held(s', q) == Held(s, q) && Recorded(s', q) == Recorded(s, q)
  {
    PaymentsReachTheirParties(s, Withdraw(provider, shares), provider);
  }

  /** A loan succeeds exactly for a campaign without one, of an amount the pool has available and holds. */
  lemma BorrowSucceedsIff(s: State, borrower: Party, k: nat, amount: int)
    requires Inv(s)
    ensures BorrowStep(s, borrower, k, amount).Some? <==>
              && k !in s.loans && s.pool.totalLiquidity > 0
              && 0 <= amount <= Available(s) - Max(Gap(s), 0)
  {
  }

  /** After every run: loans to one campaign never stand in the way of another's. */
  lemma ReachableBorrowSucceedsIff(token: Ledger, calls: seq<Call>, borrower: Party, k: nat, amount: int)
    ensures var s := Runs.Run(Next, Init(token), calls);
            BorrowStep(s, borrower, k, amount).Some? <==>
              && k !in s.loans && s.pool.totalLiquidity > 0
              && 0 <= amount <= Available(s) - Max(Lead(token, calls), 0)
  {
    ReachableInv(token, calls);
    LeadIsGap(token, calls);
    BorrowSucceedsIff(Runs.Run(Next, Init(token), calls), borrower, k, amount);
  }

  /** The rate is the whole part of the percentage lent out of `liquidity`. */
  predicate RateIs(rate: U32, borrowed: int, liquidity: int) {
    rate * liquidity <= 100 * borrowed < (rate + 1) * liquidity
  }

  lemma UtilizationIsRate(borrowed: int, liquidity: int)
    requires 0 <= borrowed <= liquidity && liquidity > 0
    ensures RateIs(Utilization(borrowed, liquidity), borrowed, liquidity)
  {
    UtilizationAtMost100(borrowed, liquidity);
    Arith.QuotIsFloor(borrowed * 100, liquidity);
  }

  /** What a loan leaves: the loan on record, its principal lent, and the rate of the pool as it then stands. */
  lemma BorrowLeaves(s: State, borrower: Party, k: nat, amount: int)
    requires Inv(s) && BorrowStep(s, borrower, k, amount).Some?
    ensures var s' := Next(s, Borrow(borrower, k, amount));
            && s'.loans == s.loans[k := Loan(borrower, amount)]
            && s'.pool.totalBorrowed == s.pool.totalBorrowed + amount && s'.pool.totalLiquidity == s.pool.totalLiquidity
            && RateIs(s'.pool.utilizationRate, s'.pool.totalBorrowed, s'.pool.totalLiquidity)
            && s'.totalShares == s.totalShares && s'.providers == s.providers
  {
    UtilizationIsRate(s.pool.totalBorrowed + amount, s.pool.totalLiquidity);
  }

  /** A repayment succeeds exactly for the campaign's own borrower, of any amount it holds, nothing included. */
  lemma RepaySucceedsIff(s: State, borrower: Party, k: nat, amount: int)
    ensures RepayStep(s, borrower, k, amount).Some? <==>
              k in s.loans && s.loans[k].borrower == borrower && 0 <= amount <= Balance(s.token, borrower)
  {
  }

  /** What a repayment leaves: liquidity grown by it, and the rate of the new debt against the liquidity before it. */
  lemma RepayLeaves(s: State, borrower: Party, k: nat, amount: int)
    requires Inv(s) && RepayStep(s, borrower, k, amount).Some?
    ensures var s' := Next(s, Repay(borrower, k, amount));
            && s'.pool.totalLiquidity == s.pool.totalLiquidity + amount
            && s'.pool.totalBorrowed == s.pool.totalBorrowed - Min(amount, s.loans[k].borrowed)
            && (if s.pool.totalLiquidity > 0
                then RateIs(s'.pool.utilizationRate, s'.pool.totalBorrowed, s.pool.totalLiquidity)
                else s'.pool.utilizationRate == s.pool.utilizationRate)
            && s'.totalShares == s.totalShares && s'.providers == s.providers
  {
    Sums.TermAtMostSum(s.loans, Owed, k);
    if s.pool.totalLiquidity > 0 {
      UtilizationIsRate(s.pool.totalBorrowed - Min(amount, s.loans[k].borrowed), s.pool.totalLiquidity);
    }
  }

  // ----- how loans end -----

  /** Principal on the books that no open loan owes. */
  ghost function Orphaned(s: State): int {
    s.pool.totalBorrowed - Sums.Sum(s.loans, Owed)
  }

  /** Principal a repayment leaves unpaid, though it closes the loan. */
  function Shortfall(s: State, c: Call): int {
    if c.Repay? && Step(s, c).Some? then s.loans[c.campaign].borrowed - Min(c.amount, s.loans[c.campaign].borrowed)
    else 0
  }

  lemma OrphanStep(s: State, c: Call)
    ensures Orphaned(Next(s, c)) == Orphaned(s) + Shortfall(s, c) && Shortfall(s, c) >= 0
  {
    if Step(s, c).Some? {
      if c.Borrow? {
        Sums.SumUpdate(s.loans, Owed, c.campaign, Loan(c.borrower, c.amount));
      } else if c.Repay? {
        Sums.SumRemove(s.loans, Owed, c.campaign);
      }
    }
  }

  /** Any repayment closes the loan; it takes the whole principal off the books exactly when it covers it. */
  lemma RepaymentSettlesIff(s: State, borrower: Party, k: nat, amount: int)
    requires RepayStep(s, borrower, k, amount).Some?
    ensures var s' := Next(s, Repay(borrower, k, amount));
            && k in s.loans && s'.loans == s.loans - {k}
            && (s'.pool.totalBorrowed == s.pool.totalBorrowed - s.loans[k].borrowed <==> amount >= s.loans[k].borrowed)
            && (Orphaned(s') == Orphaned(s) <==> amount >= s.loans[k].borrowed)
  {
    OrphanStep(s, Repay(borrower, k, amount));
  }

  /** Over every run the principal that no loan owes grows by exactly what repayments fell short by. */
  lemma {:induction false} OrphanLaw(s: State, calls: seq<Call>)
    ensures Orphaned(Runs.Run(Next, s, calls)) == Orphaned(s) + Runs.Collect(Next, Shortfall, s, calls)
    ensures Runs.Collect(Next, Shortfall, s, calls) >= 0
    decreases |calls|
  {
    if calls != [] {
      OrphanStep(s, calls[0]);
      OrphanLaw(Next(s, calls[0]), calls[1..]);
    }
  }

  /**
   * After every run that leaves no loan open: the principal still on the books is exactly what repayments fell short
   * by, and held shares are redeemable exactly up to the liquidity less that and less the lead of the books.
   */
  lemma WithNoLoanOpen(token: Ledger, calls: seq<Call>, provider: Party, shares: int)
    requires Runs.Run(Next, Init(token), calls).loans == map[]
    ensures var s := Runs.Run(Next, Init(token), calls);
            var short := Runs.Collect(Next, Shortfall, Init(token), calls);
            && s.pool.totalBorrowed == short >= 0
            && (WithdrawStep(s, provider, shares).Some? <==>
                  && provider in s.providers && 0 <= shares <= Held(s, provider) && s.totalShares != 0
                  && Payout(s, shares) <= s.pool.totalLiquidity - short - Max(Lead(token, calls), 0))
  {
    OrphanLaw(Init(token), calls);
    ReachableWithdrawalSucceedsIff(token, calls, provider, shares);
  }

  lemma WholePoolPayout(s: State)
    requires Inv(s) && s.totalShares > 0
    ensures Payout(s, s.totalShares) == s.pool.totalLiquidity
  {
    var tl, ts := s.pool.totalLiquidity, s.totalShares;
    Arith.MulNonNeg(ts, tl);
    assert (tl + 1) * ts == ts * tl + ts;
    Arith.FloorIsUnique(tl, ts * tl, ts);
  }

  /**
   * After every run that leaves no loan open: if no repayment fell short and donations covered the principal repaid,
   * every held share can be redeemed; and the sole provider can redeem all its shares only then.
   */
  lemma AllRepaidMeansRedeemable(token: Ledger, calls: seq<Call>, provider: Party, shares: int)
    requires Runs.Run(Next, Init(token), calls).loans == map[]
    ensures var s := Runs.Run(Next, Init(token), calls);
            var whole := Runs.Collect(Next, Shortfall, Init(token), calls) == 0 && Lead(token, calls) <= 0;
            && (whole ==>
                  (WithdrawStep(s, provider, shares).Some? <==>
                     provider in s.providers && 0 <= shares <= Held(s, provider) && s.totalShares != 0))
            && (provider in s.providers && Held(s, provider) == s.totalShares > 0 ==>
                  (WithdrawStep(s, provider, s.totalShares).Some? <==> whole))
  {
    var s := Runs.Run(Next, Init(token), calls);
    WithNoLoanOpen(token, calls, provider, shares);
    ReachableInv(token, calls);
    if provider in s.providers && 0 <= shares <= Held(s, provider) && s.totalShares != 0 {
      Sums.TermAtMostSum(s.providers, Shares, provider);
      PayoutIsFloor(s, shares);
    }
    if provider in s.providers && Held(s, provider) == s.totalShares > 0 {
      WithNoLoanOpen(token, calls, provider, s.totalShares);
      WholePoolPayout(s);
    }
  }

  /** Principal once orphaned is out of reach for good: every later run leaves that much less available. */
  lemma OrphanedPrincipalIsLost(s: State, calls: seq<Call>)
    requires Inv(s)
    ensures var s' := Runs.Run(Next, s, calls); Available(s') <= s'.pool.totalLiquidity - Orphaned(s)
  {
    RunKeepsInv(s, calls);
    OrphanLaw(s, calls);
    Sums.SumNonNeg(Runs.Run(Next, s, calls).loans, Owed);
  }

  /**
   * The exception arises: lend `b`, take back `r < b`. No loan is open, the borrower keeps b - r, that much stays on
   * the books as borrowed, and the sole provider cannot redeem its shares; with r = 0 the books match the tokens.
   */
  lemma ShortRepaymentStrandsProvider(p: Party, q: Party, k: nat, a: int, b: int, r: int, token: Ledger)
    requires p != q && 0 <= r < b <= a <= Balance(token, p) && Balance(token, q) >= 0 && Balance(token, Contract) == 0
    ensures var s := Runs.Run(Next, Init(token), [Deposit(p, a), Borrow(q, k, b), Repay(q, k, r)]);
            s.loans == map[] && s.pool.totalBorrowed == b - r && Gap(s) == r
            && Balance(s.token, q) == Balance(token, q) + b - r
            && Held(s, p) == s.totalShares == a && WithdrawStep(s, p, a).None?
  {
    LendAndRepay(p, q, k, a, b, r, token);
    var s2 := Next(Next(Init(token), Deposit(p, a)), Borrow(q, k, b));
    assert Runs.Run(Next, s2, [Repay(q, k, r)]) == Next(s2, Repay(q, k, r));
    Arith.FloorIsUnique(a + r, a * (a + r), a);
  }

  /** Call `i` of a run is a repayment by the borrower that closes loan `k` as it was made. */
  ghost predicate ClosedAt(s: State, calls: seq<Call>, k: nat, loan: Loan, i: nat) {
    && i < |calls|
    && var si := Runs.Run(Next, s, calls[..i]);
       && k in si.loans && si.loans[k] == loan
       && calls[i].Repay? && calls[i].campaign == k && calls[i].borrower == loan.borrower && Step(si, calls[i]).Some?
  }

  lemma LoanStep(s: State, c: Call, k: nat)
    requires k in s.loans && !ClosedAt(s, [c], k, s.loans[k], 0)
    ensures k in Next(s, c).loans && Next(s, c).loans[k] == s.loans[k]
  {
    assert [c][..0] == [];
  }

  /**
   * Through every run a loan stands as it was made, unless its borrower closes it; nobody else can end or change
   * it.
   */
  lemma {:induction false} LoanStaysUntilClosed(s: State, calls: seq<Call>, k: nat)
    requires k in s.loans
    ensures var s' := Runs.Run(Next, s, calls);
            (k in s'.loans && s'.loans[k] == s.loans[k]) || exists i: nat :: ClosedAt(s, calls, k, s.loans[k], i)
    decreases |calls|
  {
    if calls != [] {
      var s', rest, loan := Next(s, calls[0]), calls[1..], s.loans[k];
      if ClosedAt(s, [calls[0]], k, loan, 0) {
        assert calls[..0] == [calls[0]][..0];
        assert ClosedAt(s, calls, k, loan, 0);
      } else {
        LoanStep(s, calls[0], k);
        LoanStaysUntilClosed(s', rest, k);
        if i: nat :| ClosedAt(s', rest, k, loan, i) {
          assert calls[..i + 1][1..] == rest[..i];
          assert ClosedAt(s, calls, k, loan, i + 1);
        }
      }
    }
  }

  // ----- the contract itself -----

  class Pool {
    var pool: PoolState
    var totalShares: int
    var providers: map<Party, Position>
    var loans: map<nat, Loan>
    var token: Ledger

    function Snapshot(): State
      reads this
    {
      State(pool, totalShares, providers, loans, token)
    }

    constructor (token: Ledger)
      ensures Snapshot() == Init(token)
    {
      this.pool := PoolState(0, 0, 0);
      this.totalShares := 0;
      this.providers := map[];
      this.loans := map[];
      this.token := token;
    }

    method Deposit(provider: Party, amount: int) returns (minted: Option<int>)
      modifies this
      ensures Snapshot() == Next(old(Snapshot()), Call.Deposit(provider, amount))
      ensures minted == if Step(old(Snapshot()), Call.Deposit(provider, amount)).Some?
                then Some(Mint(old(Snapshot()), amount)) else None
    {
      if amount <= 0 {
        return None;
      }
      var moved :- Transfer(token, provider, Contract, amount);
      token := moved;
      var state := pool;
      var shares := if state.totalLiquidity == 0 || totalShares == 0 then amount
                    else Quot(amount * totalShares, state.totalLiquidity);
      state := state.(totalLiquidity := state.totalLiquidity + amount);
      pool := state;
      totalShares := totalShares + shares;
      var position := GetOr(providers, provider, Position(0, 0));
      position := position.(deposited := position.deposited + amount);
      position := position.(shares := position.shares + shares);
      providers := providers[provider := position];
      return Some(shares);
    }

    method Withdraw(provider: Party, shares: int) returns (paid: Option<int>)
      modifies this
      ensures Snapshot() == Next(old(Snapshot()), Call.Withdraw(provider, shares))
      ensures paid == if Step(old(Snapshot()), Call.Withdraw(provider, shares)).Some?
                then Some(Payout(old(Snapshot()), shares)) else None
    {
      var before := Snapshot();
      var position :- Lookup(providers, provider);
      :- Require(position.shares >= shares);
      var state := pool;
      :- Require(totalShares != 0);
      var amount := Quot(shares * state.totalLiquidity, totalShares);
      var available := state.totalLiquidity - state.totalBorrowed;
      :- Require(amount <= available);
      state := state.(totalLiquidity := state.totalLiquidity - amount);
      pool := state;
      totalShares := totalShares - shares;
      position := position.(shares := position.shares - shares);
      position := position.(deposited := SaturatingSub(position.deposited, amount));
      providers := providers[provider := position];
      var sent := Transfer(token, Contract, provider, amount);
      if sent.None? {
        Rollback(before);
        return None;
      }
      token := sent.value;
      return Some(amount);
    }

    method Borrow(borrower: Party, campaign: nat, amount: int) returns (done: Option<()>)
      modifies this
      ensures Snapshot() == Next(old(Snapshot()), Call.Borrow(borrower, campaign, amount))
      ensures done.Some? <==> Step(old(Snapshot()), Call.Borrow(borrower, campaign, amount)).Some?
    {
      var before := Snapshot();
      var state := pool;
      var available := state.totalLiquidity - state.totalBorrowed;
      :- Require(amount <= available);
      :- Require(campaign !in loans);
      state := state.(totalBorrowed := state.totalBorrowed + amount);
      :- Require(state.totalLiquidity != 0);
      state := state.(utilizationRate := Utilization(state.totalBorrowed, state.totalLiquidity));
      pool := state;
      loans := loans[campaign := Loan(borrower, amount)];
      var sent := Transfer(token, Contract, borrower, amount);
      if sent.None? {
        Rollback(before);
        return None;
      }
      token := sent.value;
      return Some(());
    }

    method Repay(borrower: Party, campaign: nat, amount: int) returns (done: Option<()>)
      modifies this
      ensures Snapshot() == Next(old(Snapshot()), Call.Repay(borrower, campaign, amount))
      ensures done.Some? <==> Step(old(Snapshot()), Call.Repay(borrower, campaign, amount)).Some?
    {
      var loan :- Lookup(loans, campaign);
      :- Require(loan.borrower == borrower);
      var moved :- Transfer(token, borrower, Contract, amount);
      token := moved;
      var state := pool;
      state := state.(totalBorrowed := state.totalBorrowed - Min(amount, loan.borrowed));
      if state.totalLiquidity > 0 {
        state := state.(utilizationRate := Utilization(state.totalBorrowed, state.totalLiquidity));
      }
      state := state.(totalLiquidity := state.totalLiquidity + amount);
      pool := state;
      loans := loans - {campaign};
      return Some(());
    }

    /** A panic undoes every write of the call. */
    method Rollback(before: State)
      modifies this
      ensures Snapshot() == before
    {
      pool, totalShares, providers, loans, token :=
        before.pool, before.totalShares, before.providers, before.loans, before.token;
    }
  }
}

/** The rewards distributor: awards out of budgeted programmes, claimed as they vest over a year. */
module RewardsDistributor {
  import opened Chain
  import Arith
  import Runs
  import Sums

  datatype Program = Program(budget: int, distributed: int, endLedger: nat, active: bool)

  datatype Rewards = Rewards(earned: int, claimed: int, start: nat, duration: nat)

  datatype State = State(
    admin: Party, counter: nat, programs: map<nat, Program>, rewards: map<Address, Rewards>, token: Ledger, now: nat,
    ledger: nat)

  datatype Call =
    | CreateProgram(caller: Party, budget: int, duration: nat)
    | Distribute(caller: Party, recipient: Address, amount: int, program: nat)
    | Claim(user: Party)
    | Tick(seconds: nat, ledgers: nat)
    | Outside(sender: Party, to: Address, amount: int)

  const YEAR: nat := 365 * 24 * 3600

  function Init(admin: Party, token: Ledger, now: nat, ledger: nat): State {
    State(admin, 0, map[], map[], token, now, ledger)
  }

  // ----- what each entry point does -----

  function DistributeStep(s: State, caller: Party, recipient: Address, amount: int, program: nat): Option<State> {
    if caller != s.admin then None else
    var p :- Lookup(s.programs, program);
    :- Require(p.active);
    :- Require(p.distributed + amount <= p.budget);
    :- Require(s.ledger <= p.endLedger);
    var r := GetOr(s.rewards, recipient, Rewards(0, 0, s.now, YEAR));
    var r' := if r.earned == 0 then r.(start := s.now, duration := YEAR) else r;
    Some(s.(programs := s.programs[program := p.(distributed := p.distributed + amount)],
            rewards := s.rewards[recipient := r'.(earned := r'.earned + amount)]))
  }

  /** The part of an award that has vested by time `t`. */
  function Vested(r: Rewards, t: nat): int {
    if r.duration == 0 then 0
    else Quot(r.earned * Min(Max(t - r.start, 0), r.duration), r.duration)
  }

  function ClaimStep(s: State, user: Party): Option<State> {
    var r :- Lookup(s.rewards, user);
    :- Require(r.earned > 0);
    var claimable := Vested(r, s.now) - r.claimed;
    :- Require(claimable > 0);
    var token :- Transfer(s.token, Contract, user, claimable);
    Some(s.(rewards := s.rewards[user := r.(claimed := r.claimed + claimable)], token := token))
  }

  function Step(s: State, c: Call): Option<State> {
    match c
    case CreateProgram(caller, budget, duration) =>
      :- Require(caller == s.admin);
      var id := s.counter + 1;
      Some(s.(counter := id, programs := s.programs[id := Program(budget, 0, s.ledger + duration, true)]))
    case Distribute(caller, recipient, amount, program) => DistributeStep(s, caller, recipient, amount, program)
    case Claim(user) => ClaimStep(s, user)
    case Tick(seconds, ledgers) => Some(s.(now := s.now + seconds, ledger := s.ledger + ledgers))
    case Outside(sender, to, amount) =>
      var token :- Transfer(s.token, sender, to, amount);
      Some(s.(token := token))
  }

  function Next(s: State, c: Call): State {
    Step(s, c).GetOr(s)
  }

  // ----- the books, on every run -----

  ghost function Earned(user: Address, r: Rewards): int { r.earned }

  ghost function Given(id: nat, p: Program): int { p.distributed }

  /** What users have earned is what programmes have given out. */
  ghost predicate Books(s: State) {
    && (forall id | id in s.programs :: 1 <= id <= s.counter)
    && Sums.Sum(s.rewards, Earned) == Sums.Sum(s.programs, Given)
  }

  lemma NextKeepsBooks(s: State, c: Call)
    requires Books(s)
    ensures Books(Next(s, c))
  {
    if Step(s, c).Some? {
      var s' := Next(s, c);
      match c
      case CreateProgram(_, _, _) => Sums.SumUpdate(s.programs, Given, s'.counter, s'.programs[s'.counter]);
      case Distribute(_, u, _, id) =>
        Sums.SumUpdate(s.programs, Given, id, s'.programs[id]);
        Sums.SumUpdate(s.rewards, Earned, u, s'.rewards[u]);
      case Claim(u) => Sums.SumUpdate(s.rewards, Earned, u, s'.rewards[u]);
      case _ =>
    }
  }

  /** On every run, negative amounts included, all awards add up to what the programmes gave out. */
  lemma {:induction false} RunKeepsBooks(s: State, calls: seq<Call>)
    requires Books(s)
    ensures Books(Runs.Run(Next, s, calls))
    decreases |calls|
  {
    if calls != [] {
      NextKeepsBooks(s, calls[0]);
      RunKeepsBooks(Next(s, calls[0]), calls[1..]);
    }
  }

  // ----- vesting, on runs of non-negative budgets and awards -----

  predicate NonNegative(c: Call) {
    (c.CreateProgram? ==> c.budget >= 0) && (c.Distribute? ==> c.amount >= 0)
  }

  ghost predicate GoodRewards(r: Rewards, now: nat) {
    && r.duration == YEAR && r.start <= now
    && 0 <= r.claimed <= Vested(r, now) <= r.earned
  }

  ghost predicate Inv(s: State) {
    && Books(s)
    && (forall id | id in s.programs :: 0 <= s.programs[id].distributed <= s.programs[id].budget)
    && (forall u | u in s.rewards :: GoodRewards(s.rewards[u], s.now))
  }

  /** More earned or more time gone: more vested, up to all of it and never below zero. */
  lemma VestedGrows(r: Rewards, r': Rewards, t: nat, t': nat)
    requires r.duration == r'.duration > 0 && r.start == r'.start
    requires 0 <= r.earned <= r'.earned && t <= t'
    ensures 0 <= Vested(r, t) <= Vested(r', t') <= r'.earned
  {
    var d := r.duration;
    var f, f' := Min(Max(t - r.start, 0), d), Min(Max(t' - r.start, 0), d);
    Arith.MulMono(r.earned, r'.earned, f);
    Arith.MulMono(f, f', r'.earned);
    Arith.MulMono(f', d, r'.earned);
    Arith.MulNonNeg(r.earned, f);
    Arith.QuotIsFloor(r.earned * f, d);
    Arith.QuotIsFloor(r'.earned * f', d);
    Arith.FloorIsGreatest(Vested(r, t), r'.earned * f', d);
    Arith.CancelFactor(Vested(r', t'), r'.earned, d);
  }

  lemma NothingVestsAtTheStart(r: Rewards)
    requires r.duration > 0 && r.earned >= 0
    ensures Vested(r, r.start) == 0
  {
    Arith.FloorIsUnique(0, r.earned * 0, r.duration);
  }

  lemma DistributeKeepsInv(s: State, c: Call)
    requires Inv(s) && c.Distribute? && NonNegative(c) && Step(s, c).Some?
    ensures Inv(Next(s, c))
  {
    NextKeepsBooks(s, c);
    var s' := Next(s, c);
    var r := GetOr(s.rewards, c.recipient, Rewards(0, 0, s.now, YEAR));
    var r' := s'.rewards[c.recipient];
    if r.earned == 0 {
      NothingVestsAtTheStart(r');
    } else {
      VestedGrows(r, r', s.now, s.now);
    }
  }

  lemma ClaimKeepsInv(s: State, u: Party)
    requires Inv(s) && ClaimStep(s, u).Some?
    ensures Inv(Next(s, Claim(u)))
  {
    NextKeepsBooks(s, Claim(u));
    var s' := Next(s, Claim(u));
    assert Vested(s'.rewards[u], s.now) == Vested(s.rewards[u], s.now);
  }

  lemma TickKeepsInv(s: State, c: Call)
    requires Inv(s) && c.Tick?
    ensures Inv(Next(s, c))
  {
    var s' := Next(s, c);
    forall u | u in s.rewards ensures GoodRewards(s.rewards[u], s'.now) {
      VestedGrows(s.rewards[u], s.rewards[u], s.now, s'.now);
    }
  }

  lemma NextKeepsInv(s: State, c: Call)
    requires Inv(s) && NonNegative(c)
    ensures Inv(Next(s, c))
  {
    if Step(s, c).Some? {
      match c
      case Distribute(_, _, _, _) => DistributeKeepsInv(s, c);
      case Claim(u) => ClaimKeepsInv(s, u);
      case Tick(_, _) => TickKeepsInv(s, c);
      case _ => NextKeepsBooks(s, c);
    }
  }

  /**
   * On every run of non-negative budgets and awards: claims stay within what has vested, which stays within
   * what was earned, and awards stay within the budgets.
   */
  lemma {:induction false} RunKeepsInv(s: State, calls: seq<Call>)
    requires Inv(s) && forall c | c in calls :: NonNegative(c)
    ensures Inv(Runs.Run(Next, s, calls))
    decreases |calls|
  {
    if calls != [] {
      assert calls[0] in calls;
      NextKeepsInv(s, calls[0]);
      RunKeepsInv(Next(s, calls[0]), calls[1..]);
    }
  }

  /** Tokens a call moves from the distributor to `u`. */
  function PaidTo(u: Party): (State, Call) -> int {
    (s: State, c: Call) => if c == Claim(u) then Balance(Next(s, c).token, u) - Balance(s.token, u) else 0
  }

  function ClaimedBy(s: State, u: Party): int {
    if u in s.rewards then s.rewards[u].claimed else 0
  }

  /** A claim moves what has vested and not been claimed from the distributor to its user; no other call moves any. */
  lemma ClaimPaysUser(s: State, c: Call, a: Address)
    requires Step(s, c).Some? && !c.Outside?
    ensures c.Claim? ==> c.user in s.rewards && Vested(s.rewards[c.user], s.now) > s.rewards[c.user].claimed
    ensures Balance(Next(s, c).token, a) == Balance(s.token, a)
            + (if c.Claim? then
                 var due := Vested(s.rewards[c.user], s.now) - s.rewards[c.user].claimed;
                 Credit(a, c.user, due) - Credit(a, Contract, due)
               else 0)
  {
  }

  lemma PaidStep(s: State, c: Call, u: Party)
    ensures ClaimedBy(Next(s, c), u) == ClaimedBy(s, u) + PaidTo(u)(s, c)
  {
  }

  /** What the record says was claimed is what was paid out, through any run. */
  lemma {:induction false} ClaimedIsPaid(s: State, calls: seq<Call>, u: Party)
    ensures ClaimedBy(Runs.Run(Next, s, calls), u) == ClaimedBy(s, u) + Runs.Collect(Next, PaidTo(u), s, calls)
    decreases |calls|
  {
    if calls != [] {
      PaidStep(s, calls[0], u);
      ClaimedIsPaid(Next(s, calls[0]), calls[1..], u);
    }
  }

  /** The distributor holds what `u` could claim now. */
  ghost predicate Funded(s: State, u: Party)
    requires u in s.rewards
  {
    Balance(s.token, Contract) >= Vested(s.rewards[u], s.now) - s.rewards[u].claimed
  }

  /** A claim attempt that the distributor can fund brings the total paid to exactly the vested amount. */
  lemma ClaimCatchesUp(s: State, u: Party)
    requires Inv(s) && u in s.rewards
    ensures s.rewards[u].claimed <= Vested(s.rewards[u], s.now)
    ensures Funded(s, u) ==> ClaimedBy(Next(s, Claim(u)), u) == Vested(s.rewards[u], s.now)
    ensures !Funded(s, u) ==> Next(s, Claim(u)) == s
  {
  }

  /**
   * From a fresh distributor, whatever awards and claims were interleaved: after a last, funded claim the
   * tokens paid to a user over the whole run are exactly floor(earned * min(t - start, year) / year).
   */
  lemma PayoutIsWhatVested(admin: Party, token: Ledger, now: nat, ledger: nat, calls: seq<Call>, u: Party)
    requires forall c | c in calls :: NonNegative(c)
    requires var s := Runs.Run(Next, Init(admin, token, now, ledger), calls); u in s.rewards && Funded(s, u)
    ensures var s := Runs.Run(Next, Init(admin, token, now, ledger), calls);
            Runs.Collect(Next, PaidTo(u), Init(admin, token, now, ledger), calls + [Claim(u)])
                == Vested(s.rewards[u], s.now)
  {
    var s0 := Init(admin, token, now, ledger);
    RunKeepsInv(s0, calls);
    var s := Runs.Run(Next, s0, calls);
    ClaimCatchesUp(s, u);
    ClaimedIsPaid(s0, calls + [Claim(u)], u);
    Runs.RunAppend(Next, s0, calls, [Claim(u)]);
    assert Runs.Run(Next, s, [Claim(u)]) == Next(s, Claim(u));
  }

  // ----- when calls succeed -----

  /** Exactly when each call succeeds. */
  lemma CallsSucceedIff(s: State, c: Call)
    requires Inv(s)
    ensures Step(s, c).Some? <==>
              match c
              case CreateProgram(caller, _, _) => caller == s.admin
              case Distribute(caller, _, x, k) =>
                && caller == s.admin && k in s.programs && s.programs[k].active
                && x <= s.programs[k].budget - s.programs[k].distributed && s.ledger <= s.programs[k].endLedger
              case Claim(u) =>
                && u in s.rewards
                && 0 < Vested(s.rewards[u], s.now) - s.rewards[u].claimed <= Balance(s.token, Contract)
              case Tick(_, _) => true
              case Outside(u, _, x) => 0 <= x <= Balance(s.token, u)
  {
    if c.Claim? && c.user in s.rewards {
      assert GoodRewards(s.rewards[c.user], s.now);
    }
  }

  // ----- when vesting starts -----

  function EarnedBy(s: State, u: Address): int {
    if u in s.rewards then s.rewards[u].earned else 0
  }

  /** Right after a first award nothing has vested, and a claim panics. */
  lemma FirstAwardVestsNothing(s: State, c: Call)
    requires Inv(s) && c.Distribute? && NonNegative(c) && Step(s, c).Some? && EarnedBy(s, c.recipient) == 0
    ensures var s' := Next(s, c); var u := c.recipient;
            && u in s'.rewards && s'.rewards[u].start == s.now && s'.rewards[u].duration == YEAR
            && s'.rewards[u].earned == c.amount && s'.rewards[u].claimed == 0
            && Vested(s'.rewards[u], s'.now) == 0
            && (u.Account? ==> ClaimStep(s', u).None?)
  {
    var u := c.recipient;
    if u in s.rewards {
      assert GoodRewards(s.rewards[u], s.now);
    }
    NothingVestsAtTheStart(Next(s, c).rewards[u]);
  }

  /** A first award of `x`, then `d` seconds, then a funded claim: the user has floor(x * min(d, year) / year) more. */
  lemma FirstAwardThenClaim(s: State, admin: Party, u: Party, x: int, k: nat, d: nat)
    requires Inv(s) && x >= 0 && DistributeStep(s, admin, u, x, k).Some? && EarnedBy(s, u) == 0
    ensures
      var s2 := Next(Next(s, Distribute(admin, u, x, k)), Tick(d, 0));
      && u in s2.rewards
      && (Funded(s2, u) ==>
            Balance(Next(s2, Claim(u)).token, u) == Balance(s.token, u) + Quot(x * Min(d, YEAR), YEAR))
  {
    var c := Distribute(admin, u, x, k);
    var s1 := Next(s, c);
    FirstAwardVestsNothing(s, c);
    NextKeepsInv(s, c);
    var s2 := Next(s1, Tick(d, 0));
    TickKeepsInv(s1, Tick(d, 0));
    assert s2.rewards == s1.rewards && s2.token == s.token;
    assert Vested(s2.rewards[u], s2.now) == Quot(x * Min(d, YEAR), YEAR);
    if Funded(s2, u) {
      FundedClaimPaysTheRest(s2, u);
    }
  }

  lemma FundedClaimPaysTheRest(s: State, u: Party)
    requires Inv(s) && u in s.rewards && Funded(s, u)
    ensures Balance(Next(s, Claim(u)).token, u)
         == Balance(s.token, u) + Vested(s.rewards[u], s.now) - s.rewards[u].claimed
  {
    CallsSucceedIff(s, Claim(u));
    assert GoodRewards(s.rewards[u], s.now);
    if Step(s, Claim(u)).Some? {
      ClaimPaysUser(s, Claim(u), u);
    }
  }

  /** Call `i` of a run is the administrator's award that first gives `u` something, at the time `start`. */
  ghost predicate StartedAt(s: State, calls: seq<Call>, u: Address, start: nat, i: nat) {
    && i < |calls|
    && var c, si := calls[i], Runs.Run(Next, s, calls[..i]);
       && c.Distribute? && c.recipient == u && c.caller == si.admin && c.amount > 0 && Step(si, c).Some?
       && EarnedBy(si, u) == 0 && start == si.now
  }

  lemma StartStep(s: State, c: Call, u: Address)
    requires Inv(s) && NonNegative(c) && EarnedBy(s, u) > 0
    ensures u in Next(s, c).rewards && Next(s, c).rewards[u].start == s.rewards[u].start
    ensures EarnedBy(Next(s, c), u) > 0
  {
  }

  lemma {:induction false} StartStays(s: State, calls: seq<Call>, u: Address)
    requires Inv(s) && EarnedBy(s, u) > 0 && forall c | c in calls :: NonNegative(c)
    ensures var r := Runs.Run(Next, s, calls).rewards; u in r && r[u].start == s.rewards[u].start
    decreases |calls|
  {
    if calls != [] {
      assert calls[0] in calls;
      NextKeepsInv(s, calls[0]);
      StartStep(s, calls[0], u);
      StartStays(Next(s, calls[0]), calls[1..], u);
    }
  }

  /** On every run of non-negative amounts, what a user earned vests from the call that first gave it something. */
  lemma {:induction false} VestingStartsWithFirstAward(s: State, calls: seq<Call>, u: Address)
    requires Inv(s) && EarnedBy(s, u) == 0 && forall c | c in calls :: NonNegative(c)
    requires EarnedBy(Runs.Run(Next, s, calls), u) > 0
    ensures exists i: nat :: StartedAt(s, calls, u, Runs.Run(Next, s, calls).rewards[u].start, i)
    decreases |calls|
  {
    var c, s', rest := calls[0], Next(s, calls[0]), calls[1..];
    var start := Runs.Run(Next, s, calls).rewards[u].start;
    assert c in calls;
    NextKeepsInv(s, c);
    EarnedStep(s, c, u);
    if EarnedBy(s', u) > 0 {
      FirstAwardVestsNothing(s, c);
      StartStays(s', rest, u);
      assert Runs.Run(Next, s, calls[..0]) == s;
      assert StartedAt(s, calls, u, start, 0);
    } else {
      assert EarnedBy(s', u) == 0;
      VestingStartsWithFirstAward(s', rest, u);
      var i: nat :| StartedAt(s', rest, u, start, i);
      assert calls[..i + 1][1..] == rest[..i];
      assert StartedAt(s, calls, u, start, i + 1);
    }
  }

  // ----- what awards add up to -----

  function AwardedTo(u: Address): (State, Call) -> int {
    (s: State, c: Call) => if c.Distribute? && c.recipient == u && Step(s, c).Some? then c.amount else 0
  }

  function AwardedFrom(k: nat): (State, Call) -> int {
    (s: State, c: Call) => if c.Distribute? && c.program == k && Step(s, c).Some? then c.amount else 0
  }

  lemma EarnedStep(s: State, c: Call, u: Address)
    ensures EarnedBy(Next(s, c), u) == EarnedBy(s, u) + AwardedTo(u)(s, c)
  {
  }

  /** On every run a user has earned exactly what was awarded to it. */
  lemma {:induction false} EarnedIsAwarded(s: State, calls: seq<Call>, u: Address)
    ensures EarnedBy(Runs.Run(Next, s, calls), u) == EarnedBy(s, u) + Runs.Collect(Next, AwardedTo(u), s, calls)
    decreases |calls|
  {
    if calls != [] {
      EarnedStep(s, calls[0], u);
      EarnedIsAwarded(Next(s, calls[0]), calls[1..], u);
    }
  }

  /** Call `i` of a run opens programme `k`, for `budget`, until `endLedger`. */
  ghost predicate OpenedAt(s: State, calls: seq<Call>, k: nat, budget: int, endLedger: nat, i: nat) {
    && i < |calls|
    && var c, si := calls[i], Runs.Run(Next, s, calls[..i]);
       && c.CreateProgram? && c.caller == si.admin && k == si.counter + 1
       && budget == c.budget && endLedger == si.ledger + c.duration
  }

  /** From `p` to `p'` a programme gave out `given` and nothing else about it changed. */
  ghost predicate OnlyGave(p: Program, p': Program, given: int) {
    p' == p.(distributed := p.distributed + given)
  }

  lemma ProgramStep(s: State, c: Call, k: nat)
    requires k in s.programs && k <= s.counter
    ensures k in Next(s, c).programs && OnlyGave(s.programs[k], Next(s, c).programs[k], AwardedFrom(k)(s, c))
  {
  }

  lemma {:induction false} ProgramsOnlyGive(s: State, calls: seq<Call>, k: nat)
    requires Books(s) && k in s.programs
    ensures var s' := Runs.Run(Next, s, calls);
            k in s'.programs
            && OnlyGave(s.programs[k], s'.programs[k], Runs.Collect(Next, AwardedFrom(k), s, calls))
    decreases |calls|
  {
    if calls != [] {
      ProgramStep(s, calls[0], k);
      NextKeepsBooks(s, calls[0]);
      ProgramsOnlyGive(Next(s, calls[0]), calls[1..], k);
    }
  }

  lemma OpeningStep(s: State, c: Call, k: nat)
    requires k !in s.programs && k in Next(s, c).programs
    ensures var p := Next(s, c).programs[k];
            OpenedAt(s, [c], k, p.budget, p.endLedger, 0) && p.active && p.distributed == 0
  {
    assert [c][..0] == [];
  }

  /** Every programme on record after a run was opened in it by the administrator, on its terms, and is active still. */
  lemma {:induction false} ProgramsKeepTheirTerms(s: State, calls: seq<Call>, k: nat)
    requires Books(s) && k !in s.programs && k in Runs.Run(Next, s, calls).programs
    ensures var p := Runs.Run(Next, s, calls).programs[k];
            && p.active && p.distributed == Runs.Collect(Next, AwardedFrom(k), s, calls)
            && exists i: nat :: OpenedAt(s, calls, k, p.budget, p.endLedger, i)
    decreases |calls|
  {
    var c, s', rest := calls[0], Next(s, calls[0]), calls[1..];
    var p := Runs.Run(Next, s, calls).programs[k];
    NextKeepsBooks(s, c);
    assert AwardedFrom(k)(s, c) == 0;
    if k in s'.programs {
      OpeningStep(s, c, k);
      ProgramsOnlyGive(s', rest, k);
      assert calls[..0] == [c][..0];
      assert OpenedAt(s, calls, k, p.budget, p.endLedger, 0);
    } else {
      ProgramsKeepTheirTerms(s', rest, k);
      var i: nat :| OpenedAt(s', rest, k, p.budget, p.endLedger, i);
      assert calls[..i + 1][1..] == rest[..i];
      assert OpenedAt(s, calls, k, p.budget, p.endLedger, i + 1);
    }
  }

  // ----- funding for everybody at once -----

  ghost function Outstanding(u: Address, r: Rewards): int { r.earned - r.claimed }

  /** What the distributor holds beyond all awards not yet claimed. */
  ghost function Reserve(s: State): int {
    Balance(s.token, Contract) - Sums.Sum(s.rewards, Outstanding)
  }

  function Donation(s: State, c: Call): int {
    if c.Outside? && c.to == Contract && Step(s, c).Some? then c.amount else 0
  }

  function Awarded(s: State, c: Call): int {
    if c.Distribute? && Step(s, c).Some? then c.amount else 0
  }

  lemma ReserveStep(s: State, c: Call)
    ensures Reserve(Next(s, c)) == Reserve(s) + Donation(s, c) - Awarded(s, c)
  {
    if Step(s, c).Some? {
      if c.Distribute? {
        Sums.SumUpdate(s.rewards, Outstanding, c.recipient, Next(s, c).rewards[c.recipient]);
      } else if c.Claim? {
        Sums.SumUpdate(s.rewards, Outstanding, c.user, Next(s, c).rewards[c.user]);
      }
    }
  }

  /** Over every run, negative amounts included, the reserve changes by exactly the donations less the awards. */
  lemma {:induction false} ReserveLaw(s: State, calls: seq<Call>)
    ensures Reserve(Runs.Run(Next, s, calls))
         == Reserve(s) + Runs.Collect(Next, Donation, s, calls) - Runs.Collect(Next, Awarded, s, calls)
    decreases |calls|
  {
    if calls != [] {
      ReserveStep(s, calls[0]);
      ReserveLaw(Next(s, calls[0]), calls[1..]);
    }
  }

  lemma ReserveFundsEverybody(s: State, u: Address)
    requires Inv(s) && Reserve(s) >= 0 && u in s.rewards
    ensures Balance(s.token, Contract) >= Vested(s.rewards[u], s.now) - s.rewards[u].claimed
  {
    forall v | v in s.rewards ensures Outstanding(v, s.rewards[v]) >= 0 {
      assert GoodRewards(s.rewards[v], s.now);
    }
    Sums.TermAtMostSum(s.rewards, Outstanding, u);
  }

  /**
   * From a fresh distributor, on every run of non-negative budgets and awards: if what was sent to it covers all
   * awards, every user's claim is funded, whatever the others claimed before, and succeeds exactly when something more
   * has vested.
   */
  lemma FundedClaimsSucceed(admin: Party, token: Ledger, now: nat, ledger: nat, calls: seq<Call>, u: Party)
    requires forall c | c in calls :: NonNegative(c)
    requires var s0 := Init(admin, token, now, ledger);
             Balance(token, Contract)
                 + Runs.Collect(Next, Donation, s0, calls) >= Runs.Collect(Next, Awarded, s0, calls)
    ensures var s := Runs.Run(Next, Init(admin, token, now, ledger), calls);
            && (u in s.rewards ==> Funded(s, u))
            && (ClaimStep(s, u).Some? <==> u in s.rewards && Vested(s.rewards[u], s.now) > s.rewards[u].claimed)
  {
    var s0 := Init(admin, token, now, ledger);
    var s := Runs.Run(Next, s0, calls);
    RunKeepsInv(s0, calls);
    ReserveLaw(s0, calls);
    if u in s.rewards {
      ReserveFundsEverybody(s, u);
      assert GoodRewards(s.rewards[u], s.now);
    }
  }

  // ----- independence of the schedule -----

  function Forget(r: Rewards): Rewards {
    r.(claimed := 0)
  }

  /** Two states that differ at most in what has been claimed. */
  ghost predicate SameAwards(s: State, t: State) {
    && s.admin == t.admin && s.counter == t.counter && s.programs == t.programs
    && s.now == t.now && s.ledger == t.ledger
    && s.rewards.Keys == t.rewards.Keys
    && (forall u | u in s.rewards :: Forget(s.rewards[u]) == Forget(t.rewards[u]))
  }

  lemma ClaimsDoNotChangeAwards(s: State, u: Party)
    ensures SameAwards(Next(s, Claim(u)), s)
  {
  }

  lemma AwardsEvolveAlike(s: State, t: State, c: Call)
    requires SameAwards(s, t) && !c.Claim?
    ensures SameAwards(Next(s, c), Next(t, c))
  {
    if c.Distribute? && c.recipient in s.rewards {
      assert Forget(s.rewards[c.recipient]) == Forget(t.rewards[c.recipient]);
    }
  }

  function WithoutClaims(calls: seq<Call>): seq<Call> {
    if calls == [] then []
    else (if calls[0].Claim? then [] else [calls[0]]) + WithoutClaims(calls[1..])
  }

  /** Dropping every claim from a run changes nobody's awards. */
  lemma {:induction false} AwardsIgnoreClaims(s: State, t: State, calls: seq<Call>)
    requires SameAwards(s, t)
    ensures SameAwards(Runs.Run(Next, s, calls), Runs.Run(Next, t, WithoutClaims(calls)))
    decreases |calls|
  {
    if calls != [] {
      var c, rest := calls[0], calls[1..];
      if c.Claim? {
        assert WithoutClaims(calls) == WithoutClaims(rest);
        ClaimsDoNotChangeAwards(s, c.user);
        AwardsIgnoreClaims(Next(s, c), t, rest);
      } else {
        assert WithoutClaims(calls)[0] == c && WithoutClaims(calls)[1..] == WithoutClaims(rest);
        AwardsEvolveAlike(s, t, c);
        AwardsIgnoreClaims(Next(s, c), Next(t, c), rest);
      }
    }
  }

  /** In states with the same awards a funded last claim brings the total paid to the same figure. */
  lemma LastClaimsAgree(a: State, b: State, u: Party)
    requires Inv(a) && Inv(b) && SameAwards(a, b) && u in a.rewards
    ensures u in b.rewards && Vested(a.rewards[u], a.now) == Vested(b.rewards[u], b.now)
    ensures Funded(a, u) && Funded(b, u) ==>
              ClaimedBy(Next(a, Claim(u)), u) == ClaimedBy(Next(b, Claim(u)), u) == Vested(a.rewards[u], a.now)
  {
    assert Forget(a.rewards[u]) == Forget(b.rewards[u]);
    ClaimCatchesUp(a, u);
    ClaimCatchesUp(b, u);
  }

  /**
   * Schedule independence: whatever claims were interleaved, a user who claims at the end has been paid the
   * same total as one who claims only then, namely what has vested; provided each last claim is funded.
   */
  lemma ScheduleIndependence(s: State, calls: seq<Call>, u: Party)
    requires Inv(s) && forall c | c in calls :: NonNegative(c)
    requires u in Runs.Run(Next, s, calls).rewards
    ensures
      var a, b := Runs.Run(Next, s, calls), Runs.Run(Next, s, WithoutClaims(calls));
      u in b.rewards
      && (Funded(a, u) && Funded(b, u) ==>
            ClaimedBy(Next(a, Claim(u)), u) == ClaimedBy(Next(b, Claim(u)), u) == Vested(a.rewards[u], a.now))
  {
    RunKeepsInv(s, calls);
    WithoutClaimsIsASelection(calls);
    RunKeepsInv(s, WithoutClaims(calls));
    AwardsIgnoreClaims(s, s, calls);
    LastClaimsAgree(Runs.Run(Next, s, calls), Runs.Run(Next, s, WithoutClaims(calls)), u);
  }

  lemma {:induction false} WithoutClaimsIsASelection(calls: seq<Call>)
    ensures forall c | c in WithoutClaims(calls) :: c in calls && !c.Claim?
  {
    if calls != [] {
      WithoutClaimsIsASelection(calls[1..]);
    }
  }

  // ----- who may change what -----

  /**
   * Only the administrator opens programmes and awards, out of an active programme before its end; and what a user
   * has claimed changes only by its own claim, and then rises.
   */
  lemma ChangesAreAuthorised(s: State, c: Call, u: Address)
    ensures var s' := Next(s, c);
            var r, r' := GetOr(s.rewards, u, Rewards(0, 0, 0, 0)), GetOr(s'.rewards, u, Rewards(0, 0, 0, 0));
            && (s'.counter != s.counter ==> c.CreateProgram? && c.caller == s.admin)
            && (r'.earned != r.earned ==>
                  && c.Distribute? && c.caller == s.admin && c.recipient == u && c.program in s.programs
                  && s.programs[c.program].active && s.ledger <= s.programs[c.program].endLedger)
            && (r'.claimed != r.claimed ==> c.Claim? && c.user == u && r'.claimed > r.claimed && r.earned > 0)
  {
  }

  /** A user's award and claims stay as they are through any run without its claims and without the administrator. */
  lemma {:induction false} IdleRewardsStay(s: State, calls: seq<Call>, u: Address)
    requires u in s.rewards
    requires forall c | c in calls :: (c.Claim? ==> c.user != u) && (c.Distribute? ==> c.caller != s.admin)
    ensures var r := Runs.Run(Next, s, calls).rewards;
            u in r && r[u].earned == s.rewards[u].earned && r[u].claimed == s.rewards[u].claimed
    decreases |calls|
  {
    if calls != [] {
      assert calls[0] in calls;
      ChangesAreAuthorised(s, calls[0], u);
      IdleRewardsStay(Next(s, calls[0]), calls[1..], u);
    }
  }

  // ----- the contract itself -----

  class Distributor {
    var admin: Party
    var counter: nat
    var programs: map<nat, Program>
    var rewards: map<Address, Rewards>
    var token: Ledger
    var now: nat
    var ledger: nat

    function Snapshot(): State
      reads this
    {
      State(admin, counter, programs, rewards, token, now, ledger)
    }

    constructor (admin: Party, token: Ledger, now: nat, ledger: nat)
      ensures Snapshot() == Init(admin, token, now, ledger)
    {
      this.admin, this.counter, this.programs, this.rewards := admin, 0, map[], map[];
      this.token, this.now, this.ledger := token, now, ledger;
    }

    method CreateRewardProgram(caller: Party, budget: int, duration: nat) returns (id: Option<nat>)
      modifies this
      ensures Snapshot() == Next(old(Snapshot()), CreateProgram(caller, budget, duration))
      ensures id == if caller == old(admin) then Some(old(counter) + 1) else None
    {
      if caller != admin {
        return None;
      }
      var programId := counter + 1;
      programs := programs[programId := Program(budget, 0, ledger + duration, true)];
      counter := programId;
      return Some(programId);
    }

    method DistributeRewards(caller: Party, recipient: Address, amount: int, program: nat) returns (done: Option<()>)
      modifies this
      ensures Snapshot() == Next(old(Snapshot()), Distribute(caller, recipient, amount, program))
      ensures done.Some? <==> Step(old(Snapshot()), Distribute(caller, recipient, amount, program)).Some?
    {
      if caller != admin {
        return None;
      }
      var p :- Lookup(programs, program);
      :- Require(p.active);
      :- Require(!(p.distributed + amount > p.budget));
      :- Require(!(ledger > p.endLedger));
      p := p.(distributed := p.distributed + amount);
      programs := programs[program := p];
      var r := GetOr(rewards, recipient, Rewards(0, 0, now, YEAR));
      if r.earned == 0 {
        r := r.(start := now);
        r := r.(duration := YEAR);
      }
      r := r.(earned := r.earned + amount);
      rewards := rewards[recipient := r];
      return Some(());
    }

    method ClaimRewards(user: Party) returns (paid: Option<int>)
      modifies this
      ensures Snapshot() == Next(old(Snapshot()), Claim(user))
      ensures paid.Some? <==> Step(old(Snapshot()), Claim(user)).Some?
      ensures paid.Some? ==>
                user in old(rewards)
                && paid.value == Vested(old(rewards)[user], old(now)) - old(rewards)[user].claimed
    {
      var r :- Lookup(rewards, user);
      :- Require(!(r.earned <= 0));
      var claimable := Vested(r, now) - r.claimed;
      :- Require(!(claimable <= 0));
      var sent :- Transfer(token, Contract, user, claimable);
      token := sent;
      r := r.(claimed := r.claimed + claimable);
      rewards := rewards[user := r];
      return Some(claimable);
    }
  }
}

/** The escrow vault: payout paths out of one shared balance, gated by time, approvals, performance and disputes. */
module EscrowVault {
  import opened Chain
  import Runs
  import Sums

  datatype Phase = Pending | Locked | Released | Refunded | PartiallyReleased | Disputed

  datatype Escrow = Escrow(
    depositor: Party, beneficiary: Address, amount: int, locked: int, released: int, refunded: int,
    phase: Phase, timeLockUntil: nat, threshold: nat, expiresAt: nat)

  datatype Config = Config(admin: Party, oracle: Party, fraud: Option<Party>, dispute: Option<Party>, minApprovals: nat)

  datatype State = State(
    config: Config, nonce: nat, escrows: map<nat, Escrow>,
    required: set<(nat, Address)>, approvals: set<(nat, Address)>, approvalCount: map<nat, nat>,
    performance: map<nat, nat>, token: Ledger, now: nat)

  datatype Call =
    | Create(depositor: Party, beneficiary: Address, amount: int, lockFor: nat, threshold: nat, expiresIn: nat,
             approvers: seq<Address>)
    | Approve(approver: Party, id: nat)
    | Release(caller: Party, id: nat)
    | ReleasePartial(caller: Party, id: nat, amount: int)
    | Refund(caller: Party, id: nat)
    | Settle(caller: Party, id: nat, claimant: Address, respondent: Address, toClaimant: int, toRespondent: int)
    | Hold(caller: Party, id: nat)
    | UpdatePerformance(caller: Party, id: nat, score: nat)
    | SetFraud(caller: Party, fraud: Party)
    | SetDispute(caller: Party, dispute: Party)
    | Tick(seconds: nat)
    | Outside(sender: Party, to: Address, amount: int)

  function Init(admin: Party, oracle: Party, token: Ledger, now: nat): State {
    State(Config(admin, oracle, None, None, 1), 0, map[], {}, {}, map[], map[], token, now)
  }

  // ----- what each entry point does -----

  function Registered(id: nat, approvers: seq<Address>): set<(nat, Address)> {
    set a | a in approvers :: (id, a)
  }

  function CreateStep(s: State, c: Call): Option<State>
    requires c.Create?
  {
    if c.amount <= 0 then None else
    :- Require(c.threshold <= 100);
    var token :- Transfer(s.token, c.depositor, Contract, c.amount);
    var id := s.nonce + 1;
    var escrow := Escrow(c.depositor, c.beneficiary, c.amount, c.amount, 0, 0, Locked, s.now + c.lockFor, c.threshold,
                         s.now + c.expiresIn);
    Some(s.(nonce := id, escrows := s.escrows[id := escrow], approvalCount := s.approvalCount[id := 0],
            required := s.required + Registered(id, c.approvers), token := token))
  }

  function ApproveStep(s: State, approver: Party, id: nat): Option<State> {
    if (id, approver) !in s.required then None else
    :- Require((id, approver) !in s.approvals);
    var escrow :- Lookup(s.escrows, id);
    :- Require(escrow.phase != Released);
    Some(s.(approvals := s.approvals + {(id, approver)},
            approvalCount := s.approvalCount[id := GetOr(s.approvalCount, id, 0) + 1]))
  }

  /** The contract's own view of whether an escrow may be released. */
  function CanRelease(s: State, id: nat): bool {
    id in s.escrows
    && s.now >= s.escrows[id].timeLockUntil
    && GetOr(s.approvalCount, id, 0) >= s.config.minApprovals
    && (id in s.performance ==> s.performance[id] >= s.escrows[id].threshold)
  }

  /** The checks a release makes, in the order it makes them. */
  function CheckCanRelease(s: State, escrow: Escrow, id: nat): Guard {
    if escrow.phase == Disputed then Panic
    else if s.now < escrow.timeLockUntil then Panic
    else if GetOr(s.approvalCount, id, 0) < s.config.minApprovals then Panic
    else if id in s.performance && s.performance[id] < escrow.threshold then Panic
    else Pass
  }

  function ReleaseStep(s: State, caller: Party, id: nat): Option<State> {
    var escrow :- Lookup(s.escrows, id);
    :- Require(caller == escrow.depositor || caller == s.config.admin);
    :- CheckCanRelease(s, escrow, id);
    :- Require(escrow.locked > 0);
    var token :- Transfer(s.token, Contract, escrow.beneficiary, escrow.locked);
    Some(s.(escrows := s.escrows[id := escrow.(locked := 0, released := escrow.amount, phase := Released)],
            token := token))
  }

  function ReleasePartialStep(s: State, caller: Party, id: nat, amount: int): Option<State> {
    var escrow :- Lookup(s.escrows, id);
    :- Require(caller == escrow.depositor || caller == s.config.admin);
    :- CheckCanRelease(s, escrow, id);
    :- Require(0 < amount <= escrow.locked);
    var token :- Transfer(s.token, Contract, escrow.beneficiary, amount);
    var escrow' := escrow.(locked := escrow.locked - amount, released := escrow.released + amount,
                           phase := PartiallyReleased);
    Some(s.(escrows := s.escrows[id := escrow'], token := token))
  }

  function RefundStep(s: State, id: nat): Option<State> {
    var escrow :- Lookup(s.escrows, id);
    :- Require(s.now >= escrow.expiresAt);
    :- Require(escrow.locked > 0);
    var token :- Transfer(s.token, Contract, escrow.depositor, escrow.locked);
    Some(s.(escrows := s.escrows[id := escrow.(locked := 0, refunded := escrow.locked, phase := Refunded)],
            token := token))
  }

  function PayIfPositive(ledger: Ledger, to: Address, amount: int): Option<Ledger> {
    if amount > 0 then Transfer(ledger, Contract, to, amount) else Some(ledger)
  }

  function SettledPhase(locked: int, toClaimant: int, toRespondent: int): Phase {
    if locked == 0 then
      if toClaimant > 0 && toRespondent > 0 then PartiallyReleased
      else if toClaimant > 0 then Released
      else Refunded
    else PartiallyReleased
  }

  function SettleStep(s: State, c: Call): Option<State>
    requires c.Settle?
  {
    if !(c.toClaimant >= 0 && c.toRespondent >= 0) then None else
    :- Require(c.caller == s.config.admin || Some(c.caller) == s.config.dispute);
    var escrow :- Lookup(s.escrows, c.id);
    :- Require(escrow.phase != Released && escrow.phase != Refunded);
    var total := c.toClaimant + c.toRespondent;
    :- Require(0 < total <= escrow.locked);
    var paidClaimant :- PayIfPositive(s.token, c.claimant, c.toClaimant);
    var token :- PayIfPositive(paidClaimant, c.respondent, c.toRespondent);
    var locked := escrow.locked - total;
    var escrow' := escrow.(locked := locked, released := escrow.released + c.toClaimant,
                           refunded := escrow.refunded + c.toRespondent,
                           phase := SettledPhase(locked, c.toClaimant, c.toRespondent));
    Some(s.(escrows := s.escrows[c.id := escrow'], token := token))
  }

  function HoldStep(s: State, caller: Party, id: nat): Option<State> {
    var fraud :- s.config.fraud;
    :- Require(caller == fraud);
    var escrow :- Lookup(s.escrows, id);
    Some(s.(escrows := s.escrows[id := escrow.(phase := Disputed)]))
  }

  function Step(s: State, c: Call): Option<State> {
    match c
    case Create(_, _, _, _, _, _, _) => CreateStep(s, c)
    case Approve(approver, id) => ApproveStep(s, approver, id)
    case Release(caller, id) => ReleaseStep(s, caller, id)
    case ReleasePartial(caller, id, amount) => ReleasePartialStep(s, caller, id, amount)
    case Refund(_, id) => RefundStep(s, id)
    case Settle(_, _, _, _, _, _) => SettleStep(s, c)
    case Hold(caller, id) => HoldStep(s, caller, id)
    case UpdatePerformance(caller, id, score) =>
      :- Require(caller == s.config.oracle);
      :- Require(score <= 100);
      Some(s.(performance := s.performance[id := score]))
    case SetFraud(caller, fraud) =>
      :- Require(caller == s.config.admin);
      Some(s.(config := s.config.(fraud := Some(fraud))))
    case SetDispute(caller, dispute) =>
      :- Require(caller == s.config.admin);
      Some(s.(config := s.config.(dispute := Some(dispute))))
    case Tick(seconds) => Some(s.(now := s.now + seconds))
    case Outside(sender, to, amount) =>
      var token :- Transfer(s.token, sender, to, amount);
      Some(s.(token := token))
  }

  function Next(s: State, c: Call): State {
    Step(s, c).GetOr(s)
  }

  /** The calls that pay out of an escrow. */
  predicate IsPayout(c: Call) {
    c.Release? || c.ReleasePartial? || c.Refund? || c.Settle?
  }

  // ----- the inductive invariant -----

  ghost predicate SumsToAmount(e: Escrow) {
    e.locked + e.released + e.refunded == e.amount
  }

  ghost predicate GoodEscrow(e: Escrow) {
    && 0 <= e.locked <= e.amount
    && e.released >= 0 && e.refunded >= 0
    && (e.locked > 0 ==> SumsToAmount(e))
  }

  ghost function Approvers(s: State, id: nat): set<Address> {
    set p | p in s.approvals && p.0 == id :: p.1
  }

  ghost predicate Inv(s: State) {
    && s.config.minApprovals == 1
    && (forall id | id in s.escrows :: 1 <= id <= s.nonce && GoodEscrow(s.escrows[id]))
    && s.approvals <= s.required
    && (forall p | p in s.required :: p.0 in s.escrows)
    && (forall id | id in s.escrows :: id in s.approvalCount && s.approvalCount[id] == |Approvers(s, id)|)
  }

  lemma InitInv(admin: Party, oracle: Party, token: Ledger, now: nat)
    ensures Inv(Init(admin, oracle, token, now))
  {
  }

  lemma CreateKeepsInv(s: State, c: Call)
    requires Inv(s) && c.Create? && CreateStep(s, c).Some?
    ensures Inv(CreateStep(s, c).value)
  {
    var s' := CreateStep(s, c).value;
    assert Approvers(s', s'.nonce) == {};
    forall id | id in s.escrows ensures Approvers(s', id) == Approvers(s, id) {}
  }

  lemma ApproveKeepsInv(s: State, approver: Party, id: nat)
    requires Inv(s) && ApproveStep(s, approver, id).Some?
    ensures Inv(ApproveStep(s, approver, id).value)
  {
    var s' := ApproveStep(s, approver, id).value;
    var added: set<Address> := {approver};
    assert Approvers(s', id) == Approvers(s, id) + added;
    forall k | k in s.escrows && k != id ensures Approvers(s', k) == Approvers(s, k) {
      assert forall p | p in s'.approvals && p.0 == k :: p in s.approvals;
    }
  }

  /** Rewriting one escrow leaves the approvals alone. */
  lemma RewriteKeepsInv(s: State, id: nat, e': Escrow, token: Ledger)
    requires Inv(s) && id in s.escrows && GoodEscrow(e')
    ensures Inv(s.(escrows := s.escrows[id := e'], token := token))
  {
    var s' := s.(escrows := s.escrows[id := e'], token := token);
    forall k | k in s'.escrows ensures Approvers(s', k) == Approvers(s, k) {}
  }

  /** A release, a refund, a settlement or a hold rewrites one escrow. */
  lemma PayoutKeepsInv(s: State, c: Call)
    requires Inv(s) && (IsPayout(c) || c.Hold?) && Step(s, c).Some?
    ensures Inv(Next(s, c))
  {
    var s' := Next(s, c);
    assert s' == s.(escrows := s.escrows[c.id := s'.escrows[c.id]], token := s'.token);
    assert GoodEscrow(s.escrows[c.id]) ==> GoodEscrow(s'.escrows[c.id]);
    RewriteKeepsInv(s, c.id, s'.escrows[c.id], s'.token);
  }

  lemma SettingsKeepInv(s: State, c: Call)
    requires Inv(s) && (c.UpdatePerformance? || c.SetFraud? || c.SetDispute? || c.Tick? || c.Outside?)
    ensures Inv(Next(s, c))
  {
    var s' := Next(s, c);
    forall id | id in s'.escrows ensures Approvers(s', id) == Approvers(s, id) {}
  }

  lemma NextKeepsInv(s: State, c: Call)
    requires Inv(s)
    ensures Inv(Next(s, c))
  {
    if Step(s, c).Some? {
      match c
      case Create(_, _, _, _, _, _, _) => CreateKeepsInv(s, c);
      case Approve(approver, id) => ApproveKeepsInv(s, approver, id);
      case _ =>
        if IsPayout(c) || c.Hold? {
          PayoutKeepsInv(s, c);
        } else {
          SettingsKeepInv(s, c);
        }
    }
  }

  /** In every reachable vault the approval counter is the number of distinct approvals, all by required approvers. */
  lemma {:induction false} RunKeepsInv(s: State, calls: seq<Call>)
    requires Inv(s)
    ensures Inv(Runs.Run(Next, s, calls))
    decreases |calls|
  {
    if calls != [] {
      NextKeepsInv(s, calls[0]);
      RunKeepsInv(Next(s, calls[0]), calls[1..]);
    }
  }

  // ----- custody of the shared balance -----

  ghost function LockedIn(id: nat, e: Escrow): int { e.locked }

  ghost function TotalLocked(s: State): int {
    Sums.Sum(s.escrows, LockedIn)
  }

  /** What a payout owes account `a`: the beneficiary its release, the depositor its refund, the parties their parts. */
  function DueTo(s: State, c: Call, a: Address): int
    requires IsPayout(c) && c.id in s.escrows
  {
    var e := s.escrows[c.id];
    match c
    case Release(_, _) => Credit(a, e.beneficiary, e.locked)
    case ReleasePartial(_, _, amount) => Credit(a, e.beneficiary, amount)
    case Refund(_, _) => Credit(a, e.depositor, e.locked)
    case Settle(_, _, claimant, respondent, x, y) => Credit(a, claimant, x) + Credit(a, respondent, y)
  }

  /** What a payout takes from the vault in all. */
  function TotalDue(s: State, c: Call): int
    requires IsPayout(c) && c.id in s.escrows
  {
    match c
    case Release(_, id) => s.escrows[id].locked
    case ReleasePartial(_, _, amount) => amount
    case Refund(_, id) => s.escrows[id].locked
    case Settle(_, _, _, _, x, y) => x + y
  }

  lemma ReleasePaysItsParty(s: State, c: Call, a: Address)
    requires (c.Release? || c.ReleasePartial? || c.Refund?) && Step(s, c).Some?
    ensures Balance(Next(s, c).token, a) == Balance(s.token, a) + DueTo(s, c, a) - Credit(a, Contract, TotalDue(s, c))
  {
  }

  lemma SettlementPaysBoth(s: State, c: Call, a: Address)
    requires c.Settle? && Step(s, c).Some?
    ensures Balance(Next(s, c).token, a) == Balance(s.token, a) + DueTo(s, c, a) - Credit(a, Contract, TotalDue(s, c))
  {
  }

  /** Every payout credits its parties exactly what it owes them, out of the vault and of nobody else's account. */
  lemma PayoutReachesItsParties(s: State, c: Call, a: Address)
    requires IsPayout(c) && Step(s, c).Some?
    ensures c.id in s.escrows
    ensures Balance(Next(s, c).token, a) == Balance(s.token, a) + DueTo(s, c, a) - Credit(a, Contract, TotalDue(s, c))
  {
    if c.Settle? {
      SettlementPaysBoth(s, c, a);
    } else {
      ReleasePaysItsParty(s, c, a);
    }
  }

  /** Tokens that stay in or reach the vault beside the locked funds: gifts, and payouts addressed to it. */
  function Stray(s: State, c: Call): int {
    if Step(s, c).None? then 0
    else if IsPayout(c) then DueTo(s, c, Contract)
    else if c.Outside? then Credit(Contract, c.to, c.amount)
    else 0
  }

  ghost predicate CustodyKept(s: State, c: Call) {
    && Balance(Next(s, c).token, Contract) - TotalLocked(Next(s, c))
       == Balance(s.token, Contract) - TotalLocked(s) + Stray(s, c)
    && Stray(s, c) >= 0
  }

  /** A payout lowers its own escrow's lock by what it takes from the vault. */
  lemma PayoutLowersLock(s: State, c: Call)
    requires Inv(s) && IsPayout(c) && Step(s, c).Some?
    ensures var s' := Next(s, c);
            c.id in s.escrows && s'.escrows == s.escrows[c.id := s'.escrows[c.id]]
            && s'.escrows[c.id].amount == s.escrows[c.id].amount
            && s'.escrows[c.id].locked == s.escrows[c.id].locked - TotalDue(s, c) && TotalDue(s, c) > 0
            && DueTo(s, c, Contract) >= 0
  {
  }

  lemma PayoutKeepsCustody(s: State, c: Call)
    requires Inv(s) && IsPayout(c) && Step(s, c).Some?
    ensures CustodyKept(s, c)
  {
    PayoutReachesItsParties(s, c, Contract);
    PayoutLowersLock(s, c);
    Sums.SumUpdate(s.escrows, LockedIn, c.id, Next(s, c).escrows[c.id]);
  }

  lemma CustodyStep(s: State, c: Call)
    requires Inv(s)
    ensures CustodyKept(s, c)
  {
    if Step(s, c).Some? {
      var s' := Next(s, c);
      if IsPayout(c) {
        PayoutKeepsCustody(s, c);
      } else if c.Create? {
        Sums.SumUpdate(s.escrows, LockedIn, s'.nonce, s'.escrows[s'.nonce]);
      } else if c.Hold? {
        Sums.SumUpdate(s.escrows, LockedIn, c.id, s'.escrows[c.id]);
      }
    }
  }

  /** After any interleaving of calls the vault holds the sum of all locked amounts, plus exactly what strayed to it. */
  lemma {:induction false} CustodyLaw(s: State, calls: seq<Call>)
    requires Inv(s)
    ensures Balance(Runs.Run(Next, s, calls).token, Contract) - TotalLocked(Runs.Run(Next, s, calls))
         == Balance(s.token, Contract) - TotalLocked(s) + Runs.Collect(Next, Stray, s, calls)
    ensures Runs.Collect(Next, Stray, s, calls) >= 0
    decreases |calls|
  {
    if calls != [] {
      NextKeepsInv(s, calls[0]);
      CustodyStep(s, calls[0]);
      CustodyLaw(Next(s, calls[0]), calls[1..]);
    }
  }

  /** The vault can pay everything it has locked. */
  ghost predicate Solvent(s: State) {
    Balance(s.token, Contract) >= TotalLocked(s)
  }

  /** From a fresh vault: the exact custody equation, and with it solvency. */
  lemma ReachableSolvent(admin: Party, oracle: Party, token: Ledger, now: nat, calls: seq<Call>)
    requires Balance(token, Contract) >= 0
    ensures var s := Runs.Run(Next, Init(admin, oracle, token, now), calls);
            Inv(s) && Solvent(s)
            && Balance(s.token, Contract)
               == TotalLocked(s) + Balance(token, Contract)
                   + Runs.Collect(Next, Stray, Init(admin, oracle, token, now), calls)
  {
    var s := Init(admin, oracle, token, now);
    InitInv(admin, oracle, token, now);
    RunKeepsInv(s, calls);
    CustodyLaw(s, calls);
  }

  lemma LockedIsFunded(s: State, id: nat)
    requires Inv(s) && Solvent(s) && id in s.escrows
    ensures s.escrows[id].locked <= Balance(s.token, Contract)
  {
    Sums.TermAtMostSum(s.escrows, LockedIn, id);
  }

  // ----- each escrow's own money -----

  /** Tokens a payout of escrow `id` moves out of the vault, read off the vault's balance; a self-payment counts too. */
  function PaidOut(id: nat): (State, Call) -> int {
    (s: State, c: Call) =>
      if IsPayout(c) && c.id == id then
        Balance(s.token, Contract) - Balance(Next(s, c).token, Contract) + Stray(s, c)
      else 0
  }

  /** No call but a payout or a hold touches an escrow's record. */
  lemma OthersKeepEscrow(s: State, c: Call, id: nat)
    requires id in s.escrows && id <= s.nonce && !((IsPayout(c) || c.Hold?) && c.id == id)
    ensures id in Next(s, c).escrows && Next(s, c).escrows[id] == s.escrows[id]
  {
  }

  lemma HoldChangesPhaseOnly(s: State, c: Call)
    requires c.Hold? && c.id in s.escrows
    ensures c.id in Next(s, c).escrows
    ensures var e' := Next(s, c).escrows[c.id]; e' == s.escrows[c.id] || e' == s.escrows[c.id].(phase := Disputed)
  {
  }

  lemma PayoutStep(s: State, c: Call, id: nat)
    requires Inv(s) && id in s.escrows
    ensures id in Next(s, c).escrows && Next(s, c).escrows[id].amount == s.escrows[id].amount
    ensures Next(s, c).escrows[id].locked + PaidOut(id)(s, c) == s.escrows[id].locked
    ensures PaidOut(id)(s, c) >= 0
  {
    if IsPayout(c) && c.id == id {
      if Step(s, c).Some? {
        PayoutReachesItsParties(s, c, Contract);
        PayoutLowersLock(s, c);
      }
    } else if c.Hold? && c.id == id {
      HoldChangesPhaseOnly(s, c);
    } else {
      OthersKeepEscrow(s, c, id);
    }
  }

  /**
   * From any point of an escrow's life on, what it pays out and what it still locks add up to what it locked
   * then. So the lock never rises, zero is absorbing, and from creation on the two add up to the amount.
   */
  lemma {:induction false} PaidPlusLocked(s: State, calls: seq<Call>, id: nat)
    requires Inv(s) && id in s.escrows
    ensures var e := Runs.Run(Next, s, calls).escrows;
            id in e && e[id].amount == s.escrows[id].amount
            && e[id].locked + Runs.Collect(Next, PaidOut(id), s, calls) == s.escrows[id].locked
    ensures Runs.Collect(Next, PaidOut(id), s, calls) >= 0
    decreases |calls|
  {
    if calls != [] {
      NextKeepsInv(s, calls[0]);
      PayoutStep(s, calls[0], id);
      PaidPlusLocked(Next(s, calls[0]), calls[1..], id);
    }
  }

  /** A new escrow takes its amount from the depositor and locks all of it: the laws above start from there. */
  lemma CreateLocksAmount(s: State, c: Call)
    requires Inv(s) && c.Create? && Step(s, c).Some?
    ensures var s' := Next(s, c);
            s'.nonce !in s.escrows && s'.escrows.Keys == s.escrows.Keys + {s'.nonce}
            && s'.escrows[s'.nonce].locked == s'.escrows[s'.nonce].amount == c.amount > 0
            && s'.escrows[s'.nonce].threshold <= 100
            && SumsToAmount(s'.escrows[s'.nonce]) && Approvers(s', s'.nonce) == {}
            && Balance(s'.token, c.depositor) == Balance(s.token, c.depositor) - c.amount
            && Balance(s'.token, Contract) == Balance(s.token, Contract) + c.amount
  {
    CreateKeepsInv(s, c);
  }

  /** Over an escrow's whole life: tokens paid out plus tokens still locked are the amount deposited. */
  lemma EscrowPaysItsAmount(s: State, c: Call, calls: seq<Call>)
    requires Inv(s) && c.Create? && Step(s, c).Some?
    ensures var s1 := Next(s, c); var id := s1.nonce; var e := Runs.Run(Next, s1, calls).escrows;
            id in e && 0 <= e[id].locked <= e[id].amount == c.amount
            && Runs.Collect(Next, PaidOut(id), s1, calls) + e[id].locked == c.amount
  {
    CreateKeepsInv(s, c);
    CreateLocksAmount(s, c);
    PaidPlusLocked(Next(s, c), calls, Next(s, c).nonce);
    RunKeepsInv(Next(s, c), calls);
  }

  /** A full release or refund that finds something already refunded: it overwrites the record. */
  function Overwrites(id: nat): (State, Call) -> int {
    (s: State, c: Call) =>
      if Step(s, c).Some? && (c.Release? || c.Refund?) && c.id == id && s.escrows[id].refunded > 0 then 1 else 0
  }

  lemma PayoutRecordStep(s: State, c: Call)
    requires Inv(s) && IsPayout(c) && c.id in s.escrows && SumsToAmount(s.escrows[c.id])
    ensures c.id in Next(s, c).escrows
    ensures SumsToAmount(Next(s, c).escrows[c.id]) <==> Overwrites(c.id)(s, c) == 0
    ensures Overwrites(c.id)(s, c) != 0 ==> Next(s, c).escrows[c.id].locked == 0
  {
  }

  /** One call keeps the recorded amounts summing to the total exactly when it does not overwrite. */
  lemma RecordStep(s: State, c: Call, id: nat)
    requires Inv(s) && id in s.escrows && SumsToAmount(s.escrows[id])
    ensures id in Next(s, c).escrows
    ensures SumsToAmount(Next(s, c).escrows[id]) <==> Overwrites(id)(s, c) == 0
    ensures Overwrites(id)(s, c) != 0 ==> Next(s, c).escrows[id].locked == 0
  {
    if IsPayout(c) && c.id == id {
      PayoutRecordStep(s, c);
    } else if c.Hold? && c.id == id {
      HoldChangesPhaseOnly(s, c);
    } else {
      OthersKeepEscrow(s, c, id);
    }
  }

  ghost predicate SameRecord(e: Escrow, e': Escrow) {
    e'.locked == e.locked && e'.released == e.released && e'.refunded == e.refunded && e'.amount == e.amount
  }

  lemma SpentStep(s: State, c: Call, id: nat)
    requires Inv(s) && id in s.escrows && s.escrows[id].locked == 0
    ensures id in Next(s, c).escrows && SameRecord(s.escrows[id], Next(s, c).escrows[id])
    ensures Overwrites(id)(s, c) == 0
  {
    if IsPayout(c) && c.id == id {
      assert Step(s, c).None?;
    } else if c.Hold? && c.id == id {
      HoldChangesPhaseOnly(s, c);
    } else {
      OthersKeepEscrow(s, c, id);
    }
  }

  /** Once nothing is locked the record is frozen. */
  lemma {:induction false} SpentRecordIsFrozen(s: State, calls: seq<Call>, id: nat)
    requires Inv(s) && id in s.escrows && s.escrows[id].locked == 0
    ensures var e := Runs.Run(Next, s, calls).escrows;
            id in e && SameRecord(s.escrows[id], e[id])
    ensures Runs.Collect(Next, Overwrites(id), s, calls) == 0
    decreases |calls|
  {
    if calls != [] {
      NextKeepsInv(s, calls[0]);
      SpentStep(s, calls[0], id);
      SpentRecordIsFrozen(Next(s, calls[0]), calls[1..], id);
    }
  }

  /**
   * Locked, released and refunded sum to the amount after a run exactly when no full release or refund in
   * the run found an earlier settlement that had paid the respondent.
   */
  lemma {:induction false} RecordLaw(s: State, calls: seq<Call>, id: nat)
    requires Inv(s) && id in s.escrows && SumsToAmount(s.escrows[id])
    ensures id in Runs.Run(Next, s, calls).escrows
    ensures SumsToAmount(Runs.Run(Next, s, calls).escrows[id]) <==> Runs.Collect(Next, Overwrites(id), s, calls) == 0
    ensures Runs.Collect(Next, Overwrites(id), s, calls) >= 0
    decreases |calls|
  {
    if calls != [] {
      var s' := Next(s, calls[0]);
      NextKeepsInv(s, calls[0]);
      RecordStep(s, calls[0], id);
      if Overwrites(id)(s, calls[0]) == 0 {
        RecordLaw(s', calls[1..], id);
      } else {
        SpentRecordIsFrozen(s', calls[1..], id);
      }
    }
  }

  lemma SettleRespondent(s: State, id: nat, r: int, x: Address)
    requires Inv(s) && Solvent(s) && id in s.escrows && s.escrows[id].phase == Locked && 0 < r < s.escrows[id].locked
    ensures var s' := Next(s, Settle(s.config.admin, id, x, x, 0, r)); var e := s.escrows[id];
            Inv(s') && Solvent(s') && s'.now == s.now && s'.escrows.Keys == s.escrows.Keys
            && s'.escrows[id] == e.(locked := e.locked - r, refunded := e.refunded + r, phase := PartiallyReleased)
  {
    var c := Settle(s.config.admin, id, x, x, 0, r);
    SettlementIffOpen(s, c);
    NextKeepsInv(s, c);
    CustodyStep(s, c);
  }

  /** The exception arises: settle `r` tokens to the respondent, let the escrow expire, refund the rest. */
  lemma RefundAfterSettlementBreaksRecord(s: State, id: nat, r: int, caller: Party, x: Address)
    requires Inv(s) && Solvent(s) && id in s.escrows && s.escrows[id].phase == Locked
    requires s.escrows[id].locked == s.escrows[id].amount && 0 < r < s.escrows[id].amount
    requires s.now >= s.escrows[id].expiresAt
    ensures var s1 := Next(s, Settle(s.config.admin, id, x, x, 0, r)); var s2 := Next(s1, Refund(caller, id));
            id in s2.escrows && s2.escrows[id].locked == 0
            && s2.escrows[id].released + s2.escrows[id].refunded == s2.escrows[id].amount - r
  {
    SettleRespondent(s, id, r, x);
    ExpiredIsRefundable(Next(s, Settle(s.config.admin, id, x, x, 0, r)), caller, id);
  }

  /** And it arises from a fresh vault: create, settle a part, refund. */
  lemma BrokenRecordIsReachable(admin: Party, oracle: Party, token: Ledger, now: nat, u: Party, x: Address, amount: int,
                                r: int)
    requires 0 < r < amount <= Balance(token, u) && Balance(token, Contract) >= 0
    ensures var calls := [Create(u, x, amount, 0, 0, 0, []), Settle(admin, 1, x, x, 0, r), Refund(u, 1)];
            var s := Runs.Run(Next, Init(admin, oracle, token, now), calls);
            1 in s.escrows && s.escrows[1].locked == 0
            && s.escrows[1].released + s.escrows[1].refunded == s.escrows[1].amount - r
  {
    var s0, c := Init(admin, oracle, token, now), Create(u, x, amount, 0, 0, 0, []);
    InitInv(admin, oracle, token, now);
    NextKeepsInv(s0, c);
    CustodyStep(s0, c);
    var s1 := Next(s0, c);
    RefundAfterSettlementBreaksRecord(s1, 1, r, u, x);
    var s2 := Next(s1, Settle(admin, 1, x, x, 0, r));
    assert Runs.Run(Next, s2, [Refund(u, 1)]) == Next(s2, Refund(u, 1));
  }

  // ----- gating -----

  /**
   * With funds locked, an authorised release succeeds exactly when the contract's own view says so and the
   * escrow is not held; the vault's custody means the transfer itself never fails.
   */
  lemma ReleaseIffCanRelease(s: State, caller: Party, id: nat)
    requires Inv(s) && Solvent(s) && id in s.escrows && s.escrows[id].locked > 0
    requires caller == s.escrows[id].depositor || caller == s.config.admin
    ensures ReleaseStep(s, caller, id).Some? <==> CanRelease(s, id) && s.escrows[id].phase != Disputed
  {
    LockedIsFunded(s, id);
  }

  lemma PartialReleaseIffCanRelease(s: State, caller: Party, id: nat, amount: int)
    requires Inv(s) && Solvent(s) && id in s.escrows && 0 < amount <= s.escrows[id].locked
    requires caller == s.escrows[id].depositor || caller == s.config.admin
    ensures ReleasePartialStep(s, caller, id, amount).Some? <==> CanRelease(s, id) && s.escrows[id].phase != Disputed
  {
    LockedIsFunded(s, id);
  }

  /** An expired escrow with funds can be refunded by anyone, whatever its phase, and returns all of the lock. */
  lemma ExpiredIsRefundable(s: State, caller: Party, id: nat)
    requires Inv(s) && Solvent(s) && id in s.escrows
    ensures RefundStep(s, id).Some? <==> s.now >= s.escrows[id].expiresAt && s.escrows[id].locked > 0
    ensures RefundStep(s, id).Some? ==>
              Balance(Next(s, Refund(caller, id)).token, s.escrows[id].depositor)
              == Balance(s.token, s.escrows[id].depositor) + s.escrows[id].locked
  {
    LockedIsFunded(s, id);
  }

  /** An authorised settlement within the lock succeeds exactly when the escrow has not been closed. */
  lemma SettlementIffOpen(s: State, c: Call)
    requires Inv(s) && Solvent(s) && c.Settle? && c.id in s.escrows
    requires c.caller == s.config.admin || Some(c.caller) == s.config.dispute
    requires c.toClaimant >= 0 && c.toRespondent >= 0 && 0 < c.toClaimant + c.toRespondent <= s.escrows[c.id].locked
    ensures SettleStep(s, c).Some? <==> s.escrows[c.id].phase != Released && s.escrows[c.id].phase != Refunded
  {
    LockedIsFunded(s, c.id);
  }

  /** Tokens paid out of escrow `id` by a full or partial release. */
  function ReleasePaid(id: nat): (State, Call) -> int {
    (s: State, c: Call) => if c.Release? || c.ReleasePartial? then PaidOut(id)(s, c) else 0
  }

  lemma HeldStep(s: State, c: Call, id: nat)
    requires Inv(s) && id in s.escrows && !(c.Settle? && c.id == id)
    requires s.escrows[id].phase == Disputed || s.escrows[id].locked == 0
    ensures ReleasePaid(id)(s, c) == 0
    ensures id in Next(s, c).escrows
    ensures Next(s, c).escrows[id].phase == Disputed || Next(s, c).escrows[id].locked == 0
  {
    if c.Release? || c.ReleasePartial? {
      assert c.id == id ==> Step(s, c).None?;
      assert PaidOut(id)(s, c) == 0;
    }
    if c.Hold? && c.id == id {
      HoldChangesPhaseOnly(s, c);
    } else if !IsPayout(c) || c.id != id {
      OthersKeepEscrow(s, c, id);
    }
  }

  /** Between a fraud hold and a settlement no run pays out through a release, full or partial. */
  lemma {:induction false} HeldEscrowPaysNoRelease(s: State, calls: seq<Call>, id: nat)
    requires Inv(s) && id in s.escrows
    requires s.escrows[id].phase == Disputed || s.escrows[id].locked == 0
    requires forall c | c in calls :: !(c.Settle? && c.id == id)
    ensures Runs.Collect(Next, ReleasePaid(id), s, calls) == 0
    decreases |calls|
  {
    if calls != [] {
      assert calls[0] in calls;
      NextKeepsInv(s, calls[0]);
      HeldStep(s, calls[0], id);
      HeldEscrowPaysNoRelease(Next(s, calls[0]), calls[1..], id);
    }
  }

  lemma HoldDisputes(s: State, caller: Party, id: nat)
    ensures HoldStep(s, caller, id).Some? <==> s.config.fraud == Some(caller) && id in s.escrows
    ensures HoldStep(s, caller, id).Some? ==>
              Next(s, Hold(caller, id)).escrows[id] == s.escrows[id].(phase := Disputed)
  {
  }

  /** After a hold by the fraud contract, whatever follows short of a settlement, no release pays out again. */
  lemma HoldStopsReleases(s: State, caller: Party, id: nat, calls: seq<Call>)
    requires Inv(s) && id in s.escrows && s.config.fraud == Some(caller)
    requires forall c | c in calls :: !(c.Settle? && c.id == id)
    ensures Runs.Collect(Next, ReleasePaid(id), s, [Hold(caller, id)] + calls) == 0
  {
    var c := Hold(caller, id);
    assert ([c] + calls)[1..] == calls;
    HoldDisputes(s, caller, id);
    NextKeepsInv(s, c);
    HeldEscrowPaysNoRelease(Next(s, c), calls, id);
  }

  // ----- where escrows come from -----

  /** What an escrow keeps from its creation on. */
  ghost predicate SameTerms(e: Escrow, e': Escrow) {
    && e'.depositor == e.depositor && e'.beneficiary == e.beneficiary && e'.amount == e.amount
    && e'.timeLockUntil == e.timeLockUntil && e'.threshold == e.threshold && e'.expiresAt == e.expiresAt
  }

  lemma PayoutKeepsTerms(s: State, c: Call)
    requires (IsPayout(c) || c.Hold?) && c.id in s.escrows
    ensures c.id in Next(s, c).escrows && SameTerms(s.escrows[c.id], Next(s, c).escrows[c.id])
  {
  }

  lemma CreateAddsOne(s: State, c: Call)
    requires c.Create?
    ensures forall k | k <= s.nonce ::
              && (k in Next(s, c).escrows <==> k in s.escrows)
              && forall a: Address :: (k, a) in Next(s, c).required <==> (k, a) in s.required
  {
  }

  lemma OthersNameNobody(s: State, c: Call)
    requires !c.Create?
    ensures Next(s, c).required == s.required && Next(s, c).escrows.Keys == s.escrows.Keys
    ensures Next(s, c).nonce == s.nonce
  {
  }

  lemma TermsStep(s: State, c: Call, id: nat)
    requires id in s.escrows && id <= s.nonce
    ensures id in Next(s, c).escrows && SameTerms(s.escrows[id], Next(s, c).escrows[id])
    ensures forall a: Address :: (id, a) in Next(s, c).required <==> (id, a) in s.required
  {
    if (IsPayout(c) || c.Hold?) && c.id == id {
      PayoutKeepsTerms(s, c);
    } else {
      OthersKeepEscrow(s, c, id);
    }
    if c.Create? {
      CreateAddsOne(s, c);
    } else {
      OthersNameNobody(s, c);
    }
  }

  /** On every run an escrow's terms and its required approvers stay as they were. */
  lemma {:induction false} TermsNeverChange(s: State, calls: seq<Call>, id: nat)
    requires Inv(s) && id in s.escrows
    ensures var s' := Runs.Run(Next, s, calls);
            && id in s'.escrows && SameTerms(s.escrows[id], s'.escrows[id])
            && forall a: Address :: (id, a) in s'.required <==> (id, a) in s.required
    decreases |calls|
  {
    if calls != [] {
      TermsStep(s, calls[0], id);
      NextKeepsInv(s, calls[0]);
      TermsNeverChange(Next(s, calls[0]), calls[1..], id);
    }
  }

  /** Call `i` of a run creates escrow `id` on the terms of `e`, with exactly `approvers` required. */
  ghost predicate CreatedAt(s: State, calls: seq<Call>, id: nat, e: Escrow, approvers: iset<Address>, i: nat) {
    && i < |calls| && calls[i].Create?
    && var c, si := calls[i], Runs.Run(Next, s, calls[..i]);
       && id == si.nonce + 1
       && e.depositor == c.depositor && e.beneficiary == c.beneficiary && e.amount == c.amount > 0
       && e.threshold == c.threshold <= 100
       && e.timeLockUntil == si.now + c.lockFor && e.expiresAt == si.now + c.expiresIn
       && approvers == iset a | a in c.approvers
  }

  ghost function RequiredFor(s: State, id: nat): iset<Address> {
    iset a: Address | (id, a) in s.required
  }

  lemma CreationStep(s: State, c: Call, id: nat)
    requires Inv(s) && id !in s.escrows && id in Next(s, c).escrows
    ensures var s' := Next(s, c); CreatedAt(s, [c], id, s'.escrows[id], RequiredFor(s', id), 0)
  {
    if !c.Create? {
      OthersNameNobody(s, c);
    }
    var s' := Next(s, c);
    assert [c][..0] == [];
    assert id == s.nonce + 1;
    forall a: Address ensures (id, a) in s'.required <==> a in c.approvers {
      assert (id, a) !in s.required;
    }
  }

  /**
   * Every escrow on record after a run goes back to one call of it, which named its beneficiary, amount, lock, expiry,
   * threshold and approvers; no later call, of whoever, changed any of them.
   */
  lemma {:induction false} EscrowsKeepTheirTerms(s: State, calls: seq<Call>, id: nat)
    requires Inv(s) && id !in s.escrows && id in Runs.Run(Next, s, calls).escrows
    ensures var s' := Runs.Run(Next, s, calls);
            exists i: nat :: CreatedAt(s, calls, id, s'.escrows[id], RequiredFor(s', id), i)
    decreases |calls|
  {
    var s', rest := Next(s, calls[0]), calls[1..];
    NextKeepsInv(s, calls[0]);
    var end := Runs.Run(Next, s, calls);
    if id in s'.escrows {
      CreationStep(s, calls[0], id);
      TermsNeverChange(s', rest, id);
      assert RequiredFor(end, id) == RequiredFor(s', id);
      assert calls[..0] == [calls[0]][..0];
      assert CreatedAt(s, calls, id, end.escrows[id], RequiredFor(end, id), 0);
    } else {
      EscrowsKeepTheirTerms(s', rest, id);
      var i: nat :| CreatedAt(s', rest, id, end.escrows[id], RequiredFor(end, id), i);
      assert calls[..i + 1][1..] == rest[..i];
      assert CreatedAt(s, calls, id, end.escrows[id], RequiredFor(end, id), i + 1);
    }
  }

  // ----- when the other calls succeed, and what they leave -----

  lemma CreateSucceedsIff(s: State, c: Call)
    requires c.Create?
    ensures CreateStep(s, c).Some? <==> 0 < c.amount <= Balance(s.token, c.depositor) && c.threshold <= 100
  {
  }

  /** An approval succeeds exactly for a required approver that has not approved, until the escrow is released. */
  lemma ApproveSucceedsIff(s: State, approver: Party, id: nat)
    requires Inv(s)
    ensures ApproveStep(s, approver, id).Some? <==>
              && (id, approver) in s.required && approver !in Approvers(s, id) && s.escrows[id].phase != Released
    ensures ApproveStep(s, approver, id).Some? ==>
              var who: set<Address> := {approver};
              Approvers(Next(s, Approve(approver, id)), id) == Approvers(s, id) + who
  {
    if approver in Approvers(s, id) {
      assert (id, approver) in s.approvals;
    } else {
      assert (id, approver) !in s.approvals;
    }
    if ApproveStep(s, approver, id).Some? {
      var s' := Next(s, Approve(approver, id));
      forall a: Address ensures a in Approvers(s', id) <==> a in Approvers(s, id) || a == approver {
        assert (id, a) in s'.approvals <==> (id, a) in s.approvals || a == approver;
      }
    }
  }

  /** Which phase a payout leaves, and which record; the tokens are in PayoutReachesItsParties. */
  lemma PayoutsLeave(s: State, c: Call)
    requires Inv(s) && IsPayout(c) && Step(s, c).Some?
    ensures c.id in s.escrows && c.id in Next(s, c).escrows
    ensures var e, e' := s.escrows[c.id], Next(s, c).escrows[c.id];
            match c
            case Release(_, _) => e'.phase == Released && e'.released == e.amount && e'.refunded == e.refunded
            case ReleasePartial(_, _, x) =>
              e'.phase == PartiallyReleased && e'.released == e.released + x && e'.refunded == e.refunded
            case Refund(_, _) => e'.phase == Refunded && e'.refunded == e.locked && e'.released == e.released
            case Settle(_, _, _, _, x, y) =>
              && e'.released == e.released + x && e'.refunded == e.refunded + y
              && (e'.phase == Released <==> e'.locked == 0 && y == 0)
              && (e'.phase == Refunded <==> e'.locked == 0 && x == 0)
              && (e'.phase == PartiallyReleased <==> e'.locked > 0 || (x > 0 && y > 0))
  {
  }

  function ScoreBy(oracle: Party, id: nat): Call -> Option<nat> {
    (c: Call) =>
      if c.UpdatePerformance? && c.caller == oracle && c.id == id && c.score <= 100 then Some(c.score) else None
  }

  lemma ScoreStep(s: State, c: Call, id: nat)
    ensures var set' := ScoreBy(s.config.oracle, id)(c);
            Lookup(Next(s, c).performance, id) == if set'.Some? then set' else Lookup(s.performance, id)
    ensures Next(s, c).config.oracle == s.config.oracle
  {
  }

  /** On every run an escrow's score is the last one of at most 100 that the oracle reported, by whatever calls. */
  lemma {:induction false} ScoreIsLastReported(s: State, calls: seq<Call>, id: nat)
    ensures var last := Runs.Last(calls, ScoreBy(s.config.oracle, id));
            Lookup(Runs.Run(Next, s, calls).performance, id)
            == if last.Some? then last else Lookup(s.performance, id)
    decreases |calls|
  {
    if calls != [] {
      ScoreStep(s, calls[0], id);
      ScoreIsLastReported(Next(s, calls[0]), calls[1..], id);
    }
  }

  function FraudBy(admin: Party): Call -> Option<Party> {
    (c: Call) => if c.SetFraud? && c.caller == admin then Some(c.fraud) else None
  }

  function DisputeBy(admin: Party): Call -> Option<Party> {
    (c: Call) => if c.SetDispute? && c.caller == admin then Some(c.dispute) else None
  }

  lemma ConfigStep(s: State, c: Call)
    ensures var config, fraud, dispute := Next(s, c).config, FraudBy(s.config.admin)(c), DisputeBy(s.config.admin)(c);
            && config.fraud == (if fraud.Some? then fraud else s.config.fraud)
            && config.dispute == (if dispute.Some? then dispute else s.config.dispute)
            && config.admin == s.config.admin
  {
  }

  /** On every run the fraud and dispute contracts are the last ones the administrator named. */
  lemma {:induction false} ContractsAreLastNamed(s: State, calls: seq<Call>)
    ensures var config, fraud := Runs.Run(Next, s, calls).config, Runs.Last(calls, FraudBy(s.config.admin));
            var dispute := Runs.Last(calls, DisputeBy(s.config.admin));
            && config.fraud == (if fraud.Some? then fraud else s.config.fraud)
            && config.dispute == (if dispute.Some? then dispute else s.config.dispute)
    decreases |calls|
  {
    if calls != [] {
      ConfigStep(s, calls[0]);
      ContractsAreLastNamed(Next(s, calls[0]), calls[1..]);
    }
  }

  /**
   * From creation to release: an escrow for `x` with approver `v`, approved and released after its lock, moves exactly
   * the amount from the depositor to the beneficiary the creation named.
   */
  lemma ReleasePaysTheNamedBeneficiary(s: State, u: Party, x: Party, v: Party, amount: int, wait: nat)
    requires Inv(s) && Solvent(s) && u != x && 0 < amount <= Balance(s.token, u)
    ensures
      var id := s.nonce + 1;
      var s1 := Next(s, Create(u, x, amount, wait, 0, 0, [v]));
      var s3 := Next(Next(s1, Approve(v, id)), Tick(wait));
      var s4 := Next(s3, Release(u, id));
      && Balance(s4.token, x) == Balance(s.token, x) + amount && Balance(s4.token, u) == Balance(s.token, u) - amount
      && id in s4.escrows && s4.escrows[id].phase == Released && s4.escrows[id].locked == 0
  {
    var id, c := s.nonce + 1, Create(u, x, amount, wait, 0, 0, [v]);
    var s1 := Next(s, c);
    CreateSucceedsIff(s, c);
    CreateLocksAmount(s, c);
    CreateKeepsInv(s, c);
    CustodyStep(s, c);
    assert Approvers(s1, id) == {} && (id, v) in s1.required;
    ApproveSucceedsIff(s1, v, id);
    OpenAndRelease(s1, id, v, wait);
    TransferMoves(s.token, u, Contract, amount, x);
  }

  lemma ApproveAndWait(s: State, id: nat, v: Party, wait: nat)
    requires Inv(s) && ApproveStep(s, v, id).Some?
    ensures var s' := Next(Next(s, Approve(v, id)), Tick(wait));
            && Inv(s') && s'.escrows == s.escrows && s'.token == s.token && s'.performance == s.performance
            && s'.now == s.now + wait && v in Approvers(s', id)
  {
    var s2 := Next(s, Approve(v, id));
    NextKeepsInv(s, Approve(v, id));
    NextKeepsInv(s2, Tick(wait));
    assert (id, v) in Next(s2, Tick(wait)).approvals;
  }

  lemma OpenAndRelease(s: State, id: nat, v: Party, wait: nat)
    requires Inv(s) && Solvent(s) && ApproveStep(s, v, id).Some? && id in s.escrows && s.escrows[id].threshold == 0
    requires s.escrows[id].phase == Locked && s.escrows[id].locked > 0 && s.escrows[id].timeLockUntil <= s.now + wait
    ensures
      var e, s' := s.escrows[id], Next(Next(Next(s, Approve(v, id)), Tick(wait)), Release(s.escrows[id].depositor, id));
      && (forall a :: Balance(s'.token, a)
                      == Balance(s.token, a) + Credit(a, e.beneficiary, e.locked) - Credit(a, Contract, e.locked))
      && id in s'.escrows && s'.escrows[id].phase == Released && s'.escrows[id].locked == 0
  {
    ApproveAndWait(s, id, v, wait);
    ReleaseOpened(Next(Next(s, Approve(v, id)), Tick(wait)), id);
  }

  lemma ReleaseOpened(s: State, id: nat)
    requires Inv(s) && Solvent(s) && id in s.escrows && s.escrows[id].threshold == 0 && Approvers(s, id) != {}
    requires s.escrows[id].phase == Locked && s.escrows[id].locked > 0 && s.escrows[id].timeLockUntil <= s.now
    ensures
      var e, s' := s.escrows[id], Next(s, Release(s.escrows[id].depositor, id));
      && (forall a :: Balance(s'.token, a)
                      == Balance(s.token, a) + Credit(a, e.beneficiary, e.locked) - Credit(a, Contract, e.locked))
      && id in s'.escrows && s'.escrows[id].phase == Released && s'.escrows[id].locked == 0
  {
    var e, c := s.escrows[id], Release(s.escrows[id].depositor, id);
    OneApprovalOpensTheGate(s, id);
    ReleaseIffCanRelease(s, e.depositor, id);
    PayoutsLeave(s, c);
    PayoutLowersLock(s, c);
    forall a ensures Balance(Next(s, c).token, a)
                  == Balance(s.token, a) + Credit(a, e.beneficiary, e.locked) - Credit(a, Contract, e.locked)
    {
      PayoutReachesItsParties(s, c, a);
    }
  }

  // ----- how many approvals it takes -----

  /** The minimum is one approval and never changes: the first of the named approvers opens the gate for all of them. */
  lemma OneApprovalOpensTheGate(s: State, id: nat)
    requires Inv(s) && id in s.escrows
    ensures CanRelease(s, id) <==>
              s.now >= s.escrows[id].timeLockUntil && Approvers(s, id) != {}
              && (id in s.performance ==> s.performance[id] >= s.escrows[id].threshold)
  {
  }

  ghost predicate NamesNobody(s: State, id: nat) {
    forall a: Address :: (id, a) !in s.required
  }

  lemma NamesNobodyStep(s: State, c: Call, id: nat)
    requires Inv(s) && id in s.escrows && NamesNobody(s, id)
    ensures NamesNobody(Next(s, c), id) && ReleasePaid(id)(s, c) == 0
  {
    TermsStep(s, c, id);
    assert Approvers(s, id) == {};
    if c.Release? || c.ReleasePartial? {
      assert c.id == id ==> Step(s, c).None?;
      assert PaidOut(id)(s, c) == 0;
    }
  }

  lemma {:induction false} NamelessStaysClosed(s: State, calls: seq<Call>, id: nat)
    requires Inv(s) && id in s.escrows && NamesNobody(s, id)
    ensures Runs.Collect(Next, ReleasePaid(id), s, calls) == 0
    decreases |calls|
  {
    if calls != [] {
      NextKeepsInv(s, calls[0]);
      PayoutStep(s, calls[0], id);
      NamesNobodyStep(s, calls[0], id);
      NamelessStaysClosed(Next(s, calls[0]), calls[1..], id);
    }
  }

  /** An escrow created without approvers can never be released, in full or in part: its gate cannot open. */
  lemma WithoutApproversNoRelease(s: State, c: Call, calls: seq<Call>)
    requires Inv(s) && c.Create? && c.approvers == [] && Step(s, c).Some?
    ensures var s' := Next(s, c); Runs.Collect(Next, ReleasePaid(s'.nonce), s', calls) == 0
  {
    CreateKeepsInv(s, c);
    NamelessStaysClosed(Next(s, c), calls, Next(s, c).nonce);
  }

  // ----- who may change what -----

  /** A lock falls only by the depositor or the administrator, by a settlement, or after expiry. */
  lemma PayoutsAreAuthorised(s: State, c: Call, id: nat)
    requires Inv(s) && id in s.escrows && PaidOut(id)(s, c) != 0
    ensures IsPayout(c) && c.id == id
    ensures var e := s.escrows[id];
            match c
            case Release(caller, _) => caller == e.depositor || caller == s.config.admin
            case ReleasePartial(caller, _, _) => caller == e.depositor || caller == s.config.admin
            case Settle(caller, _, _, _, _, _) => caller == s.config.admin || Some(caller) == s.config.dispute
            case Refund(_, _) => s.now >= e.expiresAt
  {
    assert Step(s, c).Some?;
  }

  /**
   * Approvals come from required approvers before the release, scores from the oracle, settings from the
   * administrator.
   */
  lemma SettingsAreAuthorised(s: State, c: Call)
    ensures var s' := Next(s, c);
            && s.approvals <= s'.approvals
            && (s'.approvals != s.approvals ==>
                  && c.Approve? && (c.id, c.approver) in s.required && (c.id, c.approver) !in s.approvals
                  && s'.approvals == s.approvals + {(c.id, c.approver)} && s.escrows[c.id].phase != Released)
            && (s'.performance != s.performance ==>
                  c.UpdatePerformance? && c.caller == s.config.oracle && s'.performance[c.id] <= 100)
            && (s'.config != s.config ==> (c.SetFraud? || c.SetDispute?) && c.caller == s.config.admin)
  {
  }

  /** Calls by others than an escrow's depositor, the administrator and the dispute contract. */
  predicate Stranger(config: Config, depositor: Party, c: Call) {
    match c
    case Release(caller, _) => caller != depositor && caller != config.admin
    case ReleasePartial(caller, _, _) => caller != depositor && caller != config.admin
    case Settle(caller, _, _, _, _, _) => caller != config.admin && Some(caller) != config.dispute
    case SetFraud(caller, _) => caller != config.admin
    case SetDispute(caller, _) => caller != config.admin
    case _ => true
  }

  lemma StrangerStep(s: State, c: Call, id: nat)
    requires Inv(s) && id in s.escrows && Stranger(s.config, s.escrows[id].depositor, c)
    requires c.Refund? && c.id == id ==> s.now < s.escrows[id].expiresAt
    ensures PaidOut(id)(s, c) == 0 && Next(s, c).config == s.config
    ensures id in Next(s, c).escrows
    ensures var e, e' := s.escrows[id], Next(s, c).escrows[id];
            e'.locked == e.locked && e'.depositor == e.depositor && e'.expiresAt == e.expiresAt
  {
    if PaidOut(id)(s, c) != 0 {
      PayoutsAreAuthorised(s, c, id);
    }
    PayoutStep(s, c, id);
    SettingsAreAuthorised(s, c);
    if c.Hold? && c.id == id {
      HoldChangesPhaseOnly(s, c);
    } else if IsPayout(c) && c.id == id {
      assert Step(s, c).None?;
    } else {
      OthersKeepEscrow(s, c, id);
    }
  }

  /** Before it expires, no run of strangers' calls moves a token out of an escrow. */
  lemma {:induction false} StrangersGetNothing(s: State, calls: seq<Call>, id: nat)
    requires Inv(s) && id in s.escrows && forall c | c in calls :: Stranger(s.config, s.escrows[id].depositor, c)
    requires Runs.Run(Next, s, calls).now < s.escrows[id].expiresAt
    ensures Runs.Collect(Next, PaidOut(id), s, calls) == 0
    ensures var e := Runs.Run(Next, s, calls).escrows; id in e && e[id].locked == s.escrows[id].locked
    decreases |calls|
  {
    if calls != [] {
      var c, s', rest := calls[0], Next(s, calls[0]), calls[1..];
      assert c in calls;
      ClockStep(s, c);
      ClockNeverFalls(s', rest);
      NextKeepsInv(s, c);
      StrangerStep(s, c, id);
      assert forall d | d in rest :: d in calls;
      StrangersGetNothing(s', rest, id);
    }
  }

  lemma ClockStep(s: State, c: Call)
    ensures Next(s, c).now >= s.now
  {
  }

  lemma {:induction false} ClockNeverFalls(s: State, calls: seq<Call>)
    ensures Runs.Run(Next, s, calls).now >= s.now
    decreases |calls|
  {
    if calls != [] {
      ClockStep(s, calls[0]);
      ClockNeverFalls(Next(s, calls[0]), calls[1..]);
    }
  }

  // ----- the contract itself -----

  class Vault {
    var config: Config
    var nonce: nat
    var escrows: map<nat, Escrow>
    var required: set<(nat, Address)>
    var approvals: set<(nat, Address)>
    var approvalCount: map<nat, nat>
    var performance: map<nat, nat>
    var token: Ledger
    var now: nat

    function Snapshot(): State
      reads this
    {
      State(config, nonce, escrows, required, approvals, approvalCount, performance, token, now)
    }

    constructor (admin: Party, oracle: Party, token: Ledger, now: nat)
      ensures Snapshot() == Init(admin, oracle, token, now)
    {
      this.config := Config(admin, oracle, None, None, 1);
      this.nonce := 0;
      this.escrows := map[];
      this.required := {};
      this.approvals := {};
      this.approvalCount := map[];
      this.performance := map[];
      this.token := token;
      this.now := now;
    }

    method CreateEscrow(depositor: Party, beneficiary: Address, amount: int, lockFor: nat, threshold: nat,
                        expiresIn: nat, approvers: seq<Address>)
      returns (id: Option<nat>)
      modifies this
      ensures Snapshot() == Next(old(Snapshot()),
                                 Create(depositor, beneficiary, amount, lockFor, threshold, expiresIn, approvers))
      ensures id == if nonce == old(nonce) then None else Some(nonce)
    {
      if amount <= 0 {
        return None;
      }
      :- Require(threshold <= 100);
      var moved :- Transfer(token, depositor, Contract, amount);
      token := moved;
      var escrowId := nonce + 1;
      var escrow := Escrow(depositor, beneficiary, amount, amount, 0, 0, Locked, now + lockFor, threshold,
                           now + expiresIn);
      escrows := escrows[escrowId := escrow];
      approvalCount := approvalCount[escrowId := 0];
      RegisterApprovers(escrowId, approvers);
      nonce := escrowId;
      return Some(escrowId);
    }

    method RegisterApprovers(id: nat, approvers: seq<Address>)
      modifies this`required
      ensures required == old(required) + Registered(id, approvers)
    {
      for i := 0 to |approvers|
        invariant required == old(required) + Registered(id, approvers[..i])
      {
        assert approvers[..i + 1] == approvers[..i] + [approvers[i]];
        required := required + {(id, approvers[i])};
      }
      assert approvers[..|approvers|] == approvers;
    }

    method ApproveRelease(approver: Party, id: nat) returns (done: Option<()>)
      modifies this
      ensures Snapshot() == Next(old(Snapshot()), Approve(approver, id))
      ensures done.Some? <==> Step(old(Snapshot()), Approve(approver, id)).Some?
    {
      if (id, approver) !in required {
        return None;
      }
      :- Require((id, approver) !in approvals);
      var escrow :- Lookup(escrows, id);
      :- Require(escrow.phase != Released);
      approvals := approvals + {(id, approver)};
      var count := GetOr(approvalCount, id, 0);
      approvalCount := approvalCount[id := count + 1];
      return Some(());
    }

    method ReleaseEscrow(caller: Party, id: nat) returns (done: Option<()>)
      modifies this
      ensures Snapshot() == Next(old(Snapshot()), Release(caller, id))
      ensures done.Some? <==> Step(old(Snapshot()), Release(caller, id)).Some?
    {
      var escrow :- Lookup(escrows, id);
      :- Require(caller == escrow.depositor || caller == config.admin);
      :- CheckCanRelease(Snapshot(), escrow, id);
      var locked := escrow.locked;
      :- Require(locked > 0);
      var sent :- Transfer(token, Contract, escrow.beneficiary, locked);
      token := sent;
      escrow := escrow.(locked := 0);
      escrow := escrow.(released := escrow.amount);
      escrow := escrow.(phase := Released);
      escrows := escrows[id := escrow];
      return Some(());
    }

    method ReleaseSome(caller: Party, id: nat, amount: int) returns (done: Option<()>)
      modifies this
      ensures Snapshot() == Next(old(Snapshot()), ReleasePartial(caller, id, amount))
      ensures done.Some? <==> Step(old(Snapshot()), ReleasePartial(caller, id, amount)).Some?
    {
      var escrow :- Lookup(escrows, id);
      :- Require(caller == escrow.depositor || caller == config.admin);
      :- CheckCanRelease(Snapshot(), escrow, id);
      :- Require(!(amount <= 0 || amount > escrow.locked));
      var sent :- Transfer(token, Contract, escrow.beneficiary, amount);
      token := sent;
      escrow := escrow.(locked := escrow.locked - amount);
      escrow := escrow.(released := escrow.released + amount);
      escrow := escrow.(phase := PartiallyReleased);
      escrows := escrows[id := escrow];
      return Some(());
    }

    method RefundEscrow(caller: Party, id: nat) returns (done: Option<()>)
      modifies this
      ensures Snapshot() == Next(old(Snapshot()), Refund(caller, id))
      ensures done.Some? <==> Step(old(Snapshot()), Refund(caller, id)).Some?
    {
      var escrow :- Lookup(escrows, id);
      :- Require(now >= escrow.expiresAt);
      :- Require(escrow.locked > 0);
      var refund := escrow.locked;
      var sent :- Transfer(token, Contract, escrow.depositor, refund);
      token := sent;
      escrow := escrow.(locked := 0);
      escrow := escrow.(refunded := refund);
      escrow := escrow.(phase := Refunded);
      escrows := escrows[id := escrow];
      return Some(());
    }

    /** Pays each party its part; when the second transfer is refused the first is undone. */
    method PayParties(claimant: Address, respondent: Address, toClaimant: int, toRespondent: int) returns (paid: Guard)
      modifies this`token
      ensures var first := PayIfPositive(old(token), claimant, toClaimant);
              var both := if first.None? then None else PayIfPositive(first.value, respondent, toRespondent);
              token == both.GetOr(old(token)) && (paid == Pass <==> both.Some?)
    {
      var before := token;
      if toClaimant > 0 {
        var sent := Transfer(token, Contract, claimant, toClaimant);
        if sent.None? {
          return Panic;
        }
        token := sent.value;
      }
      if toRespondent > 0 {
        var sent := Transfer(token, Contract, respondent, toRespondent);
        if sent.None? {
          token := before;
          return Panic;
        }
        token := sent.value;
      }
      return Pass;
    }

    method SettleDispute(caller: Party, id: nat, claimant: Address, respondent: Address, toClaimant: int,
                         toRespondent: int)
      returns (done: Option<()>)
      modifies this
      ensures Snapshot() == Next(old(Snapshot()), Settle(caller, id, claimant, respondent, toClaimant, toRespondent))
      ensures done.Some? <==> Step(old(Snapshot()),
                                   Settle(caller, id, claimant, respondent, toClaimant, toRespondent)).Some?
    {
      if !(toClaimant >= 0 && toRespondent >= 0) {
        return None;
      }
      :- Require(caller == config.admin || Some(caller) == config.dispute);
      var escrow :- Lookup(escrows, id);
      :- Require(escrow.phase != Released && escrow.phase != Refunded);
      var total := toClaimant + toRespondent;
      :- Require(total > 0);
      :- Require(total <= escrow.locked);
      :- PayParties(claimant, respondent, toClaimant, toRespondent);
      escrow := escrow.(locked := escrow.locked - total);
      escrow := escrow.(released := escrow.released + toClaimant);
      escrow := escrow.(refunded := escrow.refunded + toRespondent);
      escrow := escrow.(phase := SettledPhase(escrow.locked, toClaimant, toRespondent));
      escrows := escrows[id := escrow];
      return Some(());
    }

    method HoldForFraud(caller: Party, id: nat) returns (done: Option<()>)
      modifies this
      ensures Snapshot() == Next(old(Snapshot()), Hold(caller, id))
      ensures done.Some? <==> Step(old(Snapshot()), Hold(caller, id)).Some?
    {
      var fraud :- config.fraud;
      :- Require(caller == fraud);
      var escrow :- Lookup(escrows, id);
      escrow := escrow.(phase := Disputed);
      escrows := escrows[id := escrow];
      return Some(());
    }

    method RecordPerformance(caller: Party, id: nat, score: nat) returns (done: Option<()>)
      modifies this
      ensures Snapshot() == Next(old(Snapshot()), UpdatePerformance(caller, id, score))
      ensures done.Some? <==> caller == old(config).oracle && score <= 100
    {
      if caller != config.oracle {
        return None;
      }
      :- Require(!(score > 100));
      performance := performance[id := score];
      return Some(());
    }

    method SetFraudContract(caller: Party, fraud: Party) returns (done: Option<()>)
      modifies this
      ensures Snapshot() == Next(old(Snapshot()), SetFraud(caller, fraud))
      ensures done.Some? <==> caller == old(config).admin
    {
      if caller != config.admin {
        return None;
      }
      config := config.(fraud := Some(fraud));
      return Some(());
    }

    method SetDisputeContract(caller: Party, dispute: Party) returns (done: Option<()>)
      modifies this
      ensures Snapshot() == Next(old(Snapshot()), SetDispute(caller, dispute))
      ensures done.Some? <==> caller == old(config).admin
    {
      if caller != config.admin {
        return None;
      }
      config := config.(dispute := Some(dispute));
      return Some(());
    }
  }
}

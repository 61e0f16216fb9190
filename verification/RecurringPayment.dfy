/** Recurring payments: a rate bound that pausing, resuming and late execution cannot break. */
module RecurringPayment {
  import opened Chain
  import Arith
  import Runs

  datatype Status = Active | Paused | Cancelled | Failed

  datatype Payment = Payment(
    payer: Party, recipient: Address, asset: nat, amount: int, interval: nat, limit: Option<nat>,
    total: nat, status: Status, created: nat, last: nat, next: nat)

  /** Payments may name different tokens: `tokens` holds one ledger per token contract. */
  datatype State = State(admin: Party, counter: nat, payments: map<nat, Payment>, tokens: map<nat, Ledger>, now: nat)

  datatype Call =
    | Create(payer: Party, recipient: Address, asset: nat, amount: int, interval: nat, limit: Option<nat>)
    | Execute(caller: Party, id: nat, payerSigns: bool)  // `payerSigns`: the payer has authorised the transfer too
    | Pause(payer: Party, id: nat)
    | Resume(payer: Party, id: nat)
    | Cancel(payer: Party, id: nat)
    | Tick(seconds: nat)
    | TokenMoves(asset: nat, ledger: Ledger)  // anything may happen to a token between calls

  function Init(admin: Party, tokens: map<nat, Ledger>, now: nat): State {
    State(admin, 0, map[], tokens, now)
  }

  // ----- what each entry point does -----

  function CreateStep(s: State, c: Call): Option<State>
    requires c.Create?
  {
    if c.amount <= 0 then None else
    :- Require(c.interval != 0);
    var id := s.counter + 1;
    var p := Payment(c.payer, c.recipient, c.asset, c.amount, c.interval, c.limit, 0, Active, s.now, s.now,
                     s.now + c.interval);
    Some(s.(counter := id, payments := s.payments[id := p]))
  }

  function LedgerOf(s: State, asset: nat): Ledger {
    GetOr(s.tokens, asset, map[])
  }

  function ExecuteStep(s: State, caller: Party, id: nat, payerSigns: bool): Option<State> {
    var p :- Lookup(s.payments, id);
    :- Require(caller == p.payer || caller == p.recipient || caller == s.admin);
    :- Require(p.status == Active);
    :- Require(s.now >= p.next);
    :- Require(p.limit.Some? ==> p.total < p.limit.value);
    :- Require(caller == p.payer || payerSigns);
    var ledger :- Transfer(LedgerOf(s, p.asset), p.payer, p.recipient, p.amount);
    Some(s.(payments := s.payments[id := p.(total := p.total + 1, last := s.now, next := s.now + p.interval)],
            tokens := s.tokens[p.asset := ledger]))
  }

  function SetStatus(s: State, payer: Party, id: nat, status: Status): Option<State> {
    var p :- Lookup(s.payments, id);
    :- Require(p.payer == payer);
    var next := if status == Active then s.now + p.interval else p.next;
    Some(s.(payments := s.payments[id := p.(status := status, next := next)]))
  }

  function Step(s: State, c: Call): Option<State> {
    match c
    case Create(_, _, _, _, _, _) => CreateStep(s, c)
    case Execute(caller, id, payerSigns) => ExecuteStep(s, caller, id, payerSigns)
    case Pause(payer, id) => SetStatus(s, payer, id, Paused)
    case Resume(payer, id) => SetStatus(s, payer, id, Active)
    case Cancel(payer, id) => SetStatus(s, payer, id, Cancelled)
    case Tick(seconds) => Some(s.(now := s.now + seconds))
    case TokenMoves(asset, ledger) => Some(s.(tokens := s.tokens[asset := ledger]))
  }

  function Next(s: State, c: Call): State {
    Step(s, c).GetOr(s)
  }

  // ----- the inductive invariant -----

  ghost predicate GoodPayment(p: Payment, now: nat) {
    && p.amount > 0 && p.interval > 0 && p.status != Failed
    && p.created <= p.last <= now
    && p.next >= p.last + p.interval
    && p.total * p.interval <= p.last - p.created
    && (p.limit.Some? ==> p.total <= p.limit.value)
  }

  ghost predicate Inv(s: State) {
    forall id | id in s.payments :: 1 <= id <= s.counter && GoodPayment(s.payments[id], s.now)
  }

  lemma ExecuteKeepsInv(s: State, c: Call)
    requires Inv(s) && c.Execute? && Step(s, c).Some?
    ensures Inv(Next(s, c))
  {
    var p := s.payments[c.id];
    OneMore(p.total, p.interval);
  }

  lemma NextKeepsInv(s: State, c: Call)
    requires Inv(s)
    ensures Inv(Next(s, c))
  {
    if c.Execute? && Step(s, c).Some? {
      ExecuteKeepsInv(s, c);
    }
  }

  /** On every run each payment keeps its interval, its limit, and total*interval <= last - created. */
  lemma {:induction false} RunKeepsInv(s: State, calls: seq<Call>)
    requires Inv(s)
    ensures Inv(Runs.Run(Next, s, calls))
    decreases |calls|
  {
    if calls != [] {
      NextKeepsInv(s, calls[0]);
      RunKeepsInv(Next(s, calls[0]), calls[1..]);
    }
  }

  /** At any time t a payment has been made at most floor((t - created) / interval) times. */
  lemma PaymentsWithinRate(admin: Party, tokens: map<nat, Ledger>, now: nat, calls: seq<Call>, id: nat)
    requires id in Runs.Run(Next, Init(admin, tokens, now), calls).payments
    ensures var s := Runs.Run(Next, Init(admin, tokens, now), calls); var p := s.payments[id];
            p.interval > 0 && p.total <= Quot(s.now - p.created, p.interval)
            && (p.limit.Some? ==> p.total <= p.limit.value)
  {
    var s := Runs.Run(Next, Init(admin, tokens, now), calls);
    RunKeepsInv(Init(admin, tokens, now), calls);
    var p := s.payments[id];
    Arith.FloorIsGreatest(p.total, s.now - p.created, p.interval);
  }

  // ----- every window, and the money moved -----

  /** Tokens a call moves out of the payer's account for payment `id`. */
  function MovedFor(id: nat): (State, Call) -> int {
    (s: State, c: Call) =>
      if c.Execute? && c.id == id && Step(s, c).Some? then
        var p := s.payments[id];
        Balance(LedgerOf(s, p.asset), p.payer) - Balance(LedgerOf(Next(s, c), p.asset), p.payer)
      else 0
  }

  /** The terms of a payment, which no call changes. */
  ghost predicate SameTerms(p: Payment, p': Payment) {
    p'.payer == p.payer && p'.recipient == p.recipient && p'.asset == p.asset && p'.amount == p.amount
    && p'.interval == p.interval && p'.limit == p.limit && p'.created == p.created
  }

  /**
   * Between two states of a payment: the tokens moved are exactly the new payments times the amount (a payer
   * that pays itself moves none), and the new payments take at least an interval each, counted from the last
   * payment before them.
   */
  ghost predicate Window(p: Payment, p': Payment, moved: int) {
    && SameTerms(p, p')
    && p.total <= p'.total
    && (p.payer != p.recipient ==> p'.total * p.amount == p.total * p.amount + moved)
    && (p'.total - p.total) * p.interval <= p'.last - p.last
  }

  lemma WindowsCompose(p: Payment, p1: Payment, p2: Payment, m1: int, m2: int)
    requires Window(p, p1, m1) && Window(p1, p2, m2)
    ensures Window(p, p2, m1 + m2)
  {
    assert (p2.total - p.total) * p.interval == (p2.total - p1.total) * p.interval + (p1.total - p.total) * p.interval;
  }

  /** What a payment moves, in every token and account. */
  lemma PaymentReachesRecipient(s: State, c: Call, asset: nat, a: Address)
    requires c.Execute? && Step(s, c).Some?
    ensures c.id in s.payments
    ensures var p := s.payments[c.id]; var moved := if asset == p.asset then p.amount else 0;
            Balance(LedgerOf(Next(s, c), asset), a)
            == Balance(LedgerOf(s, asset), a) + Credit(a, p.recipient, moved) - Credit(a, p.payer, moved)
  {
    var p := s.payments[c.id];
    TransferMoves(LedgerOf(s, p.asset), p.payer, p.recipient, p.amount, a);
  }

  lemma OneMore(total: int, x: int)
    ensures (total + 1) * x == total * x + x
    ensures (total + 1 - total) * x == x
  {
  }

  lemma ExecuteOpensWindow(s: State, c: Call)
    requires Inv(s) && c.Execute? && Step(s, c).Some?
    ensures c.id in s.payments
    ensures Window(s.payments[c.id], Next(s, c).payments[c.id], MovedFor(c.id)(s, c))
  {
    var p := s.payments[c.id];
    PaymentReachesRecipient(s, c, p.asset, p.payer);
    OneMore(p.total, p.amount);
    OneMore(p.total, p.interval);
  }

  lemma PaymentStep(s: State, c: Call, id: nat)
    requires Inv(s) && id in s.payments
    ensures id in Next(s, c).payments && Window(s.payments[id], Next(s, c).payments[id], MovedFor(id)(s, c))
  {
    if c.Execute? && c.id == id && Step(s, c).Some? {
      ExecuteOpensWindow(s, c);
    }
  }

  /** The window law holds over any stretch of any run. */
  lemma {:induction false} WindowLaw(s: State, calls: seq<Call>, id: nat)
    requires Inv(s) && id in s.payments
    ensures var s' := Runs.Run(Next, s, calls);
            id in s'.payments && Window(s.payments[id], s'.payments[id], Runs.Collect(Next, MovedFor(id), s, calls))
    decreases |calls|
  {
    if calls != [] {
      var s1, rest := Next(s, calls[0]), calls[1..];
      NextKeepsInv(s, calls[0]);
      PaymentStep(s, calls[0], id);
      WindowLaw(s1, rest, id);
      WindowsCompose(s.payments[id], s1.payments[id], Runs.Run(Next, s1, rest).payments[id],
                     MovedFor(id)(s, calls[0]), Runs.Collect(Next, MovedFor(id), s1, rest));
    }
  }

  /** From its creation on, a payment has moved exactly its amount for each time it was made. */
  lemma MovedIsTotalTimesAmount(s: State, c: Call, calls: seq<Call>)
    requires Inv(s) && c.Create? && Step(s, c).Some?
    ensures var s1 := Next(s, c); var id := s1.counter; var payments := Runs.Run(Next, s1, calls).payments;
            && id !in s.payments && id in payments && SameTerms(s1.payments[id], payments[id])
            && payments[id].amount == c.amount && payments[id].payer == c.payer && payments[id].recipient == c.recipient
            && (c.payer != c.recipient ==>
                  Runs.Collect(Next, MovedFor(id), s1, calls) == payments[id].total * c.amount)
  {
    NextKeepsInv(s, c);
    WindowLaw(Next(s, c), calls, Next(s, c).counter);
  }

  // ----- when calls succeed, and what they leave -----

  /** Exactly when each call succeeds. */
  lemma CallsSucceedIff(s: State, c: Call)
    requires Inv(s)
    ensures Step(s, c).Some? <==>
              match c
              case Create(_, _, _, amount, interval, _) => amount > 0 && interval > 0
              case Execute(u, id, signs) =>
                && id in s.payments
                && var p := s.payments[id];
                   && (u == p.payer || ((u == p.recipient || u == s.admin) && signs))
                   && p.status == Active && s.now >= p.next && (p.limit.None? || p.total < p.limit.value)
                   && p.amount <= Balance(LedgerOf(s, p.asset), p.payer)
              case Pause(u, id) => id in s.payments && u == s.payments[id].payer
              case Resume(u, id) => id in s.payments && u == s.payments[id].payer
              case Cancel(u, id) => id in s.payments && u == s.payments[id].payer
              case Tick(_) => true
              case TokenMoves(_, _) => true
  {
  }

  /** A payment made is counted, and the next one due an interval later; resuming starts a new interval. */
  lemma ScheduleAfter(s: State, c: Call)
    requires (c.Execute? || c.Pause? || c.Resume? || c.Cancel?) && Step(s, c).Some?
    ensures c.id in s.payments && c.id in Next(s, c).payments
    ensures var p, p' := s.payments[c.id], Next(s, c).payments[c.id];
            && SameTerms(p, p')
            && p'.total == p.total + (if c.Execute? then 1 else 0)
            && p'.last == (if c.Execute? then s.now else p.last)
            && p'.next == (if c.Execute? || c.Resume? then s.now + p.interval else p.next)
            && p'.status == (if c.Pause? then Paused else if c.Cancel? then Cancelled else Active)
  {
  }

  /**
   * So right after a payment the next one succeeds exactly from an interval later on, for the same caller and
   * funds.
   */
  lemma NextPaymentAfterInterval(s: State, u: Party, id: nat, signs: bool, d: nat)
    requires Inv(s) && ExecuteStep(s, u, id, signs).Some?
    ensures
      var s1 := Next(s, Execute(u, id, signs)); var s2 := Next(s1, Tick(d)); var p := s1.payments[id];
      ExecuteStep(s2, u, id, signs).Some? <==>
        d >= p.interval && (p.limit.None? || p.total < p.limit.value)
        && p.amount <= Balance(LedgerOf(s1, p.asset), p.payer)
  {
    var s1 := Next(s, Execute(u, id, signs));
    ExecuteKeepsInv(s, Execute(u, id, signs));
    NextKeepsInv(s1, Tick(d));
    CallsSucceedIff(s, Execute(u, id, signs));
    CallsSucceedIff(Next(s1, Tick(d)), Execute(u, id, signs));
    ScheduleAfter(s, Execute(u, id, signs));
  }

  /** Call `i` of a run creates payment `id` on the terms of `p`. */
  ghost predicate CreatedAt(s: State, calls: seq<Call>, id: nat, p: Payment, i: nat) {
    && i < |calls|
    && var si := Runs.Run(Next, s, calls[..i]);
       && calls[i] == Create(p.payer, p.recipient, p.asset, p.amount, p.interval, p.limit)
       && p.amount > 0 && p.interval > 0 && id == si.counter + 1 && p.created == si.now
  }

  lemma CreationStep(s: State, c: Call, id: nat)
    requires id !in s.payments && id in Next(s, c).payments
    ensures var p := Next(s, c).payments[id];
            && CreatedAt(s, [c], id, p, 0) && p.status == Active && p.total == 0
            && p.last == s.now && p.next == s.now + p.interval
  {
    assert [c][..0] == [];
  }

  /** Every payment on record after a run was created in it on its terms, which no call changed since. */
  lemma {:induction false} PaymentsKeepTheirTerms(s: State, calls: seq<Call>, id: nat)
    requires Inv(s) && id !in s.payments && id in Runs.Run(Next, s, calls).payments
    ensures exists i: nat :: CreatedAt(s, calls, id, Runs.Run(Next, s, calls).payments[id], i)
    decreases |calls|
  {
    var s', rest := Next(s, calls[0]), calls[1..];
    var p := Runs.Run(Next, s, calls).payments[id];
    NextKeepsInv(s, calls[0]);
    if id in s'.payments {
      CreationStep(s, calls[0], id);
      WindowLaw(s', rest, id);
      assert calls[..0] == [calls[0]][..0];
      assert CreatedAt(s, calls, id, p, 0);
    } else {
      PaymentsKeepTheirTerms(s', rest, id);
      var i: nat :| CreatedAt(s', rest, id, p, i);
      assert calls[..i + 1][1..] == rest[..i];
      assert CreatedAt(s, calls, id, p, i + 1);
    }
  }

  // ----- who may change what -----

  lemma InactiveStep(s: State, c: Call, id: nat)
    requires Inv(s) && id in s.payments && s.payments[id].status != Active
    requires !(c.Resume? && c.id == id && c.payer == s.payments[id].payer)
    ensures id in Next(s, c).payments && MovedFor(id)(s, c) == 0
    ensures var p, p' := s.payments[id], Next(s, c).payments[id];
            p'.status != Active && p'.total == p.total && p'.payer == p.payer
  {
    assert c.Execute? && c.id == id ==> Step(s, c).None?;
  }

  /** A payment that is paused or cancelled is not made again, through any run in which its payer does not resume it. */
  lemma {:induction false} InactivePaysNothing(s: State, calls: seq<Call>, id: nat)
    requires Inv(s) && id in s.payments && s.payments[id].status != Active
    requires forall c | c in calls :: !(c.Resume? && c.id == id && c.payer == s.payments[id].payer)
    ensures var s' := Runs.Run(Next, s, calls); id in s'.payments && s'.payments[id].total == s.payments[id].total
    ensures Runs.Collect(Next, MovedFor(id), s, calls) == 0
    decreases |calls|
  {
    if calls != [] {
      assert calls[0] in calls;
      NextKeepsInv(s, calls[0]);
      InactiveStep(s, calls[0], id);
      assert forall c | c in calls[1..] :: c in calls;
      InactivePaysNothing(Next(s, calls[0]), calls[1..], id);
    }
  }

  /** Through any run without the payer's consent, no payment is made, no token moved and nothing resumed or stopped. */
  lemma {:induction false} NothingWithoutConsent(s: State, calls: seq<Call>, id: nat)
    requires Inv(s) && id in s.payments
    requires forall c | c in calls ::
               && (c.Execute? && c.id == id ==> c.caller != s.payments[id].payer && !c.payerSigns)
               && ((c.Pause? || c.Resume? || c.Cancel?) && c.id == id ==> c.payer != s.payments[id].payer)
    ensures var s' := Runs.Run(Next, s, calls); id in s'.payments && s'.payments[id] == s.payments[id]
    ensures Runs.Collect(Next, MovedFor(id), s, calls) == 0
    decreases |calls|
  {
    if calls != [] {
      assert calls[0] in calls;
      assert calls[0].Execute? && calls[0].id == id ==> Step(s, calls[0]).None?;
      assert Next(s, calls[0]).payments[id] == s.payments[id] && MovedFor(id)(s, calls[0]) == 0;
      NextKeepsInv(s, calls[0]);
      NothingWithoutConsent(Next(s, calls[0]), calls[1..], id);
    }
  }

  // ----- the contract itself -----

  class Scheduler {
    var admin: Party
    var counter: nat
    var payments: map<nat, Payment>
    var tokens: map<nat, Ledger>
    var now: nat

    function Snapshot(): State
      reads this
    {
      State(admin, counter, payments, tokens, now)
    }

    constructor (admin: Party, tokens: map<nat, Ledger>, now: nat)
      ensures Snapshot() == Init(admin, tokens, now)
    {
      this.admin, this.counter, this.payments, this.tokens, this.now := admin, 0, map[], tokens, now;
    }

    method CreateRecurring(payer: Party, recipient: Address, asset: nat, amount: int, interval: nat,
                           limit: Option<nat>) returns (id: Option<nat>)
      modifies this
      ensures Snapshot() == Next(old(Snapshot()), Create(payer, recipient, asset, amount, interval, limit))
      ensures id == if amount > 0 && interval > 0 then Some(old(counter) + 1) else None
    {
      if amount <= 0 {
        return None;
      }
      :- Require(interval != 0);
      var paymentId := counter + 1;
      payments := payments[paymentId :=
                           Payment(payer, recipient, asset, amount, interval, limit, 0, Active, now, now,
                                   now + interval)];
      counter := paymentId;
      return Some(paymentId);
    }

    method ExecutePayment(caller: Party, id: nat, payerSigns: bool) returns (done: Option<()>)
      modifies this
      ensures Snapshot() == Next(old(Snapshot()), Execute(caller, id, payerSigns))
      ensures done.Some? <==> Step(old(Snapshot()), Execute(caller, id, payerSigns)).Some?
    {
      var before := payments;
      var recurring :- Lookup(payments, id);
      if caller != recurring.payer && caller != recurring.recipient {
        if caller != admin {
          return None;
        }
      }
      :- Require(recurring.status == Active);
      :- Require(!(now < recurring.next));
      if recurring.limit.Some? && recurring.total >= recurring.limit.value {
        recurring := recurring.(status := Cancelled);
        payments := payments[id := recurring];
        payments := before;  // the panic that follows undoes the write
        return None;
      }
      if caller != recurring.payer {
        if !payerSigns {
          return None;
        }
      }
      var sent :- Transfer(GetOr(tokens, recurring.asset, map[]), recurring.payer, recurring.recipient,
                           recurring.amount);
      tokens := tokens[recurring.asset := sent];
      recurring := recurring.(total := recurring.total + 1);
      recurring := recurring.(last := now);
      recurring := recurring.(next := now + recurring.interval);
      payments := payments[id := recurring];
      return Some(());
    }

    method PausePayment(payer: Party, id: nat) returns (done: Option<()>)
      modifies this
      ensures Snapshot() == Next(old(Snapshot()), Pause(payer, id))
      ensures done.Some? <==> Step(old(Snapshot()), Pause(payer, id)).Some?
    {
      var recurring :- Lookup(payments, id);
      :- Require(recurring.payer == payer);
      recurring := recurring.(status := Paused);
      payments := payments[id := recurring];
      return Some(());
    }

    method ResumePayment(payer: Party, id: nat) returns (done: Option<()>)
      modifies this
      ensures Snapshot() == Next(old(Snapshot()), Resume(payer, id))
      ensures done.Some? <==> Step(old(Snapshot()), Resume(payer, id)).Some?
    {
      var recurring :- Lookup(payments, id);
      :- Require(recurring.payer == payer);
      recurring := recurring.(status := Active);
      recurring := recurring.(next := now + recurring.interval);
      payments := payments[id := recurring];
      return Some(());
    }

    method CancelPayment(payer: Party, id: nat) returns (done: Option<()>)
      modifies this
      ensures Snapshot() == Next(old(Snapshot()), Cancel(payer, id))
      ensures done.Some? <==> Step(old(Snapshot()), Cancel(payer, id)).Some?
    {
      var recurring :- Lookup(payments, id);
      :- Require(recurring.payer == payer);
      recurring := recurring.(status := Cancelled);
      payments := payments[id := recurring];
      return Some(());
    }
  }
}

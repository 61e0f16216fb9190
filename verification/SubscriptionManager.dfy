/** The subscription manager: upgrades with prorated credit, stacking renewals, and what both cost. */
module SubscriptionManager {
  import opened Chain
  import Arith
  import Runs

  datatype Tier = Starter | Growth | Business | Enterprise

  datatype Subscription = Subscription(
    tier: Tier, annual: bool, paid: int, started: nat, expires: nat, autoRenew: bool, campaignsUsed: nat,
    impressionsUsed: nat)

  datatype State = State(treasury: Address, subs: map<Party, Subscription>, token: Ledger, now: nat)

  datatype Call =
    | Subscribe(user: Party, tier: Tier, annual: bool, autoRenew: bool)
    | ChangeTier(user: Party, tier: Tier, annual: bool, autoRenew: bool)
    | Renew(user: Party, annual: bool, autoRenew: bool)
    | AutoRenew(user: Party)
    | Cancel(user: Party)
    | RecordCampaign(user: Party)
    | RecordImpressions(user: Party, count: nat)
    | Tick(seconds: nat)
    | Outside(sender: Party, to: Address, amount: int)

  function Init(treasury: Address, token: Ledger, now: nat): State {
    State(treasury, map[], token, now)
  }

  // ----- pure helpers -----

  function Rank(t: Tier): nat {
    match t
    case Starter => 0
    case Growth => 1
    case Business => 2
    case Enterprise => 3
  }

  function Period(annual: bool): nat {
    if annual then 365 * 24 * 3600 else 30 * 24 * 3600
  }

  function Price(t: Tier, annual: bool): int {
    match t
    case Starter => if annual then 990_000_000 else 99_000_000
    case Growth => if annual then 2_990_000_000 else 299_000_000
    case Business => if annual then 7_990_000_000 else 799_000_000
    case Enterprise => if annual then 19_990_000_000 else 1_999_000_000
  }

  /** The credit for the unused part of a payment; a period that ends before it starts underflows. */
  function ProratedCredit(paid: int, started: nat, expires: nat, now: nat): Option<int> {
    if now >= expires then Some(0)
    else
      :- Require(expires >= started);
      if expires == started then Some(0) else Some(Quot(paid * (expires - now), expires - started))
  }

  function Charge(s: State, user: Party, amount: int): Option<Ledger> {
    if amount > 0 then Transfer(s.token, user, s.treasury, amount) else Some(s.token)
  }

  /** A year's plan costs ten months' of it; the higher the rank, the higher the price; a month has 30 days. */
  lemma PlanTable(a: Tier, b: Tier, annual: bool)
    ensures Price(a, true) == 10 * Price(a, false)
    ensures Price(a, false) == 1_000_000 * (match a case Starter => 99 case Growth => 299 case Business => 799
                                            case Enterprise => 1_999)
    ensures Rank(a) < Rank(b) <==> Price(a, annual) < Price(b, annual)
    ensures Period(annual) == 86_400 * (if annual then 365 else 30)
  {
  }

  // ----- what each entry point does -----

  function SubscribeStep(s: State, user: Party, tier: Tier, annual: bool, autoRenew: bool): Option<State> {
    if user in s.subs && s.subs[user].expires > s.now then None else
    var amount := Price(tier, annual);
    var token :- Charge(s, user, amount);
    var sub := Subscription(tier, annual, amount, s.now, s.now + Period(annual), autoRenew, 0, 0);
    Some(s.(subs := s.subs[user := sub], token := token))
  }

  function ChangeTierStep(s: State, user: Party, tier: Tier, annual: bool, autoRenew: bool): Option<State> {
    var sub :- Lookup(s.subs, user);
    :- Require(sub.expires > s.now);
    :- Require(Rank(tier) > Rank(sub.tier));
    var credit :- ProratedCredit(sub.paid, sub.started, sub.expires, s.now);
    var price := Price(tier, annual);
    var token :- Charge(s, user, Max(price - credit, 0));
    var sub' := Subscription(tier, annual, price, s.now, s.now + Period(annual), autoRenew, sub.campaignsUsed,
                             sub.impressionsUsed);
    Some(s.(subs := s.subs[user := sub'], token := token))
  }

  function RenewStep(s: State, user: Party, annual: bool, autoRenew: bool): Option<State> {
    var sub :- Lookup(s.subs, user);
    var amount := Price(sub.tier, annual);
    var token :- Charge(s, user, amount);
    var sub' := sub.(expires := Max(sub.expires, s.now) + Period(annual), annual := annual, autoRenew := autoRenew,
                     paid := amount);
    Some(s.(subs := s.subs[user := sub'], token := token))
  }

  function AutoRenewStep(s: State, user: Party): Option<State> {
    var sub :- Lookup(s.subs, user);
    :- Require(sub.autoRenew);
    :- Require(sub.expires <= s.now);
    var amount := Price(sub.tier, sub.annual);
    :- Require(Balance(s.token, user) >= amount);
    var token :- Charge(s, user, amount);
    var sub' := sub.(expires := Max(sub.expires, s.now) + Period(sub.annual), paid := amount);
    Some(s.(subs := s.subs[user := sub'], token := token))
  }

  function Step(s: State, c: Call): Option<State> {
    match c
    case Subscribe(u, tier, annual, autoRenew) => SubscribeStep(s, u, tier, annual, autoRenew)
    case ChangeTier(u, tier, annual, autoRenew) => ChangeTierStep(s, u, tier, annual, autoRenew)
    case Renew(u, annual, autoRenew) => RenewStep(s, u, annual, autoRenew)
    case AutoRenew(u) => AutoRenewStep(s, u)
    case Cancel(u) =>
      var sub :- Lookup(s.subs, u);
      Some(s.(subs := s.subs[u := sub.(autoRenew := false)]))
    case RecordCampaign(u) =>
      var sub :- Lookup(s.subs, u);
      Some(s.(subs := s.subs[u := sub.(campaignsUsed := sub.campaignsUsed + 1)]))
    case RecordImpressions(u, count) =>
      var sub :- Lookup(s.subs, u);
      Some(s.(subs := s.subs[u := sub.(impressionsUsed := sub.impressionsUsed + count)]))
    case Tick(seconds) => Some(s.(now := s.now + seconds))
    case Outside(sender, to, amount) =>
      var token :- Transfer(s.token, sender, to, amount);
      Some(s.(token := token))
  }

  function Next(s: State, c: Call): State {
    Step(s, c).GetOr(s)
  }

  // ----- who pays what -----

  /** The price a call charges for: the new plan less the credit for the old one, or one more period. */
  function Due(s: State, c: Call): int
    requires Step(s, c).Some?
  {
    match c
    case Subscribe(_, tier, annual, _) => Price(tier, annual)
    case ChangeTier(u, tier, annual, _) =>
      var sub := s.subs[u];
      Max(Price(tier, annual) - ProratedCredit(sub.paid, sub.started, sub.expires, s.now).value, 0)
    case Renew(u, annual, _) => Price(s.subs[u].tier, annual)
    case AutoRenew(u) => Price(s.subs[u].tier, s.subs[u].annual)
    case _ => 0
  }

  /** Every charge goes from the subscriber to the treasury, and nothing else moves. */
  lemma ChargesReachTreasury(s: State, c: Call, a: Address)
    requires Step(s, c).Some? && !c.Outside?
    ensures Due(s, c) >= 0
    ensures Balance(Next(s, c).token, a) == Balance(s.token, a)
            + (if c.Tick? then 0 else Credit(a, s.treasury, Due(s, c)) - Credit(a, c.user, Due(s, c)))
  {
  }

  // ----- what a run adds up for each subscriber -----

  /**
   * A subscriber's past: tokens taken and upgrades made since the last `Subscribe`; renewals, time bought, and time
   * lapsed before a renewal, since the current start.
   */
  datatype Past = Past(charged: int, upgrades: nat, renewals: nat, bought: nat, lapsed: nat)

  datatype Traced = Traced(s: State, past: map<Party, Past>)

  /** Tokens a call takes from the subscriber it names. */
  function Taken(s: State, c: Call): int {
    if c.Tick? || c.Outside? then 0 else Balance(s.token, c.user) - Balance(Next(s, c).token, c.user)
  }

  function Lapse(s: State, u: Party): nat {
    if u in s.subs && s.subs[u].expires < s.now then s.now - s.subs[u].expires else 0
  }

  function Remember(t: Traced, c: Call): map<Party, Past> {
    if Step(t.s, c).None? then t.past
    else
      var taken := Taken(t.s, c);
      match c
      case Subscribe(u, _, annual, _) => t.past[u := Past(taken, 0, 0, Period(annual), 0)]
      case ChangeTier(u, _, annual, _) =>
        var p := GetOr(t.past, u, Past(0, 0, 0, 0, 0));
        t.past[u := Past(p.charged + taken, p.upgrades + 1, 0, Period(annual), 0)]
      case Renew(u, annual, _) =>
        var p := GetOr(t.past, u, Past(0, 0, 0, 0, 0));
        t.past[u := Past(p.charged + taken, p.upgrades, p.renewals + 1, p.bought + Period(annual),
                         p.lapsed + Lapse(t.s, u))]
      case AutoRenew(u) =>
        var p := GetOr(t.past, u, Past(0, 0, 0, 0, 0));
        t.past[u := Past(p.charged + taken, p.upgrades, p.renewals + 1, p.bought + Period(t.s.subs[u].annual),
                         p.lapsed + Lapse(t.s, u))]
      case _ => t.past
  }

  function Advance(t: Traced, c: Call): Traced {
    Traced(Next(t.s, c), Remember(t, c))
  }

  function Start(treasury: Address, token: Ledger, now: nat): Traced {
    Traced(Init(treasury, token, now), map[])
  }

  // ----- the inductive invariant -----

  ghost predicate GoodSub(sub: Subscription, now: nat) {
    sub.paid >= 0 && sub.started <= now && sub.started < sub.expires
  }

  ghost predicate Agrees(sub: Subscription, past: Past, isTreasury: bool) {
    && (!isTreasury ==> past.charged >= sub.paid)
    && past.upgrades <= Rank(sub.tier)
    && sub.expires == sub.started + past.bought + past.lapsed
    && sub.paid == Price(sub.tier, sub.annual)
    && (if past.renewals == 0 then past.bought == Period(sub.annual) && past.lapsed == 0
        else past.bought >= Period(sub.annual) + Period(false))
  }

  ghost predicate Inv(t: Traced) {
    forall u | u in t.s.subs ::
      GoodSub(t.s.subs[u], t.s.now) && u in t.past && Agrees(t.s.subs[u], t.past[u], u == t.s.treasury)
  }

  /** The credit never exceeds the payment it prorates, and computing it never underflows. */
  lemma CreditWithinPayment(sub: Subscription, now: nat)
    requires GoodSub(sub, now)
    ensures var credit := ProratedCredit(sub.paid, sub.started, sub.expires, now);
            credit.Some? && 0 <= credit.value <= sub.paid
  {
    if now < sub.expires {
      var rest, whole := sub.expires - now, sub.expires - sub.started;
      Arith.MulNonNeg(sub.paid, rest);
      Arith.MulMono(rest, whole, sub.paid);
      Arith.QuotIsFloor(sub.paid * rest, whole);
      Arith.CancelFactor(Quot(sub.paid * rest, whole), sub.paid, whole);
    }
  }

  lemma UpgradeKeepsInv(t: Traced, c: Call)
    requires Inv(t) && c.ChangeTier? && Step(t.s, c).Some?
    ensures Inv(Advance(t, c))
  {
    CreditWithinPayment(t.s.subs[c.user], t.s.now);
  }

  lemma SubscribeKeepsInv(t: Traced, c: Call)
    requires Inv(t) && c.Subscribe?
    ensures Inv(Advance(t, c))
  {
  }

  lemma RenewKeepsInv(t: Traced, c: Call)
    requires Inv(t) && c.Renew?
    ensures Inv(Advance(t, c))
  {
  }

  lemma AutoRenewKeepsInv(t: Traced, c: Call)
    requires Inv(t) && c.AutoRenew?
    ensures Inv(Advance(t, c))
  {
  }

  lemma OthersKeepInv(t: Traced, c: Call)
    requires Inv(t) && !c.Subscribe? && !c.ChangeTier? && !c.Renew? && !c.AutoRenew?
    ensures Inv(Advance(t, c))
  {
  }

  lemma AdvanceKeepsInv(t: Traced, c: Call)
    requires Inv(t)
    ensures Inv(Advance(t, c))
  {
    match c
    case Subscribe(_, _, _, _) => SubscribeKeepsInv(t, c);
    case ChangeTier(_, _, _, _) =>
      if Step(t.s, c).Some? {
        UpgradeKeepsInv(t, c);
      } else {
        assert Advance(t, c) == t;
      }
    case Renew(_, _, _) => RenewKeepsInv(t, c);
    case AutoRenew(_) => AutoRenewKeepsInv(t, c);
    case _ => OthersKeepInv(t, c);
  }

  lemma {:induction false} RunKeepsInv(t: Traced, calls: seq<Call>)
    requires Inv(t)
    ensures Inv(Runs.Run(Advance, t, calls))
    decreases |calls|
  {
    if calls != [] {
      AdvanceKeepsInv(t, calls[0]);
      RunKeepsInv(Advance(t, calls[0]), calls[1..]);
    }
  }

  /**
   * On every run: since the last subscription a subscriber has been charged at least the payment on record,
   * which is at least the credit it would get now, which is never negative; upgrades number at most three;
   * and the expiry is the start plus all time bought plus exactly the time lapsed before renewals.
   */
  lemma CreditIsBackedByCash(treasury: Address, token: Ledger, now: nat, calls: seq<Call>, u: Party)
    requires u in Runs.Run(Advance, Start(treasury, token, now), calls).s.subs
    ensures
      var t := Runs.Run(Advance, Start(treasury, token, now), calls);
      u in t.past &&
      var sub, past := t.s.subs[u], t.past[u];
      var credit := ProratedCredit(sub.paid, sub.started, sub.expires, t.s.now);
      && credit.Some? && 0 <= credit.value <= sub.paid
      && (u != t.s.treasury ==> sub.paid <= past.charged)
      && past.upgrades <= Rank(sub.tier) <= 3
      && sub.expires == sub.started + past.bought + past.lapsed
  {
    var t := Runs.Run(Advance, Start(treasury, token, now), calls);
    RunKeepsInv(Start(treasury, token, now), calls);
    CreditWithinPayment(t.s.subs[u], t.s.now);
  }

  // ----- the credit and the unused time -----

  /** What the unused time is worth at the price last paid for one period. */
  function Worth(sub: Subscription, now: nat): int {
    if now >= sub.expires then 0 else Quot(sub.paid * (sub.expires - now), Period(sub.annual))
  }

  lemma SlowerRateIsLess(paid: int, rest: int, whole: int, period: int)
    requires paid >= 0 && rest >= 0 && whole >= period > 0
    ensures Quot(paid * rest, whole) <= Quot(paid * rest, period)
  {
    var credit := Quot(paid * rest, whole);
    Arith.MulNonNeg(paid, rest);
    Arith.QuotIsFloor(paid * rest, whole);
    Arith.MulMono(period, whole, credit);
    Arith.FloorIsGreatest(credit, paid * rest, period);
  }

  /** Spread over at least one more period, a second of the payment's rate is worth less by more than a unit. */
  lemma RateFallsByAUnit(paid: int, whole: int, period: int, d: int)
    requires paid >= period > 0 && d >= 0 && whole >= period + d && paid * d >= period * (period + d)
    ensures period * whole <= paid * (whole - period)
  {
    var e := whole - period;
    Arith.MulMono(d, e, paid - period);
    assert (paid - period) * e == paid * e - period * e;
    assert (paid - period) * d == paid * d - period * d;
    assert period * (period + d) == period * period + period * d;
    assert period * whole == period * period + period * e;
  }

  lemma CrossMultiply(credit: int, n: int, whole: int, period: int)
    requires credit * whole <= n && period >= 0 && period * whole <= n * (whole - period)
    ensures ((credit + 1) * period) * whole <= n * whole
  {
    Arith.MulMono(credit * whole, n, period);
    assert ((credit + 1) * period) * whole == (credit * whole) * period + period * whole;
    assert n * (whole - period) == n * whole - n * period;
  }

  /** With any time left at all, the credit at the slower rate is a unit or more below the worth. */
  lemma SlowerRateIsStrictlyLess(paid: int, rest: int, whole: int, period: int, d: int)
    requires paid >= period > 0 && d >= 0 && rest >= 1
    requires whole >= period + d && paid * d >= period * (period + d)
    ensures Quot(paid * rest, whole) < Quot(paid * rest, period)
  {
    var credit, n := Quot(paid * rest, whole), paid * rest;
    RateFallsByAUnit(paid, whole, period, d);
    Arith.MulMono(1, rest, paid);
    Arith.MulMono(paid, n, whole - period);
    Arith.QuotIsFloor(n, whole);
    CrossMultiply(credit, n, whole, period);
    Arith.CancelFactor((credit + 1) * period, n, whole);
    Arith.FloorIsGreatest(credit + 1, n, period);
  }

  lemma FullCreditIsThePayment(paid: int, whole: int)
    requires paid >= 0 && whole > 0
    ensures Quot(paid * whole, whole) == paid
  {
    Arith.MulNonNeg(paid, whole);
    assert (paid + 1) * whole == paid * whole + whole;
    Arith.FloorIsUnique(paid, paid * whole, whole);
  }

  /** What the credit comes to: never more than the worth, and while time is left equal to it without renewals only. */
  ghost predicate CreditMatchesWorth(sub: Subscription, renewals: nat, now: nat) {
    var credit, worth := ProratedCredit(sub.paid, sub.started, sub.expires, now), Worth(sub, now);
    && credit.Some? && 0 <= credit.value <= worth
    && (now < sub.expires ==> (credit.value == worth <==> renewals == 0))
    && (now >= sub.expires ==> worth == 0)
    && (now == sub.started ==> credit.value == sub.paid)
  }

  /**
   * On every run: a renewal records only its own payment but spreads it over all the time bought. So while any time is
   * left, the credit is what the unused time is worth at the price last paid exactly when there was no renewal since
   * the current start, and less by a unit or more otherwise; with all of the time unused it is one payment.
   */
  lemma CreditForUnusedTime(treasury: Address, token: Ledger, now: nat, calls: seq<Call>, u: Party)
    requires u in Runs.Run(Advance, Start(treasury, token, now), calls).s.subs
    ensures
      var t := Runs.Run(Advance, Start(treasury, token, now), calls);
      u in t.past && CreditMatchesWorth(t.s.subs[u], t.past[u].renewals, t.s.now)
  {
    var t := Runs.Run(Advance, Start(treasury, token, now), calls);
    RunKeepsInv(Start(treasury, token, now), calls);
    CreditAgainstWorth(t.s.subs[u], t.past[u], t.s.now);
  }

  lemma CreditAgainstWorth(sub: Subscription, past: Past, now: nat)
    requires GoodSub(sub, now) && Agrees(sub, past, true)
    ensures CreditMatchesWorth(sub, past.renewals, now)
  {
    CreditWithinPayment(sub, now);
    var whole, period := sub.expires - sub.started, Period(sub.annual);
    if now < sub.expires {
      SlowerRateIsLess(sub.paid, sub.expires - now, whole, period);
      if past.renewals > 0 {
        SlowerRateIsStrictlyLess(sub.paid, sub.expires - now, whole, period, Period(false));
      }
    }
    if now == sub.started {
      FullCreditIsThePayment(sub.paid, whole);
    }
  }

  /** Two stacked annual payments with all of their time unused: two payments charged, a credit of one. */
  lemma StackedRenewalIsCreditedOnce(treasury: Address, token: Ledger, now: nat, u: Party, tier: Tier, auto: bool)
    requires u != treasury && Balance(token, u) >= 2 * Price(tier, true)
    ensures
      var t := Runs.Run(Advance, Start(treasury, token, now), [Subscribe(u, tier, true, auto), Renew(u, true, auto)]);
      u in t.s.subs && u in t.past &&
      var sub := t.s.subs[u];
      && t.past[u].charged == 2 * Price(tier, true) && sub.expires - t.s.now == 2 * Period(true)
      && ProratedCredit(sub.paid, sub.started, sub.expires, t.s.now) == Some(Price(tier, true))
  {
    var c, d := Subscribe(u, tier, true, auto), Renew(u, true, auto);
    var t0 := Start(treasury, token, now);
    var t1 := Advance(t0, c);
    ChargesReachTreasury(t0.s, c, u);
    assert Step(t1.s, d).Some?;
    ChargesReachTreasury(t1.s, d, u);
    var t2 := Advance(t1, d);
    assert Runs.Run(Advance, t1, [d]) == t2;
    FullCreditIsThePayment(Price(tier, true), 2 * Period(true));
  }

  /** The tier of a subscriber never falls except by a new subscription, and each upgrade raises it. */
  lemma TierStep(s: State, c: Call, u: Party)
    requires u in s.subs && !(c.Subscribe? && c.user == u)
    ensures u in Next(s, c).subs && Rank(Next(s, c).subs[u].tier) >= Rank(s.subs[u].tier)
    ensures c.ChangeTier? && c.user == u && Step(s, c).Some? ==> Rank(Next(s, c).subs[u].tier) > Rank(s.subs[u].tier)
  {
  }

  function Upgraded(u: Party): (State, Call) -> int {
    (s: State, c: Call) => if c.ChangeTier? && c.user == u && Step(s, c).Some? then 1 else 0
  }

  /** Between two subscriptions of a user, upgrades number at most the tiers climbed: three at most. */
  lemma {:induction false} UpgradesAtMostTiersClimbed(s: State, calls: seq<Call>, u: Party)
    requires u in s.subs
    requires forall c | c in calls :: !(c.Subscribe? && c.user == u)
    ensures var s' := Runs.Run(Next, s, calls);
            u in s'.subs
            && Rank(s.subs[u].tier) + Runs.Collect(Next, Upgraded(u), s, calls) <= Rank(s'.subs[u].tier) <= 3
    decreases |calls|
  {
    if calls != [] {
      assert calls[0] in calls;
      TierStep(s, calls[0], u);
      UpgradesAtMostTiersClimbed(Next(s, calls[0]), calls[1..], u);
    }
  }

  /** An active subscription cannot be replaced, and a lapsed one cannot be upgraded: exactly one of the two is open. */
  lemma SubscribeOrUpgrade(s: State, u: Party, tier: Tier, annual: bool, auto: bool)
    requires u in s.subs ==> GoodSub(s.subs[u], s.now)
    requires Balance(s.token, u) >= Price(tier, annual)
    ensures SubscribeStep(s, u, tier, annual, auto).Some? <==> !(u in s.subs && s.subs[u].expires > s.now)
    ensures ChangeTierStep(s, u, tier, annual, auto).Some? <==>
              u in s.subs && s.subs[u].expires > s.now && Rank(tier) > Rank(s.subs[u].tier)
  {
    if u in s.subs {
      CreditWithinPayment(s.subs[u], s.now);
    }
  }

  // ----- when calls succeed, and what they leave -----

  /** Whether `u` has a subscription that has not expired. */
  predicate IsActive(s: State, u: Party) {
    u in s.subs && s.subs[u].expires > s.now
  }

  /** Exactly when each call succeeds. */
  lemma CallsSucceedIff(s: State, c: Call)
    requires forall u | u in s.subs :: GoodSub(s.subs[u], s.now)
    ensures Step(s, c).Some? <==>
              match c
              case Subscribe(u, tier, annual, _) => !IsActive(s, u) && Price(tier, annual) <= Balance(s.token, u)
              case ChangeTier(u, tier, annual, _) =>
                && IsActive(s, u) && Rank(tier) > Rank(s.subs[u].tier)
                && var credit := ProratedCredit(s.subs[u].paid, s.subs[u].started, s.subs[u].expires, s.now);
                   && credit.Some?
                   && (Price(tier, annual) <= credit.value || Price(tier, annual) - credit.value <= Balance(s.token, u))
              case Renew(u, annual, _) => u in s.subs && Price(s.subs[u].tier, annual) <= Balance(s.token, u)
              case AutoRenew(u) =>
                && u in s.subs && s.subs[u].autoRenew && !IsActive(s, u)
                && Price(s.subs[u].tier, s.subs[u].annual) <= Balance(s.token, u)
              case Cancel(u) => u in s.subs
              case RecordCampaign(u) => u in s.subs
              case RecordImpressions(u, _) => u in s.subs
              case Tick(_) => true
              case Outside(u, _, x) => 0 <= x <= Balance(s.token, u)
  {
    if c.ChangeTier? && c.user in s.subs {
      CreditWithinPayment(s.subs[c.user], s.now);
    }
  }

  /** The plan a call leaves its user with: what it bought and for how long, on top of what was left. */
  lemma PlanAfter(s: State, c: Call)
    requires Step(s, c).Some? && !c.Tick? && !c.Outside?
    ensures c.user in Next(s, c).subs && (c.Subscribe? || c.user in s.subs)
    ensures var e' := Next(s, c).subs[c.user];
            match c
            case Subscribe(_, tier, annual, auto) =>
              && e'.tier == tier && e'.annual == annual && e'.autoRenew == auto && e'.paid == Price(tier, annual)
              && e'.started == s.now && e'.expires == s.now + Period(annual)
              && e'.campaignsUsed == e'.impressionsUsed == 0
            case ChangeTier(u, tier, annual, auto) =>
              && e'.tier == tier && e'.annual == annual && e'.autoRenew == auto && e'.paid == Price(tier, annual)
              && e'.started == s.now && e'.expires == s.now + Period(annual)
              && e'.campaignsUsed == s.subs[u].campaignsUsed && e'.impressionsUsed == s.subs[u].impressionsUsed
            case Renew(u, annual, auto) =>
              && e' == s.subs[u].(annual := annual, autoRenew := auto, paid := e'.paid, expires := e'.expires)
              && e'.paid == Price(s.subs[u].tier, annual)
              && e'.expires - Period(annual) == (if IsActive(s, u) then s.subs[u].expires else s.now)
            case AutoRenew(u) =>
              && e' == s.subs[u].(paid := e'.paid, expires := s.now + Period(s.subs[u].annual))
              && e'.paid == Price(s.subs[u].tier, s.subs[u].annual)
            case Cancel(u) => e' == s.subs[u].(autoRenew := false)
            case RecordCampaign(u) => e' == s.subs[u].(campaignsUsed := s.subs[u].campaignsUsed + 1)
            case RecordImpressions(u, n) => e' == s.subs[u].(impressionsUsed := s.subs[u].impressionsUsed + n)
  {
  }

  function CampaignsBy(u: Party): (State, Call) -> int {
    (s: State, c: Call) => if c == RecordCampaign(u) && u in s.subs then 1 else 0
  }

  function ImpressionsBy(u: Party): (State, Call) -> int {
    (s: State, c: Call) => if c.RecordImpressions? && c.user == u && u in s.subs then c.count else 0
  }

  lemma UsageStep(s: State, c: Call, u: Party)
    requires u in s.subs && !(c.Subscribe? && c.user == u)
    ensures u in Next(s, c).subs
    ensures var e, e' := s.subs[u], Next(s, c).subs[u];
            && e'.campaignsUsed == e.campaignsUsed + CampaignsBy(u)(s, c)
            && e'.impressionsUsed == e.impressionsUsed + ImpressionsBy(u)(s, c)
  {
  }

  /** Until the next subscription, upgrades and renewals included, usage is exactly what was recorded. */
  lemma {:induction false} UsageIsRecorded(s: State, calls: seq<Call>, u: Party)
    requires u in s.subs && forall c | c in calls :: !(c.Subscribe? && c.user == u)
    ensures var subs := Runs.Run(Next, s, calls).subs;
            && u in subs
            && subs[u].campaignsUsed == s.subs[u].campaignsUsed + Runs.Collect(Next, CampaignsBy(u), s, calls)
            && subs[u].impressionsUsed == s.subs[u].impressionsUsed + Runs.Collect(Next, ImpressionsBy(u), s, calls)
    decreases |calls|
  {
    if calls != [] {
      assert calls[0] in calls;
      UsageStep(s, calls[0], u);
      UsageIsRecorded(Next(s, calls[0]), calls[1..], u);
    }
  }

  // ----- who may change what -----

  /** A subscription changes only by a call in its user's name; renewing unasked takes the user's flag and a lapse. */
  lemma ChangesAreAuthorised(s: State, c: Call, u: Party)
    requires u in s.subs
    ensures u in Next(s, c).subs
    ensures Next(s, c).subs[u] != s.subs[u] ==> !c.Tick? && !c.Outside? && c.user == u
    ensures c == AutoRenew(u) && Next(s, c) != s ==> s.subs[u].autoRenew && s.subs[u].expires <= s.now
  {
  }

  /** A subscription stays as it is through any run of calls for other users. */
  lemma {:induction false} OthersLeaveSubscription(s: State, calls: seq<Call>, u: Party)
    requires u in s.subs && forall c | c in calls :: c.Tick? || c.Outside? || c.user != u
    ensures var subs := Runs.Run(Next, s, calls).subs; u in subs && subs[u] == s.subs[u]
    decreases |calls|
  {
    if calls != [] {
      assert calls[0] in calls;
      ChangesAreAuthorised(s, calls[0], u);
      OthersLeaveSubscription(Next(s, calls[0]), calls[1..], u);
    }
  }

  // ----- the contract itself -----

  class Manager {
    var treasury: Address
    var subs: map<Party, Subscription>
    var token: Ledger
    var now: nat

    function Snapshot(): State
      reads this
    {
      State(treasury, subs, token, now)
    }

    constructor (treasury: Address, token: Ledger, now: nat)
      ensures Snapshot() == Init(treasury, token, now)
    {
      this.treasury, this.subs, this.token, this.now := treasury, map[], token, now;
    }

    /** Charges nothing, and moves nothing, when the amount is not positive. */
    method Take(user: Party, amount: int) returns (done: Option<()>)
      modifies this`token
      ensures done.Some? <==> Charge(old(Snapshot()), user, amount).Some?
      ensures token == Charge(old(Snapshot()), user, amount).GetOr(old(token))
    {
      if amount > 0 {
        var moved :- Transfer(token, user, treasury, amount);
        token := moved;
      }
      return Some(());
    }

    method NewSubscription(user: Party, tier: Tier, annual: bool, autoRenew: bool) returns (done: Option<()>)
      modifies this
      ensures Snapshot() == Next(old(Snapshot()), Subscribe(user, tier, annual, autoRenew))
      ensures done.Some? <==> Step(old(Snapshot()), Subscribe(user, tier, annual, autoRenew)).Some?
    {
      if user in subs && subs[user].expires > now {
        return None;
      }
      var amount := Price(tier, annual);
      var _ :- Take(user, amount);
      subs := subs[user := Subscription(tier, annual, amount, now, now + Period(annual), autoRenew, 0, 0)];
      return Some(());
    }

    method Upgrade(user: Party, tier: Tier, annual: bool, autoRenew: bool) returns (done: Option<()>)
      modifies this
      ensures Snapshot() == Next(old(Snapshot()), ChangeTier(user, tier, annual, autoRenew))
      ensures done.Some? <==> Step(old(Snapshot()), ChangeTier(user, tier, annual, autoRenew)).Some?
    {
      var existing :- Lookup(subs, user);
      :- Require(existing.expires > now);
      :- Require(!(Rank(tier) < Rank(existing.tier)));
      :- Require(Rank(tier) != Rank(existing.tier));
      var credit :- ProratedCredit(existing.paid, existing.started, existing.expires, now);
      var price := Price(tier, annual);
      var net := Max(price - credit, 0);
      var _ :- Take(user, net);
      subs := subs[user := Subscription(tier, annual, price, now, now + Period(annual), autoRenew,
                                        existing.campaignsUsed, existing.impressionsUsed)];
      return Some(());
    }

    method RenewNow(user: Party, annual: bool, autoRenew: bool) returns (done: Option<()>)
      modifies this
      ensures Snapshot() == Next(old(Snapshot()), Renew(user, annual, autoRenew))
      ensures done.Some? <==> Step(old(Snapshot()), Renew(user, annual, autoRenew)).Some?
    {
      var sub :- Lookup(subs, user);
      var amount := Price(sub.tier, annual);
      var _ :- Take(user, amount);
      var base := Max(sub.expires, now);
      sub := sub.(expires := base + Period(annual));
      sub := sub.(annual := annual);
      sub := sub.(autoRenew := autoRenew);
      sub := sub.(paid := amount);
      subs := subs[user := sub];
      return Some(());
    }

    method RenewExpired(user: Party) returns (done: Option<()>)
      modifies this
      ensures Snapshot() == Next(old(Snapshot()), AutoRenew(user))
      ensures done.Some? <==> Step(old(Snapshot()), AutoRenew(user)).Some?
    {
      var sub :- Lookup(subs, user);
      :- Require(sub.autoRenew);
      :- Require(!(sub.expires > now));
      var amount := Price(sub.tier, sub.annual);
      :- Require(!(Balance(token, user) < amount));
      var taken := Take(user, amount);
      assert taken.Some?;  // the balance has just been checked
      var base := Max(sub.expires, now);
      sub := sub.(expires := base + Period(sub.annual));
      sub := sub.(paid := amount);
      subs := subs[user := sub];
      return Some(());
    }

    method CancelRenewal(user: Party) returns (done: Option<()>)
      modifies this
      ensures Snapshot() == Next(old(Snapshot()), Cancel(user))
      ensures done.Some? <==> user in old(subs)
    {
      var sub :- Lookup(subs, user);
      sub := sub.(autoRenew := false);
      subs := subs[user := sub];
      return Some(());
    }

    method RecordCampaignUsed(user: Party) returns (done: Option<()>)
      modifies this
      ensures Snapshot() == Next(old(Snapshot()), RecordCampaign(user))
      ensures done.Some? <==> user in old(subs)
    {
      var sub :- Lookup(subs, user);
      sub := sub.(campaignsUsed := sub.campaignsUsed + 1);
      subs := subs[user := sub];
      return Some(());
    }

    method RecordImpression(user: Party, count: nat) returns (done: Option<()>)
      modifies this
      ensures Snapshot() == Next(old(Snapshot()), RecordImpressions(user, count))
      ensures done.Some? <==> user in old(subs)
    {
      var sub :- Lookup(subs, user);
      sub := sub.(impressionsUsed := sub.impressionsUsed + count);
      subs := subs[user := sub];
      return Some(());
    }
  }
}

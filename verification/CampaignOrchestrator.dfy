/** The campaign orchestrator: budgets held in custody, paid out view by view, refunded on cancellation. */
module CampaignOrchestrator {
  import opened Chain
  import Arith
  import Runs
  import Sums

  datatype Status = Active | Paused | Completed | Cancelled | Expired

  datatype Campaign = Campaign(
    advertiser: Party, budget: int, remaining: int, costPerView: int, endLedger: nat, status: Status,
    targetViews: nat, currentViews: nat, dailyLimit: nat, refundable: bool, fee: int)

  datatype State = State(
    admin: Party, feePct: nat, counter: nat, totalFees: int, campaigns: map<nat, Campaign>,
    verified: set<Party>, dailyViews: map<(nat, nat), nat>, token: Ledger, now: nat, ledger: nat)

  datatype Call =
    | Create(advertiser: Party, kind: nat, budget: int, costPerView: int, duration: nat, targetViews: nat,
             dailyLimit: nat, refundable: bool)
    | RecordView(publisher: Party, id: nat, validated: bool)  // `validated`: the other contracts raised no objection
    | Pause(advertiser: Party, id: nat)
    | Resume(advertiser: Party, id: nat)
    | Cancel(advertiser: Party, id: nat)
    | Verify(caller: Party, publisher: Party)
    | SetFee(caller: Party, pct: nat)
    | Tick(seconds: nat, ledgers: nat)
    | Outside(sender: Party, to: Address, amount: int)

  const MIN_BUDGET := 1_000_000
  const MIN_DURATION := 100
  const MAX_DURATION := 10_000
  const SECONDS_A_DAY := 86_400

  function Init(admin: Party, token: Ledger, now: nat, ledger: nat): State {
    State(admin, 2, 0, 0, map[], {}, map[], token, now, ledger)
  }

  // ----- what each entry point does -----

  function CreateStep(s: State, c: Call): Option<State>
    requires c.Create?
  {
    if c.kind != 1 then None else  // the one registered campaign type
    :- Require(c.budget >= MIN_BUDGET);
    :- Require(MIN_DURATION <= c.duration <= MAX_DURATION);
    var id := s.counter + 1;
    var fee := Quot(c.budget * s.feePct, 100);
    var token :- Transfer(s.token, c.advertiser, Contract, c.budget + fee);
    var campaign := Campaign(c.advertiser, c.budget, c.budget, c.costPerView, s.ledger + c.duration, Active,
                             c.targetViews, 0, c.dailyLimit, c.refundable, fee);
    Some(s.(counter := id, campaigns := s.campaigns[id := campaign], totalFees := s.totalFees + fee, token := token))
  }

  function Day(s: State): nat {
    s.now / SECONDS_A_DAY
  }

  function RecordViewStep(s: State, publisher: Party, id: nat, validated: bool): Option<State> {
    if !validated then None else
    var campaign :- Lookup(s.campaigns, id);
    :- Require(publisher in s.verified);
    :- Require(campaign.status == Active);
    :- Require(campaign.currentViews < campaign.targetViews);
    :- Require(s.ledger <= campaign.endLedger);
    :- Require(campaign.remaining >= campaign.costPerView);
    var views := GetOr(s.dailyViews, (id, Day(s)), 0);
    :- Require(views < campaign.dailyLimit);
    var token :- Transfer(s.token, Contract, publisher, campaign.costPerView);
    var seen := campaign.currentViews + 1;
    var campaign' := campaign.(remaining := campaign.remaining - campaign.costPerView, currentViews := seen,
                               status := if seen >= campaign.targetViews then Completed else campaign.status);
    Some(s.(campaigns := s.campaigns[id := campaign'], dailyViews := s.dailyViews[(id, Day(s)) := views + 1],
            token := token))
  }

  function SetStatus(s: State, advertiser: Party, id: nat, status: Status): Option<State> {
    var campaign :- Lookup(s.campaigns, id);
    :- Require(campaign.advertiser == advertiser);
    Some(s.(campaigns := s.campaigns[id := campaign.(status := status)]))
  }

  function CancelStep(s: State, advertiser: Party, id: nat): Option<State> {
    var campaign :- Lookup(s.campaigns, id);
    :- Require(campaign.advertiser == advertiser);
    :- Require(campaign.refundable);
    var cancelled := s.(campaigns := s.campaigns[id := campaign.(remaining := 0, status := Cancelled)]);
    if campaign.remaining > 0 then
      var token :- Transfer(s.token, Contract, advertiser, campaign.remaining);
      Some(cancelled.(token := token))
    else
      Some(cancelled)
  }

  function Step(s: State, c: Call): Option<State> {
    match c
    case Create(_, _, _, _, _, _, _, _) => CreateStep(s, c)
    case RecordView(publisher, id, validated) => RecordViewStep(s, publisher, id, validated)
    case Pause(advertiser, id) => SetStatus(s, advertiser, id, Paused)
    case Resume(advertiser, id) => SetStatus(s, advertiser, id, Active)
    case Cancel(advertiser, id) => CancelStep(s, advertiser, id)
    case Verify(caller, publisher) =>
      :- Require(caller == s.admin);
      Some(s.(verified := s.verified + {publisher}))
    case SetFee(caller, pct) =>
      :- Require(caller == s.admin);
      :- Require(pct <= 10);
      Some(s.(feePct := pct))
    case Tick(seconds, ledgers) => Some(s.(now := s.now + seconds, ledger := s.ledger + ledgers))
    case Outside(sender, to, amount) =>
      var token :- Transfer(s.token, sender, to, amount);
      Some(s.(token := token))
  }

  function Next(s: State, c: Call): State {
    Step(s, c).GetOr(s)
  }

  // ----- the inductive invariant -----

  ghost function RemainingIn(id: nat, c: Campaign): int { c.remaining }

  ghost function FeeOf(id: nat, c: Campaign): int { c.fee }

  /** The views a day's counter records for campaign `id`. */
  ghost function ViewsOf(id: nat): ((nat, nat), nat) -> int {
    (key: (nat, nat), views: nat) => if key.0 == id then views else 0
  }

  ghost predicate GoodCampaign(c: Campaign) {
    c.remaining >= 0 && c.fee >= 0 && c.currentViews <= c.targetViews
  }

  /** A campaign's daily counters add up to its views, none above the daily limit. */
  ghost predicate ViewsAgree(s: State, id: nat)
    requires id in s.campaigns
  {
    && Sums.Sum(s.dailyViews, ViewsOf(id)) == s.campaigns[id].currentViews
    && (forall day | (id, day) in s.dailyViews :: s.dailyViews[(id, day)] <= s.campaigns[id].dailyLimit)
  }

  ghost predicate Inv(s: State) {
    && s.feePct <= 10
    && s.totalFees == Sums.Sum(s.campaigns, FeeOf)
    && (forall id | id in s.campaigns :: 1 <= id <= s.counter && GoodCampaign(s.campaigns[id]))
    && (forall key | key in s.dailyViews :: key.0 in s.campaigns)
    && (forall id | id in s.campaigns :: ViewsAgree(s, id))
  }

  lemma FeeIsAtMostATenth(budget: int, pct: nat)
    requires budget >= 0 && pct <= 10
    ensures 0 <= Quot(budget * pct, 100) && 10 * Quot(budget * pct, 100) <= budget
  {
    Arith.MulMono(pct, 10, budget);
    Arith.MulNonNeg(budget, pct);
    Arith.QuotIsFloor(budget * pct, 100);
  }

  lemma CreateKeepsInv(s: State, c: Call)
    requires Inv(s) && c.Create? && CreateStep(s, c).Some?
    ensures Inv(CreateStep(s, c).value)
  {
    var s' := CreateStep(s, c).value;
    var id := s'.counter;
    FeeIsAtMostATenth(c.budget, s.feePct);
    Sums.SumUpdate(s.campaigns, FeeOf, id, s'.campaigns[id]);
    Sums.SumZero(s.dailyViews, ViewsOf(id));
    forall k | k in s'.campaigns ensures ViewsAgree(s', k) {
      assert k != id ==> ViewsAgree(s, k);
    }
  }

  lemma ViewIsCounted(s: State, publisher: Party, id: nat, validated: bool, k: nat)
    requires RecordViewStep(s, publisher, id, validated).Some? && k in s.campaigns && ViewsAgree(s, k)
    ensures var s' := RecordViewStep(s, publisher, id, validated).value; k in s'.campaigns && ViewsAgree(s', k)
  {
    var key := (id, Day(s));
    Sums.SumUpdate(s.dailyViews, ViewsOf(k), key, GetOr(s.dailyViews, key, 0) + 1);
  }

  lemma RecordViewKeepsInv(s: State, publisher: Party, id: nat, validated: bool)
    requires Inv(s) && RecordViewStep(s, publisher, id, validated).Some?
    ensures Inv(RecordViewStep(s, publisher, id, validated).value)
  {
    var s' := RecordViewStep(s, publisher, id, validated).value;
    Sums.SumUpdate(s.campaigns, FeeOf, id, s'.campaigns[id]);
    forall k | k in s'.campaigns ensures ViewsAgree(s', k) {
      ViewIsCounted(s, publisher, id, validated, k);
    }
  }

  /** Rewriting a campaign's status and budget leaves fees and views alone. */
  lemma RewriteKeepsInv(s: State, id: nat, e': Campaign, token: Ledger)
    requires Inv(s) && id in s.campaigns && GoodCampaign(e')
    requires var e := s.campaigns[id];
             e'.fee == e.fee && e'.currentViews == e.currentViews && e'.dailyLimit == e.dailyLimit
    ensures Inv(s.(campaigns := s.campaigns[id := e'], token := token))
  {
    var s' := s.(campaigns := s.campaigns[id := e'], token := token);
    Sums.SumUpdate(s.campaigns, FeeOf, id, e');
    forall k | k in s'.campaigns ensures ViewsAgree(s', k) { assert ViewsAgree(s, k); }
  }

  lemma StatusKeepsInv(s: State, c: Call)
    requires Inv(s) && (c.Pause? || c.Resume? || c.Cancel?) && Step(s, c).Some?
    ensures Inv(Next(s, c))
  {
    var s' := Next(s, c);
    assert s' == s.(campaigns := s.campaigns[c.id := s'.campaigns[c.id]], token := s'.token);
    RewriteKeepsInv(s, c.id, s'.campaigns[c.id], s'.token);
  }

  lemma NextKeepsInv(s: State, c: Call)
    requires Inv(s)
    ensures Inv(Next(s, c))
  {
    if Step(s, c).Some? {
      match c
      case Create(_, _, _, _, _, _, _, _) => CreateKeepsInv(s, c);
      case RecordView(publisher, id, validated) => RecordViewKeepsInv(s, publisher, id, validated);
      case Pause(_, _) => StatusKeepsInv(s, c);
      case Resume(_, _) => StatusKeepsInv(s, c);
      case Cancel(_, _) => StatusKeepsInv(s, c);
      case _ =>
        var s' := Next(s, c);
        forall k | k in s'.campaigns ensures ViewsAgree(s', k) { assert ViewsAgree(s, k); }
    }
  }

  /**
   * On every run: fees add up, views stay within target, each campaign's daily counters add up to its views
   * and stay within the daily limit.
   */
  lemma {:induction false} RunKeepsInv(s: State, calls: seq<Call>)
    requires Inv(s)
    ensures Inv(Runs.Run(Next, s, calls))
    decreases |calls|
  {
    if calls != [] {
      NextKeepsInv(s, calls[0]);
      RunKeepsInv(Next(s, calls[0]), calls[1..]);
    }
  }

  // ----- custody -----

  ghost function TotalRemaining(s: State): int {
    Sums.Sum(s.campaigns, RemainingIn)
  }

  /** What the contract holds beyond the remaining budgets and the collected fees. */
  ghost function Surplus(s: State): int {
    Balance(s.token, Contract) - TotalRemaining(s) - s.totalFees
  }

  function Donation(s: State, c: Call): int {
    if c.Outside? && c.to == Contract && Step(s, c).Some? then c.amount else 0
  }

  lemma CreateKeepsSurplus(s: State, c: Call)
    requires Inv(s) && c.Create? && Step(s, c).Some?
    ensures Surplus(Next(s, c)) == Surplus(s)
  {
    var s' := Next(s, c);
    Sums.SumUpdate(s.campaigns, RemainingIn, s'.counter, s'.campaigns[s'.counter]);
  }

  /** The other calls rewrite one campaign, and take from its budget what they take from the tokens. */
  lemma RewriteMovesAlike(s: State, c: Call)
    requires (c.RecordView? || c.Pause? || c.Resume? || c.Cancel?) && Step(s, c).Some?
    requires c.id in s.campaigns ==> s.campaigns[c.id].remaining >= 0
    ensures var s' := Next(s, c);
            && c.id in s.campaigns && c.id in s'.campaigns && s'.totalFees == s.totalFees
            && s'.campaigns == s.campaigns[c.id := s'.campaigns[c.id]]
            && Balance(s'.token, Contract) - s'.campaigns[c.id].remaining
               == Balance(s.token, Contract) - s.campaigns[c.id].remaining
  {
  }

  lemma RewriteKeepsSurplus(s: State, c: Call)
    requires Inv(s) && (c.RecordView? || c.Pause? || c.Resume? || c.Cancel?) && Step(s, c).Some?
    ensures Surplus(Next(s, c)) == Surplus(s)
  {
    RewriteMovesAlike(s, c);
    Sums.SumUpdate(s.campaigns, RemainingIn, c.id, Next(s, c).campaigns[c.id]);
  }

  lemma SurplusStep(s: State, c: Call)
    requires Inv(s)
    ensures Surplus(Next(s, c)) == Surplus(s) + Donation(s, c)
    ensures Donation(s, c) >= 0
  {
    if Step(s, c).Some? {
      if c.Create? {
        CreateKeepsSurplus(s, c);
      } else if c.RecordView? || c.Pause? || c.Resume? || c.Cancel? {
        RewriteKeepsSurplus(s, c);
      }
    }
  }

  /**
   * For every run, fee changes and resumptions after cancellation included: tokens held are the remaining budgets,
   * the fees and the donations.
   */
  lemma {:induction false} CustodyLaw(s: State, calls: seq<Call>)
    requires Inv(s)
    ensures Surplus(Runs.Run(Next, s, calls)) == Surplus(s) + Runs.Collect(Next, Donation, s, calls)
    ensures Runs.Collect(Next, Donation, s, calls) >= 0
    decreases |calls|
  {
    if calls != [] {
      NextKeepsInv(s, calls[0]);
      SurplusStep(s, calls[0]);
      CustodyLaw(Next(s, calls[0]), calls[1..]);
    }
  }

  /** From a fresh contract: the exact custody equation, and with it solvency. */
  lemma ReachableSolvent(admin: Party, token: Ledger, now: nat, ledger: nat, calls: seq<Call>)
    requires Balance(token, Contract) >= 0
    ensures var s := Runs.Run(Next, Init(admin, token, now, ledger), calls);
            Inv(s) && Surplus(s) >= 0
            && Balance(s.token, Contract) == TotalRemaining(s) + s.totalFees
               + Balance(token, Contract) + Runs.Collect(Next, Donation, Init(admin, token, now, ledger), calls)
  {
    RunKeepsInv(Init(admin, token, now, ledger), calls);
    CustodyLaw(Init(admin, token, now, ledger), calls);
  }

  lemma BudgetIsFunded(s: State, id: nat)
    requires Inv(s) && Surplus(s) >= 0 && id in s.campaigns
    ensures s.campaigns[id].remaining <= Balance(s.token, Contract)
  {
    Sums.TermAtMostSum(s.campaigns, RemainingIn, id);
    Sums.SumNonNeg(s.campaigns, FeeOf);
  }

  /** Creating charges the advertiser budget and fee; a view pays its publisher, a cancellation the advertiser. */
  lemma PaymentsReachTheirParties(s: State, c: Call, a: Address)
    requires Step(s, c).Some? && !c.Outside?
    ensures var paid := Balance(Next(s, c).token, a) - Balance(s.token, a);
            match c
            case Create(u, _, budget, _, _, _, _, _) =>
              var charge := budget + Quot(budget * s.feePct, 100);
              paid == Credit(a, Contract, charge) - Credit(a, u, charge)
            case RecordView(u, id, _) =>
              var price := s.campaigns[id].costPerView;
              paid == Credit(a, u, price) - Credit(a, Contract, price)
            case Cancel(u, id) =>
              var refund := Max(s.campaigns[id].remaining, 0);
              u == s.campaigns[id].advertiser && paid == Credit(a, u, refund) - Credit(a, Contract, refund)
            case _ => paid == 0
  {
  }

  /** Cancelling pays exactly the remaining budget, and nothing but authority and refundability can stop it. */
  lemma CancelAlwaysPays(s: State, advertiser: Party, id: nat)
    requires Inv(s) && Surplus(s) >= 0 && id in s.campaigns
    ensures CancelStep(s, advertiser, id).Some? <==>
              s.campaigns[id].advertiser == advertiser && s.campaigns[id].refundable
    ensures CancelStep(s, advertiser, id).Some? ==>
              Balance(Next(s, Cancel(advertiser, id)).token, advertiser)
              == Balance(s.token, advertiser) + s.campaigns[id].remaining
  {
    BudgetIsFunded(s, id);
  }

  /** A view pays its publisher the price exactly when its guards hold; a negative price can never be paid. */
  lemma ViewPaidIffGuardsHold(s: State, publisher: Party, id: nat)
    requires Inv(s) && Surplus(s) >= 0 && id in s.campaigns
    ensures var c := s.campaigns[id];
            RecordViewStep(s, publisher, id, true).Some? <==>
              publisher in s.verified && c.status == Active && c.currentViews < c.targetViews && s.ledger <= c.endLedger
              && 0 <= c.costPerView <= c.remaining && GetOr(s.dailyViews, (id, Day(s)), 0) < c.dailyLimit
    ensures RecordViewStep(s, publisher, id, true).Some? ==>
              Balance(Next(s, RecordView(publisher, id, true)).token, publisher)
              == Balance(s.token, publisher) + s.campaigns[id].costPerView
  {
    BudgetIsFunded(s, id);
  }

  // ----- each campaign's own money -----

  /** Tokens a view of campaign `id` brings its publisher, read off the publisher's balance. */
  function ViewPay(id: nat): (State, Call) -> int {
    (s: State, c: Call) =>
      if c.RecordView? && c.id == id then Balance(Next(s, c).token, c.publisher) - Balance(s.token, c.publisher) else 0
  }

  /** Tokens a cancellation of campaign `id` brings its advertiser, read off the advertiser's balance. */
  function RefundOf(id: nat): (State, Call) -> int {
    (s: State, c: Call) =>
      if c.Cancel? && c.id == id then Balance(Next(s, c).token, c.advertiser) - Balance(s.token, c.advertiser) else 0
  }

  /** What a campaign's views have cost. */
  function Spent(c: Campaign): int {
    c.currentViews * c.costPerView
  }

  /** Between two states of a campaign `paid` went to publishers, view by view, and `refunded` to the advertiser. */
  ghost predicate MoneyMoved(e: Campaign, e': Campaign, paid: int, refunded: int) {
    && e'.budget == e.budget && e'.costPerView == e.costPerView
    && e'.remaining + paid + refunded == e.remaining
    && Spent(e') == Spent(e) + paid
  }

  lemma ViewMovesItsPrice(s: State, c: Call)
    requires Inv(s) && c.RecordView? && Step(s, c).Some?
    ensures c.id in s.campaigns
    ensures MoneyMoved(s.campaigns[c.id], Next(s, c).campaigns[c.id], ViewPay(c.id)(s, c), 0)
  {
    var e := s.campaigns[c.id];
    PaymentsReachTheirParties(s, c, c.publisher);
    assert (e.currentViews + 1) * e.costPerView == e.currentViews * e.costPerView + e.costPerView;
  }

  lemma CancelReturnsTheRest(s: State, c: Call)
    requires Inv(s) && c.Cancel? && Step(s, c).Some?
    ensures c.id in s.campaigns
    ensures MoneyMoved(s.campaigns[c.id], Next(s, c).campaigns[c.id], 0, RefundOf(c.id)(s, c))
  {
    PaymentsReachTheirParties(s, c, c.advertiser);
  }

  /** No other call changes more of a campaign than its status. */
  lemma OthersChangeStatusOnly(s: State, c: Call, id: nat)
    requires id in s.campaigns && id <= s.counter
    requires (c.RecordView? || c.Cancel?) && c.id == id ==> Step(s, c).None?
    ensures id in Next(s, c).campaigns
    ensures var e' := Next(s, c).campaigns[id]; e' == s.campaigns[id].(status := e'.status)
  {
  }

  lemma MoneyStep(s: State, c: Call, id: nat)
    requires Inv(s) && id in s.campaigns
    ensures id in Next(s, c).campaigns
    ensures MoneyMoved(s.campaigns[id], Next(s, c).campaigns[id], ViewPay(id)(s, c), RefundOf(id)(s, c))
  {
    if c.RecordView? && c.id == id && Step(s, c).Some? {
      ViewMovesItsPrice(s, c);
      assert RefundOf(id)(s, c) == 0;
    } else if c.Cancel? && c.id == id && Step(s, c).Some? {
      CancelReturnsTheRest(s, c);
      assert ViewPay(id)(s, c) == 0;
    } else {
      OthersChangeStatusOnly(s, c, id);
      assert ViewPay(id)(s, c) == 0 && RefundOf(id)(s, c) == 0;
    }
  }

  /**
   * From any point on, what is left, the tokens publishers received for views and the tokens refunded to the
   * advertiser add up to what was left then; and publishers received exactly the price of each new view.
   */
  lemma {:induction false} BudgetLaw(s: State, calls: seq<Call>, id: nat)
    requires Inv(s) && id in s.campaigns
    ensures var s' := Runs.Run(Next, s, calls);
            id in s'.campaigns
            && MoneyMoved(s.campaigns[id], s'.campaigns[id],
                          Runs.Collect(Next, ViewPay(id), s, calls), Runs.Collect(Next, RefundOf(id), s, calls))
    decreases |calls|
  {
    if calls != [] {
      NextKeepsInv(s, calls[0]);
      MoneyStep(s, calls[0], id);
      BudgetLaw(Next(s, calls[0]), calls[1..], id);
    }
  }

  /** A new campaign keeps all of its budget and is paid for with at most a tenth on top. */
  lemma CreateAccountsForBudget(s: State, c: Call)
    requires Inv(s) && c.Create? && Step(s, c).Some?
    ensures var s' := Next(s, c); var id := s'.counter;
            id !in s.campaigns && id in s'.campaigns && Spent(s'.campaigns[id]) == 0
            && s'.campaigns[id].remaining == s'.campaigns[id].budget == c.budget
            && var charged := Balance(s.token, c.advertiser) - Balance(s'.token, c.advertiser);
               c.budget <= charged && 10 * charged <= 11 * c.budget
  {
    FeeIsAtMostATenth(c.budget, s.feePct);
    PaymentsReachTheirParties(s, c, c.advertiser);
  }

  /**
   * Over a campaign's whole life: budget = remaining + views * price + tokens refunded, and its publishers received
   * views * price.
   */
  lemma BudgetIsSpentOrRefunded(s: State, c: Call, calls: seq<Call>)
    requires Inv(s) && c.Create? && Step(s, c).Some?
    ensures var s1 := Next(s, c); var id := s1.counter; var e := Runs.Run(Next, s1, calls).campaigns;
            id in e && e[id].remaining >= 0 && e[id].currentViews <= e[id].targetViews
            && c.budget == e[id].remaining + e[id].currentViews * e[id].costPerView
               + Runs.Collect(Next, RefundOf(id), s1, calls)
            && Runs.Collect(Next, ViewPay(id), s1, calls) == e[id].currentViews * e[id].costPerView
  {
    CreateKeepsInv(s, c);
    CreateAccountsForBudget(s, c);
    BudgetLaw(Next(s, c), calls, Next(s, c).counter);
    RunKeepsInv(Next(s, c), calls);
  }

  /** The completion rate reported for a campaign, in percent. */
  function CompletionRate(c: Campaign): U32 {
    if c.targetViews > 0 then AsU32(Quot(c.currentViews * 100, c.targetViews)) else 0
  }

  /** The reported rate is a percentage, and 100 exactly when the target is reached. */
  lemma CompletionRateIsAPercentage(c: Campaign)
    requires GoodCampaign(c)
    ensures CompletionRate(c) <= 100
    ensures CompletionRate(c) == 100 <==> c.targetViews > 0 && c.currentViews == c.targetViews
  {
    if c.targetViews > 0 {
      var q := Quot(c.currentViews * 100, c.targetViews);
      Arith.QuotIsFloor(c.currentViews * 100, c.targetViews);
      Arith.CancelFactor(q, 100, c.targetViews);
      if c.currentViews == c.targetViews {
        Arith.FloorIsGreatest(100, c.currentViews * 100, c.targetViews);
      }
    }
  }

  // ----- when calls succeed, and what they leave -----

  /** Exactly when each call succeeds. */
  lemma CallsSucceedIff(s: State, c: Call)
    requires Inv(s) && Surplus(s) >= 0
    ensures Step(s, c).Some? <==>
              match c
              case Create(u, kind, budget, _, duration, _, _, _) =>
                && kind == 1 && MIN_BUDGET <= budget && MIN_DURATION <= duration <= MAX_DURATION
                && budget + Quot(budget * s.feePct, 100) <= Balance(s.token, u)
              case RecordView(u, id, validated) =>
                && validated && id in s.campaigns && u in s.verified && s.campaigns[id].status == Active
                && s.campaigns[id].currentViews < s.campaigns[id].targetViews && s.ledger <= s.campaigns[id].endLedger
                && 0 <= s.campaigns[id].costPerView <= s.campaigns[id].remaining
                && GetOr(s.dailyViews, (id, Day(s)), 0) < s.campaigns[id].dailyLimit
              case Pause(u, id) => id in s.campaigns && u == s.campaigns[id].advertiser
              case Resume(u, id) => id in s.campaigns && u == s.campaigns[id].advertiser
              case Cancel(u, id) =>
                id in s.campaigns && u == s.campaigns[id].advertiser && s.campaigns[id].refundable
              case Verify(u, _) => u == s.admin
              case SetFee(u, pct) => u == s.admin && pct <= 10
              case Tick(_, _) => true
              case Outside(u, _, x) => 0 <= x <= Balance(s.token, u)
  {
    match c
    case Create(_, _, budget, _, _, _, _, _) =>
      if budget >= 0 {
        FeeIsAtMostATenth(budget, s.feePct);
      }
    case RecordView(u, id, _) =>
      if id in s.campaigns {
        ViewPaidIffGuardsHold(s, u, id);
      }
    case Cancel(u, id) =>
      if id in s.campaigns {
        CancelAlwaysPays(s, u, id);
      }
    case _ =>
  }

  /**
   * A view counts once, for its campaign and its day, and completes the campaign exactly when it reaches the
   * target.
   */
  lemma ViewCounts(s: State, u: Party, id: nat, day: nat)
    requires RecordViewStep(s, u, id, true).Some?
    requires day * 86_400 <= s.now < (day + 1) * 86_400
    ensures id in s.campaigns && id in Next(s, RecordView(u, id, true)).campaigns
    ensures var s' := Next(s, RecordView(u, id, true)); var e, e' := s.campaigns[id], s'.campaigns[id];
            && e'.currentViews == e.currentViews + 1
            && e'.status == (if e'.currentViews == e.targetViews then Completed else Active)
            && GetOr(s'.dailyViews, (id, day), 0) == GetOr(s.dailyViews, (id, day), 0) + 1
            && forall d: nat | d != day :: GetOr(s'.dailyViews, (id, d), 0) == GetOr(s.dailyViews, (id, d), 0)
  {
    assert Day(s) == day;
  }

  /** The other calls for a campaign leave it active, paused, active again or cancelled, with its views as they were. */
  lemma StatusAfter(s: State, c: Call)
    requires (c.Create? || c.Pause? || c.Resume? || c.Cancel?) && Step(s, c).Some?
    ensures var s' := Next(s, c); var id := if c.Create? then s'.counter else c.id;
            && id in s'.campaigns
            && s'.campaigns[id].currentViews == (if c.Create? then 0 else s.campaigns[id].currentViews)
            && s'.campaigns[id].status == (if c.Pause? then Paused else if c.Cancel? then Cancelled else Active)
            && s'.dailyViews == s.dailyViews && (c.Cancel? ==> s'.campaigns[id].remaining <= 0)
  {
  }

  function FeeBy(admin: Party): Call -> Option<nat> {
    (c: Call) => if c.SetFee? && c.caller == admin && c.pct <= 10 then Some(c.pct) else None
  }

  lemma SettingsStep(s: State, c: Call, u: Party)
    ensures var s' := Next(s, c);
            && s'.admin == s.admin && s'.feePct == FeeBy(s.admin)(c).GetOr(s.feePct)
            && (u in s'.verified <==> u in s.verified || c == Verify(s.admin, u))
  {
  }

  /** On every run the fee is the last one of at most ten the administrator set; the publishers are those it named. */
  lemma {:induction false} SettingsAreAsNamed(s: State, calls: seq<Call>, u: Party)
    ensures var s' := Runs.Run(Next, s, calls);
            && s'.feePct == Runs.Last(calls, FeeBy(s.admin)).GetOr(s.feePct)
            && (u in s'.verified <==> u in s.verified || Verify(s.admin, u) in calls)
    decreases |calls|
  {
    if calls != [] {
      SettingsStep(s, calls[0], u);
      SettingsAreAsNamed(Next(s, calls[0]), calls[1..], u);
      assert calls == [calls[0]] + calls[1..];
    }
  }

  // ----- how tokens leave -----

  /** Tokens views pay, cancellations refund and creations charge, each read off the account of its party. */
  function ViewsPaid(s: State, c: Call): int {
    if c.RecordView? then Balance(Next(s, c).token, c.publisher) - Balance(s.token, c.publisher) else 0
  }

  function Refunded(s: State, c: Call): int {
    if c.Cancel? then Balance(Next(s, c).token, c.advertiser) - Balance(s.token, c.advertiser) else 0
  }

  function Charged(s: State, c: Call): int {
    if c.Create? then Balance(s.token, c.advertiser) - Balance(Next(s, c).token, c.advertiser) else 0
  }

  lemma FlowStep(s: State, c: Call)
    ensures Balance(Next(s, c).token, Contract)
         == Balance(s.token, Contract) + Charged(s, c) + Donation(s, c) - ViewsPaid(s, c) - Refunded(s, c)
  {
    if Step(s, c).Some? && !c.Outside? {
      PaymentsReachTheirParties(s, c, Contract);
      if c.RecordView? {
        PaymentsReachTheirParties(s, c, c.publisher);
      } else if c.Cancel? || c.Create? {
        PaymentsReachTheirParties(s, c, c.advertiser);
      }
    }
  }

  /** Over every run the tokens held change by charges and donations in, and by view payments and refunds out. */
  lemma {:induction false} FlowLaw(s: State, calls: seq<Call>)
    ensures Balance(Runs.Run(Next, s, calls).token, Contract)
         == Balance(s.token, Contract) + Runs.Collect(Next, Charged, s, calls) + Runs.Collect(Next, Donation, s, calls)
            - Runs.Collect(Next, ViewsPaid, s, calls) - Runs.Collect(Next, Refunded, s, calls)
    decreases |calls|
  {
    if calls != [] {
      FlowStep(s, calls[0]);
      FlowLaw(Next(s, calls[0]), calls[1..]);
    }
  }

  lemma FeesStep(s: State, c: Call)
    requires s.feePct <= 10
    ensures Next(s, c).totalFees >= s.totalFees
  {
    if c.Create? && Step(s, c).Some? {
      FeeIsAtMostATenth(c.budget, s.feePct);
    }
  }

  /** Fees once collected never leave: on every run the contract holds them beside all remaining budgets. */
  lemma {:induction false} FeesNeverLeave(s: State, calls: seq<Call>)
    requires Inv(s) && Surplus(s) >= 0
    ensures var s' := Runs.Run(Next, s, calls);
            s'.totalFees >= s.totalFees && Balance(s'.token, Contract) >= TotalRemaining(s') + s.totalFees
    decreases |calls|
  {
    if calls != [] {
      NextKeepsInv(s, calls[0]);
      SurplusStep(s, calls[0]);
      FeesStep(s, calls[0]);
      FeesNeverLeave(Next(s, calls[0]), calls[1..]);
    }
  }

  // ----- who may change what -----

  /** Through any run without calls of the administrator the fee and the verified publishers stay as they are. */
  lemma {:induction false} SettingsStayWithoutAdmin(s: State, calls: seq<Call>)
    requires forall c | c in calls :: (c.SetFee? || c.Verify?) ==> c.caller != s.admin
    ensures var s' := Runs.Run(Next, s, calls); s'.feePct == s.feePct && s'.verified == s.verified
    decreases |calls|
  {
    if calls != [] {
      var s' := Next(s, calls[0]);
      assert calls[0] in calls;
      assert s'.feePct == s.feePct && s'.verified == s.verified && s'.admin == s.admin;
      SettingsStayWithoutAdmin(s', calls[1..]);
    }
  }

  /** A publisher once verified stays so. */
  lemma {:induction false} PublishersStayVerified(s: State, calls: seq<Call>)
    ensures s.verified <= Runs.Run(Next, s, calls).verified
    decreases |calls|
  {
    if calls != [] {
      PublishersStayVerified(Next(s, calls[0]), calls[1..]);
    }
  }

  /** What a campaign keeps from its creation on. */
  ghost predicate SameTerms(e: Campaign, e': Campaign) {
    && e'.advertiser == e.advertiser && e'.budget == e.budget && e'.costPerView == e.costPerView
    && e'.endLedger == e.endLedger && e'.targetViews == e.targetViews && e'.dailyLimit == e.dailyLimit
    && e'.refundable == e.refundable && e'.fee == e.fee
  }

  lemma TermsStep(s: State, c: Call, id: nat)
    requires id in s.campaigns && id <= s.counter
    ensures id in Next(s, c).campaigns && SameTerms(s.campaigns[id], Next(s, c).campaigns[id])
  {
  }

  lemma {:induction false} TermsNeverChange(s: State, calls: seq<Call>, id: nat)
    requires Inv(s) && id in s.campaigns
    ensures var e := Runs.Run(Next, s, calls).campaigns; id in e && SameTerms(s.campaigns[id], e[id])
    decreases |calls|
  {
    if calls != [] {
      TermsStep(s, calls[0], id);
      NextKeepsInv(s, calls[0]);
      TermsNeverChange(Next(s, calls[0]), calls[1..], id);
    }
  }

  /** Call `i` of a run creates campaign `id` on the terms of `e`, with a budget and a duration in range. */
  ghost predicate CreatedAt(s: State, calls: seq<Call>, id: nat, e: Campaign, i: nat) {
    && i < |calls| && calls[i].Create?
    && var c, si := calls[i], Runs.Run(Next, s, calls[..i]);
       && c.kind == 1 && c.advertiser == e.advertiser && c.costPerView == e.costPerView
           && c.targetViews == e.targetViews
       && c.dailyLimit == e.dailyLimit && c.refundable == e.refundable
       && c.budget == e.budget >= MIN_BUDGET
       && MIN_DURATION <= c.duration <= MAX_DURATION && e.endLedger == si.ledger + c.duration
       && e.fee == Quot(c.budget * si.feePct, 100) && id == si.counter + 1
  }

  lemma CreationStep(s: State, c: Call, id: nat)
    requires id !in s.campaigns && id in Next(s, c).campaigns
    ensures CreatedAt(s, [c], id, Next(s, c).campaigns[id], 0)
  {
  }

  /**
   * Every campaign goes back to one call of the run: its advertiser's creation, with a budget and a duration in
   * range and the fee of that moment. No later call, of whoever, changes those terms.
   */
  lemma {:induction false} CampaignsKeepTheirTerms(s: State, calls: seq<Call>, id: nat)
    requires Inv(s) && id !in s.campaigns && id in Runs.Run(Next, s, calls).campaigns
    ensures exists i: nat :: CreatedAt(s, calls, id, Runs.Run(Next, s, calls).campaigns[id], i)
    decreases |calls|
  {
    var s', rest := Next(s, calls[0]), calls[1..];
    NextKeepsInv(s, calls[0]);
    var e := Runs.Run(Next, s, calls).campaigns[id];
    if id in s'.campaigns {
      CreationStep(s, calls[0], id);
      TermsNeverChange(s', rest, id);
      assert calls[..0] == [calls[0]][..0];
      assert CreatedAt(s, calls, id, e, 0);
    } else {
      CampaignsKeepTheirTerms(s', rest, id);
      var i: nat :| CreatedAt(s', rest, id, e, i);
      assert calls[..i + 1][1..] == rest[..i];
      assert CreatedAt(s, calls, id, e, i + 1);
    }
  }

  /** A campaign changes only by its advertiser, or by a validated view of a verified publisher. */
  lemma ChangesAreAuthorised(s: State, c: Call, id: nat)
    requires id in s.campaigns && id <= s.counter
    ensures id in Next(s, c).campaigns
    ensures Next(s, c).campaigns[id] != s.campaigns[id] ==>
              || ((c.Pause? || c.Resume? || c.Cancel?) && c.id == id && c.advertiser == s.campaigns[id].advertiser)
              || (c.RecordView? && c.id == id && c.validated && c.publisher in s.verified)
  {
  }

  /** A campaign stays as it is through any run without calls of its advertiser and without validated views of it. */
  lemma {:induction false} IdleCampaignStays(s: State, calls: seq<Call>, id: nat)
    requires Inv(s) && id in s.campaigns
    requires forall c | c in calls ::
               && ((c.Pause? || c.Resume? || c.Cancel?) && c.id == id ==> c.advertiser != s.campaigns[id].advertiser)
               && !(c.RecordView? && c.id == id && c.validated)
    ensures var e := Runs.Run(Next, s, calls).campaigns; id in e && e[id] == s.campaigns[id]
    decreases |calls|
  {
    if calls != [] {
      assert calls[0] in calls;
      ChangesAreAuthorised(s, calls[0], id);
      NextKeepsInv(s, calls[0]);
      IdleCampaignStays(Next(s, calls[0]), calls[1..], id);
    }
  }

  // ----- the contract itself -----

  class Orchestrator {
    var admin: Party
    var feePct: nat
    var counter: nat
    var totalFees: int
    var campaigns: map<nat, Campaign>
    var verified: set<Party>
    var dailyViews: map<(nat, nat), nat>
    var token: Ledger
    var now: nat
    var ledger: nat

    function Snapshot(): State
      reads this
    {
      State(admin, feePct, counter, totalFees, campaigns, verified, dailyViews, token, now, ledger)
    }

    constructor (admin: Party, token: Ledger, now: nat, ledger: nat)
      ensures Snapshot() == Init(admin, token, now, ledger)
    {
      this.admin, this.feePct, this.counter, this.totalFees := admin, 2, 0, 0;
      this.campaigns, this.verified, this.dailyViews := map[], {}, map[];
      this.token, this.now, this.ledger := token, now, ledger;
    }

    method CreateCampaign(advertiser: Party, kind: nat, budget: int, costPerView: int, duration: nat, targetViews: nat,
                          dailyLimit: nat, refundable: bool)
      returns (id: Option<nat>)
      modifies this
      ensures Snapshot() == Next(old(Snapshot()),
                                 Create(advertiser, kind, budget, costPerView, duration, targetViews, dailyLimit,
                                        refundable))
      ensures id == if Step(old(Snapshot()),
                            Create(advertiser, kind, budget, costPerView, duration, targetViews, dailyLimit,
                                   refundable)).Some?
                    then Some(old(counter) + 1) else None
    {
      if kind != 1 {
        return None;
      }
      :- Require(budget >= MIN_BUDGET);
      :- Require(!(duration < MIN_DURATION || duration > MAX_DURATION));
      var campaignId := counter + 1;
      var fee := Quot(budget * feePct, 100);
      var moved :- Transfer(token, advertiser, Contract, budget + fee);
      token := moved;
      var end := ledger + duration;
      campaigns := campaigns[campaignId :=
                             Campaign(advertiser, budget, budget, costPerView, end, Active, targetViews, 0, dailyLimit,
                                      refundable, fee)];
      counter := campaignId;
      totalFees := totalFees + fee;
      return Some(campaignId);
    }

    method View(publisher: Party, id: nat, validated: bool) returns (done: Option<()>)
      modifies this
      ensures Snapshot() == Next(old(Snapshot()), RecordView(publisher, id, validated))
      ensures done.Some? <==> RecordViewStep(old(Snapshot()), publisher, id, validated).Some?
    {
      if !validated {
        return None;
      }
      var campaign :- Lookup(campaigns, id);
      :- Require(publisher in verified);
      :- Require(campaign.status == Active);
      :- Require(!(campaign.currentViews >= campaign.targetViews));
      :- Require(!(ledger > campaign.endLedger));
      :- Require(!(campaign.remaining < campaign.costPerView));
      var day := now / SECONDS_A_DAY;
      var views := GetOr(dailyViews, (id, day), 0);
      :- Require(!(views >= campaign.dailyLimit));
      var sent :- Transfer(token, Contract, publisher, campaign.costPerView);
      token := sent;
      campaign := campaign.(remaining := campaign.remaining - campaign.costPerView);
      campaign := campaign.(currentViews := campaign.currentViews + 1);
      if campaign.currentViews >= campaign.targetViews {
        campaign := campaign.(status := Completed);
      }
      campaigns := campaigns[id := campaign];
      dailyViews := dailyViews[(id, day) := views + 1];
      assert RecordViewStep(old(Snapshot()), publisher, id, validated) == Some(Snapshot());
      return Some(());
    }

    method PauseCampaign(advertiser: Party, id: nat) returns (done: Option<()>)
      modifies this
      ensures Snapshot() == Next(old(Snapshot()), Pause(advertiser, id))
      ensures done.Some? <==> Step(old(Snapshot()), Pause(advertiser, id)).Some?
    {
      var campaign :- Lookup(campaigns, id);
      :- Require(campaign.advertiser == advertiser);
      campaign := campaign.(status := Paused);
      campaigns := campaigns[id := campaign];
      return Some(());
    }

    method ResumeCampaign(advertiser: Party, id: nat) returns (done: Option<()>)
      modifies this
      ensures Snapshot() == Next(old(Snapshot()), Resume(advertiser, id))
      ensures done.Some? <==> Step(old(Snapshot()), Resume(advertiser, id)).Some?
    {
      var campaign :- Lookup(campaigns, id);
      :- Require(campaign.advertiser == advertiser);
      campaign := campaign.(status := Active);
      campaigns := campaigns[id := campaign];
      return Some(());
    }

    method CancelCampaign(advertiser: Party, id: nat) returns (done: Option<()>)
      modifies this
      ensures Snapshot() == Next(old(Snapshot()), Cancel(advertiser, id))
      ensures done.Some? <==> Step(old(Snapshot()), Cancel(advertiser, id)).Some?
    {
      var before := campaigns;
      var campaign :- Lookup(campaigns, id);
      :- Require(campaign.advertiser == advertiser);
      :- Require(campaign.refundable);
      var refund := campaign.remaining;
      campaign := campaign.(remaining := 0);
      campaign := campaign.(status := Cancelled);
      campaigns := campaigns[id := campaign];
      if refund > 0 {
        var sent := Transfer(token, Contract, advertiser, refund);
        if sent.None? {
          campaigns := before;  // the panic undoes the write
          return None;
        }
        token := sent.value;
      }
      return Some(());
    }

    method SetPlatformFee(caller: Party, pct: nat) returns (done: Option<()>)
      modifies this
      ensures Snapshot() == Next(old(Snapshot()), SetFee(caller, pct))
      ensures done.Some? <==> Step(old(Snapshot()), SetFee(caller, pct)).Some?
    {
      if caller != admin {
        return None;
      }
      :- Require(pct <= 10);
      feePct := pct;
      return Some(());
    }

    method VerifyPublisher(caller: Party, publisher: Party) returns (done: Option<()>)
      modifies this
      ensures Snapshot() == Next(old(Snapshot()), Verify(caller, publisher))
      ensures done.Some? <==> caller == old(admin)
    {
      if caller != admin {
        return None;
      }
      verified := verified + {publisher};
      return Some(());
    }
  }
}

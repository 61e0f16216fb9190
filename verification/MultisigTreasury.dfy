/** The multisig treasury: a changing signer list, approval counters, and payments made at most once. */
module MultisigTreasury {
  import opened Chain
  import Runs

  datatype Status = Pending | Approved | Executed | Rejected | Expired

  datatype Tx = Tx(
    proposer: Party, recipient: Address, asset: nat, amount: int, status: Status,
    approvals: nat, rejections: nat, needed: nat, expiresAt: nat)

  /** Transactions may name different tokens: `tokens` holds one ledger per token contract. */
  datatype State = State(
    admin: Party, signers: seq<Party>, required: nat, counter: nat, txs: map<nat, Tx>,
    approvals: set<(nat, Party)>, tokens: map<nat, Ledger>, now: nat)

  datatype Call =
    | Propose(proposer: Party, recipient: Address, asset: nat, amount: int, expiresIn: nat)
    | Approve(signer: Party, id: nat)
    | Execute(caller: Party, id: nat)
    | Reject(signer: Party, id: nat)
    | AddSigner(caller: Party, signer: Party)
    | RemoveSigner(caller: Party, signer: Party)
    | Tick(seconds: nat)
    | TokenMoves(asset: nat, ledger: Ledger)  // anything may happen to a token between calls

  function Initialize(admin: Party, signers: seq<Party>, required: nat, tokens: map<nat, Ledger>,
                      now: nat): Option<State> {
    if required == 0 || required > |signers| then None else
    Some(State(admin, signers, required, 0, map[], {}, tokens, now))
  }

  // ----- what each entry point does -----

  function ProposeStep(s: State, c: Call): Option<State>
    requires c.Propose?
  {
    if c.proposer !in s.signers then None else
    :- Require(c.amount > 0);
    var id := s.counter + 1;
    var tx := Tx(c.proposer, c.recipient, c.asset, c.amount, Pending, 0, 0, s.required, s.now + c.expiresIn);
    Some(s.(counter := id, txs := s.txs[id := tx]))
  }

  function ApproveStep(s: State, signer: Party, id: nat): Option<State> {
    if signer !in s.signers then None else
    :- Require((id, signer) !in s.approvals);
    var tx :- Lookup(s.txs, id);
    :- Require(tx.status == Pending);
    :- Require(s.now <= tx.expiresAt);
    var count := tx.approvals + 1;
    var tx' := tx.(approvals := count, status := if count >= tx.needed then Approved else Pending);
    Some(s.(txs := s.txs[id := tx'], approvals := s.approvals + {(id, signer)}))
  }

  function ExecuteStep(s: State, caller: Party, id: nat): Option<State> {
    if caller !in s.signers then None else
    var tx :- Lookup(s.txs, id);
    :- Require(tx.status == Approved);
    var ledger :- Transfer(GetOr(s.tokens, tx.asset, map[]), Contract, tx.recipient, tx.amount);
    Some(s.(txs := s.txs[id := tx.(status := Executed)], tokens := s.tokens[tx.asset := ledger]))
  }

  function RejectStep(s: State, signer: Party, id: nat): Option<State> {
    if signer !in s.signers then None else
    var tx :- Lookup(s.txs, id);
    :- Require(tx.status == Pending);
    var count := tx.rejections + 1;
    :- Require(count <= |s.signers|);  // otherwise the unsigned subtraction underflows
    var tx' := tx.(rejections := count, status := if |s.signers| - count < s.required then Rejected else Pending);
    Some(s.(txs := s.txs[id := tx']))
  }

  /** The list without any copy of `x`. */
  function Drop(signers: seq<Party>, x: Party): seq<Party> {
    if signers == [] then []
    else
      var front := Drop(signers[..|signers| - 1], x);
      var last := signers[|signers| - 1];
      if last != x then front + [last] else front
  }

  function Step(s: State, c: Call): Option<State> {
    match c
    case Propose(_, _, _, _, _) => ProposeStep(s, c)
    case Approve(signer, id) => ApproveStep(s, signer, id)
    case Execute(caller, id) => ExecuteStep(s, caller, id)
    case Reject(signer, id) => RejectStep(s, signer, id)
    case AddSigner(caller, signer) =>
      :- Require(caller == s.admin);
      :- Require(signer !in s.signers);
      Some(s.(signers := s.signers + [signer]))
    case RemoveSigner(caller, signer) =>
      :- Require(caller == s.admin);
      :- Require(signer in s.signers);
      :- Require(|s.signers| - 1 >= s.required);
      Some(s.(signers := Drop(s.signers, signer)))
    case Tick(seconds) => Some(s.(now := s.now + seconds))
    case TokenMoves(asset, ledger) => Some(s.(tokens := s.tokens[asset := ledger]))
  }

  function Next(s: State, c: Call): State {
    Step(s, c).GetOr(s)
  }

  // ----- the signer list -----

  ghost predicate Distinct(signers: seq<Party>) {
    forall i, j | 0 <= i < j < |signers| :: signers[i] != signers[j]
  }

  /** Dropping a signer removes every copy of it and nothing else, in order. */
  lemma {:induction false} DropRemovesEveryCopy(signers: seq<Party>, x: Party)
    ensures multiset(Drop(signers, x)) == multiset(signers)[x := 0]
    ensures |Drop(signers, x)| == |signers| - multiset(signers)[x]
    ensures Distinct(signers) ==> Distinct(Drop(signers, x))
  {
    if signers != [] {
      var front, last := signers[..|signers| - 1], signers[|signers| - 1];
      assert signers == front + [last];
      DropRemovesEveryCopy(front, x);
      if Distinct(signers) && last != x {
        assert last !in front;
        assert multiset(Drop(front, x))[last] == multiset(front)[last] == 0;
        assert last !in Drop(front, x);
      }
    }
  }

  lemma {:induction false} DistinctCountsOnce(signers: seq<Party>, x: Party)
    requires Distinct(signers)
    ensures multiset(signers)[x] == if x in signers then 1 else 0
  {
    if signers != [] {
      var front, last := signers[..|signers| - 1], signers[|signers| - 1];
      assert signers == front + [last];
      assert last !in front;
      DistinctCountsOnce(front, x);
    }
  }

  /**
   * A removal that passes the contract's check leaves enough signers exactly when no more than
   * length - required copies of the signer were on the list: always so when signers are distinct.
   */
  lemma RemovalKeepsThreshold(s: State, signer: Party)
    requires Step(s, RemoveSigner(s.admin, signer)).Some?
    ensures var s' := Next(s, RemoveSigner(s.admin, signer));
            |s'.signers| < |s.signers|
            && (|s'.signers| >= s.required <==> multiset(s.signers)[signer] <= |s.signers| - s.required)
            && (Distinct(s.signers) ==> |s'.signers| >= s.required && Distinct(s'.signers))
  {
    DropRemovesEveryCopy(s.signers, signer);
    if Distinct(s.signers) {
      DistinctCountsOnce(s.signers, signer);
    }
  }

  /** A list that repeats a signer: the contract accepts it, and one removal leaves fewer signers than required. */
  lemma RepeatedSignerBreaksThreshold(admin: Party, a: Party, b: Party, tokens: map<nat, Ledger>, now: nat)
    requires a != b
    ensures var s := Initialize(admin, [a, a, b], 2, tokens, now);
            s.Some? && var s' := Runs.Run(Next, s.value, [RemoveSigner(admin, a)]);
            s'.signers == [b] && s'.required == 2
  {
    var s := Initialize(admin, [a, a, b], 2, tokens, now).value;
    var c := RemoveSigner(admin, a);
    assert Drop([a], a) == [] by { assert [a][..0] == []; }
    assert Drop([a, a], a) == [] by { assert [a, a][..1] == [a]; }
    assert Drop([a, a, b], a) == [b] by { assert [a, a, b][..2] == [a, a]; }
    assert Runs.Run(Next, s, [c]) == Next(s, c);
  }

  // ----- the inductive invariant -----

  ghost function Approvers(s: State, id: nat): set<Party> {
    set p | p in s.approvals && p.0 == id :: p.1
  }

  ghost predicate GoodTx(s: State, id: nat)
    requires id in s.txs
  {
    var tx := s.txs[id];
    && 1 <= id <= s.counter && tx.amount > 0
    && tx.approvals == |Approvers(s, id)| <= tx.needed
    && tx.needed >= 1
    && tx.status != Expired
    && (tx.status == Approved || tx.status == Executed <==> tx.approvals == tx.needed)
  }

  ghost predicate Inv(s: State) {
    && Distinct(s.signers)
    && 1 <= s.required <= |s.signers|
    && (forall p | p in s.approvals :: p.0 in s.txs)
    && (forall id | id in s.txs :: GoodTx(s, id))
  }

  lemma InitializeEstablishesInv(admin: Party, signers: seq<Party>, required: nat, tokens: map<nat, Ledger>, now: nat)
    requires Distinct(signers)
    ensures var s := Initialize(admin, signers, required, tokens, now);
            (s.Some? <==> 1 <= required <= |signers|) && (s.Some? ==> Inv(s.value))
  {
  }

  lemma ProposeKeepsInv(s: State, c: Call)
    requires Inv(s) && c.Propose? && Step(s, c).Some?
    ensures Inv(Next(s, c))
  {
    var s' := Next(s, c);
    assert Approvers(s', s'.counter) == {};
    forall id | id in s.txs ensures GoodTx(s', id) {
      assert GoodTx(s, id);
      assert Approvers(s', id) == Approvers(s, id);
    }
  }

  lemma ApproveKeepsInv(s: State, signer: Party, id: nat)
    requires Inv(s) && ApproveStep(s, signer, id).Some?
    ensures Inv(ApproveStep(s, signer, id).value)
  {
    var s' := ApproveStep(s, signer, id).value;
    assert GoodTx(s, id);
    assert Approvers(s', id) == Approvers(s, id) + {signer};
    forall k | k in s.txs && k != id ensures GoodTx(s', k) {
      assert GoodTx(s, k);
      assert forall p | p in s'.approvals && p.0 == k :: p in s.approvals;
      assert Approvers(s', k) == Approvers(s, k);
    }
  }

  /** The calls that leave the approvals alone. */
  lemma OthersKeepInv(s: State, c: Call)
    requires Inv(s) && !c.Propose? && !c.Approve? && Step(s, c).Some?
    ensures Inv(Next(s, c))
  {
    var s' := Next(s, c);
    if c.RemoveSigner? {
      RemovalKeepsThreshold(s, c.signer);
    }
    forall id | id in s'.txs ensures GoodTx(s', id) {
      assert GoodTx(s, id);
      assert Approvers(s', id) == Approvers(s, id);
    }
  }

  lemma NextKeepsInv(s: State, c: Call)
    requires Inv(s)
    ensures Inv(Next(s, c))
  {
    if Step(s, c).Some? {
      match c
      case Propose(_, _, _, _, _) => ProposeKeepsInv(s, c);
      case Approve(signer, id) => ApproveKeepsInv(s, signer, id);
      case _ => OthersKeepInv(s, c);
    }
  }

  /**
   * Starting from distinct signers, on every run: the list stays free of duplicates and at least as long as
   * required; the counter of a transaction is the number of distinct approvers; approved or executed means
   * exactly as many as needed; no transaction is ever marked expired.
   */
  lemma {:induction false} RunKeepsInv(s: State, calls: seq<Call>)
    requires Inv(s)
    ensures Inv(Runs.Run(Next, s, calls))
    decreases |calls|
  {
    if calls != [] {
      NextKeepsInv(s, calls[0]);
      RunKeepsInv(Next(s, calls[0]), calls[1..]);
    }
  }

  ghost predicate AsksForRequired(s: State) {
    forall id | id in s.txs :: 1 <= id <= s.counter && s.txs[id].needed == s.required
  }

  lemma RequiredStep(s: State, c: Call)
    requires AsksForRequired(s)
    ensures AsksForRequired(Next(s, c)) && Next(s, c).required == s.required
  {
  }

  /** On every run the requirement stays as it was set, and every transaction asks for exactly that many approvals. */
  lemma {:induction false} RunAsksForRequired(s: State, calls: seq<Call>)
    requires AsksForRequired(s)
    ensures AsksForRequired(Runs.Run(Next, s, calls)) && Runs.Run(Next, s, calls).required == s.required
    decreases |calls|
  {
    if calls != [] {
      RequiredStep(s, calls[0]);
      RunAsksForRequired(Next(s, calls[0]), calls[1..]);
    }
  }

  /**
   * From any distinct list of signers the contract accepts, on every run: approved or executed means exactly as many
   * distinct approvers as the initialisation required.
   */
  lemma ApprovedMeansEnoughApprovers(admin: Party, signers: seq<Party>, required: nat, tokens: map<nat, Ledger>,
                                     now: nat, calls: seq<Call>, id: nat)
    requires Distinct(signers) && 1 <= required <= |signers|
    ensures
      var s := Runs.Run(Next, Initialize(admin, signers, required, tokens, now).value, calls);
      && Inv(s) && Distinct(s.signers) && s.required == required <= |s.signers|
      && (id in s.txs ==>
            var tx := s.txs[id];
            && tx.status != Expired
            && (tx.status == Approved || tx.status == Executed <==> |Approvers(s, id)| == required)
            && |Approvers(s, id)| <= required == tx.needed)
  {
    var s0 := Initialize(admin, signers, required, tokens, now).value;
    InitializeEstablishesInv(admin, signers, required, tokens, now);
    RunKeepsInv(s0, calls);
    RunAsksForRequired(s0, calls);
    var s := Runs.Run(Next, s0, calls);
    if id in s.txs {
      assert GoodTx(s, id);
    }
  }

  lemma ApprovalStep(s: State, c: Call)
    ensures s.approvals <= Next(s, c).approvals
    ensures forall p | p in Next(s, c).approvals && p !in s.approvals :: p.1 in s.signers && c == Approve(p.1, p.0)
  {
  }

  /** No approval is ever withdrawn. */
  lemma {:induction false} ApprovalsAreFinal(s: State, calls: seq<Call>)
    ensures s.approvals <= Runs.Run(Next, s, calls).approvals
    decreases |calls|
  {
    if calls != [] {
      ApprovalStep(s, calls[0]);
      ApprovalsAreFinal(Next(s, calls[0]), calls[1..]);
    }
  }

  /** Call `i` of a run is `u`'s approval of the pending transaction `id` in time, made while `u` was a signer. */
  ghost predicate ApprovedAt(s: State, calls: seq<Call>, id: nat, u: Party, i: nat) {
    && i < |calls| && calls[i] == Approve(u, id)
    && var si := Runs.Run(Next, s, calls[..i]);
       u in si.signers && id in si.txs && si.txs[id].status == Pending && si.now <= si.txs[id].expiresAt
  }

  /** Every approval on record was given in the run, by a signer of that moment, on a transaction then pending. */
  lemma {:induction false} ApprovalsComeFromSigners(s: State, calls: seq<Call>, id: nat, u: Party)
    requires (id, u) !in s.approvals && (id, u) in Runs.Run(Next, s, calls).approvals
    ensures exists i: nat :: ApprovedAt(s, calls, id, u, i)
    decreases |calls|
  {
    var s', rest := Next(s, calls[0]), calls[1..];
    if (id, u) in s'.approvals {
      ApprovalStep(s, calls[0]);
      assert calls[..0] == [];
      assert ApprovedAt(s, calls, id, u, 0);
    } else {
      ApprovalsComeFromSigners(s', rest, id, u);
      var i: nat :| ApprovedAt(s', rest, id, u, i);
      assert calls[..i + 1][1..] == rest[..i];
      assert ApprovedAt(s, calls, id, u, i + 1);
    }
  }

  // ----- rejections -----

  function Repeat(c: Call, n: nat): seq<Call> {
    if n == 0 then [] else [c] + Repeat(c, n - 1)
  }

  lemma RejectStepCounts(s: State, u: Party, id: nat)
    requires u in s.signers && id in s.txs && s.txs[id].status == Pending
    ensures var s', r := Next(s, Reject(u, id)), s.txs[id].rejections + 1;
            s' == if r > |s.signers| then s
                  else s.(txs := s.txs[id := s.txs[id].(rejections := r,
                            status := if r > |s.signers| - s.required then Rejected else Pending)])
  {
  }

  lemma {:induction false} RejectedStays(s: State, u: Party, id: nat, n: nat)
    requires id in s.txs && s.txs[id].status == Rejected
    ensures Runs.Run(Next, s, Repeat(Reject(u, id), n)) == s
    decreases n
  {
    if n > 0 {
      assert Next(s, Reject(u, id)) == s;
      assert Repeat(Reject(u, id), n)[1..] == Repeat(Reject(u, id), n - 1);
      RejectedStays(s, u, id, n - 1);
    }
  }

  /**
   * Approvals are counted by distinct signer, rejections by call: one signer that keeps rejecting a pending transaction
   * has it rejected with exactly the call that lifts the count above signers - required; unless removals have left
   * fewer signers than rejections already counted, when every further rejection panics.
   */
  lemma {:induction false} OneSignerCanReject(s: State, u: Party, id: nat, n: nat)
    requires u in s.signers && id in s.txs && s.required >= 1 && s.txs[id].status == Pending
    ensures var s', r := Runs.Run(Next, s, Repeat(Reject(u, id), n)), s.txs[id].rejections;
            && id in s'.txs && (s'.txs[id].status == Pending || s'.txs[id].status == Rejected)
            && (s'.txs[id].status == Rejected <==> n > 0 && r < |s.signers| && r + n > |s.signers| - s.required)
    decreases n
  {
    if n > 0 {
      var c := Reject(u, id);
      assert Repeat(c, n)[1..] == Repeat(c, n - 1);
      RejectStepCounts(s, u, id);
      if Next(s, c).txs[id].status == Rejected {
        RejectedStays(Next(s, c), u, id, n - 1);
      } else {
        OneSignerCanReject(Next(s, c), u, id, n - 1);
      }
    }
  }

  /** With three signers and two required, one signer rejects a new proposal by calling twice. */
  lemma OneOfThreeRejects(admin: Party, u: Party, v: Party, w: Party, tokens: map<nat, Ledger>, now: nat, c: Call)
    requires c.Propose? && c.amount > 0 && c.proposer in [u, v, w]
    ensures var s := Next(Initialize(admin, [u, v, w], 2, tokens, now).value, c);
            1 in s.txs && s.txs[1].status == Pending
            && var s' := Runs.Run(Next, s, Repeat(Reject(u, 1), 2)); 1 in s'.txs && s'.txs[1].status == Rejected
  {
    OneSignerCanReject(Next(Initialize(admin, [u, v, w], 2, tokens, now).value, c), u, 1, 2);
  }

  // ----- payments -----

  function IsExecuted(s: State, id: nat): int {
    if id in s.txs && s.txs[id].status == Executed then 1 else 0
  }

  /** Counts the calls that pay transaction `id`. */
  function Payment(id: nat): (State, Call) -> int {
    (s: State, c: Call) => if c.Execute? && c.id == id && Step(s, c).Some? then 1 else 0
  }

  lemma PaymentStep(s: State, c: Call, id: nat)
    requires Inv(s)
    ensures IsExecuted(Next(s, c), id) == IsExecuted(s, id) + Payment(id)(s, c)
  {
  }

  /** Each transaction pays at most once, and has paid exactly when it is marked executed. */
  lemma {:induction false} PaidAtMostOnce(s: State, calls: seq<Call>, id: nat)
    requires Inv(s)
    ensures IsExecuted(s, id) + Runs.Collect(Next, Payment(id), s, calls)
              == IsExecuted(Runs.Run(Next, s, calls), id) <= 1
    decreases |calls|
  {
    if calls != [] {
      NextKeepsInv(s, calls[0]);
      PaymentStep(s, calls[0], id);
      PaidAtMostOnce(Next(s, calls[0]), calls[1..], id);
    }
  }

  /** What a payment moves, in every token and account, and the approvals it has: as many as its proposal asked for. */
  lemma PaymentIsApproved(s: State, caller: Party, id: nat, asset: nat, a: Address)
    requires Inv(s) && ExecuteStep(s, caller, id).Some?
    ensures id in s.txs && |Approvers(s, id)| == s.txs[id].needed
    ensures var tx, s' := s.txs[id], Next(s, Execute(caller, id));
            var moved := if asset == tx.asset then tx.amount else 0;
            Balance(GetOr(s'.tokens, asset, map[]), a)
            == Balance(GetOr(s.tokens, asset, map[]), a) + Credit(a, tx.recipient, moved) - Credit(a, Contract, moved)
  {
    assert GoodTx(s, id);
  }

  /** From initialisation on, whatever ran before, a payment has exactly the required number of distinct approvals. */
  lemma PaidOnRequiredApprovals(admin: Party, signers: seq<Party>, required: nat, tokens: map<nat, Ledger>, now: nat,
                                calls: seq<Call>, caller: Party, id: nat)
    requires Distinct(signers) && 1 <= required <= |signers|
    ensures
      var s := Runs.Run(Next, Initialize(admin, signers, required, tokens, now).value, calls);
      ExecuteStep(s, caller, id).Some? ==> id in s.txs && caller in s.signers && |Approvers(s, id)| == required
  {
    ApprovedMeansEnoughApprovers(admin, signers, required, tokens, now, calls, id);
  }

  // ----- where transactions come from -----

  /** What a transaction keeps from its proposal on. */
  ghost predicate SameTerms(tx: Tx, tx': Tx) {
    && tx'.proposer == tx.proposer && tx'.recipient == tx.recipient && tx'.asset == tx.asset
    && tx'.amount == tx.amount && tx'.needed == tx.needed && tx'.expiresAt == tx.expiresAt
  }

  lemma TermsStep(s: State, c: Call, id: nat)
    requires id in s.txs && id <= s.counter
    ensures id in Next(s, c).txs && SameTerms(s.txs[id], Next(s, c).txs[id])
  {
  }

  lemma {:induction false} TermsNeverChange(s: State, calls: seq<Call>, id: nat)
    requires Inv(s) && id in s.txs
    ensures var txs := Runs.Run(Next, s, calls).txs; id in txs && SameTerms(s.txs[id], txs[id])
    decreases |calls|
  {
    assert GoodTx(s, id);
    if calls != [] {
      TermsStep(s, calls[0], id);
      NextKeepsInv(s, calls[0]);
      TermsNeverChange(Next(s, calls[0]), calls[1..], id);
    }
  }

  /** Call `i` of a run proposes transaction `id` on the terms of `tx`, by a signer of that moment. */
  ghost predicate ProposedAt(s: State, calls: seq<Call>, id: nat, tx: Tx, i: nat) {
    && i < |calls| && calls[i].Propose?
    && var c, si := calls[i], Runs.Run(Next, s, calls[..i]);
       && id == si.counter + 1 && c.proposer in si.signers
       && tx.proposer == c.proposer && tx.recipient == c.recipient && tx.asset == c.asset && tx.amount == c.amount > 0
       && tx.needed == si.required && tx.expiresAt == si.now + c.expiresIn
  }

  lemma ProposalStep(s: State, c: Call, id: nat)
    requires id !in s.txs && id in Next(s, c).txs
    ensures ProposedAt(s, [c], id, Next(s, c).txs[id], 0)
    ensures var tx := Next(s, c).txs[id]; tx.status == Pending && tx.approvals == tx.rejections == 0
  {
    assert [c][..0] == [];
  }

  /** Every transaction on record after a run was proposed in it, by a signer, and no call changed its terms since. */
  lemma {:induction false} TransactionsKeepTheirTerms(s: State, calls: seq<Call>, id: nat)
    requires Inv(s) && id !in s.txs && id in Runs.Run(Next, s, calls).txs
    ensures exists i: nat :: ProposedAt(s, calls, id, Runs.Run(Next, s, calls).txs[id], i)
    decreases |calls|
  {
    var s', rest := Next(s, calls[0]), calls[1..];
    var tx := Runs.Run(Next, s, calls).txs[id];
    NextKeepsInv(s, calls[0]);
    if id in s'.txs {
      ProposalStep(s, calls[0], id);
      TermsNeverChange(s', rest, id);
      assert calls[..0] == [calls[0]][..0];
      assert ProposedAt(s, calls, id, tx, 0);
    } else {
      TransactionsKeepTheirTerms(s', rest, id);
      var i: nat :| ProposedAt(s', rest, id, tx, i);
      assert calls[..i + 1][1..] == rest[..i];
      assert ProposedAt(s, calls, id, tx, i + 1);
    }
  }

  // ----- when calls succeed, and what they leave -----

  /** Exactly when each call succeeds. */
  lemma CallsSucceedIff(s: State, c: Call)
    requires Inv(s)
    ensures Step(s, c).Some? <==>
              match c
              case Propose(u, _, _, x, _) => u in s.signers && x > 0
              case Approve(u, id) =>
                && u in s.signers && id in s.txs && u !in Approvers(s, id)
                && |Approvers(s, id)| < s.txs[id].needed && s.txs[id].status != Rejected && s.now <= s.txs[id].expiresAt
              case Execute(u, id) =>
                && u in s.signers && id in s.txs && s.txs[id].status == Approved
                && s.txs[id].amount <= Balance(GetOr(s.tokens, s.txs[id].asset, map[]), Contract)
              case Reject(u, id) =>
                && u in s.signers && id in s.txs && s.txs[id].status == Pending && s.txs[id].rejections < |s.signers|
              case AddSigner(u, x) => u == s.admin && x !in s.signers
              case RemoveSigner(u, x) => u == s.admin && x in s.signers && |s.signers| > s.required
              case Tick(_) => true
              case TokenMoves(_, _) => true
  {
    if c.Approve? || c.Execute? || c.Reject? {
      if c.id in s.txs {
        assert GoodTx(s, c.id);
      }
    }
    if c.Approve? {
      assert c.signer in Approvers(s, c.id) <==> (c.id, c.signer) in s.approvals;
    }
  }

  /** An added signer is appended; a removed one leaves every other in place. */
  lemma SignersAfterChange(s: State, c: Call)
    requires Step(s, c).Some?
    ensures c.AddSigner? ==> Next(s, c).signers == s.signers + [c.signer]
    ensures c.RemoveSigner? ==> multiset(Next(s, c).signers) == multiset(s.signers)[c.signer := 0]
  {
    if c.RemoveSigner? {
      DropRemovesEveryCopy(s.signers, c.signer);
    }
  }

  /** One approval more; and a payment marks its transaction executed. */
  lemma ApprovalAndPaymentLeave(s: State, c: Call)
    requires Inv(s) && (c.Approve? || c.Execute?) && Step(s, c).Some?
    ensures c.id in Next(s, c).txs
    ensures c.Approve? ==>
              && Approvers(Next(s, c), c.id) == Approvers(s, c.id) + {c.signer}
              && Next(s, c).txs[c.id].status
                 == (if |Approvers(s, c.id)| + 1 == s.txs[c.id].needed then Approved else Pending)
    ensures c.Execute? ==> Next(s, c).txs[c.id].status == Executed
  {
    var s' := Next(s, c);
    assert GoodTx(s, c.id);
    if c.Approve? {
      forall u: Party ensures u in Approvers(s', c.id) <==> u in Approvers(s, c.id) || u == c.signer {
        assert (c.id, u) in s'.approvals <==> (c.id, u) in s.approvals || u == c.signer;
      }
    }
  }

  // ----- after the approval -----

  lemma ApprovedStep(s: State, c: Call, id: nat)
    requires id in s.txs && id <= s.counter && s.txs[id].status == Approved && !(c.Execute? && c.id == id)
    ensures id in Next(s, c).txs && Next(s, c).txs[id] == s.txs[id]
  {
  }

  /**
   * An approval does not expire and cannot be undone: through every run without an execution of it an approved
   * transaction stays as it is, and at the end any signer's execution succeeds exactly when the treasury holds the
   * amount, however long `expiresAt` is past.
   */
  lemma {:induction false} ApprovedStaysPayable(s: State, calls: seq<Call>, id: nat, caller: Party)
    requires Inv(s) && id in s.txs && s.txs[id].status == Approved
    requires forall c | c in calls :: !(c.Execute? && c.id == id)
    ensures var s', tx := Runs.Run(Next, s, calls), s.txs[id];
            && id in s'.txs && s'.txs[id] == tx
            && (ExecuteStep(s', caller, id).Some? <==>
                  caller in s'.signers && tx.amount <= Balance(GetOr(s'.tokens, tx.asset, map[]), Contract))
    decreases |calls|
  {
    assert GoodTx(s, id);
    if calls != [] {
      assert calls[0] in calls;
      NextKeepsInv(s, calls[0]);
      ApprovedStep(s, calls[0], id);
      ApprovedStaysPayable(Next(s, calls[0]), calls[1..], id, caller);
    }
  }

  // ----- who may change what -----

  /** Only the administrator changes the signers, one at a time, and only signers move a transaction. */
  lemma ChangesAreAuthorised(s: State, c: Call)
    ensures var s' := Next(s, c);
            && (s'.signers != s.signers ==> (c.AddSigner? || c.RemoveSigner?) && c.caller == s.admin)
            && (c.AddSigner? && s'.signers != s.signers ==>
                s'.signers == s.signers + [c.signer] && c.signer !in s.signers)
            && (s'.counter != s.counter ==> c.Propose? && c.proposer in s.signers)
            && (s'.approvals != s.approvals ==> c.Approve? && c.signer in s.signers && s.now <= s.txs[c.id].expiresAt)
            && (forall id | id in s.txs && id <= s.counter && s'.txs[id] != s.txs[id] ::
                  match c
                  case Approve(signer, k) => k == id && signer in s.signers
                  case Reject(signer, k) => k == id && signer in s.signers && s'.txs[id].rejections <= |s.signers|
                  case Execute(caller, k) => k == id && caller in s.signers
                  case _ => false)
  {
  }

  /** Through any run without calls of the administrator the signers and the requirement stay as they are. */
  lemma {:induction false} SignersStayWithoutAdmin(s: State, calls: seq<Call>)
    requires forall c | c in calls :: (c.AddSigner? || c.RemoveSigner?) ==> c.caller != s.admin
    ensures var s' := Runs.Run(Next, s, calls); s'.signers == s.signers && s'.required == s.required
    decreases |calls|
  {
    if calls != [] {
      assert calls[0] in calls;
      ChangesAreAuthorised(s, calls[0]);
      SignersStayWithoutAdmin(Next(s, calls[0]), calls[1..]);
    }
  }

  /** Calls by others than the signers and the administrator; anyone may propose, time and tokens may move. */
  predicate Stranger(admin: Party, signers: seq<Party>, c: Call) {
    match c
    case Approve(u, _) => u !in signers
    case Reject(u, _) => u !in signers
    case Execute(u, _) => u !in signers
    case AddSigner(u, _) => u != admin
    case RemoveSigner(u, _) => u != admin
    case _ => true
  }

  lemma StrangerStep(s: State, c: Call, id: nat)
    requires Inv(s) && id in s.txs && Stranger(s.admin, s.signers, c)
    ensures var s' := Next(s, c);
            id in s'.txs && s'.txs[id] == s.txs[id] && s'.signers == s.signers && s'.admin == s.admin
  {
    ChangesAreAuthorised(s, c);
    assert GoodTx(s, id);
  }

  /** No run of calls by others than the signers and the administrator moves a transaction, let alone pays it. */
  lemma {:induction false} StrangersMoveNoTransaction(s: State, calls: seq<Call>, id: nat)
    requires Inv(s) && id in s.txs
    requires forall c | c in calls :: Stranger(s.admin, s.signers, c)
    ensures var s' := Runs.Run(Next, s, calls); id in s'.txs && s'.txs[id] == s.txs[id]
    decreases |calls|
  {
    if calls != [] {
      assert calls[0] in calls;
      NextKeepsInv(s, calls[0]);
      StrangerStep(s, calls[0], id);
      assert forall c | c in calls[1..] :: c in calls;
      StrangersMoveNoTransaction(Next(s, calls[0]), calls[1..], id);
    }
  }

  // ----- the contract itself -----

  class Treasury {
    var admin: Party
    var signers: seq<Party>
    var required: nat
    var counter: nat
    var txs: map<nat, Tx>
    var approvals: set<(nat, Party)>
    var tokens: map<nat, Ledger>
    var now: nat

    function Snapshot(): State
      reads this
    {
      State(admin, signers, required, counter, txs, approvals, tokens, now)
    }

    constructor (admin: Party, signers: seq<Party>, required: nat, tokens: map<nat, Ledger>, now: nat)
      requires 1 <= required <= |signers|
      ensures Initialize(admin, signers, required, tokens, now) == Some(Snapshot())
    {
      this.admin, this.signers, this.required, this.counter := admin, signers, required, 0;
      this.txs, this.approvals, this.tokens, this.now := map[], {}, tokens, now;
    }

    method ProposeTransaction(proposer: Party, recipient: Address, asset: nat, amount: int, expiresIn: nat)
      returns (id: Option<nat>)
      modifies this
      ensures Snapshot() == Next(old(Snapshot()), Propose(proposer, recipient, asset, amount, expiresIn))
      ensures id == if Step(old(Snapshot()), Propose(proposer, recipient, asset, amount, expiresIn)).Some?
                then Some(old(counter) + 1) else None
    {
      if proposer !in signers {
        return None;
      }
      :- Require(!(amount <= 0));
      var txId := counter + 1;
      txs := txs[txId := Tx(proposer, recipient, asset, amount, Pending, 0, 0, required, now + expiresIn)];
      counter := txId;
      return Some(txId);
    }

    method ApproveTransaction(signer: Party, id: nat) returns (done: Option<()>)
      modifies this
      ensures Snapshot() == Next(old(Snapshot()), Approve(signer, id))
      ensures done.Some? <==> Step(old(Snapshot()), Approve(signer, id)).Some?
    {
      var before := txs;
      :- Require(signer in signers);
      :- Require((id, signer) !in approvals);
      var tx :- Lookup(txs, id);
      :- Require(tx.status == Pending);
      if now > tx.expiresAt {
        tx := tx.(status := Expired);
        txs := txs[id := tx];
        txs := before;  // the panic that follows undoes the write
        return None;
      }
      tx := tx.(approvals := tx.approvals + 1);
      approvals := approvals + {(id, signer)};
      if tx.approvals >= tx.needed {
        tx := tx.(status := Approved);
      }
      txs := txs[id := tx];
      return Some(());
    }

    method ExecuteTransaction(caller: Party, id: nat) returns (done: Option<()>)
      modifies this
      ensures Snapshot() == Next(old(Snapshot()), Execute(caller, id))
      ensures done.Some? <==> Step(old(Snapshot()), Execute(caller, id)).Some?
    {
      if caller !in signers {
        return None;
      }
      var tx :- Lookup(txs, id);
      :- Require(tx.status == Approved);
      var sent :- Transfer(GetOr(tokens, tx.asset, map[]), Contract, tx.recipient, tx.amount);
      tokens := tokens[tx.asset := sent];
      tx := tx.(status := Executed);
      txs := txs[id := tx];
      return Some(());
    }

    method RejectTransaction(signer: Party, id: nat) returns (done: Option<()>)
      modifies this
      ensures Snapshot() == Next(old(Snapshot()), Reject(signer, id))
      ensures done.Some? <==> Step(old(Snapshot()), Reject(signer, id)).Some?
    {
      if signer !in signers {
        return None;
      }
      var tx :- Lookup(txs, id);
      :- Require(tx.status == Pending);
      tx := tx.(rejections := tx.rejections + 1);
      :- Require(tx.rejections <= |signers|);
      var possible := |signers| - tx.rejections;
      if possible < required {
        tx := tx.(status := Rejected);
      }
      txs := txs[id := tx];
      return Some(());
    }

    method AddOne(caller: Party, signer: Party) returns (done: Option<()>)
      modifies this
      ensures Snapshot() == Next(old(Snapshot()), AddSigner(caller, signer))
      ensures done.Some? <==> Step(old(Snapshot()), AddSigner(caller, signer)).Some?
    {
      if caller != admin {
        return None;
      }
      :- Require(signer !in signers);
      signers := signers + [signer];
      return Some(());
    }

    /** Rebuilds the list without the removed signer. */
    method RemoveOne(caller: Party, signer: Party) returns (done: Option<()>)
      modifies this
      ensures Snapshot() == Next(old(Snapshot()), RemoveSigner(caller, signer))
      ensures done.Some? <==> Step(old(Snapshot()), RemoveSigner(caller, signer)).Some?
    {
      if caller != admin {
        return None;
      }
      :- Require(signer in signers);
      :- Require(!(|signers| - 1 < required));
      var kept: seq<Party> := [];
      for i := 0 to |signers|
        invariant kept == Drop(signers[..i], signer)
      {
        assert signers[..i + 1][..i] == signers[..i];
        if signers[i] != signer {
          kept := kept + [signers[i]];
        }
      }
      assert signers[..|signers|] == signers;
      signers := kept;
      return Some(());
    }
  }
}

/** The governance DAO: tallies that must agree with the recorded votes, and the integer test that decides. */
module GovernanceDao {
  import opened Chain
  import Arith
  import Runs
  import Sums

  datatype Status = Active | Passed | Rejected | Executed | Cancelled | Expired

  datatype Choice = For | Against | Abstain

  datatype Proposal = Proposal(
    proposer: Party, status: Status, votesFor: int, votesAgainst: int, votesAbstain: int,
    quorumBps: U32, threshold: U32, endLedger: nat)

  datatype Vote = Vote(choice: Choice, power: int)

  datatype Settings = Settings(votingPeriod: nat, quorumBps: U32, threshold: U32, proposerMin: int)

  /** `gov` and `supply` are the governance token's balances and total supply. */
  datatype State = State(
    admin: Party, settings: Settings, counter: nat, proposals: map<nat, Proposal>,
    votes: map<(nat, Party), Vote>, hasVoted: set<(nat, Party)>, gov: Ledger, supply: int, ledger: nat)

  datatype Call =
    | Create(proposer: Party)
    | Cast(voter: Party, id: nat, choice: Choice, power: int)
    | Finalize(id: nat)
    | Execute(caller: Party, id: nat)
    | Cancel(caller: Party, id: nat)
    | Tick(ledgers: nat)
    | TokenMoves(gov: Ledger, supply: int)  // anything may happen to the governance token between calls

  function Init(admin: Party, settings: Settings, gov: Ledger, supply: int, ledger: nat): State {
    State(admin, settings, 0, map[], map[], {}, gov, supply, ledger)
  }

  // ----- what each entry point does -----

  function CreateStep(s: State, proposer: Party): Option<State> {
    if !(s.settings.proposerMin > 0 ==> Balance(s.gov, proposer) >= s.settings.proposerMin) then None else
    var id := s.counter + 1;
    var p := Proposal(proposer, Active, 0, 0, 0, s.settings.quorumBps, s.settings.threshold,
                      s.ledger + s.settings.votingPeriod);
    Some(s.(counter := id, proposals := s.proposals[id := p]))
  }

  function Tally(p: Proposal, choice: Choice, power: int): Proposal {
    match choice
    case For => p.(votesFor := p.votesFor + power)
    case Against => p.(votesAgainst := p.votesAgainst + power)
    case Abstain => p.(votesAbstain := p.votesAbstain + power)
  }

  function CastStep(s: State, voter: Party, id: nat, choice: Choice, power: int): Option<State> {
    if (id, voter) in s.hasVoted then None else
    :- Require(power <= Balance(s.gov, voter));
    var p :- Lookup(s.proposals, id);
    :- Require(p.status == Active);
    :- Require(s.ledger <= p.endLedger);
    :- Require(power > 0);
    Some(s.(proposals := s.proposals[id := Tally(p, choice, power)],
            votes := s.votes[(id, voter) := Vote(choice, power)],
            hasVoted := s.hasVoted + {(id, voter)}))
  }

  /** The outcome test, in the contract's integer arithmetic. */
  function Outcome(p: Proposal, supply: int): Status {
    var total := p.votesFor + p.votesAgainst;
    var quorumMet := total * 10_000 >= supply * p.quorumBps;
    var forPct := if total > 0 then Quot(p.votesFor * 100, total) else 0;
    if quorumMet && AsU32(forPct) >= p.threshold then Passed else Rejected
  }

  function FinalizeStep(s: State, id: nat): Option<State> {
    var p :- Lookup(s.proposals, id);
    :- Require(p.status == Active);
    :- Require(s.ledger > p.endLedger);
    Some(s.(proposals := s.proposals[id := p.(status := Outcome(p, s.supply))]))
  }

  function Step(s: State, c: Call): Option<State> {
    match c
    case Create(proposer) => CreateStep(s, proposer)
    case Cast(voter, id, choice, power) => CastStep(s, voter, id, choice, power)
    case Finalize(id) => FinalizeStep(s, id)
    case Execute(caller, id) =>
      :- Require(caller == s.admin);
      var p :- Lookup(s.proposals, id);
      :- Require(p.status == Passed);
      Some(s.(proposals := s.proposals[id := p.(status := Executed)]))
    case Cancel(caller, id) =>
      var p :- Lookup(s.proposals, id);
      :- Require(caller == p.proposer || caller == s.admin);
      Some(s.(proposals := s.proposals[id := p.(status := Cancelled)]))
    case Tick(ledgers) => Some(s.(ledger := s.ledger + ledgers))
    case TokenMoves(gov, supply) => Some(s.(gov := gov, supply := supply))
  }

  function Next(s: State, c: Call): State {
    Step(s, c).GetOr(s)
  }

  // ----- tallies agree with votes -----

  /** The power a recorded vote gives to `choice` on proposal `id`. */
  ghost function PowerFor(id: nat, choice: Choice): ((nat, Party), Vote) -> int {
    (key: (nat, Party), v: Vote) => if key.0 == id && v.choice == choice then v.power else 0
  }

  ghost function Recorded(s: State, id: nat, choice: Choice): int {
    Sums.Sum(s.votes, PowerFor(id, choice))
  }

  ghost predicate TalliesAgree(s: State, id: nat)
    requires id in s.proposals
  {
    && s.proposals[id].votesFor == Recorded(s, id, For)
    && s.proposals[id].votesAgainst == Recorded(s, id, Against)
    && s.proposals[id].votesAbstain == Recorded(s, id, Abstain)
  }

  /** Every vote is for a known proposal with positive power, and marks its voter as having voted. */
  ghost predicate VotesAreValid(s: State) {
    && (forall key | key in s.votes :: key.0 in s.proposals && s.votes[key].power > 0)
    && s.hasVoted == s.votes.Keys
  }

  ghost predicate Inv(s: State) {
    && (forall id | id in s.proposals ::
          1 <= id <= s.counter && s.proposals[id].status != Expired && TalliesAgree(s, id))
    && VotesAreValid(s)
  }

  lemma CreateKeepsInv(s: State, proposer: Party)
    requires Inv(s)
    ensures Inv(Next(s, Create(proposer)))
  {
    var s' := Next(s, Create(proposer));
    var id := s.counter + 1;
    Sums.SumZero(s.votes, PowerFor(id, For));
    Sums.SumZero(s.votes, PowerFor(id, Against));
    Sums.SumZero(s.votes, PowerFor(id, Abstain));
    forall k | k in s'.proposals ensures TalliesAgree(s', k) { assert k != id ==> TalliesAgree(s, k); }
  }

  /** A vote adds its power to the one sum it belongs to. */
  lemma RecordedAfterCast(s: State, c: Call, k: nat, choice: Choice)
    requires Inv(s) && c.Cast? && Step(s, c).Some?
    ensures Recorded(Next(s, c), k, choice)
              == Recorded(s, k, choice) + (if k == c.id && choice == c.choice then c.power else 0)
  {
    Sums.SumUpdate(s.votes, PowerFor(k, choice), (c.id, c.voter), Vote(c.choice, c.power));
  }

  lemma CastKeepsTallies(s: State, c: Call, k: nat)
    requires Inv(s) && c.Cast? && Step(s, c).Some? && k in s.proposals
    ensures TalliesAgree(Next(s, c), k)
  {
    assert TalliesAgree(s, k);
    RecordedAfterCast(s, c, k, For);
    RecordedAfterCast(s, c, k, Against);
    RecordedAfterCast(s, c, k, Abstain);
  }

  lemma CastRecordsOneVote(s: State, c: Call)
    requires VotesAreValid(s) && c.Cast? && CastStep(s, c.voter, c.id, c.choice, c.power).Some?
    ensures var s' := CastStep(s, c.voter, c.id, c.choice, c.power).value;
            VotesAreValid(s')
            && s'.proposals.Keys == s.proposals.Keys && s'.counter == s.counter
            && (forall k | k in s.proposals :: s'.proposals[k].status == s.proposals[k].status)
  {
  }

  lemma CastKeepsInv(s: State, c: Call)
    requires Inv(s) && c.Cast? && Step(s, c).Some?
    ensures Inv(Next(s, c))
  {
    var s' := Next(s, c);
    CastRecordsOneVote(s, c);
    forall k | k in s'.proposals
      ensures 1 <= k <= s'.counter && s'.proposals[k].status != Expired && TalliesAgree(s', k)
    {
      CastKeepsTallies(s, c, k);
    }
  }

  lemma StatusKeepsInv(s: State, id: nat, status: Status)
    requires Inv(s) && id in s.proposals && status != Expired
    ensures Inv(s.(proposals := s.proposals[id := s.proposals[id].(status := status)]))
  {
    var s' := s.(proposals := s.proposals[id := s.proposals[id].(status := status)]);
    forall k | k in s'.proposals ensures TalliesAgree(s', k) { assert TalliesAgree(s, k); }
  }

  /** The other calls change at most one proposal's status. */
  lemma OthersKeepInv(s: State, c: Call)
    requires Inv(s) && !c.Create? && !c.Cast? && Step(s, c).Some?
    ensures Inv(Next(s, c))
  {
    var s' := Next(s, c);
    if c.Finalize? || c.Execute? || c.Cancel? {
      var status := s'.proposals[c.id].status;
      assert s' == s.(proposals := s.proposals[c.id := s.proposals[c.id].(status := status)]);
      StatusKeepsInv(s, c.id, status);
    } else {
      assert s'.votes == s.votes && s'.proposals == s.proposals;
      forall k | k in s'.proposals ensures TalliesAgree(s', k) { assert TalliesAgree(s, k); }
    }
  }

  lemma NextKeepsInv(s: State, c: Call)
    requires Inv(s)
    ensures Inv(Next(s, c))
  {
    if Step(s, c).Some? {
      if c.Create? {
        CreateKeepsInv(s, c.proposer);
      } else if c.Cast? {
        CastKeepsInv(s, c);
      } else {
        OthersKeepInv(s, c);
      }
    }
  }

  lemma InitInv(admin: Party, settings: Settings, gov: Ledger, supply: int, ledger: nat)
    ensures Inv(Init(admin, settings, gov, supply, ledger))
  {
  }

  /** On every run the tallies are the sums of the recorded powers, one vote per voter. */
  lemma {:induction false} RunKeepsInv(s: State, calls: seq<Call>)
    requires Inv(s)
    ensures Inv(Runs.Run(Next, s, calls))
    decreases |calls|
  {
    if calls != [] {
      NextKeepsInv(s, calls[0]);
      RunKeepsInv(Next(s, calls[0]), calls[1..]);
    }
  }

  lemma TalliesNonNegative(s: State, id: nat)
    requires Inv(s) && id in s.proposals
    ensures s.proposals[id].votesFor >= 0 && s.proposals[id].votesAgainst >= 0
  {
    assert TalliesAgree(s, id);
    Sums.SumNonNeg(s.votes, PowerFor(id, For));
    Sums.SumNonNeg(s.votes, PowerFor(id, Against));
  }

  // ----- a closed proposal stays closed -----

  ghost predicate SameVotes(s: State, s': State, id: nat)
    requires id in s.proposals && id in s'.proposals
  {
    var p, p' := s.proposals[id], s'.proposals[id];
    && p'.votesFor == p.votesFor && p'.votesAgainst == p.votesAgainst && p'.votesAbstain == p.votesAbstain
    && p'.quorumBps == p.quorumBps && p'.threshold == p.threshold && p'.endLedger == p.endLedger
    && (forall u: Party :: (id, u) in s'.votes <==> (id, u) in s.votes)
    && (forall u: Party | (id, u) in s.votes :: s'.votes[(id, u)] == s.votes[(id, u)])
  }

  lemma ClosedStep(s: State, c: Call, id: nat)
    requires id in s.proposals && id <= s.counter && s.proposals[id].status != Active
    ensures var s' := Next(s, c); id in s'.proposals && s'.proposals[id].status != Active && SameVotes(s, s', id)
  {
  }

  /** Once a proposal leaves Active, it never returns, and its tallies and votes are frozen. */
  lemma {:induction false} ClosedIsFrozen(s: State, calls: seq<Call>, id: nat)
    requires Inv(s) && id in s.proposals && s.proposals[id].status != Active
    ensures var s' := Runs.Run(Next, s, calls);
            id in s'.proposals && s'.proposals[id].status != Active && SameVotes(s, s', id)
    decreases |calls|
  {
    if calls != [] {
      NextKeepsInv(s, calls[0]);
      ClosedStep(s, calls[0], id);
      ClosedIsFrozen(Next(s, calls[0]), calls[1..], id);
    }
  }

  /** Which statuses can come, in any number of calls, after which. */
  predicate Follows(before: Status, after: Status) {
    after == before
    || match before
       case Active => after != Expired
       case Passed => after == Executed || after == Cancelled
       case Rejected => after == Cancelled
       case Executed => after == Cancelled
       case _ => false
  }

  lemma StatusStep(s: State, c: Call, id: nat)
    requires id in s.proposals && id <= s.counter && s.proposals[id].status != Expired
    ensures id in Next(s, c).proposals
    ensures Follows(s.proposals[id].status, Next(s, c).proposals[id].status)
  {
  }

  /**
   * On every run a status is followed by these alone: a cancelled proposal stays so, any other can still be
   * cancelled.
   */
  lemma {:induction false} StatusesFollow(s: State, calls: seq<Call>, id: nat)
    requires Inv(s) && id in s.proposals
    ensures var s' := Runs.Run(Next, s, calls);
            id in s'.proposals && Follows(s.proposals[id].status, s'.proposals[id].status)
    decreases |calls|
  {
    if calls != [] {
      NextKeepsInv(s, calls[0]);
      StatusStep(s, calls[0], id);
      StatusesFollow(Next(s, calls[0]), calls[1..], id);
    }
  }

  /** Every one of them does follow: cancelling is never too late, not even after the execution. */
  lemma CancellingIsNeverTooLate(s: State, id: nat)
    requires id in s.proposals
    ensures Next(s, Cancel(s.proposals[id].proposer, id)).proposals[id].status == Cancelled
  {
  }

  /** From a fresh DAO: proposed, voted for, passed, executed, and then cancelled by its proposer. */
  lemma ExecutedThenCancelled(admin: Party, settings: Settings, u: Party, x: int, ledger: nat)
    requires x > 0 && settings.proposerMin <= x && settings.quorumBps <= 10_000 && settings.threshold <= 100
    ensures
      var s1 := Next(Init(admin, settings, map[u := x], x, ledger), Create(u));
      var s2 := Next(Next(s1, Cast(u, 1, For, x)), Tick(settings.votingPeriod + 1));
      var s3 := Next(Next(s2, Finalize(1)), Execute(admin, 1));
      && 1 in s3.proposals && s3.proposals[1].status == Executed
      && var s4 := Next(s3, Cancel(u, 1)); 1 in s4.proposals && s4.proposals[1].status == Cancelled
  {
    var s1 := Next(Init(admin, settings, map[u := x], x, ledger), Create(u));
    var c := Cast(u, 1, For, x);
    assert 1 in s1.proposals && Step(s1, c).Some?;
    var s2 := Next(Next(s1, c), Tick(settings.votingPeriod + 1));
    var p := s2.proposals[1];
    assert p.votesFor == x && p.votesAgainst == 0 && p.status == Active && s2.ledger > p.endLedger;
    OutcomeIsExact(p, x);
    Arith.MulMono(p.quorumBps, 10_000, x);
    Arith.MulMono(p.threshold, 100, x);
    assert Outcome(p, s2.supply) == Passed;
    var s3 := Next(Next(s2, Finalize(1)), Execute(admin, 1));
    assert s3.proposals[1].status == Executed && s3.proposals[1].proposer == u;
    CancellingIsNeverTooLate(s3, 1);
  }

  lemma VotesAreKept(s: State, c: Call)
    requires s.hasVoted == s.votes.Keys
    ensures forall key | key in s.votes :: key in Next(s, c).votes && Next(s, c).votes[key] == s.votes[key]
  {
  }

  /** A recorded vote is never changed or withdrawn, by its voter or anyone else. */
  lemma {:induction false} VotesAreFinal(s: State, calls: seq<Call>)
    requires Inv(s)
    ensures var s' := Runs.Run(Next, s, calls);
            forall key | key in s.votes :: key in s'.votes && s'.votes[key] == s.votes[key]
    decreases |calls|
  {
    if calls != [] {
      NextKeepsInv(s, calls[0]);
      VotesAreKept(s, calls[0]);
      VotesAreFinal(Next(s, calls[0]), calls[1..]);
    }
  }

  // ----- the outcome -----

  /**
   * With some For or Against power, the truncated percentage test is exactly the two rational inequalities;
   * with none, a proposal passes only on an empty quorum and a zero threshold.
   */
  lemma OutcomeIsExact(p: Proposal, supply: int)
    requires p.votesFor >= 0 && p.votesAgainst >= 0
    ensures var total := p.votesFor + p.votesAgainst;
            Outcome(p, supply) == Passed <==>
              10_000 * total >= supply * p.quorumBps
              && (if total > 0 then 100 * p.votesFor >= p.threshold * total else p.threshold == 0)
  {
    var total := p.votesFor + p.votesAgainst;
    if total > 0 {
      var pct := Quot(p.votesFor * 100, total);
      Arith.QuotIsFloor(p.votesFor * 100, total);
      Arith.CancelFactor(pct, 100, total);
      if p.threshold <= pct {
        Arith.MulMono(p.threshold, pct, total);
      } else {
        Arith.MulMono(pct + 1, p.threshold, total);
      }
    }
  }

  /** What the powers recorded for a proposal decide, at a given supply. */
  ghost function Decided(s: State, id: nat, supply: int): Status
    requires id in s.proposals
  {
    var p, inFavour := s.proposals[id], Recorded(s, id, For);
    var total := inFavour + Recorded(s, id, Against);
    if 10_000 * total >= supply * p.quorumBps
       && (if total > 0 then 100 * inFavour >= p.threshold * total else p.threshold == 0)
    then Passed
    else Rejected
  }

  lemma OutcomeIsDecided(s: State, id: nat, supply: int)
    requires Inv(s) && id in s.proposals
    ensures Outcome(s.proposals[id], supply) == Decided(s, id, supply)
    ensures Recorded(s, id, For) >= 0 && Recorded(s, id, Against) >= 0
  {
    assert TalliesAgree(s, id);
    TalliesNonNegative(s, id);
    OutcomeIsExact(s.proposals[id], supply);
  }

  /**
   * From a fresh DAO, on every run: finalising succeeds exactly for an active proposal whose voting is over, and it
   * passes exactly when the powers recorded for it meet the two rational inequalities, and is rejected otherwise.
   */
  lemma FinalizeDecidesByRecordedVotes(admin: Party, settings: Settings, gov: Ledger, supply: int, ledger: nat,
                                       calls: seq<Call>, id: nat)
    ensures
      var s := Runs.Run(Next, Init(admin, settings, gov, supply, ledger), calls);
      && Inv(s)
      && (FinalizeStep(s, id).Some? <==>
            id in s.proposals && s.proposals[id].status == Active && s.ledger > s.proposals[id].endLedger)
      && (FinalizeStep(s, id).Some? ==>
            && Next(s, Finalize(id)).proposals[id].status == Decided(s, id, s.supply)
            && Recorded(s, id, For) >= 0 && Recorded(s, id, Against) >= 0)
  {
    var s := Runs.Run(Next, Init(admin, settings, gov, supply, ledger), calls);
    InitInv(admin, settings, gov, supply, ledger);
    RunKeepsInv(Init(admin, settings, gov, supply, ledger), calls);
    if id in s.proposals {
      OutcomeIsDecided(s, id, s.supply);
    }
  }

  /** More For power never turns a passing proposal into a rejected one. */
  lemma MoreForNeverRejects(p: Proposal, supply: int, extra: nat)
    requires p.votesFor >= 0 && p.votesAgainst >= 0
    requires Outcome(p, supply) == Passed
    ensures Outcome(p.(votesFor := p.votesFor + extra), supply) == Passed
  {
    var p' := p.(votesFor := p.votesFor + extra);
    OutcomeIsExact(p, supply);
    OutcomeIsExact(p', supply);
    var total, t := p.votesFor + p.votesAgainst, p.threshold;
    if total > 0 {
      Arith.CancelFactor(t, 100, total);
    }
    Arith.MulMono(t, 100, extra);
    assert t * (total + extra) == t * total + t * extra;
  }

  function On(id: nat): ((nat, Party)) -> bool {
    (key: (nat, Party)) => key.0 == id
  }

  lemma RecordedDependsOnItsVotes(s: State, id: nat, choice: Choice)
    ensures Recorded(s, id, choice) == Sums.Sum(Sums.Keep(s.votes, On(id)), PowerFor(id, choice))
  {
    Sums.SumRestrict(s.votes, PowerFor(id, choice), On(id));
  }

  /** The outcome depends only on the votes on record for the proposal. */
  lemma OutcomeFollowsVotes(s: State, t: State, id: nat, supply: int)
    requires Inv(s) && Inv(t) && id in s.proposals && id in t.proposals
    requires Sums.Keep(s.votes, On(id)) == Sums.Keep(t.votes, On(id))
    requires s.proposals[id].quorumBps == t.proposals[id].quorumBps
               && s.proposals[id].threshold == t.proposals[id].threshold
    ensures Outcome(s.proposals[id], supply) == Outcome(t.proposals[id], supply)
  {
    assert TalliesAgree(s, id) && TalliesAgree(t, id);
    RecordedDependsOnItsVotes(s, id, For);
    RecordedDependsOnItsVotes(t, id, For);
    RecordedDependsOnItsVotes(s, id, Against);
    RecordedDependsOnItsVotes(t, id, Against);
  }

  // ----- the order of votes does not matter -----

  function Ballot(c: Call): (nat, Party)
    requires c.Cast?
  {
    (c.id, c.voter)
  }

  lemma TallyCommutes(p: Proposal, c1: Choice, x1: int, c2: Choice, x2: int)
    ensures Tally(Tally(p, c1, x1), c2, x2) == Tally(Tally(p, c2, x2), c1, x1)
  {
  }

  lemma UpdatesCommute<K, V>(m: map<K, V>, k: K, v: V, l: K, w: V)
    requires k != l
    ensures m[k := v][l := w] == m[l := w][k := v]
  {
  }

  /** A vote neither helps nor hinders one by a different voter or on a different proposal. */
  lemma VotesAreIndependent(s: State, a: Call, b: Call)
    requires a.Cast? && b.Cast? && Ballot(a) != Ballot(b)
    ensures Step(Next(s, a), b).Some? <==> Step(s, b).Some?
  {
  }

  lemma SuccessfulVotesCommute(s: State, a: Call, b: Call)
    requires a.Cast? && b.Cast? && Ballot(a) != Ballot(b)
    requires Step(s, a).Some? && Step(s, b).Some? && Step(Next(s, a), b).Some? && Step(Next(s, b), a).Some?
    ensures Next(Next(s, a), b) == Next(Next(s, b), a)
  {
    var ab, ba := Next(Next(s, a), b), Next(Next(s, b), a);
    UpdatesCommute(s.votes, Ballot(a), Vote(a.choice, a.power), Ballot(b), Vote(b.choice, b.power));
    assert ab.hasVoted == ba.hasVoted;
    if a.id == b.id {
      TallyCommutes(s.proposals[a.id], a.choice, a.power, b.choice, b.power);
    } else {
      UpdatesCommute(s.proposals, a.id, ab.proposals[a.id], b.id, ba.proposals[b.id]);
    }
  }

  /** Votes by different voters, or on different proposals, commute, whether they succeed or panic. */
  lemma VotesCommute(s: State, a: Call, b: Call)
    requires a.Cast? && b.Cast? && Ballot(a) != Ballot(b)
    ensures Next(Next(s, a), b) == Next(Next(s, b), a)
  {
    VotesAreIndependent(s, a, b);
    VotesAreIndependent(s, b, a);
    if Step(s, a).Some? && Step(s, b).Some? {
      SuccessfulVotesCommute(s, a, b);
    }
  }

  ghost predicate OneVoteEach(calls: seq<Call>) {
    && (forall c | c in calls :: c.Cast?)
    && (forall i, j | 0 <= i < j < |calls| :: calls[i].Cast? && calls[j].Cast? && Ballot(calls[i]) != Ballot(calls[j]))
  }

  function Without(calls: seq<Call>, k: nat): seq<Call>
    requires k < |calls|
  {
    calls[..k] + calls[k + 1..]
  }

  /** Any one vote can be cast first. */
  lemma {:induction false} MoveToFront(s: State, calls: seq<Call>, k: nat)
    requires k < |calls| && OneVoteEach(calls)
    ensures Runs.Run(Next, s, calls) == Runs.Run(Next, Next(s, calls[k]), Without(calls, k))
    decreases k
  {
    if k == 0 {
      assert Without(calls, 0) == calls[1..];
    } else {
      var rest := calls[1..];
      assert Without(calls, k)[0] == calls[0] && Without(calls, k)[1..] == Without(rest, k - 1);
      MoveToFront(Next(s, calls[0]), rest, k - 1);
      VotesCommute(s, calls[0], calls[k]);
    }
  }

  lemma WithoutRemovesOne(calls: seq<Call>, k: nat)
    requires k < |calls|
    ensures multiset(Without(calls, k)) == multiset(calls) - multiset{calls[k]}
  {
    assert calls == calls[..k] + [calls[k]] + calls[k + 1..];
  }

  lemma WithoutKeepsOneVoteEach(calls: seq<Call>, k: nat)
    requires k < |calls| && OneVoteEach(calls)
    ensures OneVoteEach(Without(calls, k))
  {
  }

  /** Whatever order a set of votes is cast in, the state after them is the same. */
  lemma {:induction false} OrderDoesNotMatter(s: State, a: seq<Call>, b: seq<Call>)
    requires OneVoteEach(a) && OneVoteEach(b) && multiset(a) == multiset(b)
    ensures Runs.Run(Next, s, a) == Runs.Run(Next, s, b)
    decreases |a|
  {
    if a == [] {
      assert |b| == |multiset(b)| == 0;
    } else {
      assert a[0] in multiset(b);
      var k :| 0 <= k < |b| && b[k] == a[0];
      MoveToFront(s, b, k);
      WithoutRemovesOne(a, 0);
      WithoutRemovesOne(b, k);
      WithoutKeepsOneVoteEach(a, 0);
      WithoutKeepsOneVoteEach(b, k);
      assert Without(a, 0) == a[1..];
      OrderDoesNotMatter(Next(s, a[0]), a[1..], Without(b, k));
    }
  }

  // ----- how much power can be recorded -----

  ghost function Tokens(a: Address, amount: int): int { amount }

  /** The power a recorded vote gives to proposal `id`, whichever way. */
  ghost function PowerOn(id: nat): ((nat, Party), Vote) -> int {
    (key: (nat, Party), v: Vote) => if key.0 == id then v.power else 0
  }

  lemma PowerSplits(id: nat, key: (nat, Party), v: Vote)
    ensures PowerOn(id)(key, v)
         == PowerFor(id, For)(key, v) + PowerFor(id, Against)(key, v) + PowerFor(id, Abstain)(key, v)
  {
    match v.choice
    case For =>
    case Against =>
    case Abstain =>
  }

  lemma {:induction false} TalliesAreOneSum(votes: map<(nat, Party), Vote>, id: nat)
    ensures Sums.Sum(votes, PowerOn(id))
         == Sums.Sum(votes, PowerFor(id, For)) + Sums.Sum(votes, PowerFor(id, Against))
            + Sums.Sum(votes, PowerFor(id, Abstain))
    decreases |votes|
  {
    if votes != map[] {
      var key :| key in votes;
      Sums.SumRemove(votes, PowerOn(id), key);
      Sums.SumRemove(votes, PowerFor(id, For), key);
      Sums.SumRemove(votes, PowerFor(id, Against), key);
      Sums.SumRemove(votes, PowerFor(id, Abstain), key);
      PowerSplits(id, key, votes[key]);
      TalliesAreOneSum(votes - {key}, id);
    }
  }

  ghost predicate Backed(votes: map<(nat, Party), Vote>, gov: Ledger, id: nat) {
    forall key | key in votes && key.0 == id :: 0 < votes[key].power <= Balance(gov, key.1)
  }

  /** One vote a voter, each within its balance: together within all balances. */
  lemma {:induction false} BackedPowerWithinBalances(votes: map<(nat, Party), Vote>, gov: Ledger, id: nat)
    requires Backed(votes, gov, id) && forall a | a in gov :: gov[a] >= 0
    ensures Sums.Sum(votes, PowerOn(id)) <= Sums.Sum(gov, Tokens)
    decreases |votes|
  {
    if votes == map[] {
      Sums.SumNonNeg(gov, Tokens);
    } else {
      var key :| key in votes;
      Sums.SumRemove(votes, PowerOn(id), key);
      if key.0 == id {
        var u: Address := key.1;
        assert votes[key].power <= Balance(gov, u);
        Sums.SumRemove(gov, Tokens, u);
        forall k | k in votes - {key} && k.0 == id ensures Balance(gov - {u}, k.1) == Balance(gov, k.1) {
          assert k.1 != key.1;
        }
        BackedPowerWithinBalances(votes - {key}, gov - {u}, id);
      } else {
        BackedPowerWithinBalances(votes - {key}, gov, id);
      }
    }
  }

  /** A move of the governance token that leaves every voter on `id` at least the power recorded for it. */
  ghost predicate LeavesVoters(s: State, c: Call, id: nat) {
    c.TokenMoves? ==> Backed(s.votes, c.gov, id)
  }

  /** Every token move of a run leaves the voters on `id` their recorded power. */
  ghost predicate VotersKeepPower(s: State, calls: seq<Call>, id: nat) {
    forall i: nat | i < |calls| :: LeavesVoters(Runs.Run(Next, s, calls[..i]), calls[i], id)
  }

  lemma VotersKeepPowerLater(s: State, calls: seq<Call>, id: nat)
    requires calls != [] && VotersKeepPower(s, calls, id)
    ensures LeavesVoters(s, calls[0], id) && VotersKeepPower(Next(s, calls[0]), calls[1..], id)
  {
    assert Runs.Run(Next, s, calls[..0]) == s;
    assert LeavesVoters(Runs.Run(Next, s, calls[..0]), calls[0], id);
    var s', rest := Next(s, calls[0]), calls[1..];
    forall i: nat | i < |rest| ensures LeavesVoters(Runs.Run(Next, s', rest[..i]), rest[i], id) {
      assert calls[..i + 1][1..] == rest[..i];
      assert LeavesVoters(Runs.Run(Next, s, calls[..i + 1]), calls[i + 1], id);
    }
  }

  lemma BackedStep(s: State, c: Call, id: nat)
    requires LeavesVoters(s, c, id) && Backed(s.votes, s.gov, id)
    ensures Backed(Next(s, c).votes, Next(s, c).gov, id)
  {
  }

  lemma {:induction false} RunKeepsBacked(s: State, calls: seq<Call>, id: nat)
    requires Backed(s.votes, s.gov, id) && VotersKeepPower(s, calls, id)
    ensures Backed(Runs.Run(Next, s, calls).votes, Runs.Run(Next, s, calls).gov, id)
    decreases |calls|
  {
    if calls != [] {
      VotersKeepPowerLater(s, calls, id);
      BackedStep(s, calls[0], id);
      RunKeepsBacked(Next(s, calls[0]), calls[1..], id);
    }
  }

  lemma {:induction false} BalancesStay(s: State, calls: seq<Call>)
    requires forall c | c in calls :: !c.TokenMoves?
    ensures Runs.Run(Next, s, calls).gov == s.gov
    decreases |calls|
  {
    if calls != [] {
      assert calls[0] in calls;
      BalancesStay(Next(s, calls[0]), calls[1..]);
    }
  }

  /**
   * From a fresh DAO, on every run whose token moves leave each voter on a proposal the power it voted with, as they do
   * when no token moves, the power recorded for the proposal is within the balances there are at the end.
   */
  lemma PowerWithinBalances(admin: Party, settings: Settings, gov: Ledger, supply: int, ledger: nat, calls: seq<Call>,
                            id: nat)
    requires VotersKeepPower(Init(admin, settings, gov, supply, ledger), calls, id)
    ensures var s := Runs.Run(Next, Init(admin, settings, gov, supply, ledger), calls);
            id in s.proposals && (forall a | a in s.gov :: s.gov[a] >= 0) ==>
              s.proposals[id].votesFor + s.proposals[id].votesAgainst + s.proposals[id].votesAbstain
              <= Sums.Sum(s.gov, Tokens)
    ensures (forall c | c in calls :: !c.TokenMoves?) ==>
              Runs.Run(Next, Init(admin, settings, gov, supply, ledger), calls).gov == gov
  {
    var s0 := Init(admin, settings, gov, supply, ledger);
    var s := Runs.Run(Next, s0, calls);
    InitInv(admin, settings, gov, supply, ledger);
    RunKeepsInv(s0, calls);
    RunKeepsBacked(s0, calls, id);
    if forall c | c in calls :: !c.TokenMoves? {
      BalancesStay(s0, calls);
    }
    if id in s.proposals && forall a | a in s.gov :: s.gov[a] >= 0 {
      assert TalliesAgree(s, id);
      TalliesAreOneSum(s.votes, id);
      BackedPowerWithinBalances(s.votes, s.gov, id);
    }
  }

  /** With a transfer between two votes the same `x` tokens vote twice, and the power exceeds all there are. */
  lemma MovedTokensVoteTwice(admin: Party, settings: Settings, u: Party, v: Party, x: int, ledger: nat)
    requires u != v && x > 0 && settings.proposerMin <= x
    ensures var moved := Transfer(map[u := x], u, v, x);
            moved.Some?
            && var s := Runs.Run(Next, Init(admin, settings, map[u := x], x, ledger),
                                 [Create(u), Cast(u, 1, For, x), TokenMoves(moved.value, x), Cast(v, 1, For, x)]);
               1 in s.proposals && s.supply == x && s.proposals[1].votesFor == 2 * x
  {
    var moved := Transfer(map[u := x], u, v, x).value;
    var s1 := Next(Init(admin, settings, map[u := x], x, ledger), Create(u));
    var s2 := Next(s1, Cast(u, 1, For, x));
    assert 1 in s2.proposals && s2.proposals[1].votesFor == x && s2.hasVoted == {(1, u)};
    var s3 := Next(s2, TokenMoves(moved, x));
    assert Balance(s3.gov, v) == x;
    var s4 := Next(s3, Cast(v, 1, For, x));
    assert Runs.Run(Next, s3, [Cast(v, 1, For, x)]) == s4;
    assert Runs.Run(Next, s2, [TokenMoves(moved, x), Cast(v, 1, For, x)]) == s4;
  }

  // ----- when calls succeed, and where proposals come from -----

  /** Exactly when each call succeeds. */
  lemma CallsSucceedIff(s: State, c: Call)
    requires Inv(s)
    ensures Step(s, c).Some? <==>
              match c
              case Create(u) => s.settings.proposerMin <= 0 || s.settings.proposerMin <= Balance(s.gov, u)
              case Cast(u, id, _, power) =>
                && id in s.proposals && s.proposals[id].status == Active && s.ledger <= s.proposals[id].endLedger
                && (id, u) !in s.votes && 0 < power <= Balance(s.gov, u)
              case Finalize(id) =>
                id in s.proposals && s.proposals[id].status == Active && s.ledger > s.proposals[id].endLedger
              case Execute(u, id) => u == s.admin && id in s.proposals && s.proposals[id].status == Passed
              case Cancel(u, id) => id in s.proposals && (u == s.proposals[id].proposer || u == s.admin)
              case Tick(_) => true
              case TokenMoves(_, _) => true
  {
  }

  /** A vote that succeeds is on record as it was cast, beside all earlier ones, and closes nothing. */
  lemma VoteIsRecorded(s: State, c: Call)
    requires c.Cast? && Step(s, c).Some?
    ensures Next(s, c).votes == s.votes[(c.id, c.voter) := Vote(c.choice, c.power)]
    ensures c.id in Next(s, c).proposals && Next(s, c).proposals[c.id].status == Active
  {
  }

  /** An execution or a cancellation that succeeds closes the proposal so. */
  lemma ClosingLeaves(s: State, c: Call)
    requires (c.Execute? || c.Cancel?) && Step(s, c).Some?
    ensures c.id in Next(s, c).proposals
    ensures Next(s, c).proposals[c.id].status == if c.Execute? then Executed else Cancelled
  {
  }

  /** What a proposal keeps from its creation on. */
  ghost predicate SameTerms(p: Proposal, p': Proposal) {
    && p'.proposer == p.proposer && p'.quorumBps == p.quorumBps && p'.threshold == p.threshold
    && p'.endLedger == p.endLedger
  }

  lemma TermsStep(s: State, c: Call, id: nat)
    requires id in s.proposals && id <= s.counter
    ensures id in Next(s, c).proposals && SameTerms(s.proposals[id], Next(s, c).proposals[id])
  {
  }

  lemma {:induction false} TermsNeverChange(s: State, calls: seq<Call>, id: nat)
    requires Inv(s) && id in s.proposals
    ensures var ps := Runs.Run(Next, s, calls).proposals; id in ps && SameTerms(s.proposals[id], ps[id])
    decreases |calls|
  {
    if calls != [] {
      TermsStep(s, calls[0], id);
      NextKeepsInv(s, calls[0]);
      TermsNeverChange(Next(s, calls[0]), calls[1..], id);
    }
  }

  /** Call `i` of a run proposes `id`, on the given settings, open for their voting period from that ledger on. */
  ghost predicate ProposedAt(s: State, calls: seq<Call>, settings: Settings, id: nat, p: Proposal, i: nat) {
    && i < |calls| && calls[i] == Create(p.proposer)
    && var si := Runs.Run(Next, s, calls[..i]);
       && id == si.counter + 1 && p.endLedger == si.ledger + settings.votingPeriod
       && p.quorumBps == settings.quorumBps && p.threshold == settings.threshold
       && (settings.proposerMin <= 0 || settings.proposerMin <= Balance(si.gov, p.proposer))
  }

  lemma ProposalStep(s: State, c: Call, id: nat)
    requires id !in s.proposals && id in Next(s, c).proposals
    ensures var p := Next(s, c).proposals[id];
            && ProposedAt(s, [c], s.settings, id, p, 0) && p.status == Active
            && p.votesFor == p.votesAgainst == p.votesAbstain == 0
  {
    assert [c][..0] == [];
  }

  lemma SettingsStay(s: State, c: Call)
    ensures Next(s, c).settings == s.settings && Next(s, c).admin == s.admin
  {
  }

  /** Every proposal on record after a run was made in it, on the DAO's settings, which no call changes. */
  lemma {:induction false} ProposalsKeepTheirTerms(s: State, calls: seq<Call>, id: nat)
    requires Inv(s) && id !in s.proposals && id in Runs.Run(Next, s, calls).proposals
    ensures exists i: nat :: ProposedAt(s, calls, s.settings, id, Runs.Run(Next, s, calls).proposals[id], i)
    decreases |calls|
  {
    var s', rest := Next(s, calls[0]), calls[1..];
    var p := Runs.Run(Next, s, calls).proposals[id];
    NextKeepsInv(s, calls[0]);
    SettingsStay(s, calls[0]);
    if id in s'.proposals {
      ProposalStep(s, calls[0], id);
      TermsNeverChange(s', rest, id);
      assert calls[..0] == [calls[0]][..0];
      assert ProposedAt(s, calls, s.settings, id, p, 0);
    } else {
      ProposalsKeepTheirTerms(s', rest, id);
      var i: nat :| ProposedAt(s', rest, s.settings, id, p, i);
      assert calls[..i + 1][1..] == rest[..i];
      assert ProposedAt(s, calls, s.settings, id, p, i + 1);
    }
  }

  // ----- who may change what -----

  lemma VoteStep(s: State, c: Call, key: (nat, Party))
    requires key !in s.votes && key in Next(s, c).votes
    ensures CastAt(s, [c], key, Next(s, c).votes[key], 0)
  {
  }

  /** Call `i` of a run casts `vote`, in time, on an active proposal, with at most the tokens the voter then held. */
  ghost predicate CastAt(s: State, calls: seq<Call>, key: (nat, Party), vote: Vote, i: nat) {
    && i < |calls| && calls[i] == Cast(key.1, key.0, vote.choice, vote.power)
    && var si := Runs.Run(Next, s, calls[..i]);
       && key.0 in si.proposals && si.proposals[key.0].status == Active && si.ledger <= si.proposals[key.0].endLedger
       && 0 < vote.power <= Balance(si.gov, key.1)
  }

  /**
   * Every vote on record after a run was cast in it just so, by its voter, with tokens the voter held at that
   * moment.
   */
  lemma {:induction false} RecordedVotesWereEntitled(s: State, calls: seq<Call>, key: (nat, Party))
    requires Inv(s) && key !in s.votes && key in Runs.Run(Next, s, calls).votes
    ensures exists i: nat :: CastAt(s, calls, key, Runs.Run(Next, s, calls).votes[key], i)
    decreases |calls|
  {
    var s', rest := Next(s, calls[0]), calls[1..];
    NextKeepsInv(s, calls[0]);
    if key in s'.votes {
      VoteStep(s, calls[0], key);
      VotesAreFinal(s', rest);
      assert calls[..0] == [calls[0]][..0];
      assert CastAt(s, calls, key, s'.votes[key], 0);
    } else {
      RecordedVotesWereEntitled(s', rest, key);
      var vote := Runs.Run(Next, s, calls).votes[key];
      var i: nat :| CastAt(s', rest, key, vote, i);
      assert calls[..i + 1][1..] == rest[..i];
      assert CastAt(s, calls, key, vote, i + 1);
    }
  }

  /** Who can give a proposal which status, its first one included. */
  lemma StatusIsAuthorised(s: State, c: Call, id: nat)
    requires id in s.proposals ==> id <= s.counter
    ensures id in s.proposals ==> id in Next(s, c).proposals
    ensures id in Next(s, c).proposals
              && (id in s.proposals ==> Next(s, c).proposals[id].status != s.proposals[id].status)
            ==>
              match Next(s, c).proposals[id].status
              case Active =>
                && c.Create? && id == s.counter + 1
                && (s.settings.proposerMin > 0 ==> Balance(s.gov, c.proposer) >= s.settings.proposerMin)
              case Executed => c == Execute(s.admin, id) && id in s.proposals && s.proposals[id].status == Passed
              case Cancelled =>
                && c.Cancel? && c.id == id && id in s.proposals
                && (c.caller == s.proposals[id].proposer || c.caller == s.admin)
              case status =>
                && (status == Passed || status == Rejected) && c == Finalize(id) && id in s.proposals
                && s.proposals[id].status == Active && s.ledger > s.proposals[id].endLedger
  {
  }

  // ----- executed proposals had won -----

  predicate Accepted(s: State, id: nat) {
    id in s.proposals && (s.proposals[id].status == Passed || s.proposals[id].status == Executed)
  }

  /** Call `i` of a run finalises the active proposal `id` after its voting, and the test passes there and then. */
  ghost predicate WonAt(s: State, calls: seq<Call>, id: nat, i: nat) {
    && i < |calls| && calls[i] == Finalize(id)
    && var si := Runs.Run(Next, s, calls[..i]);
       FinalizeStep(si, id).Some? && Outcome(si.proposals[id], si.supply) == Passed
  }

  /** A proposal becomes accepted only in a finalisation that it wins. */
  lemma AcceptedStep(s: State, c: Call, id: nat)
    requires Inv(s) && !Accepted(s, id) && Accepted(Next(s, c), id)
    ensures WonAt(s, [c], id, 0)
  {
    if id in s.proposals {
      StatusIsAuthorised(s, c, id);
    }
  }

  lemma {:induction false} AcceptedHasWon(s: State, calls: seq<Call>, id: nat)
    requires Inv(s) && !Accepted(s, id) && Accepted(Runs.Run(Next, s, calls), id)
    ensures exists i: nat :: WonAt(s, calls, id, i)
    decreases |calls|
  {
    var s', rest := Next(s, calls[0]), calls[1..];
    if Accepted(s', id) {
      AcceptedStep(s, calls[0], id);
      assert calls[..0] == [calls[0]][..0];
      assert WonAt(s, calls, id, 0);
    } else {
      NextKeepsInv(s, calls[0]);
      AcceptedHasWon(s', rest, id);
      var i: nat :| WonAt(s', rest, id, i);
      assert calls[..i + 1][1..] == rest[..i];
      assert WonAt(s, calls, id, i + 1);
    }
  }

  lemma FinalizationFreezes(s: State, calls: seq<Call>, id: nat)
    requires Inv(s) && FinalizeStep(s, id).Some?
    ensures var s' := Runs.Run(Next, Next(s, Finalize(id)), calls); id in s'.proposals && SameVotes(s, s', id)
  {
    NextKeepsInv(s, Finalize(id));
    ClosedIsFrozen(Next(s, Finalize(id)), calls, id);
  }

  /** What a proposal won with is what its record still shows at the end of the run. */
  lemma WinningTalliesStay(s: State, calls: seq<Call>, id: nat, i: nat)
    requires Inv(s) && WonAt(s, calls, id, i)
    ensures var si, s' := Runs.Run(Next, s, calls[..i]), Runs.Run(Next, s, calls);
            id in s'.proposals && SameVotes(si, s', id)
  {
    RunKeepsInv(s, calls[..i]);
    FinalizationFreezes(Runs.Run(Next, s, calls[..i]), calls[i + 1..], id);
    Runs.RunSplit(Next, s, calls, i);
  }

  /** The recorded votes of `id` met the threshold, and the quorum at the supply call `i` found. */
  ghost predicate WonOnTheRecord(s: State, calls: seq<Call>, id: nat, i: nat) {
    && i < |calls| && calls[i] == Finalize(id)
    && var s' := Runs.Run(Next, s, calls);
       id in s'.proposals && Decided(s', id, Runs.Run(Next, s, calls[..i]).supply) == Passed
  }

  /**
   * From a fresh DAO, on every run: a proposal that stands passed or executed was finalised in the run, and the votes
   * on record for it at the end met the threshold, and met the quorum at the supply its finalisation found.
   */
  lemma ExecutedProposalsHadWon(admin: Party, settings: Settings, gov: Ledger, supply: int, ledger: nat,
                                calls: seq<Call>, id: nat)
    requires Accepted(Runs.Run(Next, Init(admin, settings, gov, supply, ledger), calls), id)
    ensures exists i: nat :: WonOnTheRecord(Init(admin, settings, gov, supply, ledger), calls, id, i)
  {
    var s0 := Init(admin, settings, gov, supply, ledger);
    InitInv(admin, settings, gov, supply, ledger);
    RunKeepsInv(s0, calls);
    AcceptedHasWon(s0, calls, id);
    var i: nat :| WonAt(s0, calls, id, i);
    var si, s := Runs.Run(Next, s0, calls[..i]), Runs.Run(Next, s0, calls);
    WinningTalliesStay(s0, calls, id, i);
    OutcomeIsDecided(s, id, si.supply);
    assert Outcome(s.proposals[id], si.supply) == Outcome(si.proposals[id], si.supply);
    assert WonOnTheRecord(s0, calls, id, i);
  }

  // ----- the contract itself -----

  class Dao {
    const settings: Settings
    var admin: Party
    var counter: nat
    var proposals: map<nat, Proposal>
    var votes: map<(nat, Party), Vote>
    var hasVoted: set<(nat, Party)>
    var gov: Ledger
    var supply: int
    var ledger: nat

    function Snapshot(): State
      reads this
    {
      State(admin, settings, counter, proposals, votes, hasVoted, gov, supply, ledger)
    }

    constructor (admin: Party, settings: Settings, gov: Ledger, supply: int, ledger: nat)
      ensures Snapshot() == Init(admin, settings, gov, supply, ledger)
    {
      this.settings, this.admin, this.counter := settings, admin, 0;
      this.proposals, this.votes, this.hasVoted := map[], map[], {};
      this.gov, this.supply, this.ledger := gov, supply, ledger;
    }

    method CreateProposal(proposer: Party) returns (id: Option<nat>)
      modifies this
      ensures Snapshot() == Next(old(Snapshot()), Create(proposer))
      ensures id == if Step(old(Snapshot()), Create(proposer)).Some? then Some(old(counter) + 1) else None
    {
      if settings.proposerMin > 0 {
        if Balance(gov, proposer) < settings.proposerMin {
          return None;
        }
      }
      var proposalId := counter + 1;
      proposals := proposals[proposalId :=
        Proposal(proposer, Active, 0, 0, 0, settings.quorumBps, settings.threshold, ledger + settings.votingPeriod)];
      counter := proposalId;
      return Some(proposalId);
    }

    method CastVote(voter: Party, id: nat, choice: Choice, power: int) returns (done: Option<()>)
      modifies this
      ensures Snapshot() == Next(old(Snapshot()), Cast(voter, id, choice, power))
      ensures done.Some? <==> Step(old(Snapshot()), Cast(voter, id, choice, power)).Some?
    {
      if (id, voter) in hasVoted {
        return None;
      }
      :- Require(!(power > Balance(gov, voter)));
      var proposal :- Lookup(proposals, id);
      :- Require(proposal.status == Active);
      :- Require(!(ledger > proposal.endLedger));
      :- Require(!(power <= 0));
      match choice {
        case For => proposal := proposal.(votesFor := proposal.votesFor + power);
        case Against => proposal := proposal.(votesAgainst := proposal.votesAgainst + power);
        case Abstain => proposal := proposal.(votesAbstain := proposal.votesAbstain + power);
      }
      votes := votes[(id, voter) := Vote(choice, power)];
      hasVoted := hasVoted + {(id, voter)};
      proposals := proposals[id := proposal];
      return Some(());
    }

    method FinalizeProposal(id: nat) returns (done: Option<()>)
      modifies this
      ensures Snapshot() == Next(old(Snapshot()), Finalize(id))
      ensures done.Some? <==> Step(old(Snapshot()), Finalize(id)).Some?
    {
      var proposal :- Lookup(proposals, id);
      :- Require(proposal.status == Active);
      :- Require(!(ledger <= proposal.endLedger));
      var total := proposal.votesFor + proposal.votesAgainst;
      var quorumMet := total * 10_000 >= supply * proposal.quorumBps;
      var forPct := 0;
      if total > 0 {
        forPct := Quot(proposal.votesFor * 100, total);
      }
      if quorumMet && AsU32(forPct) >= proposal.threshold {
        proposal := proposal.(status := Passed);
      } else {
        proposal := proposal.(status := Rejected);
      }
      proposals := proposals[id := proposal];
      return Some(());
    }

    method ExecuteProposal(caller: Party, id: nat) returns (done: Option<()>)
      modifies this
      ensures Snapshot() == Next(old(Snapshot()), Execute(caller, id))
      ensures done.Some? <==> Step(old(Snapshot()), Execute(caller, id)).Some?
    {
      if caller != admin {
        return None;
      }
      var proposal :- Lookup(proposals, id);
      :- Require(proposal.status == Passed);
      proposal := proposal.(status := Executed);
      proposals := proposals[id := proposal];
      return Some(());
    }

    method CancelProposal(caller: Party, id: nat) returns (done: Option<()>)
      modifies this
      ensures Snapshot() == Next(old(Snapshot()), Cancel(caller, id))
      ensures done.Some? <==> Step(old(Snapshot()), Cancel(caller, id)).Some?
    {
      var proposal :- Lookup(proposals, id);
      :- Require(caller == proposal.proposer || caller == admin);
      proposal := proposal.(status := Cancelled);
      proposals := proposals[id := proposal];
      return Some(());
    }
  }
}

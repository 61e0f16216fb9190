/** The performance oracle: attestations listed by index, and the averaging loop that turns them into a consensus. */
module PerformanceOracle {
  import opened Chain
  import Arith
  import Runs
  import Sums

  datatype Attestation = Attestation(impressions: U64, clicks: U64, fraudRate: U32, quality: U32)

  datatype Consensus = Consensus(attesters: nat, impressions: int, clicks: int, fraudRate: U32, quality: U32)

  /** The stored attestations and their listing: entry `i` of a campaign names an attester. */
  datatype Book = Book(attestations: map<(nat, Party), Attestation>, counts: map<nat, nat>,
                       index: map<(nat, nat), Party>)

  datatype State = State(admin: Party, minAttesters: U32, authorized: set<Party>, book: Book,
                         consensus: map<nat, Consensus>)

  datatype Call =
    | Authorize(caller: Party, attester: Party)
    | Submit(attester: Party, campaign: nat, report: Attestation)

  /** The four figures an attestation reports. */
  datatype Figure = Impressions | Clicks | FraudRate | Quality

  function Value(a: Attestation, f: Figure): nat {
    match f
    case Impressions => a.impressions
    case Clicks => a.clicks
    case FraudRate => a.fraudRate
    case Quality => a.quality
  }

  function Init(admin: Party, minAttesters: U32): State {
    State(admin, minAttesters, {}, Book(map[], map[], map[]), map[])
  }

  // ----- what each entry point does -----

  function Count(b: Book, campaign: nat): nat {
    GetOr(b.counts, campaign, 0)
  }

  /** The two lookups of the averaging loop. */
  function Entry(b: Book, campaign: nat, i: nat): Option<Attestation> {
    var attester :- Lookup(b.index, (campaign, i));
    Lookup(b.attestations, (campaign, attester))
  }

  /** The sum of one figure over the first `n` listed attestations; a missing entry or an overflow panics. */
  function Accumulate(b: Book, campaign: nat, n: nat, f: Figure): Option<int> {
    if n == 0 then Some(0)
    else
      var sum :- Accumulate(b, campaign, n - 1, f);
      var a :- Entry(b, campaign, n - 1);
      :- Require(sum + Value(a, f) <= U64_MAX);
      Some(sum + Value(a, f))
  }

  function Averages(b: Book, campaign: nat, total: nat): Option<Consensus>
    requires total > 0
  {
    var impressions :- Accumulate(b, campaign, total, Impressions);
    var clicks :- Accumulate(b, campaign, total, Clicks);
    var fraudRate :- Accumulate(b, campaign, total, FraudRate);
    var quality :- Accumulate(b, campaign, total, Quality);
    Some(Consensus(total, Quot(impressions, total), Quot(clicks, total), AsU32(Quot(fraudRate, total)),
                   AsU32(Quot(quality, total))))
  }

  function TryBuildConsensus(s: State, campaign: nat, total: nat): Option<State>
    requires total > 0
  {
    if total < s.minAttesters then Some(s)
    else
      var c :- Averages(s.book, campaign, total);
      Some(s.(consensus := s.consensus[campaign := c]))
  }

  /** The writes a submission makes before it tries to build a consensus. */
  function Recorded(b: Book, attester: Party, campaign: nat, report: Attestation): Book {
    Book(b.attestations[(campaign, attester) := report],
         b.counts[campaign := Count(b, campaign) + 1],
         b.index[(campaign, Count(b, campaign)) := attester])
  }

  function SubmitStep(s: State, attester: Party, campaign: nat, report: Attestation): Option<State> {
    if attester !in s.authorized then None else
    :- Require((campaign, attester) !in s.book.attestations);
    TryBuildConsensus(s.(book := Recorded(s.book, attester, campaign, report)), campaign, Count(s.book, campaign) + 1)
  }

  function Step(s: State, c: Call): Option<State> {
    match c
    case Authorize(caller, attester) =>
      :- Require(caller == s.admin);
      Some(s.(authorized := s.authorized + {attester}))
    case Submit(attester, campaign, report) => SubmitStep(s, attester, campaign, report)
  }

  function Next(s: State, c: Call): State {
    Step(s, c).GetOr(s)
  }

  // ----- the listing -----

  ghost predicate Lists(b: Book, campaign: nat, u: Party) {
    exists i: nat :: i < Count(b, campaign) && (campaign, i) in b.index && b.index[(campaign, i)] == u
  }

  /** The index 0..count lists exactly the attesters with a stored attestation, each once. */
  ghost predicate ListingIsExact(b: Book, k: nat) {
    && (forall i: nat :: (k, i) in b.index <==> i < Count(b, k))
    && (forall i: nat, j: nat | i < j && (k, i) in b.index && (k, j) in b.index :: b.index[(k, i)] != b.index[(k, j)])
    && (forall u: Party :: (k, u) in b.attestations <==> Lists(b, k, u))
  }

  lemma RecordedKeepsListing(b: Book, attester: Party, campaign: nat, report: Attestation, k: nat)
    requires ListingIsExact(b, k) && (k == campaign ==> (campaign, attester) !in b.attestations)
    ensures ListingIsExact(Recorded(b, attester, campaign, report), k)
  {
    var b' := Recorded(b, attester, campaign, report);
    if k == campaign {
      var n := Count(b, campaign);
      assert b'.index[(campaign, n)] == attester;
      forall i: nat | i < n ensures b'.index[(k, i)] == b.index[(k, i)] != attester {
        assert !Lists(b, k, attester);
      }
      forall u: Party ensures (k, u) in b'.attestations <==> Lists(b', k, u) {
        if Lists(b, k, u) {
          var i: nat :| i < n && (campaign, i) in b.index && b.index[(campaign, i)] == u;
          assert (campaign, i) in b'.index && b'.index[(campaign, i)] == u;
        }
        if Lists(b', k, u) && u != attester {
          var i: nat :| i < n + 1 && (campaign, i) in b'.index && b'.index[(campaign, i)] == u;
          assert b.index[(campaign, i)] == u;
        }
      }
    } else {
      assert Count(b', k) == Count(b, k);
      assert forall i: nat :: (k, i) in b'.index <==> (k, i) in b.index;
      assert forall i: nat | (k, i) in b.index :: b'.index[(k, i)] == b.index[(k, i)];
      forall u: Party ensures Lists(b', k, u) <==> Lists(b, k, u) {
        if Lists(b, k, u) {
          var i: nat :| i < Count(b, k) && (k, i) in b.index && b.index[(k, i)] == u;
          assert b'.index[(k, i)] == u;
        }
      }
    }
  }

  lemma ListedEntryExists(b: Book, k: nat, i: nat)
    requires ListingIsExact(b, k) && i < Count(b, k)
    ensures (k, i) in b.index && (k, b.index[(k, i)]) in b.attestations
    ensures Entry(b, k, i) == Some(b.attestations[(k, b.index[(k, i)])])
  {
    assert (k, i) in b.index;
    assert Lists(b, k, b.index[(k, i)]);
  }

  // ----- sums over the list are sums over the attestations -----

  /** What an attestation contributes to a figure of `campaign`. */
  ghost function Share(campaign: nat, f: Figure): ((nat, Party), Attestation) -> int {
    (key: (nat, Party), a: Attestation) => if key.0 == campaign then Value(a, f) else 0
  }

  ghost function One(campaign: nat): ((nat, Party), Attestation) -> int {
    (key: (nat, Party), a: Attestation) => if key.0 == campaign then 1 else 0
  }

  /** A figure summed over every stored attestation of the campaign, in no particular order. */
  ghost function Total(b: Book, campaign: nat, f: Figure): int {
    Sums.Sum(b.attestations, Share(campaign, f))
  }

  ghost function Attesters(b: Book, campaign: nat): int {
    Sums.Sum(b.attestations, One(campaign))
  }

  /** The figure summed over the first `n` entries of the list, without limits. */
  ghost function ListSum(b: Book, campaign: nat, n: nat, f: Figure): int {
    if n == 0 then 0
    else
      var e := Entry(b, campaign, n - 1);
      ListSum(b, campaign, n - 1, f) + (if e.Some? then Value(e.value, f) else 0)
  }

  /** The lookups never fail, so the loop computes the list's sum or overflows. */
  lemma {:induction false} AccumulateIsListSum(b: Book, campaign: nat, n: nat, f: Figure)
    requires ListingIsExact(b, campaign) && n <= Count(b, campaign)
    ensures ListSum(b, campaign, n, f) >= 0
    ensures Accumulate(b, campaign, n, f) == if ListSum(b, campaign, n, f) <= U64_MAX
              then Some(ListSum(b, campaign, n, f)) else None
  {
    if n > 0 {
      AccumulateIsListSum(b, campaign, n - 1, f);
      ListedEntryExists(b, campaign, n - 1);
    }
  }

  lemma RecordedKeepsEntry(b: Book, attester: Party, campaign: nat, report: Attestation, k: nat, i: nat)
    requires ListingIsExact(b, k) && (campaign, attester) !in b.attestations && i < Count(b, k)
    ensures Entry(Recorded(b, attester, campaign, report), k, i) == Entry(b, k, i)
  {
    ListedEntryExists(b, k, i);
  }

  lemma {:induction false} RecordedKeepsPrefix(b: Book, attester: Party, campaign: nat, report: Attestation, k: nat,
                                               n: nat, f: Figure)
    requires ListingIsExact(b, k) && (campaign, attester) !in b.attestations && n <= Count(b, k)
    ensures ListSum(Recorded(b, attester, campaign, report), k, n, f) == ListSum(b, k, n, f)
  {
    if n > 0 {
      RecordedKeepsPrefix(b, attester, campaign, report, k, n - 1, f);
      RecordedKeepsEntry(b, attester, campaign, report, k, n - 1);
    }
  }

  // ----- the inductive invariant -----

  /** A campaign's listing is exact, and lists everything its totals count. */
  ghost predicate GoodBook(b: Book, k: nat) {
    && ListingIsExact(b, k)
    && (forall f: Figure :: ListSum(b, k, Count(b, k), f) == Total(b, k, f))
    && Attesters(b, k) == Count(b, k)
  }

  /** The consensus on record: all attesters, and the floor of the mean of each figure over all attestations. */
  ghost predicate IsMean(b: Book, campaign: nat, c: Consensus) {
    var n := Attesters(b, campaign);
    && n > 0 && c.attesters == n
    && c.impressions == Quot(Total(b, campaign, Impressions), n)
    && c.clicks == Quot(Total(b, campaign, Clicks), n)
    && c.fraudRate == Quot(Total(b, campaign, FraudRate), n)
    && c.quality == Quot(Total(b, campaign, Quality), n)
  }

  ghost predicate GoodCampaign(s: State, k: nat) {
    && GoodBook(s.book, k)
    && (k in s.consensus <==> Count(s.book, k) >= Max(1, s.minAttesters))
    && (k in s.consensus ==> IsMean(s.book, k, s.consensus[k]))
  }

  ghost predicate Inv(s: State) {
    forall k: nat :: GoodCampaign(s, k)
  }

  lemma InitInv(admin: Party, minAttesters: U32)
    ensures Inv(Init(admin, minAttesters))
  {
    var b := Book(map[], map[], map[]);
    assert forall k: nat, f: Figure :: Total(b, k, f) == 0;
  }

  lemma BoundsAdd(n: nat, sum: int, v: int, lo: nat, hi: nat)
    requires n * lo <= sum <= n * hi && lo <= v <= hi
    ensures (n + 1) * lo <= sum + v <= (n + 1) * hi
  {
    assert (n + 1) * lo == n * lo + lo && (n + 1) * hi == n * hi + hi;
  }

  /** A mean lies between bounds on its terms. */
  lemma {:induction false} MeanWithinBounds(b: Book, campaign: nat, n: nat, f: Figure, lo: nat, hi: nat)
    requires ListingIsExact(b, campaign) && n <= Count(b, campaign)
    requires forall u: Party | (campaign, u) in b.attestations :: lo <= Value(b.attestations[(campaign, u)], f) <= hi
    ensures n * lo <= ListSum(b, campaign, n, f) <= n * hi
    ensures n > 0 ==> lo <= Quot(ListSum(b, campaign, n, f), n) <= hi
  {
    if n > 0 {
      MeanWithinBounds(b, campaign, n - 1, f, lo, hi);
      ListedEntryExists(b, campaign, n - 1);
      var v := Value(Entry(b, campaign, n - 1).value, f);
      BoundsAdd(n - 1, ListSum(b, campaign, n - 1, f), v, lo, hi);
      FloorWithinBounds(ListSum(b, campaign, n, f), n, lo, hi);
    }
  }

  lemma FloorWithinBounds(sum: int, n: nat, lo: nat, hi: nat)
    requires n > 0 && n * lo <= sum <= n * hi
    ensures lo <= Quot(sum, n) <= hi
  {
    Arith.MulNonNeg(n, lo);
    Arith.QuotIsFloor(sum, n);
    Arith.FloorIsGreatest(lo, sum, n);
    Arith.CancelFactor(Quot(sum, n), hi, n);
  }

  lemma TotalAfterReport(b: Book, attester: Party, campaign: nat, report: Attestation, k: nat, f: Figure)
    requires (campaign, attester) !in b.attestations
    ensures Total(Recorded(b, attester, campaign, report), k, f)
              == Total(b, k, f) + (if k == campaign then Value(report, f) else 0)
  {
    Sums.SumUpdate(b.attestations, Share(k, f), (campaign, attester), report);
  }

  lemma ListSumAfterReport(b: Book, attester: Party, campaign: nat, report: Attestation, k: nat, f: Figure)
    requires ListingIsExact(b, k) && (campaign, attester) !in b.attestations
    ensures var b' := Recorded(b, attester, campaign, report);
            ListSum(b', k, Count(b', k), f)
                == ListSum(b, k, Count(b, k), f) + (if k == campaign then Value(report, f) else 0)
  {
    RecordedKeepsPrefix(b, attester, campaign, report, k, Count(b, k), f);
  }

  lemma RecordedKeepsBook(b: Book, attester: Party, campaign: nat, report: Attestation, k: nat)
    requires GoodBook(b, k) && (campaign, attester) !in b.attestations
    ensures GoodBook(Recorded(b, attester, campaign, report), k)
  {
    var b' := Recorded(b, attester, campaign, report);
    RecordedKeepsListing(b, attester, campaign, report, k);
    Sums.SumUpdate(b.attestations, One(k), (campaign, attester), report);
    forall f: Figure ensures ListSum(b', k, Count(b', k), f) == Total(b', k, f) {
      TotalAfterReport(b, attester, campaign, report, k, f);
      ListSumAfterReport(b, attester, campaign, report, k, f);
    }
  }

  /** The sum the loop reports is the total; and 32-bit figures have a 32-bit mean, so the casts lose nothing. */
  lemma LoopComputesTotal(b: Book, campaign: nat, f: Figure)
    requires GoodBook(b, campaign) && Count(b, campaign) > 0
    requires Accumulate(b, campaign, Count(b, campaign), f).Some?
    ensures Accumulate(b, campaign, Count(b, campaign), f).value == Total(b, campaign, f)
    ensures f == FraudRate || f == Quality ==> 0 <= Quot(Total(b, campaign, f), Count(b, campaign)) <= U32_MAX
  {
    AccumulateIsListSum(b, campaign, Count(b, campaign), f);
    if f == FraudRate || f == Quality {
      MeanWithinBounds(b, campaign, Count(b, campaign), f, 0, U32_MAX);
    }
  }

  lemma AveragesAreMeans(b: Book, campaign: nat)
    requires GoodBook(b, campaign) && Count(b, campaign) > 0
    requires Averages(b, campaign, Count(b, campaign)).Some?
    ensures IsMean(b, campaign, Averages(b, campaign, Count(b, campaign)).value)
  {
    LoopComputesTotal(b, campaign, Impressions);
    LoopComputesTotal(b, campaign, Clicks);
    LoopComputesTotal(b, campaign, FraudRate);
    LoopComputesTotal(b, campaign, Quality);
  }

  /** A report on one campaign leaves the means of the others alone. */
  lemma OtherMeansStay(b: Book, attester: Party, campaign: nat, report: Attestation, k: nat, c: Consensus)
    requires k != campaign && (campaign, attester) !in b.attestations && IsMean(b, k, c)
    ensures IsMean(Recorded(b, attester, campaign, report), k, c)
  {
    Sums.SumUpdate(b.attestations, One(k), (campaign, attester), report);
    TotalAfterReport(b, attester, campaign, report, k, Impressions);
    TotalAfterReport(b, attester, campaign, report, k, Clicks);
    TotalAfterReport(b, attester, campaign, report, k, FraudRate);
    TotalAfterReport(b, attester, campaign, report, k, Quality);
  }

  lemma SubmitKeepsCampaign(s: State, attester: Party, campaign: nat, report: Attestation, k: nat)
    requires GoodCampaign(s, k) && SubmitStep(s, attester, campaign, report).Some?
    ensures GoodCampaign(SubmitStep(s, attester, campaign, report).value, k)
  {
    var b' := Recorded(s.book, attester, campaign, report);
    RecordedKeepsBook(s.book, attester, campaign, report, k);
    if k != campaign {
      if k in s.consensus {
        OtherMeansStay(s.book, attester, campaign, report, k, s.consensus[k]);
      }
    } else if Count(b', k) >= s.minAttesters {
      AveragesAreMeans(b', k);
    }
  }

  lemma NextKeepsInv(s: State, c: Call)
    requires Inv(s)
    ensures Inv(Next(s, c))
  {
    if Step(s, c).Some? {
      forall k: nat ensures GoodCampaign(Next(s, c), k) {
        assert GoodCampaign(s, k);
        if c.Submit? {
          SubmitKeepsCampaign(s, c.attester, c.campaign, c.report, k);
        }
      }
    }
  }

  /**
   * On every run: the index lists exactly the attesters, a consensus exists exactly from max(1, minimum)
   * attestations on, and its averages are the floor means over all attestations.
   */
  lemma {:induction false} RunKeepsInv(s: State, calls: seq<Call>)
    requires Inv(s)
    ensures Inv(Runs.Run(Next, s, calls))
    decreases |calls|
  {
    if calls != [] {
      NextKeepsInv(s, calls[0]);
      RunKeepsInv(Next(s, calls[0]), calls[1..]);
    }
  }

  /**
   * From a fresh oracle, on every run: a campaign has a consensus exactly when max(1, minimum) attesters or more have
   * an attestation on record, and it reports all of them and the floor of the mean of each figure over them all.
   */
  lemma ConsensusOnEveryRun(admin: Party, minAttesters: U32, calls: seq<Call>, k: nat)
    ensures var s := Runs.Run(Next, Init(admin, minAttesters), calls); var n := Attesters(s.book, k);
            && Inv(s) && n == Count(s.book, k)
            && (k in s.consensus <==> n >= Max(1, minAttesters))
            && (k in s.consensus ==> IsMean(s.book, k, s.consensus[k]))
  {
    var s := Runs.Run(Next, Init(admin, minAttesters), calls);
    InitInv(admin, minAttesters);
    RunKeepsInv(Init(admin, minAttesters), calls);
    AttestersAreAsNamed(Init(admin, minAttesters), calls, admin);
    assert GoodCampaign(s, k);
  }

  // ----- consequences -----

  function Average(c: Consensus, f: Figure): int {
    match f
    case Impressions => c.impressions
    case Clicks => c.clicks
    case FraudRate => c.fraudRate
    case Quality => c.quality
  }

  /** The averages lie between the least and the greatest figure reported. */
  lemma AveragesWithinReports(s: State, campaign: nat, f: Figure, lo: nat, hi: nat)
    requires Inv(s) && campaign in s.consensus
    requires forall u: Party | (campaign, u) in s.book.attestations ::
               lo <= Value(s.book.attestations[(campaign, u)], f) <= hi
    ensures lo <= Average(s.consensus[campaign], f) <= hi
  {
    assert GoodCampaign(s, campaign);
    MeanWithinBounds(s.book, campaign, Count(s.book, campaign), f, lo, hi);
  }

  function Concerns(campaign: nat): ((nat, Party)) -> bool {
    (key: (nat, Party)) => key.0 == campaign
  }

  /** The attestations of one campaign. */
  ghost function About(b: Book, campaign: nat): map<(nat, Party), Attestation> {
    Sums.Keep(b.attestations, Concerns(campaign))
  }

  lemma TotalsDependOnAttestations(b: Book, campaign: nat, f: Figure)
    ensures Attesters(b, campaign) == Sums.Sum(About(b, campaign), One(campaign))
    ensures Total(b, campaign, f) == Sums.Sum(About(b, campaign), Share(campaign, f))
  {
    Sums.SumRestrict(b.attestations, One(campaign), Concerns(campaign));
    Sums.SumRestrict(b.attestations, Share(campaign, f), Concerns(campaign));
  }

  /** Two oracles with the same attestations of a campaign, in whatever order they came, report the same consensus. */
  lemma OrderDoesNotMatter(s: State, t: State, campaign: nat)
    requires Inv(s) && Inv(t) && campaign in s.consensus && campaign in t.consensus
    requires About(s.book, campaign) == About(t.book, campaign)
    ensures s.consensus[campaign] == t.consensus[campaign]
  {
    assert GoodCampaign(s, campaign) && GoodCampaign(t, campaign);
    forall f: Figure ensures Total(s.book, campaign, f) == Total(t.book, campaign, f) {
      TotalsDependOnAttestations(s.book, campaign, f);
      TotalsDependOnAttestations(t.book, campaign, f);
    }
    TotalsDependOnAttestations(s.book, campaign, Impressions);
    TotalsDependOnAttestations(t.book, campaign, Impressions);
  }

  /** The loop overflows exactly when a total does not fit 64 bits. */
  lemma AveragesFailOnlyOnOverflow(b: Book, campaign: nat)
    requires GoodBook(b, campaign) && Count(b, campaign) > 0
    ensures Averages(b, campaign, Count(b, campaign)).Some? <==> forall f: Figure :: Total(b, campaign, f) <= U64_MAX
  {
    var n := Count(b, campaign);
    forall f: Figure ensures Accumulate(b, campaign, n, f).Some? <==> Total(b, campaign, f) <= U64_MAX {
      AccumulateIsListSum(b, campaign, n, f);
    }
    if Averages(b, campaign, n).Some? {
      forall f: Figure ensures Accumulate(b, campaign, n, f).Some? {
        match f
        case Impressions =>
        case Clicks =>
        case FraudRate =>
        case Quality =>
      }
    }
  }

  /** An authorised first report is refused only if it completes a quorum whose sums would exceed 64 bits. */
  lemma SubmissionRefusedOnlyOnOverflow(s: State, attester: Party, campaign: nat, report: Attestation)
    requires Inv(s) && attester in s.authorized && (campaign, attester) !in s.book.attestations
    ensures SubmitStep(s, attester, campaign, report).Some? <==>
              Count(s.book, campaign) + 1 < s.minAttesters
              || forall f: Figure :: Total(s.book, campaign, f) + Value(report, f) <= U64_MAX
  {
    var b' := Recorded(s.book, attester, campaign, report);
    assert GoodCampaign(s, campaign);
    RecordedKeepsBook(s.book, attester, campaign, report, campaign);
    AveragesFailOnlyOnOverflow(b', campaign);
    forall f: Figure ensures Total(b', campaign, f) == Total(s.book, campaign, f) + Value(report, f) {
      TotalAfterReport(s.book, attester, campaign, report, campaign, f);
    }
  }

  // ----- when calls succeed -----

  /** Exactly when each call succeeds. */
  lemma CallsSucceedIff(s: State, c: Call)
    requires Inv(s)
    ensures Step(s, c).Some? <==>
              match c
              case Authorize(u, _) => u == s.admin
              case Submit(u, k, report) =>
                && u in s.authorized && (k, u) !in s.book.attestations
                && (Attesters(s.book, k) + 1 < s.minAttesters
                    || forall f: Figure :: Total(s.book, k, f) + Value(report, f) <= U64_MAX)
  {
    if c.Submit? && c.attester in s.authorized && (c.campaign, c.attester) !in s.book.attestations {
      assert GoodCampaign(s, c.campaign);
      SubmissionRefusedOnlyOnOverflow(s, c.attester, c.campaign, c.report);
    }
  }

  lemma AuthorityStep(s: State, c: Call, u: Party)
    ensures u in Next(s, c).authorized <==> u in s.authorized || c == Authorize(s.admin, u)
    ensures Next(s, c).admin == s.admin && Next(s, c).minAttesters == s.minAttesters
  {
  }

  /** On every run the attesters are those the administrator named, and the minimum stays as it was set. */
  lemma {:induction false} AttestersAreAsNamed(s: State, calls: seq<Call>, u: Party)
    ensures var s' := Runs.Run(Next, s, calls);
            && (u in s'.authorized <==> u in s.authorized || Authorize(s.admin, u) in calls)
            && s'.minAttesters == s.minAttesters
    decreases |calls|
  {
    if calls != [] {
      AuthorityStep(s, calls[0], u);
      AttestersAreAsNamed(Next(s, calls[0]), calls[1..], u);
      assert calls == [calls[0]] + calls[1..];
    }
  }

  // ----- who may change what -----

  /** Attestations are made by authorised attesters for themselves, once, and only the administrator authorises. */
  lemma ChangesAreAuthorised(s: State, c: Call)
    ensures var s' := Next(s, c);
            && (s'.authorized != s.authorized ==> c.Authorize? && c.caller == s.admin)
            && (s'.book != s.book ==>
                  && c.Submit? && c.attester in s.authorized && (c.campaign, c.attester) !in s.book.attestations
                  && s'.book.attestations == s.book.attestations[(c.campaign, c.attester) := c.report])
  {
  }

  /** A recorded attestation is never changed or withdrawn, by its attester or anyone else. */
  lemma {:induction false} AttestationsAreFinal(s: State, calls: seq<Call>, key: (nat, Party))
    requires key in s.book.attestations
    ensures var b := Runs.Run(Next, s, calls).book;
            key in b.attestations && b.attestations[key] == s.book.attestations[key]
    decreases |calls|
  {
    if calls != [] {
      ChangesAreAuthorised(s, calls[0]);
      AttestationsAreFinal(Next(s, calls[0]), calls[1..], key);
    }
  }

  /** Through any run without calls of the administrator, an address not authorised stays so and attests nothing. */
  lemma {:induction false} StrangersAttestNothing(s: State, calls: seq<Call>, u: Party, k: nat)
    requires u !in s.authorized && (k, u) !in s.book.attestations
    requires forall c | c in calls :: c.Authorize? ==> c.caller != s.admin
    ensures (k, u) !in Runs.Run(Next, s, calls).book.attestations
    decreases |calls|
  {
    if calls != [] {
      assert calls[0] in calls;
      ChangesAreAuthorised(s, calls[0]);
      StrangersAttestNothing(Next(s, calls[0]), calls[1..], u, k);
    }
  }

  // ----- the contract itself -----

  class Oracle {
    const minAttesters: U32
    var admin: Party
    var authorized: set<Party>
    var attestations: map<(nat, Party), Attestation>
    var counts: map<nat, nat>
    var index: map<(nat, nat), Party>
    var consensus: map<nat, Consensus>

    function Snapshot(): State
      reads this
    {
      State(admin, minAttesters, authorized, Book(attestations, counts, index), consensus)
    }

    constructor (admin: Party, minAttesters: U32)
      ensures Snapshot() == Init(admin, minAttesters)
    {
      this.admin, this.minAttesters, this.authorized := admin, minAttesters, {};
      this.attestations, this.counts, this.index, this.consensus := map[], map[], map[], map[];
    }

    method AuthorizeAttester(caller: Party, attester: Party) returns (done: Option<()>)
      modifies this
      ensures Snapshot() == Next(old(Snapshot()), Authorize(caller, attester))
      ensures done.Some? <==> caller == old(admin)
    {
      if caller != admin {
        return None;
      }
      authorized := authorized + {attester};
      return Some(());
    }

    method SubmitAttestation(attester: Party, campaign: nat, report: Attestation) returns (done: Option<()>)
      modifies this
      ensures Snapshot() == Next(old(Snapshot()), Submit(attester, campaign, report))
      ensures done.Some? <==> Step(old(Snapshot()), Submit(attester, campaign, report)).Some?
    {
      if attester !in authorized {
        return None;
      }
      :- Require((campaign, attester) !in attestations);
      var oldAttestations, oldIndex, oldCounts := attestations, index, counts;
      attestations := attestations[(campaign, attester) := report];
      var count := GetOr(counts, campaign, 0);
      index := index[(campaign, count) := attester];
      counts := counts[campaign := count + 1];
      assert Book(attestations, counts, index) == Recorded(old(Snapshot()).book, attester, campaign, report);
      var built := BuildConsensus(campaign, count + 1);
      if built.None? {
        attestations, index, counts := oldAttestations, oldIndex, oldCounts;  // the panic undoes the writes
        return None;
      }
      return Some(());
    }

    /** Reads back every listed attestation and averages the four figures. */
    method BuildConsensus(campaign: nat, total: nat) returns (done: Option<()>)
      requires total > 0
      modifies this`consensus
      ensures done.Some? <==> TryBuildConsensus(old(Snapshot()), campaign, total).Some?
      ensures Snapshot() == TryBuildConsensus(old(Snapshot()), campaign, total).GetOr(old(Snapshot()))
    {
      if total < minAttesters {
        return Some(());
      }
      ghost var b := Snapshot().book;
      var impressions, clicks, fraudRate, quality := 0, 0, 0, 0;
      for i := 0 to total
        invariant Accumulate(b, campaign, i, Impressions) == Some(impressions)
        invariant Accumulate(b, campaign, i, Clicks) == Some(clicks)
        invariant Accumulate(b, campaign, i, FraudRate) == Some(fraudRate)
        invariant Accumulate(b, campaign, i, Quality) == Some(quality)
      {
        var attester := Lookup(index, (campaign, i));
        var a := if attester.None? then None else Lookup(attestations, (campaign, attester.value));
        if a.None?
          || impressions + a.value.impressions > U64_MAX || clicks + a.value.clicks > U64_MAX
          || fraudRate + a.value.fraudRate > U64_MAX || quality + a.value.quality > U64_MAX
        {
          FailureLasts(b, campaign, i + 1, total);
          return None;
        }
        impressions := impressions + a.value.impressions;
        clicks := clicks + a.value.clicks;
        fraudRate := fraudRate + a.value.fraudRate;
        quality := quality + a.value.quality;
      }
      consensus := consensus[campaign := Consensus(total, Quot(impressions, total), Quot(clicks, total),
                                                   AsU32(Quot(fraudRate, total)), AsU32(Quot(quality, total)))];
      return Some(());
    }
  }

  /** A loop that has failed by `m` has failed by `n`. */
  lemma {:induction false} FailureLasts(b: Book, campaign: nat, m: nat, n: nat)
    requires m <= n
    ensures forall f: Figure | Accumulate(b, campaign, m, f).None? :: Accumulate(b, campaign, n, f).None?
  {
    if m < n {
      FailureLasts(b, campaign, m, n - 1);
    }
  }
}

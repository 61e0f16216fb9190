/** The campaign lifecycle: a state machine whose every move is logged. */
module CampaignLifecycle {
  import opened Chain
  import Runs

  datatype Stage = Draft | PendingReview | Active | Paused | Completed | Cancelled | Expired | Archived | Rejected

  datatype Lifecycle = Lifecycle(advertiser: Party, stage: Stage, pauses: nat, extensions: nat, originalEnd: U32,
                                 currentEnd: U32)

  datatype Move = Move(from: Stage, to: Stage, actor: Party)

  datatype State = State(
    admin: Party, fraud: Option<Party>, lifecycles: map<nat, Lifecycle>, counts: map<nat, nat>,
    log: map<(nat, nat), Move>)

  datatype Call =
    | SetFraud(caller: Party, fraud: Party)
    | Register(advertiser: Party, id: nat, end: U32)
    | Transition(actor: Party, id: nat, to: Stage)
    | PauseForFraud(actor: Party, id: nat)
    | Extend(advertiser: Party, id: nat, extra: U32)

  const MAX_EXTENSIONS := 10
  const MAX_DURATION_MULTIPLIER := 3

  function Init(admin: Party): State {
    State(admin, None, map[], map[], map[])
  }

  // ----- what each entry point does -----

  /** The legal edges. */
  function Legal(from: Stage, to: Stage): bool {
    match from
    case Draft => to == PendingReview || to == Cancelled
    case PendingReview => to == Active || to == Rejected || to == Cancelled
    case Active => to == Paused || to == Completed || to == Cancelled || to == Expired
    case Paused => to == Active || to == Cancelled
    case _ => false
  }

  function Count(s: State, id: nat): nat {
    GetOr(s.counts, id, 0)
  }

  function TransitionStep(s: State, actor: Party, id: nat, to: Stage): Option<State> {
    var l :- Lookup(s.lifecycles, id);
    :- Require(actor == l.advertiser || actor == s.admin || s.fraud == Some(actor));
    :- Require(Legal(l.stage, to));
    var n := Count(s, id);
    Some(s.(lifecycles := s.lifecycles[id :=
                                       l.(stage := to, pauses := if to == Paused then l.pauses + 1 else l.pauses)],
            log := s.log[(id, n) := Move(l.stage, to, actor)],
            counts := s.counts[id := n + 1]))
  }

  function SaturatingAdd(a: U32, b: U32): U32 {
    Min(a + b, U32_MAX)
  }

  /** The latest end an extension may reach. */
  function MaxEnd(originalEnd: U32): U32 {
    Min(originalEnd * MAX_DURATION_MULTIPLIER, U32_MAX)
  }

  function ExtendStep(s: State, advertiser: Party, id: nat, extra: U32): Option<State> {
    var l :- Lookup(s.lifecycles, id);
    :- Require(l.advertiser == advertiser);
    :- Require(l.stage == Active);
    :- Require(extra != 0);
    :- Require(l.extensions < MAX_EXTENSIONS);
    var end := SaturatingAdd(l.currentEnd, extra);
    :- Require(end <= MaxEnd(l.originalEnd));
    Some(s.(lifecycles := s.lifecycles[id := l.(currentEnd := end, extensions := l.extensions + 1)]))
  }

  function Step(s: State, c: Call): Option<State> {
    match c
    case SetFraud(caller, fraud) =>
      :- Require(caller == s.admin);
      Some(s.(fraud := Some(fraud)))
    case Register(advertiser, id, end) =>
      Some(s.(lifecycles := s.lifecycles[id := Lifecycle(advertiser, Draft, 0, 0, end, end)]))
    case Transition(actor, id, to) => TransitionStep(s, actor, id, to)
    case PauseForFraud(actor, id) =>
      var fraud :- s.fraud;
      :- Require(actor == fraud);
      TransitionStep(s, actor, id, Paused)
    case Extend(advertiser, id, extra) => ExtendStep(s, advertiser, id, extra)
  }

  function Next(s: State, c: Call): State {
    Step(s, c).GetOr(s)
  }

  // ----- the log is a path -----

  /** How many of the first `n` moves of a campaign are pauses. */
  ghost function PausesIn(s: State, id: nat, n: nat): nat {
    if n == 0 then 0
    else PausesIn(s, id, n - 1) + (if (id, n - 1) in s.log && s.log[(id, n - 1)].to == Paused then 1 else 0)
  }

  /** The first `n` moves form a connected path of legal edges from Draft to `end`. */
  ghost predicate IsPath(s: State, id: nat, n: nat, end: Stage) {
    if n == 0 then end == Draft
    else
      && (id, n - 1) in s.log
      && s.log[(id, n - 1)].to == end
      && Legal(s.log[(id, n - 1)].from, end)
      && IsPath(s, id, n - 1, s.log[(id, n - 1)].from)
  }

  predicate Terminal(stage: Stage) {
    stage != Draft && stage != PendingReview && stage != Active && stage != Paused
  }

  /** A campaign's log is a path to its stage, and its pause counter counts the log's pauses. */
  ghost predicate LogAgrees(s: State, id: nat) {
    var n := Count(s, id);
    && (id !in s.lifecycles ==> n == 0)
    && (id in s.lifecycles ==>
          var l := s.lifecycles[id];
          IsPath(s, id, n, l.stage) && l.pauses == PausesIn(s, id, n))
  }

  /** Where on a path a stage can stand: its length is fixed by the pauses before it. */
  lemma {:induction false} PathLength(s: State, id: nat, n: nat, end: Stage)
    requires IsPath(s, id, n, end)
    ensures var p := PausesIn(s, id, n);
            match end
            case Draft => n == 0
            case PendingReview => n == 1 && p == 0
            case Active => n == 2 * p + 2
            case Paused => n == 2 * p + 1 && p >= 1
            case _ => end != Archived && n <= 2 * p + 3
  {
    if n > 0 {
      PathLength(s, id, n - 1, s.log[(id, n - 1)].from);
    }
  }

  /** Moves appended later, or for other campaigns, leave a path as it was. */
  lemma {:induction false} PathPersists(s: State, s': State, id: nat, n: nat, end: Stage)
    requires forall i: nat | i < n && (id, i) in s.log :: (id, i) in s'.log && s'.log[(id, i)] == s.log[(id, i)]
    requires IsPath(s, id, n, end)
    ensures IsPath(s', id, n, end) && PausesIn(s', id, n) == PausesIn(s, id, n)
  {
    if n > 0 {
      PathPersists(s, s', id, n - 1, s.log[(id, n - 1)].from);
    }
  }

  lemma TransitionKeepsLog(s: State, actor: Party, id: nat, to: Stage, k: nat)
    requires LogAgrees(s, k) && TransitionStep(s, actor, id, to).Some?
    ensures LogAgrees(TransitionStep(s, actor, id, to).value, k)
  {
    if k in s.lifecycles {
      PathPersists(s, TransitionStep(s, actor, id, to).value, k, Count(s, k), s.lifecycles[k].stage);
    }
  }

  lemma ExtendKeepsLog(s: State, c: Call, k: nat)
    requires LogAgrees(s, k) && (c.Extend? || c.SetFraud?)
    ensures LogAgrees(Next(s, c), k)
  {
    if k in s.lifecycles {
      PathPersists(s, Next(s, c), k, Count(s, k), s.lifecycles[k].stage);
    }
  }

  /** Registering a campaign keeps its log a path exactly when nothing has been logged for it yet. */
  lemma RegisterKeepsLogIff(s: State, c: Call)
    requires c.Register? && LogAgrees(s, c.id)
    ensures LogAgrees(Next(s, c), c.id) <==> Count(s, c.id) == 0
  {
    var s' := Next(s, c);
    var n := Count(s, c.id);
    if n > 0 && IsPath(s', c.id, n, Draft) {
      PathLength(s', c.id, n, Draft);
    }
  }

  lemma OtherRegistrationKeepsLog(s: State, c: Call, k: nat)
    requires c.Register? && c.id != k && LogAgrees(s, k)
    ensures LogAgrees(Next(s, c), k)
  {
    if k in s.lifecycles {
      PathPersists(s, Next(s, c), k, Count(s, k), s.lifecycles[k].stage);
    }
  }

  /** Counts the registrations of campaign `id`. */
  function Registration(id: nat): (State, Call) -> int {
    (s: State, c: Call) => if c.Register? && c.id == id then 1 else 0
  }

  /** Counts the registrations of campaign `id` that find moves already logged for it. */
  function LateRegistration(id: nat): (State, Call) -> int {
    (s: State, c: Call) => if c.Register? && c.id == id && Count(s, id) > 0 then 1 else 0
  }

  /** A log that is no path to the campaign's stage. */
  ghost predicate Broken(s: State, id: nat) {
    id in s.lifecycles && Count(s, id) > 0 && !IsPath(s, id, Count(s, id), s.lifecycles[id].stage)
  }

  lemma LogStep(s: State, c: Call, id: nat)
    requires LogAgrees(s, id)
    ensures if LateRegistration(id)(s, c) == 0 then LogAgrees(Next(s, c), id) else Broken(Next(s, c), id)
  {
    if Step(s, c).Some? {
      match c
      case Transition(actor, k, to) => TransitionKeepsLog(s, actor, k, to, id);
      case PauseForFraud(actor, k) => TransitionKeepsLog(s, actor, k, Paused, id);
      case Register(_, k, _) => if k == id { RegisterKeepsLogIff(s, c); } else { OtherRegistrationKeepsLog(s, c, id); }
      case _ => ExtendKeepsLog(s, c, id);
    }
  }

  /** A call appends at most one move to a campaign's log, after all moves it counts. */
  lemma LogGrowsAtTheEnd(s: State, c: Call, id: nat, i: nat)
    requires i < Count(s, id)
    ensures (id, i) in s.log <==> (id, i) in Next(s, c).log
    ensures (id, i) in s.log ==> Next(s, c).log[(id, i)] == s.log[(id, i)]
    ensures Count(s, id) <= Count(Next(s, c), id) <= Count(s, id) + 1
  {
  }

  lemma PathsAlike(s: State, c: Call, id: nat, end: Stage)
    ensures IsPath(s, id, Count(s, id), end) <==> IsPath(Next(s, c), id, Count(s, id), end)
  {
    var s', n := Next(s, c), Count(s, id);
    forall i: nat | i < n
      ensures (id, i) in s.log <==> (id, i) in s'.log
      ensures (id, i) in s.log ==> s'.log[(id, i)] == s.log[(id, i)]
    {
      LogGrowsAtTheEnd(s, c, id, i);
    }
    if IsPath(s, id, n, end) {
      PathPersists(s, s', id, n, end);
    }
    if IsPath(s', id, n, end) {
      PathPersists(s', s, id, n, end);
    }
  }

  /** What a call can do to a campaign: register it anew, log one move from its stage, or leave both alone. */
  lemma StageOrLog(s: State, c: Call, id: nat)
    requires id in s.lifecycles
    ensures var s', n := Next(s, c), Count(s, id);
            id in s'.lifecycles &&
            (|| (c.Register? && s'.lifecycles[id].stage == Draft && Count(s', id) == n)
             || (s'.lifecycles[id].stage == s.lifecycles[id].stage && Count(s', id) == n)
             || (Count(s', id) == n + 1 && (id, n) in s'.log && s'.log[(id, n)].from == s.lifecycles[id].stage
                 && s'.log[(id, n)].to == s'.lifecycles[id].stage))
  {
  }

  /** Once broken, a log stays broken: the moves that break it are never removed. */
  lemma BrokenStep(s: State, c: Call, id: nat)
    requires Broken(s, id)
    ensures Broken(Next(s, c), id)
  {
    var s', n := Next(s, c), Count(s, id);
    StageOrLog(s, c, id);
    PathsAlike(s, c, id, s.lifecycles[id].stage);
    if IsPath(s', id, n, Draft) {
      PathLength(s', id, n, Draft);
    }
  }

  lemma {:induction false} StaysBroken(s: State, calls: seq<Call>, id: nat)
    requires Broken(s, id)
    ensures Broken(Runs.Run(Next, s, calls), id)
    decreases |calls|
  {
    if calls != [] {
      BrokenStep(s, calls[0], id);
      StaysBroken(Next(s, calls[0]), calls[1..], id);
    }
  }

  lemma {:induction false} CountsNonNegative(s: State, calls: seq<Call>, id: nat)
    ensures Runs.Collect(Next, LateRegistration(id), s, calls) >= 0
    ensures Runs.Collect(Next, Registration(id), s, calls) >= 0
    decreases |calls|
  {
    if calls != [] {
      CountsNonNegative(Next(s, calls[0]), calls[1..], id);
    }
  }

  /** After a run the log is a path to the stage exactly when no registration in it found a move already logged. */
  lemma {:induction false} LogLaw(s: State, calls: seq<Call>, id: nat)
    requires LogAgrees(s, id)
    ensures LogAgrees(Runs.Run(Next, s, calls), id) <==> Runs.Collect(Next, LateRegistration(id), s, calls) == 0
    decreases |calls|
  {
    if calls != [] {
      var s', rest := Next(s, calls[0]), calls[1..];
      LogStep(s, calls[0], id);
      CountsNonNegative(s', rest, id);
      if LateRegistration(id)(s, calls[0]) == 0 {
        LogLaw(s', rest, id);
      } else {
        StaysBroken(s', rest, id);
      }
    }
  }

  lemma RegistrationStep(s: State, c: Call, id: nat)
    requires LogAgrees(s, id)
    ensures id in s.lifecycles || (c.Register? && c.id == id) ==> id in Next(s, c).lifecycles
    ensures id !in s.lifecycles ==> LateRegistration(id)(s, c) == 0
  {
  }

  /** A campaign registered at most once is never registered late. */
  lemma {:induction false} OneRegistrationIsNotLate(s: State, calls: seq<Call>, id: nat)
    requires LogAgrees(s, id)
    requires Runs.Collect(Next, Registration(id), s, calls) <= (if id in s.lifecycles then 0 else 1)
    ensures Runs.Collect(Next, LateRegistration(id), s, calls) == 0
    decreases |calls|
  {
    if calls != [] {
      var s', rest := Next(s, calls[0]), calls[1..];
      CountsNonNegative(s', rest, id);
      RegistrationStep(s, calls[0], id);
      LogStep(s, calls[0], id);
      OneRegistrationIsNotLate(s', rest, id);
    }
  }

  /**
   * From a fresh contract, on every run: the log is a connected path of legal edges from Draft to the stage,
   * with its pauses counted, exactly when no registration came after a logged move, as is so for a campaign
   * registered at most once. Then it is no longer than 2*pauses + 3, and the campaign is never archived.
   */
  lemma LogIsAPath(admin: Party, calls: seq<Call>, id: nat)
    ensures var s := Runs.Run(Next, Init(admin), calls);
            && (LogAgrees(s, id) <==> Runs.Collect(Next, LateRegistration(id), Init(admin), calls) == 0)
            && (Runs.Collect(Next, Registration(id), Init(admin), calls) <= 1 ==> LogAgrees(s, id))
            && (LogAgrees(s, id) && id in s.lifecycles ==>
                  Count(s, id) <= 2 * s.lifecycles[id].pauses + 3 && s.lifecycles[id].stage != Archived)
  {
    LogLaw(Init(admin), calls, id);
    var s := Runs.Run(Next, Init(admin), calls);
    if Runs.Collect(Next, Registration(id), Init(admin), calls) <= 1 {
      OneRegistrationIsNotLate(Init(admin), calls, id);
    }
    if LogAgrees(s, id) && id in s.lifecycles {
      PathLength(s, id, Count(s, id), s.lifecycles[id].stage);
    }
  }

  /** The exception arises: register, submit for review, register again. */
  lemma LateRegistrationBreaksLog(admin: Party, u: Party, v: Party, id: nat, end: U32)
    ensures var calls := [Register(u, id, end), Transition(u, id, PendingReview), Register(v, id, end)];
            var s := Runs.Run(Next, Init(admin), calls);
            id in s.lifecycles && s.lifecycles[id].stage == Draft && Count(s, id) == 1 && !LogAgrees(s, id)
  {
    var s1 := Next(Init(admin), Register(u, id, end));
    var s2 := Next(s1, Transition(u, id, PendingReview));
    var c := Register(v, id, end);
    var s3 := Next(s2, c);
    assert Runs.Run(Next, s2, [c]) == s3;
    if IsPath(s3, id, 1, Draft) {
      PathLength(s3, id, 1, Draft);
    }
  }

  // ----- when calls succeed, and what they leave -----

  /** The life of a campaign: under review before it runs, paused and resumed at will, ended in one of four ways. */
  const EDGES: set<(Stage, Stage)> := {
    (Draft, PendingReview), (PendingReview, Active), (PendingReview, Rejected),
    (Active, Paused), (Paused, Active), (Active, Completed), (Active, Expired),
    (Draft, Cancelled), (PendingReview, Cancelled), (Active, Cancelled), (Paused, Cancelled)
  }

  /** Who may move a campaign at all. */
  predicate MayMove(s: State, u: Party, id: nat)
    requires id in s.lifecycles
  {
    u == s.lifecycles[id].advertiser || u == s.admin || s.fraud == Some(u)
  }

  /** Exactly when each call succeeds: every edge can be taken, and no other; every end within reach can be set. */
  lemma CallsSucceedIff(s: State, c: Call)
    requires EndsInRange(s)
    ensures Step(s, c).Some? <==>
              match c
              case SetFraud(u, _) => u == s.admin
              case Register(_, _, _) => true
              case Transition(u, id, to) =>
                id in s.lifecycles && MayMove(s, u, id) && (s.lifecycles[id].stage, to) in EDGES
              case PauseForFraud(u, id) => id in s.lifecycles && s.fraud == Some(u) && s.lifecycles[id].stage == Active
              case Extend(u, id, extra) =>
                && id in s.lifecycles
                && var l := s.lifecycles[id];
                   && u == l.advertiser && l.stage == Active && extra > 0 && l.extensions < 10
                   && (l.currentEnd + extra <= 3 * l.originalEnd || 3 * l.originalEnd >= U32_MAX)
  {
  }

  /** A move leaves the campaign in the stage asked for, counted if a pause, and is the next entry of its log. */
  lemma MoveLeaves(s: State, c: Call)
    requires (c.Transition? || c.PauseForFraud?) && Step(s, c).Some?
    ensures c.id in s.lifecycles && c.id in Next(s, c).lifecycles && (c.id, Count(s, c.id)) in Next(s, c).log
    ensures var s', l, to := Next(s, c), s.lifecycles[c.id], if c.Transition? then c.to else Paused;
            && s'.lifecycles[c.id] == l.(stage := to, pauses := if to == Paused then l.pauses + 1 else l.pauses)
            && s'.log[(c.id, Count(s, c.id))] == Move(l.stage, to, c.actor)
            && Count(s', c.id) == Count(s, c.id) + 1
  {
  }

  /** A registration starts a campaign afresh; an extension moves its end as far as 32 bits allow, and is counted. */
  lemma RegistrationAndExtensionLeave(s: State, c: Call)
    requires (c.Register? || c.Extend?) && Step(s, c).Some?
    ensures c.id in Next(s, c).lifecycles && (c.Extend? ==> c.id in s.lifecycles)
    ensures var l' := Next(s, c).lifecycles[c.id];
            match c
            case Register(u, _, end) =>
              && l'.advertiser == u && l'.stage == Draft && l'.pauses == l'.extensions == 0
              && l'.originalEnd == l'.currentEnd == end
            case Extend(_, id, extra) =>
              var l := s.lifecycles[id];
              && l' == l.(currentEnd := l'.currentEnd, extensions := l.extensions + 1)
              && l'.currentEnd == Min(l.currentEnd + extra, U32_MAX)
  {
  }

  function FraudBy(admin: Party): Call -> Option<Party> {
    (c: Call) => if c.SetFraud? && c.caller == admin then Some(c.fraud) else None
  }

  lemma FraudStep(s: State, c: Call)
    ensures var named := FraudBy(s.admin)(c);
            Next(s, c).fraud == (if named.Some? then named else s.fraud) && Next(s, c).admin == s.admin
  {
  }

  /** On every run the fraud contract is the last one the administrator named. */
  lemma {:induction false} FraudIsLastNamed(s: State, calls: seq<Call>)
    ensures var last := Runs.Last(calls, FraudBy(s.admin));
            Runs.Run(Next, s, calls).fraud == if last.Some? then last else s.fraud
    decreases |calls|
  {
    if calls != [] {
      FraudStep(s, calls[0]);
      FraudIsLastNamed(Next(s, calls[0]), calls[1..]);
    }
  }

  // ----- terminal stages -----

  lemma TerminalStep(s: State, c: Call, id: nat)
    requires id in s.lifecycles && Terminal(s.lifecycles[id].stage) && !(c.Register? && c.id == id)
    ensures id in Next(s, c).lifecycles && Next(s, c).lifecycles[id] == s.lifecycles[id]
    ensures Count(Next(s, c), id) == Count(s, id)
  {
  }

  /** A terminal stage is absorbing: nothing but a new registration touches the campaign again. */
  lemma {:induction false} TerminalIsAbsorbing(s: State, calls: seq<Call>, id: nat)
    requires id in s.lifecycles && Terminal(s.lifecycles[id].stage)
    requires forall c | c in calls :: !(c.Register? && c.id == id)
    ensures var s' := Runs.Run(Next, s, calls);
            id in s'.lifecycles && s'.lifecycles[id] == s.lifecycles[id] && Count(s', id) == Count(s, id)
    decreases |calls|
  {
    if calls != [] {
      assert calls[0] in calls;
      TerminalStep(s, calls[0], id);
      TerminalIsAbsorbing(Next(s, calls[0]), calls[1..], id);
    }
  }

  // ----- extensions -----

  ghost predicate GoodEnd(l: Lifecycle) {
    && l.originalEnd <= l.currentEnd <= MaxEnd(l.originalEnd)
    && l.extensions <= MAX_EXTENSIONS
    && l.stage != Archived
  }

  ghost predicate EndsInRange(s: State) {
    forall id | id in s.lifecycles :: GoodEnd(s.lifecycles[id])
  }

  lemma NextKeepsEnds(s: State, c: Call)
    requires EndsInRange(s)
    ensures EndsInRange(Next(s, c))
  {
  }

  /**
   * On every run, registrations and re-registrations alike: the end lies between the original end and three
   * times it (or the greatest 32-bit number), after at most ten extensions, and no campaign is archived.
   */
  lemma {:induction false} RunKeepsEnds(s: State, calls: seq<Call>)
    requires EndsInRange(s)
    ensures EndsInRange(Runs.Run(Next, s, calls))
    decreases |calls|
  {
    if calls != [] {
      NextKeepsEnds(s, calls[0]);
      RunKeepsEnds(Next(s, calls[0]), calls[1..]);
    }
  }

  /** From a fresh contract, on every run. */
  lemma EndsOnEveryRun(admin: Party, calls: seq<Call>, id: nat)
    requires id in Runs.Run(Next, Init(admin), calls).lifecycles
    ensures var l := Runs.Run(Next, Init(admin), calls).lifecycles[id];
            && l.originalEnd <= l.currentEnd <= Min(3 * l.originalEnd, U32_MAX)
            && l.extensions <= 10 && l.stage != Archived
  {
    RunKeepsEnds(Init(admin), calls);
  }

  /** An extension either moves the end by what was asked, or stays at the greatest 32-bit number. */
  lemma ExtensionIsExactOrSaturated(s: State, advertiser: Party, id: nat, extra: U32)
    requires EndsInRange(s) && ExtendStep(s, advertiser, id, extra).Some?
    ensures var l, l' := s.lifecycles[id], ExtendStep(s, advertiser, id, extra).value.lifecycles[id];
            l'.currentEnd == l.currentEnd + extra || (l'.currentEnd == U32_MAX == MaxEnd(l.originalEnd))
  {
  }

  // ----- who may change what -----

  /**
   * Short of a new registration, a stage changes only along a legal edge and by the advertiser, the administrator or
   * the fraud contract, which alone can pause for fraud; and an end only by the advertiser of an active campaign.
   */
  lemma ChangesAreAuthorised(s: State, c: Call, id: nat)
    requires id in s.lifecycles && !(c.Register? && c.id == id)
    ensures var s' := Next(s, c);
            id in s'.lifecycles &&
            var l, l' := s.lifecycles[id], s'.lifecycles[id];
            && l'.advertiser == l.advertiser && l'.originalEnd == l.originalEnd
            && (l'.stage != l.stage ==>
                  && Legal(l.stage, l'.stage) && (c.Transition? || c.PauseForFraud?) && c.id == id
                  && (c.actor == l.advertiser || c.actor == s.admin || s.fraud == Some(c.actor))
                  && (c.PauseForFraud? ==> s.fraud == Some(c.actor)))
            && (l'.extensions != l.extensions || l'.currentEnd != l.currentEnd ==>
                  c.Extend? && c.id == id && c.advertiser == l.advertiser && l.stage == Active && c.extra > 0)
    ensures Next(s, c).fraud != s.fraud ==> c.SetFraud? && c.caller == s.admin
  {
  }

  /** Calls that neither register `id` anew nor come from its advertiser, the administrator or the fraud contract. */
  predicate Stranger(admin: Party, fraud: Option<Party>, advertiser: Party, id: nat, c: Call) {
    match c
    case SetFraud(caller, _) => caller != admin
    case Register(_, k, _) => k != id
    case Transition(actor, _, _) => actor != advertiser && actor != admin && fraud != Some(actor)
    case PauseForFraud(actor, _) => fraud != Some(actor)
    case Extend(u, _, _) => u != advertiser
  }

  lemma StrangerStep(s: State, c: Call, id: nat)
    requires id in s.lifecycles && Stranger(s.admin, s.fraud, s.lifecycles[id].advertiser, id, c)
    ensures var s' := Next(s, c);
            id in s'.lifecycles && s'.lifecycles[id] == s.lifecycles[id] && s'.fraud == s.fraud && s'.admin == s.admin
  {
    if Step(s, c).Some? {
      ChangesAreAuthorised(s, c, id);
    }
  }

  /** No run of strangers' calls touches a campaign. */
  lemma {:induction false} StrangersChangeNothing(s: State, calls: seq<Call>, id: nat)
    requires id in s.lifecycles
    requires forall c | c in calls :: Stranger(s.admin, s.fraud, s.lifecycles[id].advertiser, id, c)
    ensures var s' := Runs.Run(Next, s, calls); id in s'.lifecycles && s'.lifecycles[id] == s.lifecycles[id]
    decreases |calls|
  {
    if calls != [] {
      assert calls[0] in calls;
      StrangerStep(s, calls[0], id);
      assert forall c | c in calls[1..] :: c in calls;
      StrangersChangeNothing(Next(s, calls[0]), calls[1..], id);
    }
  }

  /** The advertiser of the last registration of `id` among the calls, if there is one. */
  function LastRegistrant(calls: seq<Call>, id: nat): Option<Party> {
    if calls == [] then None
    else
      var last := calls[|calls| - 1];
      if last.Register? && last.id == id then Some(last.advertiser) else LastRegistrant(calls[..|calls| - 1], id)
  }

  lemma AdvertiserStep(s: State, c: Call, id: nat)
    requires id in s.lifecycles
    ensures id in Next(s, c).lifecycles
    ensures Next(s, c).lifecycles[id].advertiser
         == if c.Register? && c.id == id then c.advertiser else s.lifecycles[id].advertiser
  {
    if !(c.Register? && c.id == id) {
      ChangesAreAuthorised(s, c, id);
    }
  }

  /** A campaign's advertiser is whoever registered it last; without a new registration it never changes. */
  lemma {:induction false} AdvertiserIsLastRegistrant(s: State, calls: seq<Call>, id: nat)
    requires id in s.lifecycles
    ensures var s' := Runs.Run(Next, s, calls);
            id in s'.lifecycles
            && s'.lifecycles[id].advertiser == LastRegistrant(calls, id).GetOr(s.lifecycles[id].advertiser)
    decreases |calls|
  {
    if calls != [] {
      var front, last := calls[..|calls| - 1], calls[|calls| - 1];
      AdvertiserIsLastRegistrant(s, front, id);
      AdvertiserStep(Runs.Run(Next, s, front), last, id);
      assert calls == front + [last];
      Runs.RunAppend(Next, s, front, [last]);
    }
  }

  /** Registering is open to anyone: a second registration takes a campaign over, and the first advertiser loses it. */
  lemma RegistrationTakesOver(admin: Party, u: Party, v: Party, id: nat, end: U32, to: Stage)
    requires u != v && u != admin
    ensures var s := Runs.Run(Next, Init(admin), [Register(u, id, end), Register(v, id, end)]);
            id in s.lifecycles && s.lifecycles[id].advertiser == v && TransitionStep(s, u, id, to).None?
  {
    var s1 := Next(Init(admin), Register(u, id, end));
    var c := Register(v, id, end);
    assert Runs.Run(Next, s1, [c]) == Next(s1, c);
  }

  // ----- the contract itself -----

  class Manager {
    var admin: Party
    var fraud: Option<Party>
    var lifecycles: map<nat, Lifecycle>
    var counts: map<nat, nat>
    var log: map<(nat, nat), Move>

    function Snapshot(): State
      reads this
    {
      State(admin, fraud, lifecycles, counts, log)
    }

    constructor (admin: Party)
      ensures Snapshot() == Init(admin)
    {
      this.admin, this.fraud, this.lifecycles, this.counts, this.log := admin, None, map[], map[], map[];
    }

    method RegisterCampaign(advertiser: Party, id: nat, end: U32)
      modifies this
      ensures Snapshot() == Next(old(Snapshot()), Register(advertiser, id, end))
    {
      lifecycles := lifecycles[id := Lifecycle(advertiser, Draft, 0, 0, end, end)];
    }

    method MoveTo(actor: Party, id: nat, to: Stage) returns (done: Option<()>)
      modifies this
      ensures Snapshot() == Next(old(Snapshot()), Transition(actor, id, to))
      ensures done.Some? <==> Step(old(Snapshot()), Transition(actor, id, to)).Some?
    {
      var l :- Lookup(lifecycles, id);
      if actor != l.advertiser && actor != admin {
        var allowed :- fraud;
        :- Require(actor == allowed);
      }
      var from := l.stage;
      :- Require(Legal(from, to));
      if to == Paused {
        l := l.(pauses := l.pauses + 1);
      }
      l := l.(stage := to);
      lifecycles := lifecycles[id := l];
      Append(id, Move(from, to, actor));
      return Some(());
    }

    method Append(id: nat, move: Move)
      modifies this`log, this`counts
      ensures log == old(log)[(id, GetOr(old(counts), id, 0)) := move]
      ensures counts == old(counts)[id := GetOr(old(counts), id, 0) + 1]
    {
      var count := GetOr(counts, id, 0);
      log := log[(id, count) := move];
      counts := counts[id := count + 1];
    }

    method PauseOnFraud(actor: Party, id: nat) returns (done: Option<()>)
      modifies this
      ensures Snapshot() == Next(old(Snapshot()), PauseForFraud(actor, id))
      ensures done.Some? <==> Step(old(Snapshot()), PauseForFraud(actor, id)).Some?
    {
      var stored :- fraud;
      :- Require(actor == stored);
      done := MoveTo(actor, id, Paused);
    }

    method ExtendCampaign(advertiser: Party, id: nat, extra: U32) returns (done: Option<()>)
      modifies this
      ensures Snapshot() == Next(old(Snapshot()), Extend(advertiser, id, extra))
      ensures done.Some? <==> Step(old(Snapshot()), Extend(advertiser, id, extra)).Some?
    {
      var l :- Lookup(lifecycles, id);
      :- Require(l.advertiser == advertiser);
      :- Require(l.stage == Active);
      :- Require(extra != 0);
      :- Require(!(l.extensions >= MAX_EXTENSIONS));
      var maxEnd := MaxEnd(l.originalEnd);
      var newEnd := SaturatingAdd(l.currentEnd, extra);
      :- Require(!(newEnd > maxEnd));
      l := l.(currentEnd := newEnd);
      l := l.(extensions := l.extensions + 1);
      lifecycles := lifecycles[id := l];
      return Some(());
    }

    method SetFraudContract(caller: Party, newFraud: Party) returns (done: Option<()>)
      modifies this
      ensures Snapshot() == Next(old(Snapshot()), SetFraud(caller, newFraud))
      ensures done.Some? <==> caller == old(admin)
    {
      if caller != admin {
        return None;
      }
      fraud := Some(newFraud);
      return Some(());
    }
  }
}

/** Campaign analytics: a ring buffer of snapshots that stands for the last entries of an unbounded log. */
module CampaignAnalytics {
  import opened Chain
  import Runs

  datatype Snapshot = Snapshot(ledger: U32, time: U64, impressions: U64, clicks: U64, conversions: U64, spend: int,
                               reach: U64)

  datatype State = State(oracle: Party, counts: map<nat, U32>, slots: map<(nat, nat), Snapshot>)

  datatype Call = Record(caller: Party, campaign: nat, snapshot: Snapshot)

  const MAX_SNAPSHOTS: nat := 720

  function Init(oracle: Party): State {
    State(oracle, map[], map[])
  }

  function Count(s: State, campaign: nat): U32 {
    GetOr(s.counts, campaign, 0)
  }

  function Step(s: State, c: Call): Option<State> {
    if c.caller != s.oracle then None else
    var count := Count(s, c.campaign);
    :- Require(count < U32_MAX);  // the 32-bit counter would overflow
    Some(s.(slots := s.slots[(c.campaign, count % MAX_SNAPSHOTS) := c.snapshot],
            counts := s.counts[c.campaign := count + 1]))
  }

  function Next(s: State, c: Call): State {
    Step(s, c).GetOr(s)
  }

  /** The snapshots currently stored for a campaign. */
  function StoredCount(s: State, campaign: nat): nat {
    var count := Count(s, campaign);
    if count < MAX_SNAPSHOTS then count else MAX_SNAPSHOTS
  }

  function GetSnapshot(s: State, campaign: nat, slot: nat): Option<Snapshot> {
    Lookup(s.slots, (campaign, slot))
  }

  // ----- refinement of the unbounded log -----

  /** What one call adds to the log of `campaign`. */
  function Entry(s: State, c: Call, campaign: nat): seq<Snapshot> {
    if c.campaign == campaign && Step(s, c).Some? then [c.snapshot] else []
  }

  /** Every snapshot a run records for `campaign`, oldest first. */
  function Log(s: State, calls: seq<Call>, campaign: nat): seq<Snapshot>
    decreases |calls|
  {
    if calls == [] then []
    else Entry(s, calls[0], campaign) + Log(Next(s, calls[0]), calls[1..], campaign)
  }

  /** The slots of `campaign` hold exactly the last entries of `log`, entry `j` in slot `j` mod 720. */
  ghost predicate Represents(s: State, campaign: nat, log: seq<Snapshot>) {
    && Count(s, campaign) == |log|
    && (forall slot: nat :: (campaign, slot) in s.slots <==> slot < |log| && slot < MAX_SNAPSHOTS)
    && (forall j: nat | |log| - MAX_SNAPSHOTS <= j < |log| ::
          GetSnapshot(s, campaign, j % MAX_SNAPSHOTS) == Some(log[j]))
  }

  lemma RecordExtendsLog(s: State, c: Call, log: seq<Snapshot>)
    requires Represents(s, c.campaign, log) && Step(s, c).Some?
    ensures Represents(Next(s, c), c.campaign, log + [c.snapshot])
  {
    var s', n := Next(s, c), |log|;
    forall j: nat | n + 1 - MAX_SNAPSHOTS <= j < n + 1
      ensures GetSnapshot(s', c.campaign, j % MAX_SNAPSHOTS) == Some((log + [c.snapshot])[j])
    {
      if j < n {
        assert j % MAX_SNAPSHOTS != n % MAX_SNAPSHOTS;
        assert GetSnapshot(s, c.campaign, j % MAX_SNAPSHOTS) == Some(log[j]);
      }
    }
  }

  lemma OtherCampaignsUntouched(s: State, c: Call, campaign: nat, log: seq<Snapshot>)
    requires Represents(s, campaign, log) && (c.campaign != campaign || Step(s, c).None?)
    ensures Represents(Next(s, c), campaign, log)
  {
    if Step(s, c).Some? {
      forall j: nat | |log| - MAX_SNAPSHOTS <= j < |log|
        ensures GetSnapshot(Next(s, c), campaign, j % MAX_SNAPSHOTS) == Some(log[j])
      {
        assert GetSnapshot(s, campaign, j % MAX_SNAPSHOTS) == Some(log[j]);
      }
    }
  }

  lemma StepRepresents(s: State, c: Call, campaign: nat, log: seq<Snapshot>)
    requires Represents(s, campaign, log)
    ensures Represents(Next(s, c), campaign, log + Entry(s, c, campaign))
  {
    if c.campaign == campaign && Step(s, c).Some? {
      RecordExtendsLog(s, c, log);
    } else {
      assert log + [] == log;
      OtherCampaignsUntouched(s, c, campaign, log);
    }
  }

  lemma {:induction false} RunRepresents(s: State, calls: seq<Call>, campaign: nat, log: seq<Snapshot>)
    requires Represents(s, campaign, log)
    ensures Represents(Runs.Run(Next, s, calls), campaign, log + Log(s, calls, campaign))
    decreases |calls|
  {
    if calls == [] {
      assert log + [] == log;
    } else {
      var c, rest := calls[0], calls[1..];
      var entry := Entry(s, c, campaign);
      StepRepresents(s, c, campaign, log);
      var later := Log(Next(s, c), rest, campaign);
      RunRepresents(Next(s, c), rest, campaign, log + entry);
      assert Log(s, calls, campaign) == entry + later;
      assert log + (entry + later) == log + entry + later;
    }
  }

  /** After any run each campaign's slots hold exactly the last 720 entries of its own log. */
  lemma RingBufferRefinesLog(oracle: Party, calls: seq<Call>, campaign: nat)
    ensures var s, log := Runs.Run(Next, Init(oracle), calls), Log(Init(oracle), calls, campaign);
            Represents(s, campaign, log) && StoredCount(s, campaign) == Min(|log|, MAX_SNAPSHOTS)
  {
    RunRepresents(Init(oracle), calls, campaign, []);
    assert [] + Log(Init(oracle), calls, campaign) == Log(Init(oracle), calls, campaign);
  }

  /** Which log entry a stored slot holds: the latest one that falls on it. */
  lemma SlotHoldsLatest(s: State, campaign: nat, log: seq<Snapshot>, slot: nat)
    requires Represents(s, campaign, log) && slot < StoredCount(s, campaign)
    ensures var j := |log| - 1 - (|log| - 1 - slot) % MAX_SNAPSHOTS;
            0 <= j < |log| && j % MAX_SNAPSHOTS == slot && |log| - j <= MAX_SNAPSHOTS
                && GetSnapshot(s, campaign, slot) == Some(log[j])
  {
    var j := |log| - 1 - (|log| - 1 - slot) % MAX_SNAPSHOTS;
    assert j % MAX_SNAPSHOTS == slot;
    assert GetSnapshot(s, campaign, j % MAX_SNAPSHOTS) == Some(log[j]);
  }

  // ----- nothing is left out of the log -----

  lemma RecordingSucceedsIff(s: State, c: Call)
    ensures Step(s, c).Some? <==> c.caller == s.oracle && Count(s, c.campaign) < U32_MAX
  {
  }

  /** The snapshots the oracle sends for `campaign`, whatever becomes of them. */
  function Sent(calls: seq<Call>, oracle: Party, campaign: nat): seq<Snapshot> {
    if calls == [] then []
    else
      (if calls[0].caller == oracle && calls[0].campaign == campaign then [calls[0].snapshot] else [])
      + Sent(calls[1..], oracle, campaign)
  }

  lemma CountStep(s: State, c: Call, campaign: nat)
    ensures Next(s, c).oracle == s.oracle
    ensures Count(Next(s, c), campaign) == Count(s, campaign) + |Entry(s, c, campaign)|
    ensures Entry(s, c, campaign)
         == if c.caller == s.oracle && c.campaign == campaign && Count(s, campaign) < U32_MAX then [c.snapshot] else []
  {
  }

  /** The log a run records is everything the oracle sent, in order, up to what a 32-bit counter can count. */
  lemma {:induction false} LogIsWhatTheOracleSent(s: State, calls: seq<Call>, campaign: nat)
    ensures var sent := Sent(calls, s.oracle, campaign);
            Log(s, calls, campaign) == sent[..Min(|sent|, U32_MAX - Count(s, campaign))]
    decreases |calls|
  {
    if calls != [] {
      var c, rest := calls[0], calls[1..];
      CountStep(s, c, campaign);
      LogIsWhatTheOracleSent(Next(s, c), rest, campaign);
      var later := Sent(rest, s.oracle, campaign);
      assert [] + later == later;
      if c.caller == s.oracle && c.campaign == campaign && Count(s, campaign) == U32_MAX {
        assert Log(s, calls, campaign) == [];
      }
    }
  }

  // ----- who may change what -----

  /** A run in which the oracle makes no call changes nothing. */
  lemma {:induction false} OnlyOracleRecords(s: State, calls: seq<Call>)
    requires forall c | c in calls :: c.caller != s.oracle
    ensures Runs.Run(Next, s, calls) == s
    decreases |calls|
  {
    if calls != [] {
      assert calls[0] in calls;
      assert Next(s, calls[0]) == s;
      OnlyOracleRecords(s, calls[1..]);
    }
  }

  // ----- the contract itself -----

  class Analytics {
    var oracle: Party
    var counts: map<nat, U32>
    var slots: map<(nat, nat), Snapshot>

    function Contents(): State
      reads this
    {
      State(oracle, counts, slots)
    }

    constructor (oracle: Party)
      ensures Contents() == Init(oracle)
    {
      this.oracle, this.counts, this.slots := oracle, map[], map[];
    }

    method RecordSnapshot(caller: Party, campaign: nat, snapshot: Snapshot) returns (done: Option<()>)
      modifies this
      ensures Contents() == Next(old(Contents()), Record(caller, campaign, snapshot))
      ensures done.Some? <==> Step(old(Contents()), Record(caller, campaign, snapshot)).Some?
    {
      if caller != oracle {
        return None;
      }
      var count := GetOr(counts, campaign, 0);
      :- Require(count < U32_MAX);
      var index := count % MAX_SNAPSHOTS;
      slots := slots[(campaign, index) := snapshot];
      counts := counts[campaign := count + 1];
      return Some(());
    }
  }
}

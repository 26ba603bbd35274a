/** The normalized projection tables as one value, live and rebuilt (event-sync-service.ts). */
module ProjectionTables {
  import opened Basics
  import opened JsonMerge
  import opened Events
  import opened Governance
  import opened EmergencyProposals
  import opened RecipientLegs

  /** A supported log of the contract; `time` is what the projections record for its block. */
  datatype Log = Log(origin: Origin, blockHash: nat, time: int, name: EventName, args: Args)

  function EventOf(l: Log): Event { Decode(l.name, l.args) }

  function LoggedOf(l: Log): Logged { Logged(l.origin, EventOf(l)) }

  datatype SourceType = ChainEvent | SyntheticReconcile | BackendMetadata

  /** A row of the transaction log, under its (txHash, logIndex) key. */
  datatype LogRow = LogRow(name: EventName, block: int, source: SourceType, payload: Payload)

  datatype StoredLog = StoredLog(key: LogKey, row: LogRow)

  function RowOf(l: Log): LogRow {
    LogRow(l.name, l.origin.block, ChainEvent, ToTxPayload(l.name, l.args))
  }

  function Stored(l: Log): StoredLog { StoredLog(KeyOf(l.origin), RowOf(l)) }

  /** `parseStoredChainEventLog`, read by the projections. */
  function ParseStored(s: StoredLog): Logged {
    Logged(Origin(s.row.block, s.key.txHash, s.key.logIndex), Decode(s.row.name, StoredArgs(s.row.payload)))
  }

  datatype Tables = Tables(gov: GovTables, proposals: Proposals, legs: Legs)

  const NO_TABLES := Tables(NO_GOVERNANCE, map[], map[])

  function TablesStep(t: Tables, l: Logged): Tables {
    Tables(GovStep(t.gov, l.origin, l.event), ProposalStep(t.proposals, l.origin, l.event),
           LegStep(t.legs, l.origin, l.event))
  }

  function TablesRun(t: Tables, w: seq<Logged>): Tables {
    if w == [] then t else TablesStep(TablesRun(t, w[..|w| - 1]), w[|w| - 1])
  }

  /** Each table runs on its own, so what is proved of its runs holds of it here. */
  lemma {:induction false} TableByTable(t: Tables, w: seq<Logged>)
    ensures TablesRun(t, w) == Tables(GovRun(t.gov, w), ProposalRun(t.proposals, w), LegRun(t.legs, w))
  {
    if w != [] {
      TableByTable(t, w[..|w| - 1]);
    }
  }

  function LiveEvents(logs: seq<Log>): seq<Logged> {
    seq(|logs|, i requires 0 <= i < |logs| => LoggedOf(logs[i]))
  }

  function StoredLogs(logs: seq<Log>): seq<StoredLog> {
    seq(|logs|, i requires 0 <= i < |logs| => Stored(logs[i]))
  }

  function ReplayedEvents(stored: seq<StoredLog>): seq<Logged> {
    seq(|stored|, i requires 0 <= i < |stored| => ParseStored(stored[i]))
  }

  predicate Typed(logs: seq<Log>) {
    forall i | 0 <= i < |logs| :: AbiTyped(logs[i].args)
  }

  function Erased(l: Logged): Logged { l.(event := EraseInts(l.event)) }

  function ErasedAll(w: seq<Logged>): seq<Logged> {
    seq(|w|, i requires 0 <= i < |w| => Erased(w[i]))
  }

  lemma ReplayStep(t: Tables, l: Log)
    requires AbiTyped(l.args)
    ensures TablesStep(t, ParseStored(Stored(l))) == TablesStep(t, Erased(LoggedOf(l)))
  {
    RecalledExactly(l.name, l.args);
  }

  lemma LastLog(logs: seq<Log>)
    requires logs != []
    ensures var n, replayed, erased := |logs| - 1, ReplayedEvents(StoredLogs(logs)), ErasedAll(LiveEvents(logs));
            |replayed| == |erased| == n + 1 &&
            replayed[..n] == ReplayedEvents(StoredLogs(logs[..n])) && replayed[n] == ParseStored(Stored(logs[n])) &&
            erased[..n] == ErasedAll(LiveEvents(logs[..n])) && erased[n] == Erased(LoggedOf(logs[n]))
  {
  }

  lemma RunLast(t: Tables, w: seq<Logged>, n: nat)
    requires |w| == n + 1
    ensures TablesRun(t, w) == TablesStep(TablesRun(t, w[..n]), w[n])
  {
  }

  /** Rebuilding from the stored rows is, for all tables at once, running the live events with every
      integer argument replaced by 0. */
  lemma {:induction false} RebuildExactly(t: Tables, logs: seq<Log>)
    requires Typed(logs)
    ensures TablesRun(t, ReplayedEvents(StoredLogs(logs))) == TablesRun(t, ErasedAll(LiveEvents(logs)))
  {
    if logs != [] {
      var n := |logs| - 1;
      LastLog(logs);
      RunLast(t, ReplayedEvents(StoredLogs(logs)), n);
      RunLast(t, ErasedAll(LiveEvents(logs)), n);
      RebuildExactly(t, logs[..n]);
      ReplayStep(TablesRun(t, ErasedAll(LiveEvents(logs[..n]))), logs[n]);
    }
  }

  // ---------------------------------------------------------------- What survives, and what is lost

  function FadedThresholds(m: map<LogKey, ThresholdRow>): map<LogKey, ThresholdRow> {
    map k | k in m :: m[k].(previous := 0, next := 0)
  }

  function FadedArbitrators(a: Option<ArbitratorRow>): Option<ArbitratorRow> {
    if a.Some? && a.value.threshold.Some? then Some(a.value.(threshold := Some(0))) else a
  }

  /** The governance tables with every threshold read as 0. */
  function Faded(g: GovTables): GovTables {
    g.(thresholds := FadedThresholds(g.thresholds), arbitrators := FadedArbitrators(g.arbitrators))
  }

  lemma FadedRole(g: GovTables, o: Origin, granted: bool, role: Bytes32, account: Address, sender: Address)
    ensures ChangeRole(Faded(g), o, granted, role, account, sender) ==
            Faded(ChangeRole(g, o, granted, role, account, sender))
  {
  }

  lemma FadedThreshold(g: GovTables, o: Origin, previous: int, next: int, updatedBy: Address)
    ensures UpdateThreshold(Faded(g), o, 0, 0, updatedBy) == Faded(UpdateThreshold(g, o, previous, next, updatedBy))
  {
  }

  lemma FadedStep(g: GovTables, l: Logged)
    ensures GovStep(Faded(g), l.origin, EraseInts(l.event)) == Faded(GovStep(g, l.origin, l.event))
  {
    match l.event
    case RoleChanged(granted, role, account, sender) =>
      FadedRole(g, l.origin, granted, role, account, sender);
    case ThresholdUpdated(previous, next, updatedBy) =>
      FadedThreshold(g, l.origin, previous, next, updatedBy);
    case _ =>
  }

  lemma {:induction false} GovernanceFades(t: Tables, w: seq<Logged>)
    ensures TablesRun(t.(gov := Faded(t.gov)), ErasedAll(w)).gov == Faded(TablesRun(t, w).gov)
  {
    if w != [] {
      var n := |w| - 1;
      GovernanceFades(t, w[..n]);
      assert ErasedAll(w)[..n] == ErasedAll(w[..n]);
      FadedStep(TablesRun(t, w[..n]).gov, w[n]);
    }
  }

  /** For every log the rebuilt pause, token, role-membership and role-event rows and the arbitrator count
      equal the live ones; of the thresholds exactly the numbers are lost. */
  lemma RebuildKeepsGovernance(logs: seq<Log>)
    requires Typed(logs)
    ensures var live := TablesRun(NO_TABLES, LiveEvents(logs)).gov;
            var rebuilt := TablesRun(NO_TABLES, ReplayedEvents(StoredLogs(logs))).gov;
            rebuilt == Faded(live) &&
            rebuilt.pause == live.pause && rebuilt.tokens == live.tokens && rebuilt.members == live.members &&
            rebuilt.roleEvents == live.roleEvents && Count(rebuilt) == Count(live)
  {
    RebuildExactly(NO_TABLES, logs);
    assert Faded(NO_GOVERNANCE) == NO_GOVERNANCE;
    GovernanceFades(NO_TABLES, LiveEvents(logs));
  }

  predicate ZeroThresholds(g: GovTables) {
    (forall k | k in g.thresholds :: g.thresholds[k].previous == 0 && g.thresholds[k].next == 0) &&
    (g.arbitrators.Some? && g.arbitrators.value.threshold.Some? ==> g.arbitrators.value.threshold.value == 0)
  }

  lemma FadedIffZero(g: GovTables)
    ensures Faded(g) == g <==> ZeroThresholds(g)
  {
  }

  predicate ZeroThreshold(e: Event) {
    e.ThresholdUpdated? ==> e.previousThreshold == 0 && e.newThreshold == 0
  }

  lemma ZeroStep(g: GovTables, l: Logged)
    requires ZeroThresholds(g) && ZeroThreshold(l.event)
    ensures ZeroThresholds(GovStep(g, l.origin, l.event))
  {
  }

  lemma {:induction false} ZeroRun(t: Tables, w: seq<Logged>)
    requires ZeroThresholds(t.gov) && forall i | 0 <= i < |w| :: ZeroThreshold(w[i].event)
    ensures ZeroThresholds(TablesRun(t, w).gov)
  {
    if w != [] {
      ZeroRun(t, w[..|w| - 1]);
      ZeroStep(TablesRun(t, w[..|w| - 1]).gov, w[|w| - 1]);
    }
  }

  lemma ThresholdRowStep(g: GovTables, l: Logged, k: LogKey)
    ensures var after := GovStep(g, l.origin, l.event).thresholds;
            if l.event.ThresholdUpdated? && k == KeyOf(l.origin)
            then k in after && after[k].previous == l.event.previousThreshold && after[k].next == l.event.newThreshold
            else (k in after <==> k in g.thresholds) && (k in after ==> after[k] == g.thresholds[k])
  {
  }

  /** Every threshold update keeps its own row. */
  lemma {:induction false} ThresholdRowKept(t: Tables, w: seq<Logged>, i: nat)
    requires DistinctKeys(w) && i < |w| && w[i].event.ThresholdUpdated?
    ensures var rows := TablesRun(t, w).gov.thresholds;
            KeyOf(w[i].origin) in rows && rows[KeyOf(w[i].origin)].previous == w[i].event.previousThreshold &&
            rows[KeyOf(w[i].origin)].next == w[i].event.newThreshold
  {
    var n := |w| - 1;
    ThresholdRowStep(TablesRun(t, w[..n]).gov, w[n], KeyOf(w[i].origin));
    if i < n {
      ThresholdRowKept(t, w[..n], i);
    }
  }

  /** The governance tables survive a rebuild as a whole exactly when every threshold update said 0. */
  lemma GovernanceRebuiltIff(logs: seq<Log>)
    requires Typed(logs) && DistinctKeys(LiveEvents(logs))
    ensures TablesRun(NO_TABLES, ReplayedEvents(StoredLogs(logs))).gov ==
              TablesRun(NO_TABLES, LiveEvents(logs)).gov <==>
            forall i | 0 <= i < |logs| :: ZeroThreshold(EventOf(logs[i]))
  {
    var w := LiveEvents(logs);
    RebuildKeepsGovernance(logs);
    FadedIffZero(TablesRun(NO_TABLES, w).gov);
    ZeroIff(w);
    assert forall i | 0 <= i < |logs| :: w[i].event == EventOf(logs[i]);
  }

  lemma ZeroIff(w: seq<Logged>)
    requires DistinctKeys(w)
    ensures ZeroThresholds(TablesRun(NO_TABLES, w).gov) <==> forall i | 0 <= i < |w| :: ZeroThreshold(w[i].event)
  {
    if forall i | 0 <= i < |w| :: ZeroThreshold(w[i].event) {
      ZeroRun(NO_TABLES, w);
    } else {
      var i :| 0 <= i < |w| && !ZeroThreshold(w[i].event);
      ThresholdRowKept(NO_TABLES, w, i);
    }
  }

  /** The failing input: a threshold of 2 comes back as 0. */
  lemma ThresholdLost()
    ensures var l := Log(Origin(1, 7, 0), 0, 0, ArbitratorThresholdUpdated,
                         map[I(PreviousThreshold) := Big(1), I(NewThreshold) := Big(2)]);
            Typed([l]) && EventOf(l) == ThresholdUpdated(1, 2, ZERO_ADDRESS) &&
            TablesRun(NO_TABLES, ReplayedEvents(StoredLogs([l]))).gov != TablesRun(NO_TABLES, LiveEvents([l])).gov
  {
    var l := Log(Origin(1, 7, 0), 0, 0, ArbitratorThresholdUpdated,
                 map[I(PreviousThreshold) := Big(1), I(NewThreshold) := Big(2)]);
    GovernanceRebuiltIff([l]);
    assert !ZeroThreshold(EventOf([l][0]));
  }

  predicate LostProposal(r: ProposalRow) {
    r.projectId == 0 && r.milestoneIndex == 0 && r.readyAt == None &&
    (r.kind.Some? ==> r.kind.value == 0) && (r.freelancerAmount.Some? ==> r.freelancerAmount.value == 0) &&
    (r.clientAmount.Some? ==> r.clientAmount.value == 0)
  }

  /** Every proposal sits on milestone 0 of project 0 with amounts 0 and no ready time, and every recipient
      leg belongs to that milestone and is never pending. */
  predicate IntegersLostIn(t: Tables) {
    (forall k | k in t.proposals :: LostProposal(t.proposals[k])) &&
    (forall k | k in t.legs :: k.projectId == 0 && k.milestoneIndex == 0 && t.legs[k].status != L_Pending)
  }

  lemma LosesStep(t: Tables, l: Logged)
    requires IntegersLostIn(t)
    ensures IntegersLostIn(TablesStep(t, Erased(l)))
  {
    LosesProposalStep(t.proposals, l.origin, l.event);
  }

  lemma {:induction false} ErasedRunLoses(w: seq<Logged>)
    ensures IntegersLostIn(TablesRun(NO_TABLES, ErasedAll(w)))
  {
    if w != [] {
      var n := |w| - 1;
      ErasedRunLoses(w[..n]);
      assert ErasedAll(w)[..n] == ErasedAll(w[..n]);
      LosesStep(TablesRun(NO_TABLES, ErasedAll(w[..n])), w[n]);
    }
  }

  /** What every rebuild does to the proposals and the recipient legs. */
  lemma RebuildLosesIntegers(logs: seq<Log>)
    requires Typed(logs)
    ensures IntegersLostIn(TablesRun(NO_TABLES, ReplayedEvents(StoredLogs(logs))))
  {
    RebuildExactly(NO_TABLES, logs);
    ErasedRunLoses(LiveEvents(logs));
  }

  lemma LosesProposalStep(rows: Proposals, o: Origin, e: Event)
    requires forall k | k in rows :: LostProposal(rows[k])
    ensures forall k | k in ProposalStep(rows, o, EraseInts(e)) ::
              LostProposal(ProposalStep(rows, o, EraseInts(e))[k])
  {
  }

  /** A pending recipient set on chain comes back from a rebuild as an authorized one, on milestone 0 of
      project 0. */
  lemma PendingRecipientLost(l: Log)
    requires AbiTyped(l.args) && l.name == AlternativeRecipientSet
    requires EventOf(l).executableAfter > 0 && EventOf(l).recipient != ZERO_ADDRESS
    ensures var e, legs := EventOf(l), TablesRun(NO_TABLES, ReplayedEvents(StoredLogs([l]))).legs;
            legs == map[LegKey(0, 0, e.isFreelancer) :=
                          LegRow(None, None, None, Some(e.recipient), L_Cleared, l.origin)] &&
            TablesRun(NO_TABLES, LiveEvents([l])).legs ==
            map[LegKey(e.projectId, e.milestoneIndex, e.isFreelancer) :=
                  LegRow(Some(e.recipient), Some(e.executableAfter), None, None, L_Pending, l.origin)]
  {
    RebuildExactly(NO_TABLES, [l]);
    var w := LiveEvents([l]);
    assert w == [LoggedOf(l)] && w[..0] == [];
    assert ErasedAll(w) == [Erased(LoggedOf(l))] && ErasedAll(w)[..0] == [];
  }
}

/** Exactly when a rebuild restores the proposal table and the recipient legs (event-sync-service.ts). */
module RebuildExactness {
  import opened Basics
  import opened Events
  import opened Governance
  import opened EmergencyProposals
  import opened RecipientLegs
  import opened ProjectionTables

  function Rebuilt(logs: seq<Log>): Tables { TablesRun(NO_TABLES, ReplayedEvents(StoredLogs(logs))) }

  function Live(logs: seq<Log>): Tables { TablesRun(NO_TABLES, LiveEvents(logs)) }

  // ---------------------------------------------------------------- Proposals

  /** The event writes a proposal row. */
  predicate WritesProposal(e: Event) { e.EmergencyProposed? || IsCloser(e) }

  /** Every integer a proposal row takes from the event is 0. */
  predicate ZeroProposal(e: Event) {
    match e
    case EmergencyProposed(p, m, _, kind, freelancer, client, readyAt) =>
      p == 0 && m == 0 && kind == 0 && freelancer == 0 && client == 0 && readyAt <= 0
    case EmergencyCancelled(p, m, _) => p == 0 && m == 0
    case EmergencyResolved(p, m, kind, freelancer, client) =>
      p == 0 && m == 0 && kind == 0 && freelancer == 0 && client == 0
    case NonceAdvanced(p, m) => p == 0 && m == 0
    case _ => true
  }

  /** The row holds the event's integers. */
  predicate HoldsIntegers(row: ProposalRow, e: Event)
    requires WritesProposal(e)
  {
    SameMilestone(row, e.projectId, e.milestoneIndex) &&
    (e.EmergencyProposed? || e.EmergencyResolved? ==>
       row.kind == Some(e.resolutionKind) && row.freelancerAmount == Some(e.freelancerAmount) &&
       row.clientAmount == Some(e.clientAmount)) &&
    (e.EmergencyProposed? ==> row.readyAt == EmergencyProposals.ReadyAt(e.readyAt))
  }

  lemma {:induction false} RowKeepsIntegers(w: seq<Logged>, i: nat)
    requires DistinctKeys(w) && i < |w| && WritesProposal(w[i].event)
    ensures KeyOf(w[i].origin) in ProposalRun(map[], w) &&
            HoldsIntegers(ProposalRun(map[], w)[KeyOf(w[i].origin)], w[i].event)
  {
    var n := |w| - 1;
    if i < n {
      RowKeepsIntegers(w[..n], i);
      OtherRows(ProposalRun(map[], w[..n]), w[n].origin, w[n].event, KeyOf(w[i].origin));
    }
  }

  lemma ZeroStepSame(rows: Proposals, o: Origin, e: Event)
    requires ZeroProposal(e)
    ensures ProposalStep(rows, o, EraseInts(e)) == ProposalStep(rows, o, e)
  {
  }

  lemma {:induction false} ZeroRunSame(w: seq<Logged>)
    requires forall i | 0 <= i < |w| :: ZeroProposal(w[i].event)
    ensures ProposalRun(map[], ErasedAll(w)) == ProposalRun(map[], w)
  {
    if w != [] {
      var n := |w| - 1;
      ZeroRunSame(w[..n]);
      assert ErasedAll(w)[..n] == ErasedAll(w[..n]);
      ZeroStepSame(ProposalRun(map[], w[..n]), w[n].origin, w[n].event);
    }
  }

  lemma ErasedKeys(w: seq<Logged>)
    requires DistinctKeys(w)
    ensures DistinctKeys(ErasedAll(w))
  {
  }

  lemma {:induction false} ErasedProposalsIff(w: seq<Logged>)
    requires DistinctKeys(w)
    ensures ProposalRun(map[], ErasedAll(w)) == ProposalRun(map[], w) <==>
            forall i | 0 <= i < |w| :: ZeroProposal(w[i].event)
  {
    if forall i | 0 <= i < |w| :: ZeroProposal(w[i].event) {
      ZeroRunSame(w);
    } else {
      var i :| 0 <= i < |w| && !ZeroProposal(w[i].event);
      ErasedKeys(w);
      RowKeepsIntegers(w, i);
      RowKeepsIntegers(ErasedAll(w), i);
    }
  }

  /** The proposal table survives a rebuild exactly when no proposal, cancellation, resolution or nonce
      advance carries an integer other than 0. */
  lemma ProposalsRebuiltIff(logs: seq<Log>)
    requires Typed(logs) && DistinctKeys(LiveEvents(logs))
    ensures Rebuilt(logs).proposals == Live(logs).proposals <==>
            forall i | 0 <= i < |logs| :: ZeroProposal(EventOf(logs[i]))
  {
    var w := LiveEvents(logs);
    RebuildExactly(NO_TABLES, logs);
    TableByTable(NO_TABLES, w);
    TableByTable(NO_TABLES, ErasedAll(w));
    ErasedProposalsIff(w);
    assert forall i | 0 <= i < |logs| :: w[i].event == EventOf(logs[i]);
  }

  /** The failing input: a proposal with an amount comes back without it. */
  lemma ProposalLost(l: Log)
    requires AbiTyped(l.args) && l.name == EmergencyDisputeResolutionProposed && EventOf(l).freelancerAmount > 0
    ensures Rebuilt([l]).proposals != Live([l]).proposals
  {
    ProposalsRebuiltIff([l]);
    assert !ZeroProposal(EventOf([l][0]));
  }

  // ---------------------------------------------------------------- Recipient legs

  /** The event makes sure the leg has a row. */
  predicate Creates(e: Event, k: LegKey) { (Writes(e, k) && !e.Cancelled?) || Executes(e, k) }

  predicate CreatesSome(e: Event) { e.RecipientSet? || e.RecipientExecuted? || e.Resolved? || e.EmergencyResolved? }

  predicate WasCreated(w: seq<Logged>, k: LegKey) {
    exists i :: 0 <= i < |w| && Creates(w[i].event, k)
  }

  lemma {:induction false} PresentIffCreated(w: seq<Logged>, k: LegKey)
    ensures k in LegRun(map[], w) <==> WasCreated(w, k)
  {
    if w != [] {
      var n := |w| - 1;
      PresentIffCreated(w[..n], k);
      LegAfter(LegRun(map[], w[..n]), w[n], k);
      if WasCreated(w[..n], k) {
        var i :| 0 <= i < n && Creates(w[..n][i].event, k);
        assert Creates(w[i].event, k);
      }
      if WasCreated(w, k) && !Creates(w[n].event, k) {
        var i :| 0 <= i < |w| && Creates(w[i].event, k);
        assert Creates(w[..n][i].event, k);
      }
    }
  }

  /** The last event that a rebuild takes as deciding the leg's row: unlike the live run it takes every
      project's cancellation for one of project 0. */
  function LastRead(w: seq<Logged>, k: LegKey): Option<nat> { LastWrite(ErasedAll(w), k) }

  predicate After(a: Option<nat>, b: Option<nat>) { a.Some? && (b.Some? ==> a.value > b.value) }

  /** The rebuild reads event `i` of the leg as the live run does: it is not a foreign cancellation, and not
      a recipient with a waiting time. */
  predicate ReadAlike(w: seq<Logged>, k: LegKey, i: nat)
    requires i < |w|
  {
    Writes(w[i].event, k) &&
    (w[i].event.RecipientSet? ==> w[i].event.executableAfter == 0 || w[i].event.recipient == ZERO_ADDRESS)
  }

  /** Behind an execution a foreign cancellation does no harm if there was no authorized recipient to lose. */
  predicate NothingToLose(w: seq<Logged>, k: LegKey, i: nat)
    requires i < |w|
  {
    w[i].event.Cancelled? && After(LastExecution(w, k), Some(i)) && AuthorizedBy(w, LastWrite(w, k)) == None
  }

  predicate Survives(w: seq<Logged>, k: LegKey) {
    LastRead(w, k).Some? ==> ReadAlike(w, k, LastRead(w, k).value) || NothingToLose(w, k, LastRead(w, k).value)
  }

  predicate OnFirst(e: Event) { CreatesSome(e) ==> e.projectId == 0 && e.milestoneIndex == 0 }

  predicate LegsSurvive(w: seq<Logged>) {
    && (forall i | 0 <= i < |w| :: OnFirst(w[i].event))
    && (forall side | side in {true, false} :: WasCreated(w, LegKey(0, 0, side)) ==> Survives(w, LegKey(0, 0, side)))
  }

  lemma ErasedWrites(e: Event, k: LegKey)
    requires OnFirst(e) && k.projectId == 0 && k.milestoneIndex == 0
    ensures Writes(EraseInts(e), k) <==> Writes(e, k) || e.Cancelled?
    ensures Executes(EraseInts(e), k) <==> Executes(e, k)
    ensures Creates(EraseInts(e), k) <==> Creates(e, k)
  {
  }

  lemma {:induction false} ErasedLastExecution(w: seq<Logged>, k: LegKey)
    requires (forall i | 0 <= i < |w| :: OnFirst(w[i].event)) && k.projectId == 0 && k.milestoneIndex == 0
    ensures LastExecution(ErasedAll(w), k) == LastExecution(w, k)
  {
    if w != [] {
      var n := |w| - 1;
      ErasedLastExecution(w[..n], k);
      assert ErasedAll(w)[..n] == ErasedAll(w[..n]);
      ErasedWrites(w[n].event, k);
    }
  }

  lemma ErasedCreated(w: seq<Logged>, k: LegKey)
    requires (forall i | 0 <= i < |w| :: OnFirst(w[i].event)) && k.projectId == 0 && k.milestoneIndex == 0
    ensures WasCreated(ErasedAll(w), k) <==> WasCreated(w, k)
  {
    forall i | 0 <= i < |w| ensures Creates(ErasedAll(w)[i].event, k) <==> Creates(w[i].event, k) {
      ErasedWrites(w[i].event, k);
    }
    if WasCreated(w, k) {
      var i :| 0 <= i < |w| && Creates(w[i].event, k);
      assert Creates(ErasedAll(w)[i].event, k);
    }
    if WasCreated(ErasedAll(w), k) {
      var i :| 0 <= i < |w| && Creates(ErasedAll(w)[i].event, k);
      assert Creates(w[i].event, k);
    }
  }

  /** The rebuild's last read is the live run's last write, or a foreign cancellation after it. */
  lemma {:induction false} LastReadIs(w: seq<Logged>, k: LegKey)
    requires (forall i | 0 <= i < |w| :: OnFirst(w[i].event)) && k.projectId == 0 && k.milestoneIndex == 0
    ensures LastRead(w, k).None? ==> LastWrite(w, k).None?
    ensures LastRead(w, k).Some? && Writes(w[LastRead(w, k).value].event, k) ==> LastWrite(w, k) == LastRead(w, k)
    ensures LastRead(w, k).Some? && !Writes(w[LastRead(w, k).value].event, k) ==>
              w[LastRead(w, k).value].event.Cancelled? && After(LastRead(w, k), LastWrite(w, k))
  {
    if w != [] {
      var n := |w| - 1;
      assert ErasedAll(w)[..n] == ErasedAll(w[..n]);
      ErasedWrites(w[n].event, k);
      LastReadIs(w[..n], k);
    }
  }

  lemma ExecutedRowsAgree(w: seq<Logged>, k: LegKey)
    requires (forall i | 0 <= i < |w| :: OnFirst(w[i].event)) && k.projectId == 0 && k.milestoneIndex == 0
    requires After(LastExecution(w, k), LastRead(w, k))
    ensures AuthorizedBy(ErasedAll(w), LastRead(w, k)) == AuthorizedBy(w, LastWrite(w, k)) <==> Survives(w, k)
    ensures After(LastExecution(w, k), LastWrite(w, k))
  {
    LastReadIs(w, k);
  }

  lemma WrittenRowsAgree(w: seq<Logged>, k: LegKey)
    requires (forall i | 0 <= i < |w| :: OnFirst(w[i].event)) && k.projectId == 0 && k.milestoneIndex == 0
    requires LastRead(w, k).Some? && !After(LastExecution(w, k), LastRead(w, k)) && LastWrite(w, k) == LastRead(w, k)
    ensures Written(ErasedAll(w)[LastRead(w, k).value]) == Written(w[LastWrite(w, k).value]) <==> Survives(w, k)
  {
    LastReadIs(w, k);
    assert After(LastExecution(w, k), Some(LastRead(w, k).value)) <==> After(LastExecution(w, k), LastRead(w, k));
  }

  /** A row carries the origin of the event that wrote it last. */
  lemma OriginOf(w: seq<Logged>, k: LegKey) returns (i: nat)
    requires k in LegRun(map[], w)
    ensures i < |w| && LegRun(map[], w)[k].origin == w[i].origin
    ensures Some(i) == if After(LastExecution(w, k), LastWrite(w, k)) then LastExecution(w, k) else LastWrite(w, k)
  {
    LegInClosedForm(w, k);
    i := if After(LastExecution(w, k), LastWrite(w, k)) then LastExecution(w, k).value else LastWrite(w, k).value;
  }

  lemma DistinctOrigins(w: seq<Logged>, i: nat, j: nat)
    requires DistinctKeys(w) && i < j < |w|
    ensures w[i].origin != w[j].origin
  {
    assert KeyOf(w[i].origin) != KeyOf(w[j].origin);
  }

  /** Where a foreign cancellation is the last read, and no execution follows it. */
  lemma ForeignlyRead(w: seq<Logged>, k: LegKey)
    requires (forall i | 0 <= i < |w| :: OnFirst(w[i].event)) && k.projectId == 0 && k.milestoneIndex == 0
    requires LastRead(w, k).Some? && !After(LastExecution(w, k), LastRead(w, k)) && LastWrite(w, k) != LastRead(w, k)
    ensures !Survives(w, k)
    ensures After(LastRead(w, k), LastExecution(w, k)) && After(LastRead(w, k), LastWrite(w, k))
  {
    var e := LastRead(w, k).value;
    LastReadIs(w, k);
    assert w[e].event.Cancelled? && !Writes(w[e].event, k);
    ExecutionElsewhere(w, k, e);
  }

  lemma ExecutionElsewhere(w: seq<Logged>, k: LegKey, e: nat)
    requires e < |w| && w[e].event.Cancelled?
    ensures LastExecution(w, k) != Some(e)
  {
  }

  lemma ForeignlyCleared(w: seq<Logged>, k: LegKey)
    requires DistinctKeys(w)
    requires (forall i | 0 <= i < |w| :: OnFirst(w[i].event)) && k.projectId == 0 && k.milestoneIndex == 0
    requires k in LegRun(map[], w) && k in LegRun(map[], ErasedAll(w))
    requires LastRead(w, k).Some? && !After(LastExecution(w, k), LastRead(w, k)) && LastWrite(w, k) != LastRead(w, k)
    ensures LegRun(map[], ErasedAll(w))[k] != LegRun(map[], w)[k] && !Survives(w, k)
  {
    ForeignlyRead(w, k);
    ErasedLastExecution(w, k);
    var e := OriginOf(ErasedAll(w), k);
    var l := OriginOf(w, k);
    DistinctOrigins(w, l, e);
  }

  lemma ExecutedRowsIff(w: seq<Logged>, k: LegKey)
    requires (forall i | 0 <= i < |w| :: OnFirst(w[i].event)) && k.projectId == 0 && k.milestoneIndex == 0
    requires k in LegRun(map[], w) && k in LegRun(map[], ErasedAll(w)) && After(LastExecution(w, k), LastRead(w, k))
    ensures LegRun(map[], ErasedAll(w))[k] == LegRun(map[], w)[k] <==> Survives(w, k)
  {
    ErasedLastExecution(w, k);
    ExecutedRowsAgree(w, k);
    LegInClosedForm(w, k);
    LegInClosedForm(ErasedAll(w), k);
  }

  lemma WrittenRowsIff(w: seq<Logged>, k: LegKey)
    requires (forall i | 0 <= i < |w| :: OnFirst(w[i].event)) && k.projectId == 0 && k.milestoneIndex == 0
    requires k in LegRun(map[], w) && k in LegRun(map[], ErasedAll(w))
    requires LastRead(w, k).Some? && !After(LastExecution(w, k), LastRead(w, k)) && LastWrite(w, k) == LastRead(w, k)
    ensures LegRun(map[], ErasedAll(w))[k] == LegRun(map[], w)[k] <==> Survives(w, k)
  {
    ErasedLastExecution(w, k);
    WrittenRowsAgree(w, k);
    LegInClosedForm(w, k);
    LegInClosedForm(ErasedAll(w), k);
  }

  lemma SomeRead(w: seq<Logged>, k: LegKey)
    requires k in LegRun(map[], w) && LastExecution(w, k).None?
    requires (forall i | 0 <= i < |w| :: OnFirst(w[i].event)) && k.projectId == 0 && k.milestoneIndex == 0
    ensures LastRead(w, k).Some?
  {
    LegInClosedForm(w, k);
    LastReadIs(w, k);
  }

  lemma RowsAgreeIff(w: seq<Logged>, k: LegKey)
    requires DistinctKeys(w)
    requires (forall i | 0 <= i < |w| :: OnFirst(w[i].event)) && k.projectId == 0 && k.milestoneIndex == 0
    requires k in LegRun(map[], w) && k in LegRun(map[], ErasedAll(w))
    ensures LegRun(map[], ErasedAll(w))[k] == LegRun(map[], w)[k] <==> Survives(w, k)
  {
    if After(LastExecution(w, k), LastRead(w, k)) {
      ExecutedRowsIff(w, k);
    } else {
      if LastExecution(w, k).None? {
        SomeRead(w, k);
      }
      if LastWrite(w, k) == LastRead(w, k) {
        WrittenRowsIff(w, k);
      } else {
        ForeignlyCleared(w, k);
      }
    }
  }

  lemma ErasedCreatesFirst(e: Event, k: LegKey)
    ensures Creates(EraseInts(e), k) ==> k.projectId == 0 && k.milestoneIndex == 0
    ensures Creates(e, k) && OnFirst(e) ==> k.projectId == 0 && k.milestoneIndex == 0
  {
  }

  lemma ErasedLegsOnFirst(w: seq<Logged>, k: LegKey)
    requires k in LegRun(map[], ErasedAll(w))
    ensures k.projectId == 0 && k.milestoneIndex == 0
  {
    PresentIffCreated(ErasedAll(w), k);
    var i :| 0 <= i < |w| && Creates(ErasedAll(w)[i].event, k);
    ErasedCreatesFirst(w[i].event, k);
  }

  lemma LegsOnFirst(w: seq<Logged>, k: LegKey)
    requires forall i | 0 <= i < |w| :: OnFirst(w[i].event)
    requires k in LegRun(map[], w)
    ensures k.projectId == 0 && k.milestoneIndex == 0
  {
    PresentIffCreated(w, k);
    var i :| 0 <= i < |w| && Creates(w[i].event, k);
    ErasedCreatesFirst(w[i].event, k);
  }

  lemma OnlyFirstLegs(w: seq<Logged>, k: LegKey)
    requires forall i | 0 <= i < |w| :: OnFirst(w[i].event)
    ensures k in LegRun(map[], w) <==> k in LegRun(map[], ErasedAll(w))
  {
    if k.projectId == 0 && k.milestoneIndex == 0 {
      PresentIffCreated(w, k);
      PresentIffCreated(ErasedAll(w), k);
      ErasedCreated(w, k);
    } else {
      if k in LegRun(map[], w) {
        LegsOnFirst(w, k);
      }
      if k in LegRun(map[], ErasedAll(w)) {
        ErasedLegsOnFirst(w, k);
      }
    }
  }

  function SomeLeg(e: Event): LegKey
    requires CreatesSome(e)
  {
    LegKey(e.projectId, e.milestoneIndex, if e.RecipientSet? || e.RecipientExecuted? then e.isFreelancer else true)
  }

  lemma ForeignLegStays(w: seq<Logged>, i: nat)
    requires i < |w| && !OnFirst(w[i].event)
    ensures LegRun(map[], ErasedAll(w)) != LegRun(map[], w)
  {
    var k := SomeLeg(w[i].event);
    assert Creates(w[i].event, k);
    PresentIffCreated(w, k);
    if k in LegRun(map[], ErasedAll(w)) {
      ErasedLegsOnFirst(w, k);
    }
  }

  lemma ErasedLegsIff(w: seq<Logged>)
    requires DistinctKeys(w)
    ensures LegRun(map[], ErasedAll(w)) == LegRun(map[], w) <==> LegsSurvive(w)
  {
    if i :| 0 <= i < |w| && !OnFirst(w[i].event) {
      ForeignLegStays(w, i);
    } else {
      forall k ensures k in LegRun(map[], w) <==> k in LegRun(map[], ErasedAll(w))
               ensures k in LegRun(map[], w) ==> k.projectId == 0 && k.milestoneIndex == 0 && WasCreated(w, k)
               ensures k in LegRun(map[], w) ==>
                         (LegRun(map[], ErasedAll(w))[k] == LegRun(map[], w)[k] <==> Survives(w, k)) {
        OnlyFirstLegs(w, k);
        PresentIffCreated(w, k);
        if k in LegRun(map[], w) {
          LegsOnFirst(w, k);
          RowsAgreeIff(w, k);
        }
      }
      forall side | side in {true, false} && WasCreated(w, LegKey(0, 0, side))
        ensures LegKey(0, 0, side) in LegRun(map[], w)
      {
        PresentIffCreated(w, LegKey(0, 0, side));
      }
    }
  }

  /** The recipient legs survive a rebuild exactly when no recipient was set, executed or cleared by a
      resolution outside milestone 0 of project 0, and on both legs of that milestone the last event the
      rebuild takes as deciding means the same live: it is not a recipient with a waiting time, nor a
      cancellation of another project, unless an execution came after that cancellation and no authorized
      recipient was there to lose. */
  lemma LegsRebuiltIff(logs: seq<Log>)
    requires Typed(logs) && DistinctKeys(LiveEvents(logs))
    ensures Rebuilt(logs).legs == Live(logs).legs <==> LegsSurvive(LiveEvents(logs))
  {
    var w := LiveEvents(logs);
    RebuildExactly(NO_TABLES, logs);
    TableByTable(NO_TABLES, w);
    TableByTable(NO_TABLES, ErasedAll(w));
    ErasedLegsIff(w);
  }
}

/** The sync service over its tables, statement by statement (event-sync-service.ts). The node's answers and
    the rows a query returns are parameters; each method that writes is one transaction or part of one. */
module EventSyncService {
  import opened Basics
  import opened JsonMerge
  import opened Events
  import opened EscrowRows
  import Funding
  import opened Governance
  import opened EmergencyProposals
  import opened RecipientLegs
  import opened ProjectionTables
  import opened CursorState
  import opened MilestoneProjection
  import opened SyncLog
  import opened SyncState
  import SyncWorkers
  import opened CatchUp
  import opened Reorg
  import RewindRuns
  import opened EscrowSync

  predicate TouchesMilestone(e: Event) {
    e.Submitted? || e.Approved? || e.Released? || e.Raised? || e.Resolved? || e.EmergencyResolved?
  }

  predicate TouchesRecipients(e: Event) {
    e.RecipientSet? || e.RecipientExecuted? || e.Resolved? || e.EmergencyResolved? || e.Cancelled?
  }

  predicate TouchesRoles(e: Event) {
    e.RoleChanged? || e.AdminRoleChanged? || e.ThresholdUpdated?
  }

  lemma ReplayOne(t: Tables, events: seq<Logged>, i: nat)
    requires i < |events|
    ensures TablesRun(t, events[..i + 1]) == TablesStep(TablesRun(t, events[..i]), events[i])
    ensures CursorRun(false, map[], events[..i + 1]) ==
            Merge(CursorRun(false, map[], events[..i]), ReducePatch(events[i].event))
  {
    assert events[..i + 1][..i] == events[..i];
  }

  lemma RewoundEscrow(db: Db<Projections>, retained: seq<StoredLog>, startBlock: int, rewindFrom: int)
    ensures Rewind(ESCROW, db, retained, startBlock, rewindFrom) ==
            Db(Some(Checkpoint(RebuiltTo(retained, startBlock), None, None,
                               CursorRun(false, map[], ReplayedEvents(retained)), None)),
               Kept(db.rows, rewindFrom),
               Projections(TablesRun(NO_TABLES, ReplayedEvents(retained)), db.projections.platform))
  {
  }

  /** The call's hashes and its answer are those of a chain the database is in step with. */
  ghost predicate AnsweredFrom(db: Db<Projections>, env: Env, hashAt: int -> nat, safeHead: int,
                               fetched: Result<seq<RawLog>, string>, chain: Chain, n: nat) {
    Valid(env) && ValidChain(chain, env.startBlock) && Synced(db, chain, n, env.startBlock) && hashAt == chain.hashAt &&
    (fetched.Ok? && From(env, db.checkpoint) <= safeHead ==> CanRun(db, env, chain, safeHead, fetched.value))
  }

  /** Then it is in step afterwards, by having applied exactly the chain's next logs. */
  ghost predicate KeepsStep(db: Db<Projections>, after: Db<Projections>, env: Env, hashAt: int -> nat, safeHead: int,
                            fetched: Result<seq<RawLog>, string>, chain: Chain, n: nat) {
    AnsweredFrom(db, env, hashAt, safeHead, fetched, chain, n) ==>
      exists m: nat :: Advanced(ESCROW, db, after, env.startBlock, chain, n, m)
  }

  lemma CallKeepsStep(db: Db<Projections>, env: Env, hashAt: int -> nat, safeHead: int, retained: seq<StoredLog>,
                      fetched: Result<seq<RawLog>, string>, trouble: Option<Trouble>, chain: Chain, n: nat)
    ensures var checked := EnsureConsistency(ESCROW, db, db.checkpoint, env, hashAt, safeHead, retained);
            KeepsStep(db, TryRun(ESCROW, checked, env, hashAt, safeHead, fetched, trouble), env, hashAt, safeHead,
                      fetched, chain, n)
  {
    if AnsweredFrom(db, env, hashAt, safeHead, fetched, chain, n) {
      SyncWorkers.NeverMismatched(db.checkpoint, chain, n, env.startBlock, safeHead);
      var m := TryRunAdvances(ESCROW, db, env, chain, n, safeHead, fetched, trouble);
      assert Advanced(ESCROW, db, TryRun(ESCROW, db, env, hashAt, safeHead, fetched, trouble), env.startBlock, chain,
                      n, m);
    }
  }

  /** The call finds that the checkpoint's block was replaced, and is answered from the new chain. */
  ghost predicate FindsReorg(db: Db<Projections>, env: Env, hashAt: int -> nat, safeHead: int, retained: seq<StoredLog>,
                             fetched: Result<seq<RawLog>, string>, was: Chain, chain: Chain, n: nat) {
    Reorged(db, env, was, n, retained, chain) && RewindRuns.Replaced(db, chain) && hashAt == chain.hashAt &&
    db.checkpoint.value.block <= safeHead &&
    var rewound := Rewound(ESCROW, db, env, retained);
    (fetched.Ok? && From(env, rewound.checkpoint) <= safeHead ==> CanRun(rewound, env, chain, safeHead, fetched.value))
  }

  /** Then the database is the rewound one with exactly the new chain's next logs applied, and in step with it. */
  ghost predicate RecoversStep(db: Db<Projections>, after: Db<Projections>, env: Env, hashAt: int -> nat, safeHead: int,
                               retained: seq<StoredLog>, fetched: Result<seq<RawLog>, string>, was: Chain,
                               chain: Chain, n: nat) {
    FindsReorg(db, env, hashAt, safeHead, retained, fetched, was, chain, n) ==>
      exists m: nat ::
        Advanced(ESCROW, Rewound(ESCROW, db, env, retained), after, env.startBlock, chain, Common(db, env, chain), m)
  }

  lemma CallRecoversStep(db: Db<Projections>, env: Env, hashAt: int -> nat, safeHead: int, retained: seq<StoredLog>,
                         fetched: Result<seq<RawLog>, string>, trouble: Option<Trouble>, was: Chain, chain: Chain,
                         n: nat)
    ensures var checked := EnsureConsistency(ESCROW, db, db.checkpoint, env, hashAt, safeHead, retained);
            RecoversStep(db, TryRun(ESCROW, checked, env, hashAt, safeHead, fetched, trouble), env, hashAt, safeHead,
                         retained, fetched, was, chain, n)
  {
    if FindsReorg(db, env, hashAt, safeHead, retained, fetched, was, chain, n) {
      var m := RewindRuns.RewindingCall(ESCROW, db, env, was, n, retained, chain, safeHead, fetched, trouble);
    }
  }

  class EventSync {
    var checkpoint: Option<Checkpoint>
    var rows: map<LogKey, LogRow>
    var pause: Option<PauseRow>
    var tokens: map<Address, TokenRow>
    var members: map<MemberKey, MemberRow>
    var roleEvents: map<LogKey, RoleEventRow>
    var arbitrators: Option<ArbitratorRow>
    var thresholds: map<LogKey, ThresholdRow>
    var proposals: Proposals
    var legs: Legs
    var projects: map<int, Project>
    const users: set<Address>

    function Gov(): GovTables
      reads this`pause, this`tokens, this`members, this`roleEvents, this`arbitrators, this`thresholds
    {
      GovTables(pause, tokens, members, roleEvents, arbitrators, thresholds)
    }

    function Tables(): Tables
      reads this
    {
      ProjectionTables.Tables(Gov(), proposals, legs)
    }

    function Contents(): Db<Projections>
      reads this
    {
      Db(checkpoint, rows, Projections(Tables(), Platform(projects, users)))
    }

    constructor (users: set<Address>)
      ensures Contents() == Db(None, map[], Projections(NO_TABLES, Platform(map[], users)))
    {
      checkpoint, rows, projects := None, map[], map[];
      pause, tokens, members, roleEvents, arbitrators, thresholds := None, map[], map[], map[], None, map[];
      proposals, legs := map[], map[];
      this.users := users;
    }

    // -------------------------------------------------------------- Governance

    method SyncPauseState(o: Origin, e: Event)
      requires e.PauseChanged?
      modifies this`pause
      ensures Gov() == GovStep(old(Gov()), o, e)
    {
      pause := Some(PauseRow(e.paused, e.account, o));
    }

    method SyncTokenGovernance(o: Origin, e: Event)
      requires e.TokenReviewed? || e.TokenAllowed?
      modifies this`tokens
      ensures Gov() == GovStep(old(Gov()), o, e)
    {
      var row := if e.token in tokens then tokens[e.token] else TokenRow(false, false, None, o);
      if e.TokenReviewed? {
        tokens := tokens[e.token := row.(reviewed := true, reviewedBy := Some(e.admin), origin := o)];
        return;
      }
      tokens := tokens[e.token := row.(allowed := e.allowed, origin := o)];
    }

    method SyncRoleAndArbitratorGovernance(o: Origin, e: Event)
      requires TouchesRoles(e)
      modifies this`members, this`roleEvents, this`arbitrators, this`thresholds
      ensures Gov() == GovStep(old(Gov()), o, e)
    {
      if e.RoleChanged? {
        var k := MemberKey(e.role, e.account);
        var existing := if k in members then Some(members[k].isActive) else None;
        members := members[k := MemberRow(e.granted, e.sender, o)];
        roleEvents := roleEvents[KeyOf(o) := Membership(e.granted, e.role, e.account, e.sender, o.block)];
        if e.role == ARBITRATOR_ROLE && existing != Some(e.granted) {
          var current := if arbitrators.Some? then arbitrators.value.count else 0;
          var next := if current + (if e.granted then 1 else -1) < 0 then 0 else current + if e.granted then 1 else -1;
          arbitrators := Some(if arbitrators.Some? then arbitrators.value.(count := next, origin := o)
                              else ArbitratorRow(next, None, o));
        }
        return;
      }
      if e.AdminRoleChanged? {
        roleEvents := roleEvents[KeyOf(o) := AdminChange(e.role, e.previousAdminRole, e.newAdminRole, o.block)];
        return;
      }
      thresholds := thresholds[KeyOf(o) := ThresholdRow(e.previousThreshold, e.newThreshold, e.updatedBy, o.block)];
      arbitrators := Some(if arbitrators.Some?
                          then arbitrators.value.(threshold := Some(e.newThreshold), origin := o)
                          else ArbitratorRow(0, Some(e.newThreshold), o));
    }

    // -------------------------------------------------------------- Emergency proposals and recipients

    method SyncEmergencyResolutionProposal(o: Origin, e: Event)
      requires e.EmergencyProposed? || IsCloser(e)
      modifies this`proposals
      ensures proposals == ProposalStep(old(proposals), o, e)
    {
      if e.EmergencyProposed? {
        proposals := proposals[KeyOf(o) :=
          ProposalRow(e.projectId, e.milestoneIndex, Some(e.actionHash), Some(e.resolutionKind),
                      Some(e.freelancerAmount), Some(e.clientAmount),
                      if e.readyAt > 0 then Some(e.readyAt) else None, P_Proposed)];
        return;
      }
      var status := if e.EmergencyCancelled? then P_Cancelled
                    else if e.EmergencyResolved? then P_Executed else P_Invalidated;
      if e.EmergencyCancelled? {
        if e.actionHash != Plain("") {
          proposals := map k | k in proposals ::
            if proposals[k].status == P_Proposed && SameMilestone(proposals[k], e.projectId, e.milestoneIndex) &&
               proposals[k].actionHash == Some(e.actionHash)
            then proposals[k].(status := status) else proposals[k];
        }
      } else {
        proposals := map k | k in proposals ::
          if proposals[k].status == P_Proposed && SameMilestone(proposals[k], e.projectId, e.milestoneIndex)
          then proposals[k].(status := status) else proposals[k];
      }
      assert proposals == CloseMatching(old(proposals), e);
      var row := if KeyOf(o) in proposals then proposals[KeyOf(o)]
                 else ProposalRow(e.projectId, e.milestoneIndex, None, None, None, None, None, status);
      row := row.(projectId := e.projectId, milestoneIndex := e.milestoneIndex, status := status);
      if e.EmergencyCancelled? {
        row := row.(actionHash := OrNull(e.actionHash));
      } else if e.EmergencyResolved? {
        row := row.(kind := Some(e.resolutionKind), freelancerAmount := Some(e.freelancerAmount),
                    clientAmount := Some(e.clientAmount), readyAt := None);
      }
      proposals := proposals[KeyOf(o) := row];
    }

    method SyncAlternativeRecipientState(o: Origin, e: Event)
      requires TouchesRecipients(e)
      modifies this`legs
      ensures legs == LegStep(old(legs), o, e)
    {
      if e.RecipientSet? {
        var authorized, zero := e.executableAfter == 0, e.recipient == ZERO_ADDRESS;
        var pending := !authorized && !zero;
        legs := legs[LegKey(e.projectId, e.milestoneIndex, e.isFreelancer) :=
          LegRow(if pending then Some(e.recipient) else None, if pending then Some(e.executableAfter) else None, None,
                 if authorized && !zero then Some(e.recipient) else None,
                 if pending then L_Pending else L_Cleared, o)];
        return;
      }
      if e.RecipientExecuted? {
        var k, zero := LegKey(e.projectId, e.milestoneIndex, e.isFreelancer), e.recipient == ZERO_ADDRESS;
        legs := legs[k := LegRow(None, None, if zero then None else Some(e.recipient),
                                 if k in legs then legs[k].partyAuthorized else None,
                                 if zero then L_Cleared else L_Active, o)];
        return;
      }
      if e.Cancelled? {
        legs := map k | k in legs ::
          if k.projectId == e.projectId then LegRow(None, None, None, None, L_Cleared, o) else legs[k];
        return;
      }
      var sides := [true, false];
      for i := 0 to 2
        invariant legs == if i == 0 then old(legs)
                          else if i == 1 then old(legs)[LegKey(e.projectId, e.milestoneIndex, true) := ClearedLeg(o)]
                          else ClearMilestone(old(legs), e.projectId, e.milestoneIndex, o)
      {
        legs := legs[LegKey(e.projectId, e.milestoneIndex, sides[i]) := LegRow(None, None, None, None, L_Cleared, o)];
      }
    }

    // -------------------------------------------------------------- Projects and milestones

    method SyncProjectFunded(projectId: int, fundedWei: int, now: int)
      requires projectId in projects
      modifies this`projects
      ensures projects == old(projects)[projectId := ApplyFunded(old(projects)[projectId], fundedWei, now)]
    {
      var p := projects[projectId];
      var computed := if p.totalValueWei.Some? && fundedWei >= p.totalValueWei.value then ACTIVE else AWAITING_ESCROW;
      var status := if p.status in {COMPLETED, CANCELLED, DISPUTED} then p.status else computed;
      var updates := Funding.MilestoneFundingSyncUpdates(p.milestones, fundedWei, now);
      var ms := p.milestones;
      for i := 0 to |updates|
        invariant ms == Funding.UpdateRows(p.milestones, updates[..i])
      {
        assert updates[..i + 1][..i] == updates[..i];
        ms := seq(|ms|, k requires 0 <= k < |ms| => Funding.Applied(ms[k], updates[i]));
      }
      assert updates[..|updates|] == updates;
      projects := projects[projectId := p.(status := status, milestones := ms)];
    }

    /** The milestone's row, then the project's, as each event writes them. */
    method SyncMilestone(e: Event, now: int)
      requires ProjectOf(e).Some? && ProjectOf(e).value in projects
      requires TouchesMilestone(e)
      modifies this`projects
      ensures projects == old(projects)[ProjectOf(e).value := ApplyToProject(old(projects)[ProjectOf(e).value], e, now)]
    {
      var id := ProjectOf(e).value;
      var p := projects[id];
      var found := FindMilestone(p.milestones, e.milestoneIndex);
      if found.None? {
        assert projects == projects[id := p];
        return;
      }
      var i := found.value;
      var m := p.milestones[i];
      var status := p.status;
      if e.Submitted? {
        m := m.(status := SUBMITTED);
        status := ACTIVE;
      } else if e.Approved? {
        m := m.(status := APPROVED);
      } else if e.Released? {
        m := m.(status := RELEASED, releasedAt := Some(now));
        status := if AllSettled(p.milestones[i := m]) then COMPLETED else ACTIVE;
      } else if e.Raised? {
        if !HasOpenDispute(m) {
          m := m.(disputes := m.disputes + [D_OPEN]);
        }
        m := m.(status := M_DISPUTED);
        status := DISPUTED;
      } else {
        var latest := LatestOpen(m.disputes);
        if latest.Some? {
          m := m.(disputes := m.disputes[latest.value := ResolvedStatus(e.resolutionKind)]);
        }
        m := m.(status := if e.resolutionKind == 1 then VOIDED else RELEASED, releasedAt := Some(now));
        var ms := p.milestones[i := m];
        status := if AnyOpenDispute(ms) then DISPUTED else if AllSettled(ms) then COMPLETED else ACTIVE;
      }
      projects := projects[id := p.(status := status, milestones := p.milestones[i := m])];
    }

    method SyncProjectCreated(e: Event, now: int)
      requires e.Created?
      modifies this`projects
      ensures Platform(projects, users) == ApplyToPlatform(Platform(old(projects), users), e, now)
    {
      if e.projectId in projects {
        var p := projects[e.projectId];
        var status := if p.status == DRAFT || p.status == AWAITING_FREELANCER || p.status == AWAITING_ESCROW
                      then AWAITING_ESCROW else p.status;
        projects := projects[e.projectId := p.(status := status, totalValueWei := Some(e.totalAmount))];
        return;
      }
      if e.client in users {
        projects := projects[e.projectId := Project(AWAITING_ESCROW, Some(e.totalAmount), [], None)];
      }
    }

    method SyncProjectCancelled(projectId: int)
      requires projectId in projects
      modifies this`projects
      ensures projects == old(projects)[projectId := ApplyCancelled(old(projects)[projectId])]
    {
      var p := projects[projectId];
      var ms := seq(|p.milestones|, i requires 0 <= i < |p.milestones| =>
        var m := p.milestones[i];
        if m.status in {PLANNED, AWAITING_FUNDS, FUNDED, IN_PROGRESS, SUBMITTED, CLIENT_REVIEW, APPROVED, M_DISPUTED}
        then m.(status := VOIDED) else m);
      assert ms == ApplyCancelled(p).milestones;
      projects := projects[projectId := p.(status := CANCELLED, milestones := ms)];
    }

    /** The part of the projections on the platform's own tables. */
    method SyncPlatform(e: Event, now: int)
      modifies this`projects
      ensures Platform(projects, users) == ApplyToPlatform(Platform(old(projects), users), e, now)
    {
      var id := ProjectOf(e);
      if e.Created? {
        SyncProjectCreated(e, now);
      } else if id.Some? && id.value in projects {
        if e.Funded? {
          SyncProjectFunded(id.value, e.fundedAmountAfter, now);
        } else if e.Cancelled? {
          SyncProjectCancelled(id.value);
        } else {
          SyncMilestone(e, now);
        }
      }
    }

    // -------------------------------------------------------------- Dispatch

    /** `replayProjectionFromStoredLog`. */
    method ReplayProjection(l: Logged)
      modifies this`pause, this`tokens, this`members, this`roleEvents, this`arbitrators, this`thresholds
      modifies this`proposals, this`legs
      ensures Tables() == TablesStep(old(Tables()), l)
    {
      var o, e := l.origin, l.event;
      if e.PauseChanged? {
        SyncPauseState(o, e);
        return;
      }
      if e.EmergencyProposed? || IsCloser(e) {
        SyncEmergencyResolutionProposal(o, e);
      }
      if TouchesRecipients(e) {
        SyncAlternativeRecipientState(o, e);
      }
      if e.TokenReviewed? || e.TokenAllowed? {
        SyncTokenGovernance(o, e);
        return;
      }
      if TouchesRoles(e) {
        SyncRoleAndArbitratorGovernance(o, e);
      }
    }

    /** `applyEventProjection`: the projections of a live log, and its patch. */
    method ApplyEventProjection(l: Log) returns (patch: Object)
      modifies this`pause, this`tokens, this`members, this`roleEvents, this`arbitrators, this`thresholds
      modifies this`proposals, this`legs, this`projects
      ensures Tables() == TablesStep(old(Tables()), LoggedOf(l))
      ensures Platform(projects, users) == ApplyToPlatform(Platform(old(projects), users), EventOf(l), l.time)
      ensures patch == LivePatch(EventOf(l))
    {
      var o, e := l.origin, EventOf(l);
      patch := map[];
      if e.Created? || e.Funded? || (TouchesMilestone(e) && !TouchesRecipients(e)) || e.EvidenceAppended? {
        SyncPlatform(e, l.time);
      } else if e.Resolved? || e.EmergencyResolved? {
        if e.EmergencyResolved? {
          SyncEmergencyResolutionProposal(o, e);
        }
        SyncAlternativeRecipientState(o, e);
        SyncPlatform(e, l.time);
      } else if e.Cancelled? {
        SyncAlternativeRecipientState(o, e);
        SyncPlatform(e, l.time);
      } else if e.RecipientSet? || e.RecipientExecuted? {
        SyncAlternativeRecipientState(o, e);
        patch := ReducePatch(e);
      } else if e.EmergencyProposed? || e.EmergencyCancelled? || e.NonceAdvanced? {
        SyncEmergencyResolutionProposal(o, e);
        patch := ReducePatch(e);
      } else if e.TokenReviewed? || e.TokenAllowed? {
        SyncTokenGovernance(o, e);
        patch := ReducePatch(e);
      } else if TouchesRoles(e) {
        SyncRoleAndArbitratorGovernance(o, e);
        patch := ReducePatch(e);
      } else if e.PauseChanged? {
        SyncPauseState(o, e);
        patch := ReducePatch(e);
      } else {
        patch := ReducePatch(e);
      }
    }

    // -------------------------------------------------------------- Transactions

    /** One log: projections unless the stored row already has its event, then the row and the checkpoint. */
    method CommitLog(l: Log, projectionState: Object) returns (next: Object)
      modifies this
      ensures Contents() == SyncState.CommitLog(ESCROW, old(Contents()), projectionState, l)
      ensures next == NextCursor(ESCROW, old(rows), projectionState, l)
    {
      next := projectionState;
      if KeyOf(l.origin) !in rows || rows[KeyOf(l.origin)].name != l.name {
        var patch := ApplyEventProjection(l);
        next := DeepMergeJsonObjects(projectionState, patch);
      }
      rows := rows[KeyOf(l.origin) := LogRow(l.name, l.origin.block, ChainEvent, ToTxPayload(l.name, l.args))];
      checkpoint := Some(Checkpoint(l.origin.block, Some(l.blockHash), Some(l.origin.logIndex), next, None));
    }

    method CommitEmpty(to: int, hash: nat)
      modifies this`checkpoint
      ensures Contents() == SyncState.CommitEmpty(old(Contents()), to, hash)
    {
      checkpoint := Some(if checkpoint.Some?
                         then checkpoint.value.(block := to, hash := Some(hash), logIndex := None, lastError := None)
                         else Checkpoint(to, Some(hash), None, map[], None));
    }

    method RecordFailure(env: Env, message: string)
      modifies this`checkpoint
      ensures Contents() == SyncState.RecordFailure(old(Contents()), env, message)
    {
      checkpoint := Some(if checkpoint.Some? then checkpoint.value.(lastError := Some(message))
                         else Checkpoint(env.startBlock, None, Some(-1), map[], Some(message)));
    }

    /** The loop over the ordered logs. */
    method CommitAll(orderedLogs: seq<Log>, cursor: Object)
      modifies this
      ensures Contents() == SyncState.CommitAll(ESCROW, old(Contents()), cursor, orderedLogs)
    {
      var projectionState := cursor;
      for i := 0 to |orderedLogs|
        invariant SyncState.CommitAll(ESCROW, Contents(), projectionState, orderedLogs[i..]) ==
                  SyncState.CommitAll(ESCROW, old(Contents()), cursor, orderedLogs)
      {
        assert orderedLogs[i..][0] == orderedLogs[i] && orderedLogs[i..][1..] == orderedLogs[i + 1..];
        projectionState := CommitLog(orderedLogs[i], projectionState);
      }
      assert orderedLogs[|orderedLogs|..] == [];
    }

    // -------------------------------------------------------------- Rewind

    method ClearProjections()
      modifies this`pause, this`tokens, this`members, this`roleEvents, this`arbitrators, this`thresholds
      modifies this`proposals, this`legs
      ensures Tables() == NO_TABLES
    {
      pause, proposals, legs, tokens := None, map[], map[], map[];
      members, roleEvents, arbitrators, thresholds := map[], map[], None, map[];
    }

    /** The loop over the retained rows. */
    method ReplayAll(retained: seq<StoredLog>, startBlock: int) returns (cursorState: Object, lastProcessedBlock: int)
      modifies this`pause, this`tokens, this`members, this`roleEvents, this`arbitrators, this`thresholds
      modifies this`proposals, this`legs
      ensures Tables() == TablesRun(old(Tables()), ReplayedEvents(retained))
      ensures cursorState == CursorRun(false, map[], ReplayedEvents(retained))
      ensures lastProcessedBlock == RebuiltTo(retained, startBlock)
    {
      cursorState := map[];
      lastProcessedBlock := if startBlock > 0 then startBlock - 1 else 0;
      ghost var events := ReplayedEvents(retained);
      for i := 0 to |retained|
        invariant Tables() == TablesRun(old(Tables()), events[..i])
        invariant cursorState == CursorRun(false, map[], events[..i])
        invariant lastProcessedBlock == RebuiltTo(retained[..i], startBlock)
      {
        var eventLog := ParseStored(retained[i]);
        ReplayOne(old(Tables()), events, i);
        ReplayProjection(eventLog);
        cursorState := DeepMergeJsonObjects(cursorState, ReducePatch(eventLog.event));
        lastProcessedBlock := retained[i].row.block;
      }
      assert events[..|retained|] == events && retained[..|retained|] == retained;
    }

    /** `rewindAndRebuildProjections`; `retained` is what the query on the remaining rows returns. */
    method RewindAndRebuildProjections(retained: seq<StoredLog>, startBlock: int, rewindFrom: int)
      requires IsRetained(retained, Kept(rows, rewindFrom), startBlock, rewindFrom)
      modifies this
      ensures Contents() == Rewind(ESCROW, old(Contents()), retained, startBlock, rewindFrom)
    {
      rows := map k | k in rows && !(rows[k].source == ChainEvent && rows[k].block >= rewindFrom) :: rows[k];
      assert rows == Kept(old(rows), rewindFrom);
      ClearProjections();
      RewoundEscrow(old(Contents()), retained, startBlock, rewindFrom);
      var cursorState, lastProcessedBlock := ReplayAll(retained, startBlock);
      checkpoint := Some(Checkpoint(lastProcessedBlock, None, None, cursorState, None));
    }

    method EnsureCheckpointConsistency(env: Env, hashAt: int -> nat, safeHead: int, retained: seq<StoredLog>)
      requires checkpoint.Some? ==>
                 var rewindFrom := RewindFrom(env, checkpoint.value.block);
                 IsRetained(retained, Kept(rows, rewindFrom), env.startBlock, rewindFrom)
      modifies this
      ensures Contents() ==
              EnsureConsistency(ESCROW, old(Contents()), old(checkpoint), env, hashAt, safeHead, retained)
    {
      if checkpoint.None? || checkpoint.value.hash.None? {
        return;
      }
      if checkpoint.value.block > safeHead {
        return;
      }
      if checkpoint.value.hash.value == hashAt(checkpoint.value.block) {
        return;
      }
      var candidate := checkpoint.value.block - env.rewindDepth;
      var rewindFrom := if candidate > env.startBlock then candidate else env.startBlock;
      RewindAndRebuildProjections(retained, env.startBlock, rewindFrom);
    }

    // -------------------------------------------------------------- One run

    /** The commits of a fetched range; `trouble` is an error on the way. */
    method CommitRange(env: Env, toBlock: int, hash: nat, orderedLogs: seq<Log>, trouble: Option<Trouble>)
        returns (error: Option<string>)
      modifies this
      ensures error == if Stops(trouble, orderedLogs) then Some(trouble.value.message) else None
      ensures Contents() == TryCommit(ESCROW, old(Contents()), env, toBlock, hash, orderedLogs, trouble)
    {
      if Stops(trouble, orderedLogs) {
        CommitAll(Done(trouble, orderedLogs), CursorOf(checkpoint));
        RecordFailure(env, trouble.value.message);
        return Some(trouble.value.message);
      }
      CommitAll(orderedLogs, CursorOf(checkpoint));
      if orderedLogs == [] {
        CommitEmpty(toBlock, hash);
      }
      return None;
    }

    /** The part behind the consistency check: `fetched` is the node's answer for the range or the error of the
        last retry. */
    method SyncRange(env: Env, hashAt: int -> nat, safeHead: int, fetched: Result<seq<RawLog>, string>,
                     trouble: Option<Trouble>)
        returns (result: Result<nat, string>)
      modifies this
      ensures Contents() == TryRun(ESCROW, old(Contents()), env, hashAt, safeHead, fetched, trouble)
      ensures result == Report(env, old(checkpoint), safeHead, fetched, trouble)
    {
      var fromBlock := if checkpoint.None? then env.startBlock
                       else if checkpoint.value.logIndex.None? then checkpoint.value.block + 1
                       else checkpoint.value.block;
      assert fromBlock == From(env, checkpoint);
      if fromBlock > safeHead {
        return Ok(0);
      }
      var toBlock := if safeHead < fromBlock + env.batchSize - 1 then safeHead else fromBlock + env.batchSize - 1;
      if fetched.Err? {
        RecordFailure(env, fetched.error);
        return Err(fetched.error);
      }
      var orderedLogs := FetchSupportedLogs(fetched.value, Position(checkpoint));
      var error := CommitRange(env, toBlock, hashAt(toBlock), orderedLogs, trouble);
      if error.Some? {
        return Err(error.value);
      }
      return Ok(|orderedLogs|);
    }

    /** `syncEscrowEventsOnce`; `early` is an error before the consistency check is done, which rolls its
        rewind back. Otherwise, whatever goes wrong, a call answered from a chain the database is in step with
        applies exactly the chain's next logs and leaves the database in step; and so does, on the rewound
        database, a call that finds a replaced block and is answered from the new chain. */
    method SyncEscrowEventsOnce(env: Env, hashAt: int -> nat, safeHead: int, retained: seq<StoredLog>,
                                early: Option<string>, fetched: Result<seq<RawLog>, string>,
                                trouble: Option<Trouble>, ghost was: Chain, ghost chain: Chain, ghost n: nat)
        returns (result: Result<nat, string>)
      requires checkpoint.Some? ==>
                 var rewindFrom := RewindFrom(env, checkpoint.value.block);
                 IsRetained(retained, Kept(rows, rewindFrom), env.startBlock, rewindFrom)
      modifies this
      ensures early.Some? ==> Contents() == old(Contents()) && result == Err(early.value)
      ensures early.None? ==>
                var checked :=
                  EnsureConsistency(ESCROW, old(Contents()), old(checkpoint), env, hashAt, safeHead, retained);
                Contents() == TryRun(ESCROW, checked, env, hashAt, safeHead, fetched, trouble) &&
                result == Report(env, checked.checkpoint, safeHead, fetched, trouble)
      ensures early.None? ==>
                KeepsStep(old(Contents()), Contents(), env, hashAt, safeHead, fetched, chain, n) &&
                RecoversStep(old(Contents()), Contents(), env, hashAt, safeHead, retained, fetched, was, chain, n)
    {
      if early.Some? {
        return Err(early.value);
      }
      CallKeepsStep(Contents(), env, hashAt, safeHead, retained, fetched, trouble, chain, n);
      CallRecoversStep(Contents(), env, hashAt, safeHead, retained, fetched, trouble, was, chain, n);
      EnsureCheckpointConsistency(env, hashAt, safeHead, retained);
      result := SyncRange(env, hashAt, safeHead, fetched, trouble);
    }
  }
}

/** The engine with the escrow's own projections: what it keeps in the tables and in the JSON copy. */
module EscrowSync {
  import opened JsonMerge
  import opened Governance
  import opened EmergencyProposals
  import opened RecipientLegs
  import opened ProjectionTables
  import opened CursorState
  import opened MilestoneProjection
  import opened SyncState
  import opened SyncWorkers
  import opened SoloWorker

  datatype Projections = Projections(tables: Tables, platform: Platform)

  /** `applyEventProjection` and the rebuild of `rewindAndRebuildProjections`, which leaves the platform's own
      tables as they are. */
  const ESCROW: Projector<Projections> := Projector(
    (s: Projections, l: Log) => Projections(TablesStep(s.tables, LoggedOf(l)),
                                            ApplyToPlatform(s.platform, EventOf(l), l.time)),
    (l: Log) => LivePatch(EventOf(l)),
    (s: Projections, rows: seq<StoredLog>) => Projections(TablesRun(NO_TABLES, ReplayedEvents(rows)), s.platform),
    (rows: seq<StoredLog>) => CursorRun(false, map[], ReplayedEvents(rows)))

  function TimedOf(logs: seq<Log>): seq<Timed> {
    seq(|logs|, i requires 0 <= i < |logs| => Timed(EventOf(logs[i]), logs[i].time))
  }

  lemma {:induction false} RunEventsAppend(s: Platform, w: seq<Timed>, t: Timed)
    ensures RunEvents(s, w + [t]) == ApplyToPlatform(RunEvents(s, w), t.event, t.now)
    decreases |w|
  {
    if w != [] {
      assert (w + [t])[1..] == w[1..] + [t];
      RunEventsAppend(ApplyToPlatform(s, w[0].event, w[0].now), w[1..], t);
    } else {
      assert w + [t] == [t] && [t][1..] == [];
      assert RunEvents(ApplyToPlatform(s, t.event, t.now), []) == ApplyToPlatform(s, t.event, t.now);
    }
  }

  lemma {:induction false} FoldTables(s: Projections, logs: seq<Log>)
    ensures Fold(ESCROW, s, logs).tables == TablesRun(s.tables, LiveEvents(logs))
  {
    if logs != [] {
      FoldTables(s, logs[..|logs| - 1]);
      assert LiveEvents(logs)[..|logs| - 1] == LiveEvents(logs[..|logs| - 1]);
    }
  }

  lemma {:induction false} FoldPlatform(s: Projections, logs: seq<Log>)
    ensures Fold(ESCROW, s, logs).platform == RunEvents(s.platform, TimedOf(logs))
  {
    if logs != [] {
      var n := |logs| - 1;
      FoldPlatform(s, logs[..n]);
      assert TimedOf(logs) == TimedOf(logs[..n]) + [Timed(EventOf(logs[n]), logs[n].time)];
      RunEventsAppend(s.platform, TimedOf(logs[..n]), Timed(EventOf(logs[n]), logs[n].time));
    }
  }

  lemma {:induction false} CopyIsRun(c: Object, logs: seq<Log>)
    ensures CopyAfter(ESCROW, c, logs) == CursorRun(true, c, LiveEvents(logs))
  {
    if logs != [] {
      CopyIsRun(c, logs[..|logs| - 1]);
      assert LiveEvents(logs)[..|logs| - 1] == LiveEvents(logs[..|logs| - 1]);
    }
  }

  lemma CopiesAfter(c: Object, s: Projections, logs: seq<Log>)
    requires Agrees(c, s.tables.gov)
    ensures Agrees(CopyAfter(ESCROW, c, logs), Fold(ESCROW, s, logs).tables.gov)
  {
    CopyIsRun(c, logs);
    FoldTables(s, logs);
    TableByTable(s.tables, LiveEvents(logs));
    CopiesAgree(c, s.tables.gov, true, LiveEvents(logs));
  }

  /** In every run whose calls do not overlap, through failures and crashes, the checkpoint's pause state,
      allowed tokens and token reviews agree with the tables. */
  lemma SerialCopiesAgree(db: Db<Projections>, env: Env, chain: Chain, n: nat, actions: seq<Action>)
    requires Valid(env) && ValidChain(chain, env.startBlock) && Synced(db, chain, n, env.startBlock)
    requires FirstToFetch(env, chain, db.checkpoint) == n
    requires Serial(ESCROW, World(db, [], map[]), env, chain, actions)
    requires Agrees(CursorOf(db.checkpoint), db.projections.tables.gov)
    ensures var after := Run(ESCROW, World(db, [], map[]), env, chain, actions).db;
            Agrees(CursorOf(after.checkpoint), after.projections.tables.gov)
  {
    SerialRun(ESCROW, db, env, chain, n, actions, 0);
    RunHealthy(ESCROW, db, env, chain, n, actions);
    CopiesAfter(CursorOf(db.checkpoint), db.projections,
                Run(ESCROW, World(db, [], map[]), env, chain, actions).applied);
  }

  /** In particular in every single-worker run. */
  lemma SoloCopiesAgree(db: Db<Projections>, env: Env, chain: Chain, n: nat, id: nat, actions: seq<Action>)
    requires Valid(env) && ValidChain(chain, env.startBlock) && Synced(db, chain, n, env.startBlock)
    requires FirstToFetch(env, chain, db.checkpoint) == n
    requires forall i | 0 <= i < |actions| :: actions[i].id == id
    requires Agrees(CursorOf(db.checkpoint), db.projections.tables.gov)
    ensures var after := Run(ESCROW, World(db, [], map[]), env, chain, actions).db;
            Agrees(CursorOf(after.checkpoint), after.projections.tables.gov)
  {
    SoloIsSerial(ESCROW, db, env, chain, actions, id);
    SerialCopiesAgree(db, env, chain, n, actions);
  }

  /** Whatever the workers do, each table and the platform's own rows are those of one run over exactly the
      applied logs, so everything proved of such runs holds of the database. */
  lemma WorkersProject(db: Db<Projections>, env: Env, chain: Chain, n: nat, actions: seq<Action>)
    requires Valid(env) && ValidChain(chain, env.startBlock) && Synced(db, chain, n, env.startBlock)
    ensures var w := Run(ESCROW, World(db, [], map[]), env, chain, actions);
            var t, events := db.projections.tables, LiveEvents(w.applied);
            w.db.projections.tables ==
              Tables(GovRun(t.gov, events), ProposalRun(t.proposals, events), LegRun(t.legs, events)) &&
            w.db.projections.platform == RunEvents(db.projections.platform, TimedOf(w.applied))
  {
    RunHealthy(ESCROW, db, env, chain, n, actions);
    FoldTables(db.projections, Run(ESCROW, World(db, [], map[]), env, chain, actions).applied);
    TableByTable(db.projections.tables, LiveEvents(Run(ESCROW, World(db, [], map[]), env, chain, actions).applied));
    FoldPlatform(db.projections, Run(ESCROW, World(db, [], map[]), env, chain, actions).applied);
  }
}

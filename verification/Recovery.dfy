/** What the escrow's tables and the JSON copy hold after a rewind and the runs that follow it. */
module Recovery {
  import opened Events
  import opened Governance
  import opened ProjectionTables
  import opened CursorState
  import opened SyncState
  import opened SyncWorkers
  import opened SoloWorker
  import opened EscrowSync
  import opened Reorg
  import opened RewindRuns

  /** Two governance tables that differ in thresholds only. */
  predicate SameRoles(a: GovTables, b: GovTables) {
    a.pause == b.pause && a.tokens == b.tokens && a.members == b.members && a.roleEvents == b.roleEvents &&
    Count(a) == Count(b)
  }

  lemma SameRolesChange(a: GovTables, b: GovTables, o: Origin, granted: bool, role: Bytes32, account: Address,
                        sender: Address)
    requires SameRoles(a, b)
    ensures SameRoles(ChangeRole(a, o, granted, role, account, sender),
                      ChangeRole(b, o, granted, role, account, sender))
  {
  }

  lemma SameRolesStep(a: GovTables, b: GovTables, l: Logged)
    requires SameRoles(a, b)
    ensures SameRoles(GovStep(a, l.origin, l.event), GovStep(b, l.origin, l.event))
  {
    match l.event
    case RoleChanged(granted, role, account, sender) =>
      SameRolesChange(a, b, l.origin, granted, role, account, sender);
    case _ =>
  }

  lemma {:induction false} SameRolesRun(a: GovTables, b: GovTables, w: seq<Logged>)
    requires SameRoles(a, b)
    ensures SameRoles(GovRun(a, w), GovRun(b, w))
  {
    if w != [] {
      SameRolesRun(a, b, w[..|w| - 1]);
      SameRolesStep(GovRun(a, w[..|w| - 1]), GovRun(b, w[..|w| - 1]), w[|w| - 1]);
    }
  }

  lemma {:induction false} GovRunAppend(g: GovTables, v: seq<Logged>, w: seq<Logged>)
    ensures GovRun(GovRun(g, v), w) == GovRun(g, v + w)
  {
    if w == [] {
      assert v + w == v;
    } else {
      assert (v + w)[..|v + w| - 1] == v + w[..|w| - 1];
      GovRunAppend(g, v, w[..|w| - 1]);
    }
  }

  lemma RebuiltRoles(logs: seq<Log>, retained: seq<StoredLog>)
    requires Typed(logs) && retained == StoredLogs(logs)
    ensures SameRoles(TablesRun(NO_TABLES, ReplayedEvents(retained)).gov, GovRun(NO_GOVERNANCE, LiveEvents(logs)))
  {
    RebuildKeepsGovernance(logs);
    TableByTable(NO_TABLES, LiveEvents(logs));
  }

  lemma LiveSplit(logs: seq<Log>, m: nat, k: nat)
    requires m <= k <= |logs|
    ensures LiveEvents(logs[..m]) + LiveEvents(logs[m..k]) == LiveEvents(logs[..k])
  {
  }

  lemma RolesAfter(s: Projections, chain: Chain, start: int, m: nat, k: nat)
    requires ValidChain(chain, start) && m <= k <= |chain.logs|
    requires SameRoles(s.tables.gov, GovRun(NO_GOVERNANCE, LiveEvents(chain.logs[..m])))
    ensures SameRoles(Fold(ESCROW, s, chain.logs[m..k]).tables.gov, GovRun(NO_GOVERNANCE, LiveEvents(chain.logs[..k])))
  {
    FoldTables(s, chain.logs[m..k]);
    TableByTable(s.tables, LiveEvents(chain.logs[m..k]));
    SameRolesRun(s.tables.gov, GovRun(NO_GOVERNANCE, LiveEvents(chain.logs[..m])), LiveEvents(chain.logs[m..k]));
    LiveSplit(chain.logs, m, k);
    GovRunAppend(NO_GOVERNANCE, LiveEvents(chain.logs[..m]), LiveEvents(chain.logs[m..k]));
  }

  /** After a rewind, whatever the workers do on the new chain, the pause, token, role-membership and
      role-event tables and the arbitrator count are those of an installation that only ever saw the new
      chain, up to the log now reached. */
  lemma RolesRecover(db: Db<Projections>, env: Env, was: Chain, n: nat, retained: seq<StoredLog>, chain: Chain,
                     actions: seq<Action>, after: Db<Projections>) returns (k: nat)
    requires Reorged(db, env, was, n, retained, chain) && Regained(ESCROW, db, env, retained, chain, actions, after)
    ensures k <= |chain.logs| && Synced(after, chain, k, env.startBlock) &&
            SameRoles(after.projections.tables.gov, GovRun(NO_GOVERNANCE, LiveEvents(chain.logs[..k])))
  {
    var m := Common(db, env, chain);
    k := RegainedReaches(ESCROW, db, env, was, n, retained, chain, actions, after);
    RewoundRoles(db, env, retained, chain, m);
    RolesAfter(Rewound(ESCROW, db, env, retained).projections, chain, env.startBlock, m, k);
  }

  lemma RewoundRoles(db: Db<Projections>, env: Env, retained: seq<StoredLog>, chain: Chain, m: nat)
    requires db.checkpoint.Some? && Typed(chain.logs) && m <= |chain.logs| && retained == StoredLogs(chain.logs[..m])
    ensures SameRoles(Rewound(ESCROW, db, env, retained).projections.tables.gov,
                      GovRun(NO_GOVERNANCE, LiveEvents(chain.logs[..m])))
  {
    assert Typed(chain.logs[..m]) by {
      assert forall i | 0 <= i < m :: chain.logs[..m][i] == chain.logs[i];
    }
    RebuiltRoles(chain.logs[..m], retained);
  }

  lemma RewoundCopiesAgree(db: Db<Projections>, env: Env, retained: seq<StoredLog>)
    requires db.checkpoint.Some?
    ensures var base := Rewound(ESCROW, db, env, retained);
            Agrees(CursorOf(base.checkpoint), base.projections.tables.gov)
  {
    CopiesAgree(map[], NO_GOVERNANCE, false, ReplayedEvents(retained));
    TableByTable(NO_TABLES, ReplayedEvents(retained));
  }

  /** A rewind makes the two copies agree whatever they held before, and calls that do not overlap, in
      particular those of a single worker, keep it so. */
  lemma CopiesRecover(db: Db<Projections>, env: Env, was: Chain, n: nat, retained: seq<StoredLog>, chain: Chain,
                      actions: seq<Action>)
    requires Reorged(db, env, was, n, retained, chain)
    requires Serial(ESCROW, World(Rewound(ESCROW, db, env, retained), [], map[]), env, chain, actions)
    ensures var after := Run(ESCROW, World(Rewound(ESCROW, db, env, retained), [], map[]), env, chain, actions).db;
            Agrees(CursorOf(after.checkpoint), after.projections.tables.gov)
  {
    var m := RewindRecovers(ESCROW, db, env, was, n, retained, chain);
    RewoundCopiesAgree(db, env, retained);
    SerialCopiesAgree(Rewound(ESCROW, db, env, retained), env, chain, m, actions);
  }

  /** So it is when the rewind happens inside the run. */
  lemma CopiesRecoverInRun(db: Db<Projections>, env: Env, was: Chain, n: nat, retained: seq<StoredLog>, chain: Chain,
                           actions: seq<Action>, j: nat)
    requires Reorged(db, env, was, n, retained, chain) && Replaced(db, chain) && j < |actions|
    requires Serial(ESCROW, World(db, [], map[]), env, chain, actions)
    requires RewindsAlone(ESCROW, World(db, [], map[]), env, chain, actions, j)
    ensures var after := Run(ESCROW, World(db, [], map[]), env, chain, actions).db;
            Agrees(CursorOf(after.checkpoint), after.projections.tables.gov)
  {
    SerialRewindLevel(ESCROW, db, env, was, n, retained, chain, actions, j, 0);
    RewindInRun(ESCROW, db, env, was, n, retained, chain, actions, j);
    RewoundCopiesAgree(db, env, retained);
    LevelAgrees(Run(ESCROW, World(db, [], map[]), env, chain, actions), Rewound(ESCROW, db, env, retained), env, chain,
                Common(db, env, chain));
  }

  lemma LevelAgrees(w: World<Projections>, base: Db<Projections>, env: Env, chain: Chain, m: nat)
    requires Level(ESCROW, w, base, env, chain, m, 0) && Healthy(ESCROW, w, base, chain, m, env.startBlock)
    requires Agrees(CursorOf(base.checkpoint), base.projections.tables.gov)
    ensures Agrees(CursorOf(w.db.checkpoint), w.db.projections.tables.gov)
  {
    CopiesAfter(CursorOf(base.checkpoint), base.projections, w.applied);
  }
}

/** What two overlapping sync workers can do to the JSON copy and to the checkpoint. */
module OverlappingWorkers {
  import opened Basics
  import opened ProjectionTables
  import opened CursorState
  import opened SyncLog
  import opened SyncState
  import opened SyncWorkers
  import opened EscrowSync
  import opened Governance
  import opened CopyLaw
  import JsonMerge
  import Events

  function Checks(safeHead: int): seq<Action> {
    [Start(0, safeHead), Start(1, safeHead)] + [Check(0, []), Check(1, [])]
  }

  /** Both read the empty checkpoint and fetch before either commits. */
  function Reading(safeHead: int, answer: seq<RawLog>): seq<Action> {
    Checks(safeHead) + [Fetch(0, answer), Fetch(1, answer)]
  }

  ghost predicate Scene<P>(db: Db<P>, env: Env, chain: Chain, answer: seq<RawLog>) {
    && Valid(env) && ValidChain(chain, env.startBlock) && chain.logs != []
    && db.checkpoint == None && db.rows == map[]
    && LastBlock(chain) <= env.startBlock + env.batchSize - 1
    && Answers(answer, chain.logs, env.startBlock, LastBlock(chain))
  }

  function LastBlock(chain: Chain): int
    requires chain.logs != []
  {
    chain.logs[|chain.logs| - 1].origin.block
  }

  lemma AllCovered(chain: Chain, start: int)
    requires ValidChain(chain, start) && chain.logs != []
    ensures CountCovered(chain.logs, EndOf(LastBlock(chain))) == |chain.logs| && LastBlock(chain) >= start
  {
    CoveredPrefix(chain.logs, EndOf(LastBlock(chain)));
    assert Covers(EndOf(LastBlock(chain)), chain.logs[|chain.logs| - 1].origin);
  }

  lemma FetchedAll<P>(db: Db<P>, env: Env, chain: Chain, answer: seq<RawLog>)
    requires Scene(db, env, chain, answer)
    ensures FetchSupportedLogs(answer, None) == chain.logs
  {
    var h := LastBlock(chain);
    AllCovered(chain, env.startBlock);
    SentinelCoversNothing(chain, env.startBlock);
    assert From(env, None) == env.startBlock && To(env, env.startBlock, h) == h;
    assert FirstToFetch(env, chain, None) == 0;
    FetchedSlice(env, chain, None, h, answer);
    assert chain.logs[0..|chain.logs|] == chain.logs;
  }

  lemma FetchesAll<P>(db: Db<P>, env: Env, chain: Chain, answer: seq<RawLog>)
    requires Scene(db, env, chain, answer)
    ensures AfterFetch(env, None, LastBlock(chain), answer) == Batch(chain.logs, map[])
    ensures From(env, None) == env.startBlock <= LastBlock(chain)
    ensures To(env, env.startBlock, LastBlock(chain)) == LastBlock(chain)
  {
    AllCovered(chain, env.startBlock);
    FetchedAll(db, env, chain, answer);
  }

  function Both<P>(db: Db<P>, worker: Worker): World<P> {
    World(db, [], map[0 := worker, 1 := worker])
  }

  lemma RunTwice<P>(pr: Projector<P>, w: World<P>, env: Env, chain: Chain, actions: seq<Action>, a: Action, b: Action)
    ensures Run(pr, w, env, chain, actions + [a, b]) ==
            Step(pr, Step(pr, Run(pr, w, env, chain, actions), env, chain, a), env, chain, b)
  {
    var one, two := actions + [a], actions + [a, b];
    RunAppend(pr, w, env, chain, actions, a);
    assert two[..|two| - 1] == one && two[|two| - 1] == b;
  }

  lemma BothStart<P>(pr: Projector<P>, db: Db<P>, env: Env, chain: Chain, h: int)
    requires db.checkpoint == None
    ensures Run(pr, World(db, [], map[]), env, chain, Checks(h)) == Both(db, Checked(None, h))
  {
    var w0 := World(db, [], map[]);
    assert [] + [Start(0, h), Start(1, h)] == [Start(0, h), Start(1, h)];
    RunTwice(pr, w0, env, chain, [], Start(0, h), Start(1, h));
    assert Run(pr, w0, env, chain, [Start(0, h), Start(1, h)]) == Both(db, Started(None, h));
    RunTwice(pr, w0, env, chain, [Start(0, h), Start(1, h)], Check(0, []), Check(1, []));
  }

  lemma FetchOne<P>(pr: Projector<P>, w: World<P>, db: Db<P>, env: Env, chain: Chain, answer: seq<RawLog>, id: nat)
    requires Scene(db, env, chain, answer) && At(w, id) == Checked(None, LastBlock(chain))
    ensures Step(pr, w, env, chain, Fetch(id, answer)) == Goto(w, id, Batch(chain.logs, map[]))
  {
    FetchesAll(db, env, chain, answer);
  }

  lemma BothMoved<P>(db: Db<P>, a: Worker, b: Worker)
    ensures At(Goto(Both(db, a), 0, b), 1) == a && Goto(Goto(Both(db, a), 0, b), 1, b) == Both(db, b)
  {
  }

  lemma BothRead<P>(pr: Projector<P>, db: Db<P>, env: Env, chain: Chain, answer: seq<RawLog>)
    requires Scene(db, env, chain, answer)
    ensures Run(pr, World(db, [], map[]), env, chain, Reading(LastBlock(chain), answer)) ==
            Both(db, Batch(chain.logs, map[]))
  {
    var h, batch := LastBlock(chain), Batch(chain.logs, map[]);
    BothStart(pr, db, env, chain, h);
    BothMoved(db, Checked(None, h), batch);
    FetchOne(pr, Both(db, Checked(None, h)), db, env, chain, answer, 0);
    FetchOne(pr, Goto(Both(db, Checked(None, h)), 0, batch), db, env, chain, answer, 1);
    RunTwice(pr, World(db, [], map[]), env, chain, Checks(h), Fetch(0, answer), Fetch(1, answer));
  }

  // ---------------------------------------------------------------- One worker ahead

  function Commits(j: nat): seq<Action> { seq(j, _ => Commit(0)) }

  /** Worker 0 has committed the first `j` logs, worker 1 none. */
  predicate Ahead<P(==)>(w: World<P>, chain: Chain, j: nat)
    requires j <= |chain.logs|
  {
    w.applied == chain.logs[..j] && At(w, 1) == Batch(chain.logs, map[]) &&
    (j < |chain.logs| ==> At(w, 0).Batch? && At(w, 0).pending == chain.logs[j..])
  }

  lemma FreshSynced<P>(db: Db<P>, env: Env, chain: Chain, answer: seq<RawLog>)
    requires Scene(db, env, chain, answer)
    ensures Synced(db, chain, 0, env.startBlock)
  {
    assert chain.logs[..0] == [];
  }

  lemma AheadStep<P>(pr: Projector<P>, w: World<P>, env: Env, chain: Chain, j: nat)
    requires ValidChain(chain, env.startBlock) && j < |chain.logs| && Ahead(w, chain, j)
    requires Synced(w.db, chain, j, env.startBlock)
    ensures Ahead(Step(pr, w, env, chain, Commit(0)), chain, j + 1)
  {
    CommitRows(w.db.rows, chain, j, env.startBlock, j);
    NextOf(chain.logs, j);
  }

  lemma NextOf(logs: seq<Log>, j: nat)
    requires j < |logs|
    ensures logs[j..][0] == logs[j] && logs[j..][1..] == logs[j + 1..] && |logs[j..]| == |logs| - j
    ensures logs[..j] + [logs[j]] == logs[..j + 1]
  {
  }

  lemma AheadNext<P>(pr: Projector<P>, db: Db<P>, env: Env, chain: Chain, actions: seq<Action>, j: nat)
    requires Valid(env) && ValidChain(chain, env.startBlock) && Synced(db, chain, 0, env.startBlock)
    requires j < |chain.logs| && Ahead(Run(pr, World(db, [], map[]), env, chain, actions), chain, j)
    ensures Ahead(Run(pr, World(db, [], map[]), env, chain, actions + [Commit(0)]), chain, j + 1)
  {
    AheadSynced(pr, db, env, chain, actions, j);
    AheadStep(pr, Run(pr, World(db, [], map[]), env, chain, actions), env, chain, j);
    RunAppend(pr, World(db, [], map[]), env, chain, actions, Commit(0));
  }

  lemma BothAhead<P>(db: Db<P>, chain: Chain)
    ensures Ahead(Both(db, Batch(chain.logs, map[])), chain, 0)
  {
    assert chain.logs[..0] == [] && chain.logs[0..] == chain.logs;
  }

  lemma MoreCommits(a: seq<Action>, j: nat)
    ensures a + Commits(j) == if j == 0 then a else a + Commits(j - 1) + [Commit(0)]
  {
  }

  lemma {:induction false} AheadRun<P>(pr: Projector<P>, db: Db<P>, env: Env, chain: Chain, answer: seq<RawLog>, j: nat)
    requires Scene(db, env, chain, answer) && j <= |chain.logs|
    ensures Ahead(Run(pr, World(db, [], map[]), env, chain, Reading(LastBlock(chain), answer) + Commits(j)), chain, j)
  {
    var a := Reading(LastBlock(chain), answer);
    MoreCommits(a, j);
    if j == 0 {
      BothRead(pr, db, env, chain, answer);
      BothAhead(db, chain);
    } else {
      AheadRun(pr, db, env, chain, answer, j - 1);
      FreshSynced(db, env, chain, answer);
      AheadNext(pr, db, env, chain, a + Commits(j - 1), j - 1);
    }
  }

  lemma AheadSynced<P>(pr: Projector<P>, db: Db<P>, env: Env, chain: Chain, actions: seq<Action>, j: nat)
    requires Valid(env) && ValidChain(chain, env.startBlock) && Synced(db, chain, 0, env.startBlock)
    requires j <= |chain.logs| && Ahead(Run(pr, World(db, [], map[]), env, chain, actions), chain, j)
    ensures var w := Run(pr, World(db, [], map[]), env, chain, actions);
            Synced(w.db, chain, j, env.startBlock) && w.db.projections == Fold(pr, db.projections, chain.logs[..j])
  {
    RunHealthy(pr, db, env, chain, 0, actions);
    HealthyAhead(pr, Run(pr, World(db, [], map[]), env, chain, actions), db, env, chain, j);
  }

  lemma HealthyAhead<P>(pr: Projector<P>, w: World<P>, base: Db<P>, env: Env, chain: Chain, j: nat)
    requires Healthy(pr, w, base, chain, 0, env.startBlock) && j <= |chain.logs| && Ahead(w, chain, j)
    ensures Synced(w.db, chain, j, env.startBlock) && w.db.projections == Fold(pr, base.projections, chain.logs[..j])
  {
    assert |w.applied| == j;
  }

  lemma LateCommit<P>(pr: Projector<P>, w: World<P>, env: Env, chain: Chain, j: nat)
    requires ValidChain(chain, env.startBlock) && 1 <= j <= |chain.logs| && Ahead(w, chain, j)
    requires Synced(w.db, chain, j, env.startBlock)
    ensures var w' := Step(pr, w, env, chain, Commit(1));
            w'.applied == chain.logs[..j] && w'.db.projections == w.db.projections &&
            CursorOf(w'.db.checkpoint) == map[] && Position(w'.db.checkpoint) == Some(MarkOf(chain.logs[0].origin))
  {
    CommitRows(w.db.rows, chain, j, env.startBlock, 0);
  }

  /** Both workers fetch a chain of any length, worker 0 commits any number of its logs, then worker 1 its
      first one: every log stays applied exactly once, but all patches are gone from the checkpoint, and the
      checkpoint is back behind the first log. */
  lemma OverlapLosesPatches<P>(pr: Projector<P>, db: Db<P>, env: Env, chain: Chain, answer: seq<RawLog>, j: nat)
    requires Scene(db, env, chain, answer) && 1 <= j <= |chain.logs|
    ensures var w := Run(pr, World(db, [], map[]), env, chain,
                         Reading(LastBlock(chain), answer) + Commits(j) + [Commit(1)]);
            w.applied == chain.logs[..j] && w.db.projections == Fold(pr, db.projections, chain.logs[..j]) &&
            CursorOf(w.db.checkpoint) == map[] && Position(w.db.checkpoint) == Some(MarkOf(chain.logs[0].origin))
  {
    var w0, a := World(db, [], map[]), Reading(LastBlock(chain), answer) + Commits(j);
    AheadRun(pr, db, env, chain, answer, j);
    FreshSynced(db, env, chain, answer);
    AheadSynced(pr, db, env, chain, a, j);
    LateCommit(pr, Run(pr, w0, env, chain, a), env, chain, j);
    RunAppend(pr, w0, env, chain, a, Commit(1));
  }

  /** Whenever a pause event is among those logs, the two copies then disagree. */
  lemma OverlapSplitsCopies(platform: MilestoneProjection.Platform, env: Env, chain: Chain, answer: seq<RawLog>, j: nat,
                            i: nat)
    requires 1 <= j <= |chain.logs| && i < j && EventOf(chain.logs[i]).PauseChanged?
    requires Scene(Db(None, map[], Projections(NO_TABLES, platform)), env, chain, answer)
    ensures var db := Db(None, map[], Projections(NO_TABLES, platform));
            var after := Run(ESCROW, World(db, [], map[]), env, chain,
                             Reading(LastBlock(chain), answer) + Commits(j) + [Commit(1)]).db;
            !PauseAgrees(CursorOf(after.checkpoint), after.projections.tables.gov.pause)
  {
    var db := Db(None, map[], Projections(NO_TABLES, platform));
    OverlapLosesPatches(ESCROW, db, env, chain, answer, j);
    PausedTable(db.projections, chain.logs[..j], i);
  }

  lemma PausedTable(s: Projections, logs: seq<Log>, i: nat)
    requires s.tables == NO_TABLES && i < |logs| && EventOf(logs[i]).PauseChanged?
    ensures Fold(ESCROW, s, logs).tables.gov.pause.Some?
  {
    var w := LiveEvents(logs);
    FoldTables(s, logs);
    TableByTable(NO_TABLES, w);
    PauseIsLastEvent(w);
    assert w[i].event.PauseChanged?;
  }

  // ---------------------------------------------------------------- When the copies agree

  /** What the last pause event of a run says. */
  function LastSays(w: seq<Logged>): Option<(bool, Events.Address)> {
    var p := LastPause(w);
    if p.None? then None else Some((w[p.value].event.paused, w[p.value].event.account))
  }

  lemma PauseJsonDecides(p: bool, a: Events.Address, q: bool, b: Events.Address)
    ensures PauseJson(p, a) == PauseJson(q, b) <==> p == q && a == b
  {
    var x, y := PauseJson(p, a).fields, PauseJson(q, b).fields;
    assert |"paused"| == 6 && |"account"| == 7 && |"eventName"| == 9;
    assert x[JsonMerge.Plain("paused")] == JsonMerge.Bool(p) && y[JsonMerge.Plain("paused")] == JsonMerge.Bool(q);
    assert x[JsonMerge.Plain("account")] == Events.AddressText(a);
    assert y[JsonMerge.Plain("account")] == Events.AddressText(b);
  }

  lemma RunsAgreeIff(seen: seq<Logged>, applied: seq<Logged>)
    ensures PauseAgrees(CursorRun(true, map[], seen), GovRun(NO_GOVERNANCE, applied).pause) <==>
            LastSays(seen) == LastSays(applied)
  {
    CopyHoldsLastPause(true, seen);
    PauseIsLastEvent(applied);
    if LastPause(seen).Some? && LastPause(applied).Some? {
      var e, f := seen[LastPause(seen).value].event, applied[LastPause(applied).value].event;
      PauseJsonDecides(e.paused, e.account, f.paused, f.account);
    }
  }

  /** In every interleaving from a fresh start, the JSON copy's pause state agrees with the pause table exactly
      when the last pause events of what the copy has seen and of what was applied say the same. */
  lemma PauseAgreesIff(db: Db<Projections>, env: Env, chain: Chain, n: nat, actions: seq<Action>)
    requires Valid(env) && ValidChain(chain, env.startBlock) && Synced(db, chain, n, env.startBlock)
    requires CursorOf(db.checkpoint) == map[] && db.projections.tables.gov == NO_GOVERNANCE
    ensures var w := Run(ESCROW, World(db, [], map[]), env, chain, actions);
            PauseAgrees(CursorOf(w.db.checkpoint), w.db.projections.tables.gov.pause) <==>
            LastSays(LiveEvents(SeenOf(ESCROW, World(db, [], map[]), env, chain, actions).stored)) ==
            LastSays(LiveEvents(w.applied))
  {
    var stored := SeenOf(ESCROW, World(db, [], map[]), env, chain, actions).stored;
    CopyIsSeen(ESCROW, db, env, chain, n, actions);
    CopyIsRun(map[], stored);
    WorkersProject(db, env, chain, n, actions);
    RunsAgreeIff(LiveEvents(stored), LiveEvents(Run(ESCROW, World(db, [], map[]), env, chain, actions).applied));
  }
}

/** Two calls find the same mismatch: the second rewind takes back what the first call has committed since
    (event-sync-service.ts, `ensureCheckpointConsistency`). */
module OverlappingRewinds {
  import opened Basics
  import opened JsonMerge
  import opened Governance
  import opened ProjectionTables
  import opened SyncLog
  import opened SyncState
  import opened SyncWorkers
  import opened OverlappingWorkers
  import opened Reorg
  import RewindRuns
  import opened DeepReorg

  /** The checkpoint's block was replaced; the old chain had no logs, and the new one has two, both at or
      behind the rewind point and within one batch. */
  ghost predicate Stage<P>(db: Db<P>, env: Env, chain: Chain, block: int, hash: nat, answer: seq<RawLog>) {
    && Valid(env) && ValidChain(chain, env.startBlock) && |chain.logs| == 2
    && db.checkpoint == Some(Checkpoint(block, Some(hash), None, map[], None)) && db.rows == map[]
    && env.startBlock <= block <= LastBlock(chain) && hash != chain.hashAt(block)
    && RewindFrom(env, block) <= chain.logs[0].origin.block
    && LastBlock(chain) <= env.startBlock + env.batchSize - 1
    && Answers(answer, chain.logs, env.startBlock, LastBlock(chain))
  }

  /** Both read the checkpoint; the first finds the mismatch, fetches and commits one log; then the second
      finds it, and the first commits its other log. */
  function Script(h: int, answer: seq<RawLog>): seq<Action> {
    [Start(0, h), Start(1, h)] + [Check(0, []), Fetch(0, answer)] + [Commit(0), Check(1, [])] + [Commit(0), Crash(1)]
  }

  /** The database after a rewind that keeps no row. */
  function Blank<P>(pr: Projector<P>, projections: P, start: int): Db<P> {
    Db(Some(Checkpoint(start - 1, None, None, pr.copy([]), None)), map[], pr.rebuild(projections, []))
  }

  lemma BlankRewind<P>(pr: Projector<P>, db: Db<P>, start: int, rewindFrom: int)
    requires start >= 1 && forall k | k in db.rows :: IsDropped(db.rows[k], rewindFrom)
    ensures Queried([], db.rows, start, rewindFrom)
    ensures Rewind(pr, db, [], start, rewindFrom) == Blank(pr, db.projections, start)
  {
  }

  lemma BothStarted<P>(pr: Projector<P>, db: Db<P>, env: Env, chain: Chain, h: int)
    ensures Run(pr, World(db, [], map[]), env, chain, [Start(0, h), Start(1, h)]) == Both(db, Started(db.checkpoint, h))
  {
    RunTwice(pr, World(db, [], map[]), env, chain, [], Start(0, h), Start(1, h));
    assert [] + [Start(0, h), Start(1, h)] == [Start(0, h), Start(1, h)];
  }

  lemma CheckFinds<P>(pr: Projector<P>, w: World<P>, env: Env, chain: Chain, block: int, hash: nat, id: nat, h: int)
    requires Valid(env) && At(w, id) == Started(Some(Checkpoint(block, Some(hash), None, map[], None)), h)
    requires block <= h && hash != chain.hashAt(block)
    requires forall k | k in w.db.rows :: IsDropped(w.db.rows[k], RewindFrom(env, block))
    ensures var blank := Blank(pr, w.db.projections, env.startBlock);
            Step(pr, w, env, chain, Check(id, [])) ==
            World(blank, w.applied, w.workers[id := Checked(blank.checkpoint, h)])
  {
    BlankRewind(pr, w.db, env.startBlock, RewindFrom(env, block));
  }

  lemma FetchBoth<P>(pr: Projector<P>, w: World<P>, db: Db<P>, env: Env, chain: Chain, block: int, hash: nat,
                     answer: seq<RawLog>, projections: P)
    requires Stage(db, env, chain, block, hash, answer)
    requires At(w, 0) == Checked(Blank(pr, projections, env.startBlock).checkpoint, LastBlock(chain))
    ensures Step(pr, w, env, chain, Fetch(0, answer)) == Goto(w, 0, Batch(chain.logs, pr.copy([])))
  {
    var c, h := Blank(pr, projections, env.startBlock).checkpoint, LastBlock(chain);
    AllCovered(chain, env.startBlock);
    SentinelCoversNothing(chain, env.startBlock);
    assert From(env, c) == env.startBlock && To(env, env.startBlock, h) == h && FirstToFetch(env, chain, c) == 0;
    FetchedSlice(env, chain, c, h, answer);
    assert chain.logs[0..|chain.logs|] == chain.logs;
  }

  lemma CommitFirst<P>(pr: Projector<P>, w: World<P>, env: Env, chain: Chain, cursor: Object)
    requires |chain.logs| == 2 && At(w, 0) == Batch(chain.logs, cursor) && w.db.rows == map[]
    ensures var w' := Step(pr, w, env, chain, Commit(0));
            w'.db.rows == map[KeyOf(chain.logs[0].origin) := RowOf(chain.logs[0])] &&
            w'.applied == w.applied + [chain.logs[0]] && At(w', 1) == At(w, 1) &&
            w'.db.projections == pr.apply(w.db.projections, chain.logs[0]) &&
            At(w', 0).Batch? && At(w', 0).pending == [chain.logs[1]]
  {
    assert chain.logs[1..] == [chain.logs[1]];
  }

  lemma CommitSecond<P>(pr: Projector<P>, w: World<P>, env: Env, chain: Chain)
    requires |chain.logs| == 2 && At(w, 0).Batch? && At(w, 0).pending == [chain.logs[1]] && w.db.rows == map[]
    ensures var w' := Step(pr, w, env, chain, Commit(0));
            w'.db.rows == map[KeyOf(chain.logs[1].origin) := RowOf(chain.logs[1])] &&
            w'.applied == w.applied + [chain.logs[1]] && At(w', 0).Idle? && w'.db.checkpoint.Some? &&
            w'.db.projections == pr.apply(w.db.projections, chain.logs[1]) &&
            PositionOf(w'.db.checkpoint.value) == MarkOf(chain.logs[1].origin) &&
            w'.db.checkpoint.value.hash == Some(chain.logs[1].blockHash)
  {
  }

  /** What the two calls leave: both logs were applied and the checkpoint covers both, but the first one's row
      is gone, and after it was applied the tables were rebuilt without it. */
  ghost predicate FirstLost<P>(pr: Projector<P>, w: World<P>, db: Db<P>, chain: Chain) {
    && |chain.logs| == 2 && w.applied == chain.logs && w.db.checkpoint.Some?
    && PositionOf(w.db.checkpoint.value) == MarkOf(chain.logs[1].origin)
    && w.db.checkpoint.value.hash == Some(chain.logs[1].blockHash)
    && w.db.rows == map[KeyOf(chain.logs[1].origin) := RowOf(chain.logs[1])]
    && w.db.projections ==
       pr.apply(pr.rebuild(pr.apply(pr.rebuild(db.projections, []), chain.logs[0]), []), chain.logs[1])
  }

  lemma FirstRewind<P>(pr: Projector<P>, db: Db<P>, env: Env, chain: Chain, block: int, hash: nat, answer: seq<RawLog>)
    requires Stage(db, env, chain, block, hash, answer)
    ensures var h, blank := LastBlock(chain), Blank(pr, db.projections, env.startBlock);
            Step(pr, Both(db, Started(db.checkpoint, h)), env, chain, Check(0, [])) ==
            World(blank, [], map[0 := Checked(blank.checkpoint, h), 1 := Started(db.checkpoint, h)])
  {
    CheckFinds(pr, Both(db, Started(db.checkpoint, LastBlock(chain))), env, chain, block, hash, 0, LastBlock(chain));
  }

  lemma FirstHalf<P>(pr: Projector<P>, db: Db<P>, env: Env, chain: Chain, block: int, hash: nat, answer: seq<RawLog>)
    requires Stage(db, env, chain, block, hash, answer)
    ensures var h, blank := LastBlock(chain), Blank(pr, db.projections, env.startBlock);
            Run(pr, World(db, [], map[]), env, chain, [Start(0, h), Start(1, h)] + [Check(0, []), Fetch(0, answer)]) ==
            Goto(World(blank, [], map[0 := Checked(blank.checkpoint, h), 1 := Started(db.checkpoint, h)]), 0,
                 Batch(chain.logs, pr.copy([])))
  {
    var h, blank := LastBlock(chain), Blank(pr, db.projections, env.startBlock);
    BothStarted(pr, db, env, chain, h);
    RunTwice(pr, World(db, [], map[]), env, chain, [Start(0, h), Start(1, h)], Check(0, []), Fetch(0, answer));
    FirstRewind(pr, db, env, chain, block, hash, answer);
    FetchBoth(pr, World(blank, [], map[0 := Checked(blank.checkpoint, h), 1 := Started(db.checkpoint, h)]), db, env,
              chain, block, hash, answer, db.projections);
  }

  /** The second rewind takes the first log back. */
  lemma SecondRewind<P>(pr: Projector<P>, w: World<P>, db: Db<P>, env: Env, chain: Chain, block: int, hash: nat,
                        answer: seq<RawLog>)
    requires Stage(db, env, chain, block, hash, answer) && w.applied == [] && w.db.rows == map[]
    requires At(w, 0) == Batch(chain.logs, pr.copy([])) && At(w, 1) == Started(db.checkpoint, LastBlock(chain))
    ensures var one := Step(pr, Step(pr, w, env, chain, Commit(0)), env, chain, Check(1, []));
            one.db == Blank(pr, pr.apply(w.db.projections, chain.logs[0]), env.startBlock) &&
            one.applied == [chain.logs[0]] && At(one, 0).Batch? && At(one, 0).pending == [chain.logs[1]]
  {
    CommitFirst(pr, w, env, chain, pr.copy([]));
    CheckFinds(pr, Step(pr, w, env, chain, Commit(0)), env, chain, block, hash, 1, LastBlock(chain));
  }

  lemma SecondHalf<P>(pr: Projector<P>, w: World<P>, db: Db<P>, env: Env, chain: Chain, block: int, hash: nat,
                      answer: seq<RawLog>)
    requires Stage(db, env, chain, block, hash, answer) && w.applied == []
    requires w.db == Blank(pr, db.projections, env.startBlock)
    requires At(w, 0) == Batch(chain.logs, pr.copy([])) && At(w, 1) == Started(db.checkpoint, LastBlock(chain))
    ensures var one := Step(pr, Step(pr, w, env, chain, Commit(0)), env, chain, Check(1, []));
            var two := Step(pr, Step(pr, one, env, chain, Commit(0)), env, chain, Crash(1));
            FirstLost(pr, two, db, chain) && At(two, 0).Idle? && At(two, 1).Idle?
  {
    SecondRewind(pr, w, db, env, chain, block, hash, answer);
    LastSteps(pr, Step(pr, Step(pr, w, env, chain, Commit(0)), env, chain, Check(1, [])), db, env, chain);
  }

  lemma LastSteps<P>(pr: Projector<P>, one: World<P>, db: Db<P>, env: Env, chain: Chain)
    requires |chain.logs| == 2 && one.applied == [chain.logs[0]]
    requires one.db == Blank(pr, pr.apply(pr.rebuild(db.projections, []), chain.logs[0]), env.startBlock)
    requires At(one, 0).Batch? && At(one, 0).pending == [chain.logs[1]]
    ensures var two := Step(pr, Step(pr, one, env, chain, Commit(0)), env, chain, Crash(1));
            FirstLost(pr, two, db, chain) && At(two, 0).Idle? && At(two, 1).Idle?
  {
    CommitSecond(pr, one, env, chain);
    assert [chain.logs[0]] + [chain.logs[1]] == chain.logs;
  }

  /** The stage is a reorganisation from which one call alone recovers. */
  lemma StageIsReorged<P>(db: Db<P>, env: Env, was: Chain, chain: Chain, block: int, hash: nat, answer: seq<RawLog>)
    requires Stage(db, env, chain, block, hash, answer) && was.logs == [] && was.hashAt(block) == hash
    ensures Reorged(db, env, was, 0, [], chain) && RewindRuns.Replaced(db, chain)
  {
    CoveredPrefix(chain.logs, EndOf(RewindFrom(env, block) - 1));
    assert Mined(db.rows) == TableOf(was.logs[..0]);
  }

  /** The failing input, for every such stage. */
  lemma RewindTakesBack<P>(pr: Projector<P>, db: Db<P>, env: Env, chain: Chain, block: int, hash: nat,
                           answer: seq<RawLog>)
    requires Stage(db, env, chain, block, hash, answer)
    ensures var w := Run(pr, World(db, [], map[]), env, chain, Script(LastBlock(chain), answer));
            FirstLost(pr, w, db, chain) && At(w, 0).Idle? && At(w, 1).Idle?
  {
    var h, w0 := LastBlock(chain), World(db, [], map[]);
    var opening := [Start(0, h), Start(1, h)] + [Check(0, []), Fetch(0, answer)];
    FirstHalf(pr, db, env, chain, block, hash, answer);
    RunTwice(pr, w0, env, chain, opening, Commit(0), Check(1, []));
    RunTwice(pr, w0, env, chain, opening + [Commit(0), Check(1, [])], Commit(0), Crash(1));
    SecondHalf(pr, Run(pr, w0, env, chain, opening), db, env, chain, block, hash, answer);
  }

  /** The loss is for good: no later worker finds a mismatch, writes the first log's row, or ends in step with
      any number of the chain's logs. */
  lemma LostForGood<P>(pr: Projector<P>, w: World<P>, db: Db<P>, env: Env, chain: Chain, actions: seq<Action>, k: nat)
    requires Valid(env) && ValidChain(chain, env.startBlock) && FirstLost(pr, w, db, chain)
    ensures var later := Run(pr, World(w.db, [], map[]), env, chain, actions);
            AllGenuine(later, chain) && KeyOf(chain.logs[0].origin) !in later.db.rows &&
            !Synced(later.db, chain, k, env.startBlock)
  {
    var later := Run(pr, World(w.db, [], map[]), env, chain, actions);
    CoveredUpTo(chain.logs, 1);
    NeverNoticed(pr, w.db, env, chain, actions);
    NeverBehind(pr, w.db, env, chain, actions, 2);
    NotInStep(w.db, later.db, env, chain, k);
  }

  lemma NotInStep<P>(before: Db<P>, later: Db<P>, env: Env, chain: Chain, k: nat)
    requires ValidChain(chain, env.startBlock) && |chain.logs| == 2 && Frozen(before, later, chain, 2)
    requires before.rows == map[KeyOf(chain.logs[1].origin) := RowOf(chain.logs[1])]
    requires later.checkpoint.Some? && 2 <= CountCovered(chain.logs, PositionOf(later.checkpoint.value))
    ensures KeyOf(chain.logs[0].origin) !in later.rows && !Synced(later, chain, k, env.startBlock)
  {
    var key := KeyOf(chain.logs[0].origin);
    assert key != KeyOf(chain.logs[1].origin);
    assert NotBehind(key, chain, 2);
    assert key !in Mined(later.rows);
    if 2 <= k <= |chain.logs| {
      InTable(chain, k, env.startBlock, 0);
    }
  }
}

/** Exactly when a rewind among other calls is safe (event-sync-service.ts, `ensureCheckpointConsistency`). */
module RewindSafety {
  import opened Basics
  import opened Governance
  import opened ProjectionTables
  import opened SyncLog
  import opened SyncState
  import opened SyncWorkers
  import opened SoloWorker
  import opened CallSteps
  import opened Reorg
  import opened DeepReorg
  import opened LateHealing
  import opened RewindRuns

  /** The worker has read the replaced checkpoint and will find the mismatch too. */
  predicate WillFind(worker: Worker, c0: Option<Checkpoint>) {
    worker.Started? && SamePlace(worker.read, c0) && c0.value.block <= worker.safeHead
  }

  /** The database is in step with some number of the chain's logs. */
  ghost predicate InStep<P>(db: Db<P>, chain: Chain, start: int) {
    exists k: nat :: Synced(db, chain, k, start)
  }

  // ---------------------------------------------------------------- Steps are local

  function Narrow<P>(w: World<P>, id: nat): World<P> { World(w.db, [], map[id := At(w, id)]) }

  lemma StepLocal<P>(pr: Projector<P>, w: World<P>, env: Env, chain: Chain, a: Action)
    ensures var v, w' := Step(pr, Narrow(w, a.id), env, chain, a), Step(pr, w, env, chain, a);
            w'.db == v.db && At(w', a.id) == At(v, a.id)
    ensures forall other: nat | other != a.id :: At(Step(pr, w, env, chain, a), other) == At(w, other)
  {
  }

  /** A sound worker's step keeps the database in step and the worker sound. */
  lemma SoundStep<P>(pr: Projector<P>, w: World<P>, env: Env, chain: Chain, n: nat, a: Action) returns (m: nat)
    requires Valid(env) && ValidChain(chain, env.startBlock) && Synced(w.db, chain, n, env.startBlock)
    requires Sound(At(w, a.id), chain, n, env.startBlock)
    ensures n <= m <= |chain.logs| && Synced(Step(pr, w, env, chain, a).db, chain, m, env.startBlock)
    ensures Sound(At(Step(pr, w, env, chain, a), a.id), chain, m, env.startBlock)
  {
    var v := Narrow(w, a.id);
    StepLocal(pr, w, env, chain, a);
    assert chain.logs[n..n] == [];
    IsCaught(pr, w.db, w.db, [], chain, n, n, env.startBlock);
    Together(pr, v, w.db, chain, n, env.startBlock);
    StepHealthy(pr, v, w.db, env, chain, n, a);
    m := HealthyReach(pr, Step(pr, v, env, chain, a), w.db, chain, n, env.startBlock);
    SoundAt(pr, Step(pr, v, env, chain, a), w.db, chain, n, m, env.startBlock, a.id);
  }

  lemma SoundAt<P>(pr: Projector<P>, w: World<P>, base: Db<P>, chain: Chain, n: nat, m: nat, start: int, id: nat)
    requires Healthy(pr, w, base, chain, n, start) && m == n + |w.applied|
    ensures Sound(At(w, id), chain, m, start)
  {
  }

  // ---------------------------------------------------------------- Without another finder

  /** In step, and every worker is sound or still waits behind the replaced checkpoint without finding it. */
  ghost predicate Quiet<P>(w: World<P>, c0: Option<Checkpoint>, chain: Chain, n: nat, start: int) {
    Synced(w.db, chain, n, start) &&
    forall id | id in w.workers ::
      Sound(w.workers[id], chain, n, start) || (Waiting(w.workers[id], c0) && !WillFind(w.workers[id], c0))
  }

  lemma SoundOnward(worker: Worker, chain: Chain, n: nat, m: nat, start: int)
    requires n <= m && Sound(worker, chain, n, start)
    ensures Sound(worker, chain, m, start)
  {
  }

  /** A waiting worker that does not find the mismatch never writes more than an error. */
  lemma WaitingStep<P>(pr: Projector<P>, w: World<P>, c0: Option<Checkpoint>, env: Env, chain: Chain, n: nat, a: Action)
    requires Valid(env) && ValidChain(chain, env.startBlock) && Synced(w.db, chain, n, env.startBlock)
    requires Waiting(At(w, a.id), c0) && !WillFind(At(w, a.id), c0) && !At(w, a.id).Idle?
    ensures var w' := Step(pr, w, env, chain, a);
            Synced(w'.db, chain, n, env.startBlock) && Waiting(At(w', a.id), c0) && !WillFind(At(w', a.id), c0)
  {
    if a.Fail? {
      FailureKeepsSynced(w.db, env, chain, n, a.message);
    }
  }

  lemma QuietStep<P>(pr: Projector<P>, w: World<P>, c0: Option<Checkpoint>, env: Env, chain: Chain, n: nat, a: Action)
      returns (m: nat)
    requires Valid(env) && ValidChain(chain, env.startBlock) && Quiet(w, c0, chain, n, env.startBlock)
    ensures n <= m && Quiet(Step(pr, w, env, chain, a), c0, chain, m, env.startBlock)
  {
    StepLocal(pr, w, env, chain, a);
    if Sound(At(w, a.id), chain, n, env.startBlock) {
      m := SoundStep(pr, w, env, chain, n, a);
    } else {
      WaitingStep(pr, w, c0, env, chain, n, a);
      m := n;
    }
    var w' := Step(pr, w, env, chain, a);
    forall id | id in w'.workers
      ensures Sound(w'.workers[id], chain, m, env.startBlock) ||
              (Waiting(w'.workers[id], c0) && !WillFind(w'.workers[id], c0))
    {
      assert w'.workers[id] == At(w', id);
      if id != a.id && Sound(At(w, id), chain, n, env.startBlock) {
        SoundOnward(At(w, id), chain, n, m, env.startBlock);
      }
    }
  }

  lemma {:induction false} QuietRun<P>(pr: Projector<P>, w: World<P>, c0: Option<Checkpoint>, env: Env, chain: Chain,
                                       n: nat, actions: seq<Action>) returns (m: nat)
    requires Valid(env) && ValidChain(chain, env.startBlock) && Quiet(w, c0, chain, n, env.startBlock)
    ensures Quiet(Run(pr, w, env, chain, actions), c0, chain, m, env.startBlock)
  {
    if actions == [] {
      m := n;
    } else {
      var k := QuietRun(pr, w, c0, env, chain, n, actions[..|actions| - 1]);
      m := QuietStep(pr, Run(pr, w, env, chain, actions[..|actions| - 1]), c0, env, chain, k, actions[|actions| - 1]);
    }
  }

  // ---------------------------------------------------------------- Without a log to lose

  /** A rewind to the same point, from a database in step with at least the common logs. */
  lemma RewindAgain<P>(pr: Projector<P>, db: Db<P>, env: Env, chain: Chain, n: nat, lastBlock: int,
                       retained: seq<StoredLog>)
    requires Valid(env) && ValidChain(chain, env.startBlock) && Synced(db, chain, n, env.startBlock)
    requires CountCovered(chain.logs, EndOf(RewindFrom(env, lastBlock) - 1)) <= n
    requires Queried(retained, db.rows, env.startBlock, RewindFrom(env, lastBlock))
    ensures Synced(Rewind(pr, db, retained, env.startBlock, RewindFrom(env, lastBlock)), chain,
                   CountCovered(chain.logs, EndOf(RewindFrom(env, lastBlock) - 1)), env.startBlock)
  {
    var m := CountCovered(chain.logs, EndOf(RewindFrom(env, lastBlock) - 1));
    RetainedOfOld(db, env, chain, n, lastBlock, retained);
    RecoveredCount(chain, retained, env, RewindFrom(env, lastBlock), m);
    RewindSufficient(pr, db, env, chain, n, lastBlock, retained, chain);
  }

  /** The chain ends with the common logs; workers are sound or wait. */
  ghost predicate Ended<P>(w: World<P>, c0: Option<Checkpoint>, env: Env, chain: Chain) {
    c0.Some? && CountCovered(chain.logs, EndOf(RewindFrom(env, c0.value.block) - 1)) == |chain.logs| &&
    Synced(w.db, chain, |chain.logs|, env.startBlock) &&
    forall id | id in w.workers :: SoundOrWaits(w.workers[id], c0, chain, |chain.logs|, env.startBlock)
  }

  /** A worker that will find the mismatch rewinds at its check, or does nothing to the database. */
  lemma FinderSteps<P>(pr: Projector<P>, w: World<P>, c0: Option<Checkpoint>, env: Env, chain: Chain, a: Action)
    requires WillFind(At(w, a.id), c0) && c0.value.hash.Some? && c0.value.hash.value != chain.hashAt(c0.value.block)
    ensures var w' := Step(pr, w, env, chain, a);
            if Finds(w, env, chain, a) then
              w'.db == Rewind(pr, w.db, a.retained, env.startBlock, RewindFrom(env, c0.value.block)) &&
              At(w', a.id) == Checked(w'.db.checkpoint, At(w, a.id).safeHead)
            else w'.db == w.db && (At(w', a.id) == At(w, a.id) || At(w', a.id).Idle?)
  {
  }

  lemma FinderStep<P>(pr: Projector<P>, w: World<P>, c0: Option<Checkpoint>, env: Env, chain: Chain, a: Action)
    requires Valid(env) && ValidChain(chain, env.startBlock) && Ended(w, c0, env, chain)
    requires WillFind(At(w, a.id), c0) && c0.value.hash.Some? && c0.value.hash.value != chain.hashAt(c0.value.block)
    ensures var w', n := Step(pr, w, env, chain, a), |chain.logs|;
            Synced(w'.db, chain, n, env.startBlock) &&
            (Sound(At(w', a.id), chain, n, env.startBlock) || Waiting(At(w', a.id), c0))
  {
    FinderSteps(pr, w, c0, env, chain, a);
    if Finds(w, env, chain, a) {
      RewindAgain(pr, w.db, env, chain, |chain.logs|, c0.value.block, a.retained);
    }
  }

  ghost predicate SoundOrWaits(worker: Worker, c0: Option<Checkpoint>, chain: Chain, n: nat, start: int) {
    Sound(worker, chain, n, start) || Waiting(worker, c0)
  }

  lemma OwnStep<P>(pr: Projector<P>, w: World<P>, c0: Option<Checkpoint>, env: Env, chain: Chain, a: Action)
    requires Valid(env) && ValidChain(chain, env.startBlock) && Ended(w, c0, env, chain)
    requires c0.value.hash.Some? && c0.value.hash.value != chain.hashAt(c0.value.block)
    ensures var w', n := Step(pr, w, env, chain, a), |chain.logs|;
            Synced(w'.db, chain, n, env.startBlock) && SoundOrWaits(At(w', a.id), c0, chain, n, env.startBlock)
  {
    if WillFind(At(w, a.id), c0) {
      FinderStep(pr, w, c0, env, chain, a);
    } else if Sound(At(w, a.id), chain, |chain.logs|, env.startBlock) {
      EndSoundStep(pr, w, env, chain, a);
    } else {
      WaitingStep(pr, w, c0, env, chain, |chain.logs|, a);
    }
  }

  lemma EndSoundStep<P>(pr: Projector<P>, w: World<P>, env: Env, chain: Chain, a: Action)
    requires Valid(env) && ValidChain(chain, env.startBlock) && Synced(w.db, chain, |chain.logs|, env.startBlock)
    requires Sound(At(w, a.id), chain, |chain.logs|, env.startBlock)
    ensures Synced(Step(pr, w, env, chain, a).db, chain, |chain.logs|, env.startBlock)
    ensures Sound(At(Step(pr, w, env, chain, a), a.id), chain, |chain.logs|, env.startBlock)
  {
    var m := SoundStep(pr, w, env, chain, |chain.logs|, a);
    assert m == |chain.logs|;
  }

  lemma EndedStep<P>(pr: Projector<P>, w: World<P>, c0: Option<Checkpoint>, env: Env, chain: Chain, a: Action)
    requires Valid(env) && ValidChain(chain, env.startBlock) && Ended(w, c0, env, chain)
    requires c0.value.hash.Some? && c0.value.hash.value != chain.hashAt(c0.value.block)
    ensures Ended(Step(pr, w, env, chain, a), c0, env, chain)
  {
    OwnStep(pr, w, c0, env, chain, a);
    OthersWait(w, Step(pr, w, env, chain, a), c0, chain, |chain.logs|, env.startBlock, a.id) by {
      StepLocal(pr, w, env, chain, a);
    }
  }

  lemma OthersWait<P>(w: World<P>, later: World<P>, c0: Option<Checkpoint>, chain: Chain, n: nat, start: int, id: nat)
    requires forall other | other in w.workers :: SoundOrWaits(w.workers[other], c0, chain, n, start)
    requires SoundOrWaits(At(later, id), c0, chain, n, start)
    requires forall other: nat | other != id :: At(later, other) == At(w, other)
    ensures forall other | other in later.workers :: SoundOrWaits(later.workers[other], c0, chain, n, start)
  {
    forall other | other in later.workers ensures SoundOrWaits(later.workers[other], c0, chain, n, start) {
      assert later.workers[other] == At(later, other);
    }
  }

  lemma {:induction false} EndedRun<P>(pr: Projector<P>, w: World<P>, c0: Option<Checkpoint>, env: Env, chain: Chain,
                                       actions: seq<Action>)
    requires Valid(env) && ValidChain(chain, env.startBlock) && Ended(w, c0, env, chain)
    requires c0.value.hash.Some? && c0.value.hash.value != chain.hashAt(c0.value.block)
    ensures Ended(Run(pr, w, env, chain, actions), c0, env, chain)
  {
    if actions != [] {
      var k := |actions| - 1;
      EndedRun(pr, w, c0, env, chain, actions[..k]);
      EndedStep(pr, Run(pr, w, env, chain, actions[..k]), c0, env, chain, actions[k]);
    }
  }

  // ---------------------------------------------------------------- With both

  lemma {:induction false} OthersKept<P>(pr: Projector<P>, w: World<P>, env: Env, chain: Chain, actions: seq<Action>,
                                         id: nat, other: nat)
    requires (forall i | 0 <= i < |actions| :: actions[i].id == id) && other != id
    ensures At(Run(pr, w, env, chain, actions), other) == At(w, other)
  {
    if actions != [] {
      var init := actions[..|actions| - 1];
      assert forall i | 0 <= i < |init| :: init[i] == actions[i];
      OthersKept(pr, w, env, chain, init, id, other);
      OthersUnmoved(pr, Run(pr, w, env, chain, init), env, chain, actions[|actions| - 1], other);
    }
  }

  lemma {:induction false} TableBlocks(logs: seq<Log>, low: int)
    requires forall i | 0 <= i < |logs| :: logs[i].origin.block >= low
    ensures forall k | k in TableOf(logs) :: TableOf(logs)[k].block >= low && TableOf(logs)[k].source == ChainEvent
  {
    if logs != [] {
      TableBlocks(logs[..|logs| - 1], low);
    }
  }

  /** Dropping the rows of all logs behind the rewind point leaves what the rewind had kept. */
  lemma KeptSame(rows: map<LogKey, LogRow>, chain: Chain, start: int, rewindFrom: int, m: nat)
    requires ValidChain(chain, start) && m == CountCovered(chain.logs, EndOf(rewindFrom - 1)) <= |chain.logs|
    requires Mined(Kept(rows, rewindFrom)) == TableOf(chain.logs[..m])
    ensures Kept(Kept(rows, rewindFrom) + TableOf(chain.logs[m..]), rewindFrom) == Kept(rows, rewindFrom)
  {
    CoveredPrefix(chain.logs, EndOf(rewindFrom - 1));
    TableBlocks(chain.logs[m..], rewindFrom);
    forall k | k in TableOf(chain.logs[m..]) ensures k !in Kept(rows, rewindFrom) {
      RestNotKept(Kept(rows, rewindFrom), chain, start, m, k);
    }
  }

  lemma RestNotKept(kept: map<LogKey, LogRow>, chain: Chain, start: int, m: nat, k: LogKey)
    requires ValidChain(chain, start) && m <= |chain.logs| && Mined(kept) == TableOf(chain.logs[..m])
    requires k in TableOf(chain.logs[m..])
    ensures k !in kept
  {
    RestKeys(chain.logs, m, k);
    var i: nat :| m <= i < |chain.logs| && KeyOf(chain.logs[i].origin) == k;
    InTable(chain, m, start, i);
    assert k in kept <==> k in Mined(kept);
  }

  /** The script of the loss: worker `x` brings the database to the chain's end and reads its checkpoint; then
      `f` finds the old mismatch and rewinds; then `x` finds its range empty and moves the checkpoint on. */
  function Ending(x: nat, f: nat, h: int, retained: seq<StoredLog>, answer: seq<RawLog>): seq<Action> {
    [Start(x, h)] + [Check(f, retained)] + [Check(x, [])] + [Fetch(x, answer)] + [Finish(x)]
  }

  /** The state before the ending. */
  ghost predicate AtEnd<P>(w: World<P>, c0: Option<Checkpoint>, env: Env, chain: Chain, x: nat, f: nat,
                           retained: seq<StoredLog>) {
    && x != f && OnTheWay(w, env, chain, x) && WillFind(At(w, f), c0)
    && FirstToFetch(env, chain, w.db.checkpoint) == |chain.logs|
    && Queried(retained, w.db.rows, env.startBlock, RewindFrom(env, c0.value.block))
    && c0.value.hash.Some? && c0.value.hash.value != chain.hashAt(c0.value.block)
  }

  lemma NothingLeft(env: Env, chain: Chain, c: Option<Checkpoint>, answer: seq<RawLog>)
    requires Valid(env) && ValidChain(chain, env.startBlock) && FirstToFetch(env, chain, c) == |chain.logs|
    requires Answers(answer, chain.logs, From(env, c), To(env, From(env, c), From(env, c)))
    ensures AfterFetch(env, c, From(env, c), answer) == Drained(From(env, c))
    ensures CountCovered(chain.logs, EndOf(From(env, c))) == |chain.logs|
  {
    FetchedSlice(env, chain, c, From(env, c), answer);
    assert chain.logs[|chain.logs|..|chain.logs|] == [];
  }

  /** Up to the second rewind. */
  lemma EndingRewinds<P>(pr: Projector<P>, w: World<P>, c0: Option<Checkpoint>, env: Env, chain: Chain, x: nat, f: nat,
                         retained: seq<StoredLog>)
    requires AtEnd(w, c0, env, chain, x, f, retained)
    ensures var h, rf := From(env, w.db.checkpoint), RewindFrom(env, c0.value.block);
            var w' := Run(pr, w, env, chain, [Start(x, h)] + [Check(f, retained)]);
            w'.db == Rewind(pr, w.db, retained, env.startBlock, rf) && At(w', x) == Started(w.db.checkpoint, h)
  {
    var h := From(env, w.db.checkpoint);
    var one := Step(pr, w, env, chain, Start(x, h));
    RunOne(pr, w, env, chain, Start(x, h));
    RunAppend(pr, w, env, chain, [Start(x, h)], Check(f, retained));
    OthersUnmoved(pr, w, env, chain, Start(x, h), f);
    FinderSteps(pr, one, c0, env, chain, Check(f, retained));
    OthersUnmoved(pr, one, env, chain, Check(f, retained), x);
  }

  /** Behind it. */
  lemma EndingMoves<P>(pr: Projector<P>, w: World<P>, env: Env, chain: Chain, x: nat, c: Option<Checkpoint>,
                       actions: seq<Action>, answer: seq<RawLog>)
    requires Valid(env) && ValidChain(chain, env.startBlock) && HashOk(c, chain)
    requires FirstToFetch(env, chain, c) == |chain.logs|
    requires Answers(answer, chain.logs, From(env, c), To(env, From(env, c), From(env, c)))
    requires At(Run(pr, w, env, chain, actions), x) == Started(c, From(env, c))
    ensures var before := Run(pr, w, env, chain, actions);
            Run(pr, w, env, chain, actions + [Check(x, [])] + [Fetch(x, answer)] + [Finish(x)]).db ==
            CommitEmpty(before.db, From(env, c), chain.hashAt(From(env, c)))
  {
    RunAppend(pr, w, env, chain, actions, Check(x, []));
    RunAppend(pr, w, env, chain, actions + [Check(x, [])], Fetch(x, answer));
    RunAppend(pr, w, env, chain, actions + [Check(x, [])] + [Fetch(x, answer)], Finish(x));
    GenuineUnmatched(c, chain, From(env, c));
    NothingLeft(env, chain, c, answer);
  }

  lemma EndingDb<P>(pr: Projector<P>, w: World<P>, c0: Option<Checkpoint>, env: Env, chain: Chain, x: nat, f: nat,
                    retained: seq<StoredLog>, answer: seq<RawLog>)
    requires Valid(env) && ValidChain(chain, env.startBlock) && AtEnd(w, c0, env, chain, x, f, retained)
    requires var c := w.db.checkpoint; Answers(answer, chain.logs, From(env, c), To(env, From(env, c), From(env, c)))
    ensures var h, rf := From(env, w.db.checkpoint), RewindFrom(env, c0.value.block);
            var after := Run(pr, w, env, chain, Ending(x, f, h, retained, answer)).db;
            after.rows == Kept(w.db.rows, rf) && after.checkpoint.Some? &&
            CountCovered(chain.logs, PositionOf(after.checkpoint.value)) == |chain.logs|
  {
    var h := From(env, w.db.checkpoint);
    EndingRewinds(pr, w, c0, env, chain, x, f, retained);
    EndingMoves(pr, w, env, chain, x, w.db.checkpoint, [Start(x, h)] + [Check(f, retained)], answer);
    NothingLeft(env, chain, w.db.checkpoint, answer);
  }

  lemma EndRows<P>(db: Db<P>, env: Env, was: Chain, n: nat, retained: seq<StoredLog>, chain: Chain, m: nat,
                   rows: map<LogKey, LogRow>)
    requires Reorged(db, env, was, n, retained, chain) && m == Common(db, env, chain) <= |chain.logs|
    requires retained == StoredLogs(chain.logs[..m])
    requires rows == Kept(db.rows, RewindFrom(env, db.checkpoint.value.block)) + TableOf(chain.logs[m..])
    ensures var rf := RewindFrom(env, db.checkpoint.value.block);
            Kept(rows, rf) == Kept(db.rows, rf) && Mined(Kept(rows, rf)) == TableOf(chain.logs[..m]) &&
            Queried(retained, rows, env.startBlock, rf)
  {
    KeptTableOf(db, env, was, n, retained, chain, m);
    KeptSame(db.rows, chain, env.startBlock, RewindFrom(env, db.checkpoint.value.block), m);
  }

  /** One worker brings the database to the chain's end while the finder waits. */
  lemma ToTheEnd<P>(pr: Projector<P>, w: World<P>, db: Db<P>, env: Env, was: Chain, n: nat, retained: seq<StoredLog>,
                    chain: Chain, x: nat, f: nat) returns (actions: seq<Action>)
    requires Reorged(db, env, was, n, retained, chain) && Replaced(db, chain) && w.db == Rewound(pr, db, env, retained)
    requires x != f && WillFind(At(w, f), db.checkpoint)
    ensures var ended, m := Run(pr, w, env, chain, actions), Common(db, env, chain);
            AtEnd(ended, db.checkpoint, env, chain, x, f, retained) && m <= |chain.logs| &&
            Mined(Kept(ended.db.rows, RewindFrom(env, db.checkpoint.value.block))) == TableOf(chain.logs[..m])
  {
    var m := RewindRecovers(pr, db, env, was, n, retained, chain);
    var idle := Step(pr, w, env, chain, Crash(x));
    RewoundOnTheWay(pr, db, env, db.checkpoint.value.block, retained, chain);
    LastIsHead(chain, env.startBlock);
    var calls := RunToEnd(pr, idle, env, chain, LastBlockOf(chain.logs, env.startBlock), x);
    OthersUnmoved(pr, w, env, chain, Crash(x), f);
    OthersKept(pr, idle, env, chain, calls, x, f);
    EndRows(db, env, was, n, retained, chain, m, Run(pr, idle, env, chain, calls).db.rows);
    actions := [Crash(x)] + calls;
    RunOne(pr, w, env, chain, Crash(x));
    RunConcat(pr, w, env, chain, [Crash(x)], calls);
  }

  /** With a second finder and a log behind the common ones there is a run that loses it. */
  lemma LosingRun<P>(pr: Projector<P>, w: World<P>, db: Db<P>, env: Env, was: Chain, n: nat, retained: seq<StoredLog>,
                     chain: Chain, x: nat, f: nat) returns (actions: seq<Action>)
    requires Reorged(db, env, was, n, retained, chain) && Replaced(db, chain) && w.db == Rewound(pr, db, env, retained)
    requires x != f && WillFind(At(w, f), db.checkpoint) && Common(db, env, chain) < |chain.logs|
    ensures !InStep(Run(pr, w, env, chain, actions).db, chain, env.startBlock)
  {
    var first := ToTheEnd(pr, w, db, env, was, n, retained, chain, x, f);
    var last := EndingLoses(pr, Run(pr, w, env, chain, first), db.checkpoint, env, chain, x, f, retained,
                            Common(db, env, chain));
    actions := first + last;
    RunConcat(pr, w, env, chain, first, last);
  }

  lemma EndingLoses<P>(pr: Projector<P>, w: World<P>, c0: Option<Checkpoint>, env: Env, chain: Chain, x: nat, f: nat,
                       retained: seq<StoredLog>, m: nat) returns (actions: seq<Action>)
    requires Valid(env) && ValidChain(chain, env.startBlock) && AtEnd(w, c0, env, chain, x, f, retained)
    requires m < |chain.logs| && Mined(Kept(w.db.rows, RewindFrom(env, c0.value.block))) == TableOf(chain.logs[..m])
    ensures !InStep(Run(pr, w, env, chain, actions).db, chain, env.startBlock)
  {
    var answer := HonestAnswer(env, chain, w.db.checkpoint, From(env, w.db.checkpoint));
    actions := Ending(x, f, From(env, w.db.checkpoint), retained, answer);
    EndingDb(pr, w, c0, env, chain, x, f, retained, answer);
    LostBehind(Run(pr, w, env, chain, actions).db, chain, env.startBlock, m);
  }

  lemma KeptTableOf<P>(db: Db<P>, env: Env, was: Chain, n: nat, retained: seq<StoredLog>, chain: Chain, m: nat)
    requires Reorged(db, env, was, n, retained, chain) && m <= |chain.logs| && retained == StoredLogs(chain.logs[..m])
    ensures Mined(Kept(db.rows, RewindFrom(env, db.checkpoint.value.block))) == TableOf(chain.logs[..m])
  {
    RetainedOfOld(db, env, was, n, db.checkpoint.value.block, retained);
    TableByStored(was.logs[..Below(was, n, RewindFrom(env, db.checkpoint.value.block))], chain.logs[..m]);
  }

  lemma LostBehind<P>(db: Db<P>, chain: Chain, start: int, m: nat)
    requires ValidChain(chain, start) && m < |chain.logs| && Mined(db.rows) == TableOf(chain.logs[..m])
    requires db.checkpoint.Some? && CountCovered(chain.logs, PositionOf(db.checkpoint.value)) == |chain.logs|
    ensures !InStep(db, chain, start)
  {
    forall k: nat ensures !Synced(db, chain, k, start) {
      NotAtEnd(db, chain, start, m, k);
    }
  }

  lemma NotAtEnd<P>(db: Db<P>, chain: Chain, start: int, m: nat, k: nat)
    requires ValidChain(chain, start) && m < |chain.logs| && Mined(db.rows) == TableOf(chain.logs[..m])
    requires db.checkpoint.Some? && CountCovered(chain.logs, PositionOf(db.checkpoint.value)) == |chain.logs|
    ensures !Synced(db, chain, k, start)
  {
    if k == |chain.logs| {
      InTable(chain, m, start, m);
      InTable(chain, k, start, m);
      assert TableOf(chain.logs[..m]) != TableOf(chain.logs[..k]);
    }
  }

  /** Every continuation leaves the database in step with the chain. */
  ghost predicate AlwaysInStep<P>(pr: Projector<P>, w: World<P>, env: Env, chain: Chain) {
    forall actions: seq<Action> :: InStep(Run(pr, w, env, chain, actions).db, chain, env.startBlock)
  }

  ghost predicate SomeoneElseFinds<P>(w: World<P>, id: nat, c0: Option<Checkpoint>) {
    exists f: nat :: f != id && WillFind(At(w, f), c0)
  }

  /** The workers right behind the first rewind. */
  lemma FirstRewindWaits<P>(pr: Projector<P>, w: World<P>, db: Db<P>, env: Env, was: Chain, n: nat,
                            retained: seq<StoredLog>, chain: Chain, a: Action)
    requires Reorged(db, env, was, n, retained, chain) && Untouched(w, db) && Finds(w, env, chain, a)
    ensures var w', m := Step(pr, w, env, chain, a), Common(db, env, chain);
            w'.db == Rewound(pr, db, env, retained) && m <= |chain.logs| && Synced(w'.db, chain, m, env.startBlock) &&
            Sound(At(w', a.id), chain, m, env.startBlock) &&
            forall id | id in w'.workers && id != a.id :: Waiting(w'.workers[id], db.checkpoint)
  {
    var m := RewindRecovers(pr, db, env, was, n, retained, chain);
    FoundRewind(pr, w, db, env, was, n, retained, chain, a);
  }

  /** The exact law of the first rewind in a run: every continuation stays in step with the new chain exactly
      when no other call has read the replaced checkpoint and will find the mismatch too, or the new chain has no
      log behind the common ones. */
  lemma RewindSafeIff<P>(pr: Projector<P>, w: World<P>, db: Db<P>, env: Env, was: Chain, n: nat,
                         retained: seq<StoredLog>, chain: Chain, a: Action)
    requires Reorged(db, env, was, n, retained, chain) && Replaced(db, chain)
    requires Untouched(w, db) && Finds(w, env, chain, a)
    ensures var after := Step(pr, w, env, chain, a);
            AlwaysInStep(pr, after, env, chain) <==>
            !SomeoneElseFinds(after, a.id, db.checkpoint) || Common(db, env, chain) == |chain.logs|
  {
    var after, m, c0 := Step(pr, w, env, chain, a), Common(db, env, chain), db.checkpoint;
    FirstRewindWaits(pr, w, db, env, was, n, retained, chain, a);
    if m == |chain.logs| {
      forall actions: seq<Action> ensures InStep(Run(pr, after, env, chain, actions).db, chain, env.startBlock) {
        EndedInStep(pr, after, c0, env, chain, a.id, actions);
      }
    } else if !SomeoneElseFinds(after, a.id, c0) {
      forall actions: seq<Action> ensures InStep(Run(pr, after, env, chain, actions).db, chain, env.startBlock) {
        QuietInStep(pr, after, c0, env, chain, m, a.id, actions);
      }
    } else {
      var f: nat :| f != a.id && WillFind(At(after, f), c0);
      var actions := LosingRun(pr, after, db, env, was, n, retained, chain, a.id, f);
    }
  }

  lemma EndedInStep<P>(pr: Projector<P>, w: World<P>, c0: Option<Checkpoint>, env: Env, chain: Chain, id: nat,
                       actions: seq<Action>)
    requires Valid(env) && ValidChain(chain, env.startBlock) && Synced(w.db, chain, |chain.logs|, env.startBlock)
    requires c0.Some? && c0.value.hash.Some? && c0.value.hash.value != chain.hashAt(c0.value.block)
    requires CountCovered(chain.logs, EndOf(RewindFrom(env, c0.value.block) - 1)) == |chain.logs|
    requires Sound(At(w, id), chain, |chain.logs|, env.startBlock)
    requires forall other | other in w.workers && other != id :: Waiting(w.workers[other], c0)
    ensures InStep(Run(pr, w, env, chain, actions).db, chain, env.startBlock)
  {
    assert Ended(w, c0, env, chain);
    EndedRun(pr, w, c0, env, chain, actions);
  }

  lemma QuietInStep<P>(pr: Projector<P>, w: World<P>, c0: Option<Checkpoint>, env: Env, chain: Chain, m: nat, id: nat,
                       actions: seq<Action>)
    requires Valid(env) && ValidChain(chain, env.startBlock) && Synced(w.db, chain, m, env.startBlock)
    requires Sound(At(w, id), chain, m, env.startBlock) && !SomeoneElseFinds(w, id, c0)
    requires forall other | other in w.workers && other != id :: Waiting(w.workers[other], c0)
    ensures InStep(Run(pr, w, env, chain, actions).db, chain, env.startBlock)
  {
    forall other | other in w.workers && other != id ensures !WillFind(w.workers[other], c0) {
      assert At(w, other) == w.workers[other];
    }
    var k := QuietRun(pr, w, c0, env, chain, m, actions);
  }
}

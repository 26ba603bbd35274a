/** A reorganisation deeper than the rewind is not noticed again, and does not heal (event-sync-service.ts). */
module DeepReorg {
  import opened Basics
  import opened Governance
  import opened ProjectionTables
  import opened SyncLog
  import opened SyncState
  import opened SyncWorkers
  import opened Reorg

  /** A stored hash is the chain's. */
  ghost predicate HashOk(c: Option<Checkpoint>, chain: Chain) {
    c.Some? && c.value.hash.Some? ==> c.value.hash.value == chain.hashAt(c.value.block)
  }

  /** What the worker has read, or will commit, is the chain's. */
  ghost predicate Genuine(worker: Worker, chain: Chain) {
    match worker
    case Started(c, _) => HashOk(c, chain)
    case Checked(c, _) => HashOk(c, chain)
    case Batch(pending, _) => forall i | 0 <= i < |pending| :: pending[i] in chain.logs
    case _ => true
  }

  ghost predicate AllGenuine<P>(w: World<P>, chain: Chain) {
    HashOk(w.db.checkpoint, chain) && forall id | id in w.workers :: Genuine(w.workers[id], chain)
  }

  /** A row of a mined log that the chain does not have. */
  ghost predicate IsStale(k: LogKey, chain: Chain) {
    k.logIndex >= 0 && forall i | 0 <= i < |chain.logs| :: KeyOf(chain.logs[i].origin) != k
  }

  ghost predicate Keeps<P>(db: Db<P>, later: Db<P>, chain: Chain) {
    forall k | k in db.rows && IsStale(k, chain) :: k in later.rows
  }

  lemma GenuineUnmatched(c: Option<Checkpoint>, chain: Chain, safeHead: int)
    requires HashOk(c, chain)
    ensures !Mismatch(c, chain.hashAt, safeHead)
  {
  }

  lemma FetchGenuine(env: Env, chain: Chain, c: Option<Checkpoint>, safeHead: int, answer: seq<RawLog>)
    requires Valid(env) && ValidChain(chain, env.startBlock)
    requires From(env, c) <= safeHead ==>
               Answers(answer, chain.logs, From(env, c), To(env, From(env, c), safeHead))
    ensures Genuine(AfterFetch(env, c, safeHead, answer), chain)
  {
    if From(env, c) <= safeHead {
      FetchedSlice(env, chain, c, safeHead, answer);
    }
  }

  lemma CommitGenuine<P>(pr: Projector<P>, w: World<P>, env: Env, chain: Chain, id: nat)
    requires ValidChain(chain, env.startBlock) && AllGenuine(w, chain)
    ensures AllGenuine(Step(pr, w, env, chain, Commit(id)), chain)
    ensures Keeps(w.db, Step(pr, w, env, chain, Commit(id)).db, chain)
  {
    var worker := At(w, id);
    if worker.Batch? && worker.pending != [] {
      assert Genuine(worker, chain);
      assert worker.pending[0] in chain.logs;
      assert forall i | 0 <= i < |worker.pending| - 1 :: worker.pending[1..][i] == worker.pending[i + 1];
    }
  }

  lemma GenuineCheck<P>(pr: Projector<P>, w: World<P>, env: Env, chain: Chain, a: Action)
    requires a.Check? && AllGenuine(w, chain)
    ensures var worker, after := At(w, a.id), Step(pr, w, env, chain, a);
            after == w || (worker.Started? && after == Goto(w, a.id, Checked(worker.read, worker.safeHead)))
  {
    var worker := At(w, a.id);
    if worker.Started? {
      assert Genuine(worker, chain);
      GenuineUnmatched(worker.read, chain, worker.safeHead);
    }
  }

  lemma FetchStepGenuine<P>(pr: Projector<P>, w: World<P>, env: Env, chain: Chain, a: Action)
    requires a.Fetch? && Valid(env) && ValidChain(chain, env.startBlock) && AllGenuine(w, chain)
    ensures AllGenuine(Step(pr, w, env, chain, a), chain) && Step(pr, w, env, chain, a).db == w.db
  {
    var worker := At(w, a.id);
    if worker.Checked? && (From(env, worker.checkpoint) <= worker.safeHead ==>
         Answers(a.answer, chain.logs, From(env, worker.checkpoint),
                 To(env, From(env, worker.checkpoint), worker.safeHead)))
    {
      FetchGenuine(env, chain, worker.checkpoint, worker.safeHead, a.answer);
    }
  }

  lemma StepGenuine<P>(pr: Projector<P>, w: World<P>, env: Env, chain: Chain, a: Action)
    requires Valid(env) && ValidChain(chain, env.startBlock) && AllGenuine(w, chain)
    ensures AllGenuine(Step(pr, w, env, chain, a), chain)
    ensures Keeps(w.db, Step(pr, w, env, chain, a).db, chain)
  {
    if a.Commit? {
      CommitGenuine(pr, w, env, chain, a.id);
    } else if a.Fetch? {
      FetchStepGenuine(pr, w, env, chain, a);
    } else if a.Check? {
      GenuineCheck(pr, w, env, chain, a);
      assert At(w, a.id) == Idle || Genuine(w.workers[a.id], chain);
    } else {
      assert At(w, a.id) == Idle || Genuine(w.workers[a.id], chain);
    }
  }

  /** Once no stored hash differs from the chain's, no worker ever finds a mismatch, and no row of a log the
      chain does not have is ever deleted. */
  lemma {:induction false} NeverNoticed<P>(pr: Projector<P>, db: Db<P>, env: Env, chain: Chain, actions: seq<Action>)
    requires Valid(env) && ValidChain(chain, env.startBlock) && HashOk(db.checkpoint, chain)
    ensures var w := Run(pr, World(db, [], map[]), env, chain, actions);
            AllGenuine(w, chain) && Keeps(db, w.db, chain)
  {
    if actions != [] {
      var n := |actions| - 1;
      NeverNoticed(pr, db, env, chain, actions[..n]);
      StepGenuine(pr, Run(pr, World(db, [], map[]), env, chain, actions[..n]), env, chain, actions[n]);
    }
  }

  /** In particular after every rewind, whether or not it was deep enough. */
  lemma RewindNeverNoticed<P>(pr: Projector<P>, db: Db<P>, env: Env, lastBlock: int, retained: seq<StoredLog>,
                              chain: Chain, actions: seq<Action>, id: nat, safeHead: int)
    requires Valid(env) && ValidChain(chain, env.startBlock)
    ensures var start := Rewind(pr, db, retained, env.startBlock, RewindFrom(env, lastBlock));
            var w := Run(pr, World(start, [], map[]), env, chain, actions);
            !Mismatch(w.db.checkpoint, chain.hashAt, safeHead) &&
            (At(w, id).Started? ==> !Mismatch(At(w, id).read, chain.hashAt, safeHead))
  {
    var start := Rewind(pr, db, retained, env.startBlock, RewindFrom(env, lastBlock));
    NeverNoticed(pr, start, env, chain, actions);
    var w := Run(pr, World(start, [], map[]), env, chain, actions);
    GenuineUnmatched(w.db.checkpoint, chain, safeHead);
    if At(w, id).Started? {
      assert Genuine(At(w, id), chain);
      GenuineUnmatched(At(w, id).read, chain, safeHead);
    }
  }

  lemma NotTabled(chain: Chain, start: int, k: LogKey, n: nat)
    requires ValidChain(chain, start) && IsStale(k, chain) && n <= |chain.logs|
    ensures k !in TableOf(chain.logs[..n])
  {
    TableListsRows(chain, start, n, k);
  }

  lemma StaleNotSynced<P>(db: Db<P>, chain: Chain, start: int, k: LogKey, n: nat)
    requires ValidChain(chain, start) && k in db.rows && IsStale(k, chain)
    ensures !Synced(db, chain, n, start)
  {
    assert k in Mined(db.rows);
    if n <= |chain.logs| {
      NotTabled(chain, start, k, n);
    }
  }

  /** A row retained by the rewind whose log the new chain does not have stays for good: whatever the workers
      do, the database is never again in step with any number of the chain's logs, and no later check
      rewinds further. */
  lemma DeepReorgNeverHeals<P>(pr: Projector<P>, db: Db<P>, env: Env, lastBlock: int, retained: seq<StoredLog>,
                               chain: Chain, actions: seq<Action>, j: nat, n: nat)
    requires Valid(env) && ValidChain(chain, env.startBlock)
    requires Queried(retained, db.rows, env.startBlock, RewindFrom(env, lastBlock))
    requires j < |retained| && IsStale(retained[j].key, chain)
    ensures var start := Rewind(pr, db, retained, env.startBlock, RewindFrom(env, lastBlock));
            !Synced(Run(pr, World(start, [], map[]), env, chain, actions).db, chain, n, env.startBlock)
  {
    var start := Rewind(pr, db, retained, env.startBlock, RewindFrom(env, lastBlock));
    assert retained[j].key in start.rows;
    NeverNoticed(pr, start, env, chain, actions);
    StaleNotSynced(Run(pr, World(start, [], map[]), env, chain, actions).db, chain, env.startBlock, retained[j].key, n);
  }

  // ---------------------------------------------------------------- Nothing below a position is written

  /** Whatever a worker will commit lies behind the first `r` logs. */
  ghost predicate BehindFirst(worker: Worker, chain: Chain, r: nat) {
    match worker
    case Idle => true
    case Started(c, _) => c.Some? && r <= CountCovered(chain.logs, PositionOf(c.value))
    case Checked(c, _) => c.Some? && r <= CountCovered(chain.logs, PositionOf(c.value))
    case Drained(to) => r <= CountCovered(chain.logs, EndOf(to))
    case Batch(pending, _) => exists lo: nat :: r <= lo && SliceAt(chain.logs, pending, lo)
  }

  ghost predicate AllBehind<P>(w: World<P>, chain: Chain, r: nat) {
    w.db.checkpoint.Some? && r <= CountCovered(chain.logs, PositionOf(w.db.checkpoint.value)) &&
    forall id | id in w.workers :: BehindFirst(w.workers[id], chain, r)
  }

  /** The key is not that of a log behind the first `r`. */
  ghost predicate NotBehind(k: LogKey, chain: Chain, r: nat) {
    forall i: nat | r <= i < |chain.logs| :: KeyOf(chain.logs[i].origin) != k
  }

  /** Rows stay, and those of other keys are neither added nor changed. */
  ghost predicate Frozen<P>(db: Db<P>, later: Db<P>, chain: Chain, r: nat) {
    (forall k | k in db.rows :: k in later.rows) &&
    forall k | NotBehind(k, chain, r) && k in later.rows :: k in db.rows && db.rows[k] == later.rows[k]
  }

  lemma FetchBehind(env: Env, chain: Chain, c: Option<Checkpoint>, safeHead: int, answer: seq<RawLog>, r: nat)
    requires Valid(env) && ValidChain(chain, env.startBlock)
    requires c.Some? && r <= CountCovered(chain.logs, PositionOf(c.value))
    requires From(env, c) <= safeHead ==>
               Answers(answer, chain.logs, From(env, c), To(env, From(env, c), safeHead))
    ensures BehindFirst(AfterFetch(env, c, safeHead, answer), chain, r)
  {
    if From(env, c) <= safeHead {
      var lo, logs := FirstToFetch(env, chain, c), FetchSupportedLogs(answer, Position(c));
      FetchedSlice(env, chain, c, safeHead, answer);
      assert SliceAt(chain.logs, logs, lo);
    }
  }

  lemma CommitBehind<P>(pr: Projector<P>, w: World<P>, env: Env, chain: Chain, id: nat, r: nat)
    requires ValidChain(chain, env.startBlock) && AllBehind(w, chain, r)
    requires id in w.workers && w.workers[id].Batch? && w.workers[id].pending != []
    ensures AllBehind(AfterCommit(pr, w, id, w.workers[id].pending, w.workers[id].cursor), chain, r)
    ensures Frozen(w.db, AfterCommit(pr, w, id, w.workers[id].pending, w.workers[id].cursor).db, chain, r)
  {
    var pending := w.workers[id].pending;
    assert BehindFirst(w.workers[id], chain, r);
    var lo: nat :| r <= lo && SliceAt(chain.logs, pending, lo);
    assert pending[0] == chain.logs[lo];
    CoveredUpTo(chain.logs, lo);
    if |pending| > 1 {
      assert SliceAt(chain.logs, pending[1..], lo + 1);
    }
  }

  lemma StepBehind<P>(pr: Projector<P>, w: World<P>, env: Env, chain: Chain, a: Action, r: nat)
    requires Valid(env) && ValidChain(chain, env.startBlock) && AllGenuine(w, chain) && AllBehind(w, chain, r)
    ensures AllBehind(Step(pr, w, env, chain, a), chain, r) && Frozen(w.db, Step(pr, w, env, chain, a).db, chain, r)
  {
    var worker := At(w, a.id);
    assert worker == Idle || BehindFirst(w.workers[a.id], chain, r);
    match a
    case Commit(id) =>
      if worker.Batch? && worker.pending != [] {
        CommitBehind(pr, w, env, chain, id, r);
      }
    case Check(_, _) => GenuineCheck(pr, w, env, chain, a);
    case Fetch(_, answer) =>
      if worker.Checked? && (From(env, worker.checkpoint) <= worker.safeHead ==>
           Answers(answer, chain.logs, From(env, worker.checkpoint),
                   To(env, From(env, worker.checkpoint), worker.safeHead)))
      {
        FetchBehind(env, chain, worker.checkpoint, worker.safeHead, answer, r);
      }
    case _ =>
  }

  /** From a checkpoint that covers the first `r` logs, no worker ever falls behind it again, and no row of
      these logs is ever written. */
  lemma {:induction false} NeverBehind<P>(pr: Projector<P>, db: Db<P>, env: Env, chain: Chain, actions: seq<Action>,
                                          r: nat)
    requires Valid(env) && ValidChain(chain, env.startBlock) && HashOk(db.checkpoint, chain)
    requires db.checkpoint.Some? && r <= CountCovered(chain.logs, PositionOf(db.checkpoint.value))
    ensures var w := Run(pr, World(db, [], map[]), env, chain, actions);
            AllBehind(w, chain, r) && Frozen(db, w.db, chain, r)
  {
    if actions != [] {
      var n := |actions| - 1;
      NeverBehind(pr, db, env, chain, actions[..n], r);
      NeverNoticed(pr, db, env, chain, actions[..n]);
      StepBehind(pr, Run(pr, World(db, [], map[]), env, chain, actions[..n]), env, chain, actions[n], r);
    }
  }

  // ---------------------------------------------------------------- An input

  const SHALLOW := Env(1, 1, 1)

  /** The old chain has one log; the new one has none. */
  function OldChain(l: Log): Chain { Chain([l], (b: int) => 0) }

  function NewChain(): Chain { Chain([], (b: int) => 1) }

  /** In step with the old chain, with the checkpoint at block 3. */
  function Behind<P>(l: Log, projections: P): Db<P> {
    Db(Some(Checkpoint(3, Some(0), None, map[], None)), map[KeyOf(l.origin) := RowOf(l)], projections)
  }

  predicate IsEarly(l: Log) {
    1 <= l.origin.block <= 2 && l.origin.logIndex >= 0 && l.blockHash == 0 && Events.AbiTyped(l.args)
  }

  predicate InBlockOne(l: Log) { IsEarly(l) && l.origin.block == 1 }

  lemma BehindSynced<P>(l: Log, projections: P)
    requires IsEarly(l)
    ensures ValidChain(OldChain(l), 1) && Synced(Behind(l, projections), OldChain(l), 1, 1)
  {
    assert OldChain(l).logs[..1] == [l] && [l][..0] == [];
    assert Mined(Behind(l, projections).rows) == TableOf([l]);
    CoveredPrefix(OldChain(l).logs, Mark(3, None));
  }

  lemma BehindQueried<P>(l: Log, projections: P)
    requires InBlockOne(l)
    ensures RewindFrom(SHALLOW, 3) == 2 && Queried([Stored(l)], Behind(l, projections).rows, 1, 2)
  {
    assert Kept(Behind(l, projections).rows, 2) == Behind(l, projections).rows;
    assert Stored(l) in [Stored(l)];
  }

  /** One such input: the log's block lies below the rewind point 2. The mismatch is found, the rewind keeps
      the log, and the database is in step with no prefix of the new chain, at once and after every run. */
  lemma DeepReorgExample<P>(pr: Projector<P>, l: Log, projections: P, actions: seq<Action>, n: nat)
    requires InBlockOne(l)
    ensures Rewinds(Behind(l, projections), SHALLOW, OldChain(l), 1, 3, [Stored(l)])
    ensures Mismatch(Behind(l, projections).checkpoint, NewChain().hashAt, 3) && ValidChain(NewChain(), 1)
    ensures var start := Rewind(pr, Behind(l, projections), [Stored(l)], 1, 2);
            !Synced(Run(pr, World(start, [], map[]), SHALLOW, NewChain(), actions).db, NewChain(), n, 1)
  {
    BehindSynced(l, projections);
    BehindQueried(l, projections);
    DeepReorgNeverHeals(pr, Behind(l, projections), SHALLOW, 3, [Stored(l)], NewChain(), actions, 0, n);
  }
}

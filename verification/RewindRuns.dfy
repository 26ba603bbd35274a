/** Rewinds inside a run of the workers (event-sync-service.ts, `ensureCheckpointConsistency`). */
module RewindRuns {
  import opened Basics
  import opened Governance
  import opened ProjectionTables
  import opened SyncLog
  import opened SyncState
  import opened SyncWorkers
  import opened SoloWorker
  import opened CatchUp
  import opened Reorg

  /** The checkpoint, but for the recorded error. */
  predicate SamePlace(c: Option<Checkpoint>, c0: Option<Checkpoint>) {
    c.Some? && c0.Some? && c.value == c0.value.(lastError := c.value.lastError)
  }

  /** Nobody has found the mismatch yet, and nothing has changed. */
  ghost predicate Untouched<P>(w: World<P>, db: Db<P>) {
    && w.applied == [] && w.db == db.(checkpoint := w.db.checkpoint) && SamePlace(w.db.checkpoint, db.checkpoint)
    && forall id | id in w.workers :: Waiting(w.workers[id], db.checkpoint)
  }

  ghost predicate Waiting(worker: Worker, c0: Option<Checkpoint>) {
    match worker
    case Idle => true
    case Started(c, _) => SamePlace(c, c0)
    case Checked(c, safeHead) => SamePlace(c, c0) && c0.value.block > safeHead
    case Drained(_) => false
    case Batch(_, _) => false
  }

  /** The worker finds the mismatch and rewinds. */
  ghost predicate Finds<P>(w: World<P>, env: Env, chain: Chain, a: Action) {
    a.Check? && At(w, a.id).Started? && Mismatch(At(w, a.id).read, chain.hashAt, At(w, a.id).safeHead) &&
    Queried(a.retained, w.db.rows, env.startBlock, RewindFrom(env, At(w, a.id).read.value.block))
  }

  /** The stored hash is not the chain's. */
  predicate Replaced<P>(db: Db<P>, chain: Chain) {
    db.checkpoint.Some? && db.checkpoint.value.hash.Some? &&
    db.checkpoint.value.hash.value != chain.hashAt(db.checkpoint.value.block)
  }

  lemma StepBefore<P>(pr: Projector<P>, w: World<P>, db: Db<P>, env: Env, chain: Chain, a: Action)
    requires Valid(env) && Replaced(db, chain) && Untouched(w, db) && !Finds(w, env, chain, a)
    ensures Untouched(Step(pr, w, env, chain, a), db)
  {
    assert At(w, a.id) == Idle || Waiting(w.workers[a.id], db.checkpoint);
  }

  predicate OthersIdle<P>(w: World<P>, id: nat) {
    forall other | other in w.workers && other != id :: w.workers[other].Idle?
  }

  /** The query's rows are the same for whoever asks. */
  lemma FoundRewind<P>(pr: Projector<P>, w: World<P>, db: Db<P>, env: Env, was: Chain, n: nat, retained: seq<StoredLog>,
                       chain: Chain, a: Action)
    requires Reorged(db, env, was, n, retained, chain) && Untouched(w, db) && Finds(w, env, chain, a)
    ensures var base := Rewound(pr, db, env, retained);
            Step(pr, w, env, chain, a) ==
            World(base, [], w.workers[a.id := Checked(base.checkpoint, At(w, a.id).safeHead)])
  {
    RetainedOfOld(db, env, was, n, db.checkpoint.value.block, retained);
    RetainedOfOld(db, env, was, n, db.checkpoint.value.block, a.retained);
  }

  lemma RewoundCaught<P>(pr: Projector<P>, db: Db<P>, env: Env, was: Chain, n: nat, retained: seq<StoredLog>,
                         chain: Chain)
    requires Reorged(db, env, was, n, retained, chain)
    ensures var base := Rewound(pr, db, env, retained);
            Caught(pr, base, base, [], chain, Common(db, env, chain), env.startBlock)
  {
    var m := RewindRecovers(pr, db, env, was, n, retained, chain);
    FoldNone(pr, Rewound(pr, db, env, retained).projections, chain.logs, m);
    IsCaught(pr, Rewound(pr, db, env, retained), Rewound(pr, db, env, retained), [], chain, m, m, env.startBlock);
  }

  /** The step that rewinds, while all others are between calls. */
  lemma RewindStep<P>(pr: Projector<P>, w: World<P>, db: Db<P>, env: Env, was: Chain, n: nat, retained: seq<StoredLog>,
                      chain: Chain, a: Action)
    requires Reorged(db, env, was, n, retained, chain) && Untouched(w, db) && Finds(w, env, chain, a)
    requires OthersIdle(w, a.id)
    ensures Healthy(pr, Step(pr, w, env, chain, a), Rewound(pr, db, env, retained), chain, Common(db, env, chain),
                    env.startBlock)
  {
    FoundRewind(pr, w, db, env, was, n, retained, chain, a);
    RewoundCaught(pr, db, env, was, n, retained, chain);
    Together(pr, Step(pr, w, env, chain, a), Rewound(pr, db, env, retained), chain, Common(db, env, chain),
             env.startBlock);
  }

  /** No worker has found the mismatch in the first `j` steps. */
  ghost predicate NotYet<P>(pr: Projector<P>, w: World<P>, env: Env, chain: Chain, actions: seq<Action>, j: nat)
    requires j <= |actions|
  {
    forall i: nat | i < j :: !Finds(Run(pr, w, env, chain, actions[..i]), env, chain, actions[i])
  }

  /** The first worker to find the mismatch does so in step `j`, while all others are between calls. */
  ghost predicate RewindsAlone<P>(pr: Projector<P>, w: World<P>, env: Env, chain: Chain, actions: seq<Action>, j: nat)
    requires j < |actions|
  {
    Finds(Run(pr, w, env, chain, actions[..j]), env, chain, actions[j]) &&
    OthersIdle(Run(pr, w, env, chain, actions[..j]), actions[j].id) && NotYet(pr, w, env, chain, actions, j)
  }

  lemma NotYetPrefix<P>(pr: Projector<P>, w: World<P>, env: Env, chain: Chain, actions: seq<Action>, j: nat, k: nat)
    requires j <= k <= |actions| && NotYet(pr, w, env, chain, actions, j)
    ensures NotYet(pr, w, env, chain, actions[..k], j)
  {
    forall i: nat | i < j
      ensures !Finds(Run(pr, w, env, chain, actions[..k][..i]), env, chain, actions[..k][i])
    {
      assert actions[..k][..i] == actions[..i];
    }
  }

  lemma {:induction false} RunBefore<P>(pr: Projector<P>, db: Db<P>, env: Env, chain: Chain, actions: seq<Action>)
    requires Valid(env) && Replaced(db, chain)
    requires NotYet(pr, World(db, [], map[]), env, chain, actions, |actions|)
    ensures Untouched(Run(pr, World(db, [], map[]), env, chain, actions), db)
  {
    if actions != [] {
      var n := |actions| - 1;
      NotYetPrefix(pr, World(db, [], map[]), env, chain, actions, n, n);
      RunBefore(pr, db, env, chain, actions[..n]);
      StepBefore(pr, Run(pr, World(db, [], map[]), env, chain, actions[..n]), db, env, chain, actions[n]);
    }
  }

  lemma PrefixRewinds<P>(pr: Projector<P>, w: World<P>, env: Env, chain: Chain, actions: seq<Action>, j: nat)
    requires j < |actions| - 1 && RewindsAlone(pr, w, env, chain, actions, j)
    ensures RewindsAlone(pr, w, env, chain, actions[..|actions| - 1], j)
  {
    assert actions[..|actions| - 1][..j] == actions[..j];
    NotYetPrefix(pr, w, env, chain, actions, j, |actions| - 1);
  }

  lemma BeforeRewind<P>(pr: Projector<P>, db: Db<P>, env: Env, chain: Chain, actions: seq<Action>, j: nat)
    requires Valid(env) && Replaced(db, chain) && j < |actions|
    requires RewindsAlone(pr, World(db, [], map[]), env, chain, actions, j)
    ensures Untouched(Run(pr, World(db, [], map[]), env, chain, actions[..j]), db)
  {
    NotYetPrefix(pr, World(db, [], map[]), env, chain, actions, j, j);
    RunBefore(pr, db, env, chain, actions[..j]);
  }

  /** From a database whose checkpoint's block was replaced: if the first worker to find it does so while all
      others are between calls, then, whatever they did before and do afterwards, the database is the rewound
      one with exactly the new chain's next logs applied. */
  lemma {:induction false} RewindInRun<P>(pr: Projector<P>, db: Db<P>, env: Env, was: Chain, n: nat,
                                          retained: seq<StoredLog>, chain: Chain, actions: seq<Action>, j: nat)
    requires Reorged(db, env, was, n, retained, chain) && Replaced(db, chain) && j < |actions|
    requires RewindsAlone(pr, World(db, [], map[]), env, chain, actions, j)
    ensures Healthy(pr, Run(pr, World(db, [], map[]), env, chain, actions), Rewound(pr, db, env, retained), chain,
                    Common(db, env, chain), env.startBlock)
    decreases |actions|
  {
    var k, w0 := |actions| - 1, World(db, [], map[]);
    if j == k {
      BeforeRewind(pr, db, env, chain, actions, k);
      RewindStep(pr, Run(pr, w0, env, chain, actions[..k]), db, env, was, n, retained, chain, actions[k]);
    } else {
      PrefixRewinds(pr, w0, env, chain, actions, j);
      RewindInRun(pr, db, env, was, n, retained, chain, actions[..k], j);
      StepHealthy(pr, Run(pr, w0, env, chain, actions[..k]), Rewound(pr, db, env, retained), env, chain,
                  Common(db, env, chain), actions[k]);
    }
  }

  /** Calls that do not overlap always rewind alone. */
  lemma SerialRewindsAlone<P>(pr: Projector<P>, w: World<P>, env: Env, chain: Chain, actions: seq<Action>, j: nat)
    requires Serial(pr, w, env, chain, actions) && j < |actions|
    requires Finds(Run(pr, w, env, chain, actions[..j]), env, chain, actions[j])
    ensures exists i: nat :: i <= j && RewindsAlone(pr, w, env, chain, actions, i)
    decreases j
  {
    var v := Run(pr, w, env, chain, actions[..j]);
    forall other | other in v.workers && other != actions[j].id ensures v.workers[other].Idle? {
      assert At(v, other).Idle?;
    }
    if i: nat :| i < j && Finds(Run(pr, w, env, chain, actions[..i]), env, chain, actions[i]) {
      SerialRewindsAlone(pr, w, env, chain, actions, i);
    } else {
      assert RewindsAlone(pr, w, env, chain, actions, j);
    }
  }

  // ---------------------------------------------------------------- After the rewind

  /** A database some workers leave after the rewind: they all started behind it, or it happened in their run
      and nobody else was in a call. */
  ghost predicate Regained<P>(pr: Projector<P>, db: Db<P>, env: Env, retained: seq<StoredLog>, chain: Chain,
                             actions: seq<Action>, after: Db<P>)
    requires db.checkpoint.Some?
  {
    after == Run(pr, World(Rewound(pr, db, env, retained), [], map[]), env, chain, actions).db ||
    (Replaced(db, chain) && after == Run(pr, World(db, [], map[]), env, chain, actions).db &&
     exists j: nat :: j < |actions| && RewindsAlone(pr, World(db, [], map[]), env, chain, actions, j))
  }

  /** Such a database is in step with the new chain, with exactly its next logs applied to the rewound one. */
  lemma RegainedReaches<P>(pr: Projector<P>, db: Db<P>, env: Env, was: Chain, n: nat, retained: seq<StoredLog>,
                           chain: Chain, actions: seq<Action>, after: Db<P>) returns (k: nat)
    requires Reorged(db, env, was, n, retained, chain) && Regained(pr, db, env, retained, chain, actions, after)
    ensures Common(db, env, chain) <= k <= |chain.logs| && Synced(after, chain, k, env.startBlock)
    ensures var m := Common(db, env, chain);
            m <= n <= |was.logs| && was.logs[..m] == chain.logs[..m] && retained == StoredLogs(chain.logs[..m])
    ensures after.projections ==
            Fold(pr, Rewound(pr, db, env, retained).projections, chain.logs[Common(db, env, chain)..k])
  {
    var base := Rewound(pr, db, env, retained);
    var m := RewindRecovers(pr, db, env, was, n, retained, chain);
    if after == Run(pr, World(base, [], map[]), env, chain, actions).db {
      k := Reached(pr, base, env, chain, m, actions);
    } else {
      var j: nat :| j < |actions| && RewindsAlone(pr, World(db, [], map[]), env, chain, actions, j);
      RewindInRun(pr, db, env, was, n, retained, chain, actions, j);
      k := HealthyReach(pr, Run(pr, World(db, [], map[]), env, chain, actions), base, chain, m, env.startBlock);
    }
  }

  /** The rewound checkpoint stands exactly behind the common logs. */
  lemma RewoundExact<P>(pr: Projector<P>, db: Db<P>, env: Env, was: Chain, n: nat, retained: seq<StoredLog>,
                       chain: Chain)
    requires Reorged(db, env, was, n, retained, chain)
    ensures var base := Rewound(pr, db, env, retained);
            Exact(pr, base, base, [], env, chain, Common(db, env, chain))
  {
    var m := RewindRecovers(pr, db, env, was, n, retained, chain);
  }

  lemma RewindStepLevel<P>(pr: Projector<P>, w: World<P>, db: Db<P>, env: Env, was: Chain, n: nat,
                           retained: seq<StoredLog>, chain: Chain, a: Action)
    requires Reorged(db, env, was, n, retained, chain) && Untouched(w, db) && Finds(w, env, chain, a)
    ensures Level(pr, Step(pr, w, env, chain, a), Rewound(pr, db, env, retained), env, chain, Common(db, env, chain),
                  a.id)
  {
    RewoundExact(pr, db, env, was, n, retained, chain);
    FoundRewind(pr, w, db, env, was, n, retained, chain, a);
  }

  lemma RewindNow<P>(pr: Projector<P>, db: Db<P>, env: Env, was: Chain, n: nat, retained: seq<StoredLog>, chain: Chain,
                     actions: seq<Action>)
    requires Reorged(db, env, was, n, retained, chain) && Replaced(db, chain) && actions != []
    requires RewindsAlone(pr, World(db, [], map[]), env, chain, actions, |actions| - 1)
    ensures Level(pr, Run(pr, World(db, [], map[]), env, chain, actions), Rewound(pr, db, env, retained), env, chain,
                  Common(db, env, chain), actions[|actions| - 1].id)
  {
    var k := |actions| - 1;
    BeforeRewind(pr, db, env, chain, actions, k);
    RewindStepLevel(pr, Run(pr, World(db, [], map[]), env, chain, actions[..k]), db, env, was, n, retained, chain,
                    actions[k]);
  }

  /** In a run without overlap, from the rewind on, checkpoint and copy stand exactly behind the applied
      logs. */
  lemma {:induction false} SerialRewindLevel<P>(pr: Projector<P>, db: Db<P>, env: Env, was: Chain, n: nat,
                                                retained: seq<StoredLog>, chain: Chain, actions: seq<Action>, j: nat,
                                                id: nat)
    requires Reorged(db, env, was, n, retained, chain) && Replaced(db, chain) && j < |actions|
    requires Serial(pr, World(db, [], map[]), env, chain, actions)
    requires RewindsAlone(pr, World(db, [], map[]), env, chain, actions, j)
    ensures Level(pr, Run(pr, World(db, [], map[]), env, chain, actions), Rewound(pr, db, env, retained), env, chain,
                  Common(db, env, chain), id)
    decreases |actions|
  {
    var k, w0 := |actions| - 1, World(db, [], map[]);
    var before, last := Run(pr, w0, env, chain, actions[..k]), actions[k];
    assert Run(pr, w0, env, chain, actions) == Step(pr, before, env, chain, last);
    SerialPrefix(pr, w0, env, chain, actions, k);
    if j == k {
      RewindNow(pr, db, env, was, n, retained, chain, actions);
    } else {
      PrefixRewinds(pr, w0, env, chain, actions, j);
      SerialRewindLevel(pr, db, env, was, n, retained, chain, actions[..k], j, last.id);
      RewindInRun(pr, db, env, was, n, retained, chain, actions[..k], j);
      StepLevel(pr, before, Rewound(pr, db, env, retained), env, chain, Common(db, env, chain), last);
    }
    LevelOthers(pr, before, Rewound(pr, db, env, retained), env, chain, Common(db, env, chain), last, id);
  }

  lemma LevelOthers<P>(pr: Projector<P>, w: World<P>, base: Db<P>, env: Env, chain: Chain, n: nat, a: Action, id: nat)
    requires Level(pr, Step(pr, w, env, chain, a), base, env, chain, n, a.id) && (id != a.id ==> At(w, id).Idle?)
    ensures Level(pr, Step(pr, w, env, chain, a), base, env, chain, n, id)
  {
    if id != a.id {
      OthersUnmoved(pr, w, env, chain, a, id);
      IdleLevel(pr, Step(pr, w, env, chain, a), base, env, chain, n, a.id, id);
    }
  }

  // ---------------------------------------------------------------- A call that rewinds

  lemma CheckRewinds<P>(pr: Projector<P>, db: Db<P>, env: Env, chain: Chain, safeHead: int, retained: seq<StoredLog>)
    requires Replaced(db, chain) && db.checkpoint.value.block <= safeHead
    ensures EnsureConsistency(pr, db, db.checkpoint, env, chain.hashAt, safeHead, retained) ==
            Rewound(pr, db, env, retained)
  {
  }

  /** A call that finds the replaced block rewinds and then applies exactly the new chain's next logs, wherever
      it fails. */
  lemma RewindingCall<P>(pr: Projector<P>, db: Db<P>, env: Env, was: Chain, n: nat, retained: seq<StoredLog>,
                         chain: Chain, safeHead: int, fetched: Result<seq<RawLog>, string>, trouble: Option<Trouble>)
      returns (m: nat)
    requires Reorged(db, env, was, n, retained, chain) && Replaced(db, chain) && db.checkpoint.value.block <= safeHead
    requires var rewound := Rewound(pr, db, env, retained);
             fetched.Ok? && From(env, rewound.checkpoint) <= safeHead ==>
               CanRun(rewound, env, chain, safeHead, fetched.value)
    ensures var checked := EnsureConsistency(pr, db, db.checkpoint, env, chain.hashAt, safeHead, retained);
            Advanced(pr, Rewound(pr, db, env, retained),
                     TryRun(pr, checked, env, chain.hashAt, safeHead, fetched, trouble), env.startBlock, chain,
                     Common(db, env, chain), m)
  {
    var c := RewindRecovers(pr, db, env, was, n, retained, chain);
    CheckRewinds(pr, db, env, chain, safeHead, retained);
    m := TryRunAdvances(pr, Rewound(pr, db, env, retained), env, chain, c, safeHead, fetched, trouble);
  }
}

/** Sync workers whose calls do not overlap: the checkpoint never moves back, and the JSON copy misses no
    patch. */
module SoloWorker {
  import opened JsonMerge
  import opened ProjectionTables
  import opened SyncLog
  import opened SyncState
  import opened SyncWorkers

  /** The JSON copy with the patches of these logs, in this order. */
  function CopyAfter<P>(pr: Projector<P>, c: Object, logs: seq<Log>): Object {
    if logs == [] then c else Merge(CopyAfter(pr, c, logs[..|logs| - 1]), pr.patch(logs[|logs| - 1]))
  }

  /** The worker holds what the database holds. */
  ghost predicate UpToDate<P>(worker: Worker, db: Db<P>, chain: Chain, m: nat) {
    match worker
    case Idle => true
    case Started(c, _) => c == db.checkpoint
    case Checked(c, _) => c == db.checkpoint
    case Drained(to) => CountCovered(chain.logs, EndOf(to)) == m
    case Batch(pending, cursor) => SliceAt(chain.logs, pending, m) && cursor == CursorOf(db.checkpoint)
  }

  /** Checkpoint and JSON copy stand exactly behind the applied logs. */
  ghost predicate Exact<P>(pr: Projector<P>, base: Db<P>, db: Db<P>, applied: seq<Log>, env: Env, chain: Chain, n: nat)
  {
    FirstToFetch(env, chain, db.checkpoint) == n + |applied| &&
    CursorOf(db.checkpoint) == CopyAfter(pr, CursorOf(base.checkpoint), applied)
  }

  ghost predicate Level<P>(pr: Projector<P>, w: World<P>, base: Db<P>, env: Env, chain: Chain, n: nat, id: nat) {
    Exact(pr, base, w.db, w.applied, env, chain, n) && UpToDate(At(w, id), w.db, chain, n + |w.applied|)
  }

  lemma FetchUpToDate<P>(db: Db<P>, env: Env, chain: Chain, safeHead: int, answer: seq<RawLog>)
    requires Valid(env) && ValidChain(chain, env.startBlock)
    requires From(env, db.checkpoint) <= safeHead ==>
               Answers(answer, chain.logs, From(env, db.checkpoint), To(env, From(env, db.checkpoint), safeHead))
    ensures UpToDate(AfterFetch(env, db.checkpoint, safeHead, answer), db, chain,
                     FirstToFetch(env, chain, db.checkpoint))
  {
    if From(env, db.checkpoint) <= safeHead {
      FetchedSlice(env, chain, db.checkpoint, safeHead, answer);
    }
  }

  lemma FailureExact<P>(pr: Projector<P>, base: Db<P>, db: Db<P>, applied: seq<Log>, env: Env, chain: Chain, n: nat,
                        message: string)
    requires ValidChain(chain, env.startBlock) && Exact(pr, base, db, applied, env, chain, n)
    ensures Exact(pr, base, RecordFailure(db, env, message), applied, env, chain, n)
  {
  }

  lemma CommitExact<P>(pr: Projector<P>, base: Db<P>, db: Db<P>, applied: seq<Log>, env: Env, chain: Chain, n: nat)
    requires ValidChain(chain, env.startBlock) && Exact(pr, base, db, applied, env, chain, n)
    requires n + |applied| < |chain.logs| && Synced(db, chain, n + |applied|, env.startBlock)
    ensures var l := chain.logs[n + |applied|];
            ShouldApply(db.rows, l) &&
            Exact(pr, base, CommitLog(pr, db, CursorOf(db.checkpoint), l), applied + [l], env, chain, n)
  {
    var l := chain.logs[n + |applied|];
    CommitKeepsSynced(pr, db, chain, n + |applied|, env.startBlock, CursorOf(db.checkpoint), n + |applied|);
    assert (applied + [l])[..|applied|] == applied;
  }

  lemma CommitUpToDate<P>(pr: Projector<P>, w: World<P>, chain: Chain, m: nat, id: nat)
    requires UpToDate(At(w, id), w.db, chain, m)
    requires At(w, id).Batch? && At(w, id).pending != [] && ShouldApply(w.db.rows, At(w, id).pending[0])
    ensures var w' := AfterCommit(pr, w, id, At(w, id).pending, At(w, id).cursor);
            UpToDate(At(w', id), w'.db, chain, m + 1)
  {
  }

  lemma CommitBatch<P>(pr: Projector<P>, w: World<P>, base: Db<P>, env: Env, chain: Chain, n: nat, id: nat,
                       pending: seq<Log>)
    requires ValidChain(chain, env.startBlock) && Level(pr, w, base, env, chain, n, id)
    requires Synced(w.db, chain, n + |w.applied|, env.startBlock)
    requires At(w, id) == Batch(pending, CursorOf(w.db.checkpoint)) && pending != []
    ensures Level(pr, AfterCommit(pr, w, id, pending, CursorOf(w.db.checkpoint)), base, env, chain, n, id)
  {
    assert pending[0] == chain.logs[n + |w.applied|];
    CommitExact(pr, base, w.db, w.applied, env, chain, n);
    CommitUpToDate(pr, w, chain, n + |w.applied|, id);
    IsLevel(pr, AfterCommit(pr, w, id, pending, CursorOf(w.db.checkpoint)), base, env, chain, n, id,
            w.applied + [pending[0]]);
  }

  lemma IsLevel<P>(pr: Projector<P>, w: World<P>, base: Db<P>, env: Env, chain: Chain, n: nat, id: nat,
                   applied: seq<Log>)
    requires w.applied == applied && Exact(pr, base, w.db, applied, env, chain, n)
    requires UpToDate(At(w, id), w.db, chain, n + |applied|)
    ensures Level(pr, w, base, env, chain, n, id)
  {
  }

  lemma CommitLevel<P>(pr: Projector<P>, w: World<P>, base: Db<P>, env: Env, chain: Chain, n: nat, id: nat)
    requires ValidChain(chain, env.startBlock) && Level(pr, w, base, env, chain, n, id)
    requires Synced(w.db, chain, n + |w.applied|, env.startBlock)
    ensures Level(pr, Step(pr, w, env, chain, Commit(id)), base, env, chain, n, id)
  {
    if At(w, id).Batch? && At(w, id).pending != [] {
      CommitBatch(pr, w, base, env, chain, n, id, At(w, id).pending);
    }
  }

  lemma FetchLevel<P>(pr: Projector<P>, w: World<P>, base: Db<P>, env: Env, chain: Chain, n: nat, id: nat,
                      answer: seq<RawLog>)
    requires Valid(env) && ValidChain(chain, env.startBlock) && Level(pr, w, base, env, chain, n, id)
    ensures Level(pr, Step(pr, w, env, chain, Fetch(id, answer)), base, env, chain, n, id)
  {
    var worker, c := At(w, id), w.db.checkpoint;
    if worker.Checked? && (From(env, c) <= worker.safeHead ==>
         Answers(answer, chain.logs, From(env, c), To(env, From(env, c), worker.safeHead)))
    {
      FetchUpToDate(w.db, env, chain, worker.safeHead, answer);
    }
  }

  lemma OtherLevel<P>(pr: Projector<P>, w: World<P>, base: Db<P>, env: Env, chain: Chain, n: nat, a: Action)
    requires ValidChain(chain, env.startBlock) && !a.Commit? && !a.Fetch?
    requires Level(pr, w, base, env, chain, n, a.id)
    requires Synced(w.db, chain, n + |w.applied|, env.startBlock)
    ensures Level(pr, Step(pr, w, env, chain, a), base, env, chain, n, a.id)
  {
    match a
    case Check(_, _) =>
      if At(w, a.id).Started? {
        NeverMismatched(w.db.checkpoint, chain, n + |w.applied|, env.startBlock, At(w, a.id).safeHead);
      }
    case Fail(_, message) => FailureExact(pr, base, w.db, w.applied, env, chain, n, message);
    case _ =>
  }

  lemma StepLevel<P>(pr: Projector<P>, w: World<P>, base: Db<P>, env: Env, chain: Chain, n: nat, a: Action)
    requires Valid(env) && ValidChain(chain, env.startBlock)
    requires Healthy(pr, w, base, chain, n, env.startBlock) && Level(pr, w, base, env, chain, n, a.id)
    ensures Level(pr, Step(pr, w, env, chain, a), base, env, chain, n, a.id)
  {
    if a.Commit? {
      CommitLevel(pr, w, base, env, chain, n, a.id);
    } else if a.Fetch? {
      FetchLevel(pr, w, base, env, chain, n, a.id, a.answer);
    } else {
      OtherLevel(pr, w, base, env, chain, n, a);
    }
  }

  /** No two calls overlap: whenever a worker acts, all others are between calls. */
  ghost predicate Serial<P>(pr: Projector<P>, w: World<P>, env: Env, chain: Chain, actions: seq<Action>) {
    forall j: nat, id: nat | j < |actions| && id != actions[j].id ::
      At(Run(pr, w, env, chain, actions[..j]), id).Idle?
  }

  lemma OthersUnmoved<P>(pr: Projector<P>, w: World<P>, env: Env, chain: Chain, a: Action, id: nat)
    requires id != a.id
    ensures At(Step(pr, w, env, chain, a), id) == At(w, id)
  {
  }

  lemma SerialPrefix<P>(pr: Projector<P>, w: World<P>, env: Env, chain: Chain, actions: seq<Action>, n: nat)
    requires |actions| == n + 1 && Serial(pr, w, env, chain, actions)
    ensures Serial(pr, w, env, chain, actions[..n])
    ensures forall id: nat | id != actions[n].id :: At(Run(pr, w, env, chain, actions[..n]), id).Idle?
  {
    forall j: nat, id: nat | j < n && id != actions[j].id
      ensures At(Run(pr, w, env, chain, actions[..n][..j]), id).Idle?
    {
      assert actions[..n][..j] == actions[..j];
    }
  }

  lemma IdleLevel<P>(pr: Projector<P>, w: World<P>, base: Db<P>, env: Env, chain: Chain, n: nat, id: nat, other: nat)
    requires Level(pr, w, base, env, chain, n, id) && At(w, other).Idle?
    ensures Level(pr, w, base, env, chain, n, other)
  {
  }

  /** From a database whose checkpoint stands exactly behind its first `n` logs, any number of workers whose
      calls do not overlap, wherever they fail or crash: the checkpoint covers exactly the applied logs, and
      the JSON copy holds exactly their patches. */
  lemma {:induction false} SerialRun<P>(pr: Projector<P>, db: Db<P>, env: Env, chain: Chain, n: nat,
                                        actions: seq<Action>, id: nat)
    requires Valid(env) && ValidChain(chain, env.startBlock) && Synced(db, chain, n, env.startBlock)
    requires FirstToFetch(env, chain, db.checkpoint) == n
    requires Serial(pr, World(db, [], map[]), env, chain, actions)
    ensures Level(pr, Run(pr, World(db, [], map[]), env, chain, actions), db, env, chain, n, id)
  {
    if actions != [] {
      var init, last := actions[..|actions| - 1], actions[|actions| - 1];
      SerialPrefix(pr, World(db, [], map[]), env, chain, actions, |actions| - 1);
      SerialRun(pr, db, env, chain, n, init, last.id);
      RunHealthy(pr, db, env, chain, n, init);
      StepLevel(pr, Run(pr, World(db, [], map[]), env, chain, init), db, env, chain, n, last);
      if id != last.id {
        OthersUnmoved(pr, Run(pr, World(db, [], map[]), env, chain, init), env, chain, last, id);
        IdleLevel(pr, Run(pr, World(db, [], map[]), env, chain, actions), db, env, chain, n, last.id, id);
      }
    }
  }

  lemma {:induction false} OthersIdle<P>(pr: Projector<P>, db: Db<P>, env: Env, chain: Chain, actions: seq<Action>,
                                         id: nat, other: nat)
    requires (forall i | 0 <= i < |actions| :: actions[i].id == id) && other != id
    ensures At(Run(pr, World(db, [], map[]), env, chain, actions), other).Idle?
  {
    if actions != [] {
      var init := actions[..|actions| - 1];
      assert forall i | 0 <= i < |init| :: init[i] == actions[i];
      OthersIdle(pr, db, env, chain, init, id, other);
      OthersUnmoved(pr, Run(pr, World(db, [], map[]), env, chain, init), env, chain, actions[|actions| - 1], other);
    }
  }

  /** A single worker's calls never overlap. */
  lemma SoloIsSerial<P>(pr: Projector<P>, db: Db<P>, env: Env, chain: Chain, actions: seq<Action>, id: nat)
    requires forall i | 0 <= i < |actions| :: actions[i].id == id
    ensures Serial(pr, World(db, [], map[]), env, chain, actions)
  {
    forall j: nat, other: nat | j < |actions| && other != actions[j].id
      ensures At(Run(pr, World(db, [], map[]), env, chain, actions[..j]), other).Idle?
    {
      OthersIdle(pr, db, env, chain, actions[..j], id, other);
    }
  }

  /** In particular a single worker, whatever it does. */
  lemma SoloRun<P>(pr: Projector<P>, db: Db<P>, env: Env, chain: Chain, n: nat, id: nat, actions: seq<Action>)
    requires Valid(env) && ValidChain(chain, env.startBlock) && Synced(db, chain, n, env.startBlock)
    requires FirstToFetch(env, chain, db.checkpoint) == n
    requires forall i | 0 <= i < |actions| :: actions[i].id == id
    ensures Level(pr, Run(pr, World(db, [], map[]), env, chain, actions), db, env, chain, n, id)
  {
    SoloIsSerial(pr, db, env, chain, actions, id);
    SerialRun(pr, db, env, chain, n, actions, id);
  }
}

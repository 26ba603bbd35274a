/** Interleaved sync workers over one database (event-sync-service.ts, `syncEscrowEventsOnce`). */
module SyncWorkers {
  import opened Basics
  import opened JsonMerge
  import opened ProjectionTables
  import opened SyncLog
  import opened SyncState

  /** Where one call is: it has read the checkpoint, checked it, found an empty range, or holds logs still
      to commit and the projection state it carries along. */
  datatype Worker =
    | Idle
    | Started(read: Option<Checkpoint>, safeHead: int)
    | Checked(checkpoint: Option<Checkpoint>, safeHead: int)
    | Drained(to: int)
    | Batch(pending: seq<Log>, cursor: Object)

  /** The database, the logs whose projections were applied so far, and the workers. */
  datatype World<P> = World(db: Db<P>, applied: seq<Log>, workers: map<nat, Worker>)

  datatype Action =
    | Start(id: nat, safeHead: int)
    | Check(id: nat, retained: seq<StoredLog>)
    | Fetch(id: nat, answer: seq<RawLog>)
    | Commit(id: nat)
    | Finish(id: nat)
    | Fail(id: nat, message: string)
    | Crash(id: nat)

  function At<P>(w: World<P>, id: nat): Worker { if id in w.workers then w.workers[id] else Idle }

  function Goto<P>(w: World<P>, id: nat, to: Worker): World<P> { w.(workers := w.workers[id := to]) }

  function AfterFetch(env: Env, c: Option<Checkpoint>, safeHead: int, answer: seq<RawLog>): Worker {
    var from := From(env, c);
    if from > safeHead then Idle
    else
      var logs := FetchSupportedLogs(answer, Position(c));
      if logs == [] then Drained(To(env, from, safeHead)) else Batch(logs, CursorOf(c))
  }

  function AfterCommit<P>(pr: Projector<P>, w: World<P>, id: nat, pending: seq<Log>, cursor: Object): World<P>
    requires pending != []
  {
    var l := pending[0];
    World(CommitLog(pr, w.db, cursor, l),
          if ShouldApply(w.db.rows, l) then w.applied + [l] else w.applied,
          w.workers[id := if |pending| == 1 then Idle else Batch(pending[1..], NextCursor(pr, w.db.rows, cursor, l))])
  }

  function AfterCheck<P>(pr: Projector<P>, w: World<P>, id: nat, env: Env, hashAt: int -> nat,
                         c: Option<Checkpoint>, safeHead: int, retained: seq<StoredLog>): World<P> {
    var db := EnsureConsistency(pr, w.db, c, env, hashAt, safeHead, retained);
    World(db, w.applied, w.workers[id := Checked(if Mismatch(c, hashAt, safeHead) then db.checkpoint else c, safeHead)])
  }

  /** One step of one worker; a step that is not the worker's turn, or an answer that is not the chain's,
      changes nothing. */
  ghost function Step<P>(pr: Projector<P>, w: World<P>, env: Env, chain: Chain, a: Action): World<P> {
    var worker := At(w, a.id);
    match a
    case Start(id, safeHead) =>
      if worker.Idle? then Goto(w, id, Started(w.db.checkpoint, safeHead)) else w
    case Check(id, retained) =>
      if worker.Started? &&
         (Mismatch(worker.read, chain.hashAt, worker.safeHead) ==>
            IsRetained(retained, Kept(w.db.rows, RewindFrom(env, worker.read.value.block)), env.startBlock,
                       RewindFrom(env, worker.read.value.block)))
      then AfterCheck(pr, w, id, env, chain.hashAt, worker.read, worker.safeHead, retained)
      else w
    case Fetch(id, answer) =>
      if worker.Checked? &&
         (From(env, worker.checkpoint) <= worker.safeHead ==>
            Answers(answer, chain.logs, From(env, worker.checkpoint),
                    To(env, From(env, worker.checkpoint), worker.safeHead)))
      then Goto(w, id, AfterFetch(env, worker.checkpoint, worker.safeHead, answer))
      else w
    case Commit(id) =>
      if worker.Batch? && worker.pending != [] then AfterCommit(pr, w, id, worker.pending, worker.cursor) else w
    case Finish(id) =>
      if worker.Drained? then Goto(w, id, Idle).(db := CommitEmpty(w.db, worker.to, chain.hashAt(worker.to)))
      else w
    case Fail(id, message) =>
      if worker.Checked? || worker.Drained? || worker.Batch?
      then Goto(w, id, Idle).(db := RecordFailure(w.db, env, message))
      else w
    case Crash(id) => Goto(w, id, Idle)
  }

  ghost function Run<P>(pr: Projector<P>, w: World<P>, env: Env, chain: Chain, actions: seq<Action>): World<P> {
    if actions == [] then w
    else Step(pr, Run(pr, w, env, chain, actions[..|actions| - 1]), env, chain, actions[|actions| - 1])
  }

  // ---------------------------------------------------------------- Any number of workers

  predicate SliceAt(logs: seq<Log>, slice: seq<Log>, lo: nat) {
    lo + |slice| <= |logs| && slice == logs[lo..lo + |slice|]
  }

  /** What a worker relies on, whatever the others did since it read the checkpoint. */
  ghost predicate Sound(worker: Worker, chain: Chain, n: nat, start: int) {
    match worker
    case Idle => true
    case Started(c, _) => Within(c, chain, n, start)
    case Checked(c, _) => Within(c, chain, n, start)
    case Drained(to) => CountCovered(chain.logs, EndOf(to)) <= n && to >= start
    case Batch(pending, _) => exists lo: nat :: lo <= n && SliceAt(chain.logs, pending, lo)
  }

  /** The applied logs are the chain's next ones, and database and projections are where they lead. */
  ghost predicate Caught<P>(pr: Projector<P>, base: Db<P>, db: Db<P>, applied: seq<Log>, chain: Chain, n: nat,
                            start: int) {
    && n + |applied| <= |chain.logs| && applied == chain.logs[n..n + |applied|]
    && Synced(db, chain, n + |applied|, start)
    && db.projections == Fold(pr, base.projections, applied)
  }

  ghost predicate AllSound(workers: map<nat, Worker>, chain: Chain, n: nat, start: int) {
    forall id | id in workers :: Sound(workers[id], chain, n, start)
  }

  ghost predicate Healthy<P>(pr: Projector<P>, w: World<P>, base: Db<P>, chain: Chain, n: nat, start: int) {
    Caught(pr, base, w.db, w.applied, chain, n, start) && AllSound(w.workers, chain, n + |w.applied|, start)
  }

  lemma NeverMismatched(c: Option<Checkpoint>, chain: Chain, n: nat, start: int, safeHead: int)
    requires Within(c, chain, n, start)
    ensures !Mismatch(c, chain.hashAt, safeHead)
  {
  }

  lemma SentinelCoversNothing(chain: Chain, start: int)
    requires ValidChain(chain, start)
    ensures CountCovered(chain.logs, Mark(start, Some(-1))) == 0
    ensures CountCovered(chain.logs, EndOf(start - 1)) == 0
  {
  }

  lemma FailureKeepsSynced<P>(db: Db<P>, env: Env, chain: Chain, n: nat, message: string)
    requires ValidChain(chain, env.startBlock) && Synced(db, chain, n, env.startBlock)
    ensures Synced(RecordFailure(db, env, message), chain, n, env.startBlock)
  {
  }

  lemma SliceSound(chain: Chain, n: nat, start: int, lo: nat, logs: seq<Log>, cursor: Object)
    requires lo <= n && SliceAt(chain.logs, logs, lo)
    ensures Sound(Batch(logs, cursor), chain, n, start)
  {
  }

  lemma FetchSound(env: Env, chain: Chain, n: nat, c: Option<Checkpoint>, safeHead: int, answer: seq<RawLog>)
    requires Valid(env) && ValidChain(chain, env.startBlock) && Within(c, chain, n, env.startBlock)
    requires From(env, c) <= safeHead ==>
               Answers(answer, chain.logs, From(env, c), To(env, From(env, c), safeHead))
    ensures Sound(AfterFetch(env, c, safeHead, answer), chain, n, env.startBlock)
  {
    if From(env, c) <= safeHead {
      var lo, logs := FirstToFetch(env, chain, c), FetchSupportedLogs(answer, Position(c));
      SentinelCoversNothing(chain, env.startBlock);
      FetchedSlice(env, chain, c, safeHead, answer);
      if logs != [] {
        SliceSound(chain, n, env.startBlock, lo, logs, CursorOf(c));
      }
    }
  }

  lemma SoundLater(workers: map<nat, Worker>, chain: Chain, n: nat, later: nat, start: int)
    requires n <= later && AllSound(workers, chain, n, start)
    ensures AllSound(workers, chain, later, start)
  {
  }

  lemma OneMore<P>(pr: Projector<P>, s: P, logs: seq<Log>, n: nat, m: nat)
    requires n <= m < |logs|
    ensures logs[n..m + 1] == logs[n..m] + [logs[m]]
    ensures Fold(pr, s, logs[n..m + 1]) == pr.apply(Fold(pr, s, logs[n..m]), logs[m])
  {
  }

  lemma IsCaught<P>(pr: Projector<P>, base: Db<P>, db: Db<P>, applied: seq<Log>, chain: Chain, n: nat, m: nat,
                    start: int)
    requires n <= m <= |chain.logs| && applied == chain.logs[n..m] && Synced(db, chain, m, start)
    requires db.projections == Fold(pr, base.projections, chain.logs[n..m])
    ensures Caught(pr, base, db, applied, chain, n, start)
  {
  }

  lemma NextSynced<P>(pr: Projector<P>, db: Db<P>, chain: Chain, m: nat, start: int, cursor: Object)
    requires ValidChain(chain, start) && Synced(db, chain, m, start) && m < |chain.logs|
    ensures ShouldApply(db.rows, chain.logs[m]) && Synced(CommitLog(pr, db, cursor, chain.logs[m]), chain, m + 1, start)
    ensures CommitLog(pr, db, cursor, chain.logs[m]).projections == pr.apply(db.projections, chain.logs[m])
  {
    CommitKeepsSynced(pr, db, chain, m, start, cursor, m);
  }

  lemma NextCaught<P>(pr: Projector<P>, base: Db<P>, db: Db<P>, later: Db<P>, applied: seq<Log>, chain: Chain, n: nat,
                      start: int)
    requires Caught(pr, base, db, applied, chain, n, start) && n + |applied| < |chain.logs|
    requires Synced(later, chain, n + |applied| + 1, start)
    requires later.projections == pr.apply(db.projections, chain.logs[n + |applied|])
    ensures Caught(pr, base, later, applied + [chain.logs[n + |applied|]], chain, n, start)
  {
    var m := CaughtReach(pr, base, db, applied, chain, n, start);
    assert applied == chain.logs[n..m];
    OneMore(pr, base.projections, chain.logs, n, m);
    IsCaught(pr, base, later, applied + [chain.logs[m]], chain, n, m + 1, start);
  }

  lemma CommitNext<P>(pr: Projector<P>, base: Db<P>, db: Db<P>, applied: seq<Log>, chain: Chain, n: nat, start: int,
                      cursor: Object)
    requires ValidChain(chain, start) && Caught(pr, base, db, applied, chain, n, start)
    requires n + |applied| < |chain.logs|
    ensures var l := chain.logs[n + |applied|];
            ShouldApply(db.rows, l) && Caught(pr, base, CommitLog(pr, db, cursor, l), applied + [l], chain, n, start)
  {
    var m := n + |applied|;
    NextSynced(pr, db, chain, m, start, cursor);
    NextCaught(pr, base, db, CommitLog(pr, db, cursor, chain.logs[m]), applied, chain, n, start);
  }

  lemma SameCaught<P>(pr: Projector<P>, base: Db<P>, db: Db<P>, later: Db<P>, applied: seq<Log>, chain: Chain, n: nat,
                      start: int)
    requires Caught(pr, base, db, applied, chain, n, start) && Synced(later, chain, n + |applied|, start)
    requires later.projections == db.projections
    ensures Caught(pr, base, later, applied, chain, n, start)
  {
  }

  lemma AgainSynced<P>(pr: Projector<P>, db: Db<P>, chain: Chain, m: nat, start: int, cursor: Object, i: nat)
    requires ValidChain(chain, start) && Synced(db, chain, m, start) && i < m
    ensures !ShouldApply(db.rows, chain.logs[i]) && Synced(CommitLog(pr, db, cursor, chain.logs[i]), chain, m, start)
    ensures CommitLog(pr, db, cursor, chain.logs[i]).projections == db.projections
  {
    CommitKeepsSynced(pr, db, chain, m, start, cursor, i);
  }

  lemma CommitAgain<P>(pr: Projector<P>, base: Db<P>, db: Db<P>, applied: seq<Log>, chain: Chain, n: nat, start: int,
                       cursor: Object, i: nat)
    requires ValidChain(chain, start) && Caught(pr, base, db, applied, chain, n, start) && i < n + |applied|
    ensures var l := chain.logs[i];
            !ShouldApply(db.rows, l) && Caught(pr, base, CommitLog(pr, db, cursor, l), applied, chain, n, start)
  {
    AgainSynced(pr, db, chain, n + |applied|, start, cursor, i);
    SameCaught(pr, base, db, CommitLog(pr, db, cursor, chain.logs[i]), applied, chain, n, start);
  }

  lemma CommitSound(workers: map<nat, Worker>, id: nat, chain: Chain, n: nat, later: nat, start: int,
                    pending: seq<Log>, cursor: Object, next: Object, i: nat)
    requires AllSound(workers, chain, n, start) && n <= later && i < later
    requires pending != [] && SliceAt(chain.logs, pending, i)
    ensures AllSound(workers[id := if |pending| == 1 then Idle else Batch(pending[1..], next)], chain, later, start)
  {
    SoundLater(workers, chain, n, later, start);
    assert SliceAt(chain.logs, pending[1..], i + 1);
  }

  lemma NewCaught<P>(pr: Projector<P>, w: World<P>, base: Db<P>, chain: Chain, n: nat, start: int, id: nat,
                     pending: seq<Log>, cursor: Object)
    requires ValidChain(chain, start) && Caught(pr, base, w.db, w.applied, chain, n, start)
    requires pending != [] && n + |w.applied| < |chain.logs| && pending[0] == chain.logs[n + |w.applied|]
    ensures var w' := AfterCommit(pr, w, id, pending, cursor);
            Caught(pr, base, w'.db, w'.applied, chain, n, start) && |w'.applied| == |w.applied| + 1
  {
    CommitNext(pr, base, w.db, w.applied, chain, n, start, cursor);
  }

  lemma OldCaught<P>(pr: Projector<P>, w: World<P>, base: Db<P>, chain: Chain, n: nat, start: int, id: nat,
                     pending: seq<Log>, cursor: Object, i: nat)
    requires ValidChain(chain, start) && Caught(pr, base, w.db, w.applied, chain, n, start)
    requires pending != [] && i < n + |w.applied| && pending[0] == chain.logs[i]
    ensures var w' := AfterCommit(pr, w, id, pending, cursor);
            Caught(pr, base, w'.db, w'.applied, chain, n, start) && w'.applied == w.applied
  {
    CommitAgain(pr, base, w.db, w.applied, chain, n, start, cursor, i);
  }

  lemma CommitHealthy<P>(pr: Projector<P>, w: World<P>, base: Db<P>, chain: Chain, n: nat, start: int, id: nat,
                         pending: seq<Log>, cursor: Object, i: nat)
    requires ValidChain(chain, start) && Healthy(pr, w, base, chain, n, start)
    requires pending != [] && SliceAt(chain.logs, pending, i) && i <= n + |w.applied|
    ensures Healthy(pr, AfterCommit(pr, w, id, pending, cursor), base, chain, n, start)
  {
    if i == n + |w.applied| {
      NewCaught(pr, w, base, chain, n, start, id, pending, cursor);
    } else {
      OldCaught(pr, w, base, chain, n, start, id, pending, cursor, i);
    }
    CommitTogether(pr, w, base, chain, n, start, id, pending, cursor, i);
  }

  lemma CommitTogether<P>(pr: Projector<P>, w: World<P>, base: Db<P>, chain: Chain, n: nat, start: int, id: nat,
                          pending: seq<Log>, cursor: Object, i: nat)
    requires pending != [] && SliceAt(chain.logs, pending, i) && AllSound(w.workers, chain, n + |w.applied|, start)
    requires var w' := AfterCommit(pr, w, id, pending, cursor);
             Caught(pr, base, w'.db, w'.applied, chain, n, start) && i < n + |w'.applied| && |w.applied| <= |w'.applied|
    ensures Healthy(pr, AfterCommit(pr, w, id, pending, cursor), base, chain, n, start)
  {
    var w' := AfterCommit(pr, w, id, pending, cursor);
    CommitSound(w.workers, id, chain, n + |w.applied|, n + |w'.applied|, start, pending, cursor,
                NextCursor(pr, w.db.rows, cursor, pending[0]), i);
  }

  lemma Together<P>(pr: Projector<P>, w: World<P>, base: Db<P>, chain: Chain, n: nat, start: int)
    requires Caught(pr, base, w.db, w.applied, chain, n, start) && AllSound(w.workers, chain, n + |w.applied|, start)
    ensures Healthy(pr, w, base, chain, n, start)
  {
  }

  lemma GotoHealthy<P>(pr: Projector<P>, w: World<P>, base: Db<P>, chain: Chain, n: nat, start: int, id: nat,
                       to: Worker)
    requires Healthy(pr, w, base, chain, n, start) && Sound(to, chain, n + |w.applied|, start)
    ensures Healthy(pr, Goto(w, id, to), base, chain, n, start)
  {
    Together(pr, Goto(w, id, to), base, chain, n, start);
  }

  lemma CheckHealthy<P>(pr: Projector<P>, w: World<P>, base: Db<P>, env: Env, chain: Chain, n: nat, a: Action)
    requires a.Check? && Healthy(pr, w, base, chain, n, env.startBlock)
    ensures Healthy(pr, Step(pr, w, env, chain, a), base, chain, n, env.startBlock)
  {
  }

  lemma FetchHealthy<P>(pr: Projector<P>, w: World<P>, base: Db<P>, env: Env, chain: Chain, n: nat, a: Action)
    requires a.Fetch? && Valid(env) && ValidChain(chain, env.startBlock)
    requires Healthy(pr, w, base, chain, n, env.startBlock)
    ensures Healthy(pr, Step(pr, w, env, chain, a), base, chain, n, env.startBlock)
  {
    var worker := At(w, a.id);
    if worker.Checked? && (From(env, worker.checkpoint) <= worker.safeHead ==>
            Answers(a.answer, chain.logs, From(env, worker.checkpoint),
                    To(env, From(env, worker.checkpoint), worker.safeHead))) {
      assert Sound(worker, chain, n + |w.applied|, env.startBlock);
      FetchSound(env, chain, n + |w.applied|, worker.checkpoint, worker.safeHead, a.answer);
      GotoHealthy(pr, w, base, chain, n, env.startBlock, a.id,
                  AfterFetch(env, worker.checkpoint, worker.safeHead, a.answer));
    }
  }

  lemma EmptyCaught<P>(pr: Projector<P>, base: Db<P>, db: Db<P>, applied: seq<Log>, chain: Chain, n: nat, start: int,
                       to: int)
    requires Caught(pr, base, db, applied, chain, n, start) && to >= start
    requires CountCovered(chain.logs, EndOf(to)) <= n + |applied|
    ensures Caught(pr, base, CommitEmpty(db, to, chain.hashAt(to)), applied, chain, n, start)
  {
  }

  lemma FinishHealthy<P>(pr: Projector<P>, w: World<P>, base: Db<P>, env: Env, chain: Chain, n: nat, a: Action)
    requires a.Finish? && Healthy(pr, w, base, chain, n, env.startBlock)
    ensures Healthy(pr, Step(pr, w, env, chain, a), base, chain, n, env.startBlock)
  {
    if At(w, a.id).Drained? {
      assert Sound(w.workers[a.id], chain, n + |w.applied|, env.startBlock);
      EmptyCaught(pr, base, w.db, w.applied, chain, n, env.startBlock, At(w, a.id).to);
    }
  }

  lemma FailHealthy<P>(pr: Projector<P>, w: World<P>, base: Db<P>, env: Env, chain: Chain, n: nat, a: Action)
    requires a.Fail? && ValidChain(chain, env.startBlock) && Healthy(pr, w, base, chain, n, env.startBlock)
    ensures Healthy(pr, Step(pr, w, env, chain, a), base, chain, n, env.startBlock)
  {
    FailureCaught(pr, base, w.db, w.applied, env, chain, n, a.message);
    IdleSound(w.workers, chain, n + |w.applied|, env.startBlock, a.id);
    Together(pr, World(RecordFailure(w.db, env, a.message), w.applied, w.workers[a.id := Idle]), base, chain, n,
             env.startBlock);
  }

  lemma IdleSound(workers: map<nat, Worker>, chain: Chain, n: nat, start: int, id: nat)
    requires AllSound(workers, chain, n, start)
    ensures AllSound(workers[id := Idle], chain, n, start)
  {
  }

  lemma FailureCaught<P>(pr: Projector<P>, base: Db<P>, db: Db<P>, applied: seq<Log>, env: Env, chain: Chain, n: nat,
                         message: string)
    requires ValidChain(chain, env.startBlock) && Caught(pr, base, db, applied, chain, n, env.startBlock)
    ensures Caught(pr, base, RecordFailure(db, env, message), applied, chain, n, env.startBlock)
  {
    FailureKeepsSynced(db, env, chain, n + |applied|, message);
    SameCaught(pr, base, db, RecordFailure(db, env, message), applied, chain, n, env.startBlock);
  }

  lemma MoveHealthy<P>(pr: Projector<P>, w: World<P>, base: Db<P>, env: Env, chain: Chain, n: nat, a: Action)
    requires (a.Start? || a.Crash?) && Healthy(pr, w, base, chain, n, env.startBlock)
    ensures Healthy(pr, Step(pr, w, env, chain, a), base, chain, n, env.startBlock)
  {
  }

  lemma StepHealthy<P>(pr: Projector<P>, w: World<P>, base: Db<P>, env: Env, chain: Chain, n: nat, a: Action)
    requires Valid(env) && ValidChain(chain, env.startBlock) && Healthy(pr, w, base, chain, n, env.startBlock)
    ensures Healthy(pr, Step(pr, w, env, chain, a), base, chain, n, env.startBlock)
  {
    match a
    case Start(_, _) => MoveHealthy(pr, w, base, env, chain, n, a);
    case Check(_, _) => CheckHealthy(pr, w, base, env, chain, n, a);
    case Fetch(_, _) => FetchHealthy(pr, w, base, env, chain, n, a);
    case Commit(id) =>
      var worker := At(w, id);
      if worker.Batch? && worker.pending != [] {
        var i: nat :| i <= n + |w.applied| && SliceAt(chain.logs, worker.pending, i);
        CommitHealthy(pr, w, base, chain, n, env.startBlock, id, worker.pending, worker.cursor, i);
      }
    case Finish(_) => FinishHealthy(pr, w, base, env, chain, n, a);
    case Fail(_, _) => FailHealthy(pr, w, base, env, chain, n, a);
    case Crash(_) => MoveHealthy(pr, w, base, env, chain, n, a);
  }

  lemma {:induction false} RunHealthy<P>(pr: Projector<P>, db: Db<P>, env: Env, chain: Chain, n: nat,
                                          actions: seq<Action>)
    requires Valid(env) && ValidChain(chain, env.startBlock) && Synced(db, chain, n, env.startBlock)
    ensures Healthy(pr, Run(pr, World(db, [], map[]), env, chain, actions), db, chain, n, env.startBlock)
  {
    if actions != [] {
      var init := actions[..|actions| - 1];
      RunHealthy(pr, db, env, chain, n, init);
      StepHealthy(pr, Run(pr, World(db, [], map[]), env, chain, init), db, env, chain, n, actions[|actions| - 1]);
    }
  }

  /** The checkpoint covers no log beyond the first `n`, and its hash is the chain's. */
  ghost predicate PassesNothing<P>(db: Db<P>, chain: Chain, n: nat) {
    db.checkpoint.Some? ==>
      && (forall i | 0 <= i < |chain.logs| ::
            Covers(PositionOf(db.checkpoint.value), chain.logs[i].origin) ==> i < n)
      && forall safeHead :: !Mismatch(db.checkpoint, chain.hashAt, safeHead)
  }

  lemma SyncedPassesNothing<P>(db: Db<P>, env: Env, chain: Chain, n: nat)
    requires ValidChain(chain, env.startBlock) && Synced(db, chain, n, env.startBlock)
    ensures PassesNothing(db, chain, n)
  {
    if db.checkpoint.Some? {
      CoveredPrefix(chain.logs, PositionOf(db.checkpoint.value));
    }
  }

  lemma HealthyIsExact<P>(pr: Projector<P>, w: World<P>, base: Db<P>, env: Env, chain: Chain, n: nat)
    requires ValidChain(chain, env.startBlock) && Healthy(pr, w, base, chain, n, env.startBlock)
    ensures Caught(pr, base, w.db, w.applied, chain, n, env.startBlock)
    ensures PassesNothing(w.db, chain, n + |w.applied|)
  {
    SyncedPassesNothing(w.db, env, chain, n + |w.applied|);
  }

  /** From any database in step with the first `n` logs, whatever any number of workers do and wherever they
      crash or fail: the logs whose projections were applied are exactly the chain's next ones, in order and
      without repetition; the projections are the fold over them; the checkpoint covers no log that was not
      applied; and no worker ever finds a hash mismatch. */
  lemma ExactlyOnce<P>(pr: Projector<P>, db: Db<P>, env: Env, chain: Chain, n: nat, actions: seq<Action>)
    requires Valid(env) && ValidChain(chain, env.startBlock) && Synced(db, chain, n, env.startBlock)
    ensures var w := Run(pr, World(db, [], map[]), env, chain, actions);
            Caught(pr, db, w.db, w.applied, chain, n, env.startBlock) &&
            PassesNothing(w.db, chain, n + |w.applied|)
  {
    RunHealthy(pr, db, env, chain, n, actions);
    HealthyIsExact(pr, Run(pr, World(db, [], map[]), env, chain, actions), db, env, chain, n);
  }

  lemma CaughtReach<P>(pr: Projector<P>, base: Db<P>, db: Db<P>, applied: seq<Log>, chain: Chain, n: nat, start: int)
      returns (m: nat)
    requires Caught(pr, base, db, applied, chain, n, start)
    ensures m == n + |applied| <= |chain.logs| && Synced(db, chain, m, start)
    ensures db.projections == Fold(pr, base.projections, chain.logs[n..m])
  {
    m := n + |applied|;
    assert applied == chain.logs[n..m];
  }

  lemma HealthyReach<P>(pr: Projector<P>, w: World<P>, base: Db<P>, chain: Chain, n: nat, start: int) returns (m: nat)
    requires Healthy(pr, w, base, chain, n, start)
    ensures m == n + |w.applied| <= |chain.logs| && Synced(w.db, chain, m, start)
    ensures w.db.projections == Fold(pr, base.projections, chain.logs[n..m])
  {
    m := CaughtReach(pr, base, w.db, w.applied, chain, n, start);
  }

  /** How far the chain is applied after a run, and what is then projected. */
  lemma Reached<P>(pr: Projector<P>, db: Db<P>, env: Env, chain: Chain, n: nat, actions: seq<Action>) returns (m: nat)
    requires Valid(env) && ValidChain(chain, env.startBlock) && Synced(db, chain, n, env.startBlock)
    ensures var after := Run(pr, World(db, [], map[]), env, chain, actions).db;
            n <= m <= |chain.logs| && Synced(after, chain, m, env.startBlock) &&
            after.projections == Fold(pr, db.projections, chain.logs[n..m])
  {
    RunHealthy(pr, db, env, chain, n, actions);
    m := HealthyReach(pr, Run(pr, World(db, [], map[]), env, chain, actions), db, chain, n, env.startBlock);
  }

  lemma RunAppend<P>(pr: Projector<P>, w: World<P>, env: Env, chain: Chain, actions: seq<Action>, a: Action)
    ensures Run(pr, w, env, chain, actions + [a]) == Step(pr, Run(pr, w, env, chain, actions), env, chain, a)
  {
  }

  /** On the chain it is in step with, a check only lets the worker pass. */
  lemma CheckPasses<P>(pr: Projector<P>, w: World<P>, base: Db<P>, env: Env, chain: Chain, n: nat, a: Action)
    requires a.Check? && Healthy(pr, w, base, chain, n, env.startBlock)
    ensures var worker, after := At(w, a.id), Step(pr, w, env, chain, a);
            after == w || (worker.Started? && after == Goto(w, a.id, Checked(worker.read, worker.safeHead)))
  {
    var worker := At(w, a.id);
    if worker.Started? {
      assert Sound(worker, chain, n + |w.applied|, env.startBlock);
      NeverMismatched(worker.read, chain, n + |w.applied|, env.startBlock, worker.safeHead);
    }
  }
}

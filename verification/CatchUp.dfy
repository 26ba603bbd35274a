/** Successful runs under a fixed safe head: strict progress, their number, and where they end
    (event-sync-service.ts, `syncEscrowEventsOnce`). */
module CatchUp {
  import opened Basics
  import opened JsonMerge
  import opened ProjectionTables
  import opened SyncLog
  import opened SyncState
  import opened SyncWorkers

  /** From `a`, in step with `n` logs, to `b`, in step with `m`, by applying exactly those in between. */
  ghost predicate Advanced<P>(pr: Projector<P>, a: Db<P>, b: Db<P>, start: int, chain: Chain, n: nat, m: nat) {
    n <= m && Synced(b, chain, m, start) && b.projections == Fold(pr, a.projections, chain.logs[n..m])
  }

  lemma {:induction false} FoldAppend<P>(pr: Projector<P>, s: P, logs: seq<Log>, a: nat, b: nat, c: nat)
    requires a <= b <= c <= |logs|
    ensures Fold(pr, Fold(pr, s, logs[a..b]), logs[b..c]) == Fold(pr, s, logs[a..c])
    decreases c
  {
    if b < c {
      FoldAppend(pr, s, logs, a, b, c - 1);
      assert logs[b..c][..c - b - 1] == logs[b..c - 1];
      assert logs[a..c][..c - a - 1] == logs[a..c - 1];
    }
  }

  lemma AdvancedTwice<P>(pr: Projector<P>, a: Db<P>, b: Db<P>, c: Db<P>, start: int, chain: Chain,
                         n: nat, m: nat, k: nat)
    requires n <= m && m <= |chain.logs|
    requires Advanced(pr, a, b, start, chain, n, m) && Advanced(pr, b, c, start, chain, m, k)
    ensures Advanced(pr, a, c, start, chain, n, k)
  {
    FoldAppend(pr, a.projections, chain.logs, n, m, k);
  }

  lemma NothingAdvances<P>(pr: Projector<P>, db: Db<P>, start: int, chain: Chain, n: nat)
    requires Synced(db, chain, n, start)
    ensures Advanced(pr, db, db, start, chain, n, n)
  {
    assert chain.logs[n..n] == [];
  }

  lemma CommitAdvances<P>(pr: Projector<P>, db: Db<P>, start: int, chain: Chain, n: nat, cursor: Object, i: nat)
    requires ValidChain(chain, start) && Synced(db, chain, n, start) && i <= n && i < |chain.logs|
    ensures Advanced(pr, db, CommitLog(pr, db, cursor, chain.logs[i]), start, chain, n, Max(n, i + 1))
  {
    CommitKeepsSynced(pr, db, chain, n, start, cursor, i);
    FoldNone(pr, db.projections, chain.logs, n);
    if i == n {
      OneMore(pr, db.projections, chain.logs, n, n);
    }
  }

  lemma FoldNone<P>(pr: Projector<P>, s: P, logs: seq<Log>, n: nat)
    requires n <= |logs|
    ensures Fold(pr, s, logs[n..n]) == s
  {
  }

  lemma SliceTail(all: seq<Log>, logs: seq<Log>, lo: nat)
    requires SliceAt(all, logs, lo) && logs != []
    ensures logs[0] == all[lo] && SliceAt(all, logs[1..], lo + 1)
  {
  }

  /** Committing a fetched slice that starts at or before the frontier. */
  lemma {:induction false} CommitAllAdvances<P>(pr: Projector<P>, db: Db<P>, start: int, chain: Chain, n: nat,
                                                cursor: Object, lo: nat, logs: seq<Log>, hi: nat)
    requires ValidChain(chain, start) && Synced(db, chain, n, start)
    requires lo <= n && SliceAt(chain.logs, logs, lo) && hi == lo + |logs|
    ensures Advanced(pr, db, CommitAll(pr, db, cursor, logs), start, chain, n, Max(n, hi))
    decreases |logs|
  {
    if logs == [] {
      NothingAdvances(pr, db, start, chain, n);
    } else {
      var next, m := CommitLog(pr, db, cursor, logs[0]), Max(n, lo + 1);
      var cursor' := NextCursor(pr, db.rows, cursor, logs[0]);
      SliceTail(chain.logs, logs, lo);
      CommitAdvances(pr, db, start, chain, n, cursor, lo);
      CommitAllAdvances(pr, next, start, chain, m, cursor', lo + 1, logs[1..], hi);
      AdvancedTwice(pr, db, next, CommitAll(pr, next, cursor', logs[1..]), start, chain, n, m, Max(m, hi));
    }
  }

  lemma {:induction false} CommitAllPosition<P>(pr: Projector<P>, db: Db<P>, cursor: Object, logs: seq<Log>)
    requires logs != []
    ensures Position(CommitAll(pr, db, cursor, logs).checkpoint) == Some(MarkOf(logs[|logs| - 1].origin))
    decreases |logs|
  {
    if |logs| > 1 {
      CommitAllPosition(pr, CommitLog(pr, db, cursor, logs[0]), NextCursor(pr, db.rows, cursor, logs[0]), logs[1..]);
    }
  }

  /** What is left up to the head behind a position: logs not covered, and blocks not passed. */
  function LeftAt(mark: Mark, logs: seq<Log>, head: int): int {
    Max(0, CountCovered(logs, EndOf(head)) - CountCovered(logs, mark)) + Max(0, head + 1 - FromBlock(mark))
  }

  function Left<P>(db: Db<P>, env: Env, chain: Chain, head: int): int {
    LeftAt(StartMark(Position(db.checkpoint), env.startBlock), chain.logs, head)
  }

  ghost predicate CanRun<P>(db: Db<P>, env: Env, chain: Chain, head: int, answer: seq<RawLog>) {
    From(env, db.checkpoint) <= head &&
    Answers(answer, chain.logs, From(env, db.checkpoint), To(env, From(env, db.checkpoint), head))
  }

  /** Behind the last log of a range that is not empty, less is left. */
  lemma SlicePasses(logs: seq<Log>, mark: Mark, to: int, head: int)
    requires Chronological(logs) && FromBlock(mark) <= to <= head
    requires CountCovered(logs, mark) < CountCovered(logs, EndOf(to))
    ensures var hi := CountCovered(logs, EndOf(to));
            hi <= |logs| &&
            var last := MarkOf(logs[hi - 1].origin);
            MarkBefore(mark, last) && LeftAt(last, logs, head) < LeftAt(mark, logs, head)
  {
    CoveredPrefix(logs, mark);
    CoveredPrefix(logs, EndOf(to));
    CoveredUpTo(logs, CountCovered(logs, EndOf(to)) - 1);
    CoveredMonotone(logs, EndOf(to), EndOf(head));
  }

  lemma EmptyPasses(logs: seq<Log>, mark: Mark, to: int, head: int)
    requires FromBlock(mark) <= to <= head && CountCovered(logs, mark) == CountCovered(logs, EndOf(to))
    ensures MarkBefore(mark, EndOf(to)) && LeftAt(EndOf(to), logs, head) < LeftAt(mark, logs, head)
  {
  }

  ghost predicate Raised<P>(a: Db<P>, b: Db<P>, env: Env) {
    MarkBefore(StartMark(Position(a.checkpoint), env.startBlock), StartMark(Position(b.checkpoint), env.startBlock))
  }

  lemma PositionPasses<P>(db: Db<P>, after: Db<P>, env: Env, chain: Chain, to: int, head: int)
    requires ValidChain(chain, env.startBlock) && From(env, db.checkpoint) <= to <= head
    requires FirstToFetch(env, chain, db.checkpoint) < CountCovered(chain.logs, EndOf(to)) <= |chain.logs|
    requires Position(after.checkpoint) == Some(MarkOf(chain.logs[CountCovered(chain.logs, EndOf(to)) - 1].origin))
    ensures Raised(db, after, env) && Left(after, env, chain, head) < Left(db, env, chain, head)
  {
    SlicePasses(chain.logs, StartMark(Position(db.checkpoint), env.startBlock), to, head);
  }

  lemma FullRun<P>(pr: Projector<P>, db: Db<P>, env: Env, chain: Chain, n: nat, head: int, answer: seq<RawLog>)
      returns (m: nat)
    requires Valid(env) && ValidChain(chain, env.startBlock) && Synced(db, chain, n, env.startBlock)
    requires CanRun(db, env, chain, head, answer)
    requires FetchSupportedLogs(answer, Position(db.checkpoint)) != []
    ensures var db' := SyncRun(pr, db, env, chain.hashAt, head, answer);
            Advanced(pr, db, db', env.startBlock, chain, n, m) && Raised(db, db', env) &&
            Left(db', env, chain, head) < Left(db, env, chain, head)
  {
    var lo, to := FirstToFetch(env, chain, db.checkpoint), To(env, From(env, db.checkpoint), head);
    var hi := CountCovered(chain.logs, EndOf(to));
    FetchedSlice(env, chain, db.checkpoint, head, answer);
    SentinelCoversNothing(chain, env.startBlock);
    CommitAllAdvances(pr, db, env.startBlock, chain, n, CursorOf(db.checkpoint), lo, chain.logs[lo..hi], hi);
    SlicePassed(pr, db, env, chain, to, head, lo, hi);
    m := Max(n, hi);
  }

  lemma SlicePassed<P>(pr: Projector<P>, db: Db<P>, env: Env, chain: Chain, to: int, head: int, lo: nat, hi: nat)
    requires ValidChain(chain, env.startBlock) && From(env, db.checkpoint) <= to <= head
    requires lo == FirstToFetch(env, chain, db.checkpoint) < hi == CountCovered(chain.logs, EndOf(to)) <= |chain.logs|
    ensures var db' := CommitAll(pr, db, CursorOf(db.checkpoint), chain.logs[lo..hi]);
            Raised(db, db', env) && Left(db', env, chain, head) < Left(db, env, chain, head)
  {
    assert chain.logs[lo..hi][hi - lo - 1] == chain.logs[hi - 1];
    CommitAllPosition(pr, db, CursorOf(db.checkpoint), chain.logs[lo..hi]);
    PositionPasses(db, CommitAll(pr, db, CursorOf(db.checkpoint), chain.logs[lo..hi]), env, chain, to, head);
  }

  lemma EmptyRun<P>(pr: Projector<P>, db: Db<P>, env: Env, chain: Chain, n: nat, head: int, answer: seq<RawLog>)
    requires Valid(env) && ValidChain(chain, env.startBlock) && Synced(db, chain, n, env.startBlock)
    requires CanRun(db, env, chain, head, answer)
    requires FetchSupportedLogs(answer, Position(db.checkpoint)) == []
    ensures var db' := SyncRun(pr, db, env, chain.hashAt, head, answer);
            Advanced(pr, db, db', env.startBlock, chain, n, n) && Raised(db, db', env) &&
            Left(db', env, chain, head) < Left(db, env, chain, head)
  {
    var to := To(env, From(env, db.checkpoint), head);
    FetchedSlice(env, chain, db.checkpoint, head, answer);
    SentinelCoversNothing(chain, env.startBlock);
    EmptyPasses(chain.logs, StartMark(Position(db.checkpoint), env.startBlock), to, head);
    assert chain.logs[n..n] == [];
  }

  /** The databases after successive runs, each with something left to fetch. */
  ghost predicate Runs<P>(pr: Projector<P>, dbs: seq<Db<P>>, answers: seq<seq<RawLog>>, env: Env, chain: Chain,
                          head: int)
  {
    |dbs| == |answers| + 1 &&
    forall i | 0 <= i < |answers| ::
      CanRun(dbs[i], env, chain, head, answers[i]) &&
      dbs[i + 1] == SyncRun(pr, dbs[i], env, chain.hashAt, head, answers[i])
  }

  lemma OneRun<P>(pr: Projector<P>, db: Db<P>, env: Env, chain: Chain, n: nat, head: int, answer: seq<RawLog>)
      returns (m: nat)
    requires Valid(env) && ValidChain(chain, env.startBlock) && Synced(db, chain, n, env.startBlock)
    requires CanRun(db, env, chain, head, answer)
    ensures var db' := SyncRun(pr, db, env, chain.hashAt, head, answer);
            Advanced(pr, db, db', env.startBlock, chain, n, m) && Raised(db, db', env) &&
            Left(db', env, chain, head) < Left(db, env, chain, head)
  {
    if FetchSupportedLogs(answer, Position(db.checkpoint)) == [] {
      EmptyRun(pr, db, env, chain, n, head, answer);
      m := n;
    } else {
      m := FullRun(pr, db, env, chain, n, head, answer);
    }
  }

  lemma {:induction false} ProgressTo<P>(pr: Projector<P>, dbs: seq<Db<P>>, answers: seq<seq<RawLog>>, env: Env,
                                         chain: Chain, n: nat, head: int, k: nat) returns (m: nat)
    requires Valid(env) && ValidChain(chain, env.startBlock) && k <= |answers|
    requires Runs(pr, dbs, answers, env, chain, head) && Synced(dbs[0], chain, n, env.startBlock)
    ensures Advanced(pr, dbs[0], dbs[k], env.startBlock, chain, n, m)
    ensures forall i | 0 <= i < k :: Raised(dbs[i], dbs[i + 1], env)
    ensures k + Left(dbs[k], env, chain, head) <= Left(dbs[0], env, chain, head)
  {
    if k == 0 {
      m := n;
    } else {
      var before := ProgressTo(pr, dbs, answers, env, chain, n, head, k - 1);
      m := OneRun(pr, dbs[k - 1], env, chain, before, head, answers[k - 1]);
      AdvancedTwice(pr, dbs[0], dbs[k - 1], dbs[k], env.startBlock, chain, n, before, m);
    }
  }

  /** Under a fixed safe head every run strictly raises the checkpoint, there are never more of them than
      logs and blocks left, and once none is left to do every supported log up to the head is applied,
      exactly once and in order. This holds for every batch size. */
  lemma Progress<P>(pr: Projector<P>, dbs: seq<Db<P>>, answers: seq<seq<RawLog>>, env: Env, chain: Chain, n: nat,
                    head: int) returns (m: nat)
    requires Valid(env) && ValidChain(chain, env.startBlock)
    requires Runs(pr, dbs, answers, env, chain, head) && Synced(dbs[0], chain, n, env.startBlock)
    ensures Advanced(pr, dbs[0], dbs[|answers|], env.startBlock, chain, n, m)
    ensures forall i | 0 <= i < |answers| :: Raised(dbs[i], dbs[i + 1], env)
    ensures |answers| <= Left(dbs[0], env, chain, head)
    ensures From(env, dbs[|answers|].checkpoint) > head ==> CountCovered(chain.logs, EndOf(head)) <= m
  {
    m := ProgressTo(pr, dbs, answers, env, chain, n, head, |answers|);
    HeadReached(dbs[|answers|], env, chain, m, head);
  }

  lemma HeadReached<P>(db: Db<P>, env: Env, chain: Chain, m: nat, head: int)
    requires ValidChain(chain, env.startBlock) && Synced(db, chain, m, env.startBlock)
    ensures From(env, db.checkpoint) > head ==> CountCovered(chain.logs, EndOf(head)) <= m
  {
    if From(env, db.checkpoint) > head {
      var mark := StartMark(Position(db.checkpoint), env.startBlock);
      SentinelCoversNothing(chain, env.startBlock);
      CoveredMonotone(chain.logs, EndOf(head), mark);
    }
  }

  // ---------------------------------------------------------------- Runs that may fail

  lemma FailureAdvances<P>(pr: Projector<P>, a: Db<P>, b: Db<P>, env: Env, chain: Chain, n: nat, m: nat,
                           message: string)
    requires ValidChain(chain, env.startBlock) && Advanced(pr, a, b, env.startBlock, chain, n, m)
    ensures Advanced(pr, a, RecordFailure(b, env, message), env.startBlock, chain, n, m)
  {
    FailureKeepsSynced(b, env, chain, m, message);
  }

  lemma SliceOfSlice(logs: seq<Log>, lo: nat, hi: nat, k: nat)
    requires lo <= hi <= |logs| && k <= hi - lo
    ensures logs[lo..hi][..k] == logs[lo..lo + k]
  {
  }

  lemma FetchedPrefix<P>(db: Db<P>, env: Env, chain: Chain, n: nat, head: int, answer: seq<RawLog>, k: nat)
    requires Valid(env) && ValidChain(chain, env.startBlock) && Synced(db, chain, n, env.startBlock)
    requires CanRun(db, env, chain, head, answer) && k <= |FetchSupportedLogs(answer, Position(db.checkpoint))|
    ensures FirstToFetch(env, chain, db.checkpoint) <= n
    ensures SliceAt(chain.logs, FetchSupportedLogs(answer, Position(db.checkpoint))[..k],
                    FirstToFetch(env, chain, db.checkpoint))
  {
    FetchedSlice(env, chain, db.checkpoint, head, answer);
    SentinelCoversNothing(chain, env.startBlock);
    SliceOfSlice(chain.logs, FirstToFetch(env, chain, db.checkpoint),
                 CountCovered(chain.logs, EndOf(To(env, From(env, db.checkpoint), head))), k);
  }

  lemma StoppedRun<P>(pr: Projector<P>, db: Db<P>, env: Env, chain: Chain, n: nat, lo: nat, done: seq<Log>,
                      message: string)
    requires ValidChain(chain, env.startBlock) && Synced(db, chain, n, env.startBlock)
    requires lo <= n && SliceAt(chain.logs, done, lo)
    ensures Advanced(pr, db, RecordFailure(CommitAll(pr, db, CursorOf(db.checkpoint), done), env, message),
                     env.startBlock, chain, n, Max(n, lo + |done|))
  {
    CommitAllAdvances(pr, db, env.startBlock, chain, n, CursorOf(db.checkpoint), lo, done, lo + |done|);
    FailureAdvances(pr, db, CommitAll(pr, db, CursorOf(db.checkpoint), done), env, chain, n, Max(n, lo + |done|),
                    message);
  }

  /** Wherever a run fails, it applies exactly the chain's next logs, in order, and stays in step. */
  lemma TryRunAdvances<P>(pr: Projector<P>, db: Db<P>, env: Env, chain: Chain, n: nat, head: int,
                          fetched: Result<seq<RawLog>, string>, trouble: Option<Trouble>) returns (m: nat)
    requires Valid(env) && ValidChain(chain, env.startBlock) && Synced(db, chain, n, env.startBlock)
    requires fetched.Ok? && From(env, db.checkpoint) <= head ==> CanRun(db, env, chain, head, fetched.value)
    ensures Advanced(pr, db, TryRun(pr, db, env, chain.hashAt, head, fetched, trouble), env.startBlock, chain, n, m)
  {
    m := n;
    NothingAdvances(pr, db, env.startBlock, chain, n);
    if From(env, db.checkpoint) <= head {
      match fetched
      case Err(message) => FailureAdvances(pr, db, db, env, chain, n, n, message);
      case Ok(answer) =>
        var logs := FetchSupportedLogs(answer, Position(db.checkpoint));
        if !Stops(trouble, logs) {
          m := OneRun(pr, db, env, chain, n, head, answer);
        } else {
          var lo, done := FirstToFetch(env, chain, db.checkpoint), Done(trouble, logs);
          FetchedPrefix(db, env, chain, n, head, answer, |done|);
          StoppedRun(pr, db, env, chain, n, lo, done, trouble.value.message);
          m := Max(n, lo + |done|);
        }
    }
  }

  /** Without a checkpoint at the start, at most one run per supported log and one per block. */
  lemma LeftAtStart<P>(db: Db<P>, env: Env, chain: Chain, head: int)
    requires ValidChain(chain, env.startBlock) && db.checkpoint == None && head >= env.startBlock
    ensures Left(db, env, chain, head) == CountCovered(chain.logs, EndOf(head)) + (head - env.startBlock + 1)
  {
  }
}

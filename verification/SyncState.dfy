/** The sync engine's state and its transactions, as values (event-sync-service.ts, `syncEscrowEventsOnce`,
    `ensureCheckpointConsistency`, `rewindAndRebuildProjections`). */
module SyncState {
  import opened Basics
  import opened JsonMerge
  import opened Governance
  import opened ProjectionTables
  import opened SyncLog

  /** The environment's bounds on a run. */
  datatype Env = Env(startBlock: int, batchSize: int, rewindDepth: int)

  predicate Valid(env: Env) { env.startBlock >= 1 && env.batchSize >= 1 && env.rewindDepth >= 1 }

  datatype Checkpoint = Checkpoint(block: int, hash: Option<nat>, logIndex: Option<int>, cursor: Object,
                                   lastError: Option<string>)

  function PositionOf(c: Checkpoint): Mark { Mark(c.block, c.logIndex) }

  function Position(c: Option<Checkpoint>): Option<Mark> {
    if c.Some? then Some(PositionOf(c.value)) else None
  }

  function CursorOf(c: Option<Checkpoint>): Object { if c.Some? then c.value.cursor else map[] }

  /** Checkpoint, log table, and the tables projected from the logs. */
  datatype Db<P> = Db(checkpoint: Option<Checkpoint>, rows: map<LogKey, LogRow>, projections: P)

  /** What the engine delegates: `apply` is the live projection of a log and `patch` what it brings for the
      JSON copy; `rebuild` and `copy` do the same for the rows of a rewind. Nothing below depends on what
      these do. */
  datatype Projector<!P> = Projector(apply: (P, Log) -> P, patch: Log -> Object,
                                     rebuild: (P, seq<StoredLog>) -> P, copy: seq<StoredLog> -> Object)

  // ---------------------------------------------------------------- Transactions

  /** `shouldApplyProjection`: only the stored row's event name is compared. */
  predicate ShouldApply(rows: map<LogKey, LogRow>, l: Log) {
    KeyOf(l.origin) !in rows || rows[KeyOf(l.origin)].name != l.name
  }

  /** The projection state a worker carries to its next log. */
  function NextCursor<P>(pr: Projector<P>, rows: map<LogKey, LogRow>, cursor: Object, l: Log): Object {
    if ShouldApply(rows, l) then Merge(cursor, pr.patch(l)) else cursor
  }

  /** The transaction of one log: projections unless already applied, then log row and checkpoint. */
  function CommitLog<P>(pr: Projector<P>, db: Db<P>, cursor: Object, l: Log): Db<P> {
    Db(Some(Checkpoint(l.origin.block, Some(l.blockHash), Some(l.origin.logIndex),
                       NextCursor(pr, db.rows, cursor, l), None)),
       db.rows[KeyOf(l.origin) := RowOf(l)],
       if ShouldApply(db.rows, l) then pr.apply(db.projections, l) else db.projections)
  }

  /** The checkpoint of a batch without logs. */
  function CommitEmpty<P>(db: Db<P>, to: int, hash: nat): Db<P> {
    db.(checkpoint := Some(Checkpoint(to, Some(hash), None, CursorOf(db.checkpoint), None)))
  }

  /** The error handler: an existing checkpoint keeps its position, otherwise a sentinel is created. */
  function RecordFailure<P>(db: Db<P>, env: Env, message: string): Db<P> {
    db.(checkpoint := Some(if db.checkpoint.Some? then db.checkpoint.value.(lastError := Some(message))
                           else Checkpoint(env.startBlock, None, Some(-1), map[], Some(message))))
  }

  // ---------------------------------------------------------------- Rewind

  /** `computeRewindFromBlock`. */
  function RewindFrom(env: Env, lastBlock: int): int {
    if lastBlock - env.rewindDepth > env.startBlock then lastBlock - env.rewindDepth else env.startBlock
  }

  /** `isBlockHashMismatch` on a checkpoint at or below the safe head. */
  predicate Mismatch(c: Option<Checkpoint>, hashAt: int -> nat, safeHead: int) {
    c.Some? && c.value.hash.Some? && c.value.block <= safeHead && c.value.hash.value != hashAt(c.value.block)
  }

  /** The rows a rewind deletes. */
  predicate IsDropped(row: LogRow, rewindFrom: int) { row.source == ChainEvent && row.block >= rewindFrom }

  function Kept(rows: map<LogKey, LogRow>, rewindFrom: int): map<LogKey, LogRow> {
    map k | k in rows && !IsDropped(rows[k], rewindFrom) :: rows[k]
  }

  predicate IsReplayed(row: LogRow, start: int, rewindFrom: int) {
    row.source == ChainEvent && start <= row.block < rewindFrom
  }

  predicate StoredInOrder(a: StoredLog, b: StoredLog) {
    a.row.block < b.row.block || (a.row.block == b.row.block && a.key.logIndex <= b.key.logIndex)
  }

  /** The rebuild's query: every row to replay, once, by block and log index. */
  predicate IsRetained(retained: seq<StoredLog>, rows: map<LogKey, LogRow>, start: int, rewindFrom: int) {
    && (forall i | 0 <= i < |retained| ::
          retained[i].key in rows && rows[retained[i].key] == retained[i].row &&
          IsReplayed(retained[i].row, start, rewindFrom))
    && (forall k | k in rows && IsReplayed(rows[k], start, rewindFrom) :: StoredLog(k, rows[k]) in retained)
    && (forall i, j | 0 <= i < j < |retained| ::
          retained[i] != retained[j] && StoredInOrder(retained[i], retained[j]))
  }

  function RebuiltTo(retained: seq<StoredLog>, start: int): int {
    if retained == [] then (if start > 0 then start - 1 else 0) else retained[|retained| - 1].row.block
  }

  /** `rewindAndRebuildProjections`. */
  function Rewind<P>(pr: Projector<P>, db: Db<P>, retained: seq<StoredLog>, start: int, rewindFrom: int): Db<P> {
    Db(Some(Checkpoint(RebuiltTo(retained, start), None, None, pr.copy(retained), None)),
       Kept(db.rows, rewindFrom),
       pr.rebuild(db.projections, retained))
  }

  /** `ensureCheckpointConsistency` on the checkpoint `c` that was read; `retained` is what the rebuild's
      query returns. */
  function EnsureConsistency<P>(pr: Projector<P>, db: Db<P>, c: Option<Checkpoint>, env: Env, hashAt: int -> nat,
                                safeHead: int, retained: seq<StoredLog>): Db<P> {
    if Mismatch(c, hashAt, safeHead)
    then Rewind(pr, db, retained, env.startBlock, RewindFrom(env, c.value.block))
    else db
  }

  // ---------------------------------------------------------------- One run

  function From(env: Env, c: Option<Checkpoint>): int { FromBlock(StartMark(Position(c), env.startBlock)) }

  function To(env: Env, from: int, safeHead: int): int {
    if safeHead < from + env.batchSize - 1 then safeHead else from + env.batchSize - 1
  }

  /** The loop over the fetched logs. */
  function CommitAll<P>(pr: Projector<P>, db: Db<P>, cursor: Object, logs: seq<Log>): Db<P>
    decreases |logs|
  {
    if logs == [] then db
    else CommitAll(pr, CommitLog(pr, db, cursor, logs[0]), NextCursor(pr, db.rows, cursor, logs[0]), logs[1..])
  }

  /** A successful run on a consistent checkpoint; `answer` is what the node returns for the range. */
  function SyncRun<P>(pr: Projector<P>, db: Db<P>, env: Env, hashAt: int -> nat, safeHead: int, answer: seq<RawLog>)
    : Db<P>
  {
    var from := From(env, db.checkpoint);
    if from > safeHead then db
    else
      var to := To(env, from, safeHead);
      var logs := FetchSupportedLogs(answer, Position(db.checkpoint));
      if logs == [] then CommitEmpty(db, to, hashAt(to))
      else CommitAll(pr, db, CursorOf(db.checkpoint), logs)
  }

  /** The transaction of log number `after` throws, or reading the block of an empty range does. */
  datatype Trouble = Trouble(after: nat, message: string)

  predicate Stops(trouble: Option<Trouble>, logs: seq<Log>) {
    trouble.Some? && (logs == [] || trouble.value.after < |logs|)
  }

  /** The logs committed before that. */
  function Done(trouble: Option<Trouble>, logs: seq<Log>): (done: seq<Log>)
    requires Stops(trouble, logs)
    ensures |done| <= |logs| && done == logs[..|done|]
  {
    if logs == [] then [] else logs[..trouble.value.after]
  }

  /** The commits of a fetched range, which may be cut short. What was committed stays committed. */
  function TryCommit<P>(pr: Projector<P>, db: Db<P>, env: Env, to: int, hash: nat, logs: seq<Log>,
                        trouble: Option<Trouble>): Db<P> {
    if Stops(trouble, logs) then
      RecordFailure(CommitAll(pr, db, CursorOf(db.checkpoint), Done(trouble, logs)), env, trouble.value.message)
    else if logs == [] then CommitEmpty(db, to, hash)
    else CommitAll(pr, db, CursorOf(db.checkpoint), logs)
  }

  /** A run that may fail, in the fetch after its retries, or later. */
  function TryRun<P>(pr: Projector<P>, db: Db<P>, env: Env, hashAt: int -> nat, safeHead: int,
                     fetched: Result<seq<RawLog>, string>, trouble: Option<Trouble>): Db<P> {
    var from := From(env, db.checkpoint);
    if from > safeHead then db
    else
      match fetched
      case Err(message) => RecordFailure(db, env, message)
      case Ok(answer) =>
        TryCommit(pr, db, env, To(env, from, safeHead), hashAt(To(env, from, safeHead)),
                  FetchSupportedLogs(answer, Position(db.checkpoint)), trouble)
  }

  /** What the call reports: the number of logs, or the error. */
  function Report(env: Env, checkpoint: Option<Checkpoint>, safeHead: int, fetched: Result<seq<RawLog>, string>,
                  trouble: Option<Trouble>): Result<nat, string> {
    if From(env, checkpoint) > safeHead then Ok(0)
    else
      match fetched
      case Err(message) => Err(message)
      case Ok(answer) =>
        var logs := FetchSupportedLogs(answer, Position(checkpoint));
        if Stops(trouble, logs) then Err(trouble.value.message) else Ok(|logs|)
  }

  // ---------------------------------------------------------------- In step with the chain

  /** A chain: its supported logs from the start block on, and its block hashes. */
  datatype Chain = Chain(logs: seq<Log>, hashAt: int -> nat)

  ghost predicate ValidChain(chain: Chain, start: int) {
    && Chronological(chain.logs) && Typed(chain.logs)
    && (forall i | 0 <= i < |chain.logs| ::
          chain.logs[i].origin.block >= start && chain.logs[i].origin.logIndex >= 0 &&
          chain.logs[i].blockHash == chain.hashAt(chain.logs[i].origin.block))
    && (forall i, j | 0 <= i < j < |chain.logs| :: KeyOf(chain.logs[i].origin) != KeyOf(chain.logs[j].origin))
  }

  /** The log table as the logs alone write it. */
  function TableOf(logs: seq<Log>): map<LogKey, LogRow> {
    if logs == [] then map[]
    else TableOf(logs[..|logs| - 1])[KeyOf(logs[|logs| - 1].origin) := RowOf(logs[|logs| - 1])]
  }

  /** The rows of mined logs; synthetic rows have log index -1. */
  function Mined(rows: map<LogKey, LogRow>): map<LogKey, LogRow> {
    map k | k in rows && k.logIndex >= 0 :: rows[k]
  }

  predicate SyntheticMarked(rows: map<LogKey, LogRow>) {
    forall k | k in rows && k.logIndex < 0 :: rows[k].source != ChainEvent
  }

  /** A checkpoint passes no log beyond the first `n`, and its hash is the chain's. */
  ghost predicate Within(c: Option<Checkpoint>, chain: Chain, n: nat, start: int) {
    c.Some? ==>
      && CountCovered(chain.logs, PositionOf(c.value)) <= n
      && (c.value.hash.Some? ==> c.value.block >= start && c.value.hash.value == chain.hashAt(c.value.block))
      && FromBlock(PositionOf(c.value)) >= start
  }

  /** The database is in step with the first `n` logs of the chain. */
  ghost predicate Synced<P>(db: Db<P>, chain: Chain, n: nat, start: int) {
    n <= |chain.logs| && Mined(db.rows) == TableOf(chain.logs[..n]) && SyntheticMarked(db.rows) &&
    Within(db.checkpoint, chain, n, start)
  }

  /** The live projections of these logs, in this order. */
  function Fold<P>(pr: Projector<P>, s: P, logs: seq<Log>): P {
    if logs == [] then s else pr.apply(Fold(pr, s, logs[..|logs| - 1]), logs[|logs| - 1])
  }

  lemma {:induction false} InTable(chain: Chain, n: nat, start: int, i: nat)
    requires ValidChain(chain, start) && n <= |chain.logs| && i < |chain.logs|
    ensures KeyOf(chain.logs[i].origin) in TableOf(chain.logs[..n]) <==> i < n
    ensures i < n ==> TableOf(chain.logs[..n])[KeyOf(chain.logs[i].origin)] == RowOf(chain.logs[i])
  {
    if n > 0 {
      InTable(chain, n - 1, start, i);
      assert chain.logs[..n][..n - 1] == chain.logs[..n - 1];
      if i < n - 1 {
        assert KeyOf(chain.logs[i].origin) != KeyOf(chain.logs[n - 1].origin);
      } else if i > n - 1 {
        assert KeyOf(chain.logs[n - 1].origin) != KeyOf(chain.logs[i].origin);
      }
    }
  }

  lemma CommitRows(rows: map<LogKey, LogRow>, chain: Chain, n: nat, start: int, i: nat)
    requires ValidChain(chain, start) && i <= n <= |chain.logs| && i < |chain.logs|
    requires Mined(rows) == TableOf(chain.logs[..n]) && SyntheticMarked(rows)
    ensures ShouldApply(rows, chain.logs[i]) <==> i == n
    ensures var rows' := rows[KeyOf(chain.logs[i].origin) := RowOf(chain.logs[i])];
            Mined(rows') == TableOf(chain.logs[..if i == n then n + 1 else n]) && SyntheticMarked(rows')
  {
    var k, r := KeyOf(chain.logs[i].origin), RowOf(chain.logs[i]);
    InTable(chain, n, start, i);
    assert k in rows <==> k in Mined(rows);
    assert Mined(rows[k := r]) == Mined(rows)[k := r];
    if i == n {
      assert chain.logs[..n + 1][..n] == chain.logs[..n];
    }
  }

  /** One commit anywhere at or before the frontier: it applies the log exactly when the log is the next
      new one, and leaves the checkpoint right behind the log. */
  lemma CommitKeepsSynced<P>(pr: Projector<P>, db: Db<P>, chain: Chain, n: nat, start: int, cursor: Object, i: nat)
    requires ValidChain(chain, start) && Synced(db, chain, n, start) && i <= n && i < |chain.logs|
    ensures ShouldApply(db.rows, chain.logs[i]) <==> i == n
    ensures Synced(CommitLog(pr, db, cursor, chain.logs[i]), chain, if i == n then n + 1 else n, start)
    ensures CountCovered(chain.logs, PositionOf(CommitLog(pr, db, cursor, chain.logs[i]).checkpoint.value)) == i + 1
  {
    CoveredUpTo(chain.logs, i);
    CommitRows(db.rows, chain, n, start, i);
  }

  /** The first log the checkpoint does not cover. */
  function FirstToFetch(env: Env, chain: Chain, c: Option<Checkpoint>): nat {
    CountCovered(chain.logs, StartMark(Position(c), env.startBlock))
  }

  /** A run fetches exactly the logs from there up to the end of its range. */
  lemma FetchedSlice(env: Env, chain: Chain, c: Option<Checkpoint>, safeHead: int, answer: seq<RawLog>)
    requires Valid(env) && ValidChain(chain, env.startBlock)
    requires From(env, c) <= safeHead && Answers(answer, chain.logs, From(env, c), To(env, From(env, c), safeHead))
    ensures var lo := FirstToFetch(env, chain, c);
            var hi := CountCovered(chain.logs, EndOf(To(env, From(env, c), safeHead)));
            lo <= hi <= |chain.logs| && FetchSupportedLogs(answer, Position(c)) == chain.logs[lo..hi]
  {
    FetchIsSlice(answer, chain.logs, Position(c), env.startBlock, To(env, From(env, c), safeHead));
  }
}

/** Whether a database can still come into step with the chain after a rewind that was not deep enough
    (event-sync-service.ts). */
module LateHealing {
  import opened Basics
  import opened JsonMerge
  import opened Governance
  import opened ProjectionTables
  import opened SyncLog
  import opened SyncState
  import opened SyncWorkers
  import opened CatchUp
  import opened CallSteps
  import opened Reorg
  import opened DeepReorg

  // ---------------------------------------------------------------- What a run must find

  /** Every chain log up to the last retained row is retained, and every retained row's key is a chain log's. */
  ghost predicate Coverable(retained: seq<StoredLog>, chain: Chain, start: int) {
    (forall i | 0 <= i < |chain.logs| && i < Recovered(chain, retained, start) :: Stored(chain.logs[i]) in retained) &&
    forall j | 0 <= j < |retained| :: !IsStale(retained[j].key, chain)
  }

  lemma RetainedMined(retained: seq<StoredLog>, rows: map<LogKey, LogRow>, start: int, rewindFrom: int, j: nat)
    requires SyntheticMarked(rows) && Queried(retained, rows, start, rewindFrom) && j < |retained|
    ensures retained[j].key.logIndex >= 0 && retained[j].key in Kept(rows, rewindFrom)
  {
    assert IsReplayed(retained[j].row, start, rewindFrom);
  }

  lemma RowStored(rows: map<LogKey, LogRow>, later: map<LogKey, LogRow>, chain: Chain, k: nat, start: int, i: nat)
    requires ValidChain(chain, start) && i < k <= |chain.logs| && Mined(later) == TableOf(chain.logs[..k])
    ensures KeyOf(chain.logs[i].origin) in later && later[KeyOf(chain.logs[i].origin)] == RowOf(chain.logs[i])
  {
    InTable(chain, k, start, i);
    assert KeyOf(chain.logs[i].origin) in Mined(later);
  }

  /** A run that ends in step proves the condition. */
  lemma HealedIsCoverable<P>(pr: Projector<P>, db: Db<P>, env: Env, was: Chain, n: nat, lastBlock: int,
                             retained: seq<StoredLog>, chain: Chain, actions: seq<Action>, k: nat)
    requires Rewinds(db, env, was, n, lastBlock, retained) && ValidChain(chain, env.startBlock)
    requires var start := Rewind(pr, db, retained, env.startBlock, RewindFrom(env, lastBlock));
             Synced(Run(pr, World(start, [], map[]), env, chain, actions).db, chain, k, env.startBlock)
    ensures Coverable(retained, chain, env.startBlock)
  {
    var rewindFrom, r := RewindFrom(env, lastBlock), Recovered(chain, retained, env.startBlock);
    var start := Rewind(pr, db, retained, env.startBlock, rewindFrom);
    var after := Run(pr, World(start, [], map[]), env, chain, actions).db;
    NeverBehind(pr, start, env, chain, actions, r);
    assert r <= k;
    forall i | 0 <= i < |chain.logs| && i < r ensures Stored(chain.logs[i]) in retained {
      FirstLogRetained(start.rows, after.rows, chain, k, env.startBlock, rewindFrom, retained, r, i);
    }
    forall j | 0 <= j < |retained| ensures !IsStale(retained[j].key, chain) {
      RetainedMined(retained, db.rows, env.startBlock, rewindFrom, j);
      assert retained[j].key in Mined(after.rows);
      TableListsRows(chain, env.startBlock, k, retained[j].key);
    }
  }

  lemma FirstLogRetained(rows: map<LogKey, LogRow>, later: map<LogKey, LogRow>, chain: Chain, k: nat, start: int,
                         rewindFrom: int, retained: seq<StoredLog>, r: nat, i: nat)
    requires ValidChain(chain, start) && i < r <= k <= |chain.logs| && Mined(later) == TableOf(chain.logs[..k])
    requires forall key | NotBehind(key, chain, r) && key in later :: key in rows && rows[key] == later[key]
    requires IsRetained(retained, rows, start, rewindFrom)
    requires forall key | key in rows :: !IsDropped(rows[key], rewindFrom)
    ensures Stored(chain.logs[i]) in retained
  {
    var key := KeyOf(chain.logs[i].origin);
    RowStored(rows, later, chain, k, start, i);
    assert forall j: nat | r <= j < |chain.logs| :: KeyOf(chain.logs[i].origin) != KeyOf(chain.logs[j].origin);
    assert NotBehind(key, chain, r);
    assert IsReplayed(rows[key], start, rewindFrom);
  }

  // ---------------------------------------------------------------- A run to the chain's end

  /** The node's answer with exactly these logs. */
  function AnswerOf(logs: seq<Log>): seq<RawLog> {
    if logs == [] then []
    else [RawLog(logs[0].origin, logs[0].blockHash, logs[0].time, Some((logs[0].name, logs[0].args)))] +
         AnswerOf(logs[1..])
  }

  lemma {:induction false} AnswerParses(logs: seq<Log>)
    ensures ParseAll(AnswerOf(logs)) == logs
  {
    if logs != [] {
      AnswerParses(logs[1..]);
      assert AnswerOf(logs)[1..] == AnswerOf(logs[1..]);
      assert [logs[0]] + logs[1..] == logs;
    }
  }

  lemma {:induction false} TableConcat(a: seq<Log>, b: seq<Log>)
    ensures TableOf(a + b) == TableOf(a) + TableOf(b)
  {
    if b == [] {
      assert a + b == a;
    } else {
      assert (a + b)[..|a + b| - 1] == a + b[..|b| - 1];
      TableConcat(a, b[..|b| - 1]);
    }
  }

  lemma TableFirst(logs: seq<Log>)
    requires logs != []
    ensures TableOf(logs) == map[KeyOf(logs[0].origin) := RowOf(logs[0])] + TableOf(logs[1..])
  {
    assert logs == [logs[0]] + logs[1..] && [logs[0]][..0] == [];
    TableConcat([logs[0]], logs[1..]);
  }

  lemma RowsFirst(rows: map<LogKey, LogRow>, logs: seq<Log>)
    requires logs != []
    ensures rows[KeyOf(logs[0].origin) := RowOf(logs[0])] + TableOf(logs[1..]) == rows + TableOf(logs)
  {
    TableFirst(logs);
  }

  lemma {:induction false} CommitAllRows<P>(pr: Projector<P>, db: Db<P>, cursor: Object, logs: seq<Log>)
    ensures CommitAll(pr, db, cursor, logs).rows == db.rows + TableOf(logs)
    decreases |logs|
  {
    if logs == [] {
      assert db.rows + TableOf(logs) == db.rows;
    } else {
      RowsFirst(db.rows, logs);
      CommitAllRows(pr, CommitLog(pr, db, cursor, logs[0]), NextCursor(pr, db.rows, cursor, logs[0]), logs[1..]);
    }
  }

  /** A worker's database on its way to the end of the chain. */
  ghost predicate OnTheWay<P>(w: World<P>, env: Env, chain: Chain, id: nat) {
    At(w, id).Idle? && w.db.checkpoint.Some? && HashOk(w.db.checkpoint, chain) &&
    From(env, w.db.checkpoint) >= env.startBlock &&
    (w.db.checkpoint.value.hash.Some? ==> w.db.checkpoint.value.block >= env.startBlock)
  }

  predicate AllUpTo(chain: Chain, head: int) {
    forall i | 0 <= i < |chain.logs| :: chain.logs[i].origin.block <= head
  }

  lemma UncoveredAhead(chain: Chain, mark: Mark, head: int)
    requires Chronological(chain.logs) && AllUpTo(chain, head) && CountCovered(chain.logs, mark) < |chain.logs|
    ensures FromBlock(mark) <= head && CountCovered(chain.logs, EndOf(head)) == |chain.logs|
  {
    CoveredPrefix(chain.logs, mark);
    CoveredPrefix(chain.logs, EndOf(head));
    assert !Covers(mark, chain.logs[CountCovered(chain.logs, mark)].origin);
    assert Covers(EndOf(head), chain.logs[|chain.logs| - 1].origin);
  }

  /** A run brought the rows of the next logs, and less is left. */
  ghost predicate Brings<P>(db: Db<P>, after: Db<P>, env: Env, chain: Chain, head: int) {
    var c, c' := FirstToFetch(env, chain, db.checkpoint), FirstToFetch(env, chain, after.checkpoint);
    c <= c' <= |chain.logs| && after.rows == db.rows + TableOf(chain.logs[c..c']) &&
    Left(after, env, chain, head) < Left(db, env, chain, head) && after.checkpoint.Some? &&
    after.checkpoint.value.hash == Some(chain.hashAt(after.checkpoint.value.block)) &&
    From(env, after.checkpoint) >= env.startBlock && after.checkpoint.value.block >= env.startBlock
  }

  lemma EmptyBrings<P>(db: Db<P>, env: Env, chain: Chain, to: int, head: int)
    requires ValidChain(chain, env.startBlock) && db.checkpoint.Some?
    requires env.startBlock <= From(env, db.checkpoint) <= to <= head
    requires FirstToFetch(env, chain, db.checkpoint) == CountCovered(chain.logs, EndOf(to)) <= |chain.logs|
    ensures Brings(db, CommitEmpty(db, to, chain.hashAt(to)), env, chain, head)
  {
    var lo := FirstToFetch(env, chain, db.checkpoint);
    EmptyPasses(chain.logs, StartMark(Position(db.checkpoint), env.startBlock), to, head);
    assert chain.logs[lo..lo] == [] && TableOf([]) == map[];
  }

  lemma SliceBrings<P>(pr: Projector<P>, db: Db<P>, env: Env, chain: Chain, to: int, head: int, lo: nat, hi: nat)
    requires ValidChain(chain, env.startBlock) && db.checkpoint.Some?
    requires env.startBlock <= From(env, db.checkpoint) <= to <= head
    requires lo == FirstToFetch(env, chain, db.checkpoint) < hi == CountCovered(chain.logs, EndOf(to)) <= |chain.logs|
    ensures Brings(db, CommitAll(pr, db, CursorOf(db.checkpoint), chain.logs[lo..hi]), env, chain, head)
  {
    SlicePassed(pr, db, env, chain, to, head, lo, hi);
    CommittedSlice(pr, db, CursorOf(db.checkpoint), chain.logs, lo, hi);
    PlacedBrings(db, CommitAll(pr, db, CursorOf(db.checkpoint), chain.logs[lo..hi]), env, chain, head, lo, hi);
  }

  lemma CommittedSlice<P>(pr: Projector<P>, db: Db<P>, cursor: Object, logs: seq<Log>, lo: nat, hi: nat)
    requires lo < hi <= |logs|
    ensures var after := CommitAll(pr, db, cursor, logs[lo..hi]);
            after.rows == db.rows + TableOf(logs[lo..hi]) && after.checkpoint.Some? &&
            PositionOf(after.checkpoint.value) == MarkOf(logs[hi - 1].origin) &&
            after.checkpoint.value.hash == Some(logs[hi - 1].blockHash)
  {
    assert logs[lo..hi][hi - lo - 1] == logs[hi - 1];
    CommitAllRows(pr, db, cursor, logs[lo..hi]);
    LastCommitted(pr, db, cursor, logs[lo..hi]);
  }

  lemma PlacedBrings<P>(db: Db<P>, after: Db<P>, env: Env, chain: Chain, head: int, lo: nat, hi: nat)
    requires ValidChain(chain, env.startBlock) && lo == FirstToFetch(env, chain, db.checkpoint) < hi <= |chain.logs|
    requires after.rows == db.rows + TableOf(chain.logs[lo..hi]) && after.checkpoint.Some?
    requires PositionOf(after.checkpoint.value) == MarkOf(chain.logs[hi - 1].origin)
    requires after.checkpoint.value.hash == Some(chain.logs[hi - 1].blockHash)
    requires Left(after, env, chain, head) < Left(db, env, chain, head)
    ensures Brings(db, after, env, chain, head)
  {
    CoveredUpTo(chain.logs, hi - 1);
  }

  lemma RunBringsRows<P>(pr: Projector<P>, db: Db<P>, env: Env, chain: Chain, head: int, answer: seq<RawLog>)
    requires Valid(env) && ValidChain(chain, env.startBlock)
    requires db.checkpoint.Some? && CanRun(db, env, chain, head, answer)
    requires From(env, db.checkpoint) >= env.startBlock
    ensures Brings(db, SyncRun(pr, db, env, chain.hashAt, head, answer), env, chain, head)
  {
    var lo, to := FirstToFetch(env, chain, db.checkpoint), To(env, From(env, db.checkpoint), head);
    FetchedSlice(env, chain, db.checkpoint, head, answer);
    if lo == CountCovered(chain.logs, EndOf(to)) {
      EmptyBrings(db, env, chain, to, head);
    } else {
      SliceBrings(pr, db, env, chain, to, head, lo, CountCovered(chain.logs, EndOf(to)));
    }
  }

  lemma {:induction false} LastCommitted<P>(pr: Projector<P>, db: Db<P>, cursor: Object, logs: seq<Log>)
    requires logs != []
    ensures var c, l := CommitAll(pr, db, cursor, logs).checkpoint, logs[|logs| - 1];
            c.Some? && PositionOf(c.value) == MarkOf(l.origin) && c.value.hash == Some(l.blockHash)
    decreases |logs|
  {
    if |logs| > 1 {
      LastCommitted(pr, CommitLog(pr, db, cursor, logs[0]), NextCursor(pr, db.rows, cursor, logs[0]), logs[1..]);
    }
  }

  lemma HonestAnswer(env: Env, chain: Chain, c: Option<Checkpoint>, head: int) returns (answer: seq<RawLog>)
    ensures From(env, c) <= head ==> Answers(answer, chain.logs, From(env, c), To(env, From(env, c), head))
  {
    var logs := Filter(chain.logs, l => InRange(l, From(env, c), To(env, From(env, c), head)));
    answer := AnswerOf(logs);
    AnswerParses(logs);
  }

  /** One whole call on the way. */
  lemma OneCall<P>(pr: Projector<P>, w: World<P>, env: Env, chain: Chain, head: int, id: nat)
      returns (actions: seq<Action>)
    requires Valid(env) && ValidChain(chain, env.startBlock) && OnTheWay(w, env, chain, id) && AllUpTo(chain, head)
    requires FirstToFetch(env, chain, w.db.checkpoint) < |chain.logs|
    ensures OnTheWay(Run(pr, w, env, chain, actions), env, chain, id)
    ensures Brings(w.db, Run(pr, w, env, chain, actions).db, env, chain, head)
    ensures forall i | 0 <= i < |actions| :: actions[i].id == id
  {
    var c := w.db.checkpoint;
    UncoveredAhead(chain, PositionOf(c.value), head);
    GenuineUnmatched(c, chain, head);
    var answer := HonestAnswer(env, chain, c, head);
    actions := Whole(pr, w.db, env, chain, id, head, [], answer);
    WholeByOne(pr, w.db, env, chain, id, head, [], answer);
    CallIsRun(pr, w, env, chain, id, head, [], answer);
    RunBringsRows(pr, w.db, env, chain, head, answer);
  }

  lemma RowsMeet(rows: map<LogKey, LogRow>, logs: seq<Log>, a: nat, b: nat)
    requires a <= b <= |logs|
    ensures rows + TableOf(logs[a..b]) + TableOf(logs[b..]) == rows + TableOf(logs[a..])
  {
    assert logs[a..] == logs[a..b] + logs[b..];
    TableConcat(logs[a..b], logs[b..]);
  }

  /** One worker, call after call, reaches the chain's end and writes the rows of all logs on the way. */
  lemma {:induction false} RunToEnd<P>(pr: Projector<P>, w: World<P>, env: Env, chain: Chain, head: int, id: nat)
      returns (actions: seq<Action>)
    requires Valid(env) && ValidChain(chain, env.startBlock) && OnTheWay(w, env, chain, id) && AllUpTo(chain, head)
    ensures var after, c := Run(pr, w, env, chain, actions), FirstToFetch(env, chain, w.db.checkpoint);
            OnTheWay(after, env, chain, id) && c <= |chain.logs| &&
            after.db.rows == w.db.rows + TableOf(chain.logs[c..]) &&
            FirstToFetch(env, chain, after.db.checkpoint) == |chain.logs|
    ensures forall i | 0 <= i < |actions| :: actions[i].id == id
    decreases Left(w.db, env, chain, head)
  {
    var c := FirstToFetch(env, chain, w.db.checkpoint);
    CoveredPrefix(chain.logs, PositionOf(w.db.checkpoint.value));
    if c == |chain.logs| {
      actions := [];
      assert chain.logs[c..] == [] && w.db.rows + TableOf([]) == w.db.rows;
    } else {
      var first := OneCall(pr, w, env, chain, head, id);
      var next := Run(pr, w, env, chain, first);
      var rest := RunToEnd(pr, next, env, chain, head, id);
      actions := first + rest;
      RunConcat(pr, w, env, chain, first, rest);
      RowsMeet(w.db.rows, chain.logs, c, FirstToFetch(env, chain, next.db.checkpoint));
    }
  }

  // ---------------------------------------------------------------- The condition is enough

  lemma {:induction false} TableKeys(logs: seq<Log>, k: LogKey)
    ensures k in TableOf(logs) <==> exists i :: 0 <= i < |logs| && KeyOf(logs[i].origin) == k
  {
    if logs != [] {
      var n := |logs| - 1;
      TableKeys(logs[..n], k);
      if i :| 0 <= i < |logs| && KeyOf(logs[i].origin) == k && i < n {
        assert KeyOf(logs[..n][i].origin) == k;
      }
      if i :| 0 <= i < n && KeyOf(logs[..n][i].origin) == k {
        assert KeyOf(logs[i].origin) == k;
      }
    }
  }

  lemma RestKeys(logs: seq<Log>, r: nat, k: LogKey)
    requires r <= |logs|
    ensures k in TableOf(logs[r..]) <==> exists i: nat :: r <= i < |logs| && KeyOf(logs[i].origin) == k
  {
    TableKeys(logs[r..], k);
    if i: nat :| r <= i < |logs| && KeyOf(logs[i].origin) == k {
      assert KeyOf(logs[r..][i - r].origin) == k;
    }
    if j :| 0 <= j < |logs| - r && KeyOf(logs[r..][j].origin) == k {
      assert KeyOf(logs[r + j].origin) == k;
    }
  }

  /** The rows of the first logs and of the rest make up the whole table. */
  lemma InRest(chain: Chain, start: int, r: nat, i: nat)
    requires ValidChain(chain, start) && r <= |chain.logs| && i < |chain.logs|
    ensures var k, rest, all := KeyOf(chain.logs[i].origin), TableOf(chain.logs[r..]), TableOf(chain.logs);
            (k in rest <==> r <= i) && k in all && all[k] == RowOf(chain.logs[i]) && (k in rest ==> rest[k] == all[k])
  {
    var rest, k := chain.logs[r..], KeyOf(chain.logs[i].origin);
    assert chain.logs[..r] + rest == chain.logs && chain.logs[..|chain.logs|] == chain.logs;
    TableConcat(chain.logs[..r], rest);
    InTable(chain, |chain.logs|, start, i);
    RestKeys(chain.logs, r, k);
    assert forall j: nat | i < j < |chain.logs| :: KeyOf(chain.logs[i].origin) != KeyOf(chain.logs[j].origin);
  }

  lemma CompleteAt(rows: map<LogKey, LogRow>, retained: seq<StoredLog>, chain: Chain, start: int, rewindFrom: int,
                   r: nat, i: nat)
    requires ValidChain(chain, start) && r == Recovered(chain, retained, start) <= |chain.logs| && i < |chain.logs|
    requires IsRetained(retained, rows, start, rewindFrom) && Coverable(retained, chain, start)
    ensures var k, rest := KeyOf(chain.logs[i].origin), TableOf(chain.logs[r..]);
            k in rows + rest && (rows + rest)[k] == RowOf(chain.logs[i]) && k in TableOf(chain.logs) &&
            TableOf(chain.logs)[k] == RowOf(chain.logs[i])
  {
    InRest(chain, start, r, i);
    if i < r {
      assert Stored(chain.logs[i]) in retained;
    }
  }

  lemma OnlyChainKeys(rows: map<LogKey, LogRow>, retained: seq<StoredLog>, chain: Chain, start: int, r: nat, k: LogKey)
    requires Coverable(retained, chain, start) && r <= |chain.logs|
    requires k in rows + TableOf(chain.logs[r..]) && k.logIndex >= 0
    requires k in rows ==> StoredLog(k, rows[k]) in retained
    ensures exists i: nat :: i < |chain.logs| && KeyOf(chain.logs[i].origin) == k
  {
    RestKeys(chain.logs, r, k);
    if k in rows {
      var j :| 0 <= j < |retained| && retained[j] == StoredLog(k, rows[k]);
      assert !IsStale(retained[j].key, chain);
    }
  }

  /** The rows of all logs behind the retained ones, over the retained rows, are the whole chain's. */
  lemma RowsComplete(rows: map<LogKey, LogRow>, retained: seq<StoredLog>, chain: Chain, start: int, rewindFrom: int,
                     r: nat)
    requires ValidChain(chain, start) && r == Recovered(chain, retained, start) <= |chain.logs|
    requires IsRetained(retained, rows, start, rewindFrom) && Coverable(retained, chain, start)
    requires forall k | k in rows && k.logIndex >= 0 :: StoredLog(k, rows[k]) in retained
    ensures Mined(rows + TableOf(chain.logs[r..])) == TableOf(chain.logs)
  {
    var all, sum := TableOf(chain.logs), rows + TableOf(chain.logs[r..]);
    forall k
      ensures k in sum && k.logIndex >= 0 <==> k in all
      ensures k in all ==> sum[k] == all[k]
    {
      CompleteKey(rows, retained, chain, start, rewindFrom, r, k);
    }
  }

  lemma CompleteKey(rows: map<LogKey, LogRow>, retained: seq<StoredLog>, chain: Chain, start: int, rewindFrom: int,
                    r: nat, k: LogKey)
    requires ValidChain(chain, start) && r == Recovered(chain, retained, start) <= |chain.logs|
    requires IsRetained(retained, rows, start, rewindFrom) && Coverable(retained, chain, start)
    requires k in rows && k.logIndex >= 0 ==> StoredLog(k, rows[k]) in retained
    ensures var all, sum := TableOf(chain.logs), rows + TableOf(chain.logs[r..]);
            (k in sum && k.logIndex >= 0 <==> k in all) && (k in all ==> sum[k] == all[k])
  {
    TableKeys(chain.logs, k);
    if i :| 0 <= i < |chain.logs| && KeyOf(chain.logs[i].origin) == k {
      CompleteAt(rows, retained, chain, start, rewindFrom, r, i);
    } else if k in rows + TableOf(chain.logs[r..]) && k.logIndex >= 0 {
      OnlyChainKeys(rows, retained, chain, start, r, k);
    }
  }

  lemma KeptAreRetained<P>(db: Db<P>, env: Env, was: Chain, n: nat, lastBlock: int, retained: seq<StoredLog>, k: LogKey)
    requires Rewinds(db, env, was, n, lastBlock, retained)
    requires k in Kept(db.rows, RewindFrom(env, lastBlock)) && k.logIndex >= 0
    ensures StoredLog(k, Kept(db.rows, RewindFrom(env, lastBlock))[k]) in retained
  {
    var rewindFrom := RewindFrom(env, lastBlock);
    var m, rows := Below(was, n, rewindFrom), Kept(db.rows, rewindFrom);
    RetainedOfOld(db, env, was, n, lastBlock, retained);
    assert k in Mined(rows);
    TableListsRows(was, env.startBlock, m, k);
    assert IsReplayed(rows[k], env.startBlock, rewindFrom);
  }

  function LastBlockOf(logs: seq<Log>, start: int): int {
    if logs == [] then start else logs[|logs| - 1].origin.block
  }

  lemma LastIsHead(chain: Chain, start: int)
    requires ValidChain(chain, start)
    ensures AllUpTo(chain, LastBlockOf(chain.logs, start))
  {
    forall i | 0 <= i < |chain.logs| ensures chain.logs[i].origin.block <= LastBlockOf(chain.logs, start) {
      assert i < |chain.logs| - 1 ==> Before(chain.logs[i].origin, chain.logs[|chain.logs| - 1].origin);
    }
  }

  lemma StaysMarked(rows: map<LogKey, LogRow>, chain: Chain, start: int, r: nat)
    requires ValidChain(chain, start) && r <= |chain.logs| && SyntheticMarked(rows)
    ensures SyntheticMarked(rows + TableOf(chain.logs[r..]))
  {
    forall k | k in rows + TableOf(chain.logs[r..]) && k.logIndex < 0 ensures k !in TableOf(chain.logs[r..]) {
      RestKeys(chain.logs, r, k);
    }
  }

  lemma RewoundOnTheWay<P>(pr: Projector<P>, db: Db<P>, env: Env, lastBlock: int, retained: seq<StoredLog>,
                          chain: Chain)
    requires Valid(env) && Queried(retained, db.rows, env.startBlock, RewindFrom(env, lastBlock))
    ensures var start := Rewind(pr, db, retained, env.startBlock, RewindFrom(env, lastBlock));
            OnTheWay(World(start, [], map[]), env, chain, 0) &&
            FirstToFetch(env, chain, start.checkpoint) == Recovered(chain, retained, env.startBlock)
  {
    RewindLeavesNoGap(pr, db, env, lastBlock, retained);
  }

  lemma EndSynced<P>(db: Db<P>, env: Env, chain: Chain)
    requires ValidChain(chain, env.startBlock) && OnTheWay(World(db, [], map[]), env, chain, 0)
    requires Mined(db.rows) == TableOf(chain.logs) && SyntheticMarked(db.rows)
    ensures Synced(db, chain, |chain.logs|, env.startBlock)
  {
    CoveredPrefix(chain.logs, PositionOf(db.checkpoint.value));
    assert chain.logs[..|chain.logs|] == chain.logs;
  }

  /** Under the condition one worker's calls bring the database into step with the whole chain. */
  lemma CoverableHeals<P>(pr: Projector<P>, db: Db<P>, env: Env, was: Chain, n: nat, lastBlock: int,
                          retained: seq<StoredLog>, chain: Chain) returns (actions: seq<Action>)
    requires Rewinds(db, env, was, n, lastBlock, retained) && ValidChain(chain, env.startBlock)
    requires Coverable(retained, chain, env.startBlock)
    ensures var start := Rewind(pr, db, retained, env.startBlock, RewindFrom(env, lastBlock));
            Synced(Run(pr, World(start, [], map[]), env, chain, actions).db, chain, |chain.logs|, env.startBlock)
  {
    var rewindFrom, r := RewindFrom(env, lastBlock), Recovered(chain, retained, env.startBlock);
    var start := Rewind(pr, db, retained, env.startBlock, rewindFrom);
    RewoundOnTheWay(pr, db, env, lastBlock, retained, chain);
    LastIsHead(chain, env.startBlock);
    actions := RunToEnd(pr, World(start, [], map[]), env, chain, LastBlockOf(chain.logs, env.startBlock), 0);
    RetainedOfOld(db, env, was, n, lastBlock, retained);
    forall k | k in start.rows && k.logIndex >= 0 ensures StoredLog(k, start.rows[k]) in retained {
      KeptAreRetained(db, env, was, n, lastBlock, retained, k);
    }
    RowsComplete(start.rows, retained, chain, env.startBlock, rewindFrom, r);
    StaysMarked(start.rows, chain, env.startBlock, r);
    EndSynced(Run(pr, World(start, [], map[]), env, chain, actions).db, env, chain);
  }

  /** Some run on the chain ends in step with it. */
  ghost predicate CanHeal<P>(pr: Projector<P>, start: Db<P>, env: Env, chain: Chain) {
    exists actions: seq<Action>, k: nat ::
      Synced(Run(pr, World(start, [], map[]), env, chain, actions).db, chain, k, env.startBlock)
  }

  /** After a rewind, deep enough or not, the database can still come into step with the chain exactly when
      every chain log up to the last retained row is retained, and every retained row's key is a chain log's. */
  lemma HealsIff<P>(pr: Projector<P>, db: Db<P>, env: Env, was: Chain, n: nat, lastBlock: int,
                    retained: seq<StoredLog>, chain: Chain)
    requires Rewinds(db, env, was, n, lastBlock, retained) && ValidChain(chain, env.startBlock)
    ensures CanHeal(pr, Rewind(pr, db, retained, env.startBlock, RewindFrom(env, lastBlock)), env, chain) <==>
            Coverable(retained, chain, env.startBlock)
  {
    var start := Rewind(pr, db, retained, env.startBlock, RewindFrom(env, lastBlock));
    if actions: seq<Action>, k: nat :|
         Synced(Run(pr, World(start, [], map[]), env, chain, actions).db, chain, k, env.startBlock)
    {
      HealedIsCoverable(pr, db, env, was, n, lastBlock, retained, chain, actions, k);
    }
    if Coverable(retained, chain, env.startBlock) {
      var actions := CoverableHeals(pr, db, env, was, n, lastBlock, retained, chain);
    }
  }

  /** The old log mined again two blocks later. */
  function MinedAgain(l: Log): Chain {
    Chain([l.(origin := l.origin.(block := 3), blockHash := 1)], (b: int) => 1)
  }

  /** An input on which the rewind leaves the database in step with no prefix of the new chain, and which
      heals nevertheless. */
  lemma MinedAgainHeals<P>(pr: Projector<P>, l: Log, projections: P, n: nat)
    requires InBlockOne(l)
    ensures var start := Rewind(pr, Behind(l, projections), [Stored(l)], 1, 2);
            Rewinds(Behind(l, projections), SHALLOW, OldChain(l), 1, 3, [Stored(l)]) && ValidChain(MinedAgain(l), 1) &&
            Mismatch(Behind(l, projections).checkpoint, MinedAgain(l).hashAt, 3) &&
            !Synced(start, MinedAgain(l), n, 1) && CanHeal(pr, start, SHALLOW, MinedAgain(l))
  {
    var db, chain := Behind(l, projections), MinedAgain(l);
    BehindSynced(l, projections);
    BehindQueried(l, projections);
    CoveredPrefix(chain.logs, EndOf(1));
    assert KeyOf(chain.logs[0].origin) == Stored(l).key;
    assert StoredLogs(chain.logs[..0]) == [];
    RewindRecoversIff(pr, db, SHALLOW, OldChain(l), 1, 3, [Stored(l)], chain, n);
    HealsIff(pr, db, SHALLOW, OldChain(l), 1, 3, [Stored(l)], chain);
  }
}

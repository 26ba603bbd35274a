/** Rewinding after a chain reorganisation (event-sync-service.ts, `rewindAndRebuildProjections`). */
module Reorg {
  import opened Governance
  import opened ProjectionTables
  import opened SyncLog
  import opened SyncState
  import opened SyncWorkers

  /** The rows a rewind of this checkpoint keeps, and its query over them. */
  ghost predicate Queried(retained: seq<StoredLog>, rows: map<LogKey, LogRow>, start: int, rewindFrom: int) {
    IsRetained(retained, Kept(rows, rewindFrom), start, rewindFrom)
  }

  lemma {:induction false} LastIsLatest(retained: seq<StoredLog>, rows: map<LogKey, LogRow>, start: int,
                                        rewindFrom: int, k: LogKey)
    requires start >= 1 && IsRetained(retained, rows, start, rewindFrom)
    requires k in rows && IsReplayed(rows[k], start, rewindFrom)
    ensures rows[k].block <= RebuiltTo(retained, start)
  {
  }

  /** After a rewind every stored chain row lies strictly below the next block to fetch, and that block is
      neither before the start nor beyond the rewind point. */
  lemma RewindLeavesNoGap<P>(pr: Projector<P>, db: Db<P>, env: Env, lastBlock: int, retained: seq<StoredLog>)
    requires Valid(env) && Queried(retained, db.rows, env.startBlock, RewindFrom(env, lastBlock))
    ensures var rewindFrom := RewindFrom(env, lastBlock);
            var after := Rewind(pr, db, retained, env.startBlock, rewindFrom);
            var next := From(env, after.checkpoint);
            env.startBlock <= next <= rewindFrom &&
            (lastBlock >= env.startBlock ==> rewindFrom <= lastBlock) &&
            forall k | k in after.rows && after.rows[k].source == ChainEvent :: after.rows[k].block < next
  {
  }

  // ---------------------------------------------------------------- The rebuild's query

  predicate Sorted(s: seq<StoredLog>) {
    forall i, j | 0 <= i < j < |s| :: s[i] != s[j] && StoredInOrder(s[i], s[j])
  }

  predicate StrictlySorted(s: seq<StoredLog>) {
    forall i, j | 0 <= i < j < |s| :: !StoredInOrder(s[j], s[i]) && StoredInOrder(s[i], s[j])
  }

  ghost predicate SameElements(a: seq<StoredLog>, b: seq<StoredLog>) {
    forall x :: x in a <==> x in b
  }

  lemma BothEmpty(a: seq<StoredLog>, b: seq<StoredLog>)
    requires SameElements(a, b)
    ensures a == [] <==> b == []
  {
    assert a != [] ==> a[0] in a;
    assert b != [] ==> b[0] in b;
  }

  lemma SameHead(a: seq<StoredLog>, b: seq<StoredLog>)
    requires Sorted(a) && StrictlySorted(b) && SameElements(a, b) && a != [] && b != []
    ensures a[0] == b[0]
  {
    assert b[0] in b && a[0] in a;
    var i :| 0 <= i < |a| && a[i] == b[0];
    var j :| 0 <= j < |b| && b[j] == a[0];
  }

  lemma TailElements(a: seq<StoredLog>, b: seq<StoredLog>)
    requires Sorted(a) && Sorted(b) && SameElements(a, b) && a != [] && b != [] && a[0] == b[0]
    ensures SameElements(a[1..], b[1..])
  {
    forall x ensures x in a[1..] <==> x in b[1..] {
      assert x in a[1..] <==> x in a && x != a[0] by { TailWithout(a, x); }
      assert x in b[1..] <==> x in b && x != b[0] by { TailWithout(b, x); }
    }
  }

  lemma TailWithout(a: seq<StoredLog>, x: StoredLog)
    requires Sorted(a) && a != []
    ensures x in a[1..] <==> x in a && x != a[0]
  {
  }

  lemma {:induction false} SortedUnique(a: seq<StoredLog>, b: seq<StoredLog>)
    requires Sorted(a) && StrictlySorted(b) && SameElements(a, b)
    ensures a == b
  {
    BothEmpty(a, b);
    if a != [] {
      SameHead(a, b);
      TailElements(a, b);
      assert forall i | 0 <= i < |a| - 1 :: a[1..][i] == a[i + 1];
      assert forall i | 0 <= i < |b| - 1 :: b[1..][i] == b[i + 1];
      SortedUnique(a[1..], b[1..]);
      assert a == [a[0]] + a[1..] && b == [b[0]] + b[1..];
    }
  }

  lemma LogsSorted(chain: Chain, start: int, n: nat)
    requires ValidChain(chain, start) && n <= |chain.logs|
    ensures StrictlySorted(StoredLogs(chain.logs[..n]))
  {
  }

  lemma {:induction false} TableListsRows(chain: Chain, start: int, n: nat, k: LogKey)
    requires ValidChain(chain, start) && n <= |chain.logs|
    ensures k in TableOf(chain.logs[..n]) ==>
              exists i :: 0 <= i < n && Stored(chain.logs[i]) == StoredLog(k, TableOf(chain.logs[..n])[k])
  {
    if n > 0 && k in TableOf(chain.logs[..n]) {
      assert chain.logs[..n][..n - 1] == chain.logs[..n - 1];
      if k == KeyOf(chain.logs[n - 1].origin) {
        assert Stored(chain.logs[n - 1]) == StoredLog(k, TableOf(chain.logs[..n])[k]);
      } else {
        TableListsRows(chain, start, n - 1, k);
      }
    }
  }

  /** The query's rows are the stored forms of a prefix of the chain, when the table holds that prefix below
      the rewind point. */
  lemma RetainedIsPrefix(retained: seq<StoredLog>, rows: map<LogKey, LogRow>, chain: Chain, n: nat, start: int,
                         rewindFrom: int)
    requires ValidChain(chain, start) && n <= |chain.logs|
    requires Mined(rows) == TableOf(chain.logs[..n]) && SyntheticMarked(rows)
    requires forall i | 0 <= i < n :: chain.logs[i].origin.block < rewindFrom
    requires IsRetained(retained, rows, start, rewindFrom)
    ensures retained == StoredLogs(chain.logs[..n])
  {
    var s := StoredLogs(chain.logs[..n]);
    LogsSorted(chain, start, n);
    forall x ensures x in retained <==> x in s {
      if x in retained {
        assert x.key in Mined(rows);
        TableListsRows(chain, start, n, x.key);
        var i :| 0 <= i < n && Stored(chain.logs[i]) == StoredLog(x.key, TableOf(chain.logs[..n])[x.key]);
        assert s[i] == x;
      }
      if x in s {
        var i :| 0 <= i < n && s[i] == x;
        InTable(chain, n, start, i);
        assert x.key in Mined(rows) && rows[x.key] == x.row;
      }
    }
    SortedUnique(retained, s);
  }

  // ---------------------------------------------------------------- When a rewind is enough

  /** The chain's logs up to the last retained row. */
  function Recovered(chain: Chain, retained: seq<StoredLog>, start: int): nat {
    CountCovered(chain.logs, EndOf(RebuiltTo(retained, start)))
  }

  /** A database in step with the old chain, and the rewind its checkpoint leads to. */
  ghost predicate Rewinds<P>(db: Db<P>, env: Env, was: Chain, n: nat, lastBlock: int, retained: seq<StoredLog>) {
    Valid(env) && ValidChain(was, env.startBlock) && Synced(db, was, n, env.startBlock) &&
    Queried(retained, db.rows, env.startBlock, RewindFrom(env, lastBlock))
  }

  /** How many of the first `n` logs lie below a block. */
  function Below(chain: Chain, n: nat, block: int): nat {
    if CountCovered(chain.logs, EndOf(block - 1)) < n then CountCovered(chain.logs, EndOf(block - 1)) else n
  }

  lemma {:induction false} KeptTable(chain: Chain, start: int, n: nat, rewindFrom: int, k: LogKey)
    requires ValidChain(chain, start) && n <= |chain.logs|
    ensures k in TableOf(chain.logs[..n]) && TableOf(chain.logs[..n])[k].block < rewindFrom <==>
            k in TableOf(chain.logs[..Below(chain, n, rewindFrom)])
    ensures k in TableOf(chain.logs[..Below(chain, n, rewindFrom)]) ==>
            k in TableOf(chain.logs[..n]) &&
            TableOf(chain.logs[..Below(chain, n, rewindFrom)])[k] == TableOf(chain.logs[..n])[k]
  {
    var m := Below(chain, n, rewindFrom);
    CoveredPrefix(chain.logs, EndOf(rewindFrom - 1));
    TableListsRows(chain, start, n, k);
    TableListsRows(chain, start, m, k);
    if k in TableOf(chain.logs[..n]) {
      var i :| 0 <= i < n && Stored(chain.logs[i]) == StoredLog(k, TableOf(chain.logs[..n])[k]);
      InTable(chain, m, start, i);
    }
    if k in TableOf(chain.logs[..m]) {
      var i :| 0 <= i < m && Stored(chain.logs[i]) == StoredLog(k, TableOf(chain.logs[..m])[k]);
      InTable(chain, n, start, i);
    }
  }

  lemma {:induction false} TableRowsAreEvents(logs: seq<Log>)
    ensures forall k | k in TableOf(logs) :: TableOf(logs)[k].source == ChainEvent
  {
    if logs != [] {
      TableRowsAreEvents(logs[..|logs| - 1]);
    }
  }

  /** What a rewind keeps of the log table: the rows of the logs below the rewind point. */
  lemma KeptRows(rows: map<LogKey, LogRow>, chain: Chain, n: nat, start: int, rewindFrom: int)
    requires ValidChain(chain, start) && n <= |chain.logs|
    requires Mined(rows) == TableOf(chain.logs[..n]) && SyntheticMarked(rows)
    ensures Mined(Kept(rows, rewindFrom)) == TableOf(chain.logs[..Below(chain, n, rewindFrom)])
    ensures SyntheticMarked(Kept(rows, rewindFrom))
  {
    var m := Below(chain, n, rewindFrom);
    TableRowsAreEvents(chain.logs[..n]);
    forall k
      ensures k in Mined(Kept(rows, rewindFrom)) <==> k in TableOf(chain.logs[..m])
      ensures k in TableOf(chain.logs[..m]) ==> rows[k] == TableOf(chain.logs[..m])[k]
    {
      KeptTable(chain, start, n, rewindFrom, k);
      assert k in Mined(rows) <==> k in TableOf(chain.logs[..n]);
      assert k in Mined(rows) ==> Mined(rows)[k] == rows[k];
    }
  }

  /** The table depends on the stored form of its logs only. */
  lemma {:induction false} TableByStored(a: seq<Log>, b: seq<Log>)
    requires StoredLogs(a) == StoredLogs(b)
    ensures TableOf(a) == TableOf(b)
  {
    assert |StoredLogs(a)| == |a| && |StoredLogs(b)| == |b|;
    if a != [] {
      var n := |a| - 1;
      assert StoredLogs(a)[n] == Stored(a[n]) && StoredLogs(b)[n] == Stored(b[n]);
      assert StoredLogs(a)[..n] == StoredLogs(a[..n]) && StoredLogs(b)[..n] == StoredLogs(b[..n]);
      TableByStored(a[..n], b[..n]);
    }
  }

  lemma RetainedOfOld<P>(db: Db<P>, env: Env, was: Chain, n: nat, lastBlock: int, retained: seq<StoredLog>)
    requires Rewinds(db, env, was, n, lastBlock, retained)
    ensures var m, rows := Below(was, n, RewindFrom(env, lastBlock)), Kept(db.rows, RewindFrom(env, lastBlock));
            m <= |was.logs| && retained == StoredLogs(was.logs[..m]) && Mined(rows) == TableOf(was.logs[..m]) &&
            SyntheticMarked(rows)
  {
    var rewindFrom := RewindFrom(env, lastBlock);
    CoveredPrefix(was.logs, EndOf(rewindFrom - 1));
    KeptRows(db.rows, was, n, env.startBlock, rewindFrom);
    RetainedIsPrefix(retained, Kept(db.rows, rewindFrom), was, Below(was, n, rewindFrom), env.startBlock, rewindFrom);
  }

  lemma RewindSufficient<P>(pr: Projector<P>, db: Db<P>, env: Env, was: Chain, n: nat, lastBlock: int,
                            retained: seq<StoredLog>, chain: Chain)
    requires Rewinds(db, env, was, n, lastBlock, retained) && ValidChain(chain, env.startBlock)
    requires Recovered(chain, retained, env.startBlock) <= |chain.logs|
    requires retained == StoredLogs(chain.logs[..Recovered(chain, retained, env.startBlock)])
    ensures Synced(Rewind(pr, db, retained, env.startBlock, RewindFrom(env, lastBlock)), chain,
                   Recovered(chain, retained, env.startBlock), env.startBlock)
  {
    RetainedOfOld(db, env, was, n, lastBlock, retained);
    TableByStored(was.logs[..Below(was, n, RewindFrom(env, lastBlock))],
                  chain.logs[..Recovered(chain, retained, env.startBlock)]);
    RewindLeavesNoGap(pr, db, env, lastBlock, retained);
  }

  lemma RewindNecessary<P>(pr: Projector<P>, db: Db<P>, env: Env, was: Chain, n: nat, lastBlock: int,
                           retained: seq<StoredLog>, chain: Chain, k: nat)
    requires Rewinds(db, env, was, n, lastBlock, retained) && ValidChain(chain, env.startBlock)
    requires Synced(Rewind(pr, db, retained, env.startBlock, RewindFrom(env, lastBlock)), chain, k, env.startBlock)
    ensures k == Recovered(chain, retained, env.startBlock) && retained == StoredLogs(chain.logs[..k])
  {
    var rewindFrom := RewindFrom(env, lastBlock);
    var rows := Kept(db.rows, rewindFrom);
    TableRowsAreEvents(chain.logs[..k]);
    forall i | 0 <= i < k
      ensures chain.logs[i].origin.block < rewindFrom &&
              chain.logs[i].origin.block <= RebuiltTo(retained, env.startBlock)
    {
      InTable(chain, k, env.startBlock, i);
      assert KeyOf(chain.logs[i].origin) in Mined(rows);
      LastIsLatest(retained, rows, env.startBlock, rewindFrom, KeyOf(chain.logs[i].origin));
    }
    CoveredPrefix(chain.logs, EndOf(RebuiltTo(retained, env.startBlock)));
    if k > 0 {
      assert Covers(EndOf(RebuiltTo(retained, env.startBlock)), chain.logs[k - 1].origin);
    }
    RetainedIsPrefix(retained, rows, chain, k, env.startBlock, rewindFrom);
  }

  /** A rewind brings the database back in step with the chain exactly when the retained rows are the
      stored forms of all the new chain's logs up to the last of them; otherwise it is in step with no
      prefix of it. */
  lemma RewindRecoversIff<P>(pr: Projector<P>, db: Db<P>, env: Env, was: Chain, n: nat, lastBlock: int,
                             retained: seq<StoredLog>, chain: Chain, k: nat)
    requires Rewinds(db, env, was, n, lastBlock, retained) && ValidChain(chain, env.startBlock)
    ensures Synced(Rewind(pr, db, retained, env.startBlock, RewindFrom(env, lastBlock)), chain, k, env.startBlock) <==>
            k == Recovered(chain, retained, env.startBlock) && k <= |chain.logs| &&
            retained == StoredLogs(chain.logs[..k])
  {
    if Synced(Rewind(pr, db, retained, env.startBlock, RewindFrom(env, lastBlock)), chain, k, env.startBlock) {
      RewindNecessary(pr, db, env, was, n, lastBlock, retained, chain, k);
    }
    if k == Recovered(chain, retained, env.startBlock) && k <= |chain.logs| && retained == StoredLogs(chain.logs[..k]) {
      RewindSufficient(pr, db, env, was, n, lastBlock, retained, chain);
    }
  }

  /** The two chains have the same supported logs below a block. */
  predicate AgreeBelow(was: Chain, chain: Chain, block: int) {
    var m := CountCovered(was.logs, EndOf(block - 1));
    m == CountCovered(chain.logs, EndOf(block - 1)) && m <= |was.logs| && m <= |chain.logs| &&
    was.logs[..m] == chain.logs[..m]
  }

  /** So it is enough that the chains agree below the rewind point of the checkpoint. */
  lemma RewindRecovers<P>(pr: Projector<P>, db: Db<P>, env: Env, was: Chain, n: nat, retained: seq<StoredLog>,
                          chain: Chain) returns (m: nat)
    requires db.checkpoint.Some? && db.checkpoint.value.hash.Some?
    requires Rewinds(db, env, was, n, db.checkpoint.value.block, retained) && ValidChain(chain, env.startBlock)
    requires AgreeBelow(was, chain, RewindFrom(env, db.checkpoint.value.block))
    ensures m == CountCovered(chain.logs, EndOf(RewindFrom(env, db.checkpoint.value.block) - 1)) <= |chain.logs|
    ensures m <= n <= |was.logs| && was.logs[..m] == chain.logs[..m]
    ensures retained == StoredLogs(chain.logs[..m])
    ensures Synced(Rewind(pr, db, retained, env.startBlock, RewindFrom(env, db.checkpoint.value.block)), chain, m,
                   env.startBlock)
    ensures m == Recovered(chain, retained, env.startBlock)
  {
    var rewindFrom := RewindFrom(env, db.checkpoint.value.block);
    m := CountCovered(chain.logs, EndOf(rewindFrom - 1));
    CoveredMonotone(was.logs, EndOf(rewindFrom - 1), PositionOf(db.checkpoint.value));
    RetainedOfOld(db, env, was, n, db.checkpoint.value.block, retained);
    assert m == Below(was, n, rewindFrom);
    RecoveredCount(chain, retained, env, rewindFrom, m);
    RewindSufficient(pr, db, env, was, n, db.checkpoint.value.block, retained, chain);
  }

  lemma RecoveredCount(chain: Chain, retained: seq<StoredLog>, env: Env, rewindFrom: int, m: nat)
    requires Valid(env) && ValidChain(chain, env.startBlock) && m <= |chain.logs|
    requires retained == StoredLogs(chain.logs[..m]) && m == CountCovered(chain.logs, EndOf(rewindFrom - 1))
    ensures Recovered(chain, retained, env.startBlock) == m
  {
    CoveredPrefix(chain.logs, EndOf(rewindFrom - 1));
    CoveredPrefix(chain.logs, EndOf(RebuiltTo(retained, env.startBlock)));
    assert |retained| == m;
    if m > 0 {
      assert RebuiltTo(retained, env.startBlock) == chain.logs[m - 1].origin.block;
      assert Covers(EndOf(rewindFrom - 1), chain.logs[m - 1].origin);
      CoveredMonotone(chain.logs, MarkOf(chain.logs[m - 1].origin), EndOf(RebuiltTo(retained, env.startBlock)));
      CoveredMonotone(chain.logs, EndOf(RebuiltTo(retained, env.startBlock)), EndOf(rewindFrom - 1));
      CoveredUpTo(chain.logs, m - 1);
    } else {
      SentinelCoversNothing(chain, env.startBlock);
    }
  }

  /** A database whose checkpoint's block was replaced, while both chains agree below its rewind point. */
  ghost predicate Reorged<P>(db: Db<P>, env: Env, was: Chain, n: nat, retained: seq<StoredLog>, chain: Chain) {
    db.checkpoint.Some? && db.checkpoint.value.hash.Some? &&
    Rewinds(db, env, was, n, db.checkpoint.value.block, retained) && ValidChain(chain, env.startBlock) &&
    AgreeBelow(was, chain, RewindFrom(env, db.checkpoint.value.block))
  }

  function Rewound<P>(pr: Projector<P>, db: Db<P>, env: Env, retained: seq<StoredLog>): Db<P>
    requires db.checkpoint.Some?
  {
    Rewind(pr, db, retained, env.startBlock, RewindFrom(env, db.checkpoint.value.block))
  }

  /** The logs of both chains below the rewind point of the checkpoint. */
  function Common<P>(db: Db<P>, env: Env, chain: Chain): nat
    requires db.checkpoint.Some?
  {
    CountCovered(chain.logs, EndOf(RewindFrom(env, db.checkpoint.value.block) - 1))
  }
}

/** The order of logs, checkpoint positions, and the fetch of one batch (event-sync-service.ts). */
module SyncLog {
  import opened Basics
  import opened Events
  import opened Governance
  import opened ProjectionTables

  predicate Before(a: Origin, b: Origin) {
    a.block < b.block || (a.block == b.block && a.logIndex < b.logIndex)
  }

  /** A chain's supported logs from the start block on, in (block, logIndex) order. */
  predicate Chronological(logs: seq<Log>) {
    forall i, j | 0 <= i < j < |logs| :: Before(logs[i].origin, logs[j].origin)
  }

  /** A checkpoint's position. Without a log index it is past the whole block. */
  datatype Mark = Mark(block: int, logIndex: Option<int>)

  predicate Covers(m: Mark, o: Origin) {
    o.block < m.block || (o.block == m.block && (m.logIndex.None? || o.logIndex <= m.logIndex.value))
  }

  /** Lexicographic order with the missing log index on top. */
  predicate MarkBefore(a: Mark, b: Mark) {
    a.block < b.block ||
    (a.block == b.block && a.logIndex.Some? && (b.logIndex.None? || a.logIndex.value < b.logIndex.value))
  }

  function MarkOf(o: Origin): Mark { Mark(o.block, Some(o.logIndex)) }

  function EndOf(block: int): Mark { Mark(block, None) }

  /** `deriveCursor` on a present checkpoint. */
  function FromBlock(m: Mark): int {
    if m.logIndex.None? then m.block + 1 else m.block
  }

  /** How many leading logs a position covers. */
  function CountCovered(logs: seq<Log>, m: Mark): nat {
    if logs == [] || !Covers(m, logs[0].origin) then 0 else 1 + CountCovered(logs[1..], m)
  }

  lemma {:induction false} CoveredPrefix(logs: seq<Log>, m: Mark)
    requires Chronological(logs)
    ensures CountCovered(logs, m) <= |logs|
    ensures forall i | 0 <= i < |logs| :: Covers(m, logs[i].origin) <==> i < CountCovered(logs, m)
  {
    if logs != [] {
      CoveredPrefix(logs[1..], m);
      assert forall i | 1 <= i < |logs| :: logs[i] == logs[1..][i - 1];
      if !Covers(m, logs[0].origin) {
        forall i | 1 <= i < |logs| ensures !Covers(m, logs[i].origin) {
          assert Before(logs[0].origin, logs[i].origin);
        }
      }
    }
  }

  /** The position right after log `i` covers exactly the logs up to it. */
  lemma CoveredUpTo(logs: seq<Log>, i: nat)
    requires Chronological(logs) && i < |logs|
    ensures CountCovered(logs, MarkOf(logs[i].origin)) == i + 1
  {
    var m := MarkOf(logs[i].origin);
    CoveredPrefix(logs, m);
    assert Covers(m, logs[i].origin);
    if i + 1 < |logs| {
      assert Before(logs[i].origin, logs[i + 1].origin);
      assert !Covers(m, logs[i + 1].origin);
    }
  }

  lemma CoveredMonotone(logs: seq<Log>, a: Mark, b: Mark)
    requires Chronological(logs) && (a == b || MarkBefore(a, b))
    ensures CountCovered(logs, a) <= CountCovered(logs, b)
  {
  }

  // ---------------------------------------------------------------- The fetch

  /** A log as the node returns it; `decoded` is missing when it does not decode to a supported event. */
  datatype RawLog = RawLog(origin: Origin, blockHash: nat, time: int, decoded: Option<(EventName, Args)>)

  function ParseSupported(raw: RawLog): Option<Log> {
    if raw.decoded.None? then None
    else Some(Log(raw.origin, raw.blockHash, raw.time, raw.decoded.value.0, raw.decoded.value.1))
  }

  function ParseAll(raws: seq<RawLog>): seq<Log> {
    if raws == [] then []
    else
      var log := ParseSupported(raws[0]);
      (if log.Some? then [log.value] else []) + ParseAll(raws[1..])
  }

  function InsertLog(l: Log, logs: seq<Log>): seq<Log> {
    if logs == [] then [l]
    else if !Before(logs[0].origin, l.origin) then [l] + logs
    else [logs[0]] + InsertLog(l, logs[1..])
  }

  function SortLogs(logs: seq<Log>): seq<Log> {
    if logs == [] then [] else InsertLog(logs[0], SortLogs(logs[1..]))
  }

  /** The filter on the checkpoint's own block. */
  predicate PastCursor(cursor: Option<Mark>, l: Log) {
    cursor.None? || cursor.value.logIndex.None? || l.origin.block != cursor.value.block ||
    l.origin.logIndex > cursor.value.logIndex.value
  }

  /** `fetchSupportedLogs` on the node's answer for the block range. */
  function FetchSupportedLogs(answer: seq<RawLog>, cursor: Option<Mark>): seq<Log> {
    SortLogs(Filter(ParseAll(answer), l => PastCursor(cursor, l)))
  }

  predicate InRange(l: Log, from: int, to: int) { from <= l.origin.block <= to }

  /** The node answers with the range's logs, supported or not, in any order. */
  ghost predicate Answers(answer: seq<RawLog>, hist: seq<Log>, from: int, to: int) {
    multiset(ParseAll(answer)) == multiset(Filter(hist, l => InRange(l, from, to)))
  }

  predicate Ordered(logs: seq<Log>) {
    forall i, j | 0 <= i < j < |logs| :: !Before(logs[j].origin, logs[i].origin)
  }

  lemma {:induction false} InsertKeeps(l: Log, logs: seq<Log>)
    ensures multiset(InsertLog(l, logs)) == multiset(logs) + multiset{l}
  {
    if logs != [] {
      assert logs == [logs[0]] + logs[1..];
      if Before(logs[0].origin, l.origin) {
        InsertKeeps(l, logs[1..]);
      }
    }
  }

  lemma {:induction false} InsertOrders(l: Log, logs: seq<Log>)
    requires Ordered(logs)
    ensures Ordered(InsertLog(l, logs))
  {
    if logs != [] && Before(logs[0].origin, l.origin) {
      var rest := InsertLog(l, logs[1..]);
      InsertOrders(l, logs[1..]);
      InsertKeeps(l, logs[1..]);
      forall k | 0 <= k < |rest| ensures !Before(rest[k].origin, logs[0].origin) {
        assert rest[k] in multiset(rest);
        assert rest[k] == l || rest[k] in logs[1..];
      }
    }
  }

  lemma {:induction false} SortOrders(logs: seq<Log>)
    ensures Ordered(SortLogs(logs)) && multiset(SortLogs(logs)) == multiset(logs)
  {
    if logs != [] {
      SortOrders(logs[1..]);
      InsertOrders(logs[0], SortLogs(logs[1..]));
      InsertKeeps(logs[0], SortLogs(logs[1..]));
      assert logs == [logs[0]] + logs[1..];
    }
  }

  lemma SameFirst(a: seq<Log>, b: seq<Log>)
    requires Chronological(a) && Ordered(b) && a != [] && b != [] && b[0] in a && a[0] in b
    ensures a[0] == b[0]
  {
  }

  lemma SameRest(a: seq<Log>, b: seq<Log>)
    requires a != [] && b != [] && a[0] == b[0] && multiset(a) == multiset(b)
    ensures multiset(a[1..]) == multiset(b[1..])
  {
    assert a == [a[0]] + a[1..] && b == [b[0]] + b[1..];
    assert multiset(a[1..]) == multiset(a) - multiset{a[0]} && multiset(b[1..]) == multiset(b) - multiset{a[0]};
  }

  lemma {:induction false} OrderUnique(a: seq<Log>, b: seq<Log>)
    requires Chronological(a) && Ordered(b) && multiset(a) == multiset(b)
    ensures a == b
  {
    assert |a| == |multiset(a)| == |multiset(b)| == |b|;
    if a != [] {
      assert a[0] in multiset(b) && b[0] in multiset(a);
      SameFirst(a, b);
      SameRest(a, b);
      OrderUnique(a[1..], b[1..]);
      assert a == [a[0]] + a[1..] && b == [b[0]] + b[1..];
    }
  }

  lemma {:induction false} FilterCounts(logs: seq<Log>, keep: Log -> bool, l: Log)
    ensures multiset(Filter(logs, keep))[l] == if keep(l) then multiset(logs)[l] else 0
  {
    if logs != [] {
      FilterCounts(logs[1..], keep, l);
      assert logs == [logs[0]] + logs[1..];
    }
  }

  lemma FilterByMultiset(a: seq<Log>, b: seq<Log>, keep: Log -> bool)
    requires multiset(a) == multiset(b)
    ensures multiset(Filter(a, keep)) == multiset(Filter(b, keep))
  {
    forall l ensures multiset(Filter(a, keep))[l] == multiset(Filter(b, keep))[l] {
      FilterCounts(a, keep, l);
      FilterCounts(b, keep, l);
    }
  }

  lemma {:induction false} FilterTwice(logs: seq<Log>, p: Log -> bool, q: Log -> bool)
    ensures Filter(Filter(logs, p), q) == Filter(logs, l => p(l) && q(l))
  {
    if logs != [] {
      FilterTwice(logs[1..], p, q);
      var rest := Filter(logs[1..], p);
      if p(logs[0]) {
        assert ([logs[0]] + rest)[1..] == rest;
      } else {
        assert [] + rest == rest;
      }
    }
  }

  lemma SliceOfTail(logs: seq<Log>, lo: nat, hi: nat)
    requires lo <= hi <= |logs| && logs != []
    ensures lo > 0 ==> logs[1..][lo - 1..hi - 1] == logs[lo..hi]
    ensures lo == 0 < hi ==> [logs[0]] + logs[1..][0..hi - 1] == logs[0..hi]
  {
  }

  /** Filtering a chronological list between two positions takes a slice of it. */
  lemma {:induction false} FilterIsSlice(logs: seq<Log>, keep: Log -> bool, lo: nat, hi: nat)
    requires lo <= hi <= |logs|
    requires forall i | 0 <= i < |logs| :: keep(logs[i]) <==> lo <= i < hi
    ensures Filter(logs, keep) == logs[lo..hi]
  {
    if logs != [] {
      assert forall i | 0 <= i < |logs| - 1 :: logs[1..][i] == logs[i + 1];
      SliceOfTail(logs, lo, hi);
      FilterIsSlice(logs[1..], keep, if lo > 0 then lo - 1 else 0, if hi > 0 then hi - 1 else 0);
    }
  }

  function StartMark(cursor: Option<Mark>, startBlock: int): Mark {
    if cursor.Some? then cursor.value else EndOf(startBlock - 1)
  }

  /** The two filters together keep exactly the logs between the checkpoint and the range's end. */
  lemma KeptIffBetween(hist: seq<Log>, cursor: Option<Mark>, startBlock: int, to: int, i: nat)
    requires Chronological(hist) && i < |hist| && hist[i].origin.block >= startBlock
    ensures var mark := StartMark(cursor, startBlock);
            InRange(hist[i], FromBlock(mark), to) && PastCursor(cursor, hist[i]) <==>
            CountCovered(hist, mark) <= i < CountCovered(hist, EndOf(to))
  {
    CoveredPrefix(hist, StartMark(cursor, startBlock));
    CoveredPrefix(hist, EndOf(to));
  }

  /** Whatever order the node answers in, and whatever else it returns, the fetched batch is the slice of
      the chain's history from the first log the checkpoint does not cover up to the range's end. */
  lemma FetchIsSlice(answer: seq<RawLog>, hist: seq<Log>, cursor: Option<Mark>, startBlock: int, to: int)
    requires Chronological(hist) && forall i | 0 <= i < |hist| :: hist[i].origin.block >= startBlock
    requires FromBlock(StartMark(cursor, startBlock)) <= to
    requires Answers(answer, hist, FromBlock(StartMark(cursor, startBlock)), to)
    ensures var lo, hi := CountCovered(hist, StartMark(cursor, startBlock)), CountCovered(hist, EndOf(to));
            lo <= hi <= |hist| && FetchSupportedLogs(answer, cursor) == hist[lo..hi]
  {
    CoveredPrefix(hist, EndOf(to));
    CoveredMonotone(hist, StartMark(cursor, startBlock), EndOf(to));
    KeptIsSlice(answer, hist, cursor, startBlock, to);
    SortedIsSlice(hist, CountCovered(hist, StartMark(cursor, startBlock)), CountCovered(hist, EndOf(to)),
                  Filter(ParseAll(answer), l => PastCursor(cursor, l)));
  }

  lemma SortedIsSlice(hist: seq<Log>, lo: nat, hi: nat, logs: seq<Log>)
    requires Chronological(hist) && lo <= hi <= |hist| && multiset(logs) == multiset(hist[lo..hi])
    ensures SortLogs(logs) == hist[lo..hi]
  {
    SortOrders(logs);
    OrderUnique(hist[lo..hi], SortLogs(logs));
  }

  lemma KeptIsSlice(answer: seq<RawLog>, hist: seq<Log>, cursor: Option<Mark>, startBlock: int, to: int)
    requires Chronological(hist) && forall i | 0 <= i < |hist| :: hist[i].origin.block >= startBlock
    requires CountCovered(hist, StartMark(cursor, startBlock)) <= CountCovered(hist, EndOf(to)) <= |hist|
    requires Answers(answer, hist, FromBlock(StartMark(cursor, startBlock)), to)
    ensures multiset(Filter(ParseAll(answer), l => PastCursor(cursor, l))) ==
            multiset(hist[CountCovered(hist, StartMark(cursor, startBlock))..CountCovered(hist, EndOf(to))])
  {
    FilteredIsSlice(hist, cursor, startBlock, to);
    FilterByMultiset(ParseAll(answer), Filter(hist, l => InRange(l, FromBlock(StartMark(cursor, startBlock)), to)),
                     l => PastCursor(cursor, l));
  }

  lemma FilteredIsSlice(hist: seq<Log>, cursor: Option<Mark>, startBlock: int, to: int)
    requires Chronological(hist) && forall i | 0 <= i < |hist| :: hist[i].origin.block >= startBlock
    requires CountCovered(hist, StartMark(cursor, startBlock)) <= CountCovered(hist, EndOf(to)) <= |hist|
    ensures Filter(Filter(hist, l => InRange(l, FromBlock(StartMark(cursor, startBlock)), to)),
                   l => PastCursor(cursor, l)) ==
            hist[CountCovered(hist, StartMark(cursor, startBlock))..CountCovered(hist, EndOf(to))]
  {
    var mark := StartMark(cursor, startBlock);
    var p, q := (l: Log) => InRange(l, FromBlock(mark), to), (l: Log) => PastCursor(cursor, l);
    FilterTwice(hist, p, q);
    forall i | 0 <= i < |hist|
      ensures p(hist[i]) && q(hist[i]) <==> CountCovered(hist, mark) <= i < CountCovered(hist, EndOf(to)) {
      KeptIffBetween(hist, cursor, startBlock, to, i);
    }
    FilterIsSlice(hist, l => p(l) && q(l), CountCovered(hist, mark), CountCovered(hist, EndOf(to)));
  }
}

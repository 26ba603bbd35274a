/** One whole call, taken step by step without interruption, is one run (event-sync-service.ts,
    `syncEscrowEventsOnce`). */
module CallSteps {
  import opened JsonMerge
  import opened ProjectionTables
  import opened SyncLog
  import opened SyncState
  import opened SyncWorkers

  function CommitSteps(id: nat, n: nat): seq<Action> { seq(n, _ => Commit(id)) }

  lemma {:induction false} RunConcat<P>(pr: Projector<P>, w: World<P>, env: Env, chain: Chain, a: seq<Action>,
                                        b: seq<Action>)
    ensures Run(pr, w, env, chain, a + b) == Run(pr, Run(pr, w, env, chain, a), env, chain, b)
  {
    if b == [] {
      assert a + b == a;
    } else {
      assert (a + b)[..|a + b| - 1] == a + b[..|b| - 1];
      RunConcat(pr, w, env, chain, a, b[..|b| - 1]);
    }
  }

  lemma RunOne<P>(pr: Projector<P>, w: World<P>, env: Env, chain: Chain, a: Action)
    ensures Run(pr, w, env, chain, [a]) == Step(pr, w, env, chain, a)
  {
    assert [a][..0] == [];
  }

  lemma FirstCommit<P>(pr: Projector<P>, w: World<P>, env: Env, chain: Chain, id: nat,
                       pending: seq<Log>, cursor: Object)
    requires At(w, id) == Batch(pending, cursor) && pending != []
    ensures var w' := Step(pr, w, env, chain, Commit(id));
            w'.db == CommitLog(pr, w.db, cursor, pending[0]) &&
            (|pending| > 1 ==> At(w', id) == Batch(pending[1..], NextCursor(pr, w.db.rows, cursor, pending[0]))) &&
            (|pending| == 1 ==> At(w', id).Idle?)
  {
  }

  /** The commits of a batch, one by one, are the loop. */
  lemma {:induction false} CommitsAreLoop<P>(pr: Projector<P>, w: World<P>, env: Env, chain: Chain, id: nat,
                                             pending: seq<Log>, cursor: Object)
    requires At(w, id) == Batch(pending, cursor) && pending != []
    ensures Run(pr, w, env, chain, CommitSteps(id, |pending|)).db == CommitAll(pr, w.db, cursor, pending)
    ensures At(Run(pr, w, env, chain, CommitSteps(id, |pending|)), id).Idle?
    decreases |pending|
  {
    var w' := Step(pr, w, env, chain, Commit(id));
    assert CommitSteps(id, |pending|) == [Commit(id)] + CommitSteps(id, |pending| - 1);
    RunConcat(pr, w, env, chain, [Commit(id)], CommitSteps(id, |pending| - 1));
    RunOne(pr, w, env, chain, Commit(id));
    FirstCommit(pr, w, env, chain, id, pending, cursor);
    if |pending| > 1 {
      CommitsAreLoop(pr, w', env, chain, id, pending[1..], NextCursor(pr, w.db.rows, cursor, pending[0]));
    } else {
      assert CommitSteps(id, 0) == [];
    }
  }

  /** What follows the fetch. */
  function Rest(id: nat, worker: Worker): seq<Action> {
    match worker
    case Batch(pending, _) => CommitSteps(id, |pending|)
    case Drained(_) => [Finish(id)]
    case _ => []
  }

  lemma RestIsRun<P>(pr: Projector<P>, w: World<P>, env: Env, chain: Chain, id: nat, safeHead: int, answer: seq<RawLog>)
    requires At(w, id) == AfterFetch(env, w.db.checkpoint, safeHead, answer)
    ensures Run(pr, w, env, chain, Rest(id, At(w, id))).db == SyncRun(pr, w.db, env, chain.hashAt, safeHead, answer)
    ensures At(Run(pr, w, env, chain, Rest(id, At(w, id))), id).Idle?
  {
    match At(w, id)
    case Batch(pending, cursor) => CommitsAreLoop(pr, w, env, chain, id, pending, cursor);
    case Drained(_) => RunOne(pr, w, env, chain, Finish(id));
    case _ =>
  }

  /** The three steps that read, check and fetch. */
  function Opening(id: nat, safeHead: int, retained: seq<StoredLog>, answer: seq<RawLog>): seq<Action> {
    [Start(id, safeHead)] + [Check(id, retained)] + [Fetch(id, answer)]
  }

  /** What the node and the rebuild's query return to a call from this database. */
  ghost predicate Answered<P>(pr: Projector<P>, db: Db<P>, env: Env, chain: Chain, safeHead: int,
                              retained: seq<StoredLog>, answer: seq<RawLog>) {
    var c := EnsureConsistency(pr, db, db.checkpoint, env, chain.hashAt, safeHead, retained).checkpoint;
    (Mismatch(db.checkpoint, chain.hashAt, safeHead) ==>
       IsRetained(retained, Kept(db.rows, RewindFrom(env, db.checkpoint.value.block)), env.startBlock,
                  RewindFrom(env, db.checkpoint.value.block))) &&
    (From(env, c) <= safeHead ==>
       Answers(answer, chain.logs, From(env, c), To(env, From(env, c), safeHead)))
  }

  lemma OpeningReads<P>(pr: Projector<P>, w: World<P>, env: Env, chain: Chain, id: nat, safeHead: int,
                        retained: seq<StoredLog>, answer: seq<RawLog>)
    requires At(w, id).Idle? && Answered(pr, w.db, env, chain, safeHead, retained, answer)
    ensures var checked := EnsureConsistency(pr, w.db, w.db.checkpoint, env, chain.hashAt, safeHead, retained);
            var w' := Run(pr, w, env, chain, Opening(id, safeHead, retained, answer));
            w'.db == checked && At(w', id) == AfterFetch(env, checked.checkpoint, safeHead, answer)
  {
    var a, b, c := Start(id, safeHead), Check(id, retained), Fetch(id, answer);
    RunOne(pr, w, env, chain, a);
    RunAppend(pr, w, env, chain, [a], b);
    RunAppend(pr, w, env, chain, [a] + [b], c);
  }

  /** The steps of a whole call. */
  function Whole<P>(pr: Projector<P>, db: Db<P>, env: Env, chain: Chain, id: nat, safeHead: int,
                    retained: seq<StoredLog>, answer: seq<RawLog>): seq<Action> {
    var checked := EnsureConsistency(pr, db, db.checkpoint, env, chain.hashAt, safeHead, retained);
    Opening(id, safeHead, retained, answer) + Rest(id, AfterFetch(env, checked.checkpoint, safeHead, answer))
  }

  lemma WholeByOne<P>(pr: Projector<P>, db: Db<P>, env: Env, chain: Chain, id: nat, safeHead: int,
                      retained: seq<StoredLog>, answer: seq<RawLog>)
    ensures var actions := Whole(pr, db, env, chain, id, safeHead, retained, answer);
            forall i | 0 <= i < |actions| :: actions[i].id == id
  {
  }

  /** A call that reads, checks, fetches and commits without interruption leaves what one run on the
      consistent database leaves, whatever state the other workers are in. */
  lemma CallIsRun<P>(pr: Projector<P>, w: World<P>, env: Env, chain: Chain, id: nat, safeHead: int,
                     retained: seq<StoredLog>, answer: seq<RawLog>)
    requires At(w, id).Idle? && Answered(pr, w.db, env, chain, safeHead, retained, answer)
    ensures var checked := EnsureConsistency(pr, w.db, w.db.checkpoint, env, chain.hashAt, safeHead, retained);
            var w' := Run(pr, w, env, chain, Whole(pr, w.db, env, chain, id, safeHead, retained, answer));
            w'.db == SyncRun(pr, checked, env, chain.hashAt, safeHead, answer) && At(w', id).Idle?
  {
    var opening := Opening(id, safeHead, retained, answer);
    var checked := EnsureConsistency(pr, w.db, w.db.checkpoint, env, chain.hashAt, safeHead, retained);
    OpeningReads(pr, w, env, chain, id, safeHead, retained, answer);
    RunConcat(pr, w, env, chain, opening, Rest(id, AfterFetch(env, checked.checkpoint, safeHead, answer)));
    RestIsRun(pr, Run(pr, w, env, chain, opening), env, chain, id, safeHead, answer);
  }
}

/** The exact law of the JSON copy and of the checkpoint's position for every interleaving of workers
    (event-sync-service.ts, `syncEscrowEventsOnce`). */
module CopyLaw {
  import opened JsonMerge
  import opened ProjectionTables
  import opened SyncLog
  import opened SyncState
  import opened SyncWorkers
  import opened SoloWorker

  /** A call under way: the copy it read, and how many logs were applied by then. */
  datatype Call = Call(read: Object, since: nat)

  /** Which worker applied each log, and the last call of each worker. */
  datatype History = History(authors: seq<nat>, calls: map<nat, Call>)

  function Record<P>(h: History, before: World<P>, a: Action, after: World<P>): History {
    if a.Start? && At(before, a.id).Idle? then
      h.(calls := h.calls[a.id := Call(CursorOf(before.db.checkpoint), |before.applied|)])
    else if a.Commit? && |after.applied| > |before.applied| then h.(authors := h.authors + [a.id])
    else h
  }

  ghost function HistoryOf<P>(pr: Projector<P>, w: World<P>, env: Env, chain: Chain, actions: seq<Action>): History {
    if actions == [] then History([], map[])
    else
      var init := actions[..|actions| - 1];
      Record(HistoryOf(pr, w, env, chain, init), Run(pr, w, env, chain, init), actions[|actions| - 1],
             Run(pr, w, env, chain, actions))
  }

  /** The logs the worker itself applied since a moment. */
  function Own(applied: seq<Log>, authors: seq<nat>, id: nat, since: nat): seq<Log>
    requires |authors| == |applied|
  {
    if |applied| <= since then []
    else
      Own(applied[..|applied| - 1], authors[..|authors| - 1], id, since) +
      if authors[|authors| - 1] == id then [applied[|applied| - 1]] else []
  }

  lemma OwnMore(applied: seq<Log>, authors: seq<nat>, id: nat, since: nat, l: Log, who: nat)
    requires |authors| == |applied| && since <= |applied|
    ensures Own(applied + [l], authors + [who], id, since) ==
            if who == id then Own(applied, authors, id, since) + [l] else Own(applied, authors, id, since)
  {
    assert (applied + [l])[..|applied|] == applied && (authors + [who])[..|authors|] == authors;
  }

  /** What a worker holds is the copy it read plus the patches of the logs it applied itself. */
  ghost predicate HoldsOwn<P>(pr: Projector<P>, worker: Worker, call: Call, applied: seq<Log>, authors: seq<nat>,
                              id: nat)
    requires |authors| == |applied|
  {
    call.since <= |applied| &&
    match worker
    case Idle => true
    case Started(c, _) => CursorOf(c) == call.read && Own(applied, authors, id, call.since) == []
    case Checked(c, _) => CursorOf(c) == call.read && Own(applied, authors, id, call.since) == []
    case Drained(_) => true
    case Batch(_, cursor) => cursor == CopyAfter(pr, call.read, Own(applied, authors, id, call.since))
  }

  ghost predicate Lawful<P>(pr: Projector<P>, w: World<P>, h: History) {
    |h.authors| == |w.applied| &&
    forall id | id in w.workers && !w.workers[id].Idle? ::
      id in h.calls && HoldsOwn(pr, w.workers[id], h.calls[id], w.applied, h.authors, id)
  }

  lemma CopyAfterMore<P>(pr: Projector<P>, c: Object, logs: seq<Log>, l: Log)
    ensures CopyAfter(pr, c, logs + [l]) == Merge(CopyAfter(pr, c, logs), pr.patch(l))
  {
    assert (logs + [l])[..|logs|] == logs;
  }

  /** After a commit the checkpoint's copy is what the committing worker read plus what it applied itself. */
  ghost predicate CommittedOwn<P>(pr: Projector<P>, w: World<P>, h: History, id: nat) {
    |h.authors| == |w.applied| && id in h.calls && h.calls[id].since <= |w.applied| &&
    CursorOf(w.db.checkpoint) == CopyAfter(pr, h.calls[id].read, Own(w.applied, h.authors, id, h.calls[id].since))
  }

  lemma HoldsOwnLater<P>(pr: Projector<P>, worker: Worker, call: Call, applied: seq<Log>, authors: seq<nat>, id: nat,
                         l: Log, who: nat)
    requires |authors| == |applied| && HoldsOwn(pr, worker, call, applied, authors, id) && who != id
    ensures HoldsOwn(pr, worker, call, applied + [l], authors + [who], id)
  {
    OwnMore(applied, authors, id, call.since, l, who);
  }

  lemma CommitOwn<P>(pr: Projector<P>, w: World<P>, h: History, id: nat)
    requires Lawful(pr, w, h) && At(w, id).Batch? && At(w, id).pending != []
    ensures var w' := AfterCommit(pr, w, id, At(w, id).pending, At(w, id).cursor);
            CommittedOwn(pr, w', Record(h, w, Commit(id), w'), id) &&
            HoldsOwn(pr, At(w', id), Record(h, w, Commit(id), w').calls[id], w'.applied,
                     Record(h, w, Commit(id), w').authors, id)
  {
    var l, call := At(w, id).pending[0], h.calls[id];
    OwnMore(w.applied, h.authors, id, call.since, l, id);
    CopyAfterMore(pr, call.read, Own(w.applied, h.authors, id, call.since), l);
  }

  lemma CommitLawful<P>(pr: Projector<P>, w: World<P>, h: History, id: nat)
    requires Lawful(pr, w, h) && At(w, id).Batch? && At(w, id).pending != []
    ensures var w' := AfterCommit(pr, w, id, At(w, id).pending, At(w, id).cursor);
            Lawful(pr, w', Record(h, w, Commit(id), w'))
  {
    var l := At(w, id).pending[0];
    var w' := AfterCommit(pr, w, id, At(w, id).pending, At(w, id).cursor);
    CommitOwn(pr, w, h, id);
    if ShouldApply(w.db.rows, l) {
      forall other | other in w.workers && other != id && !w.workers[other].Idle?
        ensures HoldsOwn(pr, w.workers[other], h.calls[other], w.applied + [l], h.authors + [id], other)
      {
        HoldsOwnLater(pr, w.workers[other], h.calls[other], w.applied, h.authors, other, l, id);
      }
    }
  }

  lemma OwnStart(applied: seq<Log>, authors: seq<nat>, id: nat)
    requires |authors| == |applied|
    ensures Own(applied, authors, id, |applied|) == []
  {
  }

  lemma StepLawful<P>(pr: Projector<P>, w: World<P>, h: History, base: Db<P>, env: Env, chain: Chain, n: nat, a: Action)
    requires Healthy(pr, w, base, chain, n, env.startBlock) && Lawful(pr, w, h)
    ensures Lawful(pr, Step(pr, w, env, chain, a), Record(h, w, a, Step(pr, w, env, chain, a)))
  {
    var worker := At(w, a.id);
    assert worker == Idle || (a.id in h.calls && HoldsOwn(pr, worker, h.calls[a.id], w.applied, h.authors, a.id));
    match a
    case Start(id, _) => OwnStart(w.applied, h.authors, id);
    case Check(_, _) => CheckPasses(pr, w, base, env, chain, n, a);
    case Commit(id) =>
      if worker.Batch? && worker.pending != [] {
        CommitLawful(pr, w, h, id);
      }
    case _ =>
  }

  lemma {:induction false} RunLawful<P>(pr: Projector<P>, db: Db<P>, env: Env, chain: Chain, n: nat,
                                         actions: seq<Action>)
    requires Valid(env) && ValidChain(chain, env.startBlock) && Synced(db, chain, n, env.startBlock)
    ensures Lawful(pr, Run(pr, World(db, [], map[]), env, chain, actions),
                   HistoryOf(pr, World(db, [], map[]), env, chain, actions))
  {
    if actions != [] {
      var w0, init := World(db, [], map[]), actions[..|actions| - 1];
      RunLawful(pr, db, env, chain, n, init);
      RunHealthy(pr, db, env, chain, n, init);
      StepLawful(pr, Run(pr, w0, env, chain, init), HistoryOf(pr, w0, env, chain, init), db, env, chain, n,
                 actions[|actions| - 1]);
    }
  }

  /** The law: in every interleaving, right after a worker's commit the checkpoint's copy is the one the
      worker read plus the patches of the logs it applied itself since, and nothing else. */
  lemma CommitLeavesOwn<P>(pr: Projector<P>, db: Db<P>, env: Env, chain: Chain, n: nat, actions: seq<Action>, id: nat)
    requires Valid(env) && ValidChain(chain, env.startBlock) && Synced(db, chain, n, env.startBlock)
    requires var w := Run(pr, World(db, [], map[]), env, chain, actions); At(w, id).Batch? && At(w, id).pending != []
    ensures CommittedOwn(pr, Run(pr, World(db, [], map[]), env, chain, actions + [Commit(id)]),
                         HistoryOf(pr, World(db, [], map[]), env, chain, actions + [Commit(id)]), id)
  {
    var w0 := World(db, [], map[]);
    RunLawful(pr, db, env, chain, n, actions);
    CommitOwn(pr, Run(pr, w0, env, chain, actions), HistoryOf(pr, w0, env, chain, actions), id);
    HistoryAppend(pr, w0, env, chain, actions, Commit(id));
    RunAppend(pr, w0, env, chain, actions, Commit(id));
  }

  lemma HistoryAppend<P>(pr: Projector<P>, w: World<P>, env: Env, chain: Chain, actions: seq<Action>, a: Action)
    ensures HistoryOf(pr, w, env, chain, actions + [a]) ==
            Record(HistoryOf(pr, w, env, chain, actions), Run(pr, w, env, chain, actions), a,
                   Run(pr, w, env, chain, actions + [a]))
  {
    assert (actions + [a])[..|actions|] == actions;
  }

  /** So nothing was lost exactly when nobody else applied a log since the read. */
  lemma {:induction false} OwnIsAllIff(applied: seq<Log>, authors: seq<nat>, id: nat, since: nat)
    requires |authors| == |applied| && since <= |applied|
    ensures |Own(applied, authors, id, since)| <= |applied| - since
    ensures Own(applied, authors, id, since) == applied[since..] <==>
            forall j | since <= j < |authors| :: authors[j] == id
  {
    if since < |applied| {
      var m := |applied| - 1;
      OwnIsAllIff(applied[..m], authors[..m], id, since);
      assert applied[since..] == applied[..m][since..] + [applied[m]];
      assert forall j | since <= j < m :: authors[..m][j] == authors[j];
      if authors[m] != id {
        assert |Own(applied, authors, id, since)| < |applied[since..]|;
      }
    }
  }

  lemma {:induction false} CopyAppend<P>(pr: Projector<P>, c: Object, a: seq<Log>, b: seq<Log>)
    ensures CopyAfter(pr, CopyAfter(pr, c, a), b) == CopyAfter(pr, c, a + b)
  {
    if b == [] {
      assert a + b == a;
    } else {
      assert (a + b)[..|a + b| - 1] == a + b[..|b| - 1];
      CopyAppend(pr, c, a, b[..|b| - 1]);
    }
  }

  /** A call that read a complete copy leaves the copy of what was applied by then and of its own logs:
      without exactly the patches of what the others applied meanwhile, and complete if that is nothing. */
  lemma CommittedCopy<P>(pr: Projector<P>, w: World<P>, h: History, id: nat, c: Object)
    requires CommittedOwn(pr, w, h, id)
    requires h.calls[id].read == CopyAfter(pr, c, w.applied[..h.calls[id].since])
    ensures var call := h.calls[id];
            CursorOf(w.db.checkpoint) ==
              CopyAfter(pr, c, w.applied[..call.since] + Own(w.applied, h.authors, id, call.since)) &&
            ((forall j | call.since <= j < |h.authors| :: h.authors[j] == id) ==>
               CursorOf(w.db.checkpoint) == CopyAfter(pr, c, w.applied))
  {
    var call := h.calls[id];
    var own := Own(w.applied, h.authors, id, call.since);
    CopyAppend(pr, c, w.applied[..call.since], own);
    if forall j | call.since <= j < |h.authors| :: h.authors[j] == id {
      AllOwn(w.applied, h.authors, id, call.since);
    }
  }

  lemma AllOwn(applied: seq<Log>, authors: seq<nat>, id: nat, since: nat)
    requires |authors| == |applied| && since <= |applied|
    requires forall j | since <= j < |authors| :: authors[j] == id
    ensures applied[..since] + Own(applied, authors, id, since) == applied
  {
    OwnIsAllIff(applied, authors, id, since);
  }

  /** Where a commit puts the checkpoint: right behind the worker's log, which is at or before the frontier.
      So it moves back exactly when the checkpoint was past that log. */
  lemma CommitPosition<P>(pr: Projector<P>, db: Db<P>, env: Env, chain: Chain, n: nat, actions: seq<Action>, id: nat)
      returns (i: nat)
    requires Valid(env) && ValidChain(chain, env.startBlock) && Synced(db, chain, n, env.startBlock)
    requires var w := Run(pr, World(db, [], map[]), env, chain, actions); At(w, id).Batch? && At(w, id).pending != []
    ensures var w := Run(pr, World(db, [], map[]), env, chain, actions);
            i < |chain.logs| && At(w, id).pending[0] == chain.logs[i] && i <= n + |w.applied| &&
            var after := Run(pr, World(db, [], map[]), env, chain, actions + [Commit(id)]).db;
            FirstToFetch(env, chain, after.checkpoint) == i + 1
  {
    var w := Run(pr, World(db, [], map[]), env, chain, actions);
    RunHealthy(pr, db, env, chain, n, actions);
    i := NextIndex(w.workers, id, chain, n + |w.applied|, env.startBlock);
    RunAppend(pr, World(db, [], map[]), env, chain, actions, Commit(id));
    CoveredUpTo(chain.logs, i);
  }

  lemma NextIndex(workers: map<nat, Worker>, id: nat, chain: Chain, n: nat, start: int) returns (i: nat)
    requires AllSound(workers, chain, n, start) && id in workers && workers[id].Batch? && workers[id].pending != []
    ensures i <= n && i < |chain.logs| && workers[id].pending[0] == chain.logs[i]
  {
    assert Sound(workers[id], chain, n, start);
    i :| i <= n && SliceAt(chain.logs, workers[id].pending, i);
  }

  // ---------------------------------------------------------------- What a copy has seen

  /** The logs whose patches the checkpoint's copy holds, and those whose patches each worker's does. */
  datatype Seen = Seen(stored: seq<Log>, held: map<nat, seq<Log>>)

  function HeldBy(s: Seen, id: nat): seq<Log> { if id in s.held then s.held[id] else [] }

  function See<P>(s: Seen, before: World<P>, a: Action, after: World<P>): Seen {
    if a.Start? && At(before, a.id).Idle? then s.(held := s.held[a.id := s.stored])
    else if a.Commit? && At(before, a.id).Batch? && At(before, a.id).pending != [] then
      var l := At(before, a.id).pending[0];
      var mine := if ShouldApply(before.db.rows, l) then HeldBy(s, a.id) + [l] else HeldBy(s, a.id);
      Seen(mine, s.held[a.id := mine])
    else s
  }

  ghost function SeenOf<P>(pr: Projector<P>, w: World<P>, env: Env, chain: Chain, actions: seq<Action>): Seen {
    if actions == [] then Seen([], map[])
    else
      var init := actions[..|actions| - 1];
      See(SeenOf(pr, w, env, chain, init), Run(pr, w, env, chain, init), actions[|actions| - 1],
          Run(pr, w, env, chain, actions))
  }

  ghost predicate HoldsSeen<P>(pr: Projector<P>, c: Object, worker: Worker, seen: seq<Log>) {
    match worker
    case Idle => true
    case Started(read, _) => CursorOf(read) == CopyAfter(pr, c, seen)
    case Checked(read, _) => CursorOf(read) == CopyAfter(pr, c, seen)
    case Drained(_) => true
    case Batch(_, cursor) => cursor == CopyAfter(pr, c, seen)
  }

  ghost predicate HoldSeen<P>(pr: Projector<P>, c: Object, w: World<P>, s: Seen) {
    CursorOf(w.db.checkpoint) == CopyAfter(pr, c, s.stored) &&
    forall id | id in w.workers :: HoldsSeen(pr, c, w.workers[id], HeldBy(s, id))
  }

  lemma CommitSeen<P>(pr: Projector<P>, c: Object, w: World<P>, s: Seen, id: nat)
    requires HoldSeen(pr, c, w, s) && id in w.workers && w.workers[id].Batch? && w.workers[id].pending != []
    ensures var w' := AfterCommit(pr, w, id, w.workers[id].pending, w.workers[id].cursor);
            HoldSeen(pr, c, w', See(s, w, Commit(id), w'))
  {
    assert HoldsSeen(pr, c, w.workers[id], HeldBy(s, id));
    CopyAfterMore(pr, c, HeldBy(s, id), w.workers[id].pending[0]);
  }

  lemma StartSeen<P>(pr: Projector<P>, c: Object, w: World<P>, s: Seen, env: Env, chain: Chain, a: Action)
    requires a.Start? && HoldSeen(pr, c, w, s)
    ensures HoldSeen(pr, c, Step(pr, w, env, chain, a), See(s, w, a, Step(pr, w, env, chain, a)))
  {
  }

  lemma CheckSeen<P>(pr: Projector<P>, c: Object, w: World<P>, s: Seen, base: Db<P>, env: Env, chain: Chain, n: nat,
                     a: Action)
    requires a.Check? && Healthy(pr, w, base, chain, n, env.startBlock) && HoldSeen(pr, c, w, s)
    ensures HoldSeen(pr, c, Step(pr, w, env, chain, a), s)
  {
    CheckPasses(pr, w, base, env, chain, n, a);
    assert At(w, a.id) == Idle || HoldsSeen(pr, c, w.workers[a.id], HeldBy(s, a.id));
  }

  lemma RestSeen<P>(pr: Projector<P>, c: Object, w: World<P>, s: Seen, env: Env, chain: Chain, a: Action)
    requires !a.Start? && !a.Check? && !a.Commit? && HoldSeen(pr, c, w, s)
    ensures HoldSeen(pr, c, Step(pr, w, env, chain, a), s)
  {
    assert At(w, a.id) == Idle || HoldsSeen(pr, c, w.workers[a.id], HeldBy(s, a.id));
  }

  lemma StepSeen<P>(pr: Projector<P>, c: Object, w: World<P>, s: Seen, base: Db<P>, env: Env, chain: Chain, n: nat,
                    a: Action)
    requires Healthy(pr, w, base, chain, n, env.startBlock) && HoldSeen(pr, c, w, s)
    ensures HoldSeen(pr, c, Step(pr, w, env, chain, a), See(s, w, a, Step(pr, w, env, chain, a)))
  {
    if a.Start? {
      StartSeen(pr, c, w, s, env, chain, a);
    } else if a.Check? {
      CheckSeen(pr, c, w, s, base, env, chain, n, a);
    } else if a.Commit? {
      if At(w, a.id).Batch? && At(w, a.id).pending != [] {
        CommitSeen(pr, c, w, s, a.id);
      }
    } else {
      RestSeen(pr, c, w, s, env, chain, a);
    }
  }

  /** In every interleaving, at every moment, the checkpoint's copy holds exactly the patches of the logs it has
      seen, whatever the calls had read. */
  lemma {:induction false} CopyIsSeen<P>(pr: Projector<P>, db: Db<P>, env: Env, chain: Chain, n: nat,
                                         actions: seq<Action>)
    requires Valid(env) && ValidChain(chain, env.startBlock) && Synced(db, chain, n, env.startBlock)
    ensures HoldSeen(pr, CursorOf(db.checkpoint), Run(pr, World(db, [], map[]), env, chain, actions),
                     SeenOf(pr, World(db, [], map[]), env, chain, actions))
  {
    if actions != [] {
      var w0, init := World(db, [], map[]), actions[..|actions| - 1];
      CopyIsSeen(pr, db, env, chain, n, init);
      RunHealthy(pr, db, env, chain, n, init);
      StepSeen(pr, CursorOf(db.checkpoint), Run(pr, w0, env, chain, init), SeenOf(pr, w0, env, chain, init), db, env,
               chain, n, actions[|actions| - 1]);
    }
  }
}

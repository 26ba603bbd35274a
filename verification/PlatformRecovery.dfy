/** What a rewind leaves on the platform's own milestones, which it does not rebuild (event-sync-service.ts,
    `rewindAndRebuildProjections`). */
module PlatformRecovery {
  import opened Basics
  import opened Events
  import opened EscrowRows
  import opened ProjectionTables
  import opened MilestoneProjection
  import opened DisputeResolution
  import opened DisputeRecovery
  import opened SyncLog
  import opened SyncState
  import opened SyncWorkers
  import opened EscrowSync
  import opened Governance
  import opened Reorg
  import opened DeepReorg
  import opened RewindRuns

  predicate HasMilestone(s: Platform, p: int, i: nat) { p in s.projects && i < |s.projects[p].milestones| }

  function StatusOf(s: Platform, p: int, i: nat): Option<MilestoneStatus> {
    if HasMilestone(s, p, i) then Some(s.projects[p].milestones[i].status) else None
  }

  function EffectOf(s: Platform, p: int, i: nat, w: seq<Timed>): Effect
    requires HasMilestone(s, p, i)
  {
    TotalEffect(s.projects[p].milestones, p, i, w)
  }

  /** A run behind a run acts on the status the first one left. */
  lemma StatusAfter(s: Platform, a: seq<Timed>, b: seq<Timed>, p: int, i: nat)
    requires WellKeyed(s) && HasMilestone(s, p, i)
    ensures HasMilestone(RunEvents(s, a), p, i) && WellKeyed(RunEvents(s, a))
    ensures StatusOf(RunEvents(RunEvents(s, a), b), p, i) ==
            Some(Act(EffectOf(s, p, i, b), StatusOf(RunEvents(s, a), p, i).value))
  {
    RunIsOneEffect(s, a, p, i);
    RunIsOneEffect(RunEvents(s, a), b, p, i);
    TotalBySkeleton(RunEvents(s, a).projects[p].milestones, s.projects[p].milestones, p, i, b);
  }

  lemma {:induction false} RunsAppend(s: Platform, a: seq<Timed>, b: seq<Timed>)
    ensures RunEvents(s, a + b) == RunEvents(RunEvents(s, a), b)
    decreases |a|
  {
    if a == [] {
      assert a + b == b;
    } else {
      assert (a + b)[1..] == a[1..] + b;
      RunsAppend(ApplyToPlatform(s, a[0].event, a[0].now), a[1..], b);
    }
  }

  lemma {:induction false} EffectAppend(ms: seq<Milestone>, p: int, i: nat, a: seq<Timed>, b: seq<Timed>,
                                            x: MilestoneStatus)
    requires i < |ms|
    ensures Act(TotalEffect(ms, p, i, a + b), x) == Act(TotalEffect(ms, p, i, b), Act(TotalEffect(ms, p, i, a), x))
    decreases |a|
  {
    if a == [] {
      assert a + b == b;
    } else {
      assert (a + b)[1..] == a[1..] + b;
      var e := if ProjectOf(a[0].event) == Some(p) then EffectOn(ms, i, a[0].event) else Keep;
      EffectAppend(ms, p, i, a[1..], b, Act(e, x));
      ComposeActs(e, TotalEffect(ms, p, i, a[1..] + b), x);
      ComposeActs(e, TotalEffect(ms, p, i, a[1..]), x);
    }
  }

  predicate SameEvents(a: seq<Log>, b: seq<Log>) {
    |a| == |b| && forall i | 0 <= i < |a| :: EventOf(a[i]) == EventOf(b[i])
  }

  lemma {:induction false} EffectByEvents(ms: seq<Milestone>, p: int, i: nat, a: seq<Log>, b: seq<Log>)
    requires i < |ms| && SameEvents(a, b)
    ensures TotalEffect(ms, p, i, TimedOf(a)) == TotalEffect(ms, p, i, TimedOf(b))
    decreases |a|
  {
    if a != [] {
      assert TimedOf(a)[1..] == TimedOf(a[1..]) && TimedOf(b)[1..] == TimedOf(b[1..]);
      EffectByEvents(ms, p, i, a[1..], b[1..]);
    }
  }

  // ---------------------------------------------------------------- When a status recovers

  /** The mined tail brings a status touched by the orphaned tail to where it brings the untouched one. */
  predicate Heals(orphaned: Effect, mined: Effect, x: MilestoneStatus) {
    Act(mined, Act(orphaned, x)) == Act(mined, x)
  }

  /** The status a common beginning leaves, then the orphaned and the mined tail. */
  lemma TailsDecide(s: Platform, common: seq<Timed>, orphaned: seq<Timed>, mined: seq<Timed>, p: int, i: nat)
    requires WellKeyed(s) && HasMilestone(s, p, i)
    ensures StatusOf(RunEvents(s, common), p, i).Some?
    ensures StatusOf(RunEvents(RunEvents(s, common + orphaned), mined), p, i) ==
              StatusOf(RunEvents(s, common + mined), p, i) <==>
            Heals(EffectOf(s, p, i, orphaned), EffectOf(s, p, i, mined), StatusOf(RunEvents(s, common), p, i).value)
  {
    RunsAppend(s, common, orphaned);
    RunsAppend(s, common, mined);
    StatusAfter(s, common, orphaned, p, i);
    StatusAfter(s, common, mined, p, i);
    StatusAfter(s, common + orphaned, mined, p, i);
  }

  /** A reorganisation on a platform that has run over the old chain's logs from `origin` on. */
  ghost predicate ReorgedFrom(origin: Platform, db: Db<Projections>, env: Env, was: Chain, n: nat,
                              retained: seq<StoredLog>, chain: Chain) {
    Reorged(db, env, was, n, retained, chain) && WellKeyed(origin) &&
    db.projections.platform == RunEvents(origin, TimedOf(was.logs[..n]))
  }

  lemma TimedAppend(a: seq<Log>, b: seq<Log>)
    ensures TimedOf(a + b) == TimedOf(a) + TimedOf(b)
  {
  }

  /** What the platform has run over: the old chain's logs, then the new chain's from the rewind point on. */
  lemma RegainedFrom(origin: Platform, db: Db<Projections>, env: Env, was: Chain, n: nat, retained: seq<StoredLog>,
                     chain: Chain, actions: seq<Action>, after: Db<Projections>) returns (k: nat, start: Projections)
    requires ReorgedFrom(origin, db, env, was, n, retained, chain)
    requires Regained(ESCROW, db, env, retained, chain, actions, after)
    ensures var m := Common(db, env, chain);
            m <= n <= |was.logs| && m <= k <= |chain.logs| && was.logs[..m] == chain.logs[..m] &&
            Synced(after, chain, k, env.startBlock) && start.platform == RunEvents(origin, TimedOf(was.logs[..n])) &&
            after.projections == Fold(ESCROW, start, chain.logs[m..k])
  {
    k := RegainedReaches(ESCROW, db, env, was, n, retained, chain, actions, after);
    start := Rewound(ESCROW, db, env, retained).projections;
    RewoundKeepsPlatform(db, env, retained);
  }

  /** After a rewind and whatever the workers then do, a milestone has the status it would have on an
      installation that only ever saw the new chain exactly when the logs mined since the rewind point
      heal, at the status of the common beginning, what the orphaned logs did to it. */
  lemma MilestonesRecoverIff(origin: Platform, db: Db<Projections>, env: Env, was: Chain, n: nat,
                             retained: seq<StoredLog>, chain: Chain, actions: seq<Action>, after: Db<Projections>,
                             p: int, i: nat)
      returns (k: nat)
    requires ReorgedFrom(origin, db, env, was, n, retained, chain) && HasMilestone(origin, p, i)
    requires Regained(ESCROW, db, env, retained, chain, actions, after)
    ensures var m := Common(db, env, chain);
            m <= n <= |was.logs| && m <= k <= |chain.logs| &&
            Synced(after, chain, k, env.startBlock) &&
            RecoversIff(origin, after.projections.platform, was, n, chain, m, k, p, i)
  {
    var start: Projections;
    k, start := RegainedFrom(origin, db, env, was, n, retained, chain, actions, after);
    FoldDecides(origin, start, was, n, chain, Common(db, env, chain), k, p, i);
  }

  /** The status agrees with the one on the new chain alone exactly when the mined tail heals the orphaned. */
  predicate RecoversIff(origin: Platform, after: Platform, was: Chain, n: nat, chain: Chain, m: nat, k: nat, p: int,
                        i: nat)
    requires HasMilestone(origin, p, i) && m <= n <= |was.logs| && m <= k <= |chain.logs|
  {
    var x := StatusOf(RunEvents(origin, TimedOf(chain.logs[..m])), p, i);
    x.Some? &&
    (StatusOf(after, p, i) == StatusOf(RunEvents(origin, TimedOf(chain.logs[..k])), p, i) <==>
     Heals(EffectOf(origin, p, i, TimedOf(was.logs[m..n])), EffectOf(origin, p, i, TimedOf(chain.logs[m..k])), x.value))
  }

  lemma RewoundKeepsPlatform(db: Db<Projections>, env: Env, retained: seq<StoredLog>)
    requires db.checkpoint.Some?
    ensures Rewound(ESCROW, db, env, retained).projections.platform == db.projections.platform
  {
  }

  lemma FoldDecides(origin: Platform, s: Projections, was: Chain, n: nat, chain: Chain, m: nat, k: nat, p: int, i: nat)
    requires WellKeyed(origin) && HasMilestone(origin, p, i) && m <= n <= |was.logs| && m <= k <= |chain.logs|
    requires was.logs[..m] == chain.logs[..m] && s.platform == RunEvents(origin, TimedOf(was.logs[..n]))
    ensures RecoversIff(origin, Fold(ESCROW, s, chain.logs[m..k]).platform, was, n, chain, m, k, p, i)
  {
    FoldPlatform(s, chain.logs[m..k]);
    TimedSplit(was.logs, m, n);
    TimedSplit(chain.logs, m, k);
    TailsDecide(origin, TimedOf(chain.logs[..m]), TimedOf(was.logs[m..n]), TimedOf(chain.logs[m..k]), p, i);
  }

  lemma TimedSplit(logs: seq<Log>, m: nat, n: nat)
    requires m <= n <= |logs|
    ensures TimedOf(logs[..n]) == TimedOf(logs[..m]) + TimedOf(logs[m..n])
  {
    assert logs[..n] == logs[..m] + logs[m..n];
    TimedAppend(logs[..m], logs[m..n]);
  }

  /** A tail that begins with the orphaned events heals. */
  lemma ReminedHeals(ms: seq<Milestone>, p: int, i: nat, orphaned: seq<Log>, mined: seq<Log>, x: MilestoneStatus)
    requires i < |ms| && |orphaned| <= |mined| && SameEvents(orphaned, mined[..|orphaned|])
    ensures Heals(TotalEffect(ms, p, i, TimedOf(orphaned)), TotalEffect(ms, p, i, TimedOf(mined)), x)
  {
    var head, rest := mined[..|orphaned|], mined[|orphaned|..];
    var effect := TotalEffect(ms, p, i, TimedOf(orphaned));
    assert mined == head + rest;
    TimedAppend(head, rest);
    EffectByEvents(ms, p, i, orphaned, head);
    EffectAppend(ms, p, i, TimedOf(head), TimedOf(rest), x);
    EffectAppend(ms, p, i, TimedOf(head), TimedOf(rest), Act(effect, x));
    ActTwice(effect, x);
  }

  lemma ReminedRecovers(origin: Platform, after: Platform, was: Chain, n: nat, chain: Chain, m: nat, k: nat, p: int,
                        i: nat)
    requires HasMilestone(origin, p, i) && m <= n <= |was.logs| && n <= k <= |chain.logs|
    requires RecoversIff(origin, after, was, n, chain, m, k, p, i) && SameEvents(was.logs[m..n], chain.logs[m..n])
    ensures StatusOf(after, p, i) == StatusOf(RunEvents(origin, TimedOf(chain.logs[..k])), p, i)
  {
    assert chain.logs[m..k][..n - m] == chain.logs[m..n];
    ReminedHeals(origin.projects[p].milestones, p, i, was.logs[m..n], chain.logs[m..k],
                 StatusOf(RunEvents(origin, TimedOf(chain.logs[..m])), p, i).value);
  }

  /** So when the orphaned logs are mined again first, in their order, every milestone status recovers. */
  lemma MilestonesRecover(origin: Platform, db: Db<Projections>, env: Env, was: Chain, n: nat, retained: seq<StoredLog>,
                          chain: Chain, actions: seq<Action>, after: Db<Projections>, p: int, i: nat) returns (k: nat)
    requires ReorgedFrom(origin, db, env, was, n, retained, chain) && HasMilestone(origin, p, i)
    requires Regained(ESCROW, db, env, retained, chain, actions, after)
    ensures var m := Common(db, env, chain);
            m <= n <= |was.logs| && m <= k <= |chain.logs| &&
            Synced(after, chain, k, env.startBlock) &&
            (n <= k && SameEvents(was.logs[m..n], chain.logs[m..n]) ==>
               StatusOf(after.projections.platform, p, i) ==
               StatusOf(RunEvents(origin, TimedOf(chain.logs[..k])), p, i))
  {
    var m := Common(db, env, chain);
    k := MilestonesRecoverIff(origin, db, env, was, n, retained, chain, actions, after, p, i);
    if n <= k && SameEvents(was.logs[m..n], chain.logs[m..n]) {
      ReminedRecovers(origin, after.projections.platform, was, n, chain, m, k, p, i);
    }
  }

  lemma ReleaseNotHealed(origin: Platform, was: Chain, n: nat, chain: Chain, m: nat, p: int, i: nat, x: MilestoneStatus)
    requires HasMilestone(origin, p, i) && n == m + 1 <= |was.logs| && m == |chain.logs| && x != RELEASED
    requires EventOf(was.logs[m]) == Released(p, origin.projects[p].milestones[i].sortOrder)
    requires FindMilestone(origin.projects[p].milestones, origin.projects[p].milestones[i].sortOrder) == Some(i)
    ensures !Heals(EffectOf(origin, p, i, TimedOf(was.logs[m..n])),
                   EffectOf(origin, p, i, TimedOf(chain.logs[m..m])), x)
  {
    var orphaned, ms := TimedOf(was.logs[m..n]), origin.projects[p].milestones;
    assert orphaned[0].event == EventOf(was.logs[m]) && orphaned[1..] == [];
    assert TotalEffect(ms, p, i, orphaned[1..]) == Keep;
    assert ProjectOf(orphaned[0].event) == Some(p) && EffectOn(ms, i, orphaned[0].event) == Overwrite(RELEASED);
    assert EffectOf(origin, p, i, TimedOf(chain.logs[m..m])) == Keep;
  }

  /** The failing input: the only orphaned log released a milestone and is not mined again. The milestone
      stays released, though on the new chain it is not. */
  lemma OrphanedReleaseStays(origin: Platform, db: Db<Projections>, env: Env, was: Chain, n: nat,
                             retained: seq<StoredLog>, chain: Chain, actions: seq<Action>, after: Db<Projections>,
                             p: int, i: nat)
    requires ReorgedFrom(origin, db, env, was, n, retained, chain) && HasMilestone(origin, p, i)
    requires Regained(ESCROW, db, env, retained, chain, actions, after)
    requires n == Common(db, env, chain) + 1 && |chain.logs| == Common(db, env, chain)
    requires n <= |was.logs| && EventOf(was.logs[n - 1]) == Released(p, origin.projects[p].milestones[i].sortOrder)
    requires FindMilestone(origin.projects[p].milestones, origin.projects[p].milestones[i].sortOrder) == Some(i)
    requires StatusOf(RunEvents(origin, TimedOf(chain.logs)), p, i) != Some(RELEASED)
    ensures StatusOf(after.projections.platform, p, i) != StatusOf(RunEvents(origin, TimedOf(chain.logs)), p, i)
  {
    var k := MilestonesRecoverIff(origin, db, env, was, n, retained, chain, actions, after, p, i);
    assert k == n - 1;
    ReleaseStays(origin, after.projections.platform, was, n, chain, n - 1, p, i);
  }

  lemma ReleaseStays(origin: Platform, after: Platform, was: Chain, n: nat, chain: Chain, m: nat, p: int, i: nat)
    requires HasMilestone(origin, p, i) && n == m + 1 <= |was.logs| && m == |chain.logs|
    requires EventOf(was.logs[m]) == Released(p, origin.projects[p].milestones[i].sortOrder)
    requires FindMilestone(origin.projects[p].milestones, origin.projects[p].milestones[i].sortOrder) == Some(i)
    requires StatusOf(RunEvents(origin, TimedOf(chain.logs)), p, i) != Some(RELEASED)
    requires RecoversIff(origin, after, was, n, chain, m, m, p, i)
    ensures StatusOf(after, p, i) != StatusOf(RunEvents(origin, TimedOf(chain.logs)), p, i)
  {
    assert chain.logs[..m] == chain.logs;
    ReleaseNotHealed(origin, was, n, chain, m, p, i, StatusOf(RunEvents(origin, TimedOf(chain.logs)), p, i).value);
  }

  /** One funded milestone, and the log that releases it in block 2, where the rewind point will be. */
  const ONE_FUNDED := Platform(map[0 := Project(ACTIVE, None, [Milestone(0, 0, 1, FUNDED, None, None, [])], None)], {})

  const RELEASE := Log(Origin(2, 7, 0), 0, 9, MilestoneFundsReleased, map[])

  const RELEASED_DB := Behind(RELEASE, Projections(NO_TABLES, RunEvents(ONE_FUNDED, TimedOf([RELEASE]))))

  lemma ReleaseReorged()
    ensures Reorged(RELEASED_DB, SHALLOW, OldChain(RELEASE), 1, [], NewChain())
    ensures Common(RELEASED_DB, SHALLOW, NewChain()) == 0
  {
    BehindSynced(RELEASE, RELEASED_DB.projections);
    assert RewindFrom(SHALLOW, 3) == 2;
    assert Kept(RELEASED_DB.rows, 2) == map[];
    CoveredPrefix(OldChain(RELEASE).logs, EndOf(1));
  }

  lemma ReleaseFound()
    ensures HasMilestone(ONE_FUNDED, 0, 0) && WellKeyed(ONE_FUNDED) && EventOf(RELEASE) == Released(0, 0)
    ensures FindMilestone(ONE_FUNDED.projects[0].milestones, 0) == Some(0)
    ensures RunEvents(ONE_FUNDED, TimedOf([])) == ONE_FUNDED && StatusOf(ONE_FUNDED, 0, 0) == Some(FUNDED)
  {
  }

  /** So it is for this database: the milestone stays released whatever the workers do after the rewind. */
  lemma OrphanedReleaseExample(actions: seq<Action>)
    ensures var after := Run(ESCROW, World(Rewound(ESCROW, RELEASED_DB, SHALLOW, []), [], map[]), SHALLOW, NewChain(),
                             actions).db;
            ReorgedFrom(ONE_FUNDED, RELEASED_DB, SHALLOW, OldChain(RELEASE), 1, [], NewChain()) &&
            StatusOf(RunEvents(ONE_FUNDED, TimedOf([])), 0, 0) == Some(FUNDED) &&
            StatusOf(after.projections.platform, 0, 0) != Some(FUNDED)
  {
    ReleaseReorged();
    ReleaseFound();
    var after := Run(ESCROW, World(Rewound(ESCROW, RELEASED_DB, SHALLOW, []), [], map[]), SHALLOW, NewChain(),
                     actions).db;
    assert OldChain(RELEASE).logs[..1] == [RELEASE];
    OrphanedReleaseStays(ONE_FUNDED, RELEASED_DB, SHALLOW, OldChain(RELEASE), 1, [], NewChain(), actions, after, 0, 0);
  }

  // ---------------------------------------------------------------- Dispute rows

  lemma MovesByEvents(ms: seq<Milestone>, p: int, i: nat, a: seq<Log>, b: seq<Log>)
    requires i < |ms| && SameEvents(a, b)
    ensures Moves(ms, p, i, TimedOf(a)) == Moves(ms, p, i, TimedOf(b))
  {
  }

  /** Once the orphaned logs are mined again first, in their order, the dispute rows are those on the new chain
      alone exactly when the orphaned logs do not both raise and resolve a dispute of the milestone. */
  ghost predicate DisputesIff(origin: Platform, after: Platform, was: Chain, n: nat, chain: Chain, m: nat, k: nat,
                              p: int, i: nat)
    requires HasMilestone(origin, p, i) && m <= n <= |was.logs| && m <= k <= |chain.logs|
  {
    n <= k && SameEvents(was.logs[m..n], chain.logs[m..n]) ==>
      (DisputesOf(after, p, i) == DisputesOf(RunEvents(origin, TimedOf(chain.logs[..k])), p, i) <==>
       !RaisesAndCloses(Moves(origin.projects[p].milestones, p, i, TimedOf(was.logs[m..n]))))
  }

  lemma FoldDisputes(origin: Platform, s: Projections, was: Chain, n: nat, chain: Chain, m: nat, k: nat, p: int, i: nat)
    requires WellKeyed(origin) && HasMilestone(origin, p, i) && m <= n <= |was.logs| && m <= k <= |chain.logs|
    requires was.logs[..m] == chain.logs[..m] && s.platform == RunEvents(origin, TimedOf(was.logs[..n]))
    requires OneOpen(DisputesOf(origin, p, i))
    ensures DisputesIff(origin, Fold(ESCROW, s, chain.logs[m..k]).platform, was, n, chain, m, k, p, i)
  {
    if n <= k && SameEvents(was.logs[m..n], chain.logs[m..n]) {
      FoldPlatform(s, chain.logs[m..k]);
      RunSplit(origin, was.logs, m, n);
      RunSplit(origin, chain.logs, m, k);
      TailSplit(RunEvents(RunEvents(origin, TimedOf(chain.logs[..m])), TimedOf(was.logs[m..n])), chain.logs, m, n, k);
      TailSplit(RunEvents(origin, TimedOf(chain.logs[..m])), chain.logs, m, n, k);
      MovesByEvents(origin.projects[p].milestones, p, i, was.logs[m..n], chain.logs[m..n]);
      TailsRecoverIff(origin, TimedOf(chain.logs[..m]), TimedOf(was.logs[m..n]), TimedOf(chain.logs[m..n]),
                      TimedOf(chain.logs[n..k]), p, i);
    }
  }

  lemma RunSplit(s: Platform, logs: seq<Log>, m: nat, n: nat)
    requires m <= n <= |logs|
    ensures RunEvents(s, TimedOf(logs[..n])) == RunEvents(RunEvents(s, TimedOf(logs[..m])), TimedOf(logs[m..n]))
  {
    TimedSplit(logs, m, n);
    RunsAppend(s, TimedOf(logs[..m]), TimedOf(logs[m..n]));
  }

  lemma TailSplit(s: Platform, logs: seq<Log>, m: nat, n: nat, k: nat)
    requires m <= n <= k <= |logs|
    ensures RunEvents(s, TimedOf(logs[m..k])) == RunEvents(RunEvents(s, TimedOf(logs[m..n])), TimedOf(logs[n..k]))
  {
    assert logs[m..k] == logs[m..n] + logs[n..k];
    TimedAppend(logs[m..n], logs[n..k]);
    RunsAppend(s, TimedOf(logs[m..n]), TimedOf(logs[n..k]));
  }

  /** So it is after a rewind, whatever the workers then do. */
  lemma DisputesRecoverIff(origin: Platform, db: Db<Projections>, env: Env, was: Chain, n: nat,
                           retained: seq<StoredLog>, chain: Chain, actions: seq<Action>, after: Db<Projections>,
                           p: int, i: nat) returns (k: nat)
    requires ReorgedFrom(origin, db, env, was, n, retained, chain) && HasMilestone(origin, p, i)
    requires Regained(ESCROW, db, env, retained, chain, actions, after)
    requires OneOpen(DisputesOf(origin, p, i))
    ensures var m := Common(db, env, chain);
            m <= n <= |was.logs| && m <= k <= |chain.logs| &&
            Synced(after, chain, k, env.startBlock) &&
            DisputesIff(origin, after.projections.platform, was, n, chain, m, k, p, i)
  {
    var start: Projections;
    k, start := RegainedFrom(origin, db, env, was, n, retained, chain, actions, after);
    FoldDisputes(origin, start, was, n, chain, Common(db, env, chain), k, p, i);
  }

  /** The failing input: a dispute raised and resolved in the orphaned logs. Once they are mined again it is
      there twice. */
  lemma ReminedDisputeDoubles(origin: Platform, db: Db<Projections>, env: Env, was: Chain, n: nat,
                              retained: seq<StoredLog>, chain: Chain, actions: seq<Action>, after: Db<Projections>,
                             p: int, i: nat)
      returns (k: nat)
    requires ReorgedFrom(origin, db, env, was, n, retained, chain) && HasMilestone(origin, p, i)
    requires Regained(ESCROW, db, env, retained, chain, actions, after)
    requires var ms := origin.projects[p].milestones;
             OneOpen(DisputesOf(origin, p, i)) && FindMilestone(ms, ms[i].sortOrder) == Some(i) &&
             n == Common(db, env, chain) + 2 && n <= |was.logs| && n <= |chain.logs| &&
             SameEvents(was.logs[n - 2..n], chain.logs[n - 2..n]) &&
             EventOf(was.logs[n - 2]).Raised? && EventOf(was.logs[n - 1]).Resolved? &&
             EventOf(was.logs[n - 2]).projectId == EventOf(was.logs[n - 1]).projectId == p &&
             EventOf(was.logs[n - 2]).milestoneIndex == EventOf(was.logs[n - 1]).milestoneIndex == ms[i].sortOrder
    ensures k <= |chain.logs| && Synced(after, chain, k, env.startBlock) &&
            (k >= n ==> DisputesOf(after.projections.platform, p, i) !=
                        DisputesOf(RunEvents(origin, TimedOf(chain.logs[..k])), p, i))
  {
    k := DisputesRecoverIff(origin, db, env, was, n, retained, chain, actions, after, p, i);
    CourseRaisesAndCloses(origin.projects[p].milestones, p, i, was.logs[n - 2..n]);
  }

  lemma CourseRaisesAndCloses(ms: seq<Milestone>, p: int, i: nat, logs: seq<Log>)
    requires i < |ms| && FindMilestone(ms, ms[i].sortOrder) == Some(i) && |logs| == 2
    requires EventOf(logs[0]).Raised? && EventOf(logs[1]).Resolved?
    requires EventOf(logs[0]).projectId == EventOf(logs[1]).projectId == p
    requires EventOf(logs[0]).milestoneIndex == EventOf(logs[1]).milestoneIndex == ms[i].sortOrder
    ensures RaisesAndCloses(Moves(ms, p, i, TimedOf(logs)))
  {
    var moves := Moves(ms, p, i, TimedOf(logs));
    assert moves[0].Raise? && moves[1].Close?;
  }
}

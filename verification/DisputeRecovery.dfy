/** When the dispute rows of a milestone survive the redelivery of events (event-sync-service.ts,
    `syncDisputeRaised` and `syncDisputeResolved`). */
module DisputeRecovery {
  import opened Basics
  import opened Events
  import opened EscrowRows
  import opened Funding
  import opened MilestoneProjection
  import opened DisputeResolution

  /** What an event does to the dispute rows of one milestone. */
  datatype Move = Stay | Raise | Close(status: DisputeStatus)

  function MoveOn(ms: seq<Milestone>, p: int, i: nat, e: Event): Move
    requires i < |ms|
  {
    if ProjectOf(e) != Some(p) then Stay
    else
      match e
      case Raised(_, k, _, _) => if FindMilestone(ms, k) == Some(i) then Raise else Stay
      case Resolved(_, k, kind) => if FindMilestone(ms, k) == Some(i) then Close(ResolvedStatus(kind)) else Stay
      case EmergencyResolved(_, k, kind, _, _) =>
        if FindMilestone(ms, k) == Some(i) then Close(ResolvedStatus(kind)) else Stay
      case _ => Stay
  }

  function Moved(m: Move, ds: seq<DisputeStatus>): seq<DisputeStatus> {
    match m
    case Stay => ds
    case Raise => if LatestOpen(ds).Some? then ds else ds + [D_OPEN]
    case Close(status) => if LatestOpen(ds).Some? then ds[LatestOpen(ds).value := status] else ds
  }

  function DisputeRun(moves: seq<Move>, ds: seq<DisputeStatus>): seq<DisputeStatus>
    decreases |moves|
  {
    if moves == [] then ds else DisputeRun(moves[1..], Moved(moves[0], ds))
  }

  function Moves(ms: seq<Milestone>, p: int, i: nat, w: seq<Timed>): seq<Move>
    requires i < |ms|
  {
    seq(|w|, j requires 0 <= j < |w| => MoveOn(ms, p, i, w[j].event))
  }

  // ---------------------------------------------------------------- The platform's rows follow the moves

  function DisputesOf(s: Platform, p: int, i: nat): seq<DisputeStatus> {
    if p in s.projects && i < |s.projects[p].milestones| then s.projects[p].milestones[i].disputes else []
  }

  lemma OpenIffLatest(m: Milestone)
    ensures HasOpenDispute(m) <==> LatestOpen(m.disputes).Some?
  {
  }

  lemma FundedDisputes(p: Project, e: Event, now: int, i: nat)
    requires e.Funded? && DistinctIds(p.milestones) && i < |p.milestones|
    ensures var ms := ApplyToProject(p, e, now).milestones;
            |ms| == |p.milestones| && ms[i].disputes == p.milestones[i].disputes
  {
    FundExactly(p.milestones, e.fundedAmountAfter, now);
  }

  lemma ProjectDisputes(p: Project, id: int, e: Event, now: int, i: nat)
    requires DistinctIds(p.milestones) && i < |p.milestones| && ProjectOf(e) == Some(id)
    ensures var ms := ApplyToProject(p, e, now).milestones;
            |ms| == |p.milestones| && ms[i].disputes == Moved(MoveOn(p.milestones, id, i, e), p.milestones[i].disputes)
  {
    OpenIffLatest(p.milestones[i]);
    if e.Funded? {
      FundedDisputes(p, e, now, i);
    }
  }

  lemma PlatformDisputes(s: Platform, e: Event, now: int, p: int, i: nat)
    requires WellKeyed(s) && p in s.projects && i < |s.projects[p].milestones|
    ensures DisputesOf(ApplyToPlatform(s, e, now), p, i) ==
            Moved(MoveOn(s.projects[p].milestones, p, i, e), DisputesOf(s, p, i))
  {
    if ProjectOf(e) == Some(p) {
      ProjectDisputes(s.projects[p], p, e, now, i);
    }
  }

  lemma {:induction false} MovesBySkeleton(a: seq<Milestone>, b: seq<Milestone>, p: int, i: nat, w: seq<Timed>)
    requires Skeleton(a) == Skeleton(b) && i < |a| == |b|
    ensures Moves(a, p, i, w) == Moves(b, p, i, w)
  {
    forall k ensures FindMilestone(a, k) == FindMilestone(b, k) {
      FindBySkeleton(a, b, k, 0);
    }
  }

  /** The dispute rows after a run are what the run's moves make of the rows before it. */
  lemma {:induction false} RunIsMoves(s: Platform, w: seq<Timed>, p: int, i: nat)
    requires WellKeyed(s) && p in s.projects && i < |s.projects[p].milestones|
    ensures DisputesOf(RunEvents(s, w), p, i) ==
            DisputeRun(Moves(s.projects[p].milestones, p, i, w), DisputesOf(s, p, i))
    decreases |w|
  {
    if w != [] {
      var next, ms := ApplyToPlatform(s, w[0].event, w[0].now), s.projects[p].milestones;
      PlatformStep(s, w[0].event, w[0].now, p, i);
      PlatformDisputes(s, w[0].event, w[0].now, p, i);
      RunIsMoves(next, w[1..], p, i);
      MovesBySkeleton(next.projects[p].milestones, ms, p, i, w[1..]);
      assert Moves(ms, p, i, w)[1..] == Moves(ms, p, i, w[1..]);
    }
  }

  // ---------------------------------------------------------------- When moves leave the rows alone

  predicate Raises(moves: seq<Move>) { exists j :: 0 <= j < |moves| && moves[j].Raise? }

  predicate Closes(moves: seq<Move>) { exists j :: 0 <= j < |moves| && moves[j].Close? }

  predicate Proper(moves: seq<Move>) {
    forall j | 0 <= j < |moves| && moves[j].Close? :: !IsOpen(moves[j].status)
  }

  /** No row goes away, and no closed row changes. */
  predicate Grows(a: seq<DisputeStatus>, b: seq<DisputeStatus>) {
    |a| <= |b| && forall k | 0 <= k < |a| && !IsOpen(a[k]) :: b[k] == a[k]
  }

  lemma {:induction false} RunGrows(moves: seq<Move>, ds: seq<DisputeStatus>)
    ensures Grows(ds, DisputeRun(moves, ds))
    decreases |moves|
  {
    if moves != [] {
      RunGrows(moves[1..], Moved(moves[0], ds));
    }
  }

  predicate HasOpen(ds: seq<DisputeStatus>) { LatestOpen(ds).Some? }

  /** The first move that does anything changes the rows for good. */
  lemma {:induction false} UnchangedIff(moves: seq<Move>, ds: seq<DisputeStatus>)
    requires Proper(moves)
    ensures DisputeRun(moves, ds) == ds <==> if HasOpen(ds) then !Closes(moves) else !Raises(moves)
    decreases |moves|
  {
    if moves != [] {
      var m, rest := moves[0], moves[1..];
      assert forall j | 0 <= j < |rest| :: rest[j] == moves[j + 1];
      RestOf(moves);
      RunGrows(rest, Moved(m, ds));
      if Moved(m, ds) == ds {
        UnchangedIff(rest, ds);
      }
    }
  }

  lemma RestOf(moves: seq<Move>)
    requires moves != []
    ensures Raises(moves) <==> moves[0].Raise? || Raises(moves[1..])
    ensures Closes(moves) <==> moves[0].Close? || Closes(moves[1..])
  {
    if j :| 0 <= j < |moves| && moves[j].Raise? && j > 0 {
      assert moves[1..][j - 1].Raise?;
    }
    if j :| 0 <= j < |moves| && moves[j].Close? && j > 0 {
      assert moves[1..][j - 1].Close?;
    }
    if j :| 0 <= j < |moves| - 1 && moves[1..][j].Raise? {
      assert moves[j + 1].Raise?;
    }
    if j :| 0 <= j < |moves| - 1 && moves[1..][j].Close? {
      assert moves[j + 1].Close?;
    }
  }

  // ---------------------------------------------------------------- Openness and number of rows

  /** Whether a dispute is open after the moves. */
  function OpenAfter(moves: seq<Move>, open: bool): bool
    decreases |moves|
  {
    if moves == [] then open
    else OpenAfter(moves[1..], if moves[0].Raise? then true else if moves[0].Close? then false else open)
  }

  /** How many rows the moves add. */
  function Added(moves: seq<Move>, open: bool): nat
    decreases |moves|
  {
    if moves == [] then 0
    else if moves[0].Raise? then (if open then 0 else 1) + Added(moves[1..], true)
    else Added(moves[1..], if moves[0].Close? then false else open)
  }

  lemma OneMove(m: Move, ds: seq<DisputeStatus>)
    requires OneOpen(ds) && (m.Close? ==> !IsOpen(m.status))
    ensures OneOpen(Moved(m, ds))
    ensures HasOpen(Moved(m, ds)) == if m.Raise? then true else if m.Close? then false else HasOpen(ds)
    ensures |Moved(m, ds)| == |ds| + if m.Raise? && !HasOpen(ds) then 1 else 0
  {
    if HasOpen(ds) && m.Close? {
      ResolvingKeepsOneOpen(ds, LatestOpen(ds).value, m.status);
      ResolvingLeavesNone(ds, LatestOpen(ds).value, m.status);
    } else if !HasOpen(ds) && m.Raise? {
      AppendOpen(ds);
    }
  }

  lemma {:induction false} RunOpens(moves: seq<Move>, ds: seq<DisputeStatus>)
    requires OneOpen(ds) && Proper(moves)
    ensures OneOpen(DisputeRun(moves, ds)) && HasOpen(DisputeRun(moves, ds)) == OpenAfter(moves, HasOpen(ds))
    ensures |DisputeRun(moves, ds)| == |ds| + Added(moves, HasOpen(ds))
    decreases |moves|
  {
    if moves != [] {
      assert forall j | 0 <= j < |moves| - 1 :: moves[1..][j] == moves[j + 1];
      OneMove(moves[0], ds);
      RunOpens(moves[1..], Moved(moves[0], ds));
    }
  }

  lemma {:induction false} OpenAfterIs(moves: seq<Move>, open: bool)
    ensures !Closes(moves) ==> OpenAfter(moves, open) == (open || Raises(moves))
    ensures !Raises(moves) ==> OpenAfter(moves, open) == (open && !Closes(moves))
    ensures Raises(moves) || Closes(moves) ==> OpenAfter(moves, open) == OpenAfter(moves, !open)
    ensures Added(moves, false) > 0 <==> Raises(moves)
    ensures Closes(moves) && OpenAfter(moves, true) ==> Added(moves, true) > 0
    decreases |moves|
  {
    if moves != [] {
      RestOf(moves);
      OpenAfterIs(moves[1..], open);
      OpenAfterIs(moves[1..], !open);
    }
  }

  // ---------------------------------------------------------------- Redelivery

  predicate RaisesAndCloses(moves: seq<Move>) { Raises(moves) && Closes(moves) }

  lemma TwiceIff(moves: seq<Move>, ds: seq<DisputeStatus>)
    requires OneOpen(ds) && Proper(moves)
    ensures DisputeRun(moves, DisputeRun(moves, ds)) == DisputeRun(moves, ds) <==> !RaisesAndCloses(moves)
  {
    var once := DisputeRun(moves, ds);
    RunOpens(moves, ds);
    OpenAfterIs(moves, HasOpen(ds));
    UnchangedIff(moves, once);
  }

  /** A difference a redelivery made is never undone by what follows. */
  lemma TwiceThenIff(moves: seq<Move>, rest: seq<Move>, ds: seq<DisputeStatus>)
    requires OneOpen(ds) && Proper(moves) && Proper(rest)
    ensures DisputeRun(rest, DisputeRun(moves, DisputeRun(moves, ds))) == DisputeRun(rest, DisputeRun(moves, ds)) <==>
            !RaisesAndCloses(moves)
  {
    var once := DisputeRun(moves, ds);
    TwiceIff(moves, ds);
    RunOpens(moves, ds);
    RunOpens(moves, once);
    OpenAfterIs(moves, HasOpen(ds));
    OpenAfterIs(moves, true);
    RunOpens(rest, once);
    RunOpens(rest, DisputeRun(moves, once));
  }

  lemma MovesProper(ms: seq<Milestone>, p: int, i: nat, w: seq<Timed>)
    requires i < |ms|
    ensures Proper(Moves(ms, p, i, w))
  {
  }

  /** For a milestone with at most one open dispute, delivering a run of events a second time leaves its
      dispute rows as the first delivery left them exactly when the run does not contain both a raise and a
      resolution of that milestone. */
  lemma DisputesReprocessedIff(s: Platform, w: seq<Timed>, p: int, i: nat)
    requires WellKeyed(s) && p in s.projects && i < |s.projects[p].milestones| && OneOpen(DisputesOf(s, p, i))
    ensures DisputesOf(RunEvents(RunEvents(s, w), w), p, i) == DisputesOf(RunEvents(s, w), p, i) <==>
            !RaisesAndCloses(Moves(s.projects[p].milestones, p, i, w))
  {
    var ms := s.projects[p].milestones;
    RunIsOneEffect(s, w, p, i);
    RunIsMoves(s, w, p, i);
    RunIsMoves(RunEvents(s, w), w, p, i);
    MovesBySkeleton(RunEvents(s, w).projects[p].milestones, ms, p, i, w);
    MovesProper(ms, p, i, w);
    TwiceIff(Moves(ms, p, i, w), DisputesOf(s, p, i));
  }

  /** The milestone is the one it was in `s`, but for what events change. */
  ghost predicate Continues(t: Platform, s: Platform, p: int, i: nat) {
    && WellKeyed(t) && p in s.projects && i < |s.projects[p].milestones|
    && p in t.projects && |t.projects[p].milestones| == |s.projects[p].milestones|
    && Skeleton(t.projects[p].milestones) == Skeleton(s.projects[p].milestones)
  }

  lemma ContinuesRun(t: Platform, s: Platform, w: seq<Timed>, p: int, i: nat)
    requires Continues(t, s, p, i)
    ensures Continues(RunEvents(t, w), s, p, i)
    ensures DisputesOf(RunEvents(t, w), p, i) ==
            DisputeRun(Moves(s.projects[p].milestones, p, i, w), DisputesOf(t, p, i))
  {
    RunIsOneEffect(t, w, p, i);
    RunIsMoves(t, w, p, i);
    MovesBySkeleton(t.projects[p].milestones, s.projects[p].milestones, p, i, w);
  }

  /** A common beginning, a tail, and a tail that begins with the same moves. */
  lemma TailsRecoverIff(s: Platform, common: seq<Timed>, orphaned: seq<Timed>, again: seq<Timed>, rest: seq<Timed>,
                        p: int, i: nat)
    requires WellKeyed(s) && p in s.projects && i < |s.projects[p].milestones| && OneOpen(DisputesOf(s, p, i))
    requires Moves(s.projects[p].milestones, p, i, again) == Moves(s.projects[p].milestones, p, i, orphaned)
    ensures var c := RunEvents(s, common);
            DisputesOf(RunEvents(RunEvents(RunEvents(c, orphaned), again), rest), p, i) ==
              DisputesOf(RunEvents(RunEvents(c, again), rest), p, i) <==>
            !RaisesAndCloses(Moves(s.projects[p].milestones, p, i, orphaned))
  {
    var ms, c := s.projects[p].milestones, RunEvents(s, common);
    ContinuesRun(s, s, common, p, i);
    ContinuesRun(c, s, orphaned, p, i);
    ContinuesRun(RunEvents(c, orphaned), s, again, p, i);
    ContinuesRun(RunEvents(RunEvents(c, orphaned), again), s, rest, p, i);
    ContinuesRun(c, s, again, p, i);
    ContinuesRun(RunEvents(c, again), s, rest, p, i);
    MovesProper(ms, p, i, common);
    MovesProper(ms, p, i, orphaned);
    MovesProper(ms, p, i, rest);
    RunOpens(Moves(ms, p, i, common), DisputesOf(s, p, i));
    TwiceThenIff(Moves(ms, p, i, orphaned), Moves(ms, p, i, rest), DisputesOf(c, p, i));
  }
}

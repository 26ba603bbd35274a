/** The projections onto the project, milestone and dispute tables (event-sync-service.ts). */
module MilestoneProjection {
  import opened Basics
  import opened Events
  import opened EscrowRows
  import opened Funding

  /** The platform's own tables: projects by on-chain identifier, and the registered wallets. */
  datatype Platform = Platform(projects: map<int, Project>, users: set<Address>)

  function FindMilestone(ms: seq<Milestone>, sortOrder: int): Option<nat> {
    FindFrom(ms, sortOrder, 0)
  }

  function FindFrom(ms: seq<Milestone>, sortOrder: int, from: nat): (r: Option<nat>)
    requires from <= |ms|
    ensures r.Some? ==> r.value < |ms| && ms[r.value].sortOrder == sortOrder
    decreases |ms| - from
  {
    if from == |ms| then None
    else if ms[from].sortOrder == sortOrder then Some(from)
    else FindFrom(ms, sortOrder, from + 1)
  }

  function PreserveTerminalStatus(current: ProjectStatus, computed: ProjectStatus): ProjectStatus {
    if current == COMPLETED || current == CANCELLED || current == DISPUTED then current else computed
  }

  predicate AllSettled(ms: seq<Milestone>) {
    forall i | 0 <= i < |ms| :: IsSettled(ms[i].status)
  }

  predicate AnyOpenDispute(ms: seq<Milestone>) {
    exists i | 0 <= i < |ms| :: HasOpenDispute(ms[i])
  }

  predicate HasOpenDispute(m: Milestone) {
    exists d | d in m.disputes :: IsOpen(d)
  }

  /** Index of the open dispute created last. */
  function LatestOpen(ds: seq<DisputeStatus>): (r: Option<nat>)
    ensures r.Some? ==> r.value < |ds| && IsOpen(ds[r.value])
    ensures r.None? <==> forall d | d in ds :: !IsOpen(d)
  {
    if ds == [] then None
    else if IsOpen(ds[|ds| - 1]) then Some(|ds| - 1)
    else
      assert ds == ds[..|ds| - 1] + [ds[|ds| - 1]];
      LatestOpen(ds[..|ds| - 1])
  }

  function ResolvedStatus(resolutionKind: int): DisputeStatus {
    if resolutionKind == 0 then RESOLVED_FREELANCER_FAVOR
    else if resolutionKind == 1 then RESOLVED_CLIENT_FAVOR
    else RESOLVED_SPLIT
  }

  predicate Cancellable(s: MilestoneStatus) {
    s != RELEASED && s != VOIDED && s != REJECTED
  }

  function ApplyCreated(p: Project, totalAmount: int): Project {
    p.(status := if p.status in {DRAFT, AWAITING_FREELANCER, AWAITING_ESCROW} then AWAITING_ESCROW else p.status,
       totalValueWei := Some(totalAmount))
  }

  function ApplyFunded(p: Project, fundedWei: int, now: int): Project {
    p.(status := PreserveTerminalStatus(p.status, ReconciledStatus(p.totalValueWei, fundedWei)),
       milestones := Fund(p.milestones, fundedWei, now))
  }

  function ApplyReleased(p: Project, i: nat, now: int): Project
    requires i < |p.milestones|
  {
    var ms := p.milestones[i := p.milestones[i].(status := RELEASED, releasedAt := Some(now))];
    p.(status := if AllSettled(ms) then COMPLETED else ACTIVE, milestones := ms)
  }

  function ApplyRaised(p: Project, i: nat): Project
    requires i < |p.milestones|
  {
    var m := p.milestones[i];
    var disputes := if HasOpenDispute(m) then m.disputes else m.disputes + [D_OPEN];
    p.(status := DISPUTED, milestones := p.milestones[i := m.(status := M_DISPUTED, disputes := disputes)])
  }

  function ApplyResolved(p: Project, i: nat, resolutionKind: int, now: int): Project
    requires i < |p.milestones|
  {
    var m := p.milestones[i];
    var latest := LatestOpen(m.disputes);
    var disputes := if latest.Some? then m.disputes[latest.value := ResolvedStatus(resolutionKind)] else m.disputes;
    var ms := p.milestones[i := m.(status := if resolutionKind == 1 then VOIDED else RELEASED,
                                   releasedAt := Some(now), disputes := disputes)];
    p.(status := if AnyOpenDispute(ms) then DISPUTED else if AllSettled(ms) then COMPLETED else ACTIVE,
       milestones := ms)
  }

  function ApplyCancelled(p: Project): Project {
    p.(status := CANCELLED,
       milestones := seq(|p.milestones|, i requires 0 <= i < |p.milestones| =>
         if Cancellable(p.milestones[i].status) then p.milestones[i].(status := VOIDED) else p.milestones[i]))
  }

  function SetStatus(p: Project, i: nat, status: MilestoneStatus): Project
    requires i < |p.milestones|
  {
    p.(milestones := p.milestones[i := p.milestones[i].(status := status)])
  }

  /** One event on the project it names. Events for an unknown milestone change nothing. */
  function ApplyToProject(p: Project, e: Event, now: int): Project {
    match e
    case Created(_, _, _, _, total, _) => ApplyCreated(p, total)
    case Funded(_, _, fundedWei) => ApplyFunded(p, fundedWei, now)
    case Submitted(_, k, _, _) =>
      (match FindMilestone(p.milestones, k)
       case Some(i) => SetStatus(p, i, SUBMITTED).(status := ACTIVE)
       case None => p)
    case Approved(_, k) =>
      (match FindMilestone(p.milestones, k) case Some(i) => SetStatus(p, i, APPROVED) case None => p)
    case Released(_, k) =>
      (match FindMilestone(p.milestones, k) case Some(i) => ApplyReleased(p, i, now) case None => p)
    case Raised(_, k, _, _) =>
      (match FindMilestone(p.milestones, k) case Some(i) => ApplyRaised(p, i) case None => p)
    case Resolved(_, k, kind) =>
      (match FindMilestone(p.milestones, k) case Some(i) => ApplyResolved(p, i, kind, now) case None => p)
    case EmergencyResolved(_, k, kind, _, _) =>
      (match FindMilestone(p.milestones, k) case Some(i) => ApplyResolved(p, i, kind, now) case None => p)
    case Cancelled(_) => ApplyCancelled(p)
    case _ => p
  }

  function ProjectOf(e: Event): Option<int> {
    match e
    case Created(p, _, _, _, _, _) => Some(p)
    case Funded(p, _, _) => Some(p)
    case Submitted(p, _, _, _) => Some(p)
    case Approved(p, _) => Some(p)
    case Released(p, _) => Some(p)
    case Raised(p, _, _, _) => Some(p)
    case Resolved(p, _, _) => Some(p)
    case EmergencyResolved(p, _, _, _, _) => Some(p)
    case Cancelled(p) => Some(p)
    case _ => None
  }

  /** One live event on the platform's tables. An unknown project is imported, without milestones, when
      its client is a registered wallet. */
  function ApplyToPlatform(s: Platform, e: Event, now: int): Platform {
    var p := ProjectOf(e);
    if p == None then s
    else if p.value in s.projects then
      s.(projects := s.projects[p.value := ApplyToProject(s.projects[p.value], e, now)])
    else if e.Created? && e.client in s.users then
      s.(projects := s.projects[p.value := Project(AWAITING_ESCROW, Some(e.totalAmount), [], None)])
    else s
  }

  datatype Timed = Timed(event: Event, now: int)

  function RunEvents(s: Platform, w: seq<Timed>): Platform
    decreases |w|
  {
    if w == [] then s
    else RunEvents(ApplyToPlatform(s, w[0].event, w[0].now), w[1..])
  }

  // ---------------------------------------------------------------- What an event does to one milestone

  datatype Effect = Keep | Overwrite(s: MilestoneStatus) | Promote | Void

  function Act(e: Effect, s: MilestoneStatus): MilestoneStatus {
    match e
    case Keep => s
    case Overwrite(t) => t
    case Promote => if Promotable(s) then FUNDED else s
    case Void => if Cancellable(s) then VOIDED else s
  }

  /** The effect of an event on milestone `i` of the project, from data no event changes. */
  function EffectOn(ms: seq<Milestone>, i: nat, e: Event): Effect
    requires i < |ms|
  {
    match e
    case Funded(_, _, fundedWei) => if Fundable(ms, ms[i], fundedWei) then Promote else Keep
    case Submitted(_, k, _, _) => if FindMilestone(ms, k) == Some(i) then Overwrite(SUBMITTED) else Keep
    case Approved(_, k) => if FindMilestone(ms, k) == Some(i) then Overwrite(APPROVED) else Keep
    case Released(_, k) => if FindMilestone(ms, k) == Some(i) then Overwrite(RELEASED) else Keep
    case Raised(_, k, _, _) => if FindMilestone(ms, k) == Some(i) then Overwrite(M_DISPUTED) else Keep
    case Resolved(_, k, kind) =>
      if FindMilestone(ms, k) == Some(i) then Overwrite(if kind == 1 then VOIDED else RELEASED) else Keep
    case EmergencyResolved(_, k, kind, _, _) =>
      if FindMilestone(ms, k) == Some(i) then Overwrite(if kind == 1 then VOIDED else RELEASED) else Keep
    case Cancelled(_) => Void
    case _ => Keep
  }

  /** First `a`, then `b`. */
  function Compose(a: Effect, b: Effect): Effect {
    match b
    case Keep => a
    case Overwrite(_) => b
    case _ =>
      if a.Overwrite? then Overwrite(Act(b, a.s))
      else if a == Void || b == Void then Void
      else Promote
  }

  lemma ComposeActs(a: Effect, b: Effect, s: MilestoneStatus)
    ensures Act(b, Act(a, s)) == Act(Compose(a, b), s)
  {
  }

  /** Doing any effect twice is doing it once. */
  lemma ActTwice(a: Effect, s: MilestoneStatus)
    ensures Act(a, Act(a, s)) == Act(a, s)
  {
  }

  ghost predicate WellKeyed(s: Platform) {
    forall p | p in s.projects :: DistinctIds(s.projects[p].milestones)
  }

  lemma {:induction false} FindBySkeleton(a: seq<Milestone>, b: seq<Milestone>, k: int, from: nat)
    requires Skeleton(a) == Skeleton(b) && from <= |a| == |b|
    ensures FindFrom(a, k, from) == FindFrom(b, k, from)
    decreases |a| - from
  {
    if from < |a| {
      assert Skeleton(a)[from] == Skeleton(b)[from];
      FindBySkeleton(a, b, k, from + 1);
    }
  }

  lemma EffectBySkeleton(a: seq<Milestone>, b: seq<Milestone>, i: nat, e: Event)
    requires Skeleton(a) == Skeleton(b) && i < |a| == |b|
    ensures EffectOn(a, i, e) == EffectOn(b, i, e)
  {
    assert Skeleton(a)[i] == Skeleton(b)[i];
    CumulativeBySkeleton(a, b, a[i], b[i]);
    forall k ensures FindMilestone(a, k) == FindMilestone(b, k) {
      FindBySkeleton(a, b, k, 0);
    }
  }

  /** What one event does to milestone `i` of the project it names. */
  predicate StepsTo(p: Project, e: Event, now: int, i: nat)
    requires i < |p.milestones|
  {
    var ms := ApplyToProject(p, e, now).milestones;
    Skeleton(ms) == Skeleton(p.milestones) && |ms| == |p.milestones| && DistinctIds(ms) &&
    ms[i].status == Act(EffectOn(p.milestones, i, e), p.milestones[i].status)
  }

  lemma FundedStep(p: Project, e: Event, now: int, i: nat)
    requires e.Funded? && DistinctIds(p.milestones) && i < |p.milestones|
    ensures StepsTo(p, e, now, i)
  {
    FundExactly(p.milestones, e.fundedAmountAfter, now);
    FundKeepsSkeleton(p.milestones, e.fundedAmountAfter, now);
  }

  lemma OtherStep(p: Project, e: Event, now: int, i: nat)
    requires !e.Funded? && DistinctIds(p.milestones) && i < |p.milestones|
    ensures StepsTo(p, e, now, i)
  {
  }

  lemma ProjectStep(p: Project, e: Event, now: int, i: nat)
    requires DistinctIds(p.milestones) && i < |p.milestones|
    ensures StepsTo(p, e, now, i)
  {
    if e.Funded? {
      FundedStep(p, e, now, i);
    } else {
      OtherStep(p, e, now, i);
    }
  }

  /** The accumulated effect of a run on milestone `i` of project `p`. */
  function TotalEffect(ms: seq<Milestone>, p: int, i: nat, w: seq<Timed>): Effect
    requires i < |ms|
  {
    if w == [] then Keep
    else
      Compose(if ProjectOf(w[0].event) == Some(p) then EffectOn(ms, i, w[0].event) else Keep,
              TotalEffect(ms, p, i, w[1..]))
  }

  lemma PlatformStep(s: Platform, e: Event, now: int, p: int, i: nat)
    requires WellKeyed(s) && p in s.projects && i < |s.projects[p].milestones|
    ensures var ms, s' := s.projects[p].milestones, ApplyToPlatform(s, e, now);
            WellKeyed(s') && p in s'.projects &&
            var ms' := s'.projects[p].milestones;
            Skeleton(ms') == Skeleton(ms) && |ms'| == |ms| &&
            ms'[i].status ==
            Act(if ProjectOf(e) == Some(p) then EffectOn(ms, i, e) else Keep, ms[i].status)
  {
    var q := ProjectOf(e);
    if q.Some? && q.value in s.projects {
      var target := s.projects[q.value];
      if q.value == p {
        ProjectStep(target, e, now, i);
      } else if target.milestones != [] {
        ProjectStep(target, e, now, 0);
      } else {
        assert ApplyToProject(target, e, now).milestones == [] by {
          if e.Funded? {
            FundExactly([], e.fundedAmountAfter, now);
          }
        }
      }
    }
  }

  lemma {:induction false} TotalBySkeleton(a: seq<Milestone>, b: seq<Milestone>, p: int, i: nat, w: seq<Timed>)
    requires Skeleton(a) == Skeleton(b) && i < |a| == |b|
    ensures TotalEffect(a, p, i, w) == TotalEffect(b, p, i, w)
  {
    if w != [] {
      EffectBySkeleton(a, b, i, w[0].event);
      TotalBySkeleton(a, b, p, i, w[1..]);
    }
  }

  /** A whole run acts on a milestone's status as one single effect. */
  lemma {:induction false} RunIsOneEffect(s: Platform, w: seq<Timed>, p: int, i: nat)
    requires WellKeyed(s) && p in s.projects && i < |s.projects[p].milestones|
    ensures var ms, s' := s.projects[p].milestones, RunEvents(s, w);
            WellKeyed(s') && p in s'.projects &&
            var ms' := s'.projects[p].milestones;
            Skeleton(ms') == Skeleton(ms) && |ms'| == |ms| &&
            ms'[i].status == Act(TotalEffect(ms, p, i, w), ms[i].status)
    decreases |w|
  {
    if w != [] {
      var ms := s.projects[p].milestones;
      var next := ApplyToPlatform(s, w[0].event, w[0].now);
      PlatformStep(s, w[0].event, w[0].now, p, i);
      RunIsOneEffect(next, w[1..], p, i);
      TotalBySkeleton(next.projects[p].milestones, ms, p, i, w[1..]);
      ComposeActs(if ProjectOf(w[0].event) == Some(p) then EffectOn(ms, i, w[0].event) else Keep,
                  TotalEffect(ms, p, i, w[1..]), ms[i].status);
    }
  }

  /** Delivering any run of events a second time leaves every milestone status as the first delivery
      left it. */
  lemma ReprocessingHarmless(s: Platform, w: seq<Timed>, p: int, i: nat)
    requires WellKeyed(s) && p in s.projects && i < |s.projects[p].milestones|
    ensures var once, twice := RunEvents(s, w), RunEvents(RunEvents(s, w), w);
            p in once.projects && p in twice.projects &&
            |twice.projects[p].milestones| == |once.projects[p].milestones| == |s.projects[p].milestones| &&
            twice.projects[p].milestones[i].status == once.projects[p].milestones[i].status
  {
    var ms := s.projects[p].milestones;
    var once := RunEvents(s, w);
    RunIsOneEffect(s, w, p, i);
    RunIsOneEffect(once, w, p, i);
    TotalBySkeleton(once.projects[p].milestones, ms, p, i, w);
    ActTwice(TotalEffect(ms, p, i, w), ms[i].status);
  }
}

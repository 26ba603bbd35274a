/** The action guards of the milestone lifecycle (lib/contracts/status-mapping.ts). */
module StatusGuards {
  import opened Basics
  import opened EscrowRows

  datatype ContractProjectStatus = Active | Disputed | Completed | Cancelled
  datatype ContractMilestoneStatus = Pending | Submitted | Approved | Released | Refunded

  datatype GuardReason =
    | PROJECT_STATUS_BLOCKED | MILESTONE_STATUS_BLOCKED | MILESTONE_DISPUTED | NOT_PROJECT_PARTY
    | NOT_STALE_DISPUTE | PREVIOUS_MILESTONE_BLOCKED

  datatype GuardResult = Allowed | Blocked(reason: GuardReason)

  /** One milestone of the guards' input; `openDispute` says whether it has an open dispute. */
  datatype Entry = Entry(sortOrder: int, status: MilestoneStatus, openDispute: bool)

  function MapProject(s: ProjectStatus): Option<ContractProjectStatus> {
    match s
    case ACTIVE => Some(Active)
    case ON_HOLD => Some(Active)
    case DISPUTED => Some(Disputed)
    case COMPLETED => Some(Completed)
    case CANCELLED => Some(Cancelled)
    case _ => None
  }

  function MapMilestone(s: MilestoneStatus): ContractMilestoneStatus {
    match s
    case SUBMITTED => Submitted
    case CLIENT_REVIEW => Submitted
    case M_DISPUTED => Submitted
    case APPROVED => Approved
    case RELEASED => Released
    case VOIDED => Refunded
    case _ => Pending
  }

  predicate Settled(m: Entry) {
    MapMilestone(m.status) == Released || MapMilestone(m.status) == Refunded
  }

  predicate IsPending(m: Entry) { MapMilestone(m.status) == Pending }

  predicate PreviousMilestonesSettled(ms: seq<Entry>, current: int) {
    forall i | 0 <= i < |ms| && ms[i].sortOrder < current :: Settled(ms[i])
  }

  predicate Running(project: ProjectStatus) {
    MapProject(project) == Some(Active) || MapProject(project) == Some(Disputed)
  }

  /** Submit, approve and release differ only in the status they want to see. */
  function CanAdvance(project: ProjectStatus, ms: seq<Entry>, m: Entry, isParty: bool,
                      wanted: ContractMilestoneStatus): GuardResult
  {
    if !isParty then Blocked(NOT_PROJECT_PARTY)
    else if !Running(project) then Blocked(PROJECT_STATUS_BLOCKED)
    else if m.openDispute then Blocked(MILESTONE_DISPUTED)
    else if !PreviousMilestonesSettled(ms, m.sortOrder) then Blocked(PREVIOUS_MILESTONE_BLOCKED)
    else if MapMilestone(m.status) == wanted then Allowed
    else Blocked(MILESTONE_STATUS_BLOCKED)
  }

  function CanSubmitMilestone(project: ProjectStatus, ms: seq<Entry>, m: Entry, isParty: bool): GuardResult {
    CanAdvance(project, ms, m, isParty, Pending)
  }

  function CanApproveMilestone(project: ProjectStatus, ms: seq<Entry>, m: Entry, isParty: bool): GuardResult {
    CanAdvance(project, ms, m, isParty, Submitted)
  }

  function CanReleaseMilestone(project: ProjectStatus, ms: seq<Entry>, m: Entry, isParty: bool): GuardResult {
    CanAdvance(project, ms, m, isParty, Approved)
  }

  function CanRaiseDispute(project: ProjectStatus, m: Entry, isParty: bool): GuardResult {
    if !isParty then Blocked(NOT_PROJECT_PARTY)
    else if !Running(project) then Blocked(PROJECT_STATUS_BLOCKED)
    else if m.openDispute then Blocked(MILESTONE_DISPUTED)
    else if MapMilestone(m.status) == Submitted || MapMilestone(m.status) == Approved then Allowed
    else Blocked(MILESTONE_STATUS_BLOCKED)
  }

  function CanResolveStaleDispute(project: ProjectStatus, m: Entry): GuardResult {
    if !m.openDispute then Blocked(NOT_STALE_DISPUTE)
    else if !Running(project) then Blocked(PROJECT_STATUS_BLOCKED)
    else if Settled(m) then Blocked(MILESTONE_STATUS_BLOCKED)
    else Allowed
  }

  function CanCancelProject(project: ProjectStatus, ms: seq<Entry>): GuardResult {
    if MapProject(project) != Some(Active) then Blocked(PROJECT_STATUS_BLOCKED)
    else if exists i :: 0 <= i < |ms| && ms[i].openDispute then Blocked(MILESTONE_DISPUTED)
    else if forall i | 0 <= i < |ms| :: IsPending(ms[i]) then Allowed
    else Blocked(MILESTONE_STATUS_BLOCKED)
  }

  // ---------------------------------------------------------------- Runs gated by the guards

  datatype State = State(project: ProjectStatus, ms: seq<Entry>)

  /** Every step is taken by a project party; a resolution pays out or refunds; funding moves a milestone
      between statuses the contract calls pending; `Touch` is any change of the project's status that is
      not one of the steps' own. */
  datatype Action =
    | Submit(i: nat)
    | Approve(i: nat)
    | Release(i: nat)
    | Raise(i: nat)
    | Resolve(i: nat, refund: bool)
    | Cancel
    | Fund(i: nat)
    | Touch(status: ProjectStatus)

  function WithStatus(s: State, i: nat, status: MilestoneStatus, openDispute: bool): seq<Entry>
    requires i < |s.ms|
  {
    s.ms[i := s.ms[i].(status := status, openDispute := openDispute)]
  }

  predicate AllSettled(ms: seq<Entry>) { forall i | 0 <= i < |ms| :: Settled(ms[i]) }

  predicate AnyDispute(ms: seq<Entry>) { exists i :: 0 <= i < |ms| && ms[i].openDispute }

  /** The state after an action, with the project status the event sync gives it; an action its guard
      refuses changes nothing. */
  function Perform(s: State, a: Action): State {
    if (a.Submit? || a.Approve? || a.Release? || a.Raise? || a.Resolve? || a.Fund?) && a.i >= |s.ms| then s
    else
      match a
      case Submit(i) =>
        if CanSubmitMilestone(s.project, s.ms, s.ms[i], true) != Allowed then s
        else State(ACTIVE, WithStatus(s, i, SUBMITTED, s.ms[i].openDispute))
      case Approve(i) =>
        if CanApproveMilestone(s.project, s.ms, s.ms[i], true) != Allowed then s
        else s.(ms := WithStatus(s, i, APPROVED, s.ms[i].openDispute))
      case Release(i) =>
        if CanReleaseMilestone(s.project, s.ms, s.ms[i], true) != Allowed then s
        else
          var ms := WithStatus(s, i, RELEASED, s.ms[i].openDispute);
          State(if AllSettled(ms) then COMPLETED else ACTIVE, ms)
      case Raise(i) =>
        if CanRaiseDispute(s.project, s.ms[i], true) != Allowed then s
        else State(DISPUTED, WithStatus(s, i, M_DISPUTED, true))
      case Resolve(i, refund) =>
        if CanResolveStaleDispute(s.project, s.ms[i]) != Allowed then s
        else
          var ms := WithStatus(s, i, if refund then VOIDED else RELEASED, false);
          State(if AnyDispute(ms) then DISPUTED else if AllSettled(ms) then COMPLETED else ACTIVE, ms)
      case Cancel =>
        if CanCancelProject(s.project, s.ms) != Allowed then s
        else State(CANCELLED, seq(|s.ms|, k requires 0 <= k < |s.ms| => s.ms[k].(status := VOIDED)))
      case Fund(i) =>
        if s.ms[i].status == PLANNED || s.ms[i].status == AWAITING_FUNDS
        then s.(ms := WithStatus(s, i, FUNDED, s.ms[i].openDispute))
        else s
      case Touch(status) => s.(project := status)
  }

  function Run(s: State, actions: seq<Action>): State {
    if actions == [] then s
    else Perform(Run(s, actions[..|actions| - 1]), actions[|actions| - 1])
  }

  predicate DistinctOrders(ms: seq<Entry>) {
    forall i, j | 0 <= i < j < |ms| :: ms[i].sortOrder != ms[j].sortOrder
  }

  /** No milestone has started unless all before it are settled, and an open dispute sits on a submitted
      milestone. */
  predicate InOrder(ms: seq<Entry>) {
    && DistinctOrders(ms)
    && (forall i, j | 0 <= i < |ms| && 0 <= j < |ms| && ms[i].sortOrder < ms[j].sortOrder ::
          IsPending(ms[j]) || Settled(ms[i]))
    && (forall i | 0 <= i < |ms| && ms[i].openDispute :: MapMilestone(ms[i].status) == Submitted)
  }

  predicate Initial(s: State) {
    DistinctOrders(s.ms) && forall i | 0 <= i < |s.ms| :: IsPending(s.ms[i]) && !s.ms[i].openDispute
  }

  lemma ChangeKeepsOrder(ms: seq<Entry>, i: nat, m: Entry)
    requires InOrder(ms) && i < |ms| && m.sortOrder == ms[i].sortOrder
    requires IsPending(m) || PreviousMilestonesSettled(ms, m.sortOrder)
    requires Settled(ms[i]) ==> Settled(m)
    requires m.openDispute ==> MapMilestone(m.status) == Submitted
    ensures InOrder(ms[i := m])
  {
  }

  lemma StartedMeansPreviousSettled(ms: seq<Entry>, i: nat)
    requires InOrder(ms) && i < |ms| && !IsPending(ms[i])
    ensures PreviousMilestonesSettled(ms, ms[i].sortOrder)
  {
  }

  lemma PerformKeepsOrder(s: State, a: Action)
    requires InOrder(s.ms)
    ensures InOrder(Perform(s, a).ms)
  {
    if !a.Cancel? && !a.Touch? && a.i < |s.ms| {
      var i := a.i;
      var t := Perform(s, a);
      if !IsPending(s.ms[i]) {
        StartedMeansPreviousSettled(s.ms, i);
      }
      if t != s {
        assert t.ms == s.ms[i := t.ms[i]];
        ChangeKeepsOrder(s.ms, i, t.ms[i]);
      }
    }
  }

  lemma {:induction false} RunKeepsOrder(s: State, actions: seq<Action>)
    requires Initial(s)
    ensures InOrder(Run(s, actions).ms)
  {
    if actions != [] {
      RunKeepsOrder(s, actions[..|actions| - 1]);
      PerformKeepsOrder(Run(s, actions[..|actions| - 1]), actions[|actions| - 1]);
    }
  }

  /** Everything before sort order `f` is settled, everything after it is pending. */
  predicate FrontierAt(ms: seq<Entry>, f: int) {
    && (forall i | 0 <= i < |ms| && ms[i].sortOrder < f :: Settled(ms[i]))
    && (forall i | 0 <= i < |ms| && ms[i].sortOrder > f :: IsPending(ms[i]))
  }

  lemma {:induction false} OrderHasFrontier(ms: seq<Entry>, n: nat) returns (f: int)
    requires InOrder(ms) && n <= |ms|
    ensures forall i | 0 <= i < n && ms[i].sortOrder < f :: Settled(ms[i])
    ensures forall i | 0 <= i < n && ms[i].sortOrder > f :: IsPending(ms[i])
    ensures n > 0 ==> exists i :: 0 <= i < n && ms[i].sortOrder == f &&
                        (Settled(ms[i]) ==> forall k | 0 <= k < n :: ms[k].sortOrder <= f)
  {
    if n == 0 {
      f := 0;
    } else {
      f := OrderHasFrontier(ms, n - 1);
      var m := ms[n - 1];
      if n > 1 {
        var i :| 0 <= i < n - 1 && ms[i].sortOrder == f;
        if (Settled(ms[i]) && m.sortOrder > f) || (!Settled(m) && m.sortOrder < f) {
          f := m.sortOrder;
        }
      } else {
        f := m.sortOrder;
      }
    }
  }

  /** In every run of gated steps the milestones are a settled prefix, one frontier milestone, and a
      pending rest. */
  lemma SingleFrontier(s: State, actions: seq<Action>)
    requires Initial(s)
    ensures exists f :: FrontierAt(Run(s, actions).ms, f)
  {
    RunKeepsOrder(s, actions);
    var ms := Run(s, actions).ms;
    var f := OrderHasFrontier(ms, |ms|);
    assert FrontierAt(ms, f);
  }

  function Advances(project: ProjectStatus, ms: seq<Entry>, i: nat): set<ContractMilestoneStatus>
    requires i < |ms|
  {
    set wanted | wanted in {Pending, Submitted, Approved} && CanAdvance(project, ms, ms[i], true, wanted) == Allowed
  }

  /** At most one milestone can be submitted, approved or released, and only one of the three: the action
      its own status calls for. It is there exactly when the project runs and the first unsettled milestone
      has no open dispute. */
  lemma OneAdvance(project: ProjectStatus, ms: seq<Entry>, i: nat)
    requires DistinctOrders(ms) && i < |ms|
    ensures Advances(project, ms, i) ==
            if Running(project) && !ms[i].openDispute && !Settled(ms[i]) &&
               PreviousMilestonesSettled(ms, ms[i].sortOrder)
            then {MapMilestone(ms[i].status)} else {}
    ensures Advances(project, ms, i) != {} ==>
              forall j | 0 <= j < |ms| && j != i :: Advances(project, ms, j) == {}
  {
  }

  /** A running project in order is never stuck: until everything is settled, some milestone admits its
      next action or has a dispute that can be resolved. */
  lemma NeverStuck(s: State)
    requires InOrder(s.ms) && Running(s.project) && !AllSettled(s.ms)
    ensures exists i ::
              0 <= i < |s.ms| &&
              (Advances(s.project, s.ms, i) != {} || CanResolveStaleDispute(s.project, s.ms[i]) == Allowed)
  {
    var f := OrderHasFrontier(s.ms, |s.ms|);
    var i :| 0 <= i < |s.ms| && s.ms[i].sortOrder == f &&
             (Settled(s.ms[i]) ==> forall k | 0 <= k < |s.ms| :: s.ms[k].sortOrder <= f);
    assert !Settled(s.ms[i]) by {
      if Settled(s.ms[i]) {
        forall k | 0 <= k < |s.ms| ensures Settled(s.ms[k]) {
          assert k != i ==> s.ms[k].sortOrder != f;
        }
      }
    }
    OneAdvance(s.project, s.ms, i);
  }
}

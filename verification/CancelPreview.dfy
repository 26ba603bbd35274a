/** The preview of a project cancellation (cancel-project-panel.tsx). */
module CancelPreview {
  import opened Basics
  import opened EscrowRows

  /** A milestone as read from the chain: 0 pending, 1 submitted, 2 approved, 3 released, 4 refunded. */
  datatype Preflight = Preflight(index: nat, statusCode: int, reviewEnteredAt: int, disputeActive: bool,
                                 disputeRaisedAt: int)

  const STATUS_PENDING := 0
  const STATUS_SUBMITTED := 1
  const STATUS_APPROVED := 2

  /** What the panel knows; preflight and timeout are missing until loaded. */
  datatype Panel = Panel(preflight: Option<seq<Preflight>>, timeout: Option<int>, isClientWallet: bool,
                         projectStatus: ProjectStatus)

  predicate IsStale(base: int, timeout: int, now: int) { now >= base + timeout }

  predicate SubmittedBlocks(m: Preflight, timeout: int, now: int) {
    m.statusCode == STATUS_SUBMITTED && (m.reviewEnteredAt == 0 || !IsStale(m.reviewEnteredAt, timeout, now))
  }

  predicate DisputeBlocks(m: Preflight, timeout: int, now: int) {
    m.disputeActive && (m.statusCode != STATUS_PENDING || !IsStale(m.disputeRaisedAt, timeout, now))
  }

  predicate IsStaleSubmitted(m: Preflight, timeout: int, now: int) {
    m.statusCode == STATUS_SUBMITTED && !m.disputeActive && m.reviewEnteredAt != 0 &&
    IsStale(m.reviewEnteredAt, timeout, now)
  }

  predicate Eligible(p: Panel, now: int) {
    p.preflight.Some? && p.timeout.Some? && p.isClientWallet &&
    p.projectStatus != COMPLETED && p.projectStatus != CANCELLED &&
    var ms, timeout := p.preflight.value, p.timeout.value;
    !(exists i | 0 <= i < |ms| :: ms[i].statusCode == STATUS_APPROVED) &&
    !(exists i | 0 <= i < |ms| :: SubmittedBlocks(ms[i], timeout, now)) &&
    !(exists i | 0 <= i < |ms| :: DisputeBlocks(ms[i], timeout, now))
  }

  function PendingRefunds(p: Panel): seq<Preflight> {
    if p.preflight.None? then [] else Filter(p.preflight.value, (m: Preflight) => m.statusCode == STATUS_PENDING)
  }

  function StaleSubmittedReleases(p: Panel, now: int): seq<Preflight> {
    if p.preflight.None? || p.timeout.None? then []
    else Filter(p.preflight.value, m => IsStaleSubmitted(m, p.timeout.value, now))
  }

  function ApprovedBlockers(p: Panel): seq<Preflight> {
    if p.preflight.None? then [] else Filter(p.preflight.value, (m: Preflight) => m.statusCode == STATUS_APPROVED)
  }

  function ActiveDisputeBlockers(p: Panel, now: int): seq<Preflight> {
    if p.preflight.None? || p.timeout.None? then []
    else Filter(p.preflight.value, m => DisputeBlocks(m, p.timeout.value, now))
  }

  /** The milestones a cancellation has to settle. */
  function Unsettled(p: Panel): seq<Preflight> {
    if p.preflight.None? then []
    else
      Filter(p.preflight.value,
             (m: Preflight) => m.statusCode in {STATUS_PENDING, STATUS_SUBMITTED, STATUS_APPROVED})
  }

  lemma {:induction false} FilterPartitions(ms: seq<Preflight>, keep: Preflight -> bool, a: Preflight -> bool,
                                            b: Preflight -> bool)
    requires forall i | 0 <= i < |ms| :: keep(ms[i]) <==> a(ms[i]) || b(ms[i])
    requires forall i | 0 <= i < |ms| :: !(a(ms[i]) && b(ms[i]))
    ensures multiset(Filter(ms, keep)) == multiset(Filter(ms, a)) + multiset(Filter(ms, b))
  {
    if ms != [] {
      assert forall i | 0 <= i < |ms| - 1 :: ms[1..][i] == ms[i + 1];
      FilterPartitions(ms[1..], keep, a, b);
    }
  }

  lemma {:induction false} FilterNone(ms: seq<Preflight>, keep: Preflight -> bool)
    requires forall i | 0 <= i < |ms| :: !keep(ms[i])
    ensures Filter(ms, keep) == []
  {
    if ms != [] {
      FilterNone(ms[1..], keep);
    }
  }

  /** What is on the lists. */
  lemma OnLists(p: Panel, now: int, m: Preflight)
    requires p.preflight.Some? && p.timeout.Some?
    ensures m in PendingRefunds(p) <==> m in p.preflight.value && m.statusCode == STATUS_PENDING
    ensures m in StaleSubmittedReleases(p, now) <==>
            m in p.preflight.value && IsStaleSubmitted(m, p.timeout.value, now)
    ensures m in ApprovedBlockers(p) <==> m in p.preflight.value && m.statusCode == STATUS_APPROVED
    ensures m in ActiveDisputeBlockers(p, now) <==> m in p.preflight.value && DisputeBlocks(m, p.timeout.value, now)
    ensures m in Unsettled(p) <==>
            m in p.preflight.value && m.statusCode in {STATUS_PENDING, STATUS_SUBMITTED, STATUS_APPROVED}
  {
    var ms := p.preflight.value;
    InFilter(ms, (m: Preflight) => m.statusCode == STATUS_PENDING, m);
    InFilter(ms, m => IsStaleSubmitted(m, p.timeout.value, now), m);
    InFilter(ms, (m: Preflight) => m.statusCode == STATUS_APPROVED, m);
    InFilter(ms, m => DisputeBlocks(m, p.timeout.value, now), m);
    InFilter(ms, (m: Preflight) => m.statusCode in {STATUS_PENDING, STATUS_SUBMITTED, STATUS_APPROVED}, m);
  }

  /** Whenever the preview says a project can be cancelled, its two lists share the unsettled milestones out
      between them, each in exactly one list and exactly once, and both blocker lists are empty. */
  lemma EligiblePartitions(p: Panel, now: int)
    requires Eligible(p, now)
    ensures multiset(Unsettled(p)) == multiset(PendingRefunds(p)) + multiset(StaleSubmittedReleases(p, now))
    ensures forall m :: !(m in PendingRefunds(p) && m in StaleSubmittedReleases(p, now))
    ensures ApprovedBlockers(p) == [] && ActiveDisputeBlockers(p, now) == []
  {
    var ms, timeout := p.preflight.value, p.timeout.value;
    forall i | 0 <= i < |ms|
      ensures ms[i].statusCode != STATUS_APPROVED && !DisputeBlocks(ms[i], timeout, now)
      ensures ms[i].statusCode == STATUS_SUBMITTED <==> IsStaleSubmitted(ms[i], timeout, now)
    {
      assert !SubmittedBlocks(ms[i], timeout, now) && !DisputeBlocks(ms[i], timeout, now);
    }
    FilterPartitions(ms, (m: Preflight) => m.statusCode in {STATUS_PENDING, STATUS_SUBMITTED, STATUS_APPROVED},
                     (m: Preflight) => m.statusCode == STATUS_PENDING, m => IsStaleSubmitted(m, timeout, now));
    FilterNone(ms, (m: Preflight) => m.statusCode == STATUS_APPROVED);
    FilterNone(ms, m => DisputeBlocks(m, timeout, now));
    forall m ensures !(m in PendingRefunds(p) && m in StaleSubmittedReleases(p, now)) {
      OnLists(p, now, m);
    }
  }

  /** Conversely the lists shown decide eligibility: no blockers, and every submitted milestone among the
      releases. */
  lemma EligibleIffListsClear(p: Panel, now: int)
    requires p.preflight.Some? && p.timeout.Some?
    ensures Eligible(p, now) <==>
            p.isClientWallet && p.projectStatus != COMPLETED && p.projectStatus != CANCELLED &&
            ApprovedBlockers(p) == [] && ActiveDisputeBlockers(p, now) == [] &&
            multiset(Unsettled(p)) == multiset(PendingRefunds(p)) + multiset(StaleSubmittedReleases(p, now))
  {
    if Eligible(p, now) {
      EligiblePartitions(p, now);
    } else if p.isClientWallet && p.projectStatus != COMPLETED && p.projectStatus != CANCELLED &&
              ApprovedBlockers(p) == [] && ActiveDisputeBlockers(p, now) == [] {
      var ms, timeout := p.preflight.value, p.timeout.value;
      forall i | 0 <= i < |ms| ensures ms[i].statusCode != STATUS_APPROVED && !DisputeBlocks(ms[i], timeout, now) {
        OnLists(p, now, ms[i]);
      }
      var i :| 0 <= i < |ms| && SubmittedBlocks(ms[i], timeout, now);
      OnLists(p, now, ms[i]);
      assert ms[i] in multiset(Unsettled(p));
    }
  }

  // ---------------------------------------------------------------- Over time

  /** What no passing of time repairs. */
  predicate NeverEligible(m: Preflight) {
    m.statusCode == STATUS_APPROVED || (m.statusCode == STATUS_SUBMITTED && m.reviewEnteredAt == 0) ||
    (m.disputeActive && m.statusCode != STATUS_PENDING)
  }

  /** From when on a milestone does not block, if it has to be waited for. */
  function ClearFrom(m: Preflight, timeout: int): Option<int> {
    if m.statusCode == STATUS_SUBMITTED then Some(m.reviewEnteredAt + timeout)
    else if m.disputeActive then Some(m.disputeRaisedAt + timeout)
    else None
  }

  predicate Reached(ms: seq<Preflight>, timeout: int, now: int) {
    forall i | 0 <= i < |ms| && ClearFrom(ms[i], timeout).Some? :: now >= ClearFrom(ms[i], timeout).value
  }

  /** Eligibility has one beginning and no end: it holds exactly from the latest of the milestones' clearing
      times on, and never where a milestone bars it for good. */
  lemma EligibleFrom(p: Panel, now: int)
    requires p.preflight.Some? && p.timeout.Some? && p.isClientWallet
    requires p.projectStatus != COMPLETED && p.projectStatus != CANCELLED
    ensures Eligible(p, now) <==>
            (forall i | 0 <= i < |p.preflight.value| :: !NeverEligible(p.preflight.value[i])) &&
            Reached(p.preflight.value, p.timeout.value, now)
  {
  }

  /** So for unchanged on-chain data it persists. */
  lemma EligiblePersists(p: Panel, now: int, later: int)
    requires Eligible(p, now) && now <= later
    ensures Eligible(p, later)
  {
  }
}

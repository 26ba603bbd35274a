/** Dispute creation and resolution, each implemented twice: by the platform's services
    (dispute-service.ts, admin-dispute-service.ts) and by the event sync. */
module DisputeResolution {
  import opened Basics
  import opened JsonMerge
  import opened Events
  import opened EscrowRows
  import opened MilestoneProjection

  datatype Kind = PAYOUT_TO_FREELANCER | REFUND_TO_CLIENT | SPLIT

  datatype Error =
    | DisputeNotFound | DisputeAlreadyResolved | InvalidResolutionAmounts | InvalidSplitAmounts
    | ResolutionTxHashRequired | ChainIdMismatch | EscrowContractMismatch | OnChainProjectIdMismatch
    | MilestoneIndexMismatch
    | MilestoneNotFound | NotParticipant | ProjectStateInvalid | MilestoneStateInvalid
    | MilestoneAlreadyDisputed | RelatedSubmissionNotFound | LinkageRequired

  /** How the project row is linked to the chain. */
  datatype Linkage = Linkage(chainId: Option<int>, contract: Option<Address>, onChainProjectId: Option<int>)

  /** The admin's request. The transaction hash may be left out, null or given. */
  datatype ResolutionRequest = ResolutionRequest(
    kind: Kind, freelancerAmount: nat, clientAmount: nat, chainId: Option<int>, contract: Option<Address>,
    onChainProjectId: Option<int>, milestoneIndex: Option<int>, txHash: Option<Option<Bytes32>>)

  function MapKindToDisputeStatus(kind: Kind): DisputeStatus {
    match kind
    case PAYOUT_TO_FREELANCER => RESOLVED_FREELANCER_FAVOR
    case REFUND_TO_CLIENT => RESOLVED_CLIENT_FAVOR
    case SPLIT => RESOLVED_SPLIT
  }

  /** The code the admin page sends to the contract for a kind. */
  function KindToContractCode(kind: Kind): int {
    match kind
    case PAYOUT_TO_FREELANCER => 0
    case REFUND_TO_CLIENT => 1
    case SPLIT => 2
  }

  function ValidateResolutionAmounts(r: ResolutionRequest, milestoneAmount: int): Option<Error> {
    match r.kind
    case PAYOUT_TO_FREELANCER =>
      if r.freelancerAmount != milestoneAmount || r.clientAmount != 0 then Some(InvalidResolutionAmounts) else None
    case REFUND_TO_CLIENT =>
      if r.clientAmount != milestoneAmount || r.freelancerAmount != 0 then Some(InvalidResolutionAmounts) else None
    case SPLIT =>
      if r.freelancerAmount <= 0 || r.clientAmount <= 0 then Some(InvalidSplitAmounts)
      else if r.freelancerAmount + r.clientAmount != milestoneAmount then Some(InvalidSplitAmounts)
      else None
  }

  function Mismatch<T(==)>(given: Option<T>, stored: Option<T>): bool {
    given.Some? && stored.Some? && given != stored
  }

  function ValidateOnchainPayload(r: ResolutionRequest, link: Linkage, sortOrder: int): Option<Error> {
    if r.chainId.None? && r.contract.None? && r.onChainProjectId.None? && r.milestoneIndex.None? && r.txHash.None?
    then None
    else if r.txHash.None? || r.txHash.value.None? then Some(ResolutionTxHashRequired)
    else if Mismatch(r.chainId, link.chainId) then Some(ChainIdMismatch)
    else if Mismatch(r.contract, link.contract) then Some(EscrowContractMismatch)
    else if Mismatch(r.onChainProjectId, link.onChainProjectId) then Some(OnChainProjectIdMismatch)
    else if r.milestoneIndex.Some? && r.milestoneIndex.value != sortOrder then Some(MilestoneIndexMismatch)
    else None
  }

  /** The first check that refuses resolving dispute `d` of milestone `i`. */
  function RefusesResolution(p: Project, link: Linkage, i: nat, d: nat, r: ResolutionRequest): Option<Error> {
    if i >= |p.milestones| || d >= |p.milestones[i].disputes| then Some(DisputeNotFound)
    else if !IsOpen(p.milestones[i].disputes[d]) then Some(DisputeAlreadyResolved)
    else
      var amounts := ValidateResolutionAmounts(r, p.milestones[i].amountWei);
      if amounts.Some? then amounts else ValidateOnchainPayload(r, link, p.milestones[i].sortOrder)
  }

  function AdminResolved(p: Project, i: nat, d: nat, kind: Kind, now: int): Project
    requires i < |p.milestones| && d < |p.milestones[i].disputes|
  {
    var m := p.milestones[i];
    var ms := p.milestones[i := m.(
      disputes := m.disputes[d := MapKindToDisputeStatus(kind)],
      status := if kind == REFUND_TO_CLIENT then VOIDED else RELEASED,
      releasedAt := if kind == REFUND_TO_CLIENT then None else Some(now))];
    var status := if AnyOpenDispute(ms) then DISPUTED
                  else if |ms| > 0 && AllSettled(ms) then COMPLETED else ACTIVE;
    p.(status := status, milestones := ms, completedAt := if status == COMPLETED then Some(now) else None)
  }

  // ---------------------------------------------------------------- Creating a dispute from the platform

  datatype DisputeRequest = DisputeRequest(
    isParticipant: bool, submissionKnown: bool, chainId: int, contract: Address, onChainProjectId: int,
    milestoneIndex: int)

  function EnsureOnChainLinkage(r: DisputeRequest, link: Linkage, sortOrder: int): Option<Error> {
    if link.chainId.None? || link.chainId.value == 0 || link.contract.None? || link.onChainProjectId.None? then
      Some(LinkageRequired)
    else if r.chainId != link.chainId.value then Some(ChainIdMismatch)
    else if r.contract != link.contract.value then Some(EscrowContractMismatch)
    else if r.onChainProjectId != link.onChainProjectId.value then Some(OnChainProjectIdMismatch)
    else if r.milestoneIndex != sortOrder then Some(MilestoneIndexMismatch)
    else None
  }

  function RefusesDispute(p: Project, link: Linkage, i: nat, r: DisputeRequest): Option<Error> {
    if i >= |p.milestones| then Some(MilestoneNotFound)
    else if !r.isParticipant then Some(NotParticipant)
    else if p.status != ACTIVE && p.status != DISPUTED then Some(ProjectStateInvalid)
    else if p.milestones[i].status != SUBMITTED && p.milestones[i].status != APPROVED then
      Some(MilestoneStateInvalid)
    else if HasOpenDispute(p.milestones[i]) then Some(MilestoneAlreadyDisputed)
    else if !r.submissionKnown then Some(RelatedSubmissionNotFound)
    else EnsureOnChainLinkage(r, link, p.milestones[i].sortOrder)
  }

  function DisputeCreated(p: Project, i: nat): Project
    requires i < |p.milestones|
  {
    var m := p.milestones[i];
    p.(status := DISPUTED,
       milestones := p.milestones[i := m.(status := M_DISPUTED, disputes := m.disputes + [D_OPEN])])
  }

  /** The two services on the row of one project. Each call is one atomic step. */
  class DisputeService {
    var project: Project
    const link: Linkage

    constructor (project: Project, link: Linkage)
      ensures this.project == project && this.link == link
    {
      this.project := project;
      this.link := link;
    }

    method ResolveDisputeAsAdmin(i: nat, d: nat, r: ResolutionRequest, now: int) returns (result: Result<(), Error>)
      modifies this
      ensures result == match RefusesResolution(old(project), link, i, d, r)
                        case Some(e) => Err(e)
                        case None => Ok(())
      ensures project == if result.Ok? then AdminResolved(old(project), i, d, r.kind, now) else old(project)
    {
      if i >= |project.milestones| || d >= |project.milestones[i].disputes| {
        return Err(DisputeNotFound);
      }
      var m := project.milestones[i];
      if !IsOpen(m.disputes[d]) {
        return Err(DisputeAlreadyResolved);
      }
      var amounts := ValidateResolutionAmounts(r, m.amountWei);
      if amounts.Some? {
        return Err(amounts.value);
      }
      var payload := ValidateOnchainPayload(r, link, m.sortOrder);
      if payload.Some? {
        return Err(payload.value);
      }
      m := m.(disputes := m.disputes[d := MapKindToDisputeStatus(r.kind)]);
      if r.kind == REFUND_TO_CLIENT {
        m := m.(status := VOIDED, releasedAt := None);
      } else {
        m := m.(status := RELEASED, releasedAt := Some(now));
      }
      project := project.(milestones := project.milestones[i := m]);
      var next := if AnyOpenDispute(project.milestones) then DISPUTED
                  else if |project.milestones| > 0 && AllSettled(project.milestones) then COMPLETED
                  else ACTIVE;
      project := project.(status := next, completedAt := if next == COMPLETED then Some(now) else None);
      return Ok(());
    }

    method CreateMilestoneDispute(i: nat, r: DisputeRequest) returns (result: Result<(), Error>)
      modifies this
      ensures result == match RefusesDispute(old(project), link, i, r)
                        case Some(e) => Err(e)
                        case None => Ok(())
      ensures project == if result.Ok? then DisputeCreated(old(project), i) else old(project)
    {
      if i >= |project.milestones| {
        return Err(MilestoneNotFound);
      }
      if !r.isParticipant {
        return Err(NotParticipant);
      }
      if project.status != ACTIVE && project.status != DISPUTED {
        return Err(ProjectStateInvalid);
      }
      var m := project.milestones[i];
      if m.status != SUBMITTED && m.status != APPROVED {
        return Err(MilestoneStateInvalid);
      }
      if HasOpenDispute(m) {
        return Err(MilestoneAlreadyDisputed);
      }
      if !r.submissionKnown {
        return Err(RelatedSubmissionNotFound);
      }
      var linkage := EnsureOnChainLinkage(r, link, m.sortOrder);
      if linkage.Some? {
        return Err(linkage.value);
      }
      m := m.(disputes := m.disputes + [D_OPEN]);
      m := m.(status := M_DISPUTED);
      project := project.(milestones := project.milestones[i := m]);
      project := project.(status := DISPUTED);
      return Ok(());
    }
  }

  // ---------------------------------------------------------------- One open dispute per milestone

  predicate OneOpen(ds: seq<DisputeStatus>) {
    forall a, b | 0 <= a < b < |ds| :: !(IsOpen(ds[a]) && IsOpen(ds[b]))
  }

  predicate OneOpenEach(p: Project) {
    forall i | 0 <= i < |p.milestones| :: OneOpen(p.milestones[i].disputes)
  }

  datatype Step =
    | Chain(e: Event, now: int)
    | Participant(i: nat, dispute: DisputeRequest)
    | Admin(i: nat, d: nat, r: ResolutionRequest, now: int)

  function TakeStep(p: Project, link: Linkage, s: Step): Project {
    match s
    case Chain(e, now) => ApplyToProject(p, e, now)
    case Participant(i, r) => if RefusesDispute(p, link, i, r).None? then DisputeCreated(p, i) else p
    case Admin(i, d, r, now) =>
      if RefusesResolution(p, link, i, d, r).None? then AdminResolved(p, i, d, r.kind, now) else p
  }

  function TakeSteps(p: Project, link: Linkage, steps: seq<Step>): Project {
    if steps == [] then p
    else TakeStep(TakeSteps(p, link, steps[..|steps| - 1]), link, steps[|steps| - 1])
  }

  lemma FundingKeepsDisputes(p: Project, fundedWei: int, now: int)
    requires OneOpenEach(p)
    ensures OneOpenEach(ApplyFunded(p, fundedWei, now))
  {
    var ms := p.milestones;
    forall i | 0 <= i < |ms| ensures OneOpen(Funding.Fund(ms, fundedWei, now)[i].disputes) {
      UpdateKeepsDisputes(ms[i], Funding.UpdatesOf(
        Funding.PromotedRows(Funding.SortMilestones(ms), fundedWei), now));
    }
  }

  lemma {:induction false} UpdateKeepsDisputes(m: Milestone, updates: seq<Funding.Update>)
    ensures Funding.UpdateRow(m, updates).disputes == m.disputes
  {
    if updates != [] {
      UpdateKeepsDisputes(m, updates[..|updates| - 1]);
    }
  }

  lemma AppendOpen(ds: seq<DisputeStatus>)
    requires forall d | d in ds :: !IsOpen(d)
    ensures OneOpen(ds + [D_OPEN])
  {
  }

  lemma ResolvingKeepsOneOpen(ds: seq<DisputeStatus>, d: nat, resolved: DisputeStatus)
    requires OneOpen(ds) && d < |ds| && !IsOpen(resolved)
    ensures OneOpen(ds[d := resolved])
  {
  }

  lemma EventKeepsOneOpen(p: Project, e: Event, now: int)
    requires OneOpenEach(p)
    ensures OneOpenEach(ApplyToProject(p, e, now))
  {
    if e.Funded? {
      FundingKeepsDisputes(p, e.fundedAmountAfter, now);
    } else if e.Raised? && FindMilestone(p.milestones, e.milestoneIndex).Some? {
      var m := p.milestones[FindMilestone(p.milestones, e.milestoneIndex).value];
      if !HasOpenDispute(m) {
        AppendOpen(m.disputes);
      }
    } else if (e.Resolved? || e.EmergencyResolved?) && FindMilestone(p.milestones, e.milestoneIndex).Some? {
      var m := p.milestones[FindMilestone(p.milestones, e.milestoneIndex).value];
      if LatestOpen(m.disputes).Some? {
        ResolvingKeepsOneOpen(m.disputes, LatestOpen(m.disputes).value, ResolvedStatus(e.resolutionKind));
      }
    }
  }

  lemma StepKeepsOneOpen(p: Project, link: Linkage, s: Step)
    requires OneOpenEach(p)
    ensures OneOpenEach(TakeStep(p, link, s))
  {
    match s
    case Chain(e, now) => EventKeepsOneOpen(p, e, now);
    case Participant(i, r) =>
      if RefusesDispute(p, link, i, r).None? {
        AppendOpen(p.milestones[i].disputes);
      }
    case Admin(i, d, r, now) =>
      if RefusesResolution(p, link, i, d, r).None? {
        ResolvingKeepsOneOpen(p.milestones[i].disputes, d, MapKindToDisputeStatus(r.kind));
      }
  }

  /** In every state the two creation paths, the two resolution paths and all other events can reach,
      no milestone has two open disputes. */
  lemma {:induction false} AtMostOneOpenDispute(p: Project, link: Linkage, steps: seq<Step>)
    requires forall i | 0 <= i < |p.milestones| :: p.milestones[i].disputes == []
    ensures OneOpenEach(TakeSteps(p, link, steps))
  {
    if steps != [] {
      AtMostOneOpenDispute(p, link, steps[..|steps| - 1]);
      StepKeepsOneOpen(TakeSteps(p, link, steps[..|steps| - 1]), link, steps[|steps| - 1]);
    }
  }

  // ---------------------------------------------------------------- The two resolutions agree

  /** A milestone without its release time. */
  function Timeless(m: Milestone): Milestone { m.(releasedAt := None) }

  predicate SameButReleaseTime(a: Project, b: Project, i: nat) {
    a.status == b.status && |a.milestones| == |b.milestones| &&
    (forall j | 0 <= j < |a.milestones| && j != i :: a.milestones[j] == b.milestones[j]) &&
    (i < |a.milestones| ==> Timeless(a.milestones[i]) == Timeless(b.milestones[i]))
  }

  lemma {:induction false} TheOpenOneIsLatest(ds: seq<DisputeStatus>, d: nat)
    requires OneOpen(ds) && d < |ds| && IsOpen(ds[d])
    ensures LatestOpen(ds) == Some(d)
  {
  }

  lemma ResolvingLeavesNone(ds: seq<DisputeStatus>, d: nat, resolved: DisputeStatus)
    requires OneOpen(ds) && d < |ds| && IsOpen(ds[d]) && !IsOpen(resolved)
    ensures LatestOpen(ds[d := resolved]) == None
  {
  }

  lemma CountsIgnoreReleaseTime(a: seq<Milestone>, b: seq<Milestone>)
    requires |a| == |b| && forall j | 0 <= j < |a| :: Timeless(a[j]) == Timeless(b[j])
    ensures AllSettled(a) == AllSettled(b) && AnyOpenDispute(a) == AnyOpenDispute(b)
  {
  }

  /** From any state with one open dispute per milestone, an accepted admin resolution and the matching
      chain event yield the same rows, but for the milestone's release time, which the chain event sets in
      every case and the admin only when something was released, and the project's completion time, which only
      the admin writes. */
  lemma ResolutionsAgree(p: Project, link: Linkage, i: nat, d: nat, r: ResolutionRequest, now: int, then_: int)
    requires OneOpenEach(p) && RefusesResolution(p, link, i, d, r).None?
    requires FindMilestone(p.milestones, p.milestones[i].sortOrder) == Some(i)
    ensures var code := KindToContractCode(r.kind);
            var byAdmin := AdminResolved(p, i, d, r.kind, now);
            var byChain := ApplyToProject(p, Resolved(0, p.milestones[i].sortOrder, code), then_);
            SameButReleaseTime(byAdmin, byChain, i) &&
            byChain.milestones[i].releasedAt == Some(then_) &&
            byAdmin.milestones[i].releasedAt == (if r.kind == REFUND_TO_CLIENT then None else Some(now)) &&
            byChain.completedAt == p.completedAt &&
            byAdmin.completedAt == if byAdmin.status == COMPLETED then Some(now) else None
  {
    TheOpenOneIsLatest(p.milestones[i].disputes, d);
    var code := KindToContractCode(r.kind);
    var byAdmin := AdminResolved(p, i, d, r.kind, now);
    var byChain := ApplyResolved(p, i, code, then_);
    CountsIgnoreReleaseTime(byAdmin.milestones, byChain.milestones);
  }

  /** The admin acts, then the chain event arrives: nothing but the release time moves. */
  lemma ChainAfterAdmin(p: Project, link: Linkage, i: nat, d: nat, r: ResolutionRequest, now: int, then_: int)
    requires OneOpenEach(p) && RefusesResolution(p, link, i, d, r).None?
    requires FindMilestone(p.milestones, p.milestones[i].sortOrder) == Some(i)
    ensures var byAdmin := AdminResolved(p, i, d, r.kind, now);
            var event := Resolved(0, p.milestones[i].sortOrder, KindToContractCode(r.kind));
            SameButReleaseTime(ApplyToProject(byAdmin, event, then_), byAdmin, i)
  {
    var byAdmin := AdminResolved(p, i, d, r.kind, now);
    ResolvingLeavesNone(p.milestones[i].disputes, d, MapKindToDisputeStatus(r.kind));
    assert Skeleton(byAdmin.milestones) == Skeleton(p.milestones);
    FindBySkeleton(byAdmin.milestones, p.milestones, p.milestones[i].sortOrder, 0);
    var both := ApplyResolved(byAdmin, i, KindToContractCode(r.kind), then_);
    CountsIgnoreReleaseTime(byAdmin.milestones, both.milestones);
  }

  /** The chain event arrives, then the admin acts: the request is refused and changes nothing. */
  lemma AdminAfterChain(p: Project, link: Linkage, i: nat, d: nat, r: ResolutionRequest, then_: int)
    requires OneOpenEach(p) && RefusesResolution(p, link, i, d, r).None?
    requires FindMilestone(p.milestones, p.milestones[i].sortOrder) == Some(i)
    ensures var event := Resolved(0, p.milestones[i].sortOrder, KindToContractCode(r.kind));
            RefusesResolution(ApplyToProject(p, event, then_), link, i, d, r) == Some(DisputeAlreadyResolved)
  {
  }

  /** A dispute reported both by its participant and by the chain is one dispute, whichever comes first. */
  lemma DisputeRaisedTwice(p: Project, link: Linkage, i: nat, r: DisputeRequest, raisedBy: Address,
                           reasonURI: Text, now: int)
    requires RefusesDispute(p, link, i, r).None?
    requires FindMilestone(p.milestones, p.milestones[i].sortOrder) == Some(i)
    ensures var event := Raised(0, p.milestones[i].sortOrder, raisedBy, reasonURI);
            ApplyToProject(p, event, now) == DisputeCreated(p, i) &&
            ApplyToProject(DisputeCreated(p, i), event, now) == DisputeCreated(p, i) &&
            RefusesDispute(ApplyToProject(p, event, now), link, i, r) == Some(MilestoneStateInvalid)
  {
    var created := DisputeCreated(p, i);
    assert Skeleton(created.milestones) == Skeleton(p.milestones);
    FindBySkeleton(created.milestones, p.milestones, p.milestones[i].sortOrder, 0);
    var ds := created.milestones[i].disputes;
    assert ds[|ds| - 1] == D_OPEN && D_OPEN in ds;
    assert HasOpenDispute(created.milestones[i]);
  }
}

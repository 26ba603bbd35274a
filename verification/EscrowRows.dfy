/** Rows of the project, milestone and dispute tables (prisma/schema.prisma). */
module EscrowRows {
  import opened Basics

  datatype ProjectStatus =
    | DRAFT | OPEN | AWAITING_FREELANCER | AWAITING_ESCROW | ACTIVE | ON_HOLD | COMPLETED | CANCELLED | DISPUTED

  datatype MilestoneStatus =
    | PLANNED | AWAITING_FUNDS | FUNDED | IN_PROGRESS | SUBMITTED | CLIENT_REVIEW | APPROVED | REJECTED
    | M_DISPUTED | RELEASED | VOIDED

  datatype DisputeStatus =
    | D_OPEN | AWAITING_RESPONSE | UNDER_ADMIN_REVIEW
    | RESOLVED_CLIENT_FAVOR | RESOLVED_FREELANCER_FAVOR | RESOLVED_SPLIT | DISMISSED | WITHDRAWN

  predicate IsOpen(s: DisputeStatus) {
    s == D_OPEN || s == AWAITING_RESPONSE || s == UNDER_ADMIN_REVIEW
  }

  predicate IsSettled(s: MilestoneStatus) {
    s == RELEASED || s == VOIDED
  }

  /** `id` stands for the row's identifier by its rank in the identifiers' collation order. */
  datatype Milestone = Milestone(id: nat, sortOrder: int, amountWei: int, status: MilestoneStatus,
                                 fundedAt: Option<int>, releasedAt: Option<int>, disputes: seq<DisputeStatus>)

  /** `totalValueWei` is the creation-time total, if any. */
  datatype Project = Project(status: ProjectStatus, totalValueWei: Option<int>, milestones: seq<Milestone>,
                             completedAt: Option<int>)

  predicate DistinctIds(ms: seq<Milestone>) {
    forall i, j | 0 <= i < j < |ms| :: ms[i].id != ms[j].id
  }

  /** The rows with their statuses and timestamps masked: what no status change touches. */
  function Skeleton(ms: seq<Milestone>): seq<(nat, int, int)> {
    seq(|ms|, i requires 0 <= i < |ms| => (ms[i].id, ms[i].sortOrder, ms[i].amountWei))
  }
}

/** The table of emergency resolution proposals (event-sync-service.ts, `syncEmergencyResolutionProposal`). */
module EmergencyProposals {
  import opened Basics
  import opened JsonMerge
  import opened Events
  import opened Governance

  datatype ProposalStatus = P_Proposed | P_Cancelled | P_Executed | P_Invalidated

  datatype ProposalRow = ProposalRow(
    projectId: int, milestoneIndex: int, actionHash: Option<Text>, kind: Option<int>,
    freelancerAmount: Option<int>, clientAmount: Option<int>, readyAt: Option<int>, status: ProposalStatus)

  type Proposals = map<LogKey, ProposalRow>

  predicate SameMilestone(row: ProposalRow, projectId: int, milestoneIndex: int) {
    row.projectId == projectId && row.milestoneIndex == milestoneIndex
  }

  function OrNull(hash: Text): Option<Text> {
    if hash == Plain("") then None else Some(hash)
  }

  function ReadyAt(seconds: int): Option<int> {
    if seconds > 0 then Some(seconds) else None
  }

  function ProposedRow(e: Event): ProposalRow
    requires e.EmergencyProposed?
  {
    ProposalRow(e.projectId, e.milestoneIndex, Some(e.actionHash), Some(e.resolutionKind),
                Some(e.freelancerAmount), Some(e.clientAmount), ReadyAt(e.readyAt), P_Proposed)
  }

  /** The events after which proposals are no longer pending. */
  predicate IsCloser(e: Event) {
    e.EmergencyCancelled? || e.EmergencyResolved? || e.NonceAdvanced?
  }

  /** The bulk update's condition on a proposed row. A cancellation needs a hash, and matches it. */
  predicate Closes(e: Event, row: ProposalRow)
    requires IsCloser(e)
  {
    SameMilestone(row, e.projectId, e.milestoneIndex) &&
    (e.EmergencyCancelled? ==> e.actionHash != Plain("") && row.actionHash == Some(e.actionHash))
  }

  function ClosedAs(e: Event): ProposalStatus
    requires IsCloser(e)
  {
    match e
    case EmergencyCancelled(_, _, _) => P_Cancelled
    case EmergencyResolved(_, _, _, _, _) => P_Executed
    case NonceAdvanced(_, _) => P_Invalidated
  }

  function CloseMatching(rows: Proposals, e: Event): Proposals
    requires IsCloser(e)
  {
    map k | k in rows ::
      if rows[k].status == P_Proposed && Closes(e, rows[k]) then rows[k].(status := ClosedAs(e)) else rows[k]
  }

  /** The row a closing event writes under its own key: an existing row keeps the columns not named. */
  function CloserRow(existing: Option<ProposalRow>, e: Event): ProposalRow
    requires IsCloser(e)
  {
    var row := if existing.Some? then existing.value
               else ProposalRow(e.projectId, e.milestoneIndex, None, None, None, None, None, P_Proposed);
    var placed := row.(projectId := e.projectId, milestoneIndex := e.milestoneIndex, status := ClosedAs(e));
    match e
    case EmergencyCancelled(_, _, hash) => placed.(actionHash := OrNull(hash))
    case EmergencyResolved(_, _, kind, freelancer, client) =>
      placed.(kind := Some(kind), freelancerAmount := Some(freelancer), clientAmount := Some(client),
              readyAt := None)
    case NonceAdvanced(_, _) => placed
  }

  function Find(rows: Proposals, k: LogKey): Option<ProposalRow> {
    if k in rows then Some(rows[k]) else None
  }

  function ProposalStep(rows: Proposals, o: Origin, e: Event): Proposals {
    if e.EmergencyProposed? then rows[KeyOf(o) := ProposedRow(e)]
    else if IsCloser(e) then
      var closed := CloseMatching(rows, e);
      closed[KeyOf(o) := CloserRow(Find(closed, KeyOf(o)), e)]
    else rows
  }

  function ProposalRun(rows: Proposals, w: seq<Logged>): Proposals {
    if w == [] then rows
    else ProposalStep(ProposalRun(rows, w[..|w| - 1]), w[|w| - 1].origin, w[|w| - 1].event)
  }

  /** Right after a resolution or a nonce advance no row of that milestone is pending. */
  lemma NothingPendingAfter(rows: Proposals, o: Origin, e: Event)
    requires e.EmergencyResolved? || e.NonceAdvanced?
    ensures forall k | k in ProposalStep(rows, o, e) &&
                       SameMilestone(ProposalStep(rows, o, e)[k], e.projectId, e.milestoneIndex) ::
              ProposalStep(rows, o, e)[k].status != P_Proposed
  {
  }

  /** A row of another log changes only from pending, only its status, and only by a closer of its own
      milestone (and, for a cancellation, of its own hash). */
  lemma OtherRows(rows: Proposals, o: Origin, e: Event, k: LogKey)
    requires k in rows && k != KeyOf(o)
    ensures k in ProposalStep(rows, o, e)
    ensures ProposalStep(rows, o, e)[k] ==
            if rows[k].status == P_Proposed && IsCloser(e) && Closes(e, rows[k])
            then rows[k].(status := ClosedAs(e)) else rows[k]
  {
  }

  predicate DistinctKeys(w: seq<Logged>) {
    forall i, j | 0 <= i < j < |w| :: KeyOf(w[i].origin) != KeyOf(w[j].origin)
  }

  /** The first event at or after `from` that closes the row. */
  function FirstCloser(w: seq<Logged>, from: nat, row: ProposalRow): (r: Option<nat>)
    requires from <= |w|
    ensures r.Some? ==> from <= r.value < |w| && IsCloser(w[r.value].event) && Closes(w[r.value].event, row)
    ensures forall j | from <= j < (if r.Some? then r.value else |w|) ::
              !(IsCloser(w[j].event) && Closes(w[j].event, row))
    decreases |w| - from
  {
    if from == |w| then None
    else if IsCloser(w[from].event) && Closes(w[from].event, row) then Some(from)
    else FirstCloser(w, from + 1, row)
  }

  /** What a proposal ends as. */
  function Fate(w: seq<Logged>, i: nat): ProposalRow
    requires i < |w| && w[i].event.EmergencyProposed?
  {
    var row := ProposedRow(w[i].event);
    match FirstCloser(w, i + 1, row)
    case None => row
    case Some(j) => row.(status := ClosedAs(w[j].event))
  }

  lemma {:induction false} FirstCloserOfPrefix(w: seq<Logged>, from: nat, row: ProposalRow, n: nat)
    requires from <= n <= |w|
    ensures FirstCloser(w[..n], from, row) ==
            var r := FirstCloser(w, from, row); if r.Some? && r.value >= n then None else r
    decreases n - from
  {
    if from < n {
      FirstCloserOfPrefix(w, from + 1, row, n);
    }
  }

  /** Over every run with distinct log keys, a proposal's row is untouched but for its status, which is
      decided by the first later event that closes it, and by no other. */
  lemma {:induction false} ProposalFate(w: seq<Logged>, i: nat)
    requires DistinctKeys(w) && i < |w| && w[i].event.EmergencyProposed?
    ensures KeyOf(w[i].origin) in ProposalRun(map[], w)
    ensures ProposalRun(map[], w)[KeyOf(w[i].origin)] == Fate(w, i)
    decreases |w|
  {
    var n := |w| - 1;
    var k, row := KeyOf(w[i].origin), ProposedRow(w[i].event);
    if i < n {
      ProposalFate(w[..n], i);
      FirstCloserOfPrefix(w, i + 1, row, n);
      OtherRows(ProposalRun(map[], w[..n]), w[n].origin, w[n].event, k);
    }
  }

  /** No row appears from nowhere, and rows written by closers are never pending. */
  lemma {:induction false} EveryRowAccounted(w: seq<Logged>, k: LogKey)
    requires DistinctKeys(w) && k in ProposalRun(map[], w)
    ensures exists i :: 0 <= i < |w| && KeyOf(w[i].origin) == k &&
              (w[i].event.EmergencyProposed? ||
               (IsCloser(w[i].event) && ProposalRun(map[], w)[k].status == ClosedAs(w[i].event)))
    decreases |w|
  {
    var n := |w| - 1;
    var before := ProposalRun(map[], w[..n]);
    if k == KeyOf(w[n].origin) && (w[n].event.EmergencyProposed? || IsCloser(w[n].event)) {
    } else {
      assert k in before;
      EveryRowAccounted(w[..n], k);
      var i :| 0 <= i < n && KeyOf(w[..n][i].origin) == k &&
               (w[..n][i].event.EmergencyProposed? ||
                (IsCloser(w[..n][i].event) && before[k].status == ClosedAs(w[..n][i].event)));
      assert w[..n][i] == w[i];
      OtherRows(before, w[n].origin, w[n].event, k);
    }
  }
}

/** The table of alternative payout recipients (event-sync-service.ts, `syncAlternativeRecipientState`). */
module RecipientLegs {
  import opened Basics
  import opened Events
  import opened Governance

  datatype LegStatus = L_Pending | L_Active | L_Cleared

  datatype LegKey = LegKey(projectId: int, milestoneIndex: int, isFreelancer: bool)

  datatype LegRow = LegRow(pending: Option<Address>, executableAfter: Option<int>, active: Option<Address>,
                           partyAuthorized: Option<Address>, status: LegStatus, origin: Origin)

  type Legs = map<LegKey, LegRow>

  function NonZero(a: Address): Option<Address> {
    if a == ZERO_ADDRESS then None else Some(a)
  }

  function SetLeg(recipient: Address, executableAfter: int, o: Origin): LegRow {
    if executableAfter == 0 then LegRow(None, None, None, NonZero(recipient), L_Cleared, o)
    else if recipient == ZERO_ADDRESS then LegRow(None, None, None, None, L_Cleared, o)
    else LegRow(Some(recipient), Some(executableAfter), None, None, L_Pending, o)
  }

  /** Execution keeps a party-authorized recipient that is already there. */
  function ExecuteLeg(authorized: Option<Address>, recipient: Address, o: Origin): LegRow {
    LegRow(None, None, NonZero(recipient), authorized,
           if recipient == ZERO_ADDRESS then L_Cleared else L_Active, o)
  }

  function ClearedLeg(o: Origin): LegRow {
    LegRow(None, None, None, None, L_Cleared, o)
  }

  function Authorized(legs: Legs, k: LegKey): Option<Address> {
    if k in legs then legs[k].partyAuthorized else None
  }

  /** A cancelled project's legs are cleared where they exist. */
  function ClearProject(legs: Legs, projectId: int, o: Origin): Legs {
    map k | k in legs :: if k.projectId == projectId then ClearedLeg(o) else legs[k]
  }

  function ClearMilestone(legs: Legs, projectId: int, milestoneIndex: int, o: Origin): Legs {
    legs[LegKey(projectId, milestoneIndex, true) := ClearedLeg(o)]
        [LegKey(projectId, milestoneIndex, false) := ClearedLeg(o)]
  }

  function LegStep(legs: Legs, o: Origin, e: Event): Legs {
    match e
    case RecipientSet(p, m, side, recipient, after) => legs[LegKey(p, m, side) := SetLeg(recipient, after, o)]
    case RecipientExecuted(p, m, side, recipient) =>
      legs[LegKey(p, m, side) := ExecuteLeg(Authorized(legs, LegKey(p, m, side)), recipient, o)]
    case Resolved(p, m, _) => ClearMilestone(legs, p, m, o)
    case EmergencyResolved(p, m, _, _, _) => ClearMilestone(legs, p, m, o)
    case Cancelled(p) => ClearProject(legs, p, o)
    case _ => legs
  }

  function LegRun(legs: Legs, w: seq<Logged>): Legs {
    if w == [] then legs
    else LegStep(LegRun(legs, w[..|w| - 1]), w[|w| - 1].origin, w[|w| - 1].event)
  }

  /** The chain's timestamps are unsigned. */
  predicate Unsigned(w: seq<Logged>) {
    forall i | 0 <= i < |w| && w[i].event.RecipientSet? :: w[i].event.executableAfter >= 0
  }

  predicate Consistent(r: LegRow) {
    && (r.status == L_Pending <==> r.pending.Some?)
    && (r.pending.Some? <==> r.executableAfter.Some?)
    && (r.executableAfter.Some? ==> r.executableAfter.value > 0)
    && (r.status == L_Active <==> r.active.Some?)
    && (r.pending.Some? ==> r.partyAuthorized.None?)
    && r.pending != Some(ZERO_ADDRESS) && r.active != Some(ZERO_ADDRESS)
    && r.partyAuthorized != Some(ZERO_ADDRESS)
  }

  lemma {:induction false} LegsConsistent(w: seq<Logged>)
    requires Unsigned(w)
    ensures forall k | k in LegRun(map[], w) :: Consistent(LegRun(map[], w)[k])
  {
    if w != [] {
      var n := |w| - 1;
      assert forall i | 0 <= i < n :: w[..n][i] == w[i];
      LegsConsistent(w[..n]);
    }
  }

  // ---------------------------------------------------------------- A leg in closed form

  /** The event decides the leg's whole row. */
  predicate Writes(e: Event, k: LegKey) {
    match e
    case RecipientSet(p, m, side, _, _) => k == LegKey(p, m, side)
    case Resolved(p, m, _) => k.projectId == p && k.milestoneIndex == m
    case EmergencyResolved(p, m, _, _, _) => k.projectId == p && k.milestoneIndex == m
    case Cancelled(p) => k.projectId == p
    case _ => false
  }

  predicate Executes(e: Event, k: LegKey) {
    e.RecipientExecuted? && k == LegKey(e.projectId, e.milestoneIndex, e.isFreelancer)
  }

  /** The last event of the run with a property of the leg, if any. */
  function LastWrite(w: seq<Logged>, k: LegKey): (r: Option<nat>)
    ensures r.Some? ==> r.value < |w| && Writes(w[r.value].event, k)
    ensures forall j | (if r.Some? then r.value + 1 else 0) <= j < |w| :: !Writes(w[j].event, k)
  {
    if w == [] then None
    else if Writes(w[|w| - 1].event, k) then Some(|w| - 1)
    else LastWrite(w[..|w| - 1], k)
  }

  function LastExecution(w: seq<Logged>, k: LegKey): (r: Option<nat>)
    ensures r.Some? ==> r.value < |w| && Executes(w[r.value].event, k)
    ensures forall j | (if r.Some? then r.value + 1 else 0) <= j < |w| :: !Executes(w[j].event, k)
  {
    if w == [] then None
    else if Executes(w[|w| - 1].event, k) then Some(|w| - 1)
    else LastExecution(w[..|w| - 1], k)
  }

  function Written(l: Logged): LegRow {
    if l.event.RecipientSet? then SetLeg(l.event.recipient, l.event.executableAfter, l.origin)
    else ClearedLeg(l.origin)
  }

  function AuthorizedBy(w: seq<Logged>, write: Option<nat>): Option<Address>
    requires write.Some? ==> write.value < |w|
  {
    if write.Some? then Written(w[write.value]).partyAuthorized else None
  }

  /** What one event does to one leg. */
  lemma LegAfter(legs: Legs, l: Logged, k: LegKey)
    ensures var after := LegStep(legs, l.origin, l.event);
            if Writes(l.event, k) then
              (k in after <==> !l.event.Cancelled? || k in legs) && (k in after ==> after[k] == Written(l))
            else if Executes(l.event, k) then
              k in after && after[k] == ExecuteLeg(Authorized(legs, k), l.event.recipient, l.origin)
            else (k in after <==> k in legs) && (k in after ==> after[k] == legs[k])
  {
  }

  /** A leg holds what its last setting or clearing wrote, unless an execution came after it: then it holds
      the executed recipient beside the party-authorized one of that last write. Only a project's
      cancellation can leave a leg without a row. */
  lemma {:induction false} LegInClosedForm(w: seq<Logged>, k: LegKey)
    ensures var legs, write, run := LegRun(map[], w), LastWrite(w, k), LastExecution(w, k);
            if run.Some? && (write.Some? ==> run.value > write.value) then
              k in legs &&
              legs[k] == ExecuteLeg(AuthorizedBy(w, write), w[run.value].event.recipient, w[run.value].origin)
            else if write.None? then k !in legs
            else
              (k in legs ==> legs[k] == Written(w[write.value])) &&
              (!w[write.value].event.Cancelled? ==> k in legs)
  {
    if w != [] {
      LegInClosedForm(w[..|w| - 1], k);
      LegAfter(LegRun(map[], w[..|w| - 1]), w[|w| - 1], k);
    }
  }
}

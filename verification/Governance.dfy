/** Pause, token and role governance tables (event-sync-service.ts). */
module Governance {
  import opened Basics
  import opened Events

  /** Identity of a log within the chain, and the block it was mined in. */
  datatype Origin = Origin(block: int, txHash: Bytes32, logIndex: int)

  datatype LogKey = LogKey(txHash: Bytes32, logIndex: int)

  function KeyOf(o: Origin): LogKey { LogKey(o.txHash, o.logIndex) }

  /** Keccak-256 of "ARBITRATOR_ROLE". */
  const ARBITRATOR_ROLE: Bytes32 := 0x16ceee8289685dd2a02b9c8ae81d2df373176ce53519e6284e2a2950d6546ffa

  datatype PauseRow = PauseRow(paused: bool, updatedBy: Address, origin: Origin)

  datatype TokenRow = TokenRow(reviewed: bool, allowed: bool, reviewedBy: Option<Address>, origin: Origin)

  datatype MemberRow = MemberRow(isActive: bool, lastUpdatedBy: Address, origin: Origin)

  datatype RoleEventRow =
    | Membership(granted: bool, role: Bytes32, account: Address, sender: Address, block: int)
    | AdminChange(role: Bytes32, previousAdminRole: Bytes32, newAdminRole: Bytes32, block: int)

  datatype ArbitratorRow = ArbitratorRow(count: nat, threshold: Option<int>, origin: Origin)

  datatype ThresholdRow = ThresholdRow(previous: int, next: int, updatedBy: Address, block: int)

  datatype MemberKey = MemberKey(role: Bytes32, account: Address)

  datatype GovTables = GovTables(
    pause: Option<PauseRow>,
    tokens: map<Address, TokenRow>,
    members: map<MemberKey, MemberRow>,
    roleEvents: map<LogKey, RoleEventRow>,
    arbitrators: Option<ArbitratorRow>,
    thresholds: map<LogKey, ThresholdRow>)

  const NO_GOVERNANCE := GovTables(None, map[], map[], map[], None, map[])

  function Count(g: GovTables): nat {
    if g.arbitrators.Some? then g.arbitrators.value.count else 0
  }

  function SetPause(g: GovTables, o: Origin, paused: bool, account: Address): GovTables {
    g.(pause := Some(PauseRow(paused, account, o)))
  }

  function ReviewToken(g: GovTables, o: Origin, token: Address, admin: Address): GovTables {
    var allowed := if token in g.tokens then g.tokens[token].allowed else false;
    g.(tokens := g.tokens[token := TokenRow(true, allowed, Some(admin), o)])
  }

  function AllowToken(g: GovTables, o: Origin, token: Address, allowed: bool): GovTables {
    var row := if token in g.tokens then g.tokens[token] else TokenRow(false, false, None, o);
    g.(tokens := g.tokens[token := row.(allowed := allowed, origin := o)])
  }

  function WasActive(g: GovTables, k: MemberKey): Option<bool> {
    if k in g.members then Some(g.members[k].isActive) else None
  }

  function NextCount(count: nat, isActive: bool): nat {
    if isActive then count + 1 else if count == 0 then 0 else count - 1
  }

  function ChangeRole(g: GovTables, o: Origin, granted: bool, role: Bytes32, account: Address, sender: Address)
    : GovTables
  {
    var k := MemberKey(role, account);
    var threshold := if g.arbitrators.Some? then g.arbitrators.value.threshold else None;
    g.(members := g.members[k := MemberRow(granted, sender, o)],
       roleEvents := g.roleEvents[KeyOf(o) := Membership(granted, role, account, sender, o.block)],
       arbitrators := if role == ARBITRATOR_ROLE && WasActive(g, k) != Some(granted)
                      then Some(ArbitratorRow(NextCount(Count(g), granted), threshold, o))
                      else g.arbitrators)
  }

  function ChangeAdminRole(g: GovTables, o: Origin, role: Bytes32, previous: Bytes32, next: Bytes32): GovTables {
    g.(roleEvents := g.roleEvents[KeyOf(o) := AdminChange(role, previous, next, o.block)])
  }

  function UpdateThreshold(g: GovTables, o: Origin, previous: int, next: int, updatedBy: Address): GovTables {
    g.(thresholds := g.thresholds[KeyOf(o) := ThresholdRow(previous, next, updatedBy, o.block)],
       arbitrators := Some(ArbitratorRow(Count(g), Some(next), o)))
  }

  /** One event on the governance tables, live or replayed. */
  function GovStep(g: GovTables, o: Origin, e: Event): GovTables {
    match e
    case PauseChanged(paused, account) => SetPause(g, o, paused, account)
    case TokenReviewed(token, admin) => ReviewToken(g, o, token, admin)
    case TokenAllowed(token, allowed) => AllowToken(g, o, token, allowed)
    case RoleChanged(granted, role, account, sender) => ChangeRole(g, o, granted, role, account, sender)
    case AdminRoleChanged(role, previous, next) => ChangeAdminRole(g, o, role, previous, next)
    case ThresholdUpdated(previous, next, updatedBy) => UpdateThreshold(g, o, previous, next, updatedBy)
    case _ => g
  }

  datatype Logged = Logged(origin: Origin, event: Event)

  function GovRun(g: GovTables, w: seq<Logged>): GovTables {
    if w == [] then g
    else GovStep(GovRun(g, w[..|w| - 1]), w[|w| - 1].origin, w[|w| - 1].event)
  }

  // ---------------------------------------------------------------- The arbitrator count

  function ActiveArbitrators(g: GovTables): set<Address> {
    set k | k in g.members && k.role == ARBITRATOR_ROLE && g.members[k].isActive :: k.account
  }

  /** A revocation of the arbitrator role for an account the table has never seen. */
  predicate RevokesUnknown(g: GovTables, e: Event) {
    e.RoleChanged? && !e.granted && e.role == ARBITRATOR_ROLE && MemberKey(e.role, e.account) !in g.members
  }

  predicate RevokesActive(g: GovTables, e: Event) {
    e.RoleChanged? && !e.granted && e.role == ARBITRATOR_ROLE &&
    WasActive(g, MemberKey(e.role, e.account)) == Some(true)
  }

  lemma ArbitratorsAfter(g: GovTables, o: Origin, e: Event)
    ensures ActiveArbitrators(GovStep(g, o, e)) ==
            if e.RoleChanged? && e.role == ARBITRATOR_ROLE
            then if e.granted then ActiveArbitrators(g) + {e.account} else ActiveArbitrators(g) - {e.account}
            else ActiveArbitrators(g)
    ensures e.RoleChanged? && e.role == ARBITRATOR_ROLE ==>
              (e.account in ActiveArbitrators(g) <==> WasActive(g, MemberKey(e.role, e.account)) == Some(true))
  {
    if e.RoleChanged? {
      var g' := GovStep(g, o, e);
      forall a ensures a in ActiveArbitrators(g) <==> WasActive(g, MemberKey(ARBITRATOR_ROLE, a)) == Some(true) {
        ActiveMeansMember(g, a);
      }
      forall a ensures a in ActiveArbitrators(g') <==> WasActive(g', MemberKey(ARBITRATOR_ROLE, a)) == Some(true) {
        ActiveMeansMember(g', a);
      }
    }
  }

  lemma ActiveMeansMember(g: GovTables, a: Address)
    ensures a in ActiveArbitrators(g) <==> WasActive(g, MemberKey(ARBITRATOR_ROLE, a)) == Some(true)
  {
  }

  /** How far the count lags behind the active rows. */
  function Lag(g: GovTables): int { |ActiveArbitrators(g)| - Count(g) }

  lemma CountAfter(g: GovTables, o: Origin, e: Event)
    ensures Count(GovStep(g, o, e)) ==
            if e.RoleChanged? && e.role == ARBITRATOR_ROLE &&
               WasActive(g, MemberKey(e.role, e.account)) != Some(e.granted)
            then NextCount(Count(g), e.granted) else Count(g)
  {
  }

  lemma SizeChange(s: set<Address>, a: Address)
    ensures |s + {a}| == |s| + if a in s then 0 else 1
    ensures |s - {a}| == |s| - if a in s then 1 else 0
  {
  }

  /** The exact law of one event: the lag grows by one when an unknown account is revoked while the count
      is positive, shrinks by one when an active account is revoked while the count is zero, and is
      unchanged by everything else. */
  lemma LagStep(g: GovTables, o: Origin, e: Event)
    ensures Lag(GovStep(g, o, e)) ==
            if RevokesUnknown(g, e) && Count(g) > 0 then Lag(g) + 1
            else if RevokesActive(g, e) && Count(g) == 0 then Lag(g) - 1
            else Lag(g)
  {
    ArbitratorsAfter(g, o, e);
    CountAfter(g, o, e);
    var after, before := ActiveArbitrators(GovStep(g, o, e)), ActiveArbitrators(g);
    if e.RoleChanged? && e.role == ARBITRATOR_ROLE {
      SizeChange(before, e.account);
      assert |after| == |before| +
        if e.granted then (if e.account in before then 0 else 1) else (if e.account in before then -1 else 0);
    }
  }

  /** Over every role-event sequence the count never exceeds the number of active rows. */
  lemma {:induction false} CountNeverExceeds(w: seq<Logged>)
    ensures Count(GovRun(NO_GOVERNANCE, w)) <= |ActiveArbitrators(GovRun(NO_GOVERNANCE, w))|
  {
    if w != [] {
      var g, last := GovRun(NO_GOVERNANCE, w[..|w| - 1]), w[|w| - 1];
      CountNeverExceeds(w[..|w| - 1]);
      LagStep(g, last.origin, last.event);
      ArbitratorsAfter(g, last.origin, last.event);
    }
  }
}

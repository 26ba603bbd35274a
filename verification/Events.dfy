/** Contract events: decoded arguments, the projections' view of them, and the stored payload
    (event-sync-service.ts). */
module Events {
  import opened JsonMerge

  /** The value of a 20-byte address and of a 32-byte word. */
  type Address = nat
  type Bytes32 = nat

  const ZERO_ADDRESS: Address := 0
  const ZERO_BYTES32: Bytes32 := 0

  datatype EventName =
    | ProjectCreated
    | ProjectFunded
    | MilestoneSubmitted
    | MilestoneApproved
    | MilestoneFundsReleased
    | DisputeRaised
    | DisputeEvidenceAppended
    | DisputeResolved
    | DisputePayoutRecipients
    | TokenReviewAttested
    | AllowedTokenUpdated
    | ProjectCancelled
    | ProjectEmergencyCancelled
    | EmergencyDisputeResolutionProposed
    | EmergencyDisputeResolutionCancelled
    | EmergencyDisputeResolved
    | AlternativeRecipientSet
    | AlternativeRecipientExecuted
    | ArbitratorThresholdUpdated
    | ArbitratorActionConfirmed
    | RoleAdminChanged
    | RoleGranted
    | RoleRevoked
    | Paused
    | Unpaused
    | EmergencyDisputeResolutionNonceAdvanced

  /** Argument names, by ABI type: uint; address, bytes32 or string; bool. */
  datatype IntegerName =
    | ProjectId | MilestoneIndex | TotalAmount | FundedAmountAfter | Amount | MilestoneCount
    | ResolutionKind | FreelancerAmount | ClientAmount | ReadyAt | ExecutableAfter
    | PreviousThreshold | NewThreshold

  datatype TextName =
    | Client | Freelancer | Token | RaisedBy | Recipient | Admin | Account | Sender | UpdatedBy
    | Role | PreviousAdminRole | NewAdminRole | ActionHash | MetadataURI | SubmissionURI
    | ReasonURI | EvidenceURI

  datatype FlagName = IsFreelancer | Allowed

  datatype Field = I(i: IntegerName) | T(t: TextName) | B(b: FlagName)

  type Args = map<Field, Js>

  /** An event as the projections read it: every argument passed through the reader for its type. */
  datatype Event =
    | Created(projectId: int, client: Address, freelancer: Address, token: Address, totalAmount: int,
              metadataURI: Text)
    | Funded(projectId: int, token: Address, fundedAmountAfter: int)
    | Submitted(projectId: int, milestoneIndex: int, freelancer: Address, submissionURI: Text)
    | Approved(projectId: int, milestoneIndex: int)
    | Released(projectId: int, milestoneIndex: int)
    | Raised(projectId: int, milestoneIndex: int, raisedBy: Address, reasonURI: Text)
    | EvidenceAppended(projectId: int, milestoneIndex: int, evidenceURI: Text)
    | Resolved(projectId: int, milestoneIndex: int, resolutionKind: int)
    | Cancelled(projectId: int)
    | EmergencyProposed(projectId: int, milestoneIndex: int, actionHash: Text, resolutionKind: int,
                        freelancerAmount: int, clientAmount: int, readyAt: int)
    | EmergencyCancelled(projectId: int, milestoneIndex: int, actionHash: Text)
    | EmergencyResolved(projectId: int, milestoneIndex: int, resolutionKind: int,
                        freelancerAmount: int, clientAmount: int)
    | NonceAdvanced(projectId: int, milestoneIndex: int)
    | RecipientSet(projectId: int, milestoneIndex: int, isFreelancer: bool, recipient: Address,
                   executableAfter: int)
    | RecipientExecuted(projectId: int, milestoneIndex: int, isFreelancer: bool, recipient: Address)
    | TokenReviewed(token: Address, admin: Address)
    | TokenAllowed(token: Address, allowed: bool)
    | RoleChanged(granted: bool, role: Bytes32, account: Address, sender: Address)
    | AdminRoleChanged(role: Bytes32, previousAdminRole: Bytes32, newAdminRole: Bytes32)
    | ThresholdUpdated(previousThreshold: int, newThreshold: int, updatedBy: Address)
    | PauseChanged(paused: bool, account: Address)
    | Generic(projectId: int)

  // ---------------------------------------------------------------- Argument readers

  function Arg(args: Args, key: Field): Js {
    if key in args then args[key] else Null
  }

  function AsBigInt(v: Js): int { if v.Big? then v.big else 0 }

  function AsString(v: Js): Text { if v.Str? then v.s else Plain("") }

  function HexOr(v: Js, digits: nat, default: nat): nat {
    if v.Str? && v.s.Hex? && v.s.digits == digits then v.s.value else default
  }

  function AsAddress(v: Js): Address { HexOr(v, 40, ZERO_ADDRESS) }

  function AsBytes32(v: Js): Bytes32 { HexOr(v, 64, ZERO_BYTES32) }

  function Truthy(v: Js): bool {
    match v
    case Null => false
    case Bool(b) => b
    case Num(n) => n != 0
    case Big(n) => n != 0
    case Str(s) => s != Plain("")
    case Arr(_) => true
    case Obj(_) => true
  }

  function Decode(name: EventName, args: Args): Event {
    var projectId := AsBigInt(Arg(args, I(ProjectId)));
    var milestoneIndex := AsBigInt(Arg(args, I(MilestoneIndex)));
    match name
    case ProjectCreated =>
      Created(projectId, AsAddress(Arg(args, T(Client))), AsAddress(Arg(args, T(Freelancer))),
              AsAddress(Arg(args, T(Token))), AsBigInt(Arg(args, I(TotalAmount))),
              AsString(Arg(args, T(MetadataURI))))
    case ProjectFunded =>
      Funded(projectId, AsAddress(Arg(args, T(Token))), AsBigInt(Arg(args, I(FundedAmountAfter))))
    case MilestoneSubmitted =>
      Submitted(projectId, milestoneIndex, AsAddress(Arg(args, T(Freelancer))),
                AsString(Arg(args, T(SubmissionURI))))
    case MilestoneApproved => Approved(projectId, milestoneIndex)
    case MilestoneFundsReleased => Released(projectId, milestoneIndex)
    case DisputeRaised =>
      Raised(projectId, milestoneIndex, AsAddress(Arg(args, T(RaisedBy))), AsString(Arg(args, T(ReasonURI))))
    case DisputeEvidenceAppended =>
      EvidenceAppended(projectId, milestoneIndex, AsString(Arg(args, T(EvidenceURI))))
    case DisputeResolved => Resolved(projectId, milestoneIndex, AsBigInt(Arg(args, I(ResolutionKind))))
    case ProjectCancelled => Cancelled(projectId)
    case ProjectEmergencyCancelled => Cancelled(projectId)
    case EmergencyDisputeResolutionProposed =>
      EmergencyProposed(projectId, milestoneIndex, AsString(Arg(args, T(ActionHash))),
                        AsBigInt(Arg(args, I(ResolutionKind))), AsBigInt(Arg(args, I(FreelancerAmount))),
                        AsBigInt(Arg(args, I(ClientAmount))), AsBigInt(Arg(args, I(ReadyAt))))
    case EmergencyDisputeResolutionCancelled =>
      EmergencyCancelled(projectId, milestoneIndex, AsString(Arg(args, T(ActionHash))))
    case EmergencyDisputeResolved =>
      EmergencyResolved(projectId, milestoneIndex, AsBigInt(Arg(args, I(ResolutionKind))),
                        AsBigInt(Arg(args, I(FreelancerAmount))), AsBigInt(Arg(args, I(ClientAmount))))
    case EmergencyDisputeResolutionNonceAdvanced => NonceAdvanced(projectId, milestoneIndex)
    case AlternativeRecipientSet =>
      RecipientSet(projectId, milestoneIndex, Truthy(Arg(args, B(IsFreelancer))),
                   AsAddress(Arg(args, T(Recipient))), AsBigInt(Arg(args, I(ExecutableAfter))))
    case AlternativeRecipientExecuted =>
      RecipientExecuted(projectId, milestoneIndex, Truthy(Arg(args, B(IsFreelancer))),
                        AsAddress(Arg(args, T(Recipient))))
    case TokenReviewAttested => TokenReviewed(AsAddress(Arg(args, T(Token))), AsAddress(Arg(args, T(Admin))))
    case AllowedTokenUpdated => TokenAllowed(AsAddress(Arg(args, T(Token))), Truthy(Arg(args, B(Allowed))))
    case RoleGranted =>
      RoleChanged(true, AsBytes32(Arg(args, T(Role))), AsAddress(Arg(args, T(Account))),
                  AsAddress(Arg(args, T(Sender))))
    case RoleRevoked =>
      RoleChanged(false, AsBytes32(Arg(args, T(Role))), AsAddress(Arg(args, T(Account))),
                  AsAddress(Arg(args, T(Sender))))
    case RoleAdminChanged =>
      AdminRoleChanged(AsBytes32(Arg(args, T(Role))), AsBytes32(Arg(args, T(PreviousAdminRole))),
                       AsBytes32(Arg(args, T(NewAdminRole))))
    case ArbitratorThresholdUpdated =>
      ThresholdUpdated(AsBigInt(Arg(args, I(PreviousThreshold))), AsBigInt(Arg(args, I(NewThreshold))),
                       AsAddress(Arg(args, T(UpdatedBy))))
    case Paused => PauseChanged(true, AsAddress(Arg(args, T(Account))))
    case Unpaused => PauseChanged(false, AsAddress(Arg(args, T(Account))))
    case DisputePayoutRecipients => Generic(projectId)
    case ArbitratorActionConfirmed => Generic(projectId)
  }

  // ---------------------------------------------------------------- Stored payload

  /** Decimal digits of an integer, as BigInt.prototype.toString prints them. */
  function Decimal(n: int): string
    decreases if n < 0 then 1 - n else n
  {
    if n < 0 then "-" + Decimal(-n)
    else if n < 10 then [DigitChar(n)]
    else Decimal(n / 10) + [DigitChar(n % 10)]
  }

  function DigitChar(d: int): char
    requires 0 <= d < 10
  {
    "0123456789"[d]
  }

  /** `toJsonValue`: a bigint becomes a string, everything else keeps its shape. */
  function ToJson(v: Js): Js {
    match v
    case Big(n) => Str(Plain(Decimal(n)))
    case Arr(items) => Arr(seq(|items|, i requires 0 <= i < |items| => ToJson(items[i])))
    case Obj(fields) => Obj(map k | k in fields :: ToJson(fields[k]))
    case _ => v
  }

  function JsonSafeArgs(args: Args): Args {
    map k | k in args :: ToJson(args[k])
  }

  /** The stored payload: two events keep their arguments at top level, all others under `args`. */
  datatype Payload =
    | Flat(contractProjectId: Js, fields: Args)
    | Nested(contractProjectId: Js, args: Args)

  function AddressText(a: Address): Js { Str(Hex(40, a)) }

  function ToTxPayload(name: EventName, args: Args): Payload {
    var projectId := Arg(args, I(ProjectId));
    var contractProjectId := if projectId.Big? then Str(Plain(Decimal(projectId.big))) else Null;
    if name == ProjectCreated then
      Flat(contractProjectId, map[
        T(Client) := AddressText(AsAddress(Arg(args, T(Client)))),
        T(Freelancer) := AddressText(AsAddress(Arg(args, T(Freelancer)))),
        T(Token) := AddressText(AsAddress(Arg(args, T(Token)))),
        I(TotalAmount) := Str(Plain(Decimal(AsBigInt(Arg(args, I(TotalAmount)))))),
        T(MetadataURI) := Str(AsString(Arg(args, T(MetadataURI)))),
        I(MilestoneCount) := Str(Plain(Decimal(AsBigInt(Arg(args, I(MilestoneCount))))))])
    else if name == ProjectFunded then
      Flat(contractProjectId, map[
        T(Client) := AddressText(AsAddress(Arg(args, T(Client)))),
        T(Token) := AddressText(AsAddress(Arg(args, T(Token)))),
        I(Amount) := Str(Plain(Decimal(AsBigInt(Arg(args, I(Amount)))))),
        I(FundedAmountAfter) := Str(Plain(Decimal(AsBigInt(Arg(args, I(FundedAmountAfter))))))])
    else
      Nested(contractProjectId, JsonSafeArgs(args))
  }

  /** The arguments a stored row yields when it is read back: those under `args`, or none. */
  function StoredArgs(payload: Payload): Args {
    if payload.Nested? then payload.args else map[]
  }

  /** What a stored row is replayed as. */
  function Recalled(name: EventName, args: Args): Event {
    Decode(name, StoredArgs(ToTxPayload(name, args)))
  }

  // ---------------------------------------------------------------- What storing loses

  /** Arguments of the kinds the ABI decoder delivers; any of them may be missing, because the
      decoder is not strict. */
  predicate AbiTyped(args: Args) {
    forall f | f in args ::
      match f
      case I(_) => args[f].Big? && args[f].big >= 0
      case T(_) => args[f].Str?
      case B(_) => args[f].Bool?
  }

  /** The event with every integer argument replaced by 0. */
  function EraseInts(e: Event): Event {
    match e
    case Created(_, c, f, t, _, m) => Created(0, c, f, t, 0, m)
    case Funded(_, t, _) => Funded(0, t, 0)
    case Submitted(_, _, f, u) => Submitted(0, 0, f, u)
    case Approved(_, _) => Approved(0, 0)
    case Released(_, _) => Released(0, 0)
    case Raised(_, _, r, u) => Raised(0, 0, r, u)
    case EvidenceAppended(_, _, u) => EvidenceAppended(0, 0, u)
    case Resolved(_, _, _) => Resolved(0, 0, 0)
    case Cancelled(_) => Cancelled(0)
    case EmergencyProposed(_, _, h, _, _, _, _) => EmergencyProposed(0, 0, h, 0, 0, 0, 0)
    case EmergencyCancelled(_, _, h) => EmergencyCancelled(0, 0, h)
    case EmergencyResolved(_, _, _, _, _) => EmergencyResolved(0, 0, 0, 0, 0)
    case NonceAdvanced(_, _) => NonceAdvanced(0, 0)
    case RecipientSet(_, _, side, r, _) => RecipientSet(0, 0, side, r, 0)
    case RecipientExecuted(_, _, side, r) => RecipientExecuted(0, 0, side, r)
    case ThresholdUpdated(_, _, u) => ThresholdUpdated(0, 0, u)
    case Generic(_) => Generic(0)
    case _ => e
  }

  lemma StoredField(args: Args, f: Field)
    requires AbiTyped(args)
    ensures AsBigInt(Arg(JsonSafeArgs(args), f)) == 0
    ensures !f.I? ==> Arg(JsonSafeArgs(args), f) == Arg(args, f)
  {
  }

  /** The same texts and flags, no integers. */
  ghost predicate IntegersLost(live: Args, stored: Args) {
    && (forall f: Field | f.I? :: AsBigInt(Arg(stored, f)) == 0)
    && (forall f: Field | !f.I? :: Arg(stored, f) == Arg(live, f))
  }

  /** The events of the milestone and dispute life cycle. */
  predicate IsLifecycle(name: EventName) {
    name in {ProjectCreated, ProjectFunded, MilestoneSubmitted, MilestoneApproved, MilestoneFundsReleased,
             DisputeRaised, DisputeEvidenceAppended, DisputeResolved, DisputePayoutRecipients, ProjectCancelled,
             ProjectEmergencyCancelled}
  }

  lemma LifecycleErased(name: EventName, live: Args, stored: Args)
    requires IntegersLost(live, stored) && IsLifecycle(name)
    ensures Decode(name, stored) == EraseInts(Decode(name, live))
  {
  }

  lemma OtherErased(name: EventName, live: Args, stored: Args)
    requires IntegersLost(live, stored) && !IsLifecycle(name)
    ensures Decode(name, stored) == EraseInts(Decode(name, live))
  {
  }

  lemma DecodeErased(name: EventName, live: Args, stored: Args)
    requires IntegersLost(live, stored)
    ensures Decode(name, stored) == EraseInts(Decode(name, live))
  {
    if IsLifecycle(name) {
      LifecycleErased(name, live, stored);
    } else {
      OtherErased(name, live, stored);
    }
  }

  /** What a stored row is replayed as, exactly: the event with its integers lost. The two events
      whose arguments are stored at top level lose everything. */
  lemma RecalledExactly(name: EventName, args: Args)
    requires AbiTyped(args)
    ensures Recalled(name, args) ==
            if name == ProjectCreated || name == ProjectFunded then Decode(name, map[])
            else EraseInts(Decode(name, args))
  {
    if name != ProjectCreated && name != ProjectFunded {
      forall f: Field ensures AsBigInt(Arg(JsonSafeArgs(args), f)) == 0
                      ensures !f.I? ==> Arg(JsonSafeArgs(args), f) == Arg(args, f) {
        StoredField(args, f);
      }
      DecodeErased(name, args, JsonSafeArgs(args));
    }
  }
}

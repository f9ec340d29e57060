/**
  The records and closed enumerations shared by the action core: commands, cases,
  facts, actions, proposals and outbox rows.  JSON documents are finite maps over
  `Value`; timestamps are integers; identifiers drawn from a UUID generator are
  natural numbers that a caller picks fresh.
 */
module Domain {

  datatype Option<+T> = None | Some(value: T)

  /** Identifiers, names, keys and references. */
  datatype Name = Name(text: string)

  datatype Value = NullValue | Text(text: Name) | Number(number: real)

  type Params = map<Name, Value>

  /** Python's `dict.get`: a missing key reads as null. */
  function Get(m: Params, name: Name): Value {
    if name in m then m[name] else NullValue
  }

  datatype Authority = Asserted | Observed | Derived | Verified

  function Rank(a: Authority): nat {
    match a
    case Asserted => 0
    case Observed => 1
    case Derived => 1
    case Verified => 2
  }

  datatype ActionStatus = Requested | Authorized | Dispatched | Succeeded | Failed | Unknown | Reconciled

  predicate Terminal(s: ActionStatus) {
    s.Succeeded? || s.Failed? || s.Reconciled?
  }

  /** Claimed, and no outcome known yet. */
  predicate InDoubt(s: ActionStatus) {
    s.Dispatched? || s.Unknown?
  }

  datatype ProposalStatus = Pending | Confirmed | Cancelled | Expired

  datatype OutboxStatus = Waiting | Leased | Delivered | Retry | Quarantined

  /** Names from the action catalog; the first two have payload rules of their own. */
  datatype ActionName = IssueRefund | IssueStoreCredit | OtherAction(name: Name)

  // ---- Policy packages ----

  datatype Lifecycle = Draft | Approved | Active | Retired

  /** The entry `allowed_actions` of a package's rules; anything but a list of names is malformed. */
  datatype Allowed = Missing | Listed(actions: seq<ActionName>) | Malformed

  datatype Rules = Rules(allowed: Allowed, other: Params)

  /** The fields that are signed. */
  datatype Body = Body(
    packageId: Name,
    procedureId: Name,
    version: Name,
    jurisdiction: Name,
    author: Name,
    rules: Rules,
    lifecycle: Lifecycle,
    approver: Option<Name>,
    signingKeyId: Option<Name>)

  datatype Signature = Hmac(key: Name, payload: Body) | Forged(text: Name)

  datatype Package = Package(body: Body, activationSignature: Option<Signature>, signature: Option<Signature>)

  // ---- Commands, cases, facts and actions ----

  datatype BindingRef = BindingRef(id: Option<Name>, version: Option<Name>, contract: Option<Name>)

  datatype Command = Command(
    action: ActionName,
    caseId: Name,
    policyPackageId: Name,
    actorId: Name,
    key: Name,
    params: Params,
    factRefs: map<Name, FactName>,
    requiredAuthority: map<Name, Authority>,
    consentRef: Option<Name>,
    approvalRef: Option<Name>,
    activationSignature: Option<Signature>,
    binding: BindingRef)

  datatype Case = Case(customerId: Name, procedureId: Name, procedureVersion: Name, version: int)

  /** Facts that `submit` commits are named `<action>.<parameter>`. */
  datatype FactName = FactName(action: ActionName, parameter: Name) | OtherFact(name: Name)

  datatype Fact = Fact(value: Value, authority: Authority)

  datatype Action = Action(command: Command, status: ActionStatus)

  datatype Event = Event(actionId: nat, status: ActionStatus)

  datatype ResourceRef = ResourceRef(kind: Name, id: Name)

  datatype Resource = Resource(payload: Params, version: int)

  /** What a proposal fixes when it is created; confirmation may not change any of it. */
  datatype Offer = Offer(
    action: ActionName,
    params: Params,
    caseId: Name,
    customerId: Name,
    actorId: Name,
    procedureId: Name,
    procedureVersion: Name,
    policyPackageId: Name,
    key: Name,
    resource: Option<ResourceRef>,
    resourceVersion: Option<int>,
    binding: BindingRef,
    expiresAt: int)

  datatype Proposal = Proposal(offer: Offer, status: ProposalStatus, actionId: Option<nat>)

  /** The topic `action.dispatch`, the only one a delivery worker understands. */
  datatype Topic = ActionDispatch | OtherTopic(name: Name)

  datatype OutboxRow = OutboxRow(
    topic: Topic,
    actionId: nat,
    status: OutboxStatus,
    attempts: nat,
    availableAt: int,
    leaseUntil: Option<int>,
    createdAt: int)

  /** One entry of the closed action catalog. */
  datatype Specification = Specification(
    required: set<Name>,
    authoritative: set<Name>,
    customerBinding: Option<Name>,
    requiresConsent: bool,
    requiresApproval: bool)
}

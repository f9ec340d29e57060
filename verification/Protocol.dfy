/**
  The durable action protocol as a small-step system.  Every store or provider
  transaction is one step.  Any number of requests, delivery workers and reconcilers
  interleave; each carries its program counter and the (possibly stale) snapshots it
  has read, and each may crash before any step.  `Choice` holds what the code does not
  decide: fresh identifiers, iteration order, whether a policy lookup, a connector
  resolution or a provider call raises.
 */
module Protocol {
  import opened Domain
  import opened CoreTables
  import opened Provider
  import Policy

  /** `checksBinding`: the bridge has a connector resolver; `governed`: the gateway has a policy resolver. */
  datatype Config = Config(
    specs: map<ActionName, Specification>, leaseSeconds: int, maxAttempts: int, checksBinding: bool, governed: bool)

  /**
    `bindings` gives the enabled connector binding of each action and `policy` the state of
    the policy service.  `calls` is a history variable: the keys passed to the provider's
    dispatch, in order.
   */
  datatype Shared = Shared(
    tables: Tables, ledger: Ledger, calls: seq<Name>, now: int, bindings: map<ActionName, BindingRef>,
    policy: Policy.State)

  datatype Snapshot = Snapshot(id: nat, command: Command, status: ActionStatus)

  datatype Claimed = Claimed(id: nat, row: OutboxRow)

  datatype Request = Request(
    action: ActionName, params: Params, caseId: Name, customerId: Name,
    procedureId: Name, procedureVersion: Name, policyPackageId: Name, key: Name,
    resource: Option<ResourceRef>, consentRef: Option<Name>, approvalRef: Option<Name>,
    binding: BindingRef, actorId: Name)

  datatype Confirmation = Confirmation(
    actorId: Name, customerId: Name, consentRef: Option<Name>, approvalRef: Option<Name>)

  /** Who is recording an outcome: the claim winner, or a reconciler before or after its query. */
  datatype Role = Dispatcher | Marker | Settler

  /** What the enclosing call does once dispatch returns. */
  datatype Frame = Direct | OnConfirm(proposal: nat, offer: Offer) | OnWorker(record: Claimed, rest: seq<Claimed>)

  /** ActionBridge. */
  datatype BridgePc =
    | ConfirmRead(context: Confirmation)
    | ConfirmVerify(offer: Offer, context: Confirmation)
    | ConfirmWrite(actionId: nat)
    | ExpireWrite
    | CancelRead(context: Confirmation)
    | CancelLookup(offer: Offer)
    | CancelRecover(actionId: nat)
    | CancelWrite
    | StatusRead(customerId: Name, actor: Option<Name>)

  /** The fact references and required authorities that submit collects while it commits facts. */
  datatype Grounds = Grounds(refs: map<Name, FactName>, authorities: map<Name, Authority>)

  const NO_GROUNDS := Grounds(map[], map[])

  /** ConsequentialActionService.submit. */
  datatype SubmitPc =
    | FindDuplicate
    | CheckOwner(action: Snapshot)
    | FetchResource
    | FetchCase(upstream: Params)
    | MakeCase(upstream: Params)
    | CommitFacts(upstream: Params, todo: set<Name>, grounds: Grounds, version: int)
    | RereadVersion(upstream: Params, todo: set<Name>, grounds: Grounds)

  /** ActionGateway.authorize and CaseKernel.authorize_action. */
  datatype AuthorizePc = Stamp | FindKey | CheckFacts(todo: set<Name>) | Insert

  /** ActionGateway.dispatch, the connector's transactions, record_outcome and ActionGateway.reconcile. */
  datatype Stage =
    | Entry
    | Claim
    | ProviderLookup
    | ProviderScenario
    | ProviderCommit(scenario: Scenario)
    | ProviderReply(scenario: Scenario)
    | OutcomeRead(status: ActionStatus, role: Role)
    | OutcomeWrite(expected: ActionStatus, status: ActionStatus, role: Role)
    | ReconcileEntry
    | ReconcileReread
    | ReconcileQuery

  /** ActionDeliveryWorker.run_once. */
  datatype WorkerPc =
    | ClaimRows(limit: nat)
    | RereadRows(ids: seq<nat>)
    | Loop(records: seq<Claimed>)
    | Complete(record: Claimed, rest: seq<Claimed>)
    | Fail(record: Claimed, rest: seq<Claimed>, quarantine: bool, retryAt: Option<int>)

  datatype Pc =
    | InBridge(proposal: nat, bridge: BridgePc)
    | InSubmit(request: Request, submit: SubmitPc)
    | InAuthorize(command: Command, version: int, authorize: AuthorizePc)
    | InAction(action: Snapshot, stage: Stage)
    | InWorker(worker: WorkerPc)
    | Done

  datatype Client = Client(pc: Pc, frame: Frame)

  const FINISHED := Client(Done, Direct)

  datatype Choice = Choice(
    raises: bool, id: nat, outboxId: nat, pick: Name, batch: seq<nat>)

  datatype Outcome = Outcome(shared: Shared, client: Client)

  // ---- Control flow shared by the programs ----

  function Pow2(n: nat): nat {
    if n == 0 then 1 else 2 * Pow2(n - 1)
  }

  /** Seconds before a failed delivery is retried. */
  function Backoff(attempts: nat): nat {
    var p := Pow2(if attempts == 0 then 0 else attempts - 1);
    if p < 300 then p else 300
  }

  /** An exception leaves every caller but the delivery worker, which settles the row as failed. */
  function Raise(cfg: Config, sh: Shared, frame: Frame): Client {
    match frame
    case OnWorker(r, rest) =>
      var quarantine := r.row.attempts >= cfg.maxAttempts;
      var retryAt := if quarantine then None else Some(sh.now + Backoff(r.row.attempts));
      Client(InWorker(Fail(r, rest, quarantine, retryAt)), Direct)
    case _ => FINISHED
  }

  function Return(frame: Frame, actionId: nat): Client {
    match frame
    case Direct => FINISHED
    case OnConfirm(p, _) => Client(InBridge(p, ConfirmWrite(actionId)), frame)
    case OnWorker(r, rest) => Client(InWorker(Complete(r, rest)), Direct)
  }

  function SnapshotOf(t: Tables, id: nat): Snapshot
    requires id in t.actions
  {
    Snapshot(id, t.actions[id].command, t.actions[id].status)
  }

  /** SELECT by the unique idempotency key. */
  function FindByKey(t: Tables, key: Name): Option<Snapshot> {
    if key in t.keyIndex && t.keyIndex[key] in t.actions then Some(SnapshotOf(t, t.keyIndex[key])) else None
  }

  // ---- submit ----

  /** A refund may repeat an older, narrower command; anything else must repeat it exactly. */
  predicate ParamsMatch(action: ActionName, requested: Params, bound: Params) {
    if action == IssueRefund then forall name :: name in bound ==> Get(requested, name) == bound[name]
    else bound == requested
  }

  predicate SameRequest(r: Request, c: Command) {
    && c.caseId == r.caseId && c.action == r.action && c.policyPackageId == r.policyPackageId
    && ParamsMatch(r.action, r.params, c.params)
  }

  function BuildCommand(r: Request, g: Grounds): Command {
    Command(r.action, r.caseId, r.policyPackageId, r.actorId, r.key, r.params, g.refs, g.authorities,
            r.consentRef, r.approvalRef, None, r.binding)
  }

  function AddGround(g: Grounds, action: ActionName, parameter: Name): Grounds {
    Grounds(g.refs[parameter := FactName(action, parameter)], g.authorities[parameter := Verified])
  }

  /** The resource agrees with every authoritative parameter and belongs to the customer. */
  predicate UpstreamAgrees(spec: Specification, upstream: Params, params: Params, customer: Name) {
    && (spec.customerBinding.Some? ==>
         spec.customerBinding.value in upstream && upstream[spec.customerBinding.value] == Text(customer))
    && (forall p :: p in spec.authoritative ==> p in upstream && upstream[p] == Get(params, p))
  }

  function Raised(cfg: Config, sh: Shared, cl: Client): Outcome {
    Outcome(sh, Raise(cfg, sh, cl.frame))
  }

  function Go(sh: Shared, cl: Client, pc: Pc): Outcome {
    Outcome(sh, cl.(pc := pc))
  }

  function FindDuplicateTx(cfg: Config, sh: Shared, cl: Client, r: Request): Outcome {
    match FindByKey(sh.tables, r.key)
    case None => Go(sh, cl, InSubmit(r, FetchResource))
    case Some(a) => if SameRequest(r, a.command) then Go(sh, cl, InSubmit(r, CheckOwner(a))) else Raised(cfg, sh, cl)
  }

  function CheckOwnerTx(cfg: Config, sh: Shared, cl: Client, r: Request, a: Snapshot): Outcome {
    var cs := sh.tables.cases;
    if a.command.caseId in cs && cs[a.command.caseId].customerId == r.customerId
    then Go(sh, cl, InAction(a, Entry)) else Raised(cfg, sh, cl)
  }

  function FetchResourceTx(cfg: Config, sh: Shared, cl: Client, r: Request): Outcome {
    if r.action !in cfg.specs then Raised(cfg, sh, cl)
    else if cfg.specs[r.action].authoritative == {} then Go(sh, cl, InSubmit(r, FetchCase(map[])))
    else if r.resource.None? || r.resource.value !in sh.ledger.resources then Raised(cfg, sh, cl)
    else
      var upstream := Normalize(r.action, sh.ledger.resources[r.resource.value].payload);
      if UpstreamAgrees(cfg.specs[r.action], upstream, r.params, r.customerId)
      then Go(sh, cl, InSubmit(r, FetchCase(upstream)))
      else Raised(cfg, sh, cl)
  }

  function FetchCaseTx(cfg: Config, sh: Shared, cl: Client, r: Request, upstream: Params): Outcome {
    if r.caseId !in sh.tables.cases then Go(sh, cl, InSubmit(r, MakeCase(upstream)))
    else
      var c := sh.tables.cases[r.caseId];
      if c.customerId != r.customerId || c.procedureVersion != r.procedureVersion then Raised(cfg, sh, cl)
      else Go(sh, cl, InSubmit(r, CommitFacts(upstream, Authoritative(cfg, r.action), NO_GROUNDS, c.version)))
  }

  function MakeCaseTx(cfg: Config, sh: Shared, cl: Client, r: Request, upstream: Params): Outcome {
    match CreateCase(sh.tables, r.caseId, r.customerId, r.procedureId, r.procedureVersion)
    case None => Raised(cfg, sh, cl)
    case Some(t') =>
      Go(sh.(tables := t'), cl, InSubmit(r, CommitFacts(upstream, Authoritative(cfg, r.action), NO_GROUNDS, 0)))
  }

  function UpstreamFact(upstream: Params, parameter: Name): Fact {
    Fact(Get(upstream, parameter), Verified)
  }

  function CommitFactsTx(cfg: Config, sh: Shared, cl: Client, ch: Choice, r: Request, upstream: Params,
                         todo: set<Name>, g: Grounds, version: int): Outcome
  {
    if todo == {} then Go(sh, cl, InAuthorize(BuildCommand(r, g), version, Stamp))
    else if ch.pick !in todo then Outcome(sh, cl)
    else
      match AppendFact(sh.tables, r.caseId, FactName(r.action, ch.pick), UpstreamFact(upstream, ch.pick), version)
      case None => Raised(cfg, sh, cl)
      case Some(t') =>
        Go(sh.(tables := t'), cl,
           InSubmit(r, RereadVersion(upstream, todo - {ch.pick}, AddGround(g, r.action, ch.pick))))
  }

  /** append_fact reads the case back in a transaction of its own. */
  function RereadVersionTx(cfg: Config, sh: Shared, cl: Client, r: Request, upstream: Params, todo: set<Name>,
                           g: Grounds): Outcome
  {
    if r.caseId in sh.tables.cases
    then Go(sh, cl, InSubmit(r, CommitFacts(upstream, todo, g, sh.tables.cases[r.caseId].version)))
    else Raised(cfg, sh, cl)
  }

  function StepSubmit(cfg: Config, sh: Shared, cl: Client, ch: Choice): Outcome
    requires cl.pc.InSubmit?
  {
    var r := cl.pc.request;
    match cl.pc.submit
    case FindDuplicate => FindDuplicateTx(cfg, sh, cl, r)
    case CheckOwner(a) => CheckOwnerTx(cfg, sh, cl, r, a)
    case FetchResource => FetchResourceTx(cfg, sh, cl, r)
    case FetchCase(upstream) => FetchCaseTx(cfg, sh, cl, r, upstream)
    case MakeCase(upstream) => MakeCaseTx(cfg, sh, cl, r, upstream)
    case CommitFacts(upstream, todo, g, version) => CommitFactsTx(cfg, sh, cl, ch, r, upstream, todo, g, version)
    case RereadVersion(upstream, todo, g) => RereadVersionTx(cfg, sh, cl, r, upstream, todo, g)
  }

  function Authoritative(cfg: Config, action: ActionName): set<Name> {
    if action in cfg.specs then cfg.specs[action].authoritative else {}
  }

  // ---- authorize ----

  predicate SpecificationMet(spec: Specification, c: Command) {
    && spec.required <= c.params.Keys
    && (spec.requiresConsent ==> c.consentRef.Some?)
    && (spec.requiresApproval ==> c.approvalRef.Some?)
    && spec.authoritative <= c.factRefs.Keys
  }

  /** The check of one parameter against the fact it refers to. */
  predicate FactAgrees(t: Tables, c: Command, p: Name) {
    && p in c.factRefs && (c.caseId, c.factRefs[p]) in t.facts
    && p in c.requiredAuthority
    && var fact := t.facts[(c.caseId, c.factRefs[p])];
       Rank(fact.authority) >= Rank(c.requiredAuthority[p]) && Get(c.params, p) == fact.value
  }

  /** The package is of the case's procedure and permits the action.  A case never changes its procedure. */
  predicate Governs(t: Tables, package: Package, c: Command) {
    && c.caseId in t.cases && package.body.procedureId == t.cases[c.caseId].procedureId
    && Policy.Permits(package, c.action)
  }

  /** The gateway stamps the enabled binding and the activation signature of the active package. */
  function StampTx(cfg: Config, sh: Shared, cl: Client, ch: Choice, c: Command, version: int): Outcome {
    if ch.raises || c.action !in sh.bindings then Raised(cfg, sh, cl)
    else
      var bound := c.(binding := sh.bindings[c.action]);
      if !cfg.governed then Go(sh, cl, InAuthorize(bound, version, FindKey))
      else
        match Policy.RequireActive(sh.policy, c.policyPackageId)
        case None => Raised(cfg, sh, cl)
        case Some(package) =>
          if !Governs(sh.tables, package, c) then Raised(cfg, sh, cl)
          else Go(sh, cl, InAuthorize(bound.(activationSignature := package.activationSignature), version, FindKey))
  }

  function FindKeyTx(cfg: Config, sh: Shared, cl: Client, c: Command, version: int): Outcome {
    match FindByKey(sh.tables, c.key)
    case Some(a) => if a.command == c then Go(sh, cl, InAction(a, Entry)) else Raised(cfg, sh, cl)
    case None =>
      if c.action in cfg.specs && SpecificationMet(cfg.specs[c.action], c)
      then Go(sh, cl, InAuthorize(c, version, CheckFacts(c.factRefs.Keys))) else Raised(cfg, sh, cl)
  }

  function CheckFactsTx(cfg: Config, sh: Shared, cl: Client, ch: Choice, c: Command, version: int,
                        todo: set<Name>): Outcome
  {
    if todo == {} then Go(sh, cl, InAuthorize(c, version, Insert))
    else if ch.pick !in todo then Outcome(sh, cl)
    else if FactAgrees(sh.tables, c, ch.pick) then Go(sh, cl, InAuthorize(c, version, CheckFacts(todo - {ch.pick})))
    else Raised(cfg, sh, cl)
  }

  function InsertTx(cfg: Config, sh: Shared, cl: Client, ch: Choice, c: Command, version: int): Outcome {
    match InsertAction(sh.tables, ch.id, ch.outboxId, c, version, sh.now)
    case None => Raised(cfg, sh, cl)
    case Some(t') => Go(sh.(tables := t'), cl, InAction(Snapshot(ch.id, c, Authorized), Entry))
  }

  function StepAuthorize(cfg: Config, sh: Shared, cl: Client, ch: Choice): Outcome
    requires cl.pc.InAuthorize?
  {
    var c, version := cl.pc.command, cl.pc.version;
    match cl.pc.authorize
    case Stamp => StampTx(cfg, sh, cl, ch, c, version)
    case FindKey => FindKeyTx(cfg, sh, cl, c, version)
    case CheckFacts(todo) => CheckFactsTx(cfg, sh, cl, ch, c, version, todo)
    case Insert => InsertTx(cfg, sh, cl, ch, c, version)
  }

  // ---- dispatch, record_outcome and reconcile ----

  function At(sh: Shared, cl: Client, a: Snapshot, stage: Stage): Outcome {
    Go(sh, cl, InAction(a, stage))
  }

  /** The dispatch-time check: against the stamped snapshot, or the active package for a command without a stamp. */
  predicate PolicyAllows(policy: Policy.State, c: Command) {
    var package :=
      if c.activationSignature.Some? then Policy.RequireSnapshot(policy, c.policyPackageId, c.activationSignature.value)
      else Policy.RequireActive(policy, c.policyPackageId);
    package.Some? && Policy.Permits(package.value, c.action)
  }

  /** The policy check and connector resolution may raise before the claim. */
  function EntryTx(cfg: Config, sh: Shared, cl: Client, ch: Choice, a: Snapshot): Outcome {
    if a.status != Authorized then Outcome(sh, Return(cl.frame, a.id))
    else if ch.raises || (cfg.governed && !PolicyAllows(sh.policy, a.command)) then Raised(cfg, sh, cl)
    else At(sh, cl, a, Claim)
  }

  function ClaimTx(cfg: Config, sh: Shared, cl: Client, a: Snapshot): Outcome {
    var (t', won) := ClaimAction(sh.tables, a.id);
    if won then At(sh.(tables := t'), cl, a, ProviderLookup)
    else if a.id in sh.tables.actions then Outcome(sh, Return(cl.frame, a.id))
    else Raised(cfg, sh, cl)
  }

  /** The connector's dispatch is invoked; whatever it raises is recorded as an unknown outcome. */
  function ProviderLookupTx(sh: Shared, cl: Client, ch: Choice, a: Snapshot): Outcome {
    var called := sh.(calls := sh.calls + [a.command.key]);
    if ch.raises then At(called, cl, a, OutcomeRead(Unknown, Dispatcher))
    else if a.command.key in sh.ledger.effects then At(called, cl, a, OutcomeRead(Succeeded, Dispatcher))
    else At(called, cl, a, ProviderScenario)
  }

  function ProviderScenarioTx(sh: Shared, cl: Client, ch: Choice, a: Snapshot): Outcome {
    var scenario := ScenarioFor(sh.ledger, a.command.key);
    if ch.raises || scenario == TimeoutBeforeCommit then At(sh, cl, a, OutcomeRead(Unknown, Dispatcher))
    else if scenario == Rejected then At(sh, cl, a, OutcomeRead(Failed, Dispatcher))
    else At(sh, cl, a, ProviderCommit(scenario))
  }

  function ProviderCommitTx(sh: Shared, cl: Client, ch: Choice, a: Snapshot, scenario: Scenario): Outcome {
    if ch.raises then At(sh, cl, a, OutcomeRead(Unknown, Dispatcher))
    else At(sh.(ledger := CommitEffect(sh.ledger, a.command)), cl, a, ProviderReply(scenario))
  }

  function ProviderReplyTx(sh: Shared, cl: Client, ch: Choice, a: Snapshot, scenario: Scenario): Outcome {
    if ch.raises || scenario == TimeoutAfterCommit then At(sh, cl, a, OutcomeRead(Unknown, Dispatcher))
    else At(sh, cl, a, OutcomeRead(Succeeded, Dispatcher))
  }

  /** Only a dispatcher has a caller waiting for it; a reconciler's failure ends its own call. */
  function Fault(cfg: Config, sh: Shared, frame: Frame, role: Role): Client {
    if role == Dispatcher then Raise(cfg, sh, frame) else FINISHED
  }

  function OutcomeReadTx(cfg: Config, sh: Shared, cl: Client, ch: Choice, a: Snapshot, status: ActionStatus,
                         role: Role): Outcome
  {
    var acts := sh.tables.actions;
    if !ch.raises && a.id in acts && OutcomeAllowed(acts[a.id].status, status)
    then At(sh, cl, a, OutcomeWrite(acts[a.id].status, status, role))
    else Outcome(sh, Fault(cfg, sh, cl.frame, role))
  }

  function OutcomeWriteTx(cfg: Config, sh: Shared, cl: Client, a: Snapshot, expected: ActionStatus,
                          status: ActionStatus, role: Role): Outcome
  {
    match TransitionAction(sh.tables, a.id, expected, status)
    case None => Outcome(sh, Fault(cfg, sh, cl.frame, role))
    case Some(t') =>
      match role
      case Dispatcher => Outcome(sh.(tables := t'), Return(cl.frame, a.id))
      case Marker => At(sh.(tables := t'), cl, a, ReconcileReread)
      case Settler => Outcome(sh.(tables := t'), FINISHED)
  }

  function ReconcileEntryTx(sh: Shared, cl: Client, a: Snapshot): Outcome {
    if a.status == Dispatched then At(sh, cl, a, OutcomeRead(Unknown, Marker))
    else if a.status == Unknown then At(sh, cl, a, ReconcileQuery)
    else Outcome(sh, FINISHED)
  }

  /** transition_action returns the row as a later read finds it. */
  function ReconcileRereadTx(sh: Shared, cl: Client, a: Snapshot): Outcome {
    var t := sh.tables;
    if a.id in t.actions && t.actions[a.id].status == Unknown then At(sh, cl, SnapshotOf(t, a.id), ReconcileQuery)
    else Outcome(sh, FINISHED)
  }

  function ReconcileQueryTx(sh: Shared, cl: Client, ch: Choice, a: Snapshot): Outcome {
    if ch.raises then Outcome(sh, FINISHED)
    else if a.command.key in sh.ledger.effects then At(sh, cl, a, OutcomeRead(Reconciled, Settler))
    else At(sh, cl, a, OutcomeRead(Unknown, Settler))
  }

  function StepAction(cfg: Config, sh: Shared, cl: Client, ch: Choice): Outcome
    requires cl.pc.InAction?
  {
    var a := cl.pc.action;
    match cl.pc.stage
    case Entry => EntryTx(cfg, sh, cl, ch, a)
    case Claim => ClaimTx(cfg, sh, cl, a)
    case ProviderLookup => ProviderLookupTx(sh, cl, ch, a)
    case ProviderScenario => ProviderScenarioTx(sh, cl, ch, a)
    case ProviderCommit(scenario) => ProviderCommitTx(sh, cl, ch, a, scenario)
    case ProviderReply(scenario) => ProviderReplyTx(sh, cl, ch, a, scenario)
    case OutcomeRead(status, role) => OutcomeReadTx(cfg, sh, cl, ch, a, status, role)
    case OutcomeWrite(expected, status, role) => OutcomeWriteTx(cfg, sh, cl, a, expected, status, role)
    case ReconcileEntry => ReconcileEntryTx(sh, cl, a)
    case ReconcileReread => ReconcileRereadTx(sh, cl, a)
    case ReconcileQuery => ReconcileQueryTx(sh, cl, ch, a)
  }

  // ---- bridge ----

  function RequestFor(o: Offer, spec: Specification, context: Confirmation): Request {
    Request(o.action, o.params, o.caseId, o.customerId, o.procedureId, o.procedureVersion, o.policyPackageId,
            o.key, o.resource,
            if spec.requiresConsent then context.consentRef else None,
            if spec.requiresApproval then context.approvalRef else None,
            o.binding, context.actorId)
  }

  predicate Owns(o: Offer, customer: Name, actor: Option<Name>) {
    o.customerId == customer && (actor.Some? ==> o.actorId == actor.value)
  }

  predicate ResourceUnchanged(l: Ledger, o: Offer) {
    o.resource.Some? ==>
      o.resource.value in l.resources && o.resourceVersion == Some(l.resources[o.resource.value].version)
  }

  /** A lookup in the registry, made in the same breath as the read of the resource. */
  predicate BindingUnchanged(cfg: Config, sh: Shared, o: Offer) {
    cfg.checksBinding ==> o.action in sh.bindings && sh.bindings[o.action] == o.binding
  }

  function ConfirmReadTx(sh: Shared, cl: Client, p: nat, context: Confirmation): Outcome {
    var ps := sh.tables.proposals;
    if p !in ps || !Owns(ps[p].offer, context.customerId, Some(context.actorId)) || ps[p].status != Pending
    then Outcome(sh, FINISHED)
    else if ps[p].offer.expiresAt <= sh.now then Go(sh, cl, InBridge(p, ExpireWrite))
    else Go(sh, cl, InBridge(p, ConfirmVerify(ps[p].offer, context)))
  }

  predicate EvidenceGiven(spec: Specification, context: Confirmation) {
    (spec.requiresConsent ==> context.consentRef.Some?) && (spec.requiresApproval ==> context.approvalRef.Some?)
  }

  function ConfirmVerifyTx(cfg: Config, sh: Shared, ch: Choice, p: nat, o: Offer, context: Confirmation): Outcome {
    if ch.raises || !ResourceUnchanged(sh.ledger, o) || !BindingUnchanged(cfg, sh, o) || o.action !in cfg.specs
       || !EvidenceGiven(cfg.specs[o.action], context) then Outcome(sh, FINISHED)
    else Outcome(sh, Client(InSubmit(RequestFor(o, cfg.specs[o.action], context), FindDuplicate), OnConfirm(p, o)))
  }

  function CancelReadTx(sh: Shared, cl: Client, p: nat, context: Confirmation): Outcome {
    var ps := sh.tables.proposals;
    if p !in ps || !Owns(ps[p].offer, context.customerId, Some(context.actorId)) || ps[p].status != Pending
    then Outcome(sh, FINISHED)
    else Go(sh, cl, InBridge(p, CancelLookup(ps[p].offer)))
  }

  function CancelLookupTx(sh: Shared, cl: Client, p: nat, o: Offer): Outcome {
    match FindByKey(sh.tables, o.key)
    case Some(a) => Go(sh, cl, InBridge(p, CancelRecover(a.id)))
    case None => Go(sh, cl, InBridge(p, CancelWrite))
  }

  function StatusReadTx(sh: Shared, cl: Client, p: nat, customer: Name, actor: Option<Name>): Outcome {
    var ps := sh.tables.proposals;
    if p in ps && Owns(ps[p].offer, customer, actor) && ps[p].status == Pending && ps[p].offer.expiresAt <= sh.now
    then Go(sh, cl, InBridge(p, ExpireWrite))
    else Outcome(sh, FINISHED)
  }

  function ProposalTx(sh: Shared, p: nat, status: ProposalStatus, actionId: Option<nat>): Outcome {
    Outcome(Committed(sh, TransitionProposal(sh.tables, p, Pending, status, actionId)), FINISHED)
  }

  function StepBridge(cfg: Config, sh: Shared, cl: Client, ch: Choice): Outcome
    requires cl.pc.InBridge?
  {
    var p := cl.pc.proposal;
    match cl.pc.bridge
    case ConfirmRead(context) => ConfirmReadTx(sh, cl, p, context)
    case ConfirmVerify(o, context) => ConfirmVerifyTx(cfg, sh, ch, p, o, context)
    case ConfirmWrite(actionId) => ProposalTx(sh, p, Confirmed, Some(actionId))
    case ExpireWrite => ProposalTx(sh, p, Expired, None)
    case CancelRead(context) => CancelReadTx(sh, cl, p, context)
    case CancelLookup(o) => CancelLookupTx(sh, cl, p, o)
    case CancelRecover(actionId) => ProposalTx(sh, p, Confirmed, Some(actionId))
    case CancelWrite => ProposalTx(sh, p, Cancelled, None)
    case StatusRead(customer, actor) => StatusReadTx(sh, cl, p, customer, actor)
  }

  /** A compare-and-set that loses the race rolls back and changes nothing. */
  function Committed(sh: Shared, t': Option<Tables>): Shared {
    if t'.Some? then sh.(tables := t'.value) else sh
  }

  // ---- delivery worker ----

  function Leasing(sh: Shared, ids: seq<nat>, until: int): Tables {
    sh.tables.(outbox := LeaseRows(sh.tables.outbox, ids, until))
  }

  ghost function ClaimRowsTx(cfg: Config, sh: Shared, cl: Client, ch: Choice, limit: nat): Outcome {
    if DueBatch(sh.tables, sh.now, limit, ch.batch)
    then Go(sh.(tables := Leasing(sh, ch.batch, sh.now + cfg.leaseSeconds)), cl, InWorker(RereadRows(ch.batch)))
    else Outcome(sh, cl)
  }

  /** The same rows, in whatever order the database returns them. */
  ghost predicate Reordered(ids: seq<nat>, batch: seq<nat>) {
    && (forall i, j :: 0 <= i < j < |batch| ==> batch[i] != batch[j])
    && (forall id :: id in batch <==> id in ids)
  }

  ghost function RereadRowsTx(sh: Shared, cl: Client, ch: Choice, ids: seq<nat>): Outcome {
    if Reordered(ids, ch.batch) then Go(sh, cl, InWorker(Loop(ReadRows(sh.tables, ch.batch)))) else Outcome(sh, cl)
  }

  function LoopTx(sh: Shared, cl: Client, records: seq<Claimed>): Outcome {
    if records == [] then Outcome(sh, FINISHED)
    else
      var r, rest := records[0], records[1..];
      if r.row.topic != ActionDispatch || r.row.actionId !in sh.tables.actions
      then Go(sh, cl, InWorker(Fail(r, rest, true, None)))
      else Outcome(sh, Client(InAction(SnapshotOf(sh.tables, r.row.actionId), Entry), OnWorker(r, rest)))
  }

  function CompleteTx(cfg: Config, sh: Shared, cl: Client, r: Claimed, rest: seq<Claimed>): Outcome {
    match SettleRow(sh.tables, r.id, Delivered, sh.now)
    case None => Outcome(sh, Raise(cfg, sh, OnWorker(r, rest)))
    case Some(t') => Go(sh.(tables := t'), cl, InWorker(Loop(rest)))
  }

  function FailTx(sh: Shared, cl: Client, r: Claimed, rest: seq<Claimed>, quarantine: bool,
                  retryAt: Option<int>): Outcome {
    match SettleRow(sh.tables, r.id, if quarantine then Quarantined else Retry,
                    if retryAt.Some? then retryAt.value else sh.now)
    case None => Outcome(sh, FINISHED)
    case Some(t') => Go(sh.(tables := t'), cl, InWorker(Loop(rest)))
  }

  ghost function StepWorker(cfg: Config, sh: Shared, cl: Client, ch: Choice): Outcome
    requires cl.pc.InWorker?
  {
    match cl.pc.worker
    case ClaimRows(limit) => ClaimRowsTx(cfg, sh, cl, ch, limit)
    case RereadRows(ids) => RereadRowsTx(sh, cl, ch, ids)
    case Loop(records) => LoopTx(sh, cl, records)
    case Complete(r, rest) => CompleteTx(cfg, sh, cl, r, rest)
    case Fail(r, rest, quarantine, retryAt) => FailTx(sh, cl, r, rest, quarantine, retryAt)
  }

  /** The claimed rows as read back after the lease has been committed. */
  function ReadRows(t: Tables, ids: seq<nat>): seq<Claimed> {
    if ids == [] then []
    else (if ids[0] in t.outbox then [Claimed(ids[0], t.outbox[ids[0]])] else []) + ReadRows(t, ids[1..])
  }

  // ---- the system ----

  ghost function ClientStep(cfg: Config, sh: Shared, cl: Client, ch: Choice): Outcome {
    match cl.pc
    case InBridge(_, _) => StepBridge(cfg, sh, cl, ch)
    case InSubmit(_, _) => StepSubmit(cfg, sh, cl, ch)
    case InAuthorize(_, _, _) => StepAuthorize(cfg, sh, cl, ch)
    case InAction(_, _) => StepAction(cfg, sh, cl, ch)
    case InWorker(_) => StepWorker(cfg, sh, cl, ch)
    case Done => Outcome(sh, cl)
  }

  datatype Program =
    | Submit(request: Request)
    | Confirm(proposal: nat, context: Confirmation)
    | Cancel(proposal: nat, context: Confirmation)
    | Status(proposal: nat, customerId: Name, actor: Option<Name>)
    | Deliver(limit: nat)
    | Reconcile(actionId: nat)

  /** A reconciler starts from the row its listing query returned. */
  function Start(t: Tables, p: Program): Client {
    match p
    case Submit(r) => Client(InSubmit(r, FindDuplicate), Direct)
    case Confirm(id, context) => Client(InBridge(id, ConfirmRead(context)), Direct)
    case Cancel(id, context) => Client(InBridge(id, CancelRead(context)), Direct)
    case Status(id, customer, actor) => Client(InBridge(id, StatusRead(customer, actor)), Direct)
    case Deliver(limit) => Client(InWorker(ClaimRows(limit)), Direct)
    case Reconcile(id) =>
      if id in t.actions then Client(InAction(SnapshotOf(t, id), ReconcileEntry), Direct) else FINISHED
  }

  datatype World = World(cfg: Config, shared: Shared, clients: map<nat, Client>)

  datatype Move =
    | Spawn(client: nat, program: Program)
    | Step(client: nat, choice: Choice)
    | Crash(client: nat)
    | Tick(seconds: nat)
    | Propose(id: nat, offer: Offer)
    | OpenCase(caseId: Name, customerId: Name, procedureId: Name, procedureVersion: Name)
    | CommitFact(caseId: Name, name: FactName, fact: Fact, expected: int)
    | SetScenario(key: Name, scenario: Scenario)
    | SeedResource(ref: ResourceRef, payload: Params)
    | Deploy(bindings: map<ActionName, BindingRef>)
    | Govern(call: Policy.Call, next: Policy.State)

  /** What the environment may do to the shared state in one transaction or one call of the policy service. */
  ghost function Environment(sh: Shared, m: Move): Shared
    requires !m.Spawn? && !m.Step? && !m.Crash?
  {
    match m
    case Tick(seconds) => sh.(now := sh.now + seconds)
    case Propose(id, offer) => Committed(sh, CreateProposal(sh.tables, id, offer))
    case OpenCase(id, customer, procedure, version) =>
      Committed(sh, CreateCase(sh.tables, id, customer, procedure, version))
    case CommitFact(id, name, fact, expected) => Committed(sh, AppendFact(sh.tables, id, name, fact, expected))
    case SetScenario(key, scenario) => sh.(ledger := sh.ledger.(scenarios := sh.ledger.scenarios[key := scenario]))
    case SeedResource(ref, payload) => sh.(ledger := WithResource(sh.ledger, ref, payload))
    case Deploy(bindings) => sh.(bindings := bindings)
    case Govern(call, next) => if Policy.Next(sh.policy, call, next) then sh.(policy := next) else sh
  }

  /** One move; a move that is not enabled changes nothing. */
  ghost function Apply(w: World, m: Move): World {
    match m
    case Spawn(c, program) =>
      if c in w.clients then w else w.(clients := w.clients[c := Start(w.shared.tables, program)])
    case Step(c, ch) =>
      if c !in w.clients then w
      else
        var out := ClientStep(w.cfg, w.shared, w.clients[c], ch);
        w.(shared := out.shared, clients := w.clients[c := out.client])
    case Crash(c) => w.(clients := w.clients - {c})
    case _ => w.(shared := Environment(w.shared, m))
  }

  ghost function Run(w: World, moves: seq<Move>): World
    decreases |moves|
  {
    if moves == [] then w else Run(Apply(w, moves[0]), moves[1..])
  }

  /** An empty store, an empty ledger, no policy packages and no calls in flight. */
  ghost predicate Initial(w: World) {
    && Policy.Fresh(w.shared.policy) && w.shared.tables == EMPTY && w.shared.ledger.effects == map[]
    && w.shared.calls == [] && w.clients == map[]
  }
}

/**
  Where an action's parameters come from: an action with authoritative parameters is only
  inserted after the same call has found that the request's resource agrees with them and,
  where the catalog says so, names the customer of the case.
 */
module Sourcing {
  import opened Domain
  import opened CoreTables
  import opened Provider
  import opened Protocol
  import opened ProtocolInvariant
  import opened ProtocolSafety
  import opened ProtocolWriters
  import opened Delivery
  import opened Guards

  /** The request's own resource agrees with its authoritative parameters and belongs to its customer. */
  predicate Backs(spec: Specification, sh: Shared, r: Request) {
    && r.resource.Some? && r.resource.value in sh.ledger.resources
    && UpstreamAgrees(spec, Normalize(r.action, sh.ledger.resources[r.resource.value].payload), r.params, r.customerId)
  }

  ghost predicate WasBacked(spec: Specification, past: set<Shared>, r: Request) {
    spec.authoritative != {} ==> exists sh :: sh in past && Backs(spec, sh, r)
  }

  /** The request's case is its customer's and runs the procedure version of the request. */
  predicate CaseFits(t: Tables, r: Request) {
    && r.caseId in t.cases && t.cases[r.caseId].customerId == r.customerId
    && t.cases[r.caseId].procedureVersion == r.procedureVersion
  }

  ghost predicate WasCaseOf(past: set<Shared>, r: Request) {
    exists sh :: sh in past && CaseFits(sh.tables, r)
  }

  /** The request a call works on: the one submitted, or the one made from the confirmed offer. */
  function Origin(cfg: Config, program: Program, frame: Frame): Option<Request> {
    if program.Submit? then Some(program.request)
    else if program.Confirm? && frame.OnConfirm? && frame.offer.action in cfg.specs
    then Some(RequestFor(frame.offer, cfg.specs[frame.offer.action], program.context))
    else None
  }

  ghost predicate RequestSourced(cfg: Config, past: set<Shared>, r: Request, s: SubmitPc) {
    && (s.FetchCase? || s.MakeCase? || s.CommitFacts? || s.RereadVersion? ==>
         r.action in cfg.specs && WasBacked(cfg.specs[r.action], past, r))
    && (s.CommitFacts? || s.RereadVersion? ==> WasCaseOf(past, r))
  }

  ghost predicate CommandSourced(cfg: Config, past: set<Shared>, r: Request, c: Command) {
    && c.action == r.action && c.caseId == r.caseId && c.key == r.key && c.params == r.params
    && c.policyPackageId == r.policyPackageId && c.actorId == r.actorId
    && c.consentRef == r.consentRef && c.approvalRef == r.approvalRef
    && r.action in cfg.specs && WasBacked(cfg.specs[r.action], past, r) && WasCaseOf(past, r)
  }

  // ---- The same in the fields of the resource ----

  /**
    What a resource says of a field: its own entry, or one of the two fill-ins of older
    documents, the amount for a refund's amount and US dollars for a missing currency.
   */
  function FieldOf(action: ActionName, payload: Params, name: Name): Option<Value> {
    if name in payload then Some(payload[name])
    else if action.IssueRefund? && name.text == "refund_amount" && Name("amount") in payload
        then Some(payload[Name("amount")])
    else if (action.IssueRefund? || action.IssueStoreCredit?) && name.text == "currency" then Some(Text(Name("USD")))
    else None
  }

  /** The resource names the customer in the bound field and agrees field by field with the parameters. */
  ghost predicate Matches(spec: Specification, sh: Shared, r: Request, params: Params, customer: Name) {
    && r.resource.Some? && r.resource.value in sh.ledger.resources
    && var payload := sh.ledger.resources[r.resource.value].payload;
       && (spec.customerBinding.Some? ==>
           FieldOf(r.action, payload, spec.customerBinding.value) == Some(Text(customer)))
       && (forall p :: p in spec.authoritative ==>
            FieldOf(r.action, payload, p) == Some(if p in params then params[p] else NullValue))
  }

  ghost predicate HasMatched(spec: Specification, past: set<Shared>, r: Request, params: Params, customer: Name) {
    spec.authoritative != {} ==> exists sh :: sh in past && Matches(spec, sh, r, params, customer)
  }

  lemma NormalizedField(action: ActionName, payload: Params, name: Name)
    ensures name in Normalize(action, payload) <==> FieldOf(action, payload, name).Some?
    ensures name in Normalize(action, payload) ==>
            FieldOf(action, payload, name) == Some(Normalize(action, payload)[name])
  {
    assert name == Name(name.text);
  }

  lemma BackedMatches(spec: Specification, sh: Shared, r: Request)
    requires Backs(spec, sh, r)
    ensures Matches(spec, sh, r, r.params, r.customerId)
  {
    hide Normalize, FieldOf;
    var payload := sh.ledger.resources[r.resource.value].payload;
    forall p | p in spec.authoritative ensures FieldOf(r.action, payload, p) == Some(Get(r.params, p)) {
      NormalizedField(r.action, payload, p);
    }
    if spec.customerBinding.Some? { NormalizedField(r.action, payload, spec.customerBinding.value); }
  }

  lemma WasBackedMatches(spec: Specification, past: set<Shared>, r: Request)
    requires WasBacked(spec, past, r)
    ensures HasMatched(spec, past, r, r.params, r.customerId)
  {
    hide Backs, Matches;
    if spec.authoritative != {} {
      var sh :| sh in past && Backs(spec, sh, r);
      BackedMatches(spec, sh, r);
    }
  }

  /** What submit and authorize have behind them since the call began. */
  ghost predicate Sourced(cfg: Config, past: set<Shared>, program: Program, cl: Client) {
    match cl.pc
    case InSubmit(r, s) => Origin(cfg, program, cl.frame) == Some(r) && RequestSourced(cfg, past, r, s)
    case InAuthorize(c, _, _) =>
      Origin(cfg, program, cl.frame).Some? && CommandSourced(cfg, past, Origin(cfg, program, cl.frame).value, c)
    case _ => true
  }

  // ---- Steps ----

  /** Where submit goes next: on with the same request, to a command made from it, or out of the call. */
  ghost predicate SubmitGoes(cfg: Config, past: set<Shared>, cl: Client, r: Request, cl': Client) {
    || (cl'.frame == cl.frame && cl'.pc.InSubmit? && cl'.pc.request == r && RequestSourced(cfg, past, r, cl'.pc.submit))
    || (cl'.frame == cl.frame && cl'.pc.InAuthorize? && CommandSourced(cfg, past, r, cl'.pc.command))
    || (!cl'.pc.InSubmit? && !cl'.pc.InAuthorize?)
  }

  lemma FetchSources(cfg: Config, sh: Shared, cl: Client, r: Request, past: set<Shared>)
    requires sh in past
    ensures SubmitGoes(cfg, past, cl, r, FetchResourceTx(cfg, sh, cl, r).client)
  {
    hide Normalize, UpstreamAgrees;
    if r.action in cfg.specs && Backs(cfg.specs[r.action], sh, r) {
      assert WasBacked(cfg.specs[r.action], past, r);
    }
  }

  lemma CaseSources(cfg: Config, sh: Shared, cl: Client, r: Request, upstream: Params, past: set<Shared>)
    requires sh in past && RequestSourced(cfg, past, r, FetchCase(upstream))
    ensures SubmitGoes(cfg, past, cl, r, FetchCaseTx(cfg, sh, cl, r, upstream).client)
  {
    hide WasBacked, Authoritative;
    if CaseFits(sh.tables, r) { assert WasCaseOf(past, r); }
  }

  lemma MakeCaseSources(cfg: Config, sh: Shared, cl: Client, r: Request, upstream: Params, past: set<Shared>)
    requires MakeCaseTx(cfg, sh, cl, r, upstream).shared in past && RequestSourced(cfg, past, r, MakeCase(upstream))
    ensures SubmitGoes(cfg, past, cl, r, MakeCaseTx(cfg, sh, cl, r, upstream).client)
  {
    hide WasBacked, Authoritative;
    var made := CreateCase(sh.tables, r.caseId, r.customerId, r.procedureId, r.procedureVersion);
    if made.Some? { assert CaseFits(made.value, r); }
  }

  lemma CommitSources(cfg: Config, sh: Shared, cl: Client, ch: Choice, past: set<Shared>)
    requires cl.pc.InSubmit? && (cl.pc.submit.CommitFacts? || cl.pc.submit.RereadVersion?)
    requires RequestSourced(cfg, past, cl.pc.request, cl.pc.submit)
    ensures SubmitGoes(cfg, past, cl, cl.pc.request, StepSubmit(cfg, sh, cl, ch).client)
  {
    hide WasBacked, WasCaseOf, AppendFact, UpstreamFact;
    hide FindDuplicateTx, CheckOwnerTx, FetchResourceTx, FetchCaseTx, MakeCaseTx;
  }

  lemma SubmitSources(cfg: Config, sh: Shared, cl: Client, ch: Choice, past: set<Shared>)
    requires cl.pc.InSubmit? && RequestSourced(cfg, past, cl.pc.request, cl.pc.submit)
    requires sh in past && StepSubmit(cfg, sh, cl, ch).shared in past
    ensures SubmitGoes(cfg, past, cl, cl.pc.request, StepSubmit(cfg, sh, cl, ch).client)
  {
    var r := cl.pc.request;
    hide RequestSourced, SubmitGoes, FetchResourceTx, FetchCaseTx, MakeCaseTx, CommitFactsTx;
    hide RereadVersionTx, FindDuplicateTx, CheckOwnerTx;
    match cl.pc.submit
    case FindDuplicate => LookupSources(cfg, sh, cl, r, past);
    case CheckOwner(a) => OwnerSources(cfg, sh, cl, r, a, past);
    case FetchResource => FetchSources(cfg, sh, cl, r, past);
    case FetchCase(u) => CaseSources(cfg, sh, cl, r, u, past);
    case MakeCase(u) => MakeCaseSources(cfg, sh, cl, r, u, past);
    case _ => CommitSources(cfg, sh, cl, ch, past);
  }

  lemma LookupSources(cfg: Config, sh: Shared, cl: Client, r: Request, past: set<Shared>)
    ensures SubmitGoes(cfg, past, cl, r, FindDuplicateTx(cfg, sh, cl, r).client)
  {
    hide SameRequest, FindByKey, WasBacked, WasCaseOf;
  }

  lemma OwnerSources(cfg: Config, sh: Shared, cl: Client, r: Request, a: Snapshot, past: set<Shared>)
    ensures SubmitGoes(cfg, past, cl, r, CheckOwnerTx(cfg, sh, cl, r, a).client)
  {
    hide WasBacked, WasCaseOf;
  }

  lemma AuthorizeSources(cfg: Config, sh: Shared, cl: Client, ch: Choice, past: set<Shared>, r: Request)
    requires cl.pc.InAuthorize? && CommandSourced(cfg, past, r, cl.pc.command)
    ensures SubmitGoes(cfg, past, cl, r, StepAuthorize(cfg, sh, cl, ch).client)
  {
    hide FindByKey, SpecificationMet, FactAgrees, InsertAction, WasBacked, WasCaseOf;
  }

  /** Every other program stays out of submit, except a confirm whose checks have passed. */
  lemma OtherSources(cfg: Config, sh: Shared, cl: Client, ch: Choice, past: set<Shared>, program: Program)
    requires !cl.pc.InSubmit? && !cl.pc.InAuthorize? && Guarded(cfg, past, program, cl)
    ensures Sourced(cfg, past, program, ClientStep(cfg, sh, cl, ch).client)
  {
    hide StepSubmit, StepAuthorize, StepAction, StepBridge, StepWorker, Guarded, RequestSourced, CommandSourced, Origin;
    match cl.pc
    case InAction(_, _) => ActionExits(cfg, sh, cl, ch);
    case InBridge(_, _) => BridgeSources(cfg, sh, cl, ch, past, program);
    case InWorker(_) => WorkerElsewhere(cfg, sh, cl, ch);
    case Done =>
  }

  lemma BridgeSources(cfg: Config, sh: Shared, cl: Client, ch: Choice, past: set<Shared>, program: Program)
    requires cl.pc.InBridge? && Guarded(cfg, past, program, cl)
    ensures Sourced(cfg, past, program, StepBridge(cfg, sh, cl, ch).client)
  {
    hide FindByKey, Owns, ResourceUnchanged, BindingUnchanged, EvidenceGiven, RequestFor;
    hide WasConfirmable, WasSubstantiated, Attributable, FromCancel, CommandSourced;
  }

  lemma WorkerElsewhere(cfg: Config, sh: Shared, cl: Client, ch: Choice)
    requires cl.pc.InWorker?
    ensures var pc := StepWorker(cfg, sh, cl, ch).client.pc; !pc.InSubmit? && !pc.InAuthorize?
  {
    hide DueBatch, LeaseRows, ReadRows, Reordered, SettleRow;
  }

  lemma StepSources(cfg: Config, sh: Shared, cl: Client, ch: Choice, past: set<Shared>, program: Program)
    requires sh in past && ClientStep(cfg, sh, cl, ch).shared in past
    requires Sourced(cfg, past, program, cl) && Guarded(cfg, past, program, cl)
    ensures Sourced(cfg, past, program, ClientStep(cfg, sh, cl, ch).client)
  {
    if cl.pc.InSubmit? {
      hide StepSubmit, StepAuthorize, StepAction, StepBridge, StepWorker;
      hide RequestSourced, CommandSourced, Origin, Guarded;
      SubmitSources(cfg, sh, cl, ch, past);
    } else if cl.pc.InAuthorize? {
      hide StepSubmit, StepAuthorize, StepAction, StepBridge, StepWorker;
      hide RequestSourced, CommandSourced, Origin, Guarded;
      AuthorizeSources(cfg, sh, cl, ch, past, Origin(cfg, program, cl.frame).value);
    } else {
      hide Sourced, Guarded, ClientStep;
      OtherSources(cfg, sh, cl, ch, past, program);
    }
  }

  // ---- Whole runs ----

  ghost predicate CallSourced(past: set<Shared>, w: World, c: nat, program: Program) {
    CallGuarded(past, w, c, program) && Sourced(w.cfg, past, program, w.clients[c])
  }

  lemma MoreSources(cfg: Config, past: set<Shared>, more: set<Shared>, program: Program, cl: Client)
    requires Sourced(cfg, past, program, cl) && past <= more
    ensures Sourced(cfg, more, program, cl)
  {
    hide Backs, CaseFits, Origin;
  }

  lemma StartSourced(cfg: Config, past: set<Shared>, t: Tables, program: Program)
    ensures Sourced(cfg, past, program, Start(t, program))
  {
    hide WasBacked, WasCaseOf;
  }

  lemma MoveSources(past: set<Shared>, w: World, m: Move, c: nat, program: Program)
    requires CallSourced(past, w, c, program) && m != Crash(c)
    ensures CallSourced(past + {Apply(w, m).shared}, Apply(w, m), c, program)
  {
    hide Sourced, Guarded, ClientStep, Environment, Start;
    var more, w', cl := past + {Apply(w, m).shared}, Apply(w, m), w.clients[c];
    MoveGuards(past, w, m, c, program);
    MoreSources(w.cfg, past, more, program, cl);
    MoreHistory(w.cfg, past, more, program, cl);
    if m.Step? && m.client == c { StepSources(w.cfg, w.shared, cl, m.choice, more, program); }
  }

  lemma {:induction false} RunSources(past: set<Shared>, w: World, moves: seq<Move>, c: nat, program: Program)
    requires CallSourced(past, w, c, program) && Spared(moves, c)
    ensures CallSourced(past + Past(w, moves), Run(w, moves), c, program)
    decreases |moves|
  {
    hide Sourced, Guarded, Apply;
    if moves == [] {
      assert past + Past(w, moves) == past;
    } else {
      var w1 := Apply(w, moves[0]);
      MoveSources(past, w, moves[0], c, program);
      RunSources(past + {w1.shared}, w1, moves[1..], c, program);
      PastHead(w1, moves[1..]);
      assert past + {w1.shared} + Past(w1, moves[1..]) == past + Past(w, moves);
    }
  }

  lemma CallSources(w: World, before: seq<Move>, c: nat, program: Program, moves: seq<Move>)
    requires Initial(w) && c !in Run(w, before).clients && Spared(moves, c)
    ensures var start := Called(w, before, c, program);
            CallSourced(Past(start, moves), Run(start, moves), c, program)
  {
    hide Initial, Run, Past, Inv, Evolves, Start, Sourced, Guarded, Kept;
    CallRuns(w, before, c, program, []);
    var start := Called(w, before, c, program);
    var here := {start.shared};
    StartGuarded(start.cfg, here, start.shared.tables, program);
    StartSourced(start.cfg, here, start.shared.tables, program);
    RunSources(here, start, moves, c, program);
    PastHead(start, moves);
    assert here + Past(start, moves) == Past(start, moves);
  }

  /** The command is the request's, word for word, apart from the references and stamps the service adds. */
  predicate Repeats(c: Command, r: Request) {
    && c.action == r.action && c.caseId == r.caseId && c.key == r.key && c.params == r.params
    && c.policyPackageId == r.policyPackageId && c.actorId == r.actorId
    && c.consentRef == r.consentRef && c.approvalRef == r.approvalRef
  }

  /**
    An action about to be inserted repeats the call's own request, and since the call began
    the request's own resource agreed field by field with every authoritative parameter and,
    where the catalog binds a customer, named the customer of the action's case, which runs
    the procedure version of the request.
   */
  lemma InsertedActionWasBacked(w: World, before: seq<Move>, c: nat, program: Program, moves: seq<Move>)
    requires Initial(w) && c !in Run(w, before).clients && Spared(moves, c)
    requires var end := Run(Called(w, before, c, program), moves); c in end.clients && Inserting(end.clients[c].pc)
    ensures var start := Called(w, before, c, program);
            var end := Run(start, moves);
            var origin, command := Origin(w.cfg, program, end.clients[c].frame), end.clients[c].pc.command;
            && origin.Some? && Repeats(command, origin.value)
            && command.action in w.cfg.specs && command.caseId in end.shared.tables.cases
            && end.shared.tables.cases[command.caseId].procedureVersion == origin.value.procedureVersion
            && HasMatched(w.cfg.specs[command.action], Past(start, moves), origin.value, command.params,
                          end.shared.tables.cases[command.caseId].customerId)
  {
    hide Initial, Run, Past, Inv, Guarded, Origin, WasBacked, HasMatched, WasCaseOf, Evolves, Called;
    CallRuns(w, before, c, program, moves);
    CallSources(w, before, c, program, moves);
    var start := Called(w, before, c, program);
    var r := Origin(w.cfg, program, Run(start, moves).clients[c].frame).value;
    CustomerStays(start, moves, r);
    WasBackedMatches(w.cfg.specs[r.action], Past(start, moves), r);
  }

  lemma CustomerStays(w: World, moves: seq<Move>, r: Request)
    requires Inv(w) && WasCaseOf(Past(w, moves), r)
    ensures CaseFits(Run(w, moves).shared.tables, r)
  {
    hide Inv, Run, Past;
    var sh :| sh in Past(w, moves) && CaseFits(sh.tables, r);
    PastEvolves(w, moves, sh);
  }
}

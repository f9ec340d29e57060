/**
  Every step of every program keeps the invariant: the shared part, its own client's
  part and, by stability, everybody else's.
 */
module ProtocolSteps {
  import opened Domain
  import opened CoreTables
  import opened Provider
  import opened Protocol
  import opened ProtocolInvariant
  import opened ProtocolTransactions

  /** A claim is kept, dropped, or taken on an action that was still AUTHORIZED. */
  ghost predicate ClaimStep(sh: Shared, pc: Pc, pc': Pc) {
    || Owner(pc').None?
    || Owner(pc') == Owner(pc)
    || (pc.InAction? && Owner(pc') == Some(pc.action.id)
        && pc.action.id in sh.tables.actions && sh.tables.actions[pc.action.id].status == Authorized)
  }

  ghost predicate StepOk(cfg: Config, sh: Shared, pc: Pc, out: Outcome) {
    Good(cfg, sh, pc, out.shared) && ClientOk(cfg, out.shared, out.client) && ClaimStep(sh, pc, out.client.pc)
  }

  // ---- Leaving a call ----

  lemma RaiseOk(cfg: Config, sh: Shared, cl: Client)
    requires SharedOk(cfg, sh) && FrameOk(sh.tables, cl)
    ensures StepOk(cfg, sh, cl.pc, Outcome(sh, Raise(cfg, sh, cl.frame)))
  {
    hide SharedOk, Good;
    StutterGood(cfg, sh, cl.pc);
  }

  lemma FinishOk(cfg: Config, sh: Shared, pc: Pc, sh': Shared)
    requires Good(cfg, sh, pc, sh')
    ensures StepOk(cfg, sh, pc, Outcome(sh', FINISHED))
  {
    hide Good;
  }

  lemma ReturnOk(cfg: Config, sh: Shared, cl: Client, sh': Shared)
    requires Good(cfg, sh, cl.pc, sh') && FrameOk(sh.tables, cl) && cl.pc.InAction?
    requires SnapOk(sh'.tables, cl.pc.action) && sh'.tables.actions[cl.pc.action.id].status != Authorized
    ensures StepOk(cfg, sh, cl.pc, Outcome(sh', Return(cl.frame, cl.pc.action.id)))
  {
    hide Good, Carries, ClaimOk, ClaimsOk;
    FrameLater(cfg, sh, cl, sh');
  }

  lemma FrameLater(cfg: Config, sh: Shared, cl: Client, sh': Shared)
    requires Good(cfg, sh, cl.pc, sh') && FrameOk(sh.tables, cl)
    ensures FrameOk(sh'.tables, cl)
  {
    hide SharedOk, Attributed, Evolves, FrameOk;
    FrameStable(sh, sh', cl);
  }

  /** A step that only reads moves on to a program counter whose assumptions hold already. */
  lemma ReadOk(cfg: Config, sh: Shared, cl: Client, cl': Client)
    requires SharedOk(cfg, sh) && ClientOk(cfg, sh, cl') && ClaimStep(sh, cl.pc, cl'.pc)
    ensures StepOk(cfg, sh, cl.pc, Outcome(sh, cl'))
  {
    hide SharedOk, ClientOk, Good, ClaimStep;
    StutterGood(cfg, sh, cl.pc);
  }

  /** The rest of the call waits for the same action while its stages go by. */
  lemma StageMove(cfg: Config, sh: Shared, cl: Client, sh': Shared, a: Snapshot, stage: Stage)
    requires Good(cfg, sh, cl.pc, sh') && cl.pc.InAction? && FrameOk(sh.tables, cl) && StageOk(sh', a, stage)
    requires a.id == cl.pc.action.id && a.command == cl.pc.action.command
    requires Holds(stage) ==> Holds(cl.pc.stage)
                              || (a.id in sh.tables.actions && sh.tables.actions[a.id].status == Authorized)
    ensures StepOk(cfg, sh, cl.pc, Outcome(sh', cl.(pc := InAction(a, stage))))
  {
    hide Good, Carries, ClaimOk, ClaimsOk, StageOk;
    FrameLater(cfg, sh, cl, sh');
  }

  // ---- submit ----

  lemma FindDuplicateOk(cfg: Config, sh: Shared, cl: Client, r: Request)
    requires SharedOk(cfg, sh) && ClientOk(cfg, sh, cl) && cl.pc == InSubmit(r, FindDuplicate)
    ensures StepOk(cfg, sh, cl.pc, FindDuplicateTx(cfg, sh, cl, r))
  {
    hide SharedOk, StepOk, Good, FindByKey, SameRequest, SnapOk, FrameOk, Raise;
    FoundByKey(cfg, sh, r.key);
    match FindByKey(sh.tables, r.key)
    case None => SubmitMove(cfg, sh, cl, r, FetchResource);
    case Some(a) =>
      if SameRequest(r, a.command) { SubmitMove(cfg, sh, cl, r, CheckOwner(a)); }
      else { RaiseOk(cfg, sh, cl); }
  }

  /** A lookup by key returns the stored action that carries the key. */
  lemma FoundByKey(cfg: Config, sh: Shared, key: Name)
    requires SharedOk(cfg, sh)
    ensures FindByKey(sh.tables, key).Some? ==>
              var a := FindByKey(sh.tables, key).value; SnapOk(sh.tables, a) && a.command.key == key
    ensures FindByKey(sh.tables, key).None? <==> key !in sh.tables.keyIndex
  {
    hide LogsLegal, OutboxOk, ProposalsOk, VersionsOk, LedgerOk, CallsOk;
  }

  lemma CheckOwnerOk(cfg: Config, sh: Shared, cl: Client, r: Request, a: Snapshot)
    requires SharedOk(cfg, sh) && ClientOk(cfg, sh, cl) && cl.pc == InSubmit(r, CheckOwner(a))
    ensures StepOk(cfg, sh, cl.pc, CheckOwnerTx(cfg, sh, cl, r, a))
  {
    hide SharedOk, StepOk, Good, ParamsMatch, SnapOk, ClaimOk, ClaimsOk, Raise;
    if a.command.caseId in sh.tables.cases && sh.tables.cases[a.command.caseId].customerId == r.customerId {
      ReadOk(cfg, sh, cl, cl.(pc := InAction(a, Entry)));
    } else {
      RaiseOk(cfg, sh, cl);
    }
  }

  /** submit may move on to any program counter whose assumptions already hold. */
  lemma SubmitMove(cfg: Config, sh: Shared, cl: Client, r: Request, pc: SubmitPc)
    requires SharedOk(cfg, sh) && cl.pc.InSubmit? && cl.pc.request == r && FrameOk(sh.tables, cl)
    requires SubmitOk(sh.tables, r, pc)
    ensures StepOk(cfg, sh, cl.pc, Go(sh, cl, InSubmit(r, pc)))
  {
    hide SharedOk, StepOk, Good, SubmitOk, ClaimOk, ClaimsOk, Carries;
    ReadOk(cfg, sh, cl, cl.(pc := InSubmit(r, pc)));
  }

  lemma FetchResourceOk(cfg: Config, sh: Shared, cl: Client, r: Request)
    requires SharedOk(cfg, sh) && ClientOk(cfg, sh, cl) && cl.pc == InSubmit(r, FetchResource)
    ensures StepOk(cfg, sh, cl.pc, FetchResourceTx(cfg, sh, cl, r))
  {
    hide SharedOk, StepOk, Good, FrameOk, UpstreamAgrees, Normalize, Raise;
    var out := FetchResourceTx(cfg, sh, cl, r);
    if out == Raised(cfg, sh, cl) { RaiseOk(cfg, sh, cl); } else { SubmitMove(cfg, sh, cl, r, out.client.pc.submit); }
  }

  lemma FetchCaseOk(cfg: Config, sh: Shared, cl: Client, r: Request, upstream: Params)
    requires SharedOk(cfg, sh) && ClientOk(cfg, sh, cl) && cl.pc == InSubmit(r, FetchCase(upstream))
    ensures StepOk(cfg, sh, cl.pc, FetchCaseTx(cfg, sh, cl, r, upstream))
  {
    hide SharedOk, StepOk, Good, FrameOk, Raise, Authoritative;
    var out := FetchCaseTx(cfg, sh, cl, r, upstream);
    if out == Raised(cfg, sh, cl) { RaiseOk(cfg, sh, cl); } else { SubmitMove(cfg, sh, cl, r, out.client.pc.submit); }
  }

  lemma RereadVersionOk(cfg: Config, sh: Shared, cl: Client, r: Request, upstream: Params, todo: set<Name>, g: Grounds)
    requires SharedOk(cfg, sh) && ClientOk(cfg, sh, cl) && cl.pc == InSubmit(r, RereadVersion(upstream, todo, g))
    ensures StepOk(cfg, sh, cl.pc, RereadVersionTx(cfg, sh, cl, r, upstream, todo, g))
  {
    hide SharedOk, StepOk, Good, FrameOk, Raise;
    SubmitMove(cfg, sh, cl, r, CommitFacts(upstream, todo, g, sh.tables.cases[r.caseId].version));
  }

  lemma MakeCaseOk(cfg: Config, sh: Shared, cl: Client, r: Request, upstream: Params)
    requires SharedOk(cfg, sh) && ClientOk(cfg, sh, cl) && cl.pc == InSubmit(r, MakeCase(upstream))
    ensures StepOk(cfg, sh, cl.pc, MakeCaseTx(cfg, sh, cl, r, upstream))
  {
    hide SharedOk, Good, Raise, ClaimOk, ClaimsOk, Carries, Authoritative;
    match CreateCase(sh.tables, r.caseId, r.customerId, r.procedureId, r.procedureVersion)
    case None => RaiseOk(cfg, sh, cl);
    case Some(t') =>
      CreateCaseGood(cfg, sh, cl.pc, r.caseId, r.customerId, r.procedureId, r.procedureVersion);
      FrameLater(cfg, sh, cl, sh.(tables := t'));
  }

  lemma CommitFactsOk(cfg: Config, sh: Shared, cl: Client, ch: Choice, r: Request, upstream: Params, todo: set<Name>,
                      g: Grounds, version: int)
    requires SharedOk(cfg, sh) && ClientOk(cfg, sh, cl) && cl.pc == InSubmit(r, CommitFacts(upstream, todo, g, version))
    ensures StepOk(cfg, sh, cl.pc, CommitFactsTx(cfg, sh, cl, ch, r, upstream, todo, g, version))
  {
    hide SharedOk, StepOk, Good, FrameOk, BuildCommand, UpstreamFact, Raise;
    if todo == {} {
      CommandBuilt(cfg, sh, cl, r, upstream, todo, g, version);
    } else if ch.pick !in todo {
      SubmitMove(cfg, sh, cl, r, cl.pc.submit);
    } else if AppendFact(sh.tables, r.caseId, FactName(r.action, ch.pick), UpstreamFact(upstream, ch.pick),
                         version).Some? {
      FactCommitted(cfg, sh, cl, r, upstream, todo, g, version, ch.pick);
    } else {
      RaiseOk(cfg, sh, cl);
    }
  }

  lemma FactCommitted(cfg: Config, sh: Shared, cl: Client, r: Request, upstream: Params, todo: set<Name>, g: Grounds,
                      version: int, name: Name)
    requires SharedOk(cfg, sh) && ClientOk(cfg, sh, cl) && cl.pc == InSubmit(r, CommitFacts(upstream, todo, g, version))
    requires AppendFact(sh.tables, r.caseId, FactName(r.action, name), UpstreamFact(upstream, name), version).Some?
    ensures var t' := AppendFact(sh.tables, r.caseId, FactName(r.action, name), UpstreamFact(upstream, name),
                                 version).value;
            var next := RereadVersion(upstream, todo - {name}, AddGround(g, r.action, name));
            StepOk(cfg, sh, cl.pc, Go(sh.(tables := t'), cl, InSubmit(r, next)))
  {
    hide SharedOk, Good, ClaimOk, ClaimsOk, Carries, UpstreamFact;
    var t' := AppendFact(sh.tables, r.caseId, FactName(r.action, name), UpstreamFact(upstream, name), version).value;
    AppendFactGood(cfg, sh, cl.pc, r.caseId, FactName(r.action, name), UpstreamFact(upstream, name), version);
    FrameLater(cfg, sh, cl, sh.(tables := t'));
  }

  /** The command submit builds demands VERIFIED facts and carries the confirmed offer. */
  lemma CommandBuilt(cfg: Config, sh: Shared, cl: Client, r: Request, upstream: Params, todo: set<Name>, g: Grounds,
                     version: int)
    requires SharedOk(cfg, sh) && ClientOk(cfg, sh, cl) && cl.pc == InSubmit(r, CommitFacts(upstream, todo, g, version))
    ensures var c := BuildCommand(r, g);
            StepOk(cfg, sh, cl.pc, Go(sh, cl, InAuthorize(c, version, Stamp)))
  {
    hide SharedOk, StepOk, Good, ClaimOk, ClaimsOk, Authoritative;
    var c := BuildCommand(r, g);
    ReadOk(cfg, sh, cl, cl.(pc := InAuthorize(c, version, Stamp)));
  }

  lemma SubmitStep(cfg: Config, sh: Shared, cl: Client, ch: Choice)
    requires SharedOk(cfg, sh) && ClientOk(cfg, sh, cl) && cl.pc.InSubmit?
    ensures StepOk(cfg, sh, cl.pc, StepSubmit(cfg, sh, cl, ch))
  {
    hide SharedOk, ClientOk, StepOk, FindDuplicateTx, CheckOwnerTx, FetchResourceTx, FetchCaseTx, MakeCaseTx;
    hide CommitFactsTx, RereadVersionTx;
    var r := cl.pc.request;
    match cl.pc.submit
    case FindDuplicate => FindDuplicateOk(cfg, sh, cl, r);
    case CheckOwner(a) => CheckOwnerOk(cfg, sh, cl, r, a);
    case FetchResource => FetchResourceOk(cfg, sh, cl, r);
    case FetchCase(u) => FetchCaseOk(cfg, sh, cl, r, u);
    case MakeCase(u) => MakeCaseOk(cfg, sh, cl, r, u);
    case CommitFacts(u, todo, g, v) => CommitFactsOk(cfg, sh, cl, ch, r, u, todo, g, v);
    case RereadVersion(u, todo, g) => RereadVersionOk(cfg, sh, cl, r, u, todo, g);
  }

  // ---- authorize ----

  /** authorize keeps the command's identity while it checks it. */
  lemma AuthorizeMove(cfg: Config, sh: Shared, cl: Client, c: Command, v: int, pc: AuthorizePc)
    requires SharedOk(cfg, sh) && cl.pc.InAuthorize? && FrameOk(sh.tables, cl)
    requires c == cl.pc.command.(binding := c.binding, activationSignature := c.activationSignature)
    requires AuthorizeOk(cfg, sh.tables, c, v, pc)
    ensures StepOk(cfg, sh, cl.pc, Go(sh, cl, InAuthorize(c, v, pc)))
  {
    hide SharedOk, StepOk, Good, AuthorizeOk, ClaimOk, ClaimsOk, ParamsMatch;
    ReadOk(cfg, sh, cl, cl.(pc := InAuthorize(c, v, pc)));
  }

  lemma StampOk(cfg: Config, sh: Shared, cl: Client, ch: Choice, c: Command, v: int)
    requires SharedOk(cfg, sh) && ClientOk(cfg, sh, cl) && cl.pc == InAuthorize(c, v, Stamp)
    ensures StepOk(cfg, sh, cl.pc, StampTx(cfg, sh, cl, ch, c, v))
  {
    hide SharedOk, StepOk, Good, FrameOk, Raise;
    var out := StampTx(cfg, sh, cl, ch, c, v);
    if out == Raised(cfg, sh, cl) {
      RaiseOk(cfg, sh, cl);
    } else {
      AuthorizeMove(cfg, sh, cl, out.client.pc.command, v, FindKey);
    }
  }

  lemma FindKeyOk(cfg: Config, sh: Shared, cl: Client, c: Command, v: int)
    requires SharedOk(cfg, sh) && ClientOk(cfg, sh, cl) && cl.pc == InAuthorize(c, v, FindKey)
    ensures StepOk(cfg, sh, cl.pc, FindKeyTx(cfg, sh, cl, c, v))
  {
    hide SharedOk, StepOk, Good, FindByKey, SnapOk, FrameOk, FactAgrees, SpecificationMet, Raise;
    FoundByKey(cfg, sh, c.key);
    match FindByKey(sh.tables, c.key)
    case Some(a) => if a.command == c { KeyTaken(cfg, sh, cl, a, v); } else { RaiseOk(cfg, sh, cl); }
    case None =>
      if c.action in cfg.specs && SpecificationMet(cfg.specs[c.action], c) {
        ChecksBegin(cfg, sh, cl, c, v);
      } else {
        RaiseOk(cfg, sh, cl);
      }
  }

  lemma KeyTaken(cfg: Config, sh: Shared, cl: Client, a: Snapshot, v: int)
    requires SharedOk(cfg, sh) && ClientOk(cfg, sh, cl) && cl.pc == InAuthorize(a.command, v, FindKey)
    requires SnapOk(sh.tables, a)
    ensures StepOk(cfg, sh, cl.pc, Go(sh, cl, InAction(a, Entry)))
  {
    hide SharedOk, StepOk, Good, SnapOk, AuthorizeOk, Carries, ClaimOk, ClaimsOk;
    ReadOk(cfg, sh, cl, cl.(pc := InAction(a, Entry)));
  }

  lemma ChecksBegin(cfg: Config, sh: Shared, cl: Client, c: Command, v: int)
    requires SharedOk(cfg, sh) && ClientOk(cfg, sh, cl) && cl.pc == InAuthorize(c, v, FindKey)
    requires c.action in cfg.specs && SpecificationMet(cfg.specs[c.action], c)
    ensures StepOk(cfg, sh, cl.pc, Go(sh, cl, InAuthorize(c, v, CheckFacts(c.factRefs.Keys))))
  {
    hide SharedOk, StepOk, Good, FrameOk, FactAgrees;
    AuthorizeMove(cfg, sh, cl, c, v, CheckFacts(c.factRefs.Keys));
  }

  lemma CheckFactsOk(cfg: Config, sh: Shared, cl: Client, ch: Choice, c: Command, v: int, todo: set<Name>)
    requires SharedOk(cfg, sh) && ClientOk(cfg, sh, cl) && cl.pc == InAuthorize(c, v, CheckFacts(todo))
    ensures StepOk(cfg, sh, cl.pc, CheckFactsTx(cfg, sh, cl, ch, c, v, todo))
  {
    hide SharedOk, StepOk, Good, FrameOk, FactAgrees, Raise;
    if todo == {} {
      AuthorizeMove(cfg, sh, cl, c, v, Insert);
    } else if ch.pick !in todo {
      AuthorizeMove(cfg, sh, cl, c, v, CheckFacts(todo));
    } else if FactAgrees(sh.tables, c, ch.pick) {
      AuthorizeMove(cfg, sh, cl, c, v, CheckFacts(todo - {ch.pick}));
    } else {
      RaiseOk(cfg, sh, cl);
    }
  }

  lemma InsertOk(cfg: Config, sh: Shared, cl: Client, ch: Choice, c: Command, v: int)
    requires SharedOk(cfg, sh) && ClientOk(cfg, sh, cl) && cl.pc == InAuthorize(c, v, Insert)
    ensures StepOk(cfg, sh, cl.pc, InsertTx(cfg, sh, cl, ch, c, v))
  {
    match InsertAction(sh.tables, ch.id, ch.outboxId, c, v, sh.now)
    case None =>
      hide SharedOk, Good, StepOk, FrameOk, AuthorizeOk, Raise;
      RaiseOk(cfg, sh, cl);
    case Some(t') =>
      hide SharedOk, Good, Carries, ClaimOk, ClaimsOk, AuthorizeOk, Raise;
      InsertGood(cfg, sh, cl.pc, ch.id, ch.outboxId, c, v);
      FrameLater(cfg, sh, cl, sh.(tables := t'));
      assert SnapOk(t', Snapshot(ch.id, c, Authorized));
      hide InsertAction, SnapOk;
  }

  lemma AuthorizeStep(cfg: Config, sh: Shared, cl: Client, ch: Choice)
    requires SharedOk(cfg, sh) && ClientOk(cfg, sh, cl) && cl.pc.InAuthorize?
    ensures StepOk(cfg, sh, cl.pc, StepAuthorize(cfg, sh, cl, ch))
  {
    hide SharedOk, ClientOk, StepOk, StampTx, FindKeyTx, CheckFactsTx, InsertTx;
    var c, v := cl.pc.command, cl.pc.version;
    match cl.pc.authorize
    case Stamp => StampOk(cfg, sh, cl, ch, c, v);
    case FindKey => FindKeyOk(cfg, sh, cl, c, v);
    case CheckFacts(todo) => CheckFactsOk(cfg, sh, cl, ch, c, v, todo);
    case Insert => InsertOk(cfg, sh, cl, ch, c, v);
  }

  // ---- dispatch, record_outcome and reconcile ----

  lemma EntryOk(cfg: Config, sh: Shared, cl: Client, ch: Choice, a: Snapshot)
    requires SharedOk(cfg, sh) && ClientOk(cfg, sh, cl) && cl.pc == InAction(a, Entry)
    ensures StepOk(cfg, sh, cl.pc, EntryTx(cfg, sh, cl, ch, a))
  {
    hide SharedOk, Good, StepOk, FrameOk, Raise, Return, PolicyAllows;
    StutterGood(cfg, sh, cl.pc);
    if a.status != Authorized {
      ReturnOk(cfg, sh, cl, sh);
    } else if ch.raises || (cfg.governed && !PolicyAllows(sh.policy, a.command)) {
      RaiseOk(cfg, sh, cl);
    } else {
      StageMove(cfg, sh, cl, sh, a, Claim);
    }
  }

  lemma ClaimTxOk(cfg: Config, sh: Shared, cl: Client, a: Snapshot)
    requires SharedOk(cfg, sh) && ClientOk(cfg, sh, cl) && cl.pc == InAction(a, Claim)
    ensures StepOk(cfg, sh, cl.pc, ClaimTx(cfg, sh, cl, a))
  {
    hide SharedOk, Good, StepOk, FrameOk, Raise, Return;
    if sh.tables.actions[a.id].status == Authorized {
      FreshKey(cfg, sh, a.id);
      StatusGood(cfg, sh, cl.pc, a.id, Dispatched);
      StageMove(cfg, sh, cl, sh.(tables := SetStatus(sh.tables, a.id, Dispatched)), a, ProviderLookup);
    } else {
      StutterGood(cfg, sh, cl.pc);
      ReturnOk(cfg, sh, cl, sh);
    }
  }

  /** Nothing has been sent to the provider for an action that is still AUTHORIZED. */
  lemma FreshKey(cfg: Config, sh: Shared, id: nat)
    requires SharedOk(cfg, sh) && id in sh.tables.actions && sh.tables.actions[id].status == Authorized
    ensures sh.tables.actions[id].command.key !in sh.ledger.effects
    ensures sh.tables.actions[id].command.key !in sh.calls
  {
    hide LogsLegal, OutboxOk, ProposalsOk, VersionsOk;
  }

  lemma ProviderLookupOk(cfg: Config, sh: Shared, cl: Client, ch: Choice, a: Snapshot)
    requires SharedOk(cfg, sh) && ClientOk(cfg, sh, cl) && cl.pc == InAction(a, ProviderLookup)
    ensures StepOk(cfg, sh, cl.pc, ProviderLookupTx(sh, cl, ch, a))
  {
    hide SharedOk, Good, StepOk, FrameOk;
    var out := ProviderLookupTx(sh, cl, ch, a);
    CallGood(cfg, sh, a);
    StageMove(cfg, sh, cl, out.shared, a, out.client.pc.stage);
  }

  lemma ProviderScenarioOk(cfg: Config, sh: Shared, cl: Client, ch: Choice, a: Snapshot)
    requires SharedOk(cfg, sh) && ClientOk(cfg, sh, cl) && cl.pc == InAction(a, ProviderScenario)
    ensures StepOk(cfg, sh, cl.pc, ProviderScenarioTx(sh, cl, ch, a))
  {
    hide SharedOk, Good, StepOk, FrameOk, ScenarioFor;
    StutterGood(cfg, sh, cl.pc);
    StageMove(cfg, sh, cl, sh, a, ProviderScenarioTx(sh, cl, ch, a).client.pc.stage);
  }

  lemma ProviderReplyOk(cfg: Config, sh: Shared, cl: Client, ch: Choice, a: Snapshot, scenario: Scenario)
    requires SharedOk(cfg, sh) && ClientOk(cfg, sh, cl) && cl.pc == InAction(a, ProviderReply(scenario))
    ensures StepOk(cfg, sh, cl.pc, ProviderReplyTx(sh, cl, ch, a, scenario))
  {
    hide SharedOk, Good, StepOk, FrameOk;
    StutterGood(cfg, sh, cl.pc);
    StageMove(cfg, sh, cl, sh, a, ProviderReplyTx(sh, cl, ch, a, scenario).client.pc.stage);
  }

  lemma ProviderCommitOk(cfg: Config, sh: Shared, cl: Client, ch: Choice, a: Snapshot, scenario: Scenario)
    requires SharedOk(cfg, sh) && ClientOk(cfg, sh, cl) && cl.pc == InAction(a, ProviderCommit(scenario))
    ensures StepOk(cfg, sh, cl.pc, ProviderCommitTx(sh, cl, ch, a, scenario))
  {
    hide SharedOk, Good, StepOk, FrameOk;
    var out := ProviderCommitTx(sh, cl, ch, a, scenario);
    if ch.raises { StutterGood(cfg, sh, cl.pc); } else { EffectGood(cfg, sh, a, scenario); }
    StageMove(cfg, sh, cl, out.shared, a, out.client.pc.stage);
  }

  lemma FaultOk(cfg: Config, sh: Shared, cl: Client, role: Role)
    requires SharedOk(cfg, sh) && FrameOk(sh.tables, cl)
    ensures StepOk(cfg, sh, cl.pc, Outcome(sh, Fault(cfg, sh, cl.frame, role)))
  {
    hide SharedOk, FrameOk, Good, StepOk, Raise;
    StutterGood(cfg, sh, cl.pc);
    if role == Dispatcher { RaiseOk(cfg, sh, cl); } else { FinishOk(cfg, sh, cl.pc, sh); }
  }

  lemma OutcomeReadOk(cfg: Config, sh: Shared, cl: Client, ch: Choice, a: Snapshot, status: ActionStatus, role: Role)
    requires SharedOk(cfg, sh) && ClientOk(cfg, sh, cl) && cl.pc == InAction(a, OutcomeRead(status, role))
    ensures StepOk(cfg, sh, cl.pc, OutcomeReadTx(cfg, sh, cl, ch, a, status, role))
  {
    hide SharedOk, Good, StepOk, FrameOk, Fault;
    if !ch.raises && OutcomeAllowed(sh.tables.actions[a.id].status, status) {
      StutterGood(cfg, sh, cl.pc);
      StageMove(cfg, sh, cl, sh, a, OutcomeWrite(sh.tables.actions[a.id].status, status, role));
    } else {
      FaultOk(cfg, sh, cl, role);
    }
  }

  lemma OutcomeWriteOk(cfg: Config, sh: Shared, cl: Client, a: Snapshot, expected: ActionStatus, status: ActionStatus,
                       role: Role)
    requires SharedOk(cfg, sh) && ClientOk(cfg, sh, cl) && cl.pc == InAction(a, OutcomeWrite(expected, status, role))
    ensures StepOk(cfg, sh, cl.pc, OutcomeWriteTx(cfg, sh, cl, a, expected, status, role))
  {
    hide SharedOk, Good, StepOk, FrameOk, Fault, Return;
    if sh.tables.actions[a.id].status == expected {
      StatusGood(cfg, sh, cl.pc, a.id, status);
      var sh' := sh.(tables := SetStatus(sh.tables, a.id, status));
      match role
      case Dispatcher => ReturnOk(cfg, sh, cl, sh');
      case Marker => StageMove(cfg, sh, cl, sh', a, ReconcileReread);
      case Settler => FinishOk(cfg, sh, cl.pc, sh');
    } else {
      FaultOk(cfg, sh, cl, role);
    }
  }

  lemma ReconcileEntryOk(cfg: Config, sh: Shared, cl: Client, a: Snapshot)
    requires SharedOk(cfg, sh) && ClientOk(cfg, sh, cl) && cl.pc == InAction(a, ReconcileEntry)
    ensures StepOk(cfg, sh, cl.pc, ReconcileEntryTx(sh, cl, a))
  {
    hide SharedOk, Good, StepOk, FrameOk;
    StutterGood(cfg, sh, cl.pc);
    if a.status == Dispatched {
      StageMove(cfg, sh, cl, sh, a, OutcomeRead(Unknown, Marker));
    } else if a.status == Unknown {
      StageMove(cfg, sh, cl, sh, a, ReconcileQuery);
    } else {
      FinishOk(cfg, sh, cl.pc, sh);
    }
  }

  lemma ReconcileRereadOk(cfg: Config, sh: Shared, cl: Client, a: Snapshot)
    requires SharedOk(cfg, sh) && ClientOk(cfg, sh, cl) && cl.pc == InAction(a, ReconcileReread)
    ensures StepOk(cfg, sh, cl.pc, ReconcileRereadTx(sh, cl, a))
  {
    hide SharedOk, Good, StepOk, FrameOk;
    StutterGood(cfg, sh, cl.pc);
    if sh.tables.actions[a.id].status == Unknown {
      StageMove(cfg, sh, cl, sh, SnapshotOf(sh.tables, a.id), ReconcileQuery);
    } else {
      FinishOk(cfg, sh, cl.pc, sh);
    }
  }

  lemma ReconcileQueryOk(cfg: Config, sh: Shared, cl: Client, ch: Choice, a: Snapshot)
    requires SharedOk(cfg, sh) && ClientOk(cfg, sh, cl) && cl.pc == InAction(a, ReconcileQuery)
    ensures StepOk(cfg, sh, cl.pc, ReconcileQueryTx(sh, cl, ch, a))
  {
    hide SharedOk, Good, StepOk, FrameOk;
    StutterGood(cfg, sh, cl.pc);
    if ch.raises {
      FinishOk(cfg, sh, cl.pc, sh);
    } else {
      StageMove(cfg, sh, cl, sh, a, ReconcileQueryTx(sh, cl, ch, a).client.pc.stage);
    }
  }

  lemma ActionStep(cfg: Config, sh: Shared, cl: Client, ch: Choice)
    requires SharedOk(cfg, sh) && ClientOk(cfg, sh, cl) && cl.pc.InAction?
    ensures StepOk(cfg, sh, cl.pc, StepAction(cfg, sh, cl, ch))
  {
    hide SharedOk, ClientOk, StepOk, EntryTx, ClaimTx, ProviderLookupTx, ProviderScenarioTx, ProviderCommitTx;
    hide ProviderReplyTx, OutcomeReadTx, OutcomeWriteTx, ReconcileEntryTx, ReconcileRereadTx, ReconcileQueryTx;
    var a := cl.pc.action;
    match cl.pc.stage
    case Entry => EntryOk(cfg, sh, cl, ch, a);
    case Claim => ClaimTxOk(cfg, sh, cl, a);
    case ProviderLookup => ProviderLookupOk(cfg, sh, cl, ch, a);
    case ProviderScenario => ProviderScenarioOk(cfg, sh, cl, ch, a);
    case ProviderCommit(scenario) => ProviderCommitOk(cfg, sh, cl, ch, a, scenario);
    case ProviderReply(scenario) => ProviderReplyOk(cfg, sh, cl, ch, a, scenario);
    case OutcomeRead(status, role) => OutcomeReadOk(cfg, sh, cl, ch, a, status, role);
    case OutcomeWrite(expected, status, role) => OutcomeWriteOk(cfg, sh, cl, a, expected, status, role);
    case ReconcileEntry => ReconcileEntryOk(cfg, sh, cl, a);
    case ReconcileReread => ReconcileRereadOk(cfg, sh, cl, a);
    case ReconcileQuery => ReconcileQueryOk(cfg, sh, cl, ch, a);
  }

  // ---- bridge ----

  /** A bridge call that only reads moves on within the bridge. */
  lemma BridgeMove(cfg: Config, sh: Shared, cl: Client, p: nat, b: BridgePc)
    requires SharedOk(cfg, sh) && cl.pc.InBridge? && cl.frame.Direct? && BridgeOk(sh.tables, sh.now, p, b)
             && !b.ConfirmWrite?
    ensures StepOk(cfg, sh, cl.pc, Go(sh, cl, InBridge(p, b)))
  {
    hide SharedOk, StepOk, Good, BridgeOk;
    ReadOk(cfg, sh, cl, cl.(pc := InBridge(p, b)));
  }

  lemma ConfirmVerifyOk(cfg: Config, sh: Shared, cl: Client, ch: Choice, p: nat, o: Offer, context: Confirmation)
    requires SharedOk(cfg, sh) && ClientOk(cfg, sh, cl) && cl.pc == InBridge(p, ConfirmVerify(o, context))
    ensures StepOk(cfg, sh, cl.pc, ConfirmVerifyTx(cfg, sh, ch, p, o, context))
  {
    hide SharedOk, StepOk, Good, ResourceUnchanged, BindingUnchanged, EvidenceGiven, Carries;
    StutterGood(cfg, sh, cl.pc);
    var out := ConfirmVerifyTx(cfg, sh, ch, p, o, context);
    if out.client == FINISHED { FinishOk(cfg, sh, cl.pc, sh); } else { ReadOk(cfg, sh, cl, out.client); }
  }

  lemma BridgeReadOk(cfg: Config, sh: Shared, cl: Client, p: nat, context: Confirmation, customer: Name,
                     actor: Option<Name>)
    requires SharedOk(cfg, sh) && cl.pc.InBridge? && cl.frame.Direct?
    ensures StepOk(cfg, sh, cl.pc, ConfirmReadTx(sh, cl, p, context))
    ensures StepOk(cfg, sh, cl.pc, CancelReadTx(sh, cl, p, context))
    ensures StepOk(cfg, sh, cl.pc, StatusReadTx(sh, cl, p, customer, actor))
  {
    hide SharedOk, StepOk, Good, Owns;
    StutterGood(cfg, sh, cl.pc);
    FinishOk(cfg, sh, cl.pc, sh);
    if p in sh.tables.proposals {
      if sh.tables.proposals[p].offer.expiresAt <= sh.now { BridgeMove(cfg, sh, cl, p, ExpireWrite); }
      BridgeMove(cfg, sh, cl, p, ConfirmVerify(sh.tables.proposals[p].offer, context));
      BridgeMove(cfg, sh, cl, p, CancelLookup(sh.tables.proposals[p].offer));
    }
  }

  lemma CancelLookupOk(cfg: Config, sh: Shared, cl: Client, p: nat, o: Offer)
    requires SharedOk(cfg, sh) && ClientOk(cfg, sh, cl) && cl.pc == InBridge(p, CancelLookup(o)) && cl.frame.Direct?
    ensures StepOk(cfg, sh, cl.pc, CancelLookupTx(sh, cl, p, o))
  {
    hide SharedOk, StepOk, Good, FindByKey;
    FoundByKey(cfg, sh, o.key);
    match FindByKey(sh.tables, o.key)
    case Some(a) => BridgeMove(cfg, sh, cl, p, CancelRecover(a.id));
    case None => BridgeMove(cfg, sh, cl, p, CancelWrite);
  }

  lemma ProposalTxOk(cfg: Config, sh: Shared, cl: Client, p: nat, status: ProposalStatus, actionId: Option<nat>)
    requires SharedOk(cfg, sh) && status != Pending
    requires if status == Confirmed then
               p in sh.tables.proposals
               && NamesItsAction(sh.tables.actions, sh.tables.proposals[p].(actionId := actionId))
             else actionId.None?
    ensures StepOk(cfg, sh, cl.pc, ProposalTx(sh, p, status, actionId))
  {
    hide SharedOk, Good, StepOk, NamesItsAction;
    if TransitionProposal(sh.tables, p, Pending, status, actionId).Some? {
      ProposalGood(cfg, sh, cl.pc, p, status, actionId);
    } else {
      StutterGood(cfg, sh, cl.pc);
    }
    FinishOk(cfg, sh, cl.pc, ProposalTx(sh, p, status, actionId).shared);
  }

  lemma BridgeStep(cfg: Config, sh: Shared, cl: Client, ch: Choice)
    requires SharedOk(cfg, sh) && ClientOk(cfg, sh, cl) && cl.pc.InBridge?
    ensures StepOk(cfg, sh, cl.pc, StepBridge(cfg, sh, cl, ch))
  {
    hide SharedOk, StepOk, Good, ConfirmReadTx, ConfirmVerifyTx, CancelReadTx, CancelLookupTx, StatusReadTx, ProposalTx;
    hide ParamsMatch, CaseSeen;
    var p := cl.pc.proposal;
    match cl.pc.bridge
    case ConfirmRead(context) => BridgeReadOk(cfg, sh, cl, p, context, Name(""), None);
    case ConfirmVerify(o, context) => ConfirmVerifyOk(cfg, sh, cl, ch, p, o, context);
    case ConfirmWrite(id) => ProposalTxOk(cfg, sh, cl, p, Confirmed, Some(id));
    case ExpireWrite => ProposalTxOk(cfg, sh, cl, p, Expired, None);
    case CancelRead(context) => BridgeReadOk(cfg, sh, cl, p, context, Name(""), None);
    case CancelLookup(o) => CancelLookupOk(cfg, sh, cl, p, o);
    case CancelRecover(id) => ProposalTxOk(cfg, sh, cl, p, Confirmed, Some(id));
    case CancelWrite => ProposalTxOk(cfg, sh, cl, p, Cancelled, None);
    case StatusRead(customer, actor) =>
      BridgeReadOk(cfg, sh, cl, p, Confirmation(Name(""), Name(""), None, None), customer, actor);
  }

  // ---- delivery worker ----

  lemma WorkerMove(cfg: Config, sh: Shared, cl: Client, sh': Shared, w: WorkerPc)
    requires Good(cfg, sh, cl.pc, sh') && cl.pc.InWorker? && cl.frame.Direct? && WorkerOk(cfg, sh'.tables, w)
    ensures StepOk(cfg, sh, cl.pc, Go(sh', cl, InWorker(w)))
  {
    hide Good, WorkerOk;
  }

  lemma ClaimRowsOk(cfg: Config, sh: Shared, cl: Client, ch: Choice, limit: nat)
    requires SharedOk(cfg, sh) && cl.pc == InWorker(ClaimRows(limit)) && cl.frame.Direct?
    ensures StepOk(cfg, sh, cl.pc, ClaimRowsTx(cfg, sh, cl, ch, limit))
  {
    hide SharedOk, Good, StepOk, Leasing;
    StutterGood(cfg, sh, cl.pc);
    WorkerMove(cfg, sh, cl, sh, cl.pc.worker);
    if DueBatch(sh.tables, sh.now, limit, ch.batch) {
      LeaseGood(cfg, sh, cl.pc, ch.batch, sh.now + cfg.leaseSeconds);
      WorkerMove(cfg, sh, cl, sh.(tables := Leasing(sh, ch.batch, sh.now + cfg.leaseSeconds)), RereadRows(ch.batch));
    }
  }

  lemma {:induction false} ReadRowsOk(t: Tables, ids: seq<nat>)
    ensures ClaimsOk(t, ReadRows(t, ids))
  {
    if ids != [] { ReadRowsOk(t, ids[1..]); }
  }

  lemma RereadRowsOk(cfg: Config, sh: Shared, cl: Client, ch: Choice, ids: seq<nat>)
    requires SharedOk(cfg, sh) && cl.pc == InWorker(RereadRows(ids)) && cl.frame.Direct?
    ensures StepOk(cfg, sh, cl.pc, RereadRowsTx(sh, cl, ch, ids))
  {
    hide SharedOk, StepOk, Good, ClaimsOk, ReadRows, Reordered;
    StutterGood(cfg, sh, cl.pc);
    ReadRowsOk(sh.tables, ch.batch);
    WorkerMove(cfg, sh, cl, sh, Loop(ReadRows(sh.tables, ch.batch)));
    WorkerMove(cfg, sh, cl, sh, cl.pc.worker);
  }

  lemma LoopOk(cfg: Config, sh: Shared, cl: Client, rs: seq<Claimed>)
    requires SharedOk(cfg, sh) && ClientOk(cfg, sh, cl) && cl.pc == InWorker(Loop(rs)) && cl.frame.Direct?
    ensures StepOk(cfg, sh, cl.pc, LoopTx(sh, cl, rs))
  {
    hide SharedOk, StepOk, Good, ClaimsOk, ClaimOk;
    if rs == [] {
      StutterGood(cfg, sh, cl.pc);
      FinishOk(cfg, sh, cl.pc, sh);
    } else {
      LoopHead(cfg, sh, rs);
      DeliverOk(cfg, sh, cl, rs[0], rs[1..]);
    }
  }

  lemma DeliverOk(cfg: Config, sh: Shared, cl: Client, r: Claimed, rest: seq<Claimed>)
    requires SharedOk(cfg, sh) && cl.pc.InWorker? && r.row.actionId in sh.tables.actions
    requires ClaimOk(sh.tables, r) && ClaimsOk(sh.tables, rest)
    ensures StepOk(cfg, sh, cl.pc,
                   Outcome(sh, Client(InAction(SnapshotOf(sh.tables, r.row.actionId), Entry), OnWorker(r, rest))))
  {
    hide SharedOk, Good, StepOk, ClaimOk, ClaimsOk;
    ReadOk(cfg, sh, cl, Client(InAction(SnapshotOf(sh.tables, r.row.actionId), Entry), OnWorker(r, rest)));
  }

  /** The head of a claimed batch is a dispatch row of an action that exists. */
  lemma LoopHead(cfg: Config, sh: Shared, rs: seq<Claimed>)
    requires SharedOk(cfg, sh) && ClaimsOk(sh.tables, rs) && rs != []
    ensures rs[0].row.topic == ActionDispatch && rs[0].row.actionId in sh.tables.actions
    ensures ClaimOk(sh.tables, rs[0]) && ClaimsOk(sh.tables, rs[1..])
  {
    hide KeysOk, LogsLegal, ProposalsOk, VersionsOk, LedgerOk, CallsOk;
    assert ClaimOk(sh.tables, rs[0]);
  }

  lemma CompleteOk(cfg: Config, sh: Shared, cl: Client, r: Claimed, rest: seq<Claimed>)
    requires SharedOk(cfg, sh) && ClientOk(cfg, sh, cl) && cl.pc == InWorker(Complete(r, rest)) && cl.frame.Direct?
    ensures StepOk(cfg, sh, cl.pc, CompleteTx(cfg, sh, cl, r, rest))
  {
    hide SharedOk, Good, StepOk, ClaimsOk;
    SettleGood(cfg, sh, cl.pc, r.id, Delivered, sh.now);
    var sh' := sh.(tables := SettleRow(sh.tables, r.id, Delivered, sh.now).value);
    ClaimsLater(cfg, sh, cl.pc, sh', rest);
    WorkerMove(cfg, sh, cl, sh', Loop(rest));
  }

  lemma FailOk(cfg: Config, sh: Shared, cl: Client, r: Claimed, rest: seq<Claimed>, quarantine: bool,
               retryAt: Option<int>)
    requires SharedOk(cfg, sh) && ClientOk(cfg, sh, cl) && cl.frame.Direct?
    requires cl.pc == InWorker(Fail(r, rest, quarantine, retryAt))
    ensures StepOk(cfg, sh, cl.pc, FailTx(sh, cl, r, rest, quarantine, retryAt))
  {
    hide SharedOk, Good, StepOk, ClaimsOk;
    var status := if quarantine then Quarantined else Retry;
    var at := if retryAt.Some? then retryAt.value else sh.now;
    SettleGood(cfg, sh, cl.pc, r.id, status, at);
    var sh' := sh.(tables := SettleRow(sh.tables, r.id, status, at).value);
    ClaimsLater(cfg, sh, cl.pc, sh', rest);
    WorkerMove(cfg, sh, cl, sh', Loop(rest));
  }

  lemma ClaimsLater(cfg: Config, sh: Shared, pc: Pc, sh': Shared, rs: seq<Claimed>)
    requires Good(cfg, sh, pc, sh') && ClaimsOk(sh.tables, rs)
    ensures ClaimsOk(sh'.tables, rs)
  {
    hide SharedOk, Attributed, TablesEvolve;
    ClaimsStable(sh.tables, sh'.tables, rs);
  }

  lemma WorkerStep(cfg: Config, sh: Shared, cl: Client, ch: Choice)
    requires SharedOk(cfg, sh) && ClientOk(cfg, sh, cl) && cl.pc.InWorker?
    ensures StepOk(cfg, sh, cl.pc, StepWorker(cfg, sh, cl, ch))
  {
    assert cl.frame.Direct?;
    hide SharedOk, ClientOk, StepOk, ClaimRowsTx, RereadRowsTx, LoopTx, CompleteTx, FailTx;
    match cl.pc.worker
    case ClaimRows(limit) => ClaimRowsOk(cfg, sh, cl, ch, limit);
    case RereadRows(ids) => RereadRowsOk(cfg, sh, cl, ch, ids);
    case Loop(rs) => LoopOk(cfg, sh, cl, rs);
    case Complete(r, rest) => CompleteOk(cfg, sh, cl, r, rest);
    case Fail(r, rest, q, at) => FailOk(cfg, sh, cl, r, rest, q, at);
  }

  // ---- any client ----

  lemma ClientStepOk(cfg: Config, sh: Shared, cl: Client, ch: Choice)
    requires SharedOk(cfg, sh) && ClientOk(cfg, sh, cl)
    ensures StepOk(cfg, sh, cl.pc, ClientStep(cfg, sh, cl, ch))
  {
    hide SharedOk, ClientOk, StepOk, StepSubmit, StepAuthorize, StepAction, StepBridge, StepWorker;
    match cl.pc
    case InBridge(_, _) => BridgeStep(cfg, sh, cl, ch);
    case InSubmit(_, _) => SubmitStep(cfg, sh, cl, ch);
    case InAuthorize(_, _, _) => AuthorizeStep(cfg, sh, cl, ch);
    case InAction(_, _) => ActionStep(cfg, sh, cl, ch);
    case InWorker(_) => WorkerStep(cfg, sh, cl, ch);
    case Done => DoneOk(cfg, sh, cl);
  }

  lemma DoneOk(cfg: Config, sh: Shared, cl: Client)
    requires SharedOk(cfg, sh) && ClientOk(cfg, sh, cl) && cl.pc.Done?
    ensures StepOk(cfg, sh, cl.pc, Outcome(sh, cl))
  {
    hide SharedOk, ClientOk, StepOk;
    ReadOk(cfg, sh, cl, cl);
  }
}

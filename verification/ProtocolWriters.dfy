/**
  Which step writes which table.
 */
module ProtocolWriters {
  import opened Domain
  import opened CoreTables
  import opened Provider
  import opened Protocol

  // ---- submit and authorize ----

  /** submit writes cases and facts only. */
  ghost predicate CaseWrite(sh: Shared, sh': Shared) {
    sh' == sh.(tables := sh.tables.(cases := sh'.tables.cases, facts := sh'.tables.facts,
                                    commits := sh'.tables.commits))
  }

  lemma SubmitReads(cfg: Config, sh: Shared, cl: Client, ch: Choice)
    requires cl.pc.InSubmit? && !cl.pc.submit.MakeCase? && !cl.pc.submit.CommitFacts?
    ensures StepSubmit(cfg, sh, cl, ch).shared == sh
  {
    hide MakeCaseTx, CommitFactsTx, SameRequest, FindByKey, UpstreamAgrees, Normalize, Raise, Authoritative;
  }

  lemma SubmitWrites(cfg: Config, sh: Shared, cl: Client, ch: Choice)
    requires cl.pc.InSubmit?
    ensures CaseWrite(sh, StepSubmit(cfg, sh, cl, ch).shared)
  {
    hide FindDuplicateTx, CheckOwnerTx, FetchResourceTx, FetchCaseTx, RereadVersionTx;
    hide Raise, BuildCommand, Authoritative;
    if !cl.pc.submit.MakeCase? && !cl.pc.submit.CommitFacts? { SubmitReads(cfg, sh, cl, ch); }
  }

  lemma AuthorizeWrites(cfg: Config, sh: Shared, cl: Client, ch: Choice)
    requires cl.pc.InAuthorize? && !cl.pc.authorize.Insert?
    ensures StepAuthorize(cfg, sh, cl, ch).shared == sh
  {
    hide FindByKey, SpecificationMet, FactAgrees, Raise;
  }

  // ---- dispatch and reconcile ----

  /** The stages of an action write its status and log, the ledger in one place and the calls in one place. */
  ghost predicate ActionWrite(sh: Shared, a: Snapshot, stage: Stage, sh': Shared) {
    && sh'.tables == sh.tables.(actions := sh'.tables.actions, events := sh'.tables.events)
    && sh'.tables.actions.Keys == sh.tables.actions.Keys
    && sh'.now == sh.now && sh'.bindings == sh.bindings && sh'.policy == sh.policy
    && sh'.calls == (if stage.ProviderLookup? then sh.calls + [a.command.key] else sh.calls)
    && (!stage.ProviderCommit? ==> sh'.ledger == sh.ledger)
  }

  lemma ProviderWrites(sh: Shared, cl: Client, ch: Choice, a: Snapshot, scenario: Scenario)
    ensures ActionWrite(sh, a, ProviderLookup, ProviderLookupTx(sh, cl, ch, a).shared)
    ensures ActionWrite(sh, a, ProviderScenario, ProviderScenarioTx(sh, cl, ch, a).shared)
    ensures ActionWrite(sh, a, ProviderCommit(scenario), ProviderCommitTx(sh, cl, ch, a, scenario).shared)
    ensures ActionWrite(sh, a, ProviderReply(scenario), ProviderReplyTx(sh, cl, ch, a, scenario).shared)
  {
    hide CommitEffect, ScenarioFor;
  }

  lemma SetStatusWrites(sh: Shared, a: Snapshot, id: nat, status: ActionStatus, stage: Stage)
    requires !stage.ProviderLookup?
    ensures ActionWrite(sh, a, stage, sh)
    ensures id in sh.tables.actions ==> ActionWrite(sh, a, stage, sh.(tables := SetStatus(sh.tables, id, status)))
  {
  }

  lemma ClaimWrites(cfg: Config, sh: Shared, cl: Client, a: Snapshot)
    ensures ActionWrite(sh, a, Claim, ClaimTx(cfg, sh, cl, a).shared)
  {
    hide Raise, Return, SetStatus, ActionWrite;
    SetStatusWrites(sh, a, a.id, Dispatched, Claim);
  }

  lemma OutcomeWrites(cfg: Config, sh: Shared, cl: Client, a: Snapshot, expected: ActionStatus, status: ActionStatus,
                      role: Role)
    ensures ActionWrite(sh, a, OutcomeWrite(expected, status, role),
                        OutcomeWriteTx(cfg, sh, cl, a, expected, status, role).shared)
  {
    hide Raise, Return, Fault, SetStatus, ActionWrite;
    SetStatusWrites(sh, a, a.id, status, OutcomeWrite(expected, status, role));
  }

  lemma ActionReads(cfg: Config, sh: Shared, cl: Client, ch: Choice, a: Snapshot, status: ActionStatus, role: Role)
    ensures EntryTx(cfg, sh, cl, ch, a).shared == sh
    ensures OutcomeReadTx(cfg, sh, cl, ch, a, status, role).shared == sh
    ensures ReconcileEntryTx(sh, cl, a).shared == sh
    ensures ReconcileRereadTx(sh, cl, a).shared == sh
    ensures ReconcileQueryTx(sh, cl, ch, a).shared == sh
  {
    hide Raise, Return, Fault, OutcomeAllowed;
  }

  lemma ActionWrites(cfg: Config, sh: Shared, cl: Client, ch: Choice)
    requires cl.pc.InAction?
    ensures ActionWrite(sh, cl.pc.action, cl.pc.stage, StepAction(cfg, sh, cl, ch).shared)
  {
    hide EntryTx, ClaimTx, ProviderLookupTx, ProviderScenarioTx, ProviderCommitTx, ProviderReplyTx, OutcomeReadTx;
    hide OutcomeWriteTx, ReconcileEntryTx, ReconcileRereadTx, ReconcileQueryTx;
    var a := cl.pc.action;
    match cl.pc.stage
    case Claim => ClaimWrites(cfg, sh, cl, a);
    case OutcomeWrite(expected, status, role) => OutcomeWrites(cfg, sh, cl, a, expected, status, role);
    case OutcomeRead(status, role) => ActionReads(cfg, sh, cl, ch, a, status, role);
    case ProviderLookup => ProviderWrites(sh, cl, ch, a, Success);
    case ProviderScenario => ProviderWrites(sh, cl, ch, a, Success);
    case ProviderCommit(scenario) => ProviderWrites(sh, cl, ch, a, scenario);
    case ProviderReply(scenario) => ProviderWrites(sh, cl, ch, a, scenario);
    case _ => ActionReads(cfg, sh, cl, ch, a, Requested, Marker);
  }

  // ---- bridge and worker ----

  predicate BridgeWriter(b: BridgePc) {
    b.ConfirmWrite? || b.ExpireWrite? || b.CancelRecover? || b.CancelWrite?
  }

  lemma BridgeReads(cfg: Config, sh: Shared, cl: Client, ch: Choice)
    requires cl.pc.InBridge? && !BridgeWriter(cl.pc.bridge)
    ensures StepBridge(cfg, sh, cl, ch).shared == sh
  {
    hide FindByKey, Owns, ResourceUnchanged, BindingUnchanged, EvidenceGiven, RequestFor, ProposalTx;
  }

  lemma ProposalWrites(sh: Shared, p: nat, status: ProposalStatus, actionId: Option<nat>)
    ensures var sh' := ProposalTx(sh, p, status, actionId).shared;
            && sh' == sh.(tables := sh.tables.(proposals := sh'.tables.proposals))
            && sh'.tables.proposals.Keys == sh.tables.proposals.Keys
  {
  }

  lemma BridgeWrites(cfg: Config, sh: Shared, cl: Client, ch: Choice)
    requires cl.pc.InBridge?
    ensures var sh' := StepBridge(cfg, sh, cl, ch).shared;
            && sh' == sh.(tables := sh.tables.(proposals := sh'.tables.proposals))
            && sh'.tables.proposals.Keys == sh.tables.proposals.Keys
            && (!BridgeWriter(cl.pc.bridge) ==> sh' == sh)
  {
    hide ConfirmReadTx, ConfirmVerifyTx, CancelReadTx, CancelLookupTx, StatusReadTx, ProposalTx;
    var p := cl.pc.proposal;
    match cl.pc.bridge
    case ConfirmWrite(id) => ProposalWrites(sh, p, Confirmed, Some(id));
    case CancelRecover(id) => ProposalWrites(sh, p, Confirmed, Some(id));
    case ExpireWrite => ProposalWrites(sh, p, Expired, None);
    case CancelWrite => ProposalWrites(sh, p, Cancelled, None);
    case _ => BridgeReads(cfg, sh, cl, ch);
  }

  /** A settlement rewrites one row and leaves its attempts as they are. */
  ghost predicate Settlement(sh: Shared, sh': Shared) {
    && sh' == sh.(tables := sh.tables.(outbox := sh'.tables.outbox))
    && sh'.tables.outbox.Keys == sh.tables.outbox.Keys
    && forall o :: o in sh.tables.outbox ==> sh'.tables.outbox[o].attempts == sh.tables.outbox[o].attempts
  }

  lemma SettleWrites(sh: Shared, id: nat, status: OutboxStatus, at: int)
    ensures SettleRow(sh.tables, id, status, at).Some? ==>
              Settlement(sh, sh.(tables := SettleRow(sh.tables, id, status, at).value))
  {
  }

  lemma CompleteWrites(cfg: Config, sh: Shared, cl: Client, r: Claimed, rest: seq<Claimed>)
    ensures Settlement(sh, CompleteTx(cfg, sh, cl, r, rest).shared)
  {
    hide SettleRow, Raise;
    SettleWrites(sh, r.id, Delivered, sh.now);
  }

  lemma FailWrites(sh: Shared, cl: Client, r: Claimed, rest: seq<Claimed>, quarantine: bool, retryAt: Option<int>)
    ensures Settlement(sh, FailTx(sh, cl, r, rest, quarantine, retryAt).shared)
  {
    hide SettleRow;
    SettleWrites(sh, r.id, if quarantine then Quarantined else Retry, if retryAt.Some? then retryAt.value else sh.now);
  }

  lemma LoopWrites(sh: Shared, cl: Client, records: seq<Claimed>)
    ensures LoopTx(sh, cl, records).shared == sh
  {
  }

  lemma WorkerSettles(cfg: Config, sh: Shared, cl: Client, ch: Choice)
    requires cl.pc.InWorker? && !cl.pc.worker.ClaimRows?
    ensures Settlement(sh, StepWorker(cfg, sh, cl, ch).shared)
  {
    hide LoopTx, CompleteTx, FailTx, ReadRows, ClaimRowsTx, Reordered;
    match cl.pc.worker
    case RereadRows(_) =>
    case Loop(rs) => LoopWrites(sh, cl, rs);
    case Complete(r, rest) => CompleteWrites(cfg, sh, cl, r, rest);
    case Fail(r, rest, q, at) => FailWrites(sh, cl, r, rest, q, at);
  }

  lemma WorkerWrites(cfg: Config, sh: Shared, cl: Client, ch: Choice)
    requires cl.pc.InWorker?
    ensures var sh' := StepWorker(cfg, sh, cl, ch).shared; sh' == sh.(tables := sh.tables.(outbox := sh'.tables.outbox))
  {
    hide DueBatch, LoopTx, CompleteTx, FailTx, RereadRowsTx, LeaseRows;
    if !cl.pc.worker.ClaimRows? { WorkerSettles(cfg, sh, cl, ch); }
  }

  // ---- Any move ----

  predicate Inserting(pc: Pc) {
    pc.InAuthorize? && pc.authorize.Insert?
  }

  predicate AtStage(w: World, m: Move, at: Pc -> bool) {
    m.Step? && m.client in w.clients && at(w.clients[m.client].pc)
  }

  /** Actions are only ever added by the insert transaction of authorize. */
  lemma OnlyInsertAdds(w: World, m: Move)
    ensures Apply(w, m).shared.tables.actions.Keys == w.shared.tables.actions.Keys || AtStage(w, m, Inserting)
  {
    hide StepSubmit, StepAuthorize, StepAction, StepBridge, StepWorker;
    if m.Step? && m.client in w.clients {
      var cfg, sh, cl, ch := w.cfg, w.shared, w.clients[m.client], m.choice;
      match cl.pc
      case InSubmit(_, _) => SubmitWrites(cfg, sh, cl, ch);
      case InAuthorize(_, _, s) => if !s.Insert? { AuthorizeWrites(cfg, sh, cl, ch); }
      case InAction(_, _) => ActionWrites(cfg, sh, cl, ch);
      case InBridge(_, _) => BridgeWrites(cfg, sh, cl, ch);
      case InWorker(_) => WorkerWrites(cfg, sh, cl, ch);
      case Done =>
    }
  }

  lemma OnlyInsertAddsKeys(w: World, m: Move)
    ensures Apply(w, m).shared.tables.keyIndex == w.shared.tables.keyIndex || AtStage(w, m, Inserting)
  {
    hide StepSubmit, StepAuthorize, StepAction, StepBridge, StepWorker;
    if m.Step? && m.client in w.clients {
      var cfg, sh, cl, ch := w.cfg, w.shared, w.clients[m.client], m.choice;
      match cl.pc
      case InSubmit(_, _) => SubmitWrites(cfg, sh, cl, ch);
      case InAuthorize(_, _, s) => if !s.Insert? { AuthorizeWrites(cfg, sh, cl, ch); }
      case InAction(_, _) => ActionWrites(cfg, sh, cl, ch);
      case InBridge(_, _) => BridgeWrites(cfg, sh, cl, ch);
      case InWorker(_) => WorkerWrites(cfg, sh, cl, ch);
      case Done =>
    }
  }

  predicate Calls(pc: Pc) {
    pc.InAction? && pc.stage.ProviderLookup?
  }

  predicate CommitsEffect(pc: Pc) {
    pc.InAction? && pc.stage.ProviderCommit?
  }

  /** `calls` records every invocation of the provider's dispatch, and only those; the ledger has one writer. */
  lemma CallsAreRecorded(w: World, m: Move)
    ensures Apply(w, m).shared.calls ==
            (if AtStage(w, m, Calls) then w.shared.calls + [w.clients[m.client].pc.action.command.key]
             else w.shared.calls)
    ensures Apply(w, m).shared.ledger.effects == w.shared.ledger.effects || AtStage(w, m, CommitsEffect)
  {
    hide StepSubmit, StepAction, StepBridge, StepWorker;
    if m.Step? && m.client in w.clients {
      var cfg, sh, cl, ch := w.cfg, w.shared, w.clients[m.client], m.choice;
      match cl.pc
      case InSubmit(_, _) => SubmitWrites(cfg, sh, cl, ch);
      case InAuthorize(_, _, s) => if s.Insert? {} else { AuthorizeWrites(cfg, sh, cl, ch); }
      case InAction(_, _) => ActionWrites(cfg, sh, cl, ch);
      case InBridge(_, _) => BridgeWrites(cfg, sh, cl, ch);
      case InWorker(_) => WorkerWrites(cfg, sh, cl, ch);
      case Done =>
    }
  }

  predicate WritesProposal(pc: Pc) {
    pc.InBridge? && BridgeWriter(pc.bridge)
  }

  lemma OnlyBridgeWritesProposals(w: World, m: Move)
    ensures Apply(w, m).shared.tables.proposals == w.shared.tables.proposals || m.Propose?
            || AtStage(w, m, WritesProposal)
  {
    hide StepSubmit, StepAction, StepBridge, StepWorker;
    if m.Step? && m.client in w.clients {
      var cfg, sh, cl, ch := w.cfg, w.shared, w.clients[m.client], m.choice;
      match cl.pc
      case InSubmit(_, _) => SubmitWrites(cfg, sh, cl, ch);
      case InAuthorize(_, _, s) => if s.Insert? {} else { AuthorizeWrites(cfg, sh, cl, ch); }
      case InAction(_, _) => ActionWrites(cfg, sh, cl, ch);
      case InBridge(_, _) => BridgeWrites(cfg, sh, cl, ch);
      case InWorker(_) => WorkerWrites(cfg, sh, cl, ch);
      case Done =>
    }
  }
}

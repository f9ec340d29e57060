/**
  What the durable action protocol guarantees, in every state of every run.
 */
module ProtocolTheorems {
  import opened Domain
  import opened CoreTables
  import opened Protocol
  import opened ProtocolInvariant
  import opened ProtocolSafety
  import opened ProtocolWriters

  // ---- The store and the provider agree ----

  predicate Settled(s: ActionStatus) {
    s.Succeeded? || s.Reconciled?
  }

  /** The action an effect belongs to has been claimed and has not failed. */
  ghost predicate Accounted(acts: map<nat, Action>, effect: Command) {
    exists id :: id in acts && acts[id].command == effect && (Settled(acts[id].status) || InDoubt(acts[id].status))
  }

  /**
    A succeeded or reconciled action has its own command in the ledger, a failed one has
    nothing there, and every effect belongs to an action that may have caused it.
   */
  ghost predicate Agreement(acts: map<nat, Action>, effects: map<Name, Command>) {
    && (forall id :: id in acts && Settled(acts[id].status) ==>
         acts[id].command.key in effects && effects[acts[id].command.key] == acts[id].command)
    && (forall id :: id in acts && acts[id].status.Failed? ==> acts[id].command.key !in effects)
    && (forall k :: k in effects ==> effects[k].key == k && Accounted(acts, effects[k]))
  }

  lemma StoresAgree(w: World, moves: seq<Move>)
    requires Initial(w)
    ensures Agreement(Run(w, moves).shared.tables.actions, Run(w, moves).shared.ledger.effects)
  {
    hide Initial, Run, LogsLegal, OutboxOk, ProposalsOk, VersionsOk, CallsOk, ClientsOk, OwnersDistinct;
    ReachableInv(w, moves);
    var sh := Run(w, moves).shared;
    forall k | k in sh.ledger.effects ensures Accounted(sh.tables.actions, sh.ledger.effects[k]) {
      assert sh.tables.keyIndex[k] in sh.tables.actions;
    }
  }

  /** A failed action has no effect at the provider and, whatever happens next, never gets one. */
  lemma FailedNeverTakesEffect(w: World, moves: seq<Move>, later: seq<Move>, id: nat)
    requires Initial(w)
    requires id in Run(w, moves).shared.tables.actions && Run(w, moves).shared.tables.actions[id].status == Failed
    ensures Run(w, moves).shared.tables.actions[id].command.key !in Run(Run(w, moves), later).shared.ledger.effects
  {
    hide Initial, Run, KeysOk, LogsLegal, OutboxOk, ProposalsOk, VersionsOk, CallsOk, ClientsOk, OwnersDistinct;
    ReachableInv(w, moves);
    RunKept(Run(w, moves), later);
  }

  // ---- At most one dispatch ----

  /** The provider's dispatch is invoked at most once per idempotency key. */
  lemma DispatchedAtMostOnce(w: World, moves: seq<Move>, key: Name)
    requires Initial(w)
    ensures multiset(Run(w, moves).shared.calls)[key] <= 1
  {
    hide Initial, Run, KeysOk, LogsLegal, OutboxOk, ProposalsOk, VersionsOk, LedgerOk, ClientsOk, OwnersDistinct;
    ReachableInv(w, moves);
    Once(Run(w, moves).shared.calls, key);
  }

  lemma {:induction false} Once(s: seq<Name>, key: Name)
    requires NoDuplicates(s)
    ensures multiset(s)[key] <= 1
    ensures key !in s ==> multiset(s)[key] == 0
  {
    if s != [] {
      Once(s[1..], key);
      assert s == [s[0]] + s[1..];
    }
  }

  predicate Reconciling(cl: Client) {
    && cl.frame.Direct?
    && (cl.pc.Done? ||
        (cl.pc.InAction? && match cl.pc.stage
         case OutcomeRead(_, role) => role != Dispatcher
         case OutcomeWrite(_, _, role) => role != Dispatcher
         case ReconcileEntry => true
         case ReconcileReread => true
         case ReconcileQuery => true
         case _ => false))
  }

  predicate Spares(m: Move, c: nat) {
    m != Crash(c)
  }

  lemma ReconcilerStaysOne(cfg: Config, sh: Shared, cl: Client, ch: Choice)
    requires Reconciling(cl)
    ensures Reconciling(ClientStep(cfg, sh, cl, ch).client)
  {
    hide OutcomeAllowed, StepSubmit, StepAuthorize, StepBridge, StepWorker;
  }

  lemma {:induction false} ReconcilerRun(w: World, c: nat, moves: seq<Move>)
    requires c in w.clients && Reconciling(w.clients[c]) && forall i :: 0 <= i < |moves| ==> Spares(moves[i], c)
    ensures c in Run(w, moves).clients && Reconciling(Run(w, moves).clients[c])
    decreases |moves|
  {
    hide ClientStep, Environment, Start, Reconciling;
    if moves != [] {
      if moves[0].Step? && moves[0].client == c { ReconcilerStaysOne(w.cfg, w.shared, w.clients[c], moves[0].choice); }
      ReconcilerRun(Apply(w, moves[0]), c, moves[1..]);
    }
  }

  lemma StartsReconciling(t: Tables, id: nat)
    ensures Reconciling(Start(t, Reconcile(id)))
  {
  }

  lemma ReconcilerSpares(cfg: Config, sh: Shared, cl: Client, ch: Choice)
    requires Reconciling(cl)
    ensures var sh' := ClientStep(cfg, sh, cl, ch).shared; sh'.ledger == sh.ledger && sh'.calls == sh.calls
  {
    hide StepSubmit, StepAuthorize, StepAction, StepBridge, StepWorker;
    if cl.pc.InAction? { ActionWrites(cfg, sh, cl, ch); }
  }

  /** Reconciliation only ever queries: no step it takes calls dispatch or changes the provider. */
  lemma ReconcilersOnlyQuery(w: World, c: nat, id: nat, moves: seq<Move>, ch: Choice)
    requires c !in w.clients && forall i :: 0 <= i < |moves| ==> Spares(moves[i], c)
    ensures var w' := Run(Apply(w, Spawn(c, Reconcile(id))), moves);
            Apply(w', Step(c, ch)).shared.ledger == w'.shared.ledger
                && Apply(w', Step(c, ch)).shared.calls == w'.shared.calls
  {
    hide ClientStep, Reconciling, Environment, Run;
    var w' := Run(Apply(w, Spawn(c, Reconcile(id))), moves);
    StartsReconciling(w.shared.tables, id);
    ReconcilerRun(Apply(w, Spawn(c, Reconcile(id))), c, moves);
    ReconcilerSpares(w'.cfg, w'.shared, w'.clients[c], ch);
  }

  // ---- Facts are current when an action is inserted ----

  /** The parameter equals the case's current fact of that name, and that fact is VERIFIED. */
  ghost predicate Backed(t: Tables, c: Command, p: Name) {
    && (c.caseId, FactName(c.action, p)) in t.facts
    && t.facts[(c.caseId, FactName(c.action, p))] == Fact(Get(c.params, p), Verified)
  }

  /** Required parameters are there, and consent and approval wherever the catalog asks for them. */
  predicate Demanded(spec: Specification, c: Command) {
    && (forall p :: p in spec.required ==> p in c.params)
    && (spec.requiresConsent ==> c.consentRef != None)
    && (spec.requiresApproval ==> c.approvalRef != None)
  }

  /**
    Whatever facts were committed while submit was deciding, at the instant it inserts an
    action every authoritative parameter equals the current VERIFIED fact.
   */
  lemma FactsCurrentAtInsertion(w: World, moves: seq<Move>, m: Move, id: nat)
    requires Initial(w)
    requires id !in Run(w, moves).shared.tables.actions && id in Apply(Run(w, moves), m).shared.tables.actions
    ensures var t' := Apply(Run(w, moves), m).shared.tables;
            && t'.facts == Run(w, moves).shared.tables.facts
            && t'.actions[id].status == Authorized
            && t'.actions[id].command.action in w.cfg.specs
            && Demanded(w.cfg.specs[t'.actions[id].command.action], t'.actions[id].command)
            && forall p :: p in w.cfg.specs[t'.actions[id].command.action].authoritative ==>
                 Backed(t', t'.actions[id].command, p)
  {
    hide Initial, Run, Apply, SharedOk, OwnersDistinct;
    InitialInv(w);
    RunKept(w, moves);
    OnlyInsertAdds(Run(w, moves), m);
    InsertBacked(Run(w, moves), m.client, m.choice, id);
  }

  lemma InsertBacked(w: World, c: nat, ch: Choice, id: nat)
    requires c in w.clients && Inserting(w.clients[c].pc) && ClientOk(w.cfg, w.shared, w.clients[c])
    requires id !in w.shared.tables.actions && id in Apply(w, Step(c, ch)).shared.tables.actions
    ensures var t' := Apply(w, Step(c, ch)).shared.tables;
            && t'.facts == w.shared.tables.facts
            && t'.actions[id] == Action(w.clients[c].pc.command, Authorized)
            && CoversSpec(w.cfg, w.clients[c].pc.command)
            && forall p :: p in w.cfg.specs[w.clients[c].pc.command.action].authoritative ==>
                 Backed(t', w.clients[c].pc.command, p)
  {
    hide FrameOk;
  }

  /** The version of a case counts its fact commits and its actions. */
  lemma VersionCounts(w: World, moves: seq<Move>, caseId: Name)
    requires Initial(w) && caseId in Run(w, moves).shared.tables.cases
    ensures var t := Run(w, moves).shared.tables;
            t.cases[caseId].version == Commits(t.commits, caseId) + |ActionsOn(t.actions, caseId)|
  {
    hide Initial, Run, KeysOk, LogsLegal, OutboxOk, ProposalsOk, LedgerOk, CallsOk, ClientsOk, OwnersDistinct;
    ReachableInv(w, moves);
  }

  // ---- Event logs ----

  /** Every action's log is a path of the state graph from REQUESTED to its stored status. */
  lemma LogsAreLegalPaths(w: World, moves: seq<Move>, id: nat)
    requires Initial(w) && id in Run(w, moves).shared.tables.actions
    ensures var log := LogOf(Run(w, moves).shared.tables.events, id);
            && log != [] && log[0] == Requested && log[|log| - 1] == Run(w, moves).shared.tables.actions[id].status
            && forall i, j :: 0 <= i && j == i + 1 && j < |log| ==> Edge(log[i], log[j])
  {
    hide Initial, Run, LogOf, LegalLog, Edge;
    hide KeysOk, OutboxOk, ProposalsOk, VersionsOk, LedgerOk, CallsOk, ClientsOk, OwnersDistinct;
    ReachableInv(w, moves);
    LegalLogIsPath(LogOf(Run(w, moves).shared.tables.events, id), Run(w, moves).shared.tables.actions[id].status);
  }

  /** A terminal action never changes again, and no action's command ever changes. */
  lemma TerminalIsAbsorbing(w: World, moves: seq<Move>, later: seq<Move>, id: nat)
    requires Initial(w) && id in Run(w, moves).shared.tables.actions
    ensures id in Run(Run(w, moves), later).shared.tables.actions
    ensures Run(Run(w, moves), later).shared.tables.actions[id].command
            == Run(w, moves).shared.tables.actions[id].command
    ensures Terminal(Run(w, moves).shared.tables.actions[id].status) ==>
              Run(Run(w, moves), later).shared.tables.actions[id] == Run(w, moves).shared.tables.actions[id]
  {
    hide Initial, Run, SharedOk, ClientsOk, OwnersDistinct;
    ReachableInv(w, moves);
    RunKept(Run(w, moves), later);
  }

  // ---- Proposals ----

  /** A proposal is CONFIRMED exactly when it names an existing action with its own key. */
  lemma ConfirmedNamesItsAction(w: World, moves: seq<Move>, p: nat)
    requires Initial(w) && p in Run(w, moves).shared.tables.proposals
    ensures var t := Run(w, moves).shared.tables;
            t.proposals[p].status == Confirmed <==> NamesItsAction(t.actions, t.proposals[p])
  {
    hide Initial, Run, KeysOk, LogsLegal, OutboxOk, VersionsOk;
    hide LedgerOk, CallsOk, ClientsOk, OwnersDistinct, NamesItsAction;
    ReachableInv(w, moves);
  }

  /** A proposal that has been confirmed, cancelled or expired never changes again. */
  lemma ClosedProposalsAreAbsorbing(w: World, moves: seq<Move>, later: seq<Move>, p: nat)
    requires Initial(w) && p in Run(w, moves).shared.tables.proposals
    ensures var ps, ps' := Run(w, moves).shared.tables.proposals, Run(Run(w, moves), later).shared.tables.proposals;
            && p in ps' && ps'[p].offer == ps[p].offer
            && (ps[p].status != Pending ==> ps'[p] == ps[p])
  {
    hide Initial, Run, SharedOk, ClientsOk, OwnersDistinct;
    ReachableInv(w, moves);
    RunKept(Run(w, moves), later);
  }

  predicate Confirms(pc: Pc) {
    pc.InBridge? && (pc.bridge.ConfirmWrite? || pc.bridge.CancelRecover?)
  }

  /** Only confirm's final write, or a cancel that finds the action already there, confirms a proposal. */
  lemma OnlyConfirmConfirms(w: World, m: Move, p: nat)
    requires p in w.shared.tables.proposals && w.shared.tables.proposals[p].status != Confirmed
    requires p in Apply(w, m).shared.tables.proposals && Apply(w, m).shared.tables.proposals[p].status == Confirmed
    ensures AtStage(w, m, Confirms)
    ensures w.clients[m.client].pc.proposal == p
  {
    OnlyBridgeWritesProposals(w, m);
    if m.Propose? {
      hide StepSubmit, StepAuthorize, StepAction, StepWorker, StepBridge;
    } else {
      hide Apply;
      BridgeConfirms(w, m.client, m.choice, p);
    }
  }

  lemma BridgeConfirms(w: World, c: nat, ch: Choice, p: nat)
    requires c in w.clients && WritesProposal(w.clients[c].pc)
    requires p in w.shared.tables.proposals && w.shared.tables.proposals[p].status != Confirmed
    requires p in Apply(w, Step(c, ch)).shared.tables.proposals
    requires Apply(w, Step(c, ch)).shared.tables.proposals[p].status == Confirmed
    ensures Confirms(w.clients[c].pc) && w.clients[c].pc.proposal == p
  {
    hide ProposalTx, StepSubmit, StepAuthorize, StepAction, StepWorker;
    hide ConfirmReadTx, ConfirmVerifyTx, CancelReadTx, CancelLookupTx, StatusReadTx;
    var sh, q := w.shared, w.clients[c].pc.proposal;
    match w.clients[c].pc.bridge
    case ConfirmWrite(id) => ProposalTxWrites(sh, q, Confirmed, Some(id), p);
    case CancelRecover(id) => ProposalTxWrites(sh, q, Confirmed, Some(id), p);
    case ExpireWrite => ProposalTxWrites(sh, q, Expired, None, p);
    case CancelWrite => ProposalTxWrites(sh, q, Cancelled, None, p);
  }

  lemma ProposalTxWrites(sh: Shared, q: nat, status: ProposalStatus, actionId: Option<nat>, p: nat)
    requires p in sh.tables.proposals
    ensures var ps' := ProposalTx(sh, q, status, actionId).shared.tables.proposals;
            p in ps' && (ps'[p] == sh.tables.proposals[p] || (p == q && ps'[p].status == status))
  {
  }

  /** The stored action is the one the offer describes, for the offer's customer. */
  ghost predicate Executes(t: Tables, o: Offer, id: nat) {
    && id in t.actions
    && var c := t.actions[id].command;
       && c.key == o.key && c.action == o.action && c.caseId == o.caseId && c.policyPackageId == o.policyPackageId
       && c.caseId in t.cases && t.cases[c.caseId].customerId == o.customerId
       && (o.action != IssueRefund ==> c.params == o.params)
       && (o.action == IssueRefund ==> forall name :: name in c.params ==> Get(o.params, name) == c.params[name])
  }

  /**
    What is confirmed is what executes: when confirm's last transaction takes a proposal
    from PENDING to CONFIRMED, the action it names is the one proposed, then and forever.
   */
  lemma ConfirmedIsExecuted(w: World, moves: seq<Move>, c: nat, ch: Choice, p: nat, id: nat, later: seq<Move>)
    requires Initial(w) && c in Run(w, moves).clients
    requires Run(w, moves).clients[c].pc == InBridge(p, ConfirmWrite(id))
    requires p in Run(w, moves).shared.tables.proposals && Run(w, moves).shared.tables.proposals[p].status == Pending
    ensures var offer := Run(w, moves).shared.tables.proposals[p].offer;
            var t' := Run(Apply(Run(w, moves), Step(c, ch)), later).shared.tables;
            p in t'.proposals && t'.proposals[p] == Proposal(offer, Confirmed, Some(id)) && Executes(t', offer, id)
  {
    hide Initial, Run, Apply, SharedOk, OwnersDistinct, PcOk, Executes;
    var w1 := Run(w, moves);
    InitialInv(w);
    RunKept(w, moves);
    var offer := w1.shared.tables.proposals[p].offer;
    CarriedExecutes(w1.cfg, w1.shared, w1.clients[c], p, id);
    ConfirmWrites(w1, c, ch, p, id);
    var w2 := Apply(w1, Step(c, ch));
    MoveKept(w1, Step(c, ch));
    RunKept(w2, later);
    ExecutesForever(w1.shared, w2.shared, offer, id);
    ExecutesForever(w2.shared, Run(w2, later).shared, offer, id);
  }

  lemma ExecutesForever(sh: Shared, sh': Shared, o: Offer, id: nat)
    requires Evolves(sh, sh') && Executes(sh.tables, o, id)
    ensures Executes(sh'.tables, o, id)
  {
  }

  lemma CarriedExecutes(cfg: Config, sh: Shared, cl: Client, p: nat, id: nat)
    requires ClientOk(cfg, sh, cl) && cl.pc == InBridge(p, ConfirmWrite(id))
    ensures p in sh.tables.proposals && Executes(sh.tables, sh.tables.proposals[p].offer, id)
  {
  }

  lemma ConfirmWrites(w: World, c: nat, ch: Choice, p: nat, id: nat)
    requires c in w.clients && w.clients[c].pc == InBridge(p, ConfirmWrite(id))
    requires p in w.shared.tables.proposals && w.shared.tables.proposals[p].status == Pending
    ensures Apply(w, Step(c, ch)).shared.tables.proposals
            == w.shared.tables.proposals[p := Proposal(w.shared.tables.proposals[p].offer, Confirmed, Some(id))]
  {
    hide ConfirmReadTx, ConfirmVerifyTx, CancelReadTx, CancelLookupTx, StatusReadTx;
  }

  /** An action that confirm itself inserts has exactly the proposal's parameters, refunds included. */
  lemma ConfirmInsertsTheOffer(w: World, moves: seq<Move>, c: nat, ch: Choice, p: nat, offer: Offer, id: nat)
    requires Initial(w) && c in Run(w, moves).clients
    requires Inserting(Run(w, moves).clients[c].pc) && Run(w, moves).clients[c].frame == OnConfirm(p, offer)
    requires id !in Run(w, moves).shared.tables.actions
    requires id in Apply(Run(w, moves), Step(c, ch)).shared.tables.actions
    ensures p in Run(w, moves).shared.tables.proposals && Run(w, moves).shared.tables.proposals[p].offer == offer
    ensures var t' := Apply(Run(w, moves), Step(c, ch)).shared.tables;
            Executes(t', offer, id) && t'.actions[id].command.params == offer.params
  {
    hide Initial, Run, SharedOk, OwnersDistinct, PcOk, FactsSeen;
    InitialInv(w);
    RunKept(w, moves);
    InsertCarries(Run(w, moves), c, ch, p, offer, id);
  }

  lemma InsertCarries(w: World, c: nat, ch: Choice, p: nat, offer: Offer, id: nat)
    requires c in w.clients && Inserting(w.clients[c].pc) && ClientOk(w.cfg, w.shared, w.clients[c])
    requires w.clients[c].frame == OnConfirm(p, offer)
    requires id !in w.shared.tables.actions && id in Apply(w, Step(c, ch)).shared.tables.actions
    ensures p in w.shared.tables.proposals && w.shared.tables.proposals[p].offer == offer
    ensures var t' := Apply(w, Step(c, ch)).shared.tables;
            Executes(t', offer, id) && t'.actions[id].command.params == offer.params
  {
    hide PcOk;
  }

  // ---- Expiry ----

  predicate Expires(pc: Pc) {
    pc.InBridge? && pc.bridge.ExpireWrite?
  }

  /** A proposal is marked EXPIRED only when its deadline has passed. */
  lemma ExpiredOnlyAfterDeadline(w: World, moves: seq<Move>, m: Move, p: nat)
    requires Initial(w) && p in Run(w, moves).shared.tables.proposals
    requires Run(w, moves).shared.tables.proposals[p].status != Expired
    requires p in Apply(Run(w, moves), m).shared.tables.proposals
    requires Apply(Run(w, moves), m).shared.tables.proposals[p].status == Expired
    ensures Run(w, moves).shared.tables.proposals[p].offer.expiresAt <= Run(w, moves).shared.now
  {
    hide Initial, Run, SharedOk, OwnersDistinct, Evolves, FrameOk;
    InitialInv(w);
    RunKept(w, moves);
    OnlyExpireExpires(Run(w, moves), m, p);
  }

  lemma OnlyExpireExpires(w: World, m: Move, p: nat)
    requires p in w.shared.tables.proposals && w.shared.tables.proposals[p].status != Expired
    requires p in Apply(w, m).shared.tables.proposals && Apply(w, m).shared.tables.proposals[p].status == Expired
    ensures AtStage(w, m, Expires) && w.clients[m.client].pc.proposal == p
  {
    OnlyBridgeWritesProposals(w, m);
    if m.Propose? {
      hide StepSubmit, StepAuthorize, StepAction, StepWorker, StepBridge;
    } else {
      hide Apply;
      BridgeExpires(w, m.client, m.choice, p);
    }
  }

  lemma BridgeExpires(w: World, c: nat, ch: Choice, p: nat)
    requires c in w.clients && WritesProposal(w.clients[c].pc)
    requires p in w.shared.tables.proposals && w.shared.tables.proposals[p].status != Expired
    requires p in Apply(w, Step(c, ch)).shared.tables.proposals
    requires Apply(w, Step(c, ch)).shared.tables.proposals[p].status == Expired
    ensures Expires(w.clients[c].pc) && w.clients[c].pc.proposal == p
  {
    hide ProposalTx, StepSubmit, StepAuthorize, StepAction, StepWorker;
    hide ConfirmReadTx, ConfirmVerifyTx, CancelReadTx, CancelLookupTx, StatusReadTx;
    var sh, q := w.shared, w.clients[c].pc.proposal;
    match w.clients[c].pc.bridge
    case ConfirmWrite(id) => ProposalTxWrites(sh, q, Confirmed, Some(id), p);
    case CancelRecover(id) => ProposalTxWrites(sh, q, Confirmed, Some(id), p);
    case ExpireWrite => ProposalTxWrites(sh, q, Expired, None, p);
    case CancelWrite => ProposalTxWrites(sh, q, Cancelled, None, p);
  }
}

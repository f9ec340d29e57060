/**
  What a confirmation comes to when nothing interrupts it: refused, expired, or the offer
  submitted, and when the offer is in order, executed and the proposal confirmed.
 */
module ConfirmRuns {
  import opened Domain
  import opened Provider
  import opened Protocol
  import opened ProtocolInvariant
  import opened ProtocolSafety
  import opened SoloRuns
  import opened Stamping
  import opened Outcomes
  import opened Submission

  function Confirming(p: nat, b: BridgePc): Client {
    Client(InBridge(p, b), Direct)
  }

  /** Pending, and offered to this customer and this actor. */
  predicate OfferedTo(sh: Shared, p: nat, context: Confirmation) {
    && p in sh.tables.proposals && sh.tables.proposals[p].status == Pending
    && sh.tables.proposals[p].offer.customerId == context.customerId
    && sh.tables.proposals[p].offer.actorId == context.actorId
  }

  /** The resource and the connector are the ones the offer was made for, and the evidence it needs is given. */
  predicate StillHolds(cfg: Config, sh: Shared, o: Offer, context: Confirmation) {
    && (o.resource.Some? ==>
         o.resource.value in sh.ledger.resources
         && o.resourceVersion == Some(sh.ledger.resources[o.resource.value].version))
    && (cfg.checksBinding ==> o.action in sh.bindings && sh.bindings[o.action] == o.binding)
    && o.action in cfg.specs
    && (cfg.specs[o.action].requiresConsent ==> context.consentRef != None)
    && (cfg.specs[o.action].requiresApproval ==> context.approvalRef != None)
  }

  /** The request a confirmed offer makes. */
  function AskedBy(o: Offer, spec: Specification, context: Confirmation): Request {
    Request(
      action := o.action, params := o.params, caseId := o.caseId, customerId := o.customerId,
      procedureId := o.procedureId, procedureVersion := o.procedureVersion, policyPackageId := o.policyPackageId,
      key := o.key, resource := o.resource,
      consentRef := if spec.requiresConsent then context.consentRef else None,
      approvalRef := if spec.requiresApproval then context.approvalRef else None,
      binding := o.binding, actorId := context.actorId)
  }

  /** Where the two reads of a confirmation lead. */
  function Decided(cfg: Config, sh: Shared, p: nat, context: Confirmation): Outcome {
    if !OfferedTo(sh, p, context) then Outcome(sh, FINISHED)
    else
      var o := sh.tables.proposals[p].offer;
      if o.expiresAt <= sh.now then
        Outcome(WithTables(sh, sh.tables.(proposals := sh.tables.proposals[p :=
          Proposal(o, Expired, sh.tables.proposals[p].actionId)])), FINISHED)
      else if StillHolds(cfg, sh, o, context) then
        Outcome(sh, Submitting(OnConfirm(p, o), AskedBy(o, cfg.specs[o.action], context), FindDuplicate))
      else Outcome(sh, FINISHED)
  }

  // ---- The two reads ----

  lemma ReadsProposal(cfg: Config, sh: Shared, p: nat, context: Confirmation, ch: Choice)
    ensures ClientStep(cfg, sh, Confirming(p, ConfirmRead(context)), ch)
            == Outcome(sh, if !OfferedTo(sh, p, context) then FINISHED
                           else if sh.tables.proposals[p].offer.expiresAt <= sh.now then Confirming(p, ExpireWrite)
                           else Confirming(p, ConfirmVerify(sh.tables.proposals[p].offer, context)))
  {
    hide StepSubmit, StepAuthorize, StepAction, StepWorker;
  }

  lemma VerifiesOffer(cfg: Config, sh: Shared, p: nat, o: Offer, context: Confirmation, ch: Choice)
    requires !ch.raises
    ensures ClientStep(cfg, sh, Confirming(p, ConfirmVerify(o, context)), ch)
            == Outcome(sh, if StillHolds(cfg, sh, o, context)
                           then Submitting(OnConfirm(p, o), AskedBy(o, cfg.specs[o.action], context), FindDuplicate)
                           else FINISHED)
  {
    hide StepSubmit, StepAuthorize, StepAction, StepWorker;
  }

  lemma WritesProposal(cfg: Config, sh: Shared, f: Frame, p: nat, id: nat, ch: Choice)
    requires p in sh.tables.proposals && sh.tables.proposals[p].status == Pending
    ensures ClientStep(cfg, sh, Client(InBridge(p, ConfirmWrite(id)), f), ch)
            == Outcome(WithTables(sh, sh.tables.(proposals := sh.tables.proposals[p :=
                         sh.tables.proposals[p].(status := Confirmed, actionId := Some(id))])), FINISHED)
    ensures ClientStep(cfg, sh, Client(InBridge(p, ExpireWrite), f), ch)
            == Outcome(WithTables(sh, sh.tables.(proposals := sh.tables.proposals[p :=
                         sh.tables.proposals[p].(status := Expired)])), FINISHED)
  {
    hide StepSubmit, StepAuthorize, StepAction, StepWorker;
  }

  lemma SoloConfirm(cfg: Config, sh: Shared, p: nat, context: Confirmation, ch: Choice)
    requires !ch.raises
    ensures Solo(cfg, sh, Confirming(p, ConfirmRead(context)), ch, 2) == Decided(cfg, sh, p, context)
  {
    hide ClientStep, Solo, StillHolds;
    var start := Confirming(p, ConfirmRead(context));
    ReadsProposal(cfg, sh, p, context, ch);
    var end := Decided(cfg, sh, p, context);
    if !OfferedTo(sh, p, context) {
      SoloStep(cfg, sh, start, ch, 2, sh, FINISHED);
      SoloDone(cfg, sh, ch, 1);
    } else {
      var o := sh.tables.proposals[p].offer;
      if o.expiresAt <= sh.now {
        SoloStep(cfg, sh, start, ch, 2, sh, Confirming(p, ExpireWrite));
        WritesProposal(cfg, sh, Direct, p, 0, ch);
        SoloStep(cfg, sh, Confirming(p, ExpireWrite), ch, 1, end.shared, end.client);
      } else {
        SoloStep(cfg, sh, start, ch, 2, sh, Confirming(p, ConfirmVerify(o, context)));
        VerifiesOffer(cfg, sh, p, o, context, ch);
        SoloStep(cfg, sh, Confirming(p, ConfirmVerify(o, context)), ch, 1, end.shared, end.client);
      }
      SoloNone(cfg, end.shared, end.client, ch);
    }
  }

  /**
    A confirmation that is not interrupted goes on to submit the offer exactly when the
    proposal is pending, its customer's and its actor's, in time, and all it was offered for
    still holds; a late one expires the proposal, and any other changes nothing.
   */
  lemma ConfirmDecides(w: World, c: nat, p: nat, context: Confirmation, ch: Choice)
    requires c !in w.clients && !ch.raises
    ensures var later := Run(w, [Spawn(c, Confirm(p, context))] + Steps(c, ch, 2));
            && later.shared == Decided(w.cfg, w.shared, p, context).shared
            && c in later.clients && later.clients[c] == Decided(w.cfg, w.shared, p, context).client
  {
    hide Run, Solo, ClientStep, Decided;
    RunFirst(w, Spawn(c, Confirm(p, context)), Steps(c, ch, 2));
    var first := Apply(w, Spawn(c, Confirm(p, context)));
    SoloRun(first, c, ch, 2);
    SoloConfirm(w.cfg, w.shared, p, context, ch);
  }

  // ---- A look at the status ----

  /** A status request expires a late pending proposal of its customer, and of its actor if it names one. */
  function Looked(sh: Shared, p: nat, customer: Name, actor: Option<Name>): Shared {
    var ps := sh.tables.proposals;
    if p in ps && ps[p].status == Pending && ps[p].offer.expiresAt <= sh.now && ps[p].offer.customerId == customer
       && (actor == None || actor == Some(ps[p].offer.actorId))
    then WithTables(sh, sh.tables.(proposals := ps[p := ps[p].(status := Expired)])) else sh
  }

  lemma ReadsStatus(cfg: Config, sh: Shared, p: nat, customer: Name, actor: Option<Name>, ch: Choice)
    ensures ClientStep(cfg, sh, Confirming(p, StatusRead(customer, actor)), ch)
            == Outcome(sh, if Looked(sh, p, customer, actor) == sh then FINISHED else Confirming(p, ExpireWrite))
  {
    hide StepSubmit, StepAuthorize, StepAction, StepWorker;
    var ps := sh.tables.proposals;
    if p in ps && ps[p].status == Pending {
      assert ps[p := ps[p].(status := Expired)][p] != ps[p];
    }
  }

  lemma StatusDecides(w: World, c: nat, p: nat, customer: Name, actor: Option<Name>, ch: Choice)
    requires c !in w.clients
    ensures Run(w, [Spawn(c, Status(p, customer, actor))] + Steps(c, ch, 2)).shared
            == Looked(w.shared, p, customer, actor)
  {
    hide Run, Solo, ClientStep;
    var start, sh := Confirming(p, StatusRead(customer, actor)), Looked(w.shared, p, customer, actor);
    RunFirst(w, Spawn(c, Status(p, customer, actor)), Steps(c, ch, 2));
    SoloRun(Apply(w, Spawn(c, Status(p, customer, actor))), c, ch, 2);
    ReadsStatus(w.cfg, w.shared, p, customer, actor, ch);
    if sh == w.shared {
      SoloStep(w.cfg, w.shared, start, ch, 2, w.shared, FINISHED);
      SoloDone(w.cfg, w.shared, ch, 1);
    } else {
      SoloStep(w.cfg, w.shared, start, ch, 2, w.shared, Confirming(p, ExpireWrite));
      WritesProposal(w.cfg, w.shared, Direct, p, 0, ch);
      SoloStep(w.cfg, w.shared, Confirming(p, ExpireWrite), ch, 1, sh, FINISHED);
      SoloNone(w.cfg, sh, FINISHED, ch);
    }
  }

  // ---- From the click to the confirmed proposal ----

  lemma ComesToSubmit(cfg: Config, sh: Shared, p: nat, context: Confirmation, ch: Choice, sh': Shared, cl': Client)
    requires !ch.raises && OfferedTo(sh, p, context) && sh.now < sh.tables.proposals[p].offer.expiresAt
    requires StillHolds(cfg, sh, sh.tables.proposals[p].offer, context)
    requires var o := sh.tables.proposals[p].offer;
             Leads(cfg, sh, Submitting(OnConfirm(p, o), AskedBy(o, cfg.specs[o.action], context), FindDuplicate), sh',
                   cl')
    ensures Leads(cfg, sh, Confirming(p, ConfirmRead(context)), sh', cl')
  {
    hide ClientStep, Leads, AskedBy;
    var o := sh.tables.proposals[p].offer;
    VerifiesOffer(cfg, sh, p, o, context, ch);
    LeadsFirst(cfg, sh, Confirming(p, ConfirmVerify(o, context)), ch, sh,
               Submitting(OnConfirm(p, o), AskedBy(o, cfg.specs[o.action], context), FindDuplicate), sh', cl');
    ReadsProposal(cfg, sh, p, context, ch);
    LeadsFirst(cfg, sh, Confirming(p, ConfirmRead(context)), ch, sh, Confirming(p, ConfirmVerify(o, context)), sh',
               cl');
  }

  /** The stores once the action is dispatched and the proposal confirmed. */
  function AfterConfirm(sh: Shared, p: nat, id: nat): Shared
    requires id in sh.tables.actions && p in sh.tables.proposals
  {
    var sh1 := AfterDispatch(sh, id);
    WithTables(sh1, sh1.tables.(proposals := sh.tables.proposals[p :=
      sh.tables.proposals[p].(status := Confirmed, actionId := Some(id))]))
  }

  lemma DispatchAndConfirm(cfg: Config, sh: Shared, ch: Choice, p: nat, o: Offer, id: nat)
    requires SharedOk(cfg, sh) && !ch.raises && id in sh.tables.actions && sh.tables.actions[id].status == Authorized
    requires cfg.governed ==> PolicyAllows(sh.policy, sh.tables.actions[id].command)
    requires p in sh.tables.proposals && sh.tables.proposals[p].status == Pending
    ensures Solo(cfg, sh, Holding(OnConfirm(p, o), SnapshotOf(sh.tables, id)), ch, 9)
            == Outcome(AfterConfirm(sh, p, id), FINISHED)
    ensures Dispatches(sh, id, AfterDispatch(sh, id))
  {
    hide ClientStep, Solo, SharedOk, PolicyAllows, Dispatches, ScenarioFor, CommitEffect;
    var f := OnConfirm(p, o);
    SoloDispatch(cfg, sh, ch, f, id, 9);
    var sh1, left := AfterDispatch(sh, id), 6 - Length(ScenarioOf(sh, id));
    WritesProposal(cfg, sh1, f, p, id, ch);
    SoloStep(cfg, sh1, Client(InBridge(p, ConfirmWrite(id)), f), ch, left, AfterConfirm(sh, p, id), FINISHED);
    SoloDone(cfg, AfterConfirm(sh, p, id), ch, left - 1);
  }

  /** The offer has been executed: its own action, dispatched once, and the proposal naming it. */
  ghost predicate Executed(cfg: Config, sh: Shared, p: nat, context: Confirmation, command: Command, id: nat,
                           sh': Shared) {
    && p in sh.tables.proposals
    && var o := sh.tables.proposals[p].offer;
       && o.action in cfg.specs
       && var s, r := ScenarioFor(sh.ledger, o.key), AskedBy(o, cfg.specs[o.action], context);
          && Stamped(cfg, sh, r, command)
          && sh'.tables.actions == sh.tables.actions[id := Action(command, Recorded(s))]
          && sh'.tables.proposals == sh.tables.proposals[p := Proposal(o, Confirmed, Some(id))]
          && sh'.ledger.effects == (if TakesEffect(s) then sh.ledger.effects[o.key := command] else sh.ledger.effects)
          && sh'.calls == sh.calls + [o.key]
          && FactsFiled(sh.tables, r, cfg.specs[o.action].authoritative, sh'.tables)
  }

  lemma ConfirmLeaves(cfg: Config, sh: Shared, p: nat, context: Confirmation, command: Command, id: nat, outboxId: nat,
                      sh1: Shared)
    requires p in sh.tables.proposals && sh.tables.proposals[p].offer.action in cfg.specs
    requires var o := sh.tables.proposals[p].offer;
             Admitted(cfg, sh, AskedBy(o, cfg.specs[o.action], context), command, id, outboxId, sh1)
    requires id in sh1.tables.actions && Dispatches(sh1, id, AfterDispatch(sh1, id)) && p in sh1.tables.proposals
    ensures Executed(cfg, sh, p, context, command, id, AfterConfirm(sh1, p, id))
  {
    hide ScenarioFor, CommitEffect, FactsFiled;
    var o := sh.tables.proposals[p].offer;
    var r := AskedBy(o, cfg.specs[o.action], context);
    FactsFiledAlike(sh.tables, r, cfg.specs[o.action].authoritative, sh1.tables);
  }

  /** The confirmation, made from this state with these choices, executes the offer. */
  ghost predicate Executes(w: World, c: nat, p: nat, context: Confirmation, chs: seq<Choice>, command: Command,
                           id: nat) {
    var later := Run(w, [Spawn(c, Confirm(p, context))] + StepsOf(c, chs));
    Executed(w.cfg, w.shared, p, context, command, id, later.shared)
  }

  /** The proposal can be confirmed, and the request it makes is in order. */
  ghost predicate ReadyToConfirm(cfg: Config, sh: Shared, p: nat, context: Confirmation) {
    && OfferedTo(sh, p, context)
    && var o := sh.tables.proposals[p].offer;
       && sh.now < o.expiresAt && StillHolds(cfg, sh, o, context)
       && InOrder(cfg, sh, AskedBy(o, cfg.specs[o.action], context))
       && forall a :: a in sh.tables.actions ==> sh.tables.actions[a].command.key != o.key
  }

  /** A world in which the call has come to the dispatch of the action it has inserted. */
  ghost predicate Submitted(w: World, c: nat, p: nat, context: Confirmation, command: Command, id: nat, outboxId: nat,
                            w': World)
  {
    && p in w.shared.tables.proposals
    && var o := w.shared.tables.proposals[p].offer;
       && o.action in w.cfg.specs
       && Admitted(w.cfg, w.shared, AskedBy(o, w.cfg.specs[o.action], context), command, id, outboxId, w'.shared)
       && c in w'.clients && w'.clients[c] == Holding(OnConfirm(p, o), Snapshot(id, command, Authorized))
  }

  lemma ConfirmSubmits(w: World, c: nat, p: nat, context: Confirmation, id: nat, outboxId: nat, ch: Choice)
    returns (chs: seq<Choice>, command: Command)
    requires Inv(w) && c !in w.clients && ReadyToConfirm(w.cfg, w.shared, p, context)
    requires id !in w.shared.tables.actions && outboxId !in w.shared.tables.outbox
    requires ch == Choice(false, id, outboxId, Name(""), [])
    ensures Submitted(w, c, p, context, command, id, outboxId,
                      Run(w, [Spawn(c, Confirm(p, context))] + StepsOf(c, chs)))
  {
    hide Run, Inv, SharedOk, Script, ClientStep, InOrder, Admitted;
    InvShared(w);
    var o := w.shared.tables.proposals[p].offer;
    var r, f := AskedBy(o, w.cfg.specs[o.action], context), OnConfirm(p, o);
    KeyIsFree(w.cfg, w.shared, o.key);
    var sh';
    command, sh' := SoloSubmission(f, w.cfg, w.shared, r, ch);
    var end := Holding(f, Snapshot(id, command, Authorized));
    ComesToSubmit(w.cfg, w.shared, p, context, ch, sh', end);
    chs :| Script(w.cfg, w.shared, Confirming(p, ConfirmRead(context)), chs) == Outcome(sh', end);
    RunFirst(w, Spawn(c, Confirm(p, context)), StepsOf(c, chs));
    ScriptRun(Apply(w, Spawn(c, Confirm(p, context))), c, chs);
  }

  lemma AdmittedAction(cfg: Config, sh: Shared, r: Request, c: Command, id: nat, outboxId: nat, sh': Shared)
    requires Admitted(cfg, sh, r, c, id, outboxId, sh')
    ensures id in sh'.tables.actions && sh'.tables.actions[id] == Action(c, Authorized)
    ensures sh'.tables.proposals == sh.tables.proposals
  {
    hide Stamped, FactsFiled;
  }

  /**
    From any reachable state, a proposal that can be confirmed and whose request is in order
    is executed: some run of the call alone inserts the offer's own action, dispatches it
    once, records what the provider's scenario says and confirms the proposal with it.
   */
  lemma ConfirmExecutes(w: World, moves: seq<Move>, c: nat, p: nat, context: Confirmation, id: nat, outboxId: nat)
    requires Initial(w) && c !in Run(w, moves).clients
    requires ReadyToConfirm(w.cfg, Run(w, moves).shared, p, context)
    requires id !in Run(w, moves).shared.tables.actions && outboxId !in Run(w, moves).shared.tables.outbox
    ensures exists chs: seq<Choice>, command :: Executes(Run(w, moves), c, p, context, chs, command, id)
  {
    hide Initial, Run, Inv, SharedOk, ClientStep, InOrder, Admitted, Evolves, Solo, Dispatches, Executed, PolicyAllows;
    hide StillHolds, Covered, AfterConfirm, AfterDispatch;
    InitialInv(w);
    RunKept(w, moves);
    var now, ch := Run(w, moves), Choice(false, id, outboxId, Name(""), []);
    var chs, command := ConfirmSubmits(now, c, p, context, id, outboxId, ch);
    var o, path := now.shared.tables.proposals[p].offer, [Spawn(c, Confirm(p, context))] + StepsOf(c, chs);
    AdmittedAction(now.cfg, now.shared, AskedBy(o, now.cfg.specs[o.action], context), command, id, outboxId,
                   Run(now, path).shared);
    Finishes(w, moves, path, c, p, o, id, ch);
    var later := Run(now, path);
    ConfirmLeaves(now.cfg, now.shared, p, context, command, id, outboxId, later.shared);
    SplitSteps(now, c, Confirm(p, context), chs, Same(ch, 9));
    assert Executes(now, c, p, context, chs + Same(ch, 9), command, id);
  }

  lemma {:induction false} StepsAppend(c: nat, a: seq<Choice>, b: seq<Choice>)
    ensures StepsOf(c, a + b) == StepsOf(c, a) + StepsOf(c, b)
    decreases |a|
  {
    if a == [] {
      assert a + b == b;
    } else {
      assert (a + b)[0] == a[0] && (a + b)[1..] == a[1..] + b;
      StepsAppend(c, a[1..], b);
    }
  }

  lemma SplitSteps(w: World, c: nat, program: Program, a: seq<Choice>, b: seq<Choice>)
    ensures Run(w, [Spawn(c, program)] + StepsOf(c, a + b))
            == Run(Run(w, [Spawn(c, program)] + StepsOf(c, a)), StepsOf(c, b))
  {
    hide Run;
    StepsAppend(c, a, b);
    assert [Spawn(c, program)] + StepsOf(c, a + b) == [Spawn(c, program)] + StepsOf(c, a) + StepsOf(c, b);
    RunAppend(w, [Spawn(c, program)] + StepsOf(c, a), StepsOf(c, b));
  }

  /** From the inserted action on: the dispatch and the write of the proposal. */
  lemma Finishes(w: World, moves: seq<Move>, path: seq<Move>, c: nat, p: nat, o: Offer, id: nat, ch: Choice)
    requires Initial(w) && !ch.raises
    requires var at := Run(Run(w, moves), path);
             && id in at.shared.tables.actions && at.shared.tables.actions[id].status == Authorized
             && p in at.shared.tables.proposals && at.shared.tables.proposals[p].status == Pending
             && c in at.clients && at.clients[c] == Holding(OnConfirm(p, o), SnapshotOf(at.shared.tables, id))
    ensures var at := Run(Run(w, moves), path);
            && Run(at, StepsOf(c, Same(ch, 9))).shared == AfterConfirm(at.shared, p, id)
            && Dispatches(at.shared, id, AfterDispatch(at.shared, id))
  {
    hide Initial, Run, Inv, SharedOk, ClientStep, Evolves, Solo, Dispatches, PolicyAllows, Covered;
    hide AfterConfirm, AfterDispatch;
    RunAppend(w, moves, path);
    var at := Run(w, moves + path);
    InitialInv(w);
    RunKept(w, moves + path);
    InvShared(at);
    SameConfig(w, moves + path);
    if w.cfg.governed { PolicyNeverStopsDispatch(w, moves + path, id); }
    DispatchAndConfirm(at.cfg, at.shared, ch, p, o, id);
    SoloIsScript(at.cfg, at.shared, at.clients[c], ch, 9);
    ScriptRun(at, c, Same(ch, 9));
  }
}

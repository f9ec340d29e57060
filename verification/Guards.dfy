/**
  What stands behind a confirmation or a cancellation: the call that reaches the final
  write was started by the proposal's owner and has seen the proposal pass every check.
 */
module Guards {
  import opened Domain
  import opened CoreTables
  import opened Provider
  import opened Protocol
  import opened ProtocolInvariant
  import opened ProtocolSafety
  import opened ProtocolWriters
  import opened Delivery

  // ---- The checks ----

  /** The proposal is pending and belongs to the caller. */
  predicate OwnedPending(sh: Shared, p: nat, o: Offer, context: Confirmation) {
    && p in sh.tables.proposals && sh.tables.proposals[p].status == Pending && sh.tables.proposals[p].offer == o
    && o.customerId == context.customerId && o.actorId == context.actorId
  }

  /** In addition, it has not expired. */
  predicate Confirmable(sh: Shared, p: nat, o: Offer, context: Confirmation) {
    OwnedPending(sh, p, o, context) && sh.now < o.expiresAt
  }

  /** Resource version and connector binding are still those offered, and the evidence the action needs is there. */
  predicate Substantiated(cfg: Config, sh: Shared, o: Offer, context: Confirmation) {
    && (o.resource.Some? ==>
         o.resource.value in sh.ledger.resources
         && o.resourceVersion == Some(sh.ledger.resources[o.resource.value].version))
    && (cfg.checksBinding ==> o.action in sh.bindings && sh.bindings[o.action] == o.binding)
    && o.action in cfg.specs
    && (cfg.specs[o.action].requiresConsent ==> context.consentRef.Some?)
    && (cfg.specs[o.action].requiresApproval ==> context.approvalRef.Some?)
  }

  ghost predicate WasOwnedPending(past: set<Shared>, p: nat, o: Offer, context: Confirmation) {
    exists sh :: sh in past && OwnedPending(sh, p, o, context)
  }

  ghost predicate WasConfirmable(past: set<Shared>, p: nat, o: Offer, context: Confirmation) {
    exists sh :: sh in past && Confirmable(sh, p, o, context)
  }

  ghost predicate WasSubstantiated(cfg: Config, past: set<Shared>, o: Offer, context: Confirmation) {
    exists sh :: sh in past && Substantiated(cfg, sh, o, context)
  }

  // ---- What a client has behind it ----

  function Evidence(needed: bool, ref: Option<Name>): Option<Name> {
    if needed then ref else None
  }

  /** The command in the making names the confirming actor and carries the evidence that was asked for. */
  ghost predicate Attributable(cfg: Config, o: Offer, context: Confirmation, pc: Pc) {
    o.action in cfg.specs
    && match pc
       case InSubmit(r, _) => r == RequestFor(o, cfg.specs[o.action], context)
       case InAuthorize(c, _, _) => Signed(cfg.specs[o.action], context, c)
       case _ => true
  }

  predicate Signed(spec: Specification, context: Confirmation, c: Command) {
    && c.actorId == context.actorId
    && c.consentRef == Evidence(spec.requiresConsent, context.consentRef)
    && c.approvalRef == Evidence(spec.requiresApproval, context.approvalRef)
  }

  /** A call made from confirm was started by the owner and has passed the checks. */
  ghost predicate FromConfirm(cfg: Config, past: set<Shared>, program: Program, p: nat, o: Offer, pc: Pc) {
    && program.Confirm? && program.proposal == p
    && WasConfirmable(past, p, o, program.context)
    && WasSubstantiated(cfg, past, o, program.context)
    && Attributable(cfg, o, program.context, pc)
    && (pc.InBridge? ==> pc.proposal == p && pc.bridge.ConfirmWrite?)
  }

  ghost predicate FromCancel(past: set<Shared>, program: Program, p: nat) {
    && program.Cancel? && program.proposal == p
    && exists o :: WasOwnedPending(past, p, o, program.context)
  }

  ghost predicate InBridgeOk(past: set<Shared>, program: Program, p: nat, b: BridgePc) {
    match b
    case ConfirmRead(context) => program == Confirm(p, context)
    case ConfirmVerify(o, context) => program == Confirm(p, context) && WasConfirmable(past, p, o, context)
    case ConfirmWrite(_) => false
    case CancelRead(context) => program == Cancel(p, context)
    case CancelLookup(_) => FromCancel(past, program, p)
    case CancelRecover(_) => FromCancel(past, program, p)
    case CancelWrite => FromCancel(past, program, p)
    case _ => true
  }

  ghost predicate Guarded(cfg: Config, past: set<Shared>, program: Program, cl: Client) {
    if cl.frame.OnConfirm? then FromConfirm(cfg, past, program, cl.frame.proposal, cl.frame.offer, cl.pc)
    else cl.pc.InBridge? ==> InBridgeOk(past, program, cl.pc.proposal, cl.pc.bridge)
  }

  // ---- Steps ----

  lemma BridgeGuards(cfg: Config, sh: Shared, cl: Client, ch: Choice, past: set<Shared>, program: Program)
    requires sh in past && Guarded(cfg, past, program, cl) && cl.pc.InBridge? && !cl.frame.OnConfirm?
    ensures Guarded(cfg, past, program, StepBridge(cfg, sh, cl, ch).client)
  {
    hide FindByKey, WasConfirmable, WasOwnedPending, WasSubstantiated, FromCancel, FromConfirm, EvidenceGiven;
    hide ResourceUnchanged, BindingUnchanged, RequestFor, Owns;
    var p := cl.pc.proposal;
    match cl.pc.bridge
    case ConfirmRead(context) =>
      if p in sh.tables.proposals && sh.tables.proposals[p].status == Pending
         && Owns(sh.tables.proposals[p].offer, context.customerId, Some(context.actorId))
      {
        Saw(sh, past, p, sh.tables.proposals[p].offer, context);
      }
    case ConfirmVerify(o, context) => VerifyGuards(cfg, sh, ch, past, p, o, context);
    case CancelRead(context) =>
      if p in sh.tables.proposals && sh.tables.proposals[p].status == Pending
         && Owns(sh.tables.proposals[p].offer, context.customerId, Some(context.actorId))
      {
        Saw(sh, past, p, sh.tables.proposals[p].offer, context);
      }
    case _ =>
  }

  /** What a read of the proposal establishes. */
  lemma Saw(sh: Shared, past: set<Shared>, p: nat, o: Offer, context: Confirmation)
    requires sh in past && p in sh.tables.proposals && sh.tables.proposals[p].offer == o
    requires sh.tables.proposals[p].status == Pending && Owns(o, context.customerId, Some(context.actorId))
    ensures WasOwnedPending(past, p, o, context) && FromCancel(past, Cancel(p, context), p)
    ensures !(o.expiresAt <= sh.now) ==> WasConfirmable(past, p, o, context)
  {
    assert OwnedPending(sh, p, o, context);
    assert WasOwnedPending(past, p, o, context);
    if !(o.expiresAt <= sh.now) { assert Confirmable(sh, p, o, context); }
  }

  lemma VerifyGuards(cfg: Config, sh: Shared, ch: Choice, past: set<Shared>, p: nat, o: Offer, context: Confirmation)
    requires sh in past && WasConfirmable(past, p, o, context)
    ensures Guarded(cfg, past, Confirm(p, context), ConfirmVerifyTx(cfg, sh, ch, p, o, context).client)
  {
    hide WasConfirmable;
    if ResourceUnchanged(sh.ledger, o) && BindingUnchanged(cfg, sh, o) && o.action in cfg.specs
       && EvidenceGiven(cfg.specs[o.action], context) {
      assert Substantiated(cfg, sh, o, context);
    }
  }

  /** A confirm that has reached submit keeps its request and its command. */
  lemma SubmitGuards(cfg: Config, sh: Shared, cl: Client, ch: Choice, o: Offer, context: Confirmation)
    requires cl.pc.InSubmit? && cl.frame.OnConfirm? && Attributable(cfg, o, context, cl.pc)
    ensures var cl' := StepSubmit(cfg, sh, cl, ch).client;
            cl' == FINISHED || (cl'.frame == cl.frame && !cl'.pc.InBridge? && Attributable(cfg, o, context, cl'.pc))
  {
    hide SameRequest, FindByKey, UpstreamAgrees, Normalize, Authoritative, CreateCase, AppendFact;
  }

  lemma AuthorizeGuards(cfg: Config, sh: Shared, cl: Client, ch: Choice, o: Offer, context: Confirmation)
    requires cl.pc.InAuthorize? && cl.frame.OnConfirm? && Attributable(cfg, o, context, cl.pc)
    ensures var cl' := StepAuthorize(cfg, sh, cl, ch).client;
            cl' == FINISHED || (cl'.frame == cl.frame && !cl'.pc.InBridge? && Attributable(cfg, o, context, cl'.pc))
  {
    hide FindByKey, SpecificationMet, FactAgrees, InsertAction;
  }

  lemma ConfirmGuards(cfg: Config, sh: Shared, cl: Client, ch: Choice, past: set<Shared>, program: Program)
    requires Guarded(cfg, past, program, cl) && cl.frame.OnConfirm? && !cl.pc.InWorker?
    ensures Guarded(cfg, past, program, ClientStep(cfg, sh, cl, ch).client)
  {
    hide StepSubmit, StepAuthorize, StepAction, StepWorker, WasConfirmable, WasSubstantiated, Attributable;
    hide ConfirmReadTx, ConfirmVerifyTx, CancelReadTx, CancelLookupTx, StatusReadTx;
    var o, context := cl.frame.offer, program.context;
    match cl.pc
    case InSubmit(_, _) => SubmitGuards(cfg, sh, cl, ch, o, context);
    case InAuthorize(_, _, _) => AuthorizeGuards(cfg, sh, cl, ch, o, context);
    case InAction(_, _) =>
      ActionExits(cfg, sh, cl, ch);
      AttributableAction(cfg, o, context, cl.pc, StepAction(cfg, sh, cl, ch).client.pc);
    case InBridge(_, _) =>
    case Done =>
  }

  lemma AttributableAction(cfg: Config, o: Offer, context: Confirmation, pc: Pc, pc': Pc)
    requires Attributable(cfg, o, context, pc) && !pc'.InSubmit? && !pc'.InAuthorize?
    ensures Attributable(cfg, o, context, pc')
  {
  }

  lemma StepGuards(cfg: Config, sh: Shared, cl: Client, ch: Choice, past: set<Shared>, program: Program)
    requires sh in past && Guarded(cfg, past, program, cl) && (cl.frame.OnConfirm? ==> !cl.pc.InWorker?)
    ensures Guarded(cfg, past, program, ClientStep(cfg, sh, cl, ch).client)
  {
    if cl.frame.OnConfirm? {
      hide Guarded, ClientStep;
      ConfirmGuards(cfg, sh, cl, ch, past, program);
    } else if cl.pc.InBridge? {
      hide StepBridge, StepSubmit, StepAuthorize, StepAction, StepWorker, FromConfirm, InBridgeOk;
      BridgeGuards(cfg, sh, cl, ch, past, program);
    } else {
      hide StepBridge, FromConfirm, InBridgeOk;
      PlainGuards(cfg, sh, cl, ch);
    }
  }

  /** Other calls never turn into a confirmation or a cancellation. */
  predicate Plain(cl: Client) {
    !cl.frame.OnConfirm? && !cl.pc.InBridge?
  }

  lemma PlainGuards(cfg: Config, sh: Shared, cl: Client, ch: Choice)
    requires Plain(cl)
    ensures Plain(ClientStep(cfg, sh, cl, ch).client)
  {
    hide StepSubmit, StepAuthorize, StepAction, StepBridge, StepWorker;
    match cl.pc
    case InSubmit(_, _) => SubmitPlain(cfg, sh, cl, ch);
    case InAuthorize(_, _, _) => AuthorizePlain(cfg, sh, cl, ch);
    case InAction(_, _) => ActionExits(cfg, sh, cl, ch);
    case InWorker(_) => WorkerPlain(cfg, sh, cl, ch);
    case Done =>
  }

  lemma SubmitPlain(cfg: Config, sh: Shared, cl: Client, ch: Choice)
    requires Plain(cl) && cl.pc.InSubmit?
    ensures Plain(StepSubmit(cfg, sh, cl, ch).client)
  {
    hide SameRequest, FindByKey, UpstreamAgrees, Normalize, Authoritative, BuildCommand, CreateCase, AppendFact;
  }

  lemma AuthorizePlain(cfg: Config, sh: Shared, cl: Client, ch: Choice)
    requires Plain(cl) && cl.pc.InAuthorize?
    ensures Plain(StepAuthorize(cfg, sh, cl, ch).client)
  {
    hide FindByKey, SpecificationMet, FactAgrees, InsertAction;
  }

  lemma WorkerPlain(cfg: Config, sh: Shared, cl: Client, ch: Choice)
    requires Plain(cl) && cl.pc.InWorker?
    ensures Plain(StepWorker(cfg, sh, cl, ch).client)
  {
    hide DueBatch, LeaseRows, ReadRows, Reordered, SettleRow;
  }

  // ---- Whole runs ----

  /** What is known of one call and of the states that have passed since it was started. */
  ghost predicate CallGuarded(past: set<Shared>, w: World, c: nat, program: Program) {
    && w.shared in past && c in w.clients
    && Guarded(w.cfg, past, program, w.clients[c])
    && (w.clients[c].frame.OnConfirm? ==> !w.clients[c].pc.InWorker?)
  }

  /** The shared states a run passes through. */
  ghost function Past(w: World, moves: seq<Move>): set<Shared>
    decreases |moves|
  {
    {w.shared} + if moves == [] then {} else Past(Apply(w, moves[0]), moves[1..])
  }

  lemma MoreHistory(cfg: Config, past: set<Shared>, more: set<Shared>, program: Program, cl: Client)
    requires Guarded(cfg, past, program, cl) && past <= more
    ensures Guarded(cfg, more, program, cl)
  {
    hide Attributable, OwnedPending, Confirmable, Substantiated;
    var context := if program.Confirm? || program.Cancel? then program.context
                   else Confirmation(Name(""), Name(""), None, None);
    forall p, o | WasConfirmable(past, p, o, context) ensures WasConfirmable(more, p, o, context) {}
    forall p, o | WasOwnedPending(past, p, o, context) ensures WasOwnedPending(more, p, o, context) {}
    forall o | WasSubstantiated(cfg, past, o, context) ensures WasSubstantiated(cfg, more, o, context) {}
  }

  lemma StartGuarded(cfg: Config, past: set<Shared>, t: Tables, program: Program)
    ensures Guarded(cfg, past, program, Start(t, program)) && Start(t, program).frame.Direct?
  {
  }

  lemma NoWorkerInConfirm(cfg: Config, past: set<Shared>, sh: Shared, cl: Client, ch: Choice, program: Program)
    requires Guarded(cfg, past, program, cl) && (cl.frame.OnConfirm? ==> !cl.pc.InWorker?)
    ensures var cl' := ClientStep(cfg, sh, cl, ch).client; cl'.frame.OnConfirm? ==> !cl'.pc.InWorker?
  {
    hide StepSubmit, StepAuthorize, StepAction, StepWorker, WasConfirmable, WasSubstantiated, InBridgeOk;
    match cl.pc
    case InSubmit(_, _) => SubmitFrame(cfg, sh, cl, ch);
    case InAuthorize(_, _, _) => AuthorizeFrame(cfg, sh, cl, ch);
    case InAction(_, _) => ActionExits(cfg, sh, cl, ch);
    case InWorker(_) => WorkerPlain(cfg, sh, cl, ch);
    case InBridge(_, _) => BridgeFrame(cfg, sh, cl, ch);
    case Done =>
  }

  lemma SubmitFrame(cfg: Config, sh: Shared, cl: Client, ch: Choice)
    requires cl.pc.InSubmit?
    ensures var cl' := StepSubmit(cfg, sh, cl, ch).client; cl'.frame.OnConfirm? ==> !cl'.pc.InWorker?
  {
    hide SameRequest, FindByKey, UpstreamAgrees, Normalize, Authoritative, BuildCommand, CreateCase, AppendFact;
  }

  lemma AuthorizeFrame(cfg: Config, sh: Shared, cl: Client, ch: Choice)
    requires cl.pc.InAuthorize?
    ensures var cl' := StepAuthorize(cfg, sh, cl, ch).client; cl'.frame.OnConfirm? ==> !cl'.pc.InWorker?
  {
    hide FindByKey, SpecificationMet, FactAgrees, InsertAction;
  }

  lemma BridgeFrame(cfg: Config, sh: Shared, cl: Client, ch: Choice)
    requires cl.pc.InBridge?
    ensures !StepBridge(cfg, sh, cl, ch).client.pc.InWorker?
  {
    hide FindByKey, Owns, ResourceUnchanged, BindingUnchanged, EvidenceGiven, RequestFor;
  }

  predicate Spared(moves: seq<Move>, c: nat) {
    forall i :: 0 <= i < |moves| ==> moves[i] != Crash(c)
  }

  lemma MoveGuards(past: set<Shared>, w: World, m: Move, c: nat, program: Program)
    requires CallGuarded(past, w, c, program) && m != Crash(c)
    ensures CallGuarded(past + {Apply(w, m).shared}, Apply(w, m), c, program)
  {
    hide Guarded, ClientStep, Environment, Start;
    var cl, w' := w.clients[c], Apply(w, m);
    if m.Step? && m.client == c {
      StepGuards(w.cfg, w.shared, cl, m.choice, past, program);
      NoWorkerInConfirm(w.cfg, past, w.shared, cl, m.choice, program);
    }
    MoreHistory(w.cfg, past, past + {w'.shared}, program, w'.clients[c]);
  }

  lemma {:induction false} RunGuards(past: set<Shared>, w: World, moves: seq<Move>, c: nat, program: Program)
    requires CallGuarded(past, w, c, program) && Spared(moves, c)
    ensures CallGuarded(past + Past(w, moves), Run(w, moves), c, program)
    decreases |moves|
  {
    hide Guarded, Apply;
    if moves == [] {
      assert past + Past(w, moves) == past;
    } else {
      var w1 := Apply(w, moves[0]);
      MoveGuards(past, w, moves[0], c, program);
      RunGuards(past + {w1.shared}, w1, moves[1..], c, program);
      PastHead(w1, moves[1..]);
      assert past + {w1.shared} + Past(w1, moves[1..]) == past + Past(w, moves);
    }
  }

  lemma PastHead(w: World, moves: seq<Move>)
    ensures w.shared in Past(w, moves)
  {
  }

  /** Every state a run has passed through evolves into the one it has reached. */
  lemma {:induction false} PastEvolves(w: World, moves: seq<Move>, sh: Shared)
    requires Inv(w) && sh in Past(w, moves)
    ensures Evolves(sh, Run(w, moves).shared)
    decreases |moves|
  {
    hide Inv, Apply, Evolves;
    if sh == w.shared {
      RunKept(w, moves);
    } else {
      MoveKept(w, moves[0]);
      PastEvolves(Apply(w, moves[0]), moves[1..], sh);
    }
  }

  /** A call: after some run, a program is started as client `c`. */
  ghost function Called(w: World, before: seq<Move>, c: nat, program: Program): World {
    Apply(Run(w, before), Spawn(c, program))
  }

  lemma CallRuns(w: World, before: seq<Move>, c: nat, program: Program, moves: seq<Move>)
    requires Initial(w) && c !in Run(w, before).clients && Spared(moves, c)
    ensures var start := Called(w, before, c, program);
            && Inv(start) && Kept(start, Run(start, moves)) && start.cfg == w.cfg
            && CallGuarded(Past(start, moves), Run(start, moves), c, program)
  {
    hide Initial, Run, Past, Inv, Evolves, Start;
    InitialInv(w);
    RunKept(w, before);
    var start := Called(w, before, c, program);
    MoveKept(Run(w, before), Spawn(c, program));
    RunKept(start, moves);
    StartGuarded(w.cfg, {start.shared}, start.shared.tables, program);
    RunGuards({start.shared}, start, moves, c, program);
    PastHead(start, moves);
    assert {start.shared} + Past(start, moves) == Past(start, moves);
  }

  /**
    A call about to confirm a proposal was started to confirm it by its owner, and since
    the call began the proposal, as it is stored, was seen pending and unexpired, and its
    resource version, connector binding and evidence were found in order.
   */
  lemma ConfirmationIsGuarded(w: World, before: seq<Move>, c: nat, program: Program, moves: seq<Move>, p: nat, id: nat)
    requires Initial(w) && c !in Run(w, before).clients && Spared(moves, c)
    requires var end := Run(Called(w, before, c, program), moves);
             c in end.clients && end.clients[c].pc == InBridge(p, ConfirmWrite(id))
    ensures program.Confirm? && program.proposal == p
    ensures var start := Called(w, before, c, program);
            var ps := Run(start, moves).shared.tables.proposals;
            && p in ps
            && WasConfirmable(Past(start, moves), p, ps[p].offer, program.context)
            && WasSubstantiated(w.cfg, Past(start, moves), ps[p].offer, program.context)
  {
    hide Initial, Run, Past, SharedOk, OwnersDistinct, PcOk;
    hide WasConfirmable, WasSubstantiated, Attributable, Evolves, Called;
    CallRuns(w, before, c, program, moves);
    var end := Run(Called(w, before, c, program), moves);
    FrameHolds(end, c);
  }

  lemma FrameHolds(w: World, c: nat)
    requires Inv(w) && c in w.clients
    ensures FrameOk(w.shared.tables, w.clients[c])
  {
    hide SharedOk, OwnersDistinct, PcOk, FrameOk;
  }

  /**
    A call about to cancel a proposal, or to confirm it because its action exists, was started to
    cancel it by its owner.
   */
  lemma CancellationIsGuarded(w: World, before: seq<Move>, c: nat, program: Program, moves: seq<Move>, p: nat)
    requires Initial(w) && c !in Run(w, before).clients && Spared(moves, c)
    requires var end := Run(Called(w, before, c, program), moves);
             && c in end.clients && end.clients[c].pc.InBridge? && end.clients[c].pc.proposal == p
             && (end.clients[c].pc.bridge.CancelWrite? || end.clients[c].pc.bridge.CancelRecover?)
    ensures program.Cancel? && program.proposal == p
    ensures var start := Called(w, before, c, program);
            var ps := Run(start, moves).shared.tables.proposals;
            p in ps && WasOwnedPending(Past(start, moves), p, ps[p].offer, program.context)
  {
    hide Initial, Run, Past, Inv, WasOwnedPending, WasConfirmable, WasSubstantiated, Attributable, Evolves, Called;
    CallRuns(w, before, c, program, moves);
    var start := Called(w, before, c, program);
    var o :| WasOwnedPending(Past(start, moves), p, o, program.context);
    OfferStays(start, moves, p, o, program.context);
  }

  lemma OfferStays(w: World, moves: seq<Move>, p: nat, o: Offer, context: Confirmation)
    requires Inv(w) && WasOwnedPending(Past(w, moves), p, o, context)
    ensures p in Run(w, moves).shared.tables.proposals && Run(w, moves).shared.tables.proposals[p].offer == o
  {
    hide Inv, Run, Past;
    var sh :| sh in Past(w, moves) && OwnedPending(sh, p, o, context);
    PastEvolves(w, moves, sh);
  }

  /** An action about to be inserted for a confirmation names the confirming actor and the evidence given. */
  lemma ConfirmedActionIsSigned(w: World, before: seq<Move>, c: nat, program: Program, moves: seq<Move>)
    requires Initial(w) && c !in Run(w, before).clients && Spared(moves, c)
    requires var end := Run(Called(w, before, c, program), moves);
             c in end.clients && Inserting(end.clients[c].pc) && end.clients[c].frame.OnConfirm?
    ensures var cl := Run(Called(w, before, c, program), moves).clients[c];
            && program.Confirm? && program.proposal == cl.frame.proposal
            && cl.frame.offer.action in w.cfg.specs
            && Signed(w.cfg.specs[cl.frame.offer.action], program.context, cl.pc.command)
  {
    hide Initial, Run, Past, Inv, WasConfirmable, WasSubstantiated, Signed, Evolves, Called;
    CallRuns(w, before, c, program, moves);
  }
}

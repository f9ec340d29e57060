/**
  Cancelling a proposal.  At the instant of its write, a cancel whose three transactions
  run back to back cancels a proposal only if no action carries its key; one that is
  overtaken by an authorization can write too late.  What may still come after the write
  is decided exactly by the inserts that follow, and ruled out by a condition that can be
  checked at the write.
 */
module Cancellation {
  import opened Domain
  import opened CoreTables
  import opened Protocol
  import opened ProtocolInvariant
  import opened ProtocolSafety
  import opened ProtocolWriters
  import opened SoloRuns

  // ---- An atomic cancel ----

  ghost predicate Carried(acts: map<nat, Action>, key: Name) {
    exists id :: id in acts && acts[id].command.key == key
  }

  predicate Cancellable(t: Tables, p: nat, context: Confirmation) {
    && p in t.proposals && t.proposals[p].status == Pending
    && Owns(t.proposals[p].offer, context.customerId, Some(context.actorId))
  }

  /** What a cancel does to the tables when nothing runs in between. */
  ghost predicate CancelEffect(t: Tables, p: nat, context: Confirmation, t': Tables) {
    && t' == t.(proposals := t'.proposals)
    && (!Cancellable(t, p, context) ==> t' == t)
    && (Cancellable(t, p, context) ==>
         && p in t'.proposals && t'.proposals == t.proposals[p := t'.proposals[p]]
         && t'.proposals[p].offer == t.proposals[p].offer
         && if Carried(t.actions, t.proposals[p].offer.key)
            then t'.proposals[p].status == Confirmed && NamesItsAction(t.actions, t'.proposals[p])
            else t'.proposals[p].status == Cancelled && t'.proposals[p].actionId == None)
  }

  lemma SoloCancel(cfg: Config, sh: Shared, p: nat, context: Confirmation, ch: Choice)
    requires SharedOk(cfg, sh)
    ensures CancelEffect(sh.tables, p, context,
                         Solo(cfg, sh, Client(InBridge(p, CancelRead(context)), Direct), ch, 3).shared.tables)
  {
    hide SharedOk, ClientStep, CancelEffect;
    var start := Client(InBridge(p, CancelRead(context)), Direct);
    var first := ClientStep(cfg, sh, start, ch);
    var second := ClientStep(cfg, first.shared, first.client, ch);
    var third := ClientStep(cfg, second.shared, second.client, ch);
    assert Solo(cfg, sh, start, ch, 3) == third by {
      assert Solo(cfg, sh, start, ch, 3) == Solo(cfg, first.shared, first.client, ch, 2);
      assert Solo(cfg, first.shared, first.client, ch, 2) == Solo(cfg, second.shared, second.client, ch, 1);
      assert Solo(cfg, second.shared, second.client, ch, 1) == Solo(cfg, third.shared, third.client, ch, 0);
    }
    if Cancellable(sh.tables, p, context) {
      CancelPending(cfg, sh, p, context, ch);
    } else {
      CancelRefused(cfg, sh, p, context, ch);
    }
  }

  lemma CancelRefused(cfg: Config, sh: Shared, p: nat, context: Confirmation, ch: Choice)
    requires !Cancellable(sh.tables, p, context)
    ensures ClientStep(cfg, sh, Client(InBridge(p, CancelRead(context)), Direct), ch) == Outcome(sh, FINISHED)
    ensures ClientStep(cfg, sh, FINISHED, ch) == Outcome(sh, FINISHED)
    ensures CancelEffect(sh.tables, p, context, sh.tables)
  {
  }

  lemma CancelPending(cfg: Config, sh: Shared, p: nat, context: Confirmation, ch: Choice)
    requires SharedOk(cfg, sh) && Cancellable(sh.tables, p, context)
    ensures var first := ClientStep(cfg, sh, Client(InBridge(p, CancelRead(context)), Direct), ch);
            var second := ClientStep(cfg, first.shared, first.client, ch);
            CancelEffect(sh.tables, p, context, ClientStep(cfg, second.shared, second.client, ch).shared.tables)
  {
    hide SharedOk, ClientStep, FindByKey, Carried, Cancellable, CancelEffect;
    PendingNamesNothing(cfg, sh, p, context);
    CancelReads(cfg, sh, p, context, ch);
    Lookup(cfg, sh, sh.tables.proposals[p].offer.key);
    CancelLooksUp(cfg, sh, p, sh.tables.proposals[p].offer, ch);
    if FindByKey(sh.tables, sh.tables.proposals[p].offer.key).Some? {
      var id := FindByKey(sh.tables, sh.tables.proposals[p].offer.key).value.id;
      RecoverEffect(sh.tables, p, context, id);
      BridgeWrite(cfg, sh, p, CancelRecover(id), Confirmed, Some(id), ch);
    } else {
      CancelledEffect(sh.tables, p, context);
      BridgeWrite(cfg, sh, p, CancelWrite, Cancelled, None, ch);
    }
  }

  lemma CancelReads(cfg: Config, sh: Shared, p: nat, context: Confirmation, ch: Choice)
    requires Cancellable(sh.tables, p, context)
    ensures ClientStep(cfg, sh, Client(InBridge(p, CancelRead(context)), Direct), ch)
            == Outcome(sh, Client(InBridge(p, CancelLookup(sh.tables.proposals[p].offer)), Direct))
  {
    hide StepSubmit, StepAuthorize, StepAction, StepWorker;
  }

  lemma CancelLooksUp(cfg: Config, sh: Shared, p: nat, o: Offer, ch: Choice)
    ensures ClientStep(cfg, sh, Client(InBridge(p, CancelLookup(o)), Direct), ch)
            == Outcome(sh, Client(InBridge(p, match FindByKey(sh.tables, o.key)
                                              case Some(a) => CancelRecover(a.id)
                                              case None => CancelWrite), Direct))
  {
    hide FindByKey, StepSubmit, StepAuthorize, StepAction, StepWorker;
  }

  lemma BridgeWrite(cfg: Config, sh: Shared, p: nat, b: BridgePc, status: ProposalStatus, actionId: Option<nat>,
                    ch: Choice)
    requires if actionId.Some? then b == CancelRecover(actionId.value) && status == Confirmed
             else b == CancelWrite && status == Cancelled
    requires TransitionProposal(sh.tables, p, Pending, status, actionId).Some?
    ensures ClientStep(cfg, sh, Client(InBridge(p, b), Direct), ch).shared.tables
            == TransitionProposal(sh.tables, p, Pending, status, actionId).value
  {
    hide TransitionProposal, StepSubmit, StepAuthorize, StepAction, StepWorker;
  }

  lemma PendingNamesNothing(cfg: Config, sh: Shared, p: nat, context: Confirmation)
    requires SharedOk(cfg, sh) && Cancellable(sh.tables, p, context)
    ensures p in sh.tables.proposals && sh.tables.proposals[p].actionId == None
  {
    hide KeysOk, LogsLegal, OutboxOk, VersionsOk, LedgerOk, CallsOk;
  }

  /** A lookup by key finds an action exactly when one carries the key. */
  lemma Lookup(cfg: Config, sh: Shared, key: Name)
    requires SharedOk(cfg, sh)
    ensures FindByKey(sh.tables, key).Some? <==> Carried(sh.tables.actions, key)
    ensures key in sh.tables.keyIndex <==> Carried(sh.tables.actions, key)
    ensures FindByKey(sh.tables, key).Some? ==>
              var id := FindByKey(sh.tables, key).value.id;
              id in sh.tables.actions && sh.tables.actions[id].command.key == key
  {
    hide LogsLegal, OutboxOk, ProposalsOk, VersionsOk, LedgerOk, CallsOk;
    if key in sh.tables.keyIndex { assert sh.tables.keyIndex[key] in sh.tables.actions; }
  }

  lemma RecoverEffect(t: Tables, p: nat, context: Confirmation, id: nat)
    requires Cancellable(t, p, context) && id in t.actions && t.actions[id].command.key == t.proposals[p].offer.key
    ensures TransitionProposal(t, p, Pending, Confirmed, Some(id)).Some?
    ensures CancelEffect(t, p, context, TransitionProposal(t, p, Pending, Confirmed, Some(id)).value)
  {
    assert Carried(t.actions, t.proposals[p].offer.key);
  }

  lemma CancelledEffect(t: Tables, p: nat, context: Confirmation)
    requires Cancellable(t, p, context) && !Carried(t.actions, t.proposals[p].offer.key)
    requires t.proposals[p].actionId == None
    ensures TransitionProposal(t, p, Pending, Cancelled, None).Some?
    ensures CancelEffect(t, p, context, TransitionProposal(t, p, Pending, Cancelled, None).value)
  {
  }

  /**
    A cancel that runs without interruption confirms a proposal whose action already
    exists and cancels one only when, at the instant of the write, no action carries its key.
   */
  lemma AtomicCancel(w: World, moves: seq<Move>, c: nat, p: nat, context: Confirmation, ch: Choice)
    requires Initial(w) && c !in Run(w, moves).clients
    ensures var w1 := Run(w, moves);
            CancelEffect(w1.shared.tables, p, context,
                         Run(Apply(w1, Spawn(c, Cancel(p, context))), Steps(c, ch, 3)).shared.tables)
  {
    hide Initial, Run, Steps, Solo, CancelEffect, SharedOk, ClientsOk, OwnersDistinct;
    ReachableInv(w, moves);
    var w1 := Run(w, moves);
    SoloCancel(w1.cfg, w1.shared, p, context, ch);
    SoloRun(Apply(w1, Spawn(c, Cancel(p, context))), c, ch, 3);
  }

  // ---- An interleaved cancel ----

  predicate Leaves(m: Move, c: nat) {
    !(m.Step? && m.client == c) && m != Crash(c)
  }

  /** Some move of the run inserts an action under the key. */
  ghost predicate AuthorizedDuring(w: World, moves: seq<Move>, key: Name)
    decreases |moves|
  {
    moves != [] && (Authorizes(w, moves[0], key) || AuthorizedDuring(Apply(w, moves[0]), moves[1..], key))
  }

  /** A client inserts under the key: its case is at the version it has seen and its new ids are fresh. */
  predicate Authorizes(w: World, m: Move, key: Name) {
    && AtStage(w, m, Inserting)
    && var c, t := w.clients[m.client].pc.command, w.shared.tables;
       && c.key == key && c.caseId in t.cases && t.cases[c.caseId].version == w.clients[m.client].pc.version
       && m.choice.id !in t.actions && m.choice.outboxId !in t.outbox
  }

  lemma KeysMove(w: World, m: Move, key: Name)
    requires key !in w.shared.tables.keyIndex
    ensures key in Apply(w, m).shared.tables.keyIndex <==> Authorizes(w, m, key)
  {
    OnlyInsertAddsKeys(w, m);
    if AtStage(w, m, Inserting) { hide StepSubmit, StepAction, StepBridge, StepWorker; } else { hide Apply; }
  }

  lemma {:induction false} KeyTakenDuring(w: World, moves: seq<Move>, key: Name)
    requires Inv(w) && key !in w.shared.tables.keyIndex
    ensures key in Run(w, moves).shared.tables.keyIndex <==> AuthorizedDuring(w, moves, key)
    decreases |moves|
  {
    hide Apply, Inv, Authorizes, Evolves;
    if moves != [] {
      KeysMove(w, moves[0], key);
      MoveKept(w, moves[0]);
      if Authorizes(w, moves[0], key) {
        RunKept(Apply(w, moves[0]), moves[1..]);
        KeyStays(Apply(w, moves[0]), Run(w, moves), key);
      } else {
        KeyTakenDuring(Apply(w, moves[0]), moves[1..], key);
      }
    }
  }

  lemma KeyStays(w: World, w': World, key: Name)
    requires Inv(w) && Kept(w, w') && key in w.shared.tables.keyIndex
    ensures key in w'.shared.tables.keyIndex
  {
    hide LogsLegal, OutboxOk, ProposalsOk, VersionsOk, LedgerOk, CallsOk, ClientsOk, OwnersDistinct;
    assert w.shared.tables.keyIndex[key] in w'.shared.tables.actions;
  }

  lemma {:induction false} LeftAlone(w: World, moves: seq<Move>, c: nat)
    requires c in w.clients && forall i :: 0 <= i < |moves| ==> Leaves(moves[i], c)
    ensures c in Run(w, moves).clients && Run(w, moves).clients[c] == w.clients[c]
    decreases |moves|
  {
    hide ClientStep, Environment, Start;
    if moves != [] { LeftAlone(Apply(w, moves[0]), moves[1..], c); }
  }

  /**
    A cancel that has seen no action and is then overtaken by other moves leaves an action
    behind exactly when one of those moves authorized an action under the proposal's key.
   */
  lemma InterleavedCancel(w: World, before: seq<Move>, moves: seq<Move>, c: nat, p: nat, key: Name, ch: Choice)
    requires Initial(w) && c in Run(w, before).clients
    requires Run(w, before).clients[c] == Client(InBridge(p, CancelWrite), Direct)
    requires !Carried(Run(w, before).shared.tables.actions, key) && forall i :: 0 <= i < |moves| ==> Leaves(moves[i], c)
    requires StillPending(Run(Run(w, before), moves).shared.tables, p, key)
    ensures var t' := Apply(Run(Run(w, before), moves), Step(c, ch)).shared.tables;
            && p in t'.proposals && t'.proposals[p].status == Cancelled
            && (Carried(t'.actions, key) <==> AuthorizedDuring(Run(w, before), moves, key))
  {
    hide Run, Inv, AuthorizedDuring, Carried, Apply, Initial, Evolves;
    ReachableInv(w, before);
    var w1 := Run(w, before);
    LeftAlone(w1, moves, c);
    CarriedLater(w1, moves, key);
    LateCancel(Run(w1, moves), c, p, key, ch);
  }

  predicate StillPending(t: Tables, p: nat, key: Name) {
    p in t.proposals && t.proposals[p].status == Pending && t.proposals[p].offer.key == key
  }

  lemma LateCancel(w: World, c: nat, p: nat, key: Name, ch: Choice)
    requires c in w.clients && w.clients[c] == Client(InBridge(p, CancelWrite), Direct)
    requires StillPending(w.shared.tables, p, key)
    ensures var t' := Apply(w, Step(c, ch)).shared.tables;
            p in t'.proposals && t'.proposals[p].status == Cancelled && t'.actions == w.shared.tables.actions
  {
    hide StepSubmit, StepAuthorize, StepAction, StepWorker;
    hide ConfirmReadTx, ConfirmVerifyTx, CancelReadTx, CancelLookupTx, StatusReadTx;
  }

  lemma InvLookup(w: World, key: Name)
    requires Inv(w)
    ensures key in w.shared.tables.keyIndex <==> Carried(w.shared.tables.actions, key)
  {
    hide SharedOk, ClientsOk, OwnersDistinct;
    Lookup(w.cfg, w.shared, key);
  }

  // ---- After the write ----

  /** From any state without an action under the key, one appears exactly when a client inserts it. */
  lemma CarriedLater(w: World, later: seq<Move>, key: Name)
    requires Inv(w) && !Carried(w.shared.tables.actions, key)
    ensures Carried(Run(w, later).shared.tables.actions, key) <==> AuthorizedDuring(w, later, key)
  {
    hide Run, Inv, AuthorizedDuring, Carried, Evolves;
    InvLookup(w, key);
    KeyTakenDuring(w, later, key);
    RunKept(w, later);
    InvLookup(Run(w, later), key);
  }

  /** The state in which an uninterrupted cancel leaves the system. */
  ghost function AfterCancel(w: World, before: seq<Move>, c: nat, p: nat, context: Confirmation, ch: Choice): World {
    Run(Apply(Run(w, before), Spawn(c, Cancel(p, context))), Steps(c, ch, 3))
  }

  /**
    A proposal that an uninterrupted cancel has CANCELLED has no action then, and has one
    after any continuation exactly when that continuation inserts one under its key.
   */
  lemma CancelThenInsert(w: World, before: seq<Move>, c: nat, p: nat, context: Confirmation, ch: Choice,
                         later: seq<Move>)
    requires Initial(w) && c !in Run(w, before).clients && Cancellable(Run(w, before).shared.tables, p, context)
    requires var key := Run(w, before).shared.tables.proposals[p].offer.key;
             !Carried(Run(w, before).shared.tables.actions, key)
    ensures var key := Run(w, before).shared.tables.proposals[p].offer.key;
            var after := AfterCancel(w, before, c, p, context, ch);
            && p in after.shared.tables.proposals && after.shared.tables.proposals[p].status == Cancelled
            && !Carried(after.shared.tables.actions, key)
            && (Carried(Run(after, later).shared.tables.actions, key) <==> AuthorizedDuring(after, later, key))
  {
    hide Run, Inv, AuthorizedDuring, Carried, Initial, Evolves, Steps;
    var w1, key := Run(w, before), Run(w, before).shared.tables.proposals[p].offer.key;
    var after := AfterCancel(w, before, c, p, context, ch);
    AtomicCancel(w, before, c, p, context, ch);
    ReachableInv(w, before);
    MoveKept(w1, Spawn(c, Cancel(p, context)));
    RunKept(Apply(w1, Spawn(c, Cancel(p, context))), Steps(c, ch, 3));
    CarriedLater(after, later, key);
  }
}

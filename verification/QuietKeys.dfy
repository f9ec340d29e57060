/**
  When a cancelled proposal stays without an action: a condition on the clients at the
  cancel's write and on the calls that start later.
 */
module QuietKeys {
  import opened Domain
  import opened CoreTables
  import opened Provider
  import opened Protocol
  import opened ProtocolInvariant
  import opened ProtocolSafety
  import opened ProtocolWriters
  import opened SoloRuns
  import opened Delivery
  import opened Cancellation

  /** The proposal is open for confirmation under the key. */
  predicate OpenUnder(ps: map<nat, Proposal>, p: nat, key: Name) {
    p in ps && ps[p].status == Pending && ps[p].offer.key == key
  }

  /** A call that may still insert an action under the key. */
  predicate Bears(ps: map<nat, Proposal>, cl: Client, key: Name) {
    match cl.pc
    case InSubmit(r, _) => r.key == key
    case InAuthorize(c, _, _) => c.key == key
    case InBridge(p, b) =>
      if b.ConfirmVerify? then b.offer.key == key else b.ConfirmRead? && OpenUnder(ps, p, key)
    case _ => false
  }

  ghost predicate Quiet(w: World, key: Name) {
    forall c :: c in w.clients ==> !Bears(w.shared.tables.proposals, w.clients[c], key)
  }

  predicate AboutToRead(cl: Client, p: nat) {
    cl.pc.InBridge? && cl.pc.bridge.ConfirmRead? && cl.pc.proposal == p
  }

  /**
    A submission or a confirmation under the key starts, or a proposal appears that a confirmation
    is waiting to read.
   */
  ghost predicate Brings(w: World, m: Move, key: Name) {
    match m
    case Spawn(_, Submit(r)) => r.key == key
    case Spawn(_, Confirm(p, _)) => OpenUnder(w.shared.tables.proposals, p, key)
    case Propose(p, offer) => offer.key == key && exists c :: c in w.clients && AboutToRead(w.clients[c], p)
    case _ => false
  }

  ghost predicate NeverBrings(w: World, moves: seq<Move>, key: Name)
    decreases |moves|
  {
    moves != [] ==> !Brings(w, moves[0], key) && NeverBrings(Apply(w, moves[0]), moves[1..], key)
  }

  // ---- No step takes up the key ----

  lemma SubmitQuiet(cfg: Config, sh: Shared, cl: Client, ch: Choice, key: Name, ps: map<nat, Proposal>)
    requires cl.pc.InSubmit? && cl.pc.request.key != key
    ensures !Bears(ps, StepSubmit(cfg, sh, cl, ch).client, key)
  {
    hide SameRequest, FindByKey, UpstreamAgrees, Normalize, Authoritative, CreateCase, AppendFact;
  }

  lemma AuthorizeQuiet(cfg: Config, sh: Shared, cl: Client, ch: Choice, key: Name, ps: map<nat, Proposal>)
    requires cl.pc.InAuthorize? && cl.pc.command.key != key
    ensures !Bears(ps, StepAuthorize(cfg, sh, cl, ch).client, key)
  {
    hide FindByKey, SpecificationMet, FactAgrees, InsertAction;
  }

  lemma BridgeQuiet(cfg: Config, sh: Shared, cl: Client, ch: Choice, key: Name, ps: map<nat, Proposal>)
    requires cl.pc.InBridge? && !Bears(sh.tables.proposals, cl, key)
    ensures !Bears(ps, StepBridge(cfg, sh, cl, ch).client, key)
  {
    hide FindByKey, Owns, ResourceUnchanged, BindingUnchanged, EvidenceGiven;
  }

  lemma WorkerQuiet(cfg: Config, sh: Shared, cl: Client, ch: Choice, key: Name, ps: map<nat, Proposal>)
    requires cl.pc.InWorker?
    ensures !Bears(ps, StepWorker(cfg, sh, cl, ch).client, key)
  {
    hide DueBatch, LeaseRows, ReadRows, Reordered, SettleRow;
  }

  lemma StepQuiet(cfg: Config, sh: Shared, cl: Client, ch: Choice, key: Name, ps: map<nat, Proposal>)
    requires !Bears(sh.tables.proposals, cl, key)
    ensures !Bears(ps, ClientStep(cfg, sh, cl, ch).client, key)
  {
    hide StepSubmit, StepAuthorize, StepAction, StepBridge, StepWorker;
    match cl.pc
    case InSubmit(_, _) => SubmitQuiet(cfg, sh, cl, ch, key, ps);
    case InAuthorize(_, _, _) => AuthorizeQuiet(cfg, sh, cl, ch, key, ps);
    case InAction(_, _) => ActionExits(cfg, sh, cl, ch);
    case InBridge(_, _) => BridgeQuiet(cfg, sh, cl, ch, key, ps);
    case InWorker(_) => WorkerQuiet(cfg, sh, cl, ch, key, ps);
    case Done =>
  }

  // ---- No move takes up the key ----

  /** Only `Propose` adds a proposal. */
  lemma ProposalsStay(w: World, m: Move)
    requires !m.Propose?
    ensures Apply(w, m).shared.tables.proposals.Keys == w.shared.tables.proposals.Keys
  {
    OnlyBridgeWritesProposals(w, m);
    if AtStage(w, m, WritesProposal) {
      hide StepSubmit, StepAuthorize, StepAction, StepBridge, StepWorker;
      BridgeWrites(w.cfg, w.shared, w.clients[m.client], m.choice);
    } else {
      hide Apply;
    }
  }

  /** A client that did not bear the key does not come to bear it by what others write. */
  lemma StaysQuiet(w: World, m: Move, cl: Client, key: Name)
    requires !Bears(w.shared.tables.proposals, cl, key) && !Brings(w, m, key)
    requires ProposalsEvolve(w.shared.tables.proposals, Apply(w, m).shared.tables.proposals)
    requires exists c :: c in w.clients && w.clients[c] == cl
    ensures !Bears(Apply(w, m).shared.tables.proposals, cl, key)
  {
    if m.Propose? {
      hide ClientStep, Start;
      assert cl.pc.InBridge? && cl.pc.bridge.ConfirmRead? ==> AboutToRead(cl, cl.pc.proposal);
    } else {
      hide Apply;
      ProposalsStay(w, m);
    }
  }

  lemma MoveQuiet(w: World, m: Move, key: Name)
    requires Inv(w) && Quiet(w, key) && !Brings(w, m, key)
    ensures Quiet(Apply(w, m), key)
  {
    hide Inv, ClientStep, Bears, Brings, Environment;
    MoveKept(w, m);
    var w' := Apply(w, m);
    var ps' := w'.shared.tables.proposals;
    forall c | c in w.clients ensures !Bears(ps', w.clients[c], key) { StaysQuiet(w, m, w.clients[c], key); }
    if m.Step? && m.client in w.clients {
      StepQuiet(w.cfg, w.shared, w.clients[m.client], m.choice, key, ps');
    }
    if m.Spawn? && m.client !in w.clients { SpawnQuiet(w, m, key); }
  }

  lemma SpawnQuiet(w: World, m: Move, key: Name)
    requires m.Spawn? && !Brings(w, m, key)
    ensures !Bears(w.shared.tables.proposals, Start(w.shared.tables, m.program), key)
  {
  }

  lemma QuietInsertsNothing(w: World, m: Move, key: Name)
    requires Quiet(w, key) && key !in w.shared.tables.keyIndex
    ensures key !in Apply(w, m).shared.tables.keyIndex
  {
    hide Apply;
    KeysMove(w, m, key);
  }

  lemma {:induction false} QuietRun(w: World, moves: seq<Move>, key: Name)
    requires Inv(w) && Quiet(w, key) && key !in w.shared.tables.keyIndex && NeverBrings(w, moves, key)
    ensures key !in Run(w, moves).shared.tables.keyIndex
    decreases |moves|
  {
    hide Inv, Quiet, Brings, Apply, Evolves;
    if moves != [] {
      MoveKept(w, moves[0]);
      MoveQuiet(w, moves[0], key);
      QuietInsertsNothing(w, moves[0], key);
      QuietRun(Apply(w, moves[0]), moves[1..], key);
    }
  }

  /** A key that no client bears and no later call brings stays without an action. */
  lemma QuietKeyStaysFree(w: World, before: seq<Move>, later: seq<Move>, key: Name)
    requires Initial(w) && Quiet(Run(w, before), key) && !Carried(Run(w, before).shared.tables.actions, key)
    requires NeverBrings(Run(w, before), later, key)
    ensures !Carried(Run(Run(w, before), later).shared.tables.actions, key)
  {
    hide Initial, Run, Inv, Quiet, NeverBrings, Carried, Evolves;
    var w1 := Run(w, before);
    ReachableInv(w, before);
    InvLookup(w1, key);
    QuietRun(w1, later, key);
    RunKept(w1, later);
    InvLookup(Run(w1, later), key);
  }

  /**
    Cancelled for good: if an uninterrupted cancel finds no action and leaves no client
    bearing the key, and no submission or confirmation under the key starts later, then the
    proposal is CANCELLED and no action ever carries its key.
   */
  lemma CancelledForGood(w: World, before: seq<Move>, c: nat, p: nat, context: Confirmation, ch: Choice,
                         later: seq<Move>)
    requires Initial(w) && c !in Run(w, before).clients && Cancellable(Run(w, before).shared.tables, p, context)
    requires var key := Run(w, before).shared.tables.proposals[p].offer.key;
             var after := AfterCancel(w, before, c, p, context, ch);
             && !Carried(Run(w, before).shared.tables.actions, key)
             && Quiet(after, key) && NeverBrings(after, later, key)
    ensures var end := Run(AfterCancel(w, before, c, p, context, ch), later).shared.tables;
            && p in end.proposals && end.proposals[p].status == Cancelled
            && !Carried(end.actions, end.proposals[p].offer.key)
  {
    hide Initial, Run, Inv, Quiet, NeverBrings, Carried, Steps, AuthorizedDuring, AfterCancel;
    var w1 := Run(w, before);
    var key, after := w1.shared.tables.proposals[p].offer.key, AfterCancel(w, before, c, p, context, ch);
    CancelThenInsert(w, before, c, p, context, ch, later);
    AfterCancelKept(w, before, c, p, context, ch);
    InvLookup(after, key);
    QuietRun(after, later, key);
    RunKept(after, later);
    InvLookup(Run(after, later), key);
  }

  lemma AfterCancelKept(w: World, before: seq<Move>, c: nat, p: nat, context: Confirmation, ch: Choice)
    requires Initial(w)
    ensures Inv(AfterCancel(w, before, c, p, context, ch))
    ensures Evolves(Run(w, before).shared, AfterCancel(w, before, c, p, context, ch).shared)
  {
    hide Initial, Run, Inv, Steps, Evolves;
    var w1 := Run(w, before);
    ReachableInv(w, before);
    MoveKept(w1, Spawn(c, Cancel(p, context)));
    var w2 := Apply(w1, Spawn(c, Cancel(p, context)));
    RunKept(w2, Steps(c, ch, 3));
    EvolvesTransitive(w1.shared, w2.shared, AfterCancel(w, before, c, p, context, ch).shared);
  }
}

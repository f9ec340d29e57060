/**
  What an inserted action is stamped with, and that the stamp lets it through: the enabled
  binding and the activation signature of the active package, both as they stood when its
  own call looked, and neither ever stands in the way of the dispatch.
 */
module Stamping {
  import opened Domain
  import opened CoreTables
  import opened Provider
  import opened Protocol
  import opened ProtocolInvariant
  import opened ProtocolSafety
  import opened ProtocolWriters
  import opened Delivery
  import opened Guards
  import Policy

  // ---- The stamp, in the words of the stores it was taken from ----

  /** The binding is the one enabled for the action. */
  predicate BoundIn(sh: Shared, action: ActionName, binding: BindingRef) {
    action in sh.bindings && sh.bindings[action] == binding
  }

  /**
    The stored package is active and verifies, is of the case's procedure, permits the action and
    bears the signature.
   */
  predicate SignedIn(sh: Shared, packageId: Name, caseId: Name, action: ActionName, signature: Option<Signature>) {
    && packageId in sh.policy.rows && caseId in sh.tables.cases
    && var p := sh.policy.rows[packageId].package;
       && p.body.lifecycle.Active? && Policy.Verify(sh.policy.signer, p)
       && p.body.procedureId == sh.tables.cases[caseId].procedureId
       && (p.body.rules.allowed.Listed? ==> action in p.body.rules.allowed.actions)
       && p.activationSignature == signature
  }

  predicate StampedIn(cfg: Config, sh: Shared, c: Command) {
    && BoundIn(sh, c.action, c.binding)
    && if cfg.governed then SignedIn(sh, c.policyPackageId, c.caseId, c.action, c.activationSignature)
       else c.activationSignature == None
  }

  ghost predicate WasStamped(cfg: Config, past: set<Shared>, c: Command) {
    exists sh :: sh in past && StampedIn(cfg, sh, c)
  }

  /** A command under way has been stamped since the call began, or is still to be and bears no signature. */
  ghost predicate StampOf(cfg: Config, past: set<Shared>, cl: Client) {
    cl.pc.InAuthorize? ==>
      if cl.pc.authorize.Stamp? then cl.pc.command.activationSignature == None else WasStamped(cfg, past, cl.pc.command)
  }

  // ---- Steps ----

  lemma StampStamps(cfg: Config, sh: Shared, cl: Client, ch: Choice, c: Command, v: int, past: set<Shared>)
    requires sh in past && c.activationSignature == None
    ensures StampOf(cfg, past, StampTx(cfg, sh, cl, ch, c, v).client)
  {
    hide Policy.Verify;
    var cl' := StampTx(cfg, sh, cl, ch, c, v).client;
    if cl'.pc.InAuthorize? { assert StampedIn(cfg, sh, cl'.pc.command); }
  }

  lemma AuthorizeStamps(cfg: Config, sh: Shared, cl: Client, ch: Choice, past: set<Shared>)
    requires sh in past && cl.pc.InAuthorize? && StampOf(cfg, past, cl)
    ensures StampOf(cfg, past, StepAuthorize(cfg, sh, cl, ch).client)
  {
    if cl.pc.authorize.Stamp? {
      hide FindKeyTx, CheckFactsTx, InsertTx, StampTx;
      StampStamps(cfg, sh, cl, ch, cl.pc.command, cl.pc.version, past);
    } else {
      hide StampTx, FindByKey, SpecificationMet, FactAgrees, InsertAction, WasStamped;
    }
  }

  lemma SubmitStamps(cfg: Config, sh: Shared, cl: Client, ch: Choice, past: set<Shared>)
    requires cl.pc.InSubmit?
    ensures StampOf(cfg, past, StepSubmit(cfg, sh, cl, ch).client)
  {
    hide SameRequest, FindByKey, UpstreamAgrees, Normalize, Authoritative, CreateCase, AppendFact;
  }

  lemma BridgeStamps(cfg: Config, sh: Shared, cl: Client, ch: Choice)
    requires cl.pc.InBridge?
    ensures !StepBridge(cfg, sh, cl, ch).client.pc.InAuthorize?
  {
    hide FindByKey, Owns, ResourceUnchanged, BindingUnchanged, EvidenceGiven, RequestFor;
  }

  lemma WorkerStamps(cfg: Config, sh: Shared, cl: Client, ch: Choice)
    requires cl.pc.InWorker?
    ensures !StepWorker(cfg, sh, cl, ch).client.pc.InAuthorize?
  {
    hide DueBatch, LeaseRows, ReadRows, Reordered, SettleRow;
  }

  lemma StepStamps(cfg: Config, sh: Shared, cl: Client, ch: Choice, past: set<Shared>)
    requires sh in past && StampOf(cfg, past, cl)
    ensures StampOf(cfg, past, ClientStep(cfg, sh, cl, ch).client)
  {
    hide StepSubmit, StepAuthorize, StepAction, StepBridge, StepWorker, WasStamped;
    match cl.pc
    case InSubmit(_, _) => SubmitStamps(cfg, sh, cl, ch, past);
    case InAuthorize(_, _, _) => AuthorizeStamps(cfg, sh, cl, ch, past);
    case InAction(_, _) => ActionExits(cfg, sh, cl, ch);
    case InBridge(_, _) => BridgeStamps(cfg, sh, cl, ch);
    case InWorker(_) => WorkerStamps(cfg, sh, cl, ch);
    case Done =>
  }

  lemma MoreStamps(cfg: Config, past: set<Shared>, more: set<Shared>, cl: Client)
    requires StampOf(cfg, past, cl) && past <= more
    ensures StampOf(cfg, more, cl)
  {
    hide StampedIn;
  }

  // ---- One call ----

  ghost predicate CallStamped(past: set<Shared>, w: World, c: nat) {
    w.shared in past && c in w.clients && StampOf(w.cfg, past, w.clients[c])
  }

  lemma MoveStamps(past: set<Shared>, w: World, m: Move, c: nat)
    requires CallStamped(past, w, c) && m != Crash(c)
    ensures CallStamped(past + {Apply(w, m).shared}, Apply(w, m), c)
  {
    hide StampOf, ClientStep, Environment, Start;
    if m.Step? && m.client == c { StepStamps(w.cfg, w.shared, w.clients[c], m.choice, past); }
    MoreStamps(w.cfg, past, past + {Apply(w, m).shared}, Apply(w, m).clients[c]);
  }

  lemma {:induction false} RunStamps(past: set<Shared>, w: World, moves: seq<Move>, c: nat)
    requires CallStamped(past, w, c) && Spared(moves, c)
    ensures CallStamped(past + Past(w, moves), Run(w, moves), c)
    decreases |moves|
  {
    hide StampOf, Apply;
    if moves == [] {
      assert past + Past(w, moves) == past;
    } else {
      var w1 := Apply(w, moves[0]);
      MoveStamps(past, w, moves[0], c);
      RunStamps(past + {w1.shared}, w1, moves[1..], c);
      PastHead(w1, moves[1..]);
      assert past + {w1.shared} + Past(w1, moves[1..]) == past + Past(w, moves);
    }
  }

  lemma StartUnstamped(cfg: Config, past: set<Shared>, t: Tables, program: Program)
    ensures StampOf(cfg, past, Start(t, program))
  {
  }

  lemma {:induction false} SameConfig(w: World, moves: seq<Move>)
    ensures Run(w, moves).cfg == w.cfg
    decreases |moves|
  {
    hide ClientStep, Environment, Start;
    if moves != [] { SameConfig(Apply(w, moves[0]), moves[1..]); }
  }

  /** The stored action that a step of the call adds. */
  ghost predicate Adds(w: World, c: nat, ch: Choice, id: nat) {
    id !in w.shared.tables.actions && id in Apply(w, Step(c, ch)).shared.tables.actions
  }

  lemma AddedCommand(w: World, c: nat, ch: Choice, id: nat)
    requires Adds(w, c, ch, id)
    ensures c in w.clients && Inserting(w.clients[c].pc)
    ensures Apply(w, Step(c, ch)).shared.tables.actions[id] == Action(w.clients[c].pc.command, Authorized)
  {
    OnlyInsertAdds(w, Step(c, ch));
    hide StepSubmit, StepAction, StepBridge, StepWorker;
  }

  /**
    Whatever the request carried, the action a call adds to the store bears a binding that
    was enabled for its action, and the signature of a package that was active, of the
    case's procedure and permitting the action, in one and the same state since the call
    began.
   */
  lemma InsertedActionIsStamped(w: World, before: seq<Move>, c: nat, program: Program, moves: seq<Move>, ch: Choice,
                                id: nat)
    requires c !in Run(w, before).clients && Spared(moves, c)
    requires Adds(Run(Called(w, before, c, program), moves), c, ch, id)
    ensures var start := Called(w, before, c, program);
            WasStamped(w.cfg, Past(start, moves),
                       Apply(Run(start, moves), Step(c, ch)).shared.tables.actions[id].command)
  {
    hide Run, Past, Start, WasStamped, Apply, Adds;
    var w1 := Run(w, before);
    SpawnStamped(w1, c, program);
    SameConfig(w, before);
    var start := Called(w, before, c, program);
    RunStamps({start.shared}, start, moves, c);
    PastHead(start, moves);
    assert {start.shared} + Past(start, moves) == Past(start, moves);
    SameConfig(start, moves);
    AddedCommand(Run(start, moves), c, ch, id);
  }

  lemma SpawnStamped(w: World, c: nat, program: Program)
    requires c !in w.clients
    ensures var start := Apply(w, Spawn(c, program)); CallStamped({start.shared}, start, c) && start.cfg == w.cfg
  {
    hide Start, StampOf;
    var start := Apply(w, Spawn(c, program));
    StartUnstamped(w.cfg, {start.shared}, w.shared.tables, program);
  }

  // ---- The stamp never stands in the way ----

  /** The command carries a signature that the dispatch-time check accepts. */
  predicate Cleared(policy: Policy.State, c: Command) {
    c.activationSignature.Some? && PolicyAllows(policy, c)
  }

  /** Every action, and every command that is past its stamping, is cleared. */
  ghost predicate AllCleared(policy: Policy.State, acts: map<nat, Action>, clients: map<nat, Client>) {
    && (forall id :: id in acts ==> Cleared(policy, acts[id].command))
    && (forall c :: c in clients ==> ClientCleared(policy, clients[c]))
  }

  predicate ClientCleared(policy: Policy.State, cl: Client) {
    cl.pc.InAuthorize? && !cl.pc.authorize.Stamp? ==> Cleared(policy, cl.pc.command)
  }

  ghost predicate ClearInv(w: World) {
    && Policy.Inv(w.shared.policy)
    && (w.cfg.governed ==> AllCleared(w.shared.policy, w.shared.tables.actions, w.clients))
  }

  lemma ClearedStays(s1: Policy.State, s2: Policy.State, c: Command)
    requires Policy.Inv(s1) && Policy.Inv(s2) && Policy.Evolves(s1.rows, s2.rows) && Cleared(s1, c)
    ensures Cleared(s2, c)
  {
    hide Policy.Inv, Policy.Evolves, Policy.RequireSnapshot;
    Policy.SnapshotHolds(s1, s2, c.policyPackageId, c.activationSignature.value);
  }

  lemma StampClears(cfg: Config, sh: Shared, cl: Client, ch: Choice, c: Command, v: int)
    requires cfg.governed && Policy.Inv(sh.policy)
    ensures ClientCleared(sh.policy, StampTx(cfg, sh, cl, ch, c, v).client)
  {
    hide Policy.Inv, Policy.RequireActive, Policy.RequireSnapshot;
    var id := c.policyPackageId;
    if Policy.RequireActive(sh.policy, id).Some? { Policy.ActiveIsSnapshot(sh.policy, id); }
  }

  lemma AuthorizeClears(cfg: Config, sh: Shared, cl: Client, ch: Choice)
    requires cfg.governed && Policy.Inv(sh.policy) && cl.pc.InAuthorize? && ClientCleared(sh.policy, cl)
    ensures ClientCleared(sh.policy, StepAuthorize(cfg, sh, cl, ch).client)
  {
    hide Policy.Inv, PolicyAllows;
    if cl.pc.authorize.Stamp? {
      hide FindKeyTx, CheckFactsTx, InsertTx, StampTx;
      StampClears(cfg, sh, cl, ch, cl.pc.command, cl.pc.version);
    } else {
      hide StampTx, FindByKey, SpecificationMet, FactAgrees, InsertAction;
    }
  }

  lemma SubmitClears(cfg: Config, sh: Shared, cl: Client, ch: Choice)
    requires cl.pc.InSubmit?
    ensures ClientCleared(sh.policy, StepSubmit(cfg, sh, cl, ch).client)
  {
    hide SameRequest, FindByKey, UpstreamAgrees, Normalize, Authoritative;
    hide CreateCase, AppendFact, BuildCommand, Cleared;
  }

  lemma StepClears(cfg: Config, sh: Shared, cl: Client, ch: Choice)
    requires cfg.governed && Policy.Inv(sh.policy) && ClientCleared(sh.policy, cl)
    ensures ClientCleared(sh.policy, ClientStep(cfg, sh, cl, ch).client)
  {
    hide StepSubmit, StepAuthorize, StepAction, StepBridge, StepWorker, Policy.Inv, Cleared;
    match cl.pc
    case InSubmit(_, _) => SubmitClears(cfg, sh, cl, ch);
    case InAuthorize(_, _, _) => AuthorizeClears(cfg, sh, cl, ch);
    case InAction(_, _) => ActionExits(cfg, sh, cl, ch);
    case InBridge(_, _) => BridgeStamps(cfg, sh, cl, ch);
    case InWorker(_) => WorkerStamps(cfg, sh, cl, ch);
    case Done =>
  }

  /** Client steps leave the policy service alone. */
  lemma PolicySteady(cfg: Config, sh: Shared, cl: Client, ch: Choice)
    ensures ClientStep(cfg, sh, cl, ch).shared.policy == sh.policy
  {
    hide StepSubmit, StepAction, StepBridge, StepWorker;
    match cl.pc
    case InSubmit(_, _) => SubmitWrites(cfg, sh, cl, ch);
    case InAuthorize(_, _, s) => if !s.Insert? { AuthorizeWrites(cfg, sh, cl, ch); }
    case InAction(_, _) => ActionWrites(cfg, sh, cl, ch);
    case InBridge(_, _) => BridgeWrites(cfg, sh, cl, ch);
    case InWorker(_) => WorkerWrites(cfg, sh, cl, ch);
    case Done =>
  }

  lemma PolicyMove(w: World, m: Move)
    requires Policy.Inv(w.shared.policy)
    ensures Policy.Inv(Apply(w, m).shared.policy)
    ensures Policy.Evolves(w.shared.policy.rows, Apply(w, m).shared.policy.rows)
  {
    hide ClientStep, Policy.Inv, Policy.Evolves, Policy.Next, Start;
    Policy.EvolvesReflexive(w.shared.policy.rows);
    if m.Step? && m.client in w.clients { PolicySteady(w.cfg, w.shared, w.clients[m.client], m.choice); }
    if m.Govern? && Policy.Next(w.shared.policy, m.call, m.next) { Policy.NextKeeps(w.shared.policy, m.call, m.next); }
  }

  lemma StartCleared(policy: Policy.State, t: Tables, program: Program)
    ensures ClientCleared(policy, Start(t, program))
  {
  }

  lemma OldActionsCleared(w: World, m: Move, id: nat)
    requires Inv(w) && ClearInv(w) && w.cfg.governed && id in w.shared.tables.actions
    ensures id in Apply(w, m).shared.tables.actions
    ensures Cleared(Apply(w, m).shared.policy, Apply(w, m).shared.tables.actions[id].command)
  {
    hide Inv, Apply, Policy.Inv, Policy.Evolves, Cleared;
    MoveKept(w, m);
    PolicyMove(w, m);
    ClearedStays(w.shared.policy, Apply(w, m).shared.policy, w.shared.tables.actions[id].command);
  }

  lemma NewActionCleared(w: World, m: Move, id: nat)
    requires ClearInv(w) && w.cfg.governed && id !in w.shared.tables.actions && id in Apply(w, m).shared.tables.actions
    ensures Cleared(Apply(w, m).shared.policy, Apply(w, m).shared.tables.actions[id].command)
  {
    hide Apply, Policy.Inv, Policy.Evolves, Cleared;
    OnlyInsertAdds(w, m);
    PolicyMove(w, m);
    AddedCommand(w, m.client, m.choice, id);
    ClearedStays(w.shared.policy, Apply(w, m).shared.policy, w.clients[m.client].pc.command);
  }

  lemma ClientsCleared(w: World, m: Move, c: nat)
    requires ClearInv(w) && w.cfg.governed && c in Apply(w, m).clients
    ensures ClientCleared(Apply(w, m).shared.policy, Apply(w, m).clients[c])
  {
    hide ClientStep, Environment, Start, Policy.Inv, Policy.Evolves, Cleared;
    PolicyMove(w, m);
    if m.Step? && m.client == c && c in w.clients {
      StepClears(w.cfg, w.shared, w.clients[c], m.choice);
      PolicySteady(w.cfg, w.shared, w.clients[c], m.choice);
    } else if m.Spawn? && m.client == c && c !in w.clients {
      StartCleared(w.shared.policy, w.shared.tables, m.program);
    } else if w.clients[c].pc.InAuthorize? && !w.clients[c].pc.authorize.Stamp? {
      ClearedStays(w.shared.policy, Apply(w, m).shared.policy, w.clients[c].pc.command);
    }
  }

  lemma MoveClears(w: World, m: Move)
    requires Inv(w) && ClearInv(w)
    ensures ClearInv(Apply(w, m)) && Apply(w, m).cfg == w.cfg
  {
    hide Inv, Apply, Policy.Inv, Policy.Evolves, Cleared, ClientCleared;
    MoveKept(w, m);
    PolicyMove(w, m);
    if w.cfg.governed {
      forall id | id in Apply(w, m).shared.tables.actions
        ensures Cleared(Apply(w, m).shared.policy, Apply(w, m).shared.tables.actions[id].command)
      {
        if id in w.shared.tables.actions { OldActionsCleared(w, m, id); } else { NewActionCleared(w, m, id); }
      }
      forall c | c in Apply(w, m).clients ensures ClientCleared(Apply(w, m).shared.policy, Apply(w, m).clients[c]) {
        ClientsCleared(w, m, c);
      }
    }
  }

  lemma {:induction false} RunClears(w: World, moves: seq<Move>)
    requires Inv(w) && ClearInv(w)
    ensures ClearInv(Run(w, moves)) && Run(w, moves).cfg == w.cfg
    decreases |moves|
  {
    hide Inv, ClearInv, Apply, Evolves;
    if moves != [] {
      MoveKept(w, moves[0]);
      MoveClears(w, moves[0]);
      RunClears(Apply(w, moves[0]), moves[1..]);
    }
  }

  /**
    The package the command was stamped under is stored, executable and intact, bears the stamp
    and permits the action.
   */
  predicate Covered(policy: Policy.State, c: Command) {
    && c.policyPackageId in policy.rows
    && var p := policy.rows[c.policyPackageId].package;
       && (p.body.lifecycle.Active? || p.body.lifecycle.Retired?) && Policy.Verify(policy.signer, p)
       && p.activationSignature.Some? && p.activationSignature == c.activationSignature
       && (p.body.rules.allowed.Listed? ==> c.action in p.body.rules.allowed.actions)
  }

  /**
    In every state of every run, whatever activations, retirements and key rotations came in
    between, every stored action of a governed gateway is stamped and passes the policy check
    of its dispatch.
   */
  lemma PolicyNeverStopsDispatch(w: World, moves: seq<Move>, id: nat)
    requires Initial(w) && w.cfg.governed && id in Run(w, moves).shared.tables.actions
    ensures Covered(Run(w, moves).shared.policy, Run(w, moves).shared.tables.actions[id].command)
    ensures PolicyAllows(Run(w, moves).shared.policy, Run(w, moves).shared.tables.actions[id].command)
  {
    hide Run, Inv, Policy.Inv, Policy.Verify;
    InitialInv(w);
    InitialClear(w);
    RunClears(w, moves);
  }

  lemma InitialClear(w: World)
    requires Initial(w)
    ensures ClearInv(w)
  {
    hide Policy.Inv;
    Policy.FreshInv(w.shared.policy);
  }
}

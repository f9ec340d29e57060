/**
  What one dispatch and one reconciliation decide when nothing interrupts them, against
  each scenario of the provider.
 */
module Outcomes {
  import opened Domain
  import opened CoreTables
  import opened Provider
  import opened Protocol
  import opened ProtocolInvariant
  import opened ProtocolSafety
  import opened SoloRuns
  import opened Stamping

  function Dispatching(f: Frame, a: Snapshot, stage: Stage): Client {
    Client(InAction(a, stage), f)
  }

  function Marked(sh: Shared, id: nat, status: ActionStatus): Shared
    requires id in sh.tables.actions
  {
    sh.(tables := SetStatus(sh.tables, id, status))
  }

  // ---- Single steps ----

  lemma EntryStep(cfg: Config, sh: Shared, ch: Choice, f: Frame, a: Snapshot)
    requires a.status == Authorized && !ch.raises && (cfg.governed ==> PolicyAllows(sh.policy, a.command))
    ensures ClientStep(cfg, sh, Dispatching(f, a, Entry), ch) == Outcome(sh, Dispatching(f, a, Claim))
  {
    hide StepSubmit, StepAuthorize, StepBridge, StepWorker;
  }

  lemma ClaimStep(cfg: Config, sh: Shared, ch: Choice, f: Frame, a: Snapshot)
    requires a.id in sh.tables.actions && sh.tables.actions[a.id].status == Authorized
    ensures ClientStep(cfg, sh, Dispatching(f, a, Claim), ch)
            == Outcome(Marked(sh, a.id, Dispatched), Dispatching(f, a, ProviderLookup))
  {
    hide StepSubmit, StepAuthorize, StepBridge, StepWorker, SetStatus;
  }

  lemma LookupStep(cfg: Config, sh: Shared, ch: Choice, f: Frame, a: Snapshot)
    requires !ch.raises && a.command.key !in sh.ledger.effects
    ensures ClientStep(cfg, sh, Dispatching(f, a, ProviderLookup), ch)
            == Outcome(sh.(calls := sh.calls + [a.command.key]), Dispatching(f, a, ProviderScenario))
  {
    hide StepSubmit, StepAuthorize, StepBridge, StepWorker;
  }

  lemma ScenarioStep(cfg: Config, sh: Shared, ch: Choice, f: Frame, a: Snapshot)
    requires !ch.raises
    ensures ClientStep(cfg, sh, Dispatching(f, a, ProviderScenario), ch)
            == Outcome(sh, Dispatching(f, a, match ScenarioFor(sh.ledger, a.command.key)
                                          case TimeoutBeforeCommit => OutcomeRead(Unknown, Dispatcher)
                                          case Rejected => OutcomeRead(Failed, Dispatcher)
                                          case s => ProviderCommit(s)))
  {
    hide StepSubmit, StepAuthorize, StepBridge, StepWorker, ScenarioFor;
  }

  lemma CommitStep(cfg: Config, sh: Shared, ch: Choice, f: Frame, a: Snapshot, s: Scenario)
    requires !ch.raises
    ensures ClientStep(cfg, sh, Dispatching(f, a, ProviderCommit(s)), ch)
            == Outcome(sh.(ledger := CommitEffect(sh.ledger, a.command)), Dispatching(f, a, ProviderReply(s)))
  {
    hide StepSubmit, StepAuthorize, StepBridge, StepWorker, CommitEffect;
  }

  lemma ReplyStep(cfg: Config, sh: Shared, ch: Choice, f: Frame, a: Snapshot, s: Scenario)
    requires !ch.raises
    ensures ClientStep(cfg, sh, Dispatching(f, a, ProviderReply(s)), ch)
            == Outcome(sh, Dispatching(f, a,
                  OutcomeRead(if s == TimeoutAfterCommit then Unknown else Succeeded, Dispatcher)))
  {
    hide StepSubmit, StepAuthorize, StepBridge, StepWorker;
  }

  lemma OutcomeReadStep(cfg: Config, sh: Shared, ch: Choice, f: Frame, a: Snapshot, status: ActionStatus, role: Role)
    requires !ch.raises && a.id in sh.tables.actions && OutcomeAllowed(sh.tables.actions[a.id].status, status)
    ensures ClientStep(cfg, sh, Dispatching(f, a, OutcomeRead(status, role)), ch)
            == Outcome(sh, Dispatching(f, a, OutcomeWrite(sh.tables.actions[a.id].status, status, role)))
  {
    hide StepSubmit, StepAuthorize, StepBridge, StepWorker;
  }

  lemma OutcomeWriteStep(cfg: Config, sh: Shared, ch: Choice, f: Frame, a: Snapshot, status: ActionStatus, role: Role)
    requires a.id in sh.tables.actions
    ensures ClientStep(cfg, sh, Dispatching(f, a, OutcomeWrite(sh.tables.actions[a.id].status, status, role)), ch)
            == Outcome(Marked(sh, a.id, status), match role
                                                 case Dispatcher => Return(f, a.id)
                                                 case Marker => Dispatching(f, a, ReconcileReread)
                                                 case Settler => FINISHED)
  {
    hide StepSubmit, StepAuthorize, StepBridge, StepWorker, SetStatus, Return;
  }

  // ---- Recording an outcome ----

  /** Where a call goes on once an outcome is recorded. */
  function Recorder(f: Frame, id: nat, role: Role): Client {
    if role == Dispatcher then Return(f, id) else FINISHED
  }

  /** record_outcome, run alone: it writes an outcome the state graph permits. */
  lemma Records(cfg: Config, sh: Shared, ch: Choice, f: Frame, a: Snapshot, status: ActionStatus, role: Role, n: nat)
    requires !ch.raises && a.id in sh.tables.actions && OutcomeAllowed(sh.tables.actions[a.id].status, status)
    requires role != Marker && n >= 2
    ensures Solo(cfg, sh, Dispatching(f, a, OutcomeRead(status, role)), ch, n)
            == Solo(cfg, Marked(sh, a.id, status), Recorder(f, a.id, role), ch, n - 2)
  {
    hide ClientStep, OutcomeAllowed, Solo, Marked, Return;
    var current := sh.tables.actions[a.id].status;
    OutcomeReadStep(cfg, sh, ch, f, a, status, role);
    SoloStep(cfg, sh, Dispatching(f, a, OutcomeRead(status, role)), ch, n, sh,
             Dispatching(f, a, OutcomeWrite(current, status, role)));
    OutcomeWriteStep(cfg, sh, ch, f, a, status, role);
    SoloStep(cfg, sh, Dispatching(f, a, OutcomeWrite(current, status, role)), ch, n - 1, Marked(sh, a.id, status),
             Recorder(f, a.id, role));
  }

  // ---- Dispatch ----

  /** What a dispatch records in each scenario, and whether the provider has taken effect. */
  function Recorded(s: Scenario): ActionStatus {
    match s
    case Success => Succeeded
    case Rejected => Failed
    case TimeoutBeforeCommit => Unknown
    case TimeoutAfterCommit => Unknown
  }

  /** The transactions from the provider's scenario lookup to the recorded outcome. */
  function Length(s: Scenario): nat {
    if TakesEffect(s) then 5 else 3
  }

  /** The provider's own transactions, and what is recorded of them. */
  lemma ProviderAnswers(cfg: Config, sh: Shared, ch: Choice, f: Frame, a: Snapshot, n: nat)
    requires !ch.raises && a.id in sh.tables.actions && sh.tables.actions[a.id].status == Dispatched
    requires n >= Length(ScenarioFor(sh.ledger, a.command.key))
    requires a.command.key !in sh.ledger.effects
    ensures var s := ScenarioFor(sh.ledger, a.command.key);
            var ledger := if TakesEffect(s) then CommitEffect(sh.ledger, a.command) else sh.ledger;
            Solo(cfg, sh, Dispatching(f, a, ProviderScenario), ch, n)
            == Solo(cfg, Marked(sh, a.id, Recorded(s)).(ledger := ledger), Return(f, a.id), ch, n - Length(s))
  {
    hide ClientStep, Solo, ScenarioFor, CommitEffect, Return;
    var s := ScenarioFor(sh.ledger, a.command.key);
    ScenarioStep(cfg, sh, ch, f, a);
    if TakesEffect(s) {
      SoloStep(cfg, sh, Dispatching(f, a, ProviderScenario), ch, n, sh, Dispatching(f, a, ProviderCommit(s)));
      CommitStep(cfg, sh, ch, f, a, s);
      var sh' := sh.(ledger := CommitEffect(sh.ledger, a.command));
      SoloStep(cfg, sh, Dispatching(f, a, ProviderCommit(s)), ch, n - 1, sh', Dispatching(f, a, ProviderReply(s)));
      ReplyStep(cfg, sh', ch, f, a, s);
      SoloStep(cfg, sh', Dispatching(f, a, ProviderReply(s)), ch, n - 2, sh',
               Dispatching(f, a, OutcomeRead(Recorded(s), Dispatcher)));
      Records(cfg, sh', ch, f, a, Recorded(s), Dispatcher, n - 3);
    } else {
      SoloStep(cfg, sh, Dispatching(f, a, ProviderScenario), ch, n, sh,
               Dispatching(f, a, OutcomeRead(Recorded(s), Dispatcher)));
      Records(cfg, sh, ch, f, a, Recorded(s), Dispatcher, n - 1);
    }
  }

  /** What an uninterrupted dispatch leaves behind. */
  ghost predicate Dispatches(sh: Shared, id: nat, sh': Shared) {
    && id in sh.tables.actions && id in sh'.tables.actions
    && var c := sh.tables.actions[id].command;
       var s := ScenarioFor(sh.ledger, c.key);
       && sh'.tables.actions == sh.tables.actions[id := Action(c, Recorded(s))]
       && sh'.tables.events == sh.tables.events + [Event(id, Dispatched), Event(id, Recorded(s))]
       && sh'.ledger.effects == (if TakesEffect(s) then sh.ledger.effects[c.key := c] else sh.ledger.effects)
       && sh'.calls == sh.calls + [c.key]
  }

  /** The state in which an uninterrupted dispatch leaves the stores. */
  function AfterDispatch(sh: Shared, id: nat): Shared
    requires id in sh.tables.actions
  {
    var c := sh.tables.actions[id].command;
    var s := ScenarioFor(sh.ledger, c.key);
    var sh2 := Marked(sh, id, Dispatched).(calls := sh.calls + [c.key]);
    Marked(sh2, id, Recorded(s)).(ledger := if TakesEffect(s) then CommitEffect(sh.ledger, c) else sh.ledger)
  }

  function ScenarioOf(sh: Shared, id: nat): Scenario
    requires id in sh.tables.actions
  {
    ScenarioFor(sh.ledger, sh.tables.actions[id].command.key)
  }

  /** From the entry to the return: the claim, the single call, the provider and the record. */
  lemma SoloDispatch(cfg: Config, sh: Shared, ch: Choice, f: Frame, id: nat, n: nat)
    requires SharedOk(cfg, sh) && !ch.raises && id in sh.tables.actions && sh.tables.actions[id].status == Authorized
    requires cfg.governed ==> PolicyAllows(sh.policy, sh.tables.actions[id].command)
    requires n >= 3 + Length(ScenarioOf(sh, id))
    ensures Solo(cfg, sh, Dispatching(f, SnapshotOf(sh.tables, id), Entry), ch, n)
            == Solo(cfg, AfterDispatch(sh, id), Return(f, id), ch, n - 3 - Length(ScenarioOf(sh, id)))
    ensures Dispatches(sh, id, AfterDispatch(sh, id))
  {
    hide ClientStep, Solo, ScenarioFor, SharedOk, Dispatches, CommitEffect, Return, PolicyAllows;
    var a := SnapshotOf(sh.tables, id);
    NotYet(cfg, sh, id);
    EntryStep(cfg, sh, ch, f, a);
    SoloStep(cfg, sh, Dispatching(f, a, Entry), ch, n, sh, Dispatching(f, a, Claim));
    ClaimStep(cfg, sh, ch, f, a);
    var sh1 := Marked(sh, id, Dispatched);
    SoloStep(cfg, sh, Dispatching(f, a, Claim), ch, n - 1, sh1, Dispatching(f, a, ProviderLookup));
    LookupStep(cfg, sh1, ch, f, a);
    var sh2 := sh1.(calls := sh1.calls + [a.command.key]);
    SoloStep(cfg, sh1, Dispatching(f, a, ProviderLookup), ch, n - 2, sh2, Dispatching(f, a, ProviderScenario));
    ProviderAnswers(cfg, sh2, ch, f, a, n - 3);
    DispatchLeaves(sh, id);
  }

  lemma NotYet(cfg: Config, sh: Shared, id: nat)
    requires SharedOk(cfg, sh) && id in sh.tables.actions && sh.tables.actions[id].status == Authorized
    ensures sh.tables.actions[id].command.key !in sh.ledger.effects
  {
    hide TablesOk, CallsOk;
  }

  lemma DispatchLeaves(sh: Shared, id: nat)
    requires id in sh.tables.actions && sh.tables.actions[id].command.key !in sh.ledger.effects
    ensures Dispatches(sh, id, AfterDispatch(sh, id))
  {
    hide ScenarioFor, Recorded, TakesEffect;
    var c := sh.tables.actions[id].command;
    var s := ScenarioFor(sh.ledger, c.key);
    var acts: map<nat, Action> := sh.tables.actions[id := Action(c, Dispatched)];
    assert acts[id := Action(c, Recorded(s))] == sh.tables.actions[id := Action(c, Recorded(s))];
    assert (sh.tables.events + [Event(id, Dispatched)]) + [Event(id, Recorded(s))]
        == sh.tables.events + [Event(id, Dispatched), Event(id, Recorded(s))];
  }

  /**
    In any reachable state an uninterrupted dispatch calls the provider once and records what the
    scenario calls for.
   */
  lemma DispatchDecides(w: World, moves: seq<Move>, ch: Choice, id: nat)
    requires Initial(w) && !ch.raises
    requires id in Run(w, moves).shared.tables.actions && Run(w, moves).shared.tables.actions[id].status == Authorized
    ensures var sh := Run(w, moves).shared;
            Dispatches(sh, id, Solo(w.cfg, sh, Dispatching(Direct, SnapshotOf(sh.tables, id), Entry), ch, 8).shared)
  {
    hide Initial, Run, SharedOk, ClientsOk, OwnersDistinct, Solo, Evolves, Dispatches, PolicyAllows;
    if w.cfg.governed { PolicyNeverStopsDispatch(w, moves, id); }
    InitialInv(w);
    RunKept(w, moves);
    var sh := Run(w, moves).shared;
    SoloDispatch(w.cfg, sh, ch, Direct, id, 8);
    SoloDone(w.cfg, AfterDispatch(sh, id), ch, 5 - Length(ScenarioOf(sh, id)));
  }

  // ---- Reconciliation ----

  function Reconciler(a: Snapshot): Client {
    Dispatching(Direct, a, ReconcileEntry)
  }

  function Found(sh: Shared, key: Name): ActionStatus {
    if key in sh.ledger.effects then Reconciled else Unknown
  }

  lemma QueryStep(cfg: Config, sh: Shared, ch: Choice, a: Snapshot)
    requires !ch.raises
    ensures ClientStep(cfg, sh, Dispatching(Direct, a, ReconcileQuery), ch)
            == Outcome(sh, Dispatching(Direct, a, OutcomeRead(Found(sh, a.command.key), Settler)))
  {
    hide StepSubmit, StepAuthorize, StepBridge, StepWorker;
  }

  /** From the query on: the answer of the ledger is recorded. */
  lemma Queries(cfg: Config, sh: Shared, ch: Choice, a: Snapshot, n: nat)
    requires !ch.raises && a.id in sh.tables.actions && sh.tables.actions[a.id].status == Unknown && n >= 3
    ensures Solo(cfg, sh, Dispatching(Direct, a, ReconcileQuery), ch, n)
            == Outcome(Marked(sh, a.id, Found(sh, a.command.key)), FINISHED)
  {
    hide ClientStep, Solo, Marked;
    QueryStep(cfg, sh, ch, a);
    SoloStep(cfg, sh, Dispatching(Direct, a, ReconcileQuery), ch, n, sh,
             Dispatching(Direct, a, OutcomeRead(Found(sh, a.command.key), Settler)));
    Records(cfg, sh, ch, Direct, a, Found(sh, a.command.key), Settler, n - 1);
    SoloDone(cfg, Marked(sh, a.id, Found(sh, a.command.key)), ch, n - 3);
  }

  lemma MarkedLeaves(sh: Shared, id: nat, status: ActionStatus)
    requires id in sh.tables.actions
    ensures var sh' := Marked(sh, id, status);
            && sh' == sh.(tables := sh.tables.(actions := sh'.tables.actions, events := sh'.tables.events))
            && sh'.tables.actions == sh.tables.actions[id := Action(sh.tables.actions[id].command, status)]
            && sh'.tables.events == sh.tables.events + [Event(id, status)]
  {
  }

  lemma ReconcileSteps(cfg: Config, sh: Shared, ch: Choice, a: Snapshot)
    ensures a.status == Unknown ==>
              ClientStep(cfg, sh, Reconciler(a), ch) == Outcome(sh, Dispatching(Direct, a, ReconcileQuery))
    ensures a.status == Dispatched ==>
              ClientStep(cfg, sh, Reconciler(a), ch)
                  == Outcome(sh, Dispatching(Direct, a, OutcomeRead(Unknown, Marker)))
    ensures a.id in sh.tables.actions && sh.tables.actions[a.id].status == Unknown ==>
              ClientStep(cfg, sh, Dispatching(Direct, a, ReconcileReread), ch)
              == Outcome(sh, Dispatching(Direct, SnapshotOf(sh.tables, a.id), ReconcileQuery))
  {
    hide StepSubmit, StepAuthorize, StepBridge, StepWorker;
  }

  lemma MarksUnknown(cfg: Config, sh: Shared, ch: Choice, a: Snapshot)
    requires !ch.raises && a.id in sh.tables.actions && a == SnapshotOf(sh.tables, a.id) && a.status == Dispatched
    ensures var sh' := Marked(sh, a.id, Unknown);
            Solo(cfg, sh, Reconciler(a), ch, 7)
                == Solo(cfg, sh', Dispatching(Direct, SnapshotOf(sh'.tables, a.id), ReconcileQuery), ch, 3)
  {
    hide ClientStep, Solo;
    var sh' := Marked(sh, a.id, Unknown);
    ReconcileSteps(cfg, sh, ch, a);
    SoloStep(cfg, sh, Reconciler(a), ch, 7, sh, Dispatching(Direct, a, OutcomeRead(Unknown, Marker)));
    OutcomeReadStep(cfg, sh, ch, Direct, a, Unknown, Marker);
    SoloStep(cfg, sh, Dispatching(Direct, a, OutcomeRead(Unknown, Marker)), ch, 6, sh,
             Dispatching(Direct, a, OutcomeWrite(Dispatched, Unknown, Marker)));
    OutcomeWriteStep(cfg, sh, ch, Direct, a, Unknown, Marker);
    SoloStep(cfg, sh, Dispatching(Direct, a, OutcomeWrite(Dispatched, Unknown, Marker)), ch, 5, sh',
             Dispatching(Direct, a, ReconcileReread));
    ReconcileSteps(cfg, sh', ch, a);
    SoloStep(cfg, sh', Dispatching(Direct, a, ReconcileReread), ch, 4, sh',
             Dispatching(Direct, SnapshotOf(sh'.tables, a.id), ReconcileQuery));
  }

  /** What an uninterrupted reconciliation leaves behind. */
  ghost predicate Reconciles(sh: Shared, id: nat, sh': Shared) {
    && id in sh.tables.actions
    && var c, marked := sh.tables.actions[id].command, sh.tables.actions[id].status.Dispatched?;
       var found := if c.key in sh.ledger.effects then Reconciled else Unknown;
       && sh' == sh.(tables := sh.tables.(actions := sh'.tables.actions, events := sh'.tables.events))
       && sh'.tables.actions == sh.tables.actions[id := Action(c, found)]
       && sh'.tables.events
          == sh.tables.events + (if marked then [Event(id, Unknown)] else []) + [Event(id, found)]
  }

  /**
    An action in doubt is settled exactly when the provider shows its effect; the log
    records the step into doubt, if it was still to be taken, and the finding.
   */
  lemma ReconciliationDecides(cfg: Config, sh: Shared, ch: Choice, id: nat)
    requires !ch.raises && id in sh.tables.actions && InDoubt(sh.tables.actions[id].status)
    ensures Reconciles(sh, id, Solo(cfg, sh, Reconciler(SnapshotOf(sh.tables, id)), ch, 7).shared)
  {
    hide ClientStep, Solo, SetStatus;
    var a := SnapshotOf(sh.tables, id);
    MarkedLeaves(sh, id, Found(sh, a.command.key));
    if a.status == Unknown {
      ReconcileSteps(cfg, sh, ch, a);
      SoloStep(cfg, sh, Reconciler(a), ch, 7, sh, Dispatching(Direct, a, ReconcileQuery));
      Queries(cfg, sh, ch, a, 6);
    } else {
      MarksUnknown(cfg, sh, ch, a);
      var sh' := Marked(sh, id, Unknown);
      MarkedLeaves(sh, id, Unknown);
      MarkedLeaves(sh', id, Found(sh, a.command.key));
      Queries(cfg, sh', ch, SnapshotOf(sh'.tables, id), 3);
    }
  }
}

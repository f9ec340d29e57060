/**
  What a delivery worker does with the oldest due row when nothing interrupts it: it
  dispatches the action if that is still to be done and marks the row delivered, or, when
  the dispatch raises before its claim, schedules the retry or quarantines the row.
 */
module WorkerRuns {
  import opened Domain
  import opened CoreTables
  import opened Protocol
  import opened ProtocolInvariant
  import opened ProtocolSafety
  import opened SoloRuns
  import opened Outcomes
  import opened Stamping
  import opened Provider
  import Policy

  /** The row is the one a worker claims that asks for a single row. */
  ghost predicate OldestDue(sh: Shared, o: nat) {
    && o in sh.tables.outbox && Claimable(sh.tables.outbox[o], sh.now)
    && forall k :: k in sh.tables.outbox && Claimable(sh.tables.outbox[k], sh.now) ==>
         sh.tables.outbox[o].createdAt <= sh.tables.outbox[k].createdAt
  }

  lemma OldestIsBatch(sh: Shared, o: nat)
    requires OldestDue(sh, o)
    ensures DueBatch(sh.tables, sh.now, 1, [o])
  {
  }

  function Work(pc: WorkerPc): Client {
    Client(InWorker(pc), Direct)
  }

  /** A choice that picks this row and lets nothing raise. */
  function Pick(o: nat): Choice {
    Choice(false, 0, 0, Name(""), [o])
  }

  function WithRow(sh: Shared, o: nat, row: OutboxRow): Shared {
    sh.(tables := sh.tables.(outbox := sh.tables.outbox[o := row]))
  }

  function Leased(cfg: Config, sh: Shared, o: nat): Shared
    requires o in sh.tables.outbox
  {
    WithRow(sh, o, Lease(sh.tables.outbox[o], sh.now + cfg.leaseSeconds))
  }

  function RecordOf(sh: Shared, o: nat): Claimed
    requires o in sh.tables.outbox
  {
    Claimed(o, sh.tables.outbox[o])
  }

  // ---- The steps up to the dispatch ----

  lemma ClaimsOne(cfg: Config, sh: Shared, o: nat)
    requires OldestDue(sh, o)
    ensures ClientStep(cfg, sh, Work(ClaimRows(1)), Pick(o)) == Outcome(Leased(cfg, sh, o), Work(RereadRows([o])))
  {
    hide StepSubmit, StepAuthorize, StepAction, StepBridge, DueBatch, OldestDue;
    OldestIsBatch(sh, o);
    OldestIsStored(sh, o);
    var os, until := sh.tables.outbox, sh.now + cfg.leaseSeconds;
    assert [o][1..] == [];
    assert LeaseRows(os, [o], until) == LeaseRows(os[o := Lease(os[o], until)], [], until);
  }

  lemma OldestIsStored(sh: Shared, o: nat)
    requires OldestDue(sh, o)
    ensures o in sh.tables.outbox
  {
  }

  lemma RereadsOne(cfg: Config, sh: Shared, o: nat)
    requires o in sh.tables.outbox
    ensures ClientStep(cfg, sh, Work(RereadRows([o])), Pick(o)) == Outcome(sh, Work(Loop([RecordOf(sh, o)])))
  {
    hide StepSubmit, StepAuthorize, StepAction, StepBridge;
    assert [o][1..] == [] && ReadRows(sh.tables, []) == [];
    assert ReadRows(sh.tables, [o]) == [RecordOf(sh, o)];
  }

  lemma TakesUp(cfg: Config, sh: Shared, r: Claimed, rest: seq<Claimed>, ch: Choice)
    requires r.row.topic == ActionDispatch && r.row.actionId in sh.tables.actions
    ensures ClientStep(cfg, sh, Work(Loop([r] + rest)), ch)
            == Outcome(sh, Dispatching(OnWorker(r, rest), SnapshotOf(sh.tables, r.row.actionId), Entry))
  {
    hide StepSubmit, StepAuthorize, StepAction, StepBridge;
    assert ([r] + rest)[1..] == rest;
  }

  lemma RowIsDispatch(w: World, o: nat)
    requires Inv(w) && o in w.shared.tables.outbox
    ensures var row := w.shared.tables.outbox[o];
            row.topic == ActionDispatch && row.actionId in w.shared.tables.actions
  {
    hide KeysOk, LogsLegal, ProposalsOk, VersionsOk, LedgerOk, CallsOk, ClientsOk, OwnersDistinct;
  }

  /** Claimed, reread and taken up: the worker stands at the dispatch of the row's action. */
  lemma TakesUpOldest(cfg: Config, sh: Shared, o: nat)
    requires OldestDue(sh, o) && o in sh.tables.outbox
    requires sh.tables.outbox[o].topic == ActionDispatch && sh.tables.outbox[o].actionId in sh.tables.actions
    ensures var sh1 := Leased(cfg, sh, o);
            var r := RecordOf(sh1, o);
            Script(cfg, sh, Work(ClaimRows(1)), [Pick(o)] + ([Pick(o)] + ([Pick(o)] + [])))
            == Outcome(sh1, Dispatching(OnWorker(r, []), SnapshotOf(sh1.tables, r.row.actionId), Entry))
  {
    hide ClientStep, OldestDue, Script;
    var sh1 := Leased(cfg, sh, o);
    var r := RecordOf(sh1, o);
    var at := Dispatching(OnWorker(r, []), SnapshotOf(sh1.tables, r.row.actionId), Entry);
    ClaimsOne(cfg, sh, o);
    ScriptStep(cfg, sh, Work(ClaimRows(1)), Pick(o), sh1, Work(RereadRows([o])), [Pick(o)] + ([Pick(o)] + []));
    RereadsOne(cfg, sh1, o);
    ScriptStep(cfg, sh1, Work(RereadRows([o])), Pick(o), sh1, Work(Loop([r])), [Pick(o)] + []);
    TakesUp(cfg, sh1, r, [], Pick(o));
    assert [r] + [] == [r];
    ScriptStep(cfg, sh1, Work(Loop([r])), Pick(o), sh1, at, []);
    ScriptEnds(cfg, sh1, at);
  }

  lemma ScriptEnds(cfg: Config, sh: Shared, cl: Client)
    ensures Script(cfg, sh, cl, []) == Outcome(sh, cl)
  {
  }

  // ---- The steps after it ----

  function Settled(sh: Shared, o: nat, status: OutboxStatus, at: int): Shared
    requires o in sh.tables.outbox
  {
    WithRow(sh, o, sh.tables.outbox[o].(status := status, availableAt := at, leaseUntil := None))
  }

  lemma Completes(cfg: Config, sh: Shared, r: Claimed, rest: seq<Claimed>, ch: Choice)
    requires r.id in sh.tables.outbox
    ensures ClientStep(cfg, sh, Work(Complete(r, rest)), ch)
            == Outcome(Settled(sh, r.id, Delivered, sh.now), Work(Loop(rest)))
  {
    hide StepSubmit, StepAuthorize, StepAction, StepBridge;
  }

  lemma Fails(cfg: Config, sh: Shared, r: Claimed, quarantine: bool, at: Option<int>, ch: Choice)
    requires r.id in sh.tables.outbox
    ensures ClientStep(cfg, sh, Work(Fail(r, [], quarantine, at)), ch)
            == Outcome(Settled(sh, r.id, if quarantine then Quarantined else Retry,
                               if at.Some? then at.value else sh.now),
                       Work(Loop([])))
  {
    hide StepSubmit, StepAuthorize, StepAction, StepBridge;
  }

  lemma NothingLeft(cfg: Config, sh: Shared, ch: Choice)
    ensures ClientStep(cfg, sh, Work(Loop([])), ch) == Outcome(sh, FINISHED)
  {
    hide StepSubmit, StepAuthorize, StepAction, StepBridge;
  }

  /** The row is settled and the call ends. */
  lemma SettlesDelivered(cfg: Config, sh: Shared, r: Claimed, ch: Choice, n: nat)
    requires r.id in sh.tables.outbox && n >= 2
    ensures Solo(cfg, sh, Return(OnWorker(r, []), r.row.actionId), ch, n)
            == Outcome(Settled(sh, r.id, Delivered, sh.now), FINISHED)
  {
    hide ClientStep, Solo;
    Completes(cfg, sh, r, [], ch);
    SoloStep(cfg, sh, Work(Complete(r, [])), ch, n, Settled(sh, r.id, Delivered, sh.now), Work(Loop([])));
    NothingLeft(cfg, Settled(sh, r.id, Delivered, sh.now), ch);
    SoloStep(cfg, Settled(sh, r.id, Delivered, sh.now), Work(Loop([])), ch, n - 1, Settled(sh, r.id, Delivered, sh.now),
             FINISHED);
    SoloDone(cfg, Settled(sh, r.id, Delivered, sh.now), ch, n - 2);
  }

  // ---- A delivery from beginning to end ----

  /** The row is delivered after one more attempt, and no other row has changed. */
  ghost predicate RowDelivered(sh: Shared, o: nat, sh': Shared) {
    && o in sh.tables.outbox && o in sh'.tables.outbox
    && sh'.tables.outbox == sh.tables.outbox[o := sh'.tables.outbox[o]]
    && sh'.tables.outbox[o].status == Delivered && sh'.tables.outbox[o].attempts == sh.tables.outbox[o].attempts + 1
    && sh'.tables.outbox[o].actionId == sh.tables.outbox[o].actionId
  }

  /** An authorized action is dispatched on the way; one that is under way or done is left alone. */
  ghost predicate ActionDelivered(sh: Shared, id: nat, sh': Shared) {
    && id in sh.tables.actions
    && if sh.tables.actions[id].status == Authorized then Dispatches(sh, id, sh')
       else sh'.tables.actions == sh.tables.actions && sh'.tables.events == sh.tables.events
            && sh'.ledger == sh.ledger && sh'.calls == sh.calls
  }

  lemma WorkerFinishes(cfg: Config, sh: Shared, r: Claimed, ch: Choice)
    requires SharedOk(cfg, sh) && !ch.raises && r.id in sh.tables.outbox && r.row.actionId in sh.tables.actions
    requires cfg.governed ==> PolicyAllows(sh.policy, sh.tables.actions[r.row.actionId].command)
    ensures var id := r.row.actionId;
            var sh2 := if sh.tables.actions[id].status == Authorized then AfterDispatch(sh, id) else sh;
            Solo(cfg, sh, Dispatching(OnWorker(r, []), SnapshotOf(sh.tables, id), Entry), ch, 10)
            == Outcome(Settled(sh2, r.id, Delivered, sh2.now), FINISHED)
    ensures sh.tables.actions[r.row.actionId].status == Authorized ==>
              Dispatches(sh, r.row.actionId, AfterDispatch(sh, r.row.actionId))
  {
    hide ClientStep, Solo, SharedOk, PolicyAllows, Dispatches, Return;
    var id := r.row.actionId;
    if sh.tables.actions[id].status == Authorized {
      SoloDispatch(cfg, sh, ch, OnWorker(r, []), id, 10);
      SettlesDelivered(cfg, AfterDispatch(sh, id), r, ch, 7 - Length(ScenarioOf(sh, id)));
    } else {
      var a := SnapshotOf(sh.tables, id);
      PassesBy(cfg, sh, ch, OnWorker(r, []), a);
      SoloStep(cfg, sh, Dispatching(OnWorker(r, []), a, Entry), ch, 10, sh, Return(OnWorker(r, []), id));
      SettlesDelivered(cfg, sh, r, ch, 9);
    }
  }

  lemma PassesBy(cfg: Config, sh: Shared, ch: Choice, f: Frame, a: Snapshot)
    requires a.status != Authorized
    ensures ClientStep(cfg, sh, Dispatching(f, a, Entry), ch) == Outcome(sh, Return(f, a.id))
  {
    hide StepSubmit, StepAuthorize, StepBridge, StepWorker, Return, PolicyAllows;
  }

  /** A worker that asks for one row, takes these three steps to the dispatch and then those. */
  function Worked(c: nat, o: nat, chs: seq<Choice>): seq<Move> {
    [Spawn(c, Deliver(1))] + (StepsOf(c, [Pick(o)] + ([Pick(o)] + ([Pick(o)] + []))) + StepsOf(c, chs))
  }

  /** The worker at the dispatch of the row's action. */
  function AtDispatch(sh: Shared, o: nat): Client
    requires o in sh.tables.outbox && sh.tables.outbox[o].actionId in sh.tables.actions
  {
    var r := RecordOf(sh, o);
    Dispatching(OnWorker(r, []), SnapshotOf(sh.tables, r.row.actionId), Entry)
  }

  /** The world in which the worker has come to the dispatch. */
  ghost predicate TakenUp(w: World, c: nat, o: nat, w': World) {
    && o in w.shared.tables.outbox && w.shared.tables.outbox[o].actionId in w.shared.tables.actions
    && w'.cfg == w.cfg && w'.shared == Leased(w.cfg, w.shared, o)
    && c in w'.clients && w'.clients[c] == AtDispatch(w'.shared, o)
  }

  lemma ComesToDispatch(w: World, c: nat, o: nat, chs: seq<Choice>) returns (w': World)
    requires Inv(w) && c !in w.clients && OldestDue(w.shared, o)
    ensures TakenUp(w, c, o, w') && Inv(w')
    ensures Run(w, Worked(c, o, chs)) == Run(w', StepsOf(c, chs))
  {
    hide ClientStep, Script, Run, Inv, OldestDue, SharedOk;
    OldestIsStored(w.shared, o);
    RowIsDispatch(w, o);
    var picks := [Pick(o)] + ([Pick(o)] + ([Pick(o)] + []));
    var first := Apply(w, Spawn(c, Deliver(1)));
    MoveKept(w, Spawn(c, Deliver(1)));
    TakesUpOldest(w.cfg, w.shared, o);
    ScriptRun(first, c, picks);
    w' := Run(first, StepsOf(c, picks));
    RunKept(first, StepsOf(c, picks));
    RunFirst(w, Spawn(c, Deliver(1)), StepsOf(c, picks) + StepsOf(c, chs));
    RunAppend(first, StepsOf(c, picks), StepsOf(c, chs));
  }

  /** What the worker leaves behind, from the state before its claim. */
  lemma DeliveryLeaves(cfg: Config, sh: Shared, o: nat)
    requires o in sh.tables.outbox && sh.tables.outbox[o].actionId in sh.tables.actions
    requires var sh1, id := Leased(cfg, sh, o), sh.tables.outbox[o].actionId;
             sh.tables.actions[id].status == Authorized ==> Dispatches(sh1, id, AfterDispatch(sh1, id))
    ensures var sh1, id := Leased(cfg, sh, o), sh.tables.outbox[o].actionId;
            var sh2 := if sh.tables.actions[id].status == Authorized then AfterDispatch(sh1, id) else sh1;
            RowDelivered(sh, o, Settled(sh2, o, Delivered, sh2.now))
            && ActionDelivered(sh, id, Settled(sh2, o, Delivered, sh2.now))
  {
    hide ScenarioFor, CommitEffect;
  }

  /**
    From any reachable state, a worker that asks for one row and is not interrupted delivers
    the oldest due row, and has its action dispatched unless that is already under way or done.
   */
  lemma DueActionIsDelivered(w: World, moves: seq<Move>, c: nat, o: nat)
    requires Initial(w) && c !in Run(w, moves).clients && OldestDue(Run(w, moves).shared, o)
    ensures var now := Run(w, moves);
            var later := Run(now, Worked(c, o, Same(Pick(o), 10))).shared;
            && RowDelivered(now.shared, o, later)
            && ActionDelivered(now.shared, now.shared.tables.outbox[o].actionId, later)
  {
    hide Run, Inv, SharedOk, OldestDue, Solo, Script, ClientStep, Dispatches, PolicyAllows;
    hide RowDelivered, ActionDelivered, AfterDispatch, Policy.Inv;
    InitialInv(w);
    RunKept(w, moves);
    var now := Run(w, moves);
    SameConfig(w, moves);
    var w' := ComesToDispatch(now, c, o, Same(Pick(o), 10));
    InvShared(w');
    var id := now.shared.tables.outbox[o].actionId;
    if w.cfg.governed { PolicyNeverStopsDispatch(w, moves, id); }
    WorkerFinishes(w'.cfg, w'.shared, RecordOf(w'.shared, o), Pick(o));
    SoloIsScript(w'.cfg, w'.shared, w'.clients[c], Pick(o), 10);
    ScriptRun(w', c, Same(Pick(o), 10));
    DeliveryLeaves(now.cfg, now.shared, o);
  }

  // ---- A delivery whose dispatch raises before its claim ----

  /**
    The row is put back with its delay, or given up once the attempts are used up; nothing
    else in the stores has changed.
   */
  ghost predicate PutBack(cfg: Config, sh: Shared, o: nat, sh': Shared) {
    && o in sh.tables.outbox
    && var row := sh.tables.outbox[o];
       var again := row.attempts + 1 < cfg.maxAttempts;
       && sh' == sh.(tables := sh.tables.(outbox := sh'.tables.outbox))
       && sh'.tables.outbox == sh.tables.outbox[o := row.(
            status := if again then Retry else Quarantined,
            availableAt := if again then sh.now + Backoff(row.attempts + 1) else sh.now,
            leaseUntil := None,
            attempts := row.attempts + 1)]
  }

  lemma Refuses(cfg: Config, sh: Shared, r: Claimed, a: Snapshot, ch: Choice)
    requires ch.raises && a.status == Authorized
    ensures ClientStep(cfg, sh, Dispatching(OnWorker(r, []), a, Entry), ch)
            == Outcome(sh, Raise(cfg, sh, OnWorker(r, [])))
  {
    hide StepSubmit, StepAuthorize, StepBridge, StepWorker, PolicyAllows;
  }

  lemma WorkerGivesBack(cfg: Config, sh: Shared, r: Claimed, ch: Choice)
    requires ch.raises && r.id in sh.tables.outbox && r.row.actionId in sh.tables.actions
    requires sh.tables.actions[r.row.actionId].status == Authorized
    ensures var again := r.row.attempts < cfg.maxAttempts;
            Solo(cfg, sh, Dispatching(OnWorker(r, []), SnapshotOf(sh.tables, r.row.actionId), Entry), ch, 3)
            == Outcome(Settled(sh, r.id, if again then Retry else Quarantined,
                               if again then sh.now + Backoff(r.row.attempts) else sh.now), FINISHED)
  {
    hide ClientStep, Solo, Backoff;
    var a := SnapshotOf(sh.tables, r.row.actionId);
    var again := r.row.attempts < cfg.maxAttempts;
    var at := if again then Some(sh.now + Backoff(r.row.attempts)) else None;
    var sh' := Settled(sh, r.id, if again then Retry else Quarantined, if again then at.value else sh.now);
    Refuses(cfg, sh, r, a, ch);
    SoloStep(cfg, sh, Dispatching(OnWorker(r, []), a, Entry), ch, 3, sh, Work(Fail(r, [], !again, at)));
    Fails(cfg, sh, r, !again, at, ch);
    SoloStep(cfg, sh, Work(Fail(r, [], !again, at)), ch, 2, sh', Work(Loop([])));
    NothingLeft(cfg, sh', ch);
    SoloStep(cfg, sh', Work(Loop([])), ch, 1, sh', FINISHED);
    SoloDone(cfg, sh', ch, 0);
  }

  /** The row's action is still to be dispatched. */
  predicate Undispatched(sh: Shared, o: nat) {
    && o in sh.tables.outbox && sh.tables.outbox[o].actionId in sh.tables.actions
    && sh.tables.actions[sh.tables.outbox[o].actionId].status == Authorized
  }

  /** The same worker, when the policy check or the connector resolution raises before the claim. */
  lemma FailedDeliveryIsPutBack(w: World, moves: seq<Move>, c: nat, o: nat)
    requires Initial(w) && c !in Run(w, moves).clients && OldestDue(Run(w, moves).shared, o)
    requires Undispatched(Run(w, moves).shared, o)
    ensures var now := Run(w, moves);
            PutBack(w.cfg, now.shared, o, Run(now, Worked(c, o, Same(Pick(o).(raises := true), 3))).shared)
  {
    hide Run, Inv, SharedOk, OldestDue, Solo, Script, ClientStep, Backoff;
    InitialInv(w);
    RunKept(w, moves);
    var now := Run(w, moves);
    SameConfig(w, moves);
    var ch := Pick(o).(raises := true);
    var w' := ComesToDispatch(now, c, o, Same(ch, 3));
    WorkerGivesBack(w'.cfg, w'.shared, RecordOf(w'.shared, o), ch);
    SoloIsScript(w'.cfg, w'.shared, w'.clients[c], ch, 3);
    ScriptRun(w', c, Same(ch, 3));
  }
}

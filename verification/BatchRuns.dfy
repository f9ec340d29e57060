/**
  A delivery worker with any number of rows: uninterrupted, it delivers every row it claims
  and has the action of each dispatched unless that is already under way or done.
 */
module BatchRuns {
  import opened Domain
  import opened CoreTables
  import opened Protocol
  import opened ProtocolInvariant
  import opened ProtocolSafety
  import opened SoloRuns
  import opened Outcomes
  import opened Submission
  import opened WorkerRuns
  import opened Stamping

  // ---- What is left when a batch is done ----

  ghost predicate HasRowOf(rs: seq<Claimed>, o: nat) {
    exists i :: 0 <= i < |rs| && rs[i].id == o
  }

  ghost predicate HasActionOf(rs: seq<Claimed>, id: nat) {
    exists i :: 0 <= i < |rs| && rs[i].row.actionId == id
  }

  function DeliveredRow(row: OutboxRow, now: int): OutboxRow {
    row.(status := Delivered, availableAt := now, leaseUntil := None)
  }

  /** An authorized action gets the outcome its scenario calls for; any other is left alone. */
  function ActionAfter(sh: Shared, id: nat): Action
    requires id in sh.tables.actions
  {
    var a := sh.tables.actions[id];
    if a.status == Authorized then Action(a.command, Recorded(ScenarioOf(sh, id))) else a
  }

  ghost predicate RowsDone(sh: Shared, rs: seq<Claimed>, sh': Shared) {
    && sh'.tables.outbox.Keys == sh.tables.outbox.Keys
    && forall o :: o in sh.tables.outbox ==>
         sh'.tables.outbox[o]
         == if HasRowOf(rs, o) then DeliveredRow(sh.tables.outbox[o], sh.now) else sh.tables.outbox[o]
  }

  ghost predicate ActionsDone(sh: Shared, rs: seq<Claimed>, sh': Shared) {
    && sh'.tables.actions.Keys == sh.tables.actions.Keys
    && forall id :: id in sh.tables.actions ==>
         sh'.tables.actions[id] == if HasActionOf(rs, id) then ActionAfter(sh, id) else sh.tables.actions[id]
  }

  /** Every record's row is delivered and its action dispatched; no other row and no other action has changed. */
  ghost predicate BatchDone(sh: Shared, rs: seq<Claimed>, sh': Shared) {
    && RowsDone(sh, rs, sh') && ActionsDone(sh, rs, sh')
    && sh'.now == sh.now && sh'.policy == sh.policy && sh'.ledger.scenarios == sh.ledger.scenarios
  }

  /** Records of distinct stored rows, of distinct stored actions. */
  ghost predicate Batch(sh: Shared, rs: seq<Claimed>) {
    && (forall i :: 0 <= i < |rs| ==>
         rs[i].row.topic == ActionDispatch && rs[i].id in sh.tables.outbox && rs[i].row.actionId in sh.tables.actions)
    && forall i, j :: 0 <= i < j < |rs| ==> rs[i].id != rs[j].id && rs[i].row.actionId != rs[j].row.actionId
  }

  ghost predicate AllAllowed(cfg: Config, sh: Shared) {
    cfg.governed ==> forall id :: id in sh.tables.actions ==> PolicyAllows(sh.policy, sh.tables.actions[id].command)
  }

  // ---- One record ----

  function DispatchedOr(sh: Shared, id: nat): Shared
    requires id in sh.tables.actions
  {
    if sh.tables.actions[id].status == Authorized then AfterDispatch(sh, id) else sh
  }

  lemma SoloLeads(cfg: Config, sh: Shared, cl: Client, ch: Choice, n: nat)
    ensures Leads(cfg, sh, cl, Solo(cfg, sh, cl, ch, n).shared, Solo(cfg, sh, cl, ch, n).client)
  {
    hide ClientStep, Solo, Script;
    SoloIsScript(cfg, sh, cl, ch, n);
  }

  /** The dispatch of one record's action, or the look at one that is under way. */
  lemma Handles(cfg: Config, sh: Shared, f: Frame, id: nat, ch: Choice)
    requires SharedOk(cfg, sh) && AllAllowed(cfg, sh) && id in sh.tables.actions && !ch.raises
    ensures Leads(cfg, sh, Dispatching(f, SnapshotOf(sh.tables, id), Entry), DispatchedOr(sh, id), Return(f, id))
  {
    hide ClientStep, Solo, SharedOk, PolicyAllows, Dispatches, AfterDispatch, Return, ScenarioOf, Leads;
    var a := SnapshotOf(sh.tables, id);
    if a.status == Authorized {
      var n := 3 + Length(ScenarioOf(sh, id));
      SoloDispatch(cfg, sh, ch, f, id, n);
      SoloNone(cfg, AfterDispatch(sh, id), Return(f, id), ch);
      SoloLeads(cfg, sh, Dispatching(f, a, Entry), ch, n);
    } else {
      PassesBy(cfg, sh, ch, f, a);
      LeadsNowhere(cfg, sh, Return(f, id));
      LeadsFirst(cfg, sh, Dispatching(f, a, Entry), ch, sh, Return(f, id), sh, Return(f, id));
    }
  }

  lemma DispatchedStill(sh: Shared, id: nat)
    requires id in sh.tables.actions
    ensures var sh1 := DispatchedOr(sh, id);
            && sh1.tables.outbox == sh.tables.outbox && sh1.now == sh.now && sh1.policy == sh.policy
            && sh1.ledger.scenarios == sh.ledger.scenarios
            && sh1.tables.actions == sh.tables.actions[id := ActionAfter(sh, id)]
  {
  }

  lemma OneDone(sh: Shared, r: Claimed)
    requires r.row.actionId in sh.tables.actions && r.id in sh.tables.outbox
    ensures r.id in DispatchedOr(sh, r.row.actionId).tables.outbox
    ensures var sh1 := DispatchedOr(sh, r.row.actionId);
            BatchDone(sh, [r], Settled(sh1, r.id, Delivered, sh1.now))
  {
    hide DispatchedOr, ActionAfter;
    DispatchedStill(sh, r.row.actionId);
    assert [r][0] == r;
  }

  lemma HandlesOne(cfg: Config, sh: Shared, r: Claimed, rest: seq<Claimed>, ch: Choice) returns (sh': Shared)
    requires SharedOk(cfg, sh) && AllAllowed(cfg, sh) && Batch(sh, [r] + rest) && !ch.raises
    ensures Leads(cfg, sh, Work(Loop([r] + rest)), sh', Work(Loop(rest))) && BatchDone(sh, [r], sh')
  {
    hide ClientStep, SharedOk, AllAllowed, Leads, DispatchedOr, BatchDone;
    var id, f := r.row.actionId, OnWorker(r, rest);
    assert ([r] + rest)[0] == r;
    OneDone(sh, r);
    var sh1 := DispatchedOr(sh, id);
    sh' := Settled(sh1, r.id, Delivered, sh1.now);
    Completes(cfg, sh1, r, rest, ch);
    LeadsNowhere(cfg, sh', Work(Loop(rest)));
    LeadsFirst(cfg, sh1, Work(Complete(r, rest)), ch, sh', Work(Loop(rest)), sh', Work(Loop(rest)));
    Handles(cfg, sh, f, id, ch);
    var entry := Dispatching(f, SnapshotOf(sh.tables, id), Entry);
    LeadsOn(cfg, sh, entry, sh1, Work(Complete(r, rest)), sh', Work(Loop(rest)));
    TakesUp(cfg, sh, r, rest, ch);
    LeadsFirst(cfg, sh, Work(Loop([r] + rest)), ch, sh, entry, sh', Work(Loop(rest)));
  }

  // ---- All records ----

  lemma DoneNone(sh: Shared)
    ensures BatchDone(sh, [], sh)
  {
  }

  lemma RowsDoneMore(sh: Shared, r: Claimed, rest: seq<Claimed>, sh1: Shared, sh2: Shared)
    requires Batch(sh, [r] + rest) && RowsDone(sh, [r], sh1) && RowsDone(sh1, rest, sh2) && sh1.now == sh.now
    ensures RowsDone(sh, [r] + rest, sh2)
  {
    var rs := [r] + rest;
    forall o | o in sh.tables.outbox ensures HasRowOf(rs, o) <==> HasRowOf([r], o) || HasRowOf(rest, o) {
      assert rs[0] == r && [r][0] == r;
      if HasRowOf(rest, o) {
        var i :| 0 <= i < |rest| && rest[i].id == o;
        assert rs[i + 1].id == o;
      }
    }
  }

  lemma ActionsDoneMore(sh: Shared, r: Claimed, rest: seq<Claimed>, sh1: Shared, sh2: Shared)
    requires Batch(sh, [r] + rest) && ActionsDone(sh, [r], sh1) && ActionsDone(sh1, rest, sh2)
    requires sh1.ledger.scenarios == sh.ledger.scenarios
    ensures ActionsDone(sh, [r] + rest, sh2)
  {
    hide Recorded;
    var rs := [r] + rest;
    forall id | id in sh.tables.actions
      ensures HasActionOf(rs, id) <==> HasActionOf([r], id) || HasActionOf(rest, id)
      ensures HasActionOf(rest, id) ==> sh1.tables.actions[id] == sh.tables.actions[id]
    {
      assert rs[0] == r && [r][0] == r;
      if HasActionOf(rest, id) {
        var i :| 0 <= i < |rest| && rest[i].row.actionId == id;
        assert rs[i + 1].row.actionId == id;
      }
    }
  }

  lemma DoneMore(sh: Shared, r: Claimed, rest: seq<Claimed>, sh1: Shared, sh2: Shared)
    requires Batch(sh, [r] + rest) && BatchDone(sh, [r], sh1) && BatchDone(sh1, rest, sh2)
    ensures BatchDone(sh, [r] + rest, sh2)
  {
    hide Batch, RowsDone, ActionsDone;
    RowsDoneMore(sh, r, rest, sh1, sh2);
    ActionsDoneMore(sh, r, rest, sh1, sh2);
  }

  lemma RestIsBatch(cfg: Config, sh: Shared, r: Claimed, rest: seq<Claimed>, sh1: Shared)
    requires Batch(sh, [r] + rest) && BatchDone(sh, [r], sh1) && AllAllowed(cfg, sh)
    ensures Batch(sh1, rest) && AllAllowed(cfg, sh1)
  {
    hide AllAllowed, HasRowOf, HasActionOf, ActionAfter;
    StillAllowed(cfg, sh, r, sh1);
    var rs := [r] + rest;
    assert forall i :: 0 <= i < |rest| ==> rest[i] == rs[i + 1];
  }

  lemma StillAllowed(cfg: Config, sh: Shared, r: Claimed, sh1: Shared)
    requires ActionsDone(sh, [r], sh1) && sh1.policy == sh.policy && AllAllowed(cfg, sh)
    ensures AllAllowed(cfg, sh1)
  {
    hide PolicyAllows, HasActionOf, Recorded;
  }

  /** The world in which only this client has moved. */
  function Moved(w: World, c: nat, sh: Shared, cl: Client): World {
    w.(shared := sh, clients := w.clients[c := cl])
  }

  lemma LeadsKept(w: World, c: nat, sh: Shared, cl: Client)
    requires Inv(w) && c in w.clients && Leads(w.cfg, w.shared, w.clients[c], sh, cl)
    ensures Inv(Moved(w, c, sh, cl))
  {
    hide ClientStep, Script, Inv, Run, Evolves;
    var chs: seq<Choice> :| Script(w.cfg, w.shared, w.clients[c], chs) == Outcome(sh, cl);
    ScriptRun(w, c, chs);
    RunKept(w, StepsOf(c, chs));
  }

  lemma {:induction false} HandlesAll(w: World, c: nat, rs: seq<Claimed>, ch: Choice) returns (sh': Shared)
    requires Inv(w) && c in w.clients && w.clients[c] == Work(Loop(rs)) && !ch.raises
    requires Batch(w.shared, rs) && AllAllowed(w.cfg, w.shared)
    ensures Leads(w.cfg, w.shared, Work(Loop(rs)), sh', FINISHED) && BatchDone(w.shared, rs, sh')
    decreases |rs|
  {
    hide ClientStep, Inv, Batch, AllAllowed, BatchDone, Leads;
    if rs == [] {
      sh' := w.shared;
      DoneNone(sh');
      NothingLeft(w.cfg, sh', ch);
      LeadsNowhere(w.cfg, sh', FINISHED);
      LeadsFirst(w.cfg, sh', Work(Loop([])), ch, sh', FINISHED, sh', FINISHED);
    } else {
      var r, rest := rs[0], rs[1..];
      assert rs == [r] + rest;
      InvShared(w);
      var sh1 := HandlesOne(w.cfg, w.shared, r, rest, ch);
      RestIsBatch(w.cfg, w.shared, r, rest, sh1);
      LeadsKept(w, c, sh1, Work(Loop(rest)));
      sh' := HandlesAll(Moved(w, c, sh1, Work(Loop(rest))), c, rest, ch);
      DoneMore(w.shared, r, rest, sh1, sh');
      LeadsOn(w.cfg, w.shared, Work(Loop(rs)), sh1, Work(Loop(rest)), sh', FINISHED);
    }
  }

  // ---- From the claim on ----

  function PickAll(ids: seq<nat>): Choice {
    Choice(false, 0, 0, Name(""), ids)
  }

  ghost predicate Distinct(ids: seq<nat>) {
    forall i, j :: 0 <= i < j < |ids| ==> ids[i] != ids[j]
  }

  lemma BatchIsDistinct(t: Tables, now: int, limit: nat, ids: seq<nat>)
    requires DueBatch(t, now, limit, ids)
    ensures Distinct(ids) && forall i :: 0 <= i < |ids| ==> ids[i] in t.outbox
  {
  }

  function LeasedAll(cfg: Config, sh: Shared, ids: seq<nat>): Shared {
    WithTables(sh, Leasing(sh, ids, sh.now + cfg.leaseSeconds))
  }

  lemma ClaimsAll(cfg: Config, sh: Shared, limit: nat, ids: seq<nat>)
    requires DueBatch(sh.tables, sh.now, limit, ids)
    ensures ClientStep(cfg, sh, Work(ClaimRows(limit)), PickAll(ids))
            == Outcome(LeasedAll(cfg, sh, ids), Work(RereadRows(ids)))
  {
    hide StepSubmit, StepAuthorize, StepAction, StepBridge, DueBatch, Leasing;
  }

  lemma RereadsAll(cfg: Config, sh: Shared, ids: seq<nat>)
    requires Distinct(ids)
    ensures ClientStep(cfg, sh, Work(RereadRows(ids)), PickAll(ids))
            == Outcome(sh, Work(Loop(ReadRows(sh.tables, ids))))
  {
    hide StepSubmit, StepAuthorize, StepAction, StepBridge, ReadRows;
  }

  lemma {:induction false} ReadRowsAt(t: Tables, ids: seq<nat>)
    requires forall i :: 0 <= i < |ids| ==> ids[i] in t.outbox
    ensures |ReadRows(t, ids)| == |ids|
    ensures forall i :: 0 <= i < |ids| ==> ReadRows(t, ids)[i] == Claimed(ids[i], t.outbox[ids[i]])
    decreases |ids|
  {
    if ids != [] { ReadRowsAt(t, ids[1..]); }
  }

  /** The claim and the second read, in two steps. */
  lemma ComesToLoop(cfg: Config, sh: Shared, limit: nat, ids: seq<nat>)
    requires DueBatch(sh.tables, sh.now, limit, ids)
    ensures var sh1 := LeasedAll(cfg, sh, ids);
            Leads(cfg, sh, Work(ClaimRows(limit)), sh1, Work(Loop(ReadRows(sh1.tables, ids))))
  {
    hide ClientStep, Leads, DueBatch, ReadRows, Leasing;
    var sh1 := LeasedAll(cfg, sh, ids);
    var end := Work(Loop(ReadRows(sh1.tables, ids)));
    BatchIsDistinct(sh.tables, sh.now, limit, ids);
    LeadsNowhere(cfg, sh1, end);
    RereadsAll(cfg, sh1, ids);
    LeadsFirst(cfg, sh1, Work(RereadRows(ids)), PickAll(ids), sh1, end, sh1, end);
    ClaimsAll(cfg, sh, limit, ids);
    LeadsFirst(cfg, sh, Work(ClaimRows(limit)), PickAll(ids), sh1, Work(RereadRows(ids)), sh1, end);
  }

  lemma LeasedRows(cfg: Config, sh: Shared, ids: seq<nat>)
    requires Distinct(ids)
    ensures var os, os' := sh.tables.outbox, LeasedAll(cfg, sh, ids).tables.outbox;
            && os'.Keys == os.Keys
            && forall o :: o in os ==> os'[o] == if o in ids then Lease(os[o], sh.now + cfg.leaseSeconds) else os[o]
  {
    LeaseRowsAt(sh.tables.outbox, ids, sh.now + cfg.leaseSeconds);
  }

  lemma RowsAreOk(w: World)
    requires Inv(w)
    ensures OutboxOk(w.cfg, w.shared.tables.actions, w.shared.tables.outbox)
  {
    hide KeysOk, LogsLegal, OutboxOk, ProposalsOk, VersionsOk, LedgerOk, CallsOk, ClientsOk, OwnersDistinct;
  }

  lemma ReadIsBatch(w: World, ids: seq<nat>)
    requires Inv(w) && Distinct(ids) && forall i :: 0 <= i < |ids| ==> ids[i] in w.shared.tables.outbox
    ensures Batch(w.shared, ReadRows(w.shared.tables, ids))
  {
    hide Inv, ReadRows, HasRow;
    RowsAreOk(w);
    ReadRowsAt(w.shared.tables, ids);
    var t := w.shared.tables;
    forall i, j | 0 <= i < j < |ids| ensures t.outbox[ids[i]].actionId != t.outbox[ids[j]].actionId {
      assert ids[i] != ids[j];
    }
  }

  // ---- The theorem ----

  /** The row after one more attempt that succeeded. */
  function Once(row: OutboxRow, now: int): OutboxRow {
    row.(status := Delivered, availableAt := now, leaseUntil := None, attempts := row.attempts + 1)
  }

  ghost predicate ActionOfOne(os: map<nat, OutboxRow>, ids: seq<nat>, id: nat) {
    exists o :: o in ids && o in os && os[o].actionId == id
  }

  /** The rows are delivered and their actions have been dispatched, and no others have changed. */
  ghost predicate AllDelivered(sh: Shared, ids: seq<nat>, sh': Shared) {
    var t, t' := sh.tables, sh'.tables;
    && t'.outbox.Keys == t.outbox.Keys && t'.actions.Keys == t.actions.Keys
    && (forall o :: o in t.outbox ==> t'.outbox[o] == if o in ids then Once(t.outbox[o], sh.now) else t.outbox[o])
    && (forall id :: id in t.actions ==>
         t'.actions[id] == if ActionOfOne(t.outbox, ids, id) then ActionAfter(sh, id) else t.actions[id])
  }

  lemma RecordsOfIds(t: Tables, ids: seq<nat>, rs: seq<Claimed>)
    requires |rs| == |ids| && forall i :: 0 <= i < |ids| ==>
             ids[i] in t.outbox && rs[i] == Claimed(ids[i], t.outbox[ids[i]])
    ensures forall o :: HasRowOf(rs, o) <==> o in ids
    ensures forall id :: HasActionOf(rs, id) <==> ActionOfOne(t.outbox, ids, id)
  {
    forall o | o in ids ensures HasRowOf(rs, o) {
      var i :| 0 <= i < |ids| && ids[i] == o;
      assert rs[i].id == o;
    }
    forall id | HasActionOf(rs, id) ensures ActionOfOne(t.outbox, ids, id) {
      var i :| 0 <= i < |rs| && rs[i].row.actionId == id;
      assert ids[i] in ids;
    }
    forall id | ActionOfOne(t.outbox, ids, id) ensures HasActionOf(rs, id) {
      var o :| o in ids && o in t.outbox && t.outbox[o].actionId == id;
      var i :| 0 <= i < |ids| && ids[i] == o;
      assert rs[i].row.actionId == id;
    }
  }

  lemma LeasedSame(os: map<nat, OutboxRow>, os1: map<nat, OutboxRow>, ids: seq<nat>, until: int, id: nat)
    requires os1.Keys == os.Keys && forall o :: o in os ==> os1[o] == if o in ids then Lease(os[o], until) else os[o]
    ensures ActionOfOne(os1, ids, id) <==> ActionOfOne(os, ids, id)
  {
    if ActionOfOne(os1, ids, id) {
      var o :| o in ids && o in os1 && os1[o].actionId == id;
      assert o in os;
    }
    if ActionOfOne(os, ids, id) {
      var o :| o in ids && o in os && os[o].actionId == id;
      assert o in os1;
    }
  }

  lemma RowsDelivered(cfg: Config, sh: Shared, ids: seq<nat>, sh': Shared, o: nat)
    requires Distinct(ids) && (forall i :: 0 <= i < |ids| ==> ids[i] in sh.tables.outbox) && o in sh.tables.outbox
    requires var sh1 := LeasedAll(cfg, sh, ids); RowsDone(sh1, ReadRows(sh1.tables, ids), sh')
    ensures sh'.tables.outbox.Keys == sh.tables.outbox.Keys
    ensures sh'.tables.outbox[o] == if o in ids then Once(sh.tables.outbox[o], sh.now) else sh.tables.outbox[o]
  {
    hide ReadRows, Leasing, HasRowOf, HasActionOf, ActionOfOne;
    var sh1 := LeasedAll(cfg, sh, ids);
    LeasedRows(cfg, sh, ids);
    ReadRowsAt(sh1.tables, ids);
    RecordsOfIds(sh1.tables, ids, ReadRows(sh1.tables, ids));
  }

  lemma ActionsDelivered(cfg: Config, sh: Shared, ids: seq<nat>, sh': Shared, id: nat)
    requires Distinct(ids) && (forall i :: 0 <= i < |ids| ==> ids[i] in sh.tables.outbox) && id in sh.tables.actions
    requires var sh1 := LeasedAll(cfg, sh, ids); ActionsDone(sh1, ReadRows(sh1.tables, ids), sh')
    ensures sh'.tables.actions.Keys == sh.tables.actions.Keys
    ensures sh'.tables.actions[id]
            == if ActionOfOne(sh.tables.outbox, ids, id) then ActionAfter(sh, id) else sh.tables.actions[id]
  {
    hide ReadRows, HasRowOf, HasActionOf, ActionOfOne, LeaseRows, Recorded;
    var sh1 := LeasedAll(cfg, sh, ids);
    LeasedRows(cfg, sh, ids);
    ReadRowsAt(sh1.tables, ids);
    RecordsOfIds(sh1.tables, ids, ReadRows(sh1.tables, ids));
    LeasedSame(sh.tables.outbox, sh1.tables.outbox, ids, sh.now + cfg.leaseSeconds, id);
  }

  lemma BatchLeaves(cfg: Config, sh: Shared, ids: seq<nat>, sh': Shared)
    requires Distinct(ids) && forall i :: 0 <= i < |ids| ==> ids[i] in sh.tables.outbox
    requires var sh1 := LeasedAll(cfg, sh, ids); BatchDone(sh1, ReadRows(sh1.tables, ids), sh')
    ensures AllDelivered(sh, ids, sh')
  {
    hide ReadRows, LeasedAll, RowsDone, ActionsDone, ActionAfter, ActionOfOne, Once;
    forall o | o in sh.tables.outbox
      ensures o in sh'.tables.outbox
      ensures sh'.tables.outbox[o] == if o in ids then Once(sh.tables.outbox[o], sh.now) else sh.tables.outbox[o]
    {
      RowsDelivered(cfg, sh, ids, sh', o);
    }
    forall id | id in sh.tables.actions
      ensures id in sh'.tables.actions
      ensures sh'.tables.actions[id]
              == if ActionOfOne(sh.tables.outbox, ids, id) then ActionAfter(sh, id) else sh.tables.actions[id]
    {
      ActionsDelivered(cfg, sh, ids, sh', id);
    }
    BatchKeys(cfg, sh, ids, sh');
  }

  lemma BatchKeys(cfg: Config, sh: Shared, ids: seq<nat>, sh': Shared)
    requires Distinct(ids)
    requires var sh1 := LeasedAll(cfg, sh, ids); BatchDone(sh1, ReadRows(sh1.tables, ids), sh')
    ensures sh'.tables.outbox.Keys == sh.tables.outbox.Keys && sh'.tables.actions.Keys == sh.tables.actions.Keys
  {
    hide ReadRows, LeaseRows, HasRowOf, HasActionOf;
    LeasedRows(cfg, sh, ids);
  }

  /** The worker, started from this state with these choices, has done the batch and is finished. */
  ghost predicate Delivers(w: World, c: nat, limit: nat, ids: seq<nat>, chs: seq<Choice>) {
    var later := Run(w, [Spawn(c, Deliver(limit))] + StepsOf(c, chs));
    c in later.clients && later.clients[c] == FINISHED && AllDelivered(w.shared, ids, later.shared)
  }

  lemma WorkerLeads(w: World, c: nat, limit: nat, ids: seq<nat>) returns (sh': Shared)
    requires Inv(w) && c in w.clients && w.clients[c] == Work(ClaimRows(limit))
    requires DueBatch(w.shared.tables, w.shared.now, limit, ids) && AllAllowed(w.cfg, w.shared)
    ensures Leads(w.cfg, w.shared, Work(ClaimRows(limit)), sh', FINISHED) && AllDelivered(w.shared, ids, sh')
  {
    hide ClientStep, Inv, DueBatch, Leads, ReadRows, LeaseRows, AllDelivered, PolicyAllows, BatchDone;
    var sh1 := LeasedAll(w.cfg, w.shared, ids);
    var rs := ReadRows(sh1.tables, ids);
    BatchIsDistinct(w.shared.tables, w.shared.now, limit, ids);
    LeasedRows(w.cfg, w.shared, ids);
    ComesToLoop(w.cfg, w.shared, limit, ids);
    LeadsKept(w, c, sh1, Work(Loop(rs)));
    var w1 := Moved(w, c, sh1, Work(Loop(rs)));
    ReadIsBatch(w1, ids);
    sh' := HandlesAll(w1, c, rs, PickAll(ids));
    LeadsOn(w.cfg, w.shared, Work(ClaimRows(limit)), sh1, Work(Loop(rs)), sh', FINISHED);
    BatchLeaves(w.cfg, w.shared, ids, sh');
  }

  lemma ActionsAreAllowed(w: World, moves: seq<Move>)
    requires Initial(w)
    ensures AllAllowed(w.cfg, Run(w, moves).shared)
  {
    hide Initial, Run, PolicyAllows, Covered;
    if w.cfg.governed {
      forall id | id in Run(w, moves).shared.tables.actions
        ensures PolicyAllows(Run(w, moves).shared.policy, Run(w, moves).shared.tables.actions[id].command)
      {
        PolicyNeverStopsDispatch(w, moves, id);
      }
    }
  }

  /**
    From any reachable state an uninterrupted worker delivers every row of the batch it
    claims, each after one more attempt, has the action of each dispatched unless that is
    already under way or done, and touches no other row and no other action.
   */
  lemma BatchIsDelivered(w: World, moves: seq<Move>, c: nat, limit: nat, ids: seq<nat>)
    requires Initial(w) && c !in Run(w, moves).clients
    requires DueBatch(Run(w, moves).shared.tables, Run(w, moves).shared.now, limit, ids)
    ensures exists chs: seq<Choice> :: Delivers(Run(w, moves), c, limit, ids, chs)
  {
    hide Initial, Run, Inv, Script, ClientStep, DueBatch, AllDelivered, AllAllowed, Evolves;
    InitialInv(w);
    RunKept(w, moves);
    var now := Run(w, moves);
    SameConfig(w, moves);
    ActionsAreAllowed(w, moves);
    MoveKept(now, Spawn(c, Deliver(limit)));
    var first := Apply(now, Spawn(c, Deliver(limit)));
    var sh' := WorkerLeads(first, c, limit, ids);
    var chs: seq<Choice> :| Script(now.cfg, now.shared, Work(ClaimRows(limit)), chs) == Outcome(sh', FINISHED);
    RunFirst(now, Spawn(c, Deliver(limit)), StepsOf(c, chs));
    ScriptRun(first, c, chs);
    assert Delivers(now, c, limit, ids, chs);
  }
}

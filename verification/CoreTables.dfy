/**
  The tables of the core store and each of its transactions as a function from
  tables to tables.  A transaction that the store rolls back returns `None`.
 */
module CoreTables {
  import opened Domain

  /**
    `keyIndex` is the index behind the UNIQUE constraint on `idempotency_key`.
    `commits` is a history variable: how many facts each case has had committed.
   */
  datatype Tables = Tables(
    cases: map<Name, Case>,
    facts: map<(Name, FactName), Fact>,
    actions: map<nat, Action>,
    keyIndex: map<Name, nat>,
    events: seq<Event>,
    proposals: map<nat, Proposal>,
    outbox: map<nat, OutboxRow>,
    commits: map<Name, nat>)

  const EMPTY := Tables(map[], map[], map[], map[], [], map[], map[], map[])

  // ---- Cases and facts ----

  function CreateCase(t: Tables, id: Name, customer: Name, procedure: Name, version: Name): Option<Tables> {
    if id in t.cases then None
    else Some(t.(cases := t.cases[id := Case(customer, procedure, version, 0)], commits := t.commits[id := 0]))
  }

  function Bump(c: Case): Case {
    c.(version := c.version + 1)
  }

  function AppendFact(t: Tables, caseId: Name, name: FactName, fact: Fact, expected: int): Option<Tables> {
    if caseId !in t.cases || t.cases[caseId].version != expected then None
    else Some(t.(
      cases := t.cases[caseId := Bump(t.cases[caseId])],
      facts := t.facts[(caseId, name) := fact],
      commits := t.commits[caseId := Commits(t.commits, caseId) + 1]))
  }

  function Commits(commits: map<Name, nat>, caseId: Name): nat {
    if caseId in commits then commits[caseId] else 0
  }

  // ---- Actions ----

  function NewRow(actionId: nat, now: int): OutboxRow {
    OutboxRow(ActionDispatch, actionId, Waiting, 0, now, None, now)
  }

  /** The version check, the action row, its first two events and its outbox row commit together. */
  function InsertAction(t: Tables, id: nat, outboxId: nat, command: Command, expected: int, now: int): Option<Tables> {
    if command.caseId !in t.cases || t.cases[command.caseId].version != expected then None
    else if id in t.actions || command.key in t.keyIndex || outboxId in t.outbox then None
    else Some(t.(
      cases := t.cases[command.caseId := Bump(t.cases[command.caseId])],
      actions := t.actions[id := Action(command, Authorized)],
      keyIndex := t.keyIndex[command.key := id],
      events := t.events + [Event(id, Requested), Event(id, Authorized)],
      outbox := t.outbox[outboxId := NewRow(id, now)]))
  }

  function SetStatus(t: Tables, id: nat, status: ActionStatus): Tables
    requires id in t.actions
  {
    t.(actions := t.actions[id := t.actions[id].(status := status)], events := t.events + [Event(id, status)])
  }

  /** Returns the new tables and whether this caller won the claim. */
  function ClaimAction(t: Tables, id: nat): (Tables, bool) {
    if id in t.actions && t.actions[id].status == Authorized then (SetStatus(t, id, Dispatched), true)
    else (t, false)
  }

  function TransitionAction(t: Tables, id: nat, expected: ActionStatus, status: ActionStatus): Option<Tables> {
    if id in t.actions && t.actions[id].status == expected then Some(SetStatus(t, id, status)) else None
  }

  /** The transitions `record_outcome` permits. */
  predicate OutcomeAllowed(current: ActionStatus, status: ActionStatus) {
    match current
    case Dispatched => status.Succeeded? || status.Failed? || status.Unknown?
    case Unknown => status.Unknown? || status.Failed? || status.Reconciled?
    case _ => false
  }

  // ---- Proposals ----

  function CreateProposal(t: Tables, id: nat, offer: Offer): Option<Tables> {
    if id in t.proposals then None
    else Some(t.(proposals := t.proposals[id := Proposal(offer, Pending, None)]))
  }

  function TransitionProposal(t: Tables, id: nat, expected: ProposalStatus, status: ProposalStatus,
                              actionId: Option<nat>): Option<Tables>
  {
    if id !in t.proposals || t.proposals[id].status != expected then None
    else
      var p := t.proposals[id];
      Some(t.(proposals := t.proposals[id :=
        p.(status := status, actionId := if actionId.Some? then actionId else p.actionId)]))
  }

  // ---- Outbox ----

  predicate Due(row: OutboxRow, now: int) {
    && row.availableAt <= now
    && (row.status == Waiting || row.status == Retry ||
        (row.status == Leased && row.leaseUntil.Some? && row.leaseUntil.value < now))
  }

  function Lease(row: OutboxRow, until: int): OutboxRow {
    row.(status := Leased, leaseUntil := Some(until), attempts := row.attempts + 1)
  }

  /**
    The rows one claim selects: distinct due rows, oldest first, and as many as the
    limit and the table permit.
   */
  ghost predicate DueBatch(t: Tables, now: int, limit: nat, ids: seq<nat>) {
    && (forall i :: 0 <= i < |ids| ==> ids[i] in t.outbox && Due(t.outbox[ids[i]], now))
    && (forall i, j :: 0 <= i < j < |ids| ==>
         ids[i] != ids[j] && t.outbox[ids[i]].createdAt <= t.outbox[ids[j]].createdAt)
    && |ids| <= limit
    && (forall id :: id in t.outbox && Due(t.outbox[id], now) && id !in ids ==>
         |ids| == limit && forall i :: 0 <= i < |ids| ==> t.outbox[ids[i]].createdAt <= t.outbox[id].createdAt)
  }

  /** Available, and waiting for an attempt or under a lease that is over. */
  predicate Claimable(row: OutboxRow, now: int) {
    && row.availableAt <= now
    && match row.status
       case Waiting => true
       case Retry => true
       case Leased => row.leaseUntil.Some? && row.leaseUntil.value < now
       case _ => false
  }

  /** A claim selects only claimable rows, and with room in the limit all of them. */
  lemma BatchIsClaimable(t: Tables, now: int, limit: nat, ids: seq<nat>)
    requires DueBatch(t, now, limit, ids)
    ensures forall o :: o in ids ==> o in t.outbox && Claimable(t.outbox[o], now)
    ensures |ids| < limit ==> forall o :: o in t.outbox && Claimable(t.outbox[o], now) ==> o in ids
  {
  }

  function LeaseRows(rows: map<nat, OutboxRow>, ids: seq<nat>, until: int): map<nat, OutboxRow> {
    if ids == [] then rows
    else LeaseRows(if ids[0] in rows then rows[ids[0] := Lease(rows[ids[0]], until)] else rows, ids[1..], until)
  }

  /** Each leased row is leased once; the others are left alone. */
  lemma {:induction false} LeaseRowsAt(rows: map<nat, OutboxRow>, ids: seq<nat>, until: int)
    requires forall i, j :: 0 <= i < j < |ids| ==> ids[i] != ids[j]
    ensures var rows' := LeaseRows(rows, ids, until);
            && rows'.Keys == rows.Keys
            && forall id :: id in rows ==> rows'[id] == if id in ids then Lease(rows[id], until) else rows[id]
  {
    if ids != [] {
      var rest := ids[1..];
      var once := if ids[0] in rows then rows[ids[0] := Lease(rows[ids[0]], until)] else rows;
      LeaseRowsAt(once, rest, until);
      assert ids[0] !in rest;
      assert ids == [ids[0]] + rest;
    }
  }

  /** Settling never looks at who holds the lease. */
  function SettleRow(t: Tables, id: nat, status: OutboxStatus, availableAt: int): Option<Tables> {
    if id !in t.outbox then None
    else Some(t.(outbox := t.outbox[id :=
      t.outbox[id].(status := status, availableAt := availableAt, leaseUntil := None)]))
  }

  // ---- Event logs ----

  /** The statuses recorded for one action, in rowid order. */
  function LogOf(events: seq<Event>, id: nat): seq<ActionStatus> {
    if events == [] then []
    else
      var rest := LogOf(events[..|events| - 1], id);
      var last := events[|events| - 1];
      if last.actionId == id then rest + [last.status] else rest
  }

  lemma LogAppend(events: seq<Event>, e: Event, id: nat)
    ensures LogOf(events + [e], id) == if e.actionId == id then LogOf(events, id) + [e.status] else LogOf(events, id)
  {
    assert (events + [e])[..|events|] == events;
  }

  /** The action state graph. */
  predicate Edge(from: ActionStatus, to: ActionStatus) {
    || (from == Requested && to == Authorized)
    || (from == Authorized && to == Dispatched)
    || (from == Dispatched && (to == Succeeded || to == Failed || to == Unknown))
    || (from == Unknown && (to == Unknown || to == Failed || to == Reconciled))
  }

  /** The log is a path of the state graph from REQUESTED to `status`. */
  predicate LegalLog(log: seq<ActionStatus>, status: ActionStatus) {
    var n := |log|;
    && n > 0 && log[n - 1] == status
    && if n == 1 then status == Requested else Edge(log[n - 2], status) && LegalLog(log[..n - 1], log[n - 2])
  }

  /** Every action's log is a path of the state graph from REQUESTED to its stored status. */
  ghost predicate LogsLegal(actions: map<nat, Action>, events: seq<Event>) {
    && (forall id :: id in actions ==> LegalLog(LogOf(events, id), actions[id].status))
    && (forall i :: 0 <= i < |events| ==> events[i].actionId in actions)
  }

  lemma {:induction false} NoEventsNoLog(events: seq<Event>, id: nat)
    requires forall i :: 0 <= i < |events| ==> events[i].actionId != id
    ensures LogOf(events, id) == []
  {
    if events != [] { NoEventsNoLog(events[..|events| - 1], id); }
  }

  lemma LegalExtend(log: seq<ActionStatus>, status: ActionStatus, next: ActionStatus)
    requires LegalLog(log, status) && Edge(status, next)
    ensures LegalLog(log + [next], next)
  {
    assert (log + [next])[..|log|] == log;
  }

  /** Writing a status along an edge of the graph extends a legal log to a legal log. */
  lemma SetStatusKeepsLogs(t: Tables, id: nat, status: ActionStatus)
    requires LogsLegal(t.actions, t.events) && id in t.actions && Edge(t.actions[id].status, status)
    ensures LogsLegal(SetStatus(t, id, status).actions, SetStatus(t, id, status).events)
  {
    var t' := SetStatus(t, id, status);
    forall other | other in t'.actions ensures LegalLog(LogOf(t'.events, other), t'.actions[other].status) {
      LogAppend(t.events, Event(id, status), other);
      if other == id { LegalExtend(LogOf(t.events, id), t.actions[id].status, status); }
    }
  }

  lemma NewLogIsLegal()
    ensures LegalLog([Requested, Authorized], Authorized)
  {
    assert LegalLog([Requested], Requested);
  }

  lemma InsertActionKeepsLogs(t: Tables, id: nat, outboxId: nat, command: Command, expected: int, now: int)
    requires LogsLegal(t.actions, t.events) && InsertAction(t, id, outboxId, command, expected, now).Some?
    ensures var t' := InsertAction(t, id, outboxId, command, expected, now).value; LogsLegal(t'.actions, t'.events)
  {
    hide LegalLog, LogOf;
    var t' := InsertAction(t, id, outboxId, command, expected, now).value;
    var mid := t.events + [Event(id, Requested)];
    assert t'.events == mid + [Event(id, Authorized)];
    NoEventsNoLog(t.events, id);
    NewLogIsLegal();
    assert [] + [Requested] + [Authorized] == [Requested, Authorized];
    forall other | other in t'.actions ensures LegalLog(LogOf(t'.events, other), t'.actions[other].status) {
      LogAppend(t.events, Event(id, Requested), other);
      LogAppend(mid, Event(id, Authorized), other);
    }
  }

  // ---- Backfill of logs for actions that predate the event table ----

  function BackfillLog(status: ActionStatus): seq<ActionStatus> {
    [Requested]
    + (if status != Requested then [Authorized] else [])
    + (if status in {Dispatched, Succeeded, Failed, Unknown, Reconciled} then [Dispatched] else [])
    + (if status == Reconciled then [Unknown] else [])
    + (if status in {Succeeded, Failed, Unknown, Reconciled} then [status] else [])
  }

  /** Whatever status an old action has, its reconstructed log is legal. */
  lemma BackfillLogIsLegal(status: ActionStatus)
    ensures LegalLog(BackfillLog(status), status)
  {
    LegalExtend([Requested], Requested, Authorized);
    assert [Requested] + [Authorized] == [Requested, Authorized];
    LegalExtend([Requested, Authorized], Authorized, Dispatched);
    assert [Requested, Authorized] + [Dispatched] == [Requested, Authorized, Dispatched];
    LegalExtend([Requested, Authorized, Dispatched], Dispatched, Unknown);
    match status
    case Requested => assert BackfillLog(status) == [Requested];
    case Authorized => assert BackfillLog(status) == [Requested] + [Authorized];
    case Dispatched => assert BackfillLog(status) == [Requested, Authorized] + [Dispatched];
    case Reconciled =>
      assert [Requested, Authorized, Dispatched] + [Unknown] == [Requested, Authorized, Dispatched, Unknown];
      LegalExtend([Requested, Authorized, Dispatched, Unknown], Unknown, Reconciled);
      assert BackfillLog(status) == [Requested, Authorized, Dispatched, Unknown] + [Reconciled];
    case _ =>
      LegalExtend([Requested, Authorized, Dispatched], Dispatched, status);
      assert BackfillLog(status) == [Requested, Authorized, Dispatched] + [status];
  }

  /** A legal log read forwards: it starts at REQUESTED, ends at the status and steps along edges. */
  lemma {:induction false} LegalLogIsPath(log: seq<ActionStatus>, status: ActionStatus)
    requires LegalLog(log, status)
    ensures log != [] && log[0] == Requested && log[|log| - 1] == status
    ensures forall i, j :: 0 <= i && j == i + 1 && j < |log| ==> Edge(log[i], log[j])
  {
    var n := |log|;
    if n > 1 {
      LegalLogIsPath(log[..n - 1], log[n - 2]);
      forall i, j | 0 <= i && j == i + 1 && j < n ensures Edge(log[i], log[j]) {
        if j < n - 1 { assert log[i] == log[..n - 1][i] && log[j] == log[..n - 1][j]; }
      }
    }
  }
}

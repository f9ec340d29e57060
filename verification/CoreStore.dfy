/**
  The core store as an object: its tables are fields, each method is one transaction,
  and each is proved against the corresponding function of `CoreTables`.
 */
module CoreStore {
  import opened Domain
  import opened CoreTables

  class SQLiteCoreStore {
    var cases: map<Name, Case>
    var facts: map<(Name, FactName), Fact>
    var actions: map<nat, Action>
    var keyIndex: map<Name, nat>
    var events: seq<Event>
    var proposals: map<nat, Proposal>
    var outbox: map<nat, OutboxRow>
    /** The row of `core_migrations` for the event backfill. */
    var migrated: bool
    ghost var commits: map<Name, nat>

    ghost function Contents(): Tables
      reads this
    {
      Tables(cases, facts, actions, keyIndex, events, proposals, outbox, commits)
    }

    constructor ()
      ensures Contents() == EMPTY && !migrated
    {
      cases, facts, actions, keyIndex := map[], map[], map[], map[];
      events, proposals, outbox, migrated, commits := [], map[], map[], false, map[];
    }

    method CreateCase(id: Name, customer: Name, procedure: Name, version: Name) returns (ok: bool)
      modifies this
      ensures ok == CoreTables.CreateCase(old(Contents()), id, customer, procedure, version).Some?
      ensures Contents() ==
              if ok then CoreTables.CreateCase(old(Contents()), id, customer, procedure, version).value
              else old(Contents())
      ensures migrated == old(migrated)
    {
      ok := id !in cases;
      if ok {
        cases := cases[id := Case(customer, procedure, version, 0)];
        commits := commits[id := 0];
      }
    }

    /** The versioned update every change of a case goes through. */
    method BumpVersion(id: Name, expected: int) returns (ok: bool)
      modifies this`cases
      ensures ok == (id in old(cases) && old(cases)[id].version == expected)
      ensures cases == if ok then old(cases)[id := Bump(old(cases)[id])] else old(cases)
    {
      ok := id in cases && cases[id].version == expected;
      if ok { cases := cases[id := cases[id].(version := cases[id].version + 1)]; }
    }

    method AppendFact(id: Name, name: FactName, fact: Fact, expected: int) returns (ok: bool)
      modifies this
      ensures ok == CoreTables.AppendFact(old(Contents()), id, name, fact, expected).Some?
      ensures Contents() ==
              if ok then CoreTables.AppendFact(old(Contents()), id, name, fact, expected).value else old(Contents())
      ensures migrated == old(migrated)
    {
      ok := BumpVersion(id, expected);
      if ok {
        facts := facts[(id, name) := fact];
        commits := commits[id := (if id in commits then commits[id] else 0) + 1];
      }
    }

    /** A violated constraint after the version bump rolls the bump back. */
    method InsertAction(id: nat, outboxId: nat, command: Command, expected: int, now: int) returns (ok: bool)
      modifies this
      ensures ok == CoreTables.InsertAction(old(Contents()), id, outboxId, command, expected, now).Some?
      ensures Contents() ==
              if ok then CoreTables.InsertAction(old(Contents()), id, outboxId, command, expected, now).value
              else old(Contents())
      ensures migrated == old(migrated)
    {
      var before := cases;
      ok := BumpVersion(command.caseId, expected);
      if !ok { return; }
      if id in actions || command.key in keyIndex || outboxId in outbox {
        cases, ok := before, false;
        return;
      }
      actions := actions[id := Action(command, Authorized)];
      keyIndex := keyIndex[command.key := id];
      var statuses, i := [Requested, Authorized], 0;
      while i < |statuses|
        invariant 0 <= i <= 2 && statuses == [Requested, Authorized]
        invariant events == old(events) + [Event(id, Requested), Event(id, Authorized)][..i]
        modifies this`events
      {
        events := events + [Event(id, statuses[i])];
        i := i + 1;
      }
      outbox := outbox[outboxId := OutboxRow(ActionDispatch, id, Waiting, 0, now, None, now)];
    }

    method ClaimAction(id: nat) returns (won: bool)
      modifies this
      ensures (Contents(), won) == CoreTables.ClaimAction(old(Contents()), id)
      ensures migrated == old(migrated)
    {
      won := id in actions && actions[id].status == Authorized;
      if won {
        actions := actions[id := actions[id].(status := Dispatched)];
        events := events + [Event(id, Dispatched)];
      }
    }

    method TransitionAction(id: nat, expected: ActionStatus, status: ActionStatus) returns (ok: bool)
      modifies this
      ensures ok == CoreTables.TransitionAction(old(Contents()), id, expected, status).Some?
      ensures Contents() ==
              if ok then CoreTables.TransitionAction(old(Contents()), id, expected, status).value else old(Contents())
      ensures migrated == old(migrated)
    {
      ok := id in actions && actions[id].status == expected;
      if ok {
        actions := actions[id := actions[id].(status := status)];
        events := events + [Event(id, status)];
      }
    }

    method CreateProposal(id: nat, offer: Offer) returns (ok: bool)
      modifies this
      ensures ok == CoreTables.CreateProposal(old(Contents()), id, offer).Some?
      ensures Contents() == if ok then CoreTables.CreateProposal(old(Contents()), id, offer).value else old(Contents())
      ensures migrated == old(migrated)
    {
      ok := id !in proposals;
      if ok { proposals := proposals[id := Proposal(offer, Pending, None)]; }
    }

    method TransitionProposal(id: nat, expected: ProposalStatus, status: ProposalStatus, actionId: Option<nat>)
      returns (ok: bool)
      modifies this
      ensures ok == CoreTables.TransitionProposal(old(Contents()), id, expected, status, actionId).Some?
      ensures Contents() ==
              if ok then CoreTables.TransitionProposal(old(Contents()), id, expected, status, actionId).value
              else old(Contents())
      ensures migrated == old(migrated)
    {
      ok := id in proposals && proposals[id].status == expected;
      if ok {
        var p := proposals[id].(status := status);
        proposals := proposals[id := if actionId.Some? then p.(actionId := actionId) else p];
      }
    }

    method UpdateOutbox(id: nat, status: OutboxStatus, availableAt: int) returns (found: bool)
      modifies this
      ensures found == SettleRow(old(Contents()), id, status, availableAt).Some?
      ensures Contents() == if found then SettleRow(old(Contents()), id, status, availableAt).value else old(Contents())
      ensures migrated == old(migrated)
    {
      found := id in outbox;
      if found {
        outbox := outbox[id := outbox[id].(status := status, availableAt := availableAt, leaseUntil := None)];
      }
    }

    // ---- Claiming due rows ----

    /** The oldest due row that has not been taken yet. */
    method OldestDue(now: int, taken: seq<nat>) returns (found: bool, oldest: nat)
      ensures found ==>
                && oldest in outbox && Due(outbox[oldest], now) && oldest !in taken
                && forall id :: id in outbox && Due(outbox[id], now) && id !in taken ==>
                     outbox[oldest].createdAt <= outbox[id].createdAt
      ensures !found ==> forall id :: id in outbox && Due(outbox[id], now) ==> id in taken
    {
      found, oldest := false, 0;
      var todo := outbox.Keys;
      while todo != {}
        invariant todo <= outbox.Keys
        invariant found ==> oldest in outbox && Due(outbox[oldest], now) && oldest !in taken
        invariant forall id :: id in outbox && id !in todo && Due(outbox[id], now) && id !in taken ==>
                    found && outbox[oldest].createdAt <= outbox[id].createdAt
        decreases todo
      {
        var id :| id in todo;
        if Due(outbox[id], now) && id !in taken && (!found || outbox[id].createdAt < outbox[oldest].createdAt) {
          found, oldest := true, id;
        }
        todo := todo - {id};
      }
    }

    /** Selects the due rows in order of creation, then leases them one by one; a running lease is respected. */
    method ClaimOutbox(now: int, leaseSeconds: int, limit: nat) returns (ids: seq<nat>)
      modifies this
      ensures DueBatch(old(Contents()), now, limit, ids)
      ensures forall o :: o in ids ==> o in old(outbox) && Claimable(old(outbox)[o], now)
      ensures |ids| < limit ==> forall o :: o in old(outbox) && Claimable(old(outbox)[o], now) ==> o in ids
      ensures Contents() == old(Contents()).(outbox := LeaseRows(old(outbox), ids, now + leaseSeconds))
      ensures migrated == old(migrated)
    {
      hide DueBatch, Due, Claimable;
      ids := SelectDue(now, limit);
      ghost var rows := outbox;
      var i := 0;
      while i < |ids|
        invariant 0 <= i <= |ids|
        invariant LeaseRows(outbox, ids[i..], now + leaseSeconds) == LeaseRows(rows, ids, now + leaseSeconds)
        modifies this`outbox
      {
        if ids[i] in outbox { outbox := outbox[ids[i] := Lease(outbox[ids[i]], now + leaseSeconds)]; }
        assert ids[i..][1..] == ids[i + 1..];
        i := i + 1;
      }
      assert ids[i..] == [];
    }

    method SelectDue(now: int, limit: nat) returns (ids: seq<nat>)
      ensures DueBatch(Contents(), now, limit, ids)
      ensures forall o :: o in ids ==> o in outbox && Claimable(outbox[o], now)
      ensures |ids| < limit ==> forall o :: o in outbox && Claimable(outbox[o], now) ==> o in ids
    {
      hide DueBatch, Due, Claimable;
      ids := [];
      var found, next := OldestDue(now, ids);
      while found && |ids| < limit
        invariant |ids| <= limit
        invariant Chosen(now, ids)
        invariant if found then Oldest(now, ids, next) else Exhausted(now, ids)
        decreases limit - |ids|, found
      {
        Extend(now, ids, next);
        ids := ids + [next];
        found, next := OldestDue(now, ids);
      }
      Batch(now, limit, ids, found, next);
      BatchIsClaimable(Contents(), now, limit, ids);
    }

    /** Distinct due rows in order of creation, none of them newer than a due row left out. */
    ghost predicate Chosen(now: int, ids: seq<nat>)
      reads this
    {
      && (forall i :: 0 <= i < |ids| ==> ids[i] in outbox && Due(outbox[ids[i]], now))
      && (forall i, j :: 0 <= i < j < |ids| ==>
          ids[i] != ids[j] && outbox[ids[i]].createdAt <= outbox[ids[j]].createdAt)
      && (forall i, id :: 0 <= i < |ids| && id in outbox && Due(outbox[id], now) && id !in ids ==>
           outbox[ids[i]].createdAt <= outbox[id].createdAt)
    }

    ghost predicate Oldest(now: int, ids: seq<nat>, next: nat)
      reads this
    {
      && next in outbox && Due(outbox[next], now) && next !in ids
      && forall id :: id in outbox && Due(outbox[id], now) && id !in ids ==>
          outbox[next].createdAt <= outbox[id].createdAt
    }

    ghost predicate Exhausted(now: int, ids: seq<nat>)
      reads this
    {
      forall id :: id in outbox && Due(outbox[id], now) ==> id in ids
    }

    lemma Extend(now: int, ids: seq<nat>, next: nat)
      requires Chosen(now, ids) && Oldest(now, ids, next)
      ensures Chosen(now, ids + [next])
    {
    }

    lemma Batch(now: int, limit: nat, ids: seq<nat>, found: bool, next: nat)
      requires Chosen(now, ids) && |ids| <= limit
      requires if found then Oldest(now, ids, next) && |ids| == limit else Exhausted(now, ids)
      ensures DueBatch(Contents(), now, limit, ids)
    {
    }

    // ---- Backfill of the event table ----

    /** The actions that have no event. */
    method LegacyActions() returns (legacy: seq<nat>)
      ensures forall i, j :: 0 <= i < j < |legacy| ==> legacy[i] != legacy[j]
      ensures forall id :: id in legacy <==> id in actions && LogOf(events, id) == []
    {
      legacy := [];
      var todo := actions.Keys;
      while todo != {}
        invariant todo <= actions.Keys
        invariant forall i, j :: 0 <= i < j < |legacy| ==> legacy[i] != legacy[j]
        invariant forall id :: id in legacy <==> id in actions && id !in todo && LogOf(events, id) == []
        decreases todo
      {
        var id :| id in todo;
        if LogOf(events, id) == [] { legacy := legacy + [id]; }
        todo := todo - {id};
      }
    }

    method Trail(status: ActionStatus) returns (sequence: seq<ActionStatus>)
      ensures sequence == BackfillLog(status)
    {
      sequence := [Requested];
      if status != Requested { sequence := sequence + [Authorized]; }
      if status in {Dispatched, Succeeded, Failed, Unknown, Reconciled} { sequence := sequence + [Dispatched]; }
      if status == Reconciled { sequence := sequence + [Unknown]; }
      if status in {Succeeded, Failed, Unknown, Reconciled} { sequence := sequence + [status]; }
    }

    /** Reconstructs the log of one action whose history was never recorded. */
    method Reconstruct(id: nat, status: ActionStatus)
      requires LogOf(events, id) == []
      modifies this`events
      ensures LogOf(events, id) == BackfillLog(status)
      ensures forall other :: other != id ==> LogOf(events, other) == LogOf(old(events), other)
      ensures |old(events)| <= |events| && old(events) == events[..|old(events)|]
      ensures forall i :: |old(events)| <= i < |events| ==> events[i].actionId == id
    {
      hide BackfillLog;
      var sequence := Trail(status);
      var i := 0;
      while i < |sequence|
        invariant 0 <= i <= |sequence|
        invariant LogOf(events, id) == sequence[..i]
        invariant forall other :: other != id ==> LogOf(events, other) == LogOf(old(events), other)
        invariant |old(events)| <= |events| && old(events) == events[..|old(events)|]
        invariant forall i :: |old(events)| <= i < |events| ==> events[i].actionId == id
        modifies this`events
      {
        forall other ensures LogOf(events + [Event(id, sequence[i])], other)
                             == if id == other then LogOf(events, other) + [sequence[i]] else LogOf(events, other)
        {
          LogAppend(events, Event(id, sequence[i]), other);
        }
        events := events + [Event(id, sequence[i])];
        i := i + 1;
      }
      assert sequence[..i] == sequence;
    }

    /**
      The migration: on the first run every action without events gets a reconstructed
      log and nothing else changes; on a later run nothing changes at all.
     */
    method Initialize()
      modifies this`events, this`migrated
      ensures migrated
      ensures old(migrated) ==> events == old(events)
      ensures !old(migrated) ==>
                forall id :: id in actions ==>
                  LogOf(events, id) == if LogOf(old(events), id) == [] then BackfillLog(actions[id].status)
                                       else LogOf(old(events), id)
      ensures |old(events)| <= |events| && old(events) == events[..|old(events)|]
      ensures forall i :: |old(events)| <= i < |events| ==> events[i].actionId in actions
    {
      hide LogOf, BackfillLog;
      if migrated { return; }
      var legacy := LegacyActions();
      var i := 0;
      while i < |legacy|
        invariant 0 <= i <= |legacy|
        invariant forall j :: 0 <= j < i ==> LogOf(events, legacy[j]) == BackfillLog(actions[legacy[j]].status)
        invariant forall id :: id !in legacy[..i] ==> LogOf(events, id) == LogOf(old(events), id)
        invariant |old(events)| <= |events| && old(events) == events[..|old(events)|]
        invariant forall i :: |old(events)| <= i < |events| ==> events[i].actionId in actions
        modifies this`events
      {
        assert legacy[i] !in legacy[..i];
        Reconstruct(legacy[i], actions[legacy[i]].status);
        i := i + 1;
      }
      migrated := true;
    }
  }

  /** Whatever old actions there are, the migration leaves every log a legal path. */
  lemma BackfillMakesLogsLegal(actions: map<nat, Action>, before: seq<Event>, after: seq<Event>)
    requires forall id :: id in actions && LogOf(before, id) != [] ==> LegalLog(LogOf(before, id), actions[id].status)
    requires forall id :: id in actions ==>
               LogOf(after, id)
               == if LogOf(before, id) == [] then BackfillLog(actions[id].status) else LogOf(before, id)
    requires forall i :: 0 <= i < |after| ==> after[i].actionId in actions
    ensures LogsLegal(actions, after)
  {
    hide BackfillLog, LegalLog, LogOf;
    forall id | id in actions ensures LegalLog(LogOf(after, id), actions[id].status) {
      BackfillLogIsLegal(actions[id].status);
    }
  }
}

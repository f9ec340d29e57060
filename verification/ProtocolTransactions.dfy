/**
  Each transaction of the store and of the provider keeps the shared invariant and
  undoes nothing.
 */
module ProtocolTransactions {
  import opened Domain
  import opened CoreTables
  import opened Provider
  import opened Protocol
  import opened ProtocolInvariant

  /** A change of the shared state that a client at `pc` may make. */
  ghost predicate Good(cfg: Config, sh: Shared, pc: Pc, sh': Shared) {
    SharedOk(cfg, sh') && Evolves(sh, sh') && Attributed(sh, pc, sh')
  }

  // A proof that only combines facts about separate tables hides the definitions it does not need.

  lemma Unchanged(t: Tables, effects: map<Name, Command>)
    ensures CasesEvolve(t.cases, t.facts, t.cases, t.facts) && ActionsEvolve(t.actions, t.actions)
    ensures ProposalsEvolve(t.proposals, t.proposals) && OutboxEvolves(t.outbox, t.outbox)
    ensures EffectsEvolve(effects, effects)
  {
  }

  /** A step that leaves the actions, the ledger and the calls alone needs no claim. */
  lemma Unclaimed(sh: Shared, pc: Pc, sh': Shared)
    requires sh'.tables.actions == sh.tables.actions && sh'.ledger.effects == sh.ledger.effects && sh'.calls == sh.calls
    ensures Attributed(sh, pc, sh')
  {
  }

  /** The clock, the scenarios and the resources are not part of the invariant. */
  lemma OutsideGood(cfg: Config, sh: Shared, pc: Pc, sh': Shared)
    requires SharedOk(cfg, sh)
    requires sh'.tables == sh.tables && sh'.ledger.effects == sh.ledger.effects && sh'.calls == sh.calls
    requires sh.now <= sh'.now
    ensures Good(cfg, sh, pc, sh')
  {
    hide KeysOk, LogsLegal, OutboxOk, ProposalsOk, VersionsOk, LedgerOk, CallsOk, Attributed;
    hide CasesEvolve, ActionsEvolve, ProposalsEvolve, OutboxEvolves, EffectsEvolve;
    Unchanged(sh.tables, sh.ledger.effects);
    Unclaimed(sh, pc, sh');
  }

  lemma StutterGood(cfg: Config, sh: Shared, pc: Pc)
    requires SharedOk(cfg, sh)
    ensures Good(cfg, sh, pc, sh)
  {
    hide *;
    OutsideGood(cfg, sh, pc, sh);
  }

  // ---- Cases and facts ----

  lemma CreateCaseGood(cfg: Config, sh: Shared, pc: Pc, id: Name, customer: Name, procedure: Name, version: Name)
    requires SharedOk(cfg, sh) && CreateCase(sh.tables, id, customer, procedure, version).Some?
    ensures Good(cfg, sh, pc, sh.(tables := CreateCase(sh.tables, id, customer, procedure, version).value))
  {
    hide KeysOk, LogsLegal, OutboxOk, ProposalsOk, VersionsOk, LedgerOk, CallsOk, Attributed;
    hide CasesEvolve, ActionsEvolve, ProposalsEvolve, OutboxEvolves, EffectsEvolve;
    var t, t' := sh.tables, CreateCase(sh.tables, id, customer, procedure, version).value;
    Unchanged(t, sh.ledger.effects);
    Unclaimed(sh, pc, sh.(tables := t'));
    NewCase(t.actions, t.keyIndex, t.cases, t.facts, t.commits, id, Case(customer, procedure, version, 0));
  }

  lemma NewCase(acts: map<nat, Action>, index: map<Name, nat>, cs: map<Name, Case>, fs: map<(Name, FactName), Fact>,
                commits: map<Name, nat>, id: Name, c: Case)
    requires KeysOk(acts, index, cs) && VersionsOk(cs, commits, acts) && id !in cs && c.version == 0
    ensures KeysOk(acts, index, cs[id := c])
    ensures VersionsOk(cs[id := c], commits[id := 0], acts)
    ensures CasesEvolve(cs, fs, cs[id := c], fs)
  {
    assert ActionsOn(acts, id) == {};
  }

  lemma AppendFactGood(cfg: Config, sh: Shared, pc: Pc, id: Name, name: FactName, fact: Fact, expected: int)
    requires SharedOk(cfg, sh) && AppendFact(sh.tables, id, name, fact, expected).Some?
    ensures Good(cfg, sh, pc, sh.(tables := AppendFact(sh.tables, id, name, fact, expected).value))
  {
    hide KeysOk, LogsLegal, OutboxOk, ProposalsOk, VersionsOk, LedgerOk, CallsOk, Attributed;
    hide CasesEvolve, ActionsEvolve, ProposalsEvolve, OutboxEvolves, EffectsEvolve;
    var t, t' := sh.tables, AppendFact(sh.tables, id, name, fact, expected).value;
    Unchanged(t, sh.ledger.effects);
    Unclaimed(sh, pc, sh.(tables := t'));
    NewFact(t.cases, t.facts, t.commits, t.actions, id, name, fact);
    BumpKeepsKeys(t.actions, t.keyIndex, t.cases, id);
  }

  lemma NewFact(cs: map<Name, Case>, fs: map<(Name, FactName), Fact>, commits: map<Name, nat>, acts: map<nat, Action>,
                id: Name, name: FactName, fact: Fact)
    requires VersionsOk(cs, commits, acts) && id in cs
    ensures VersionsOk(cs[id := Bump(cs[id])], commits[id := Commits(commits, id) + 1], acts)
    ensures CasesEvolve(cs, fs, cs[id := Bump(cs[id])], fs[(id, name) := fact])
  {
  }

  lemma BumpKeepsKeys(acts: map<nat, Action>, index: map<Name, nat>, cs: map<Name, Case>, id: Name)
    requires KeysOk(acts, index, cs) && id in cs
    ensures KeysOk(acts, index, cs[id := Bump(cs[id])])
  {
  }

  // ---- Actions ----

  lemma InsertGood(cfg: Config, sh: Shared, pc: Pc, id: nat, outboxId: nat, c: Command, expected: int)
    requires SharedOk(cfg, sh) && InsertAction(sh.tables, id, outboxId, c, expected, sh.now).Some?
    ensures Good(cfg, sh, pc, sh.(tables := InsertAction(sh.tables, id, outboxId, c, expected, sh.now).value))
  {
    hide KeysOk, LogsLegal, OutboxOk, ProposalsOk, VersionsOk, LedgerOk, CallsOk, Attributed;
    hide CasesEvolve, ActionsEvolve, ProposalsEvolve, OutboxEvolves, EffectsEvolve;
    var t, t' := sh.tables, InsertAction(sh.tables, id, outboxId, c, expected, sh.now).value;
    Unchanged(t, sh.ledger.effects);
    InsertActionKeepsLogs(t, id, outboxId, c, expected, sh.now);
    InsertKeepsVersions(t.cases, t.commits, t.actions, id, c);
    InsertKeepsOutbox(cfg, t.actions, t.outbox, id, outboxId, c, sh.now);
    BumpKeepsKeys(t.actions, t.keyIndex, t.cases, c.caseId);
    InsertKeepsKeys(t.actions, t.keyIndex, t'.cases, id, c);
    InsertKeepsLedger(t.actions, t.keyIndex, id, c, sh.ledger.effects, sh.calls);
    InsertKeepsProposals(t.actions, t.proposals, id, c);
    InsertEvolves(sh, pc, id, outboxId, c, expected);
  }

  lemma InsertEvolves(sh: Shared, pc: Pc, id: nat, outboxId: nat, c: Command, expected: int)
    requires InsertAction(sh.tables, id, outboxId, c, expected, sh.now).Some?
    ensures var sh' := sh.(tables := InsertAction(sh.tables, id, outboxId, c, expected, sh.now).value);
            Evolves(sh, sh') && Attributed(sh, pc, sh')
  {
  }

  lemma InsertKeepsKeys(acts: map<nat, Action>, index: map<Name, nat>, cs: map<Name, Case>, id: nat, c: Command)
    requires KeysOk(acts, index, cs) && id !in acts && c.key !in index && c.caseId in cs
    ensures KeysOk(acts[id := Action(c, Authorized)], index[c.key := id], cs)
  {
  }

  /** A new key has no effect and no call yet, since both only ever belong to known keys. */
  lemma InsertKeepsLedger(acts: map<nat, Action>, index: map<Name, nat>, id: nat, c: Command,
                          effects: map<Name, Command>, calls: seq<Name>)
    requires LedgerOk(acts, index, effects) && CallsOk(acts, index, calls)
    requires id !in acts && c.key !in index
    ensures LedgerOk(acts[id := Action(c, Authorized)], index[c.key := id], effects)
    ensures CallsOk(acts[id := Action(c, Authorized)], index[c.key := id], calls)
  {
  }

  lemma InsertKeepsProposals(acts: map<nat, Action>, ps: map<nat, Proposal>, id: nat, c: Command)
    requires ProposalsOk(acts, ps) && id !in acts
    ensures ProposalsOk(acts[id := Action(c, Authorized)], ps)
  {
  }

  lemma InsertKeepsVersions(cs: map<Name, Case>, commits: map<Name, nat>, acts: map<nat, Action>, id: nat, c: Command)
    requires VersionsOk(cs, commits, acts) && id !in acts && c.caseId in cs
    ensures VersionsOk(cs[c.caseId := Bump(cs[c.caseId])], commits, acts[id := Action(c, Authorized)])
  {
    hide ActionsOn;
    forall k | k in cs ensures |ActionsOn(acts[id := Action(c, Authorized)], k)|
                               == |ActionsOn(acts, k)| + if k == c.caseId then 1 else 0
    {
      InsertCounts(acts, id, c, k);
    }
  }

  lemma InsertCounts(acts: map<nat, Action>, id: nat, c: Command, k: Name)
    requires id !in acts
    ensures |ActionsOn(acts[id := Action(c, Authorized)], k)| == |ActionsOn(acts, k)| + if k == c.caseId then 1 else 0
  {
    var acts' := acts[id := Action(c, Authorized)];
    if k == c.caseId {
      assert ActionsOn(acts', k) == ActionsOn(acts, k) + {id};
    } else {
      assert ActionsOn(acts', k) == ActionsOn(acts, k);
    }
  }

  lemma InsertKeepsOutbox(cfg: Config, acts: map<nat, Action>, os: map<nat, OutboxRow>, id: nat, outboxId: nat,
                          c: Command, now: int)
    requires OutboxOk(cfg, acts, os) && id !in acts && outboxId !in os
    ensures OutboxOk(cfg, acts[id := Action(c, Authorized)], os[outboxId := NewRow(id, now)])
  {
    var os' := os[outboxId := NewRow(id, now)];
    assert os'[outboxId].actionId == id;
    forall a | a in acts ensures HasRow(os', a) {
      var o :| o in os && os[o].actionId == a;
      assert os'[o].actionId == a;
    }
  }

  /** A status write along the state graph, by a writer entitled to decide that status. */
  lemma StatusGood(cfg: Config, sh: Shared, pc: Pc, id: nat, status: ActionStatus)
    requires SharedOk(cfg, sh) && id in sh.tables.actions && Edge(sh.tables.actions[id].status, status) && Begun(status)
    requires status.Succeeded? || status.Reconciled? ==> sh.tables.actions[id].command.key in sh.ledger.effects
    requires status.Failed? ==> sh.tables.actions[id].command.key !in sh.ledger.effects && Owner(pc) == Some(id)
    ensures Good(cfg, sh, pc, sh.(tables := SetStatus(sh.tables, id, status)))
  {
    hide KeysOk, LogsLegal, OutboxOk, ProposalsOk, VersionsOk, LedgerOk, CallsOk, Attributed;
    hide CasesEvolve, ActionsEvolve, ProposalsEvolve, OutboxEvolves, EffectsEvolve;
    var t, t' := sh.tables, SetStatus(sh.tables, id, status);
    Unchanged(t, sh.ledger.effects);
    SetStatusKeepsLogs(t, id, status);
    StatusKeepsCounts(t.cases, t.commits, t.actions, id, status);
    StatusKeepsKeys(t.actions, t.keyIndex, t.cases, id, status);
    StatusKeepsLedger(t.actions, t.keyIndex, id, status, sh.ledger.effects);
    StatusKeepsCalls(t.actions, t.keyIndex, id, status, sh.calls);
    StatusKeepsRows(cfg, t.actions, t.outbox, t.proposals, id, status);
    StatusEvolves(t.actions, id, status);
    StatusAttributed(sh, pc, id, status);
  }

  lemma StatusEvolves(acts: map<nat, Action>, id: nat, status: ActionStatus)
    requires id in acts && Edge(acts[id].status, status) && Begun(status)
    ensures ActionsEvolve(acts, acts[id := acts[id].(status := status)])
  {
  }

  lemma StatusAttributed(sh: Shared, pc: Pc, id: nat, status: ActionStatus)
    requires id in sh.tables.actions && Begun(status)
    requires status.Succeeded? || status.Reconciled? ==> sh.tables.actions[id].command.key in sh.ledger.effects
    requires status.Failed? ==> Owner(pc) == Some(id)
    ensures Attributed(sh, pc, sh.(tables := SetStatus(sh.tables, id, status)))
  {
  }

  lemma StatusKeepsCounts(cs: map<Name, Case>, commits: map<Name, nat>, acts: map<nat, Action>, id: nat,
                          status: ActionStatus)
    requires VersionsOk(cs, commits, acts) && id in acts
    ensures VersionsOk(cs, commits, acts[id := acts[id].(status := status)])
  {
    forall k ensures ActionsOn(acts[id := acts[id].(status := status)], k) == ActionsOn(acts, k) {
    }
  }

  lemma StatusKeepsKeys(acts: map<nat, Action>, index: map<Name, nat>, cs: map<Name, Case>, id: nat,
                        status: ActionStatus)
    requires KeysOk(acts, index, cs) && id in acts
    ensures KeysOk(acts[id := acts[id].(status := status)], index, cs)
  {
  }

  lemma StatusKeepsLedger(acts: map<nat, Action>, index: map<Name, nat>, id: nat, status: ActionStatus,
                          effects: map<Name, Command>)
    requires LedgerOk(acts, index, effects) && id in acts && Begun(status)
    requires status.Succeeded? || status.Reconciled? ==> acts[id].command.key in effects
    requires status.Failed? ==> acts[id].command.key !in effects
    ensures LedgerOk(acts[id := acts[id].(status := status)], index, effects)
  {
  }

  lemma StatusKeepsCalls(acts: map<nat, Action>, index: map<Name, nat>, id: nat, status: ActionStatus, calls: seq<Name>)
    requires CallsOk(acts, index, calls) && id in acts && Begun(status)
    ensures CallsOk(acts[id := acts[id].(status := status)], index, calls)
  {
  }

  lemma StatusKeepsRows(cfg: Config, acts: map<nat, Action>, os: map<nat, OutboxRow>, ps: map<nat, Proposal>, id: nat,
                        status: ActionStatus)
    requires OutboxOk(cfg, acts, os) && ProposalsOk(acts, ps) && id in acts && status != Authorized
    ensures OutboxOk(cfg, acts[id := acts[id].(status := status)], os)
    ensures ProposalsOk(acts[id := acts[id].(status := status)], ps)
  {
  }

  // ---- Proposals ----

  lemma ProposalsChange(cfg: Config, sh: Shared, pc: Pc, ps': map<nat, Proposal>)
    requires SharedOk(cfg, sh)
    requires ProposalsOk(sh.tables.actions, ps') && ProposalsEvolve(sh.tables.proposals, ps')
    ensures Good(cfg, sh, pc, sh.(tables := sh.tables.(proposals := ps')))
  {
    hide KeysOk, LogsLegal, OutboxOk, ProposalsOk, VersionsOk, LedgerOk, CallsOk, Attributed;
    hide CasesEvolve, ActionsEvolve, ProposalsEvolve, OutboxEvolves, EffectsEvolve;
    Unchanged(sh.tables, sh.ledger.effects);
    Unclaimed(sh, pc, sh.(tables := sh.tables.(proposals := ps')));
  }

  lemma CreateProposalGood(cfg: Config, sh: Shared, pc: Pc, id: nat, offer: Offer)
    requires SharedOk(cfg, sh) && CreateProposal(sh.tables, id, offer).Some?
    ensures Good(cfg, sh, pc, sh.(tables := CreateProposal(sh.tables, id, offer).value))
  {
    hide KeysOk, LogsLegal, OutboxOk, VersionsOk, LedgerOk, CallsOk, Good;
    ProposalsChange(cfg, sh, pc, CreateProposal(sh.tables, id, offer).value.proposals);
  }

  lemma ProposalGood(cfg: Config, sh: Shared, pc: Pc, id: nat, status: ProposalStatus, actionId: Option<nat>)
    requires SharedOk(cfg, sh) && TransitionProposal(sh.tables, id, Pending, status, actionId).Some?
    requires status != Pending
    requires if status == Confirmed
             then NamesItsAction(sh.tables.actions, sh.tables.proposals[id].(actionId := actionId))
             else actionId.None?
    ensures Good(cfg, sh, pc, sh.(tables := TransitionProposal(sh.tables, id, Pending, status, actionId).value))
  {
    hide KeysOk, LogsLegal, OutboxOk, VersionsOk, LedgerOk, CallsOk, Good;
    ProposalsChange(cfg, sh, pc, TransitionProposal(sh.tables, id, Pending, status, actionId).value.proposals);
  }

  // ---- Outbox ----

  lemma OutboxChange(cfg: Config, sh: Shared, pc: Pc, os': map<nat, OutboxRow>)
    requires SharedOk(cfg, sh)
    requires OutboxOk(cfg, sh.tables.actions, os') && OutboxEvolves(sh.tables.outbox, os')
    ensures Good(cfg, sh, pc, sh.(tables := sh.tables.(outbox := os')))
  {
    hide KeysOk, LogsLegal, OutboxOk, ProposalsOk, VersionsOk, LedgerOk, CallsOk, Attributed;
    hide CasesEvolve, ActionsEvolve, ProposalsEvolve, OutboxEvolves, EffectsEvolve;
    Unchanged(sh.tables, sh.ledger.effects);
    Unclaimed(sh, pc, sh.(tables := sh.tables.(outbox := os')));
  }

  lemma RowsChange(cfg: Config, acts: map<nat, Action>, os: map<nat, OutboxRow>, os': map<nat, OutboxRow>)
    requires OutboxOk(cfg, acts, os) && OutboxEvolves(os, os') && os'.Keys == os.Keys
    requires forall o :: o in os' ==> RowOk(cfg, acts, os'[o])
    ensures OutboxOk(cfg, acts, os')
  {
    forall a | a in acts ensures HasRow(os', a) {
      var o :| o in os && os[o].actionId == a;
      assert o in os' && os'[o].actionId == a;
    }
  }

  lemma SettleGood(cfg: Config, sh: Shared, pc: Pc, id: nat, status: OutboxStatus, availableAt: int)
    requires SharedOk(cfg, sh) && SettleRow(sh.tables, id, status, availableAt).Some?
    requires status == Delivered || status == Retry || status == Quarantined
    requires status == Delivered ==>
               sh.tables.outbox[id].actionId in sh.tables.actions
               && sh.tables.actions[sh.tables.outbox[id].actionId].status != Authorized
    requires status == Quarantined ==> sh.tables.outbox[id].attempts >= cfg.maxAttempts
    ensures Good(cfg, sh, pc, sh.(tables := SettleRow(sh.tables, id, status, availableAt).value))
  {
    hide KeysOk, LogsLegal, ProposalsOk, VersionsOk, LedgerOk, CallsOk, Good;
    var os' := SettleRow(sh.tables, id, status, availableAt).value.outbox;
    RowsChange(cfg, sh.tables.actions, sh.tables.outbox, os');
    OutboxChange(cfg, sh, pc, os');
  }

  lemma LeaseGood(cfg: Config, sh: Shared, pc: Pc, ids: seq<nat>, until: int)
    requires SharedOk(cfg, sh) && forall i, j :: 0 <= i < j < |ids| ==> ids[i] != ids[j]
    ensures Good(cfg, sh, pc, sh.(tables := Leasing(sh, ids, until)))
  {
    hide KeysOk, LogsLegal, ProposalsOk, VersionsOk, LedgerOk, CallsOk, Good, LeaseRows;
    var os' := LeaseRows(sh.tables.outbox, ids, until);
    LeaseRowsAt(sh.tables.outbox, ids, until);
    RowsChange(cfg, sh.tables.actions, sh.tables.outbox, os');
    OutboxChange(cfg, sh, pc, os');
  }

  // ---- Provider ----

  /** Invoking the provider: the first invocation for this key, by the claim holder. */
  lemma CallGood(cfg: Config, sh: Shared, a: Snapshot)
    requires SharedOk(cfg, sh) && StageOk(sh, a, ProviderLookup)
    ensures Good(cfg, sh, InAction(a, ProviderLookup), sh.(calls := sh.calls + [a.command.key]))
  {
    hide LogsLegal, OutboxOk, ProposalsOk, VersionsOk, LedgerOk;
    hide CasesEvolve, ActionsEvolve, ProposalsEvolve, OutboxEvolves, EffectsEvolve;
    Unchanged(sh.tables, sh.ledger.effects);
    assert OwnedKey(sh.tables, InAction(a, ProviderLookup), a.command.key);
  }

  lemma EffectGood(cfg: Config, sh: Shared, a: Snapshot, scenario: Scenario)
    requires SharedOk(cfg, sh) && StageOk(sh, a, ProviderCommit(scenario))
    ensures Good(cfg, sh, InAction(a, ProviderCommit(scenario)), sh.(ledger := CommitEffect(sh.ledger, a.command)))
  {
    hide KeysOk, LogsLegal, OutboxOk, ProposalsOk, VersionsOk, CallsOk, LedgerOk, Attributed;
    hide CasesEvolve, ActionsEvolve, ProposalsEvolve, OutboxEvolves, EffectsEvolve;
    Unchanged(sh.tables, sh.ledger.effects);
    var t := sh.tables;
    assert KeysOk(t.actions, t.keyIndex, t.cases) && a.id in t.actions && t.actions[a.id].command == a.command;
    NewEffect(t.actions, t.keyIndex, t.cases, sh.ledger.effects, a.id);
    EffectAttributed(sh, a, scenario);
  }

  /** An effect may appear under a key whose action has been claimed and not yet decided. */
  lemma NewEffect(acts: map<nat, Action>, index: map<Name, nat>, cs: map<Name, Case>, effects: map<Name, Command>,
                  id: nat)
    requires KeysOk(acts, index, cs) && LedgerOk(acts, index, effects) && id in acts
    requires acts[id].status.Dispatched? || acts[id].status.Unknown?
    requires acts[id].command.key !in effects
    ensures LedgerOk(acts, index, effects[acts[id].command.key := acts[id].command])
    ensures EffectsEvolve(effects, effects[acts[id].command.key := acts[id].command])
  {
  }

  lemma EffectAttributed(sh: Shared, a: Snapshot, scenario: Scenario)
    requires SnapOk(sh.tables, a)
    ensures Attributed(sh, InAction(a, ProviderCommit(scenario)), sh.(ledger := CommitEffect(sh.ledger, a.command)))
  {
    assert OwnedKey(sh.tables, InAction(a, ProviderCommit(scenario)), a.command.key);
  }
}

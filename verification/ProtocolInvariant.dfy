/**
  The inductive invariant of the action protocol, in rely-guarantee form: what the
  shared state always satisfies (`SharedOk`), what each client may rely on at its
  program counter (`ClientOk`), what no step ever undoes (`Evolves`) and what a step
  may do only if it holds the claim on an action (`Attributed`).
 */
module ProtocolInvariant {
  import opened Domain
  import opened CoreTables
  import opened Protocol

  // ---- What no step undoes ----

  /** A case keeps its identity, its version only grows, and its facts change only with its version. */
  ghost predicate CasesEvolve(cs: map<Name, Case>, fs: map<(Name, FactName), Fact>,
                              cs': map<Name, Case>, fs': map<(Name, FactName), Fact>)
  {
    && (forall c :: c in cs ==>
         && c in cs' && cs'[c].customerId == cs[c].customerId && cs[c].version <= cs'[c].version
         && cs'[c].procedureId == cs[c].procedureId && cs'[c].procedureVersion == cs[c].procedureVersion)
    && (forall k: (Name, FactName) :: k.0 in cs && k.0 in cs' && cs'[k.0].version == cs[k.0].version ==>
         (k in fs' <==> k in fs) && (k in fs ==> fs'[k] == fs[k]))
  }

  /** Commands never change, a finished action stays as it is and a claim is never given back. */
  ghost predicate ActionsEvolve(acts: map<nat, Action>, acts': map<nat, Action>) {
    forall id :: id in acts ==>
      id in acts' && acts'[id].command == acts[id].command
      && (Terminal(acts[id].status) ==> acts'[id] == acts[id])
      && (acts[id].status != Authorized ==> acts'[id].status != Authorized)
      && (acts[id].status != Requested ==> acts'[id].status != Requested)
  }

  /** An offer never changes and a proposal that has left PENDING never changes at all. */
  ghost predicate ProposalsEvolve(ps: map<nat, Proposal>, ps': map<nat, Proposal>) {
    forall p :: p in ps ==>
      p in ps' && ps'[p].offer == ps[p].offer && (ps[p].status != Pending ==> ps'[p] == ps[p])
  }

  ghost predicate OutboxEvolves(os: map<nat, OutboxRow>, os': map<nat, OutboxRow>) {
    forall o :: o in os ==>
      o in os' && os'[o].topic == os[o].topic && os'[o].actionId == os[o].actionId && os[o].attempts <= os'[o].attempts
  }

  ghost predicate EffectsEvolve(es: map<Name, Command>, es': map<Name, Command>) {
    forall k :: k in es ==> k in es' && es'[k] == es[k]
  }

  ghost predicate TablesEvolve(t: Tables, t': Tables) {
    && CasesEvolve(t.cases, t.facts, t'.cases, t'.facts)
    && ActionsEvolve(t.actions, t'.actions)
    && ProposalsEvolve(t.proposals, t'.proposals)
    && OutboxEvolves(t.outbox, t'.outbox)
  }

  ghost predicate Evolves(sh: Shared, sh': Shared) {
    && TablesEvolve(sh.tables, sh'.tables) && EffectsEvolve(sh.ledger.effects, sh'.ledger.effects)
    && sh.now <= sh'.now
  }

  lemma EvolvesTransitive(a: Shared, b: Shared, c: Shared)
    requires Evolves(a, b) && Evolves(b, c)
    ensures Evolves(a, c)
  {
    forall k: (Name, FactName) | k.0 in a.tables.cases && k.0 in c.tables.cases
               && c.tables.cases[k.0].version == a.tables.cases[k.0].version
      ensures (k in c.tables.facts <==> k in a.tables.facts)
      ensures k in a.tables.facts ==> c.tables.facts[k] == a.tables.facts[k]
    {
      assert b.tables.cases[k.0].version == a.tables.cases[k.0].version;
    }
  }

  // ---- What the shared state satisfies ----

  ghost predicate KeysOk(acts: map<nat, Action>, index: map<Name, nat>, cs: map<Name, Case>) {
    && (forall k :: k in index ==> index[k] in acts && acts[index[k]].command.key == k)
    && (forall id :: id in acts ==>
         acts[id].command.key in index && index[acts[id].command.key] == id && acts[id].command.caseId in cs)
  }

  /** The store and the provider's ledger agree. */
  ghost predicate LedgerOk(acts: map<nat, Action>, index: map<Name, nat>, effects: map<Name, Command>) {
    && (forall id :: id in acts ==>
         (acts[id].status.Succeeded? || acts[id].status.Reconciled? ==> acts[id].command.key in effects)
         && (acts[id].status.Requested? || acts[id].status.Authorized? || acts[id].status.Failed? ==>
              acts[id].command.key !in effects))
    && (forall k :: k in effects ==> k in index && index[k] in acts && effects[k] == acts[index[k]].command)
  }

  ghost predicate NoDuplicates(s: seq<Name>) {
    forall i, j :: 0 <= i < j < |s| ==> s[i] != s[j]
  }

  ghost predicate CallsOk(acts: map<nat, Action>, index: map<Name, nat>, calls: seq<Name>) {
    && NoDuplicates(calls)
    && (forall i :: 0 <= i < |calls| ==>
         calls[i] in index && index[calls[i]] in acts && acts[index[calls[i]]].status != Authorized)
  }

  ghost predicate HasRow(os: map<nat, OutboxRow>, id: nat) {
    exists o :: o in os && os[o].actionId == id
  }

  ghost predicate RowOk(cfg: Config, acts: map<nat, Action>, row: OutboxRow) {
    && row.topic == ActionDispatch && row.actionId in acts
    && (row.status == Delivered ==> acts[row.actionId].status != Authorized)
    && (row.status == Quarantined ==> row.attempts >= cfg.maxAttempts)
    && (row.status == Leased ==> row.leaseUntil.Some?)
  }

  ghost predicate OutboxOk(cfg: Config, acts: map<nat, Action>, os: map<nat, OutboxRow>) {
    && (forall o :: o in os ==> RowOk(cfg, acts, os[o]))
    && (forall o, o' :: o in os && o' in os && os[o].actionId == os[o'].actionId ==> o == o')
    && (forall id :: id in acts ==> HasRow(os, id))
  }

  ghost predicate NamesItsAction(acts: map<nat, Action>, p: Proposal) {
    p.actionId.Some? && p.actionId.value in acts && acts[p.actionId.value].command.key == p.offer.key
  }

  ghost predicate ProposalsOk(acts: map<nat, Action>, ps: map<nat, Proposal>) {
    forall p :: p in ps ==>
      (ps[p].status == Confirmed <==> NamesItsAction(acts, ps[p]))
      && (ps[p].status != Confirmed ==> ps[p].actionId == None)
  }

  function ActionsOn(acts: map<nat, Action>, caseId: Name): set<nat> {
    set id | id in acts && acts[id].command.caseId == caseId
  }

  /** A case's version counts the facts committed to it and the actions inserted on it. */
  ghost predicate VersionsOk(cs: map<Name, Case>, commits: map<Name, nat>, acts: map<nat, Action>) {
    forall c :: c in cs ==> cs[c].version == Commits(commits, c) + |ActionsOn(acts, c)|
  }

  ghost predicate TablesOk(cfg: Config, t: Tables) {
    && KeysOk(t.actions, t.keyIndex, t.cases)
    && LogsLegal(t.actions, t.events)
    && OutboxOk(cfg, t.actions, t.outbox)
    && ProposalsOk(t.actions, t.proposals)
    && VersionsOk(t.cases, t.commits, t.actions)
  }

  ghost predicate SharedOk(cfg: Config, sh: Shared) {
    && TablesOk(cfg, sh.tables)
    && LedgerOk(sh.tables.actions, sh.tables.keyIndex, sh.ledger.effects)
    && CallsOk(sh.tables.actions, sh.tables.keyIndex, sh.calls)
  }

  // ---- What a client relies on ----

  ghost predicate SnapOk(t: Tables, a: Snapshot) {
    && a.id in t.actions && t.actions[a.id].command == a.command
    && (a.status != Authorized ==> t.actions[a.id].status != Authorized)
  }

  /** The claim winner has not reached the provider's commit, so no effect exists yet. */
  ghost predicate Calling(sh: Shared, a: Snapshot) {
    && SnapOk(sh.tables, a)
    && (sh.tables.actions[a.id].status.Dispatched? || sh.tables.actions[a.id].status.Unknown?)
    && a.command.key !in sh.ledger.effects
  }

  predicate Begun(s: ActionStatus) {
    !s.Requested? && !s.Authorized?
  }

  ghost predicate OutcomeOk(sh: Shared, a: Snapshot, status: ActionStatus, role: Role) {
    && SnapOk(sh.tables, a)
    && Begun(sh.tables.actions[a.id].status)
    && (match role
        case Dispatcher => status.Succeeded? || status.Failed? || status.Unknown?
        case Marker => status == Unknown
        case Settler => status.Reconciled? || status.Unknown?)
    && (status.Succeeded? || status.Reconciled? ==> a.command.key in sh.ledger.effects)
    && (status == Failed ==> a.command.key !in sh.ledger.effects)
  }

  ghost predicate CaseSeen(t: Tables, caseId: Name, customerId: Name) {
    caseId in t.cases && t.cases[caseId].customerId == customerId
  }

  ghost predicate VersionSeen(t: Tables, caseId: Name, version: int) {
    caseId in t.cases && version <= t.cases[caseId].version
  }

  /** Every fact reference names the parameter's own fact and demands VERIFIED authority. */
  ghost predicate GroundsOk(action: ActionName, g: Grounds) {
    forall p :: p in g.refs ==>
      g.refs[p] == FactName(action, p) && p in g.authorities && g.authorities[p] == Verified
  }

  ghost predicate DemandsVerified(c: Command) {
    GroundsOk(c.action, Grounds(c.factRefs, c.requiredAuthority))
  }

  /** The command meets the catalog's demands: parameters, evidence and fact references. */
  ghost predicate CoversSpec(cfg: Config, c: Command) {
    c.action in cfg.specs && SpecificationMet(cfg.specs[c.action], c)
  }

  /** The facts checked so far still stand, unless the case has moved past the version seen. */
  ghost predicate FactsSeen(t: Tables, c: Command, version: int, todo: set<Name>) {
    c.caseId in t.cases && t.cases[c.caseId].version == version ==>
      forall p :: p in c.factRefs && p !in todo ==> FactAgrees(t, c, p)
  }

  ghost predicate ClaimOk(t: Tables, r: Claimed) {
    && r.id in t.outbox && t.outbox[r.id].actionId == r.row.actionId && t.outbox[r.id].topic == r.row.topic
    && r.row.attempts <= t.outbox[r.id].attempts
  }

  ghost predicate ClaimsOk(t: Tables, rs: seq<Claimed>) {
    forall i :: 0 <= i < |rs| ==> ClaimOk(t, rs[i])
  }

  ghost predicate SubmitOk(t: Tables, r: Request, pc: SubmitPc) {
    match pc
    case CheckOwner(a) => SnapOk(t, a) && a.command.key == r.key && SameRequest(r, a.command)
    case CommitFacts(_, _, g, v) =>
      CaseSeen(t, r.caseId, r.customerId) && VersionSeen(t, r.caseId, v) && GroundsOk(r.action, g)
    case RereadVersion(_, _, g) => CaseSeen(t, r.caseId, r.customerId) && GroundsOk(r.action, g)
    case _ => true
  }

  ghost predicate AuthorizeOk(cfg: Config, t: Tables, c: Command, v: int, pc: AuthorizePc) {
    && VersionSeen(t, c.caseId, v) && DemandsVerified(c)
    && (pc.CheckFacts? ==> CoversSpec(cfg, c) && FactsSeen(t, c, v, pc.todo))
    && (pc.Insert? ==> CoversSpec(cfg, c) && FactsSeen(t, c, v, {}))
  }

  ghost predicate BridgeOk(t: Tables, now: int, p: nat, pc: BridgePc) {
    match pc
    case ExpireWrite => p in t.proposals && t.proposals[p].offer.expiresAt <= now
    case ConfirmVerify(o, _) => p in t.proposals && t.proposals[p].offer == o
    case CancelLookup(o) => p in t.proposals && t.proposals[p].offer == o
    case CancelRecover(id) =>
      p in t.proposals && id in t.actions && t.actions[id].command.key == t.proposals[p].offer.key
    case _ => true
  }

  ghost predicate StageOk(sh: Shared, a: Snapshot, stage: Stage) {
    && SnapOk(sh.tables, a)
    && match stage
       case ProviderLookup => Calling(sh, a) && a.command.key !in sh.calls
       case ProviderScenario => Calling(sh, a)
       case ProviderCommit(_) => Calling(sh, a)
       case ProviderReply(_) => a.command.key in sh.ledger.effects && Begun(sh.tables.actions[a.id].status)
       case OutcomeRead(status, role) => OutcomeOk(sh, a, status, role)
       case OutcomeWrite(expected, status, role) => OutcomeOk(sh, a, status, role) && OutcomeAllowed(expected, status)
       case ReconcileEntry => a.status != Requested ==> sh.tables.actions[a.id].status != Requested
       case ReconcileReread => Begun(sh.tables.actions[a.id].status)
       case ReconcileQuery => Begun(sh.tables.actions[a.id].status)
       case _ => true
  }

  ghost predicate WorkerOk(cfg: Config, t: Tables, pc: WorkerPc) {
    match pc
    case Loop(rs) => ClaimsOk(t, rs)
    case Complete(r, rest) =>
      ClaimOk(t, r) && ClaimsOk(t, rest) && r.row.actionId in t.actions
          && t.actions[r.row.actionId].status != Authorized
    case Fail(r, rest, quarantine, _) =>
      ClaimOk(t, r) && ClaimsOk(t, rest) && (quarantine ==> r.row.attempts >= cfg.maxAttempts)
    case _ => true
  }

  ghost predicate PcOk(cfg: Config, sh: Shared, pc: Pc) {
    match pc
    case InBridge(p, b) => BridgeOk(sh.tables, sh.now, p, b)
    case InSubmit(r, s) => SubmitOk(sh.tables, r, s)
    case InAuthorize(c, v, s) => AuthorizeOk(cfg, sh.tables, c, v, s)
    case InAction(a, stage) => StageOk(sh, a, stage)
    case InWorker(w) => WorkerOk(cfg, sh.tables, w)
    case Done => true
  }

  /** The command is the one the offer describes, on a case of the offer's customer. */
  ghost predicate Carries(t: Tables, o: Offer, c: Command) {
    && c.key == o.key && c.action == o.action && c.caseId == o.caseId && c.policyPackageId == o.policyPackageId
    && CaseSeen(t, c.caseId, o.customerId)
    && ParamsMatch(o.action, o.params, c.params)
  }

  predicate Describes(r: Request, o: Offer) {
    && r.action == o.action && r.params == o.params && r.caseId == o.caseId && r.customerId == o.customerId
    && r.policyPackageId == o.policyPackageId && r.key == o.key
  }

  /** A call made from confirm carries the confirmed offer; one made by a worker, the row's action. */
  ghost predicate FrameOk(t: Tables, cl: Client) {
    match cl.frame
    case Direct => !(cl.pc.InBridge? && cl.pc.bridge.ConfirmWrite?)
    case OnConfirm(p, o) =>
      && p in t.proposals && t.proposals[p].offer == o
      && (match cl.pc
          case InSubmit(r, _) => Describes(r, o)
          case InAuthorize(c, _, _) => Carries(t, o, c) && c.params == o.params
          case InAction(a, _) => Carries(t, o, a.command)
          case InBridge(p', b) =>
            p' == p && b.ConfirmWrite? && b.actionId in t.actions && Carries(t, o, t.actions[b.actionId].command)
          case _ => false)
    case OnWorker(r, rest) =>
      ClaimOk(t, r) && ClaimsOk(t, rest) && cl.pc.InAction? && cl.pc.action.id == r.row.actionId
  }

  ghost predicate ClientOk(cfg: Config, sh: Shared, cl: Client) {
    PcOk(cfg, sh, cl.pc) && FrameOk(sh.tables, cl)
  }

  // ---- Claims ----

  predicate Holds(stage: Stage) {
    match stage
    case ProviderLookup => true
    case ProviderScenario => true
    case ProviderCommit(_) => true
    case ProviderReply(_) => true
    case OutcomeRead(_, role) => role == Dispatcher
    case OutcomeWrite(_, _, role) => role == Dispatcher
    case _ => false
  }

  /** The action whose claim this program counter holds. */
  function Owner(pc: Pc): Option<nat> {
    if pc.InAction? && Holds(pc.stage) then Some(pc.action.id) else None
  }

  ghost predicate OwnedKey(t: Tables, pc: Pc, key: Name) {
    Owner(pc).Some? && Owner(pc).value in t.actions && t.actions[Owner(pc).value].command.key == key
  }

  /** Only the holder of an action's claim calls the provider for it or decides it without evidence of an effect. */
  ghost predicate Attributed(sh: Shared, pc: Pc, sh': Shared) {
    && (forall k :: k in sh'.ledger.effects ==> k in sh.ledger.effects || OwnedKey(sh.tables, pc, k))
    && (forall k :: k in sh'.calls ==> k in sh.calls || OwnedKey(sh.tables, pc, k))
    && (forall id :: id in sh.tables.actions && id in sh'.tables.actions ==>
         sh'.tables.actions[id].status == sh.tables.actions[id].status
         || sh'.tables.actions[id].status.Dispatched? || sh'.tables.actions[id].status.Unknown?
         || Owner(pc) == Some(id)
         || sh.tables.actions[id].command.key in sh.ledger.effects)
  }

  /** Steps of other clients do not disturb what a client relies on. */
  lemma PcStable(cfg: Config, sh: Shared, pc: Pc, sh': Shared, other: Pc)
    requires KeysOk(sh.tables.actions, sh.tables.keyIndex, sh.tables.cases)
    requires Evolves(sh, sh') && Attributed(sh, pc, sh')
    requires PcOk(cfg, sh, other)
    requires Owner(pc).None? || Owner(pc) != Owner(other)
    ensures PcOk(cfg, sh', other)
  {
    hide KeysOk, Attributed, FactsSeen, StageOk, WorkerOk, DemandsVerified, CoversSpec;
    match other
    case InBridge(p, b) =>
    case InSubmit(r, s) =>
    case InAuthorize(c, v, s) =>
      if s.CheckFacts? { FactsStable(sh.tables, sh'.tables, c, v, s.todo); }
      if s.Insert? { FactsStable(sh.tables, sh'.tables, c, v, {}); }
    case InAction(a, stage) => StageStable(sh, pc, sh', a, stage);
    case InWorker(w) => WorkerStable(cfg, sh.tables, sh'.tables, w);
    case Done =>
  }

  lemma WorkerStable(cfg: Config, t: Tables, t': Tables, pc: WorkerPc)
    requires TablesEvolve(t, t') && WorkerOk(cfg, t, pc)
    ensures WorkerOk(cfg, t', pc)
  {
    match pc
    case Loop(rs) => ClaimsStable(t, t', rs);
    case Complete(_, rest) => ClaimsStable(t, t', rest);
    case Fail(_, rest, _, _) => ClaimsStable(t, t', rest);
    case _ =>
  }

  lemma StageStable(sh: Shared, pc: Pc, sh': Shared, a: Snapshot, stage: Stage)
    requires KeysOk(sh.tables.actions, sh.tables.keyIndex, sh.tables.cases)
    requires Evolves(sh, sh') && Attributed(sh, pc, sh')
    requires StageOk(sh, a, stage)
    requires Holds(stage) ==> Owner(pc) != Some(a.id)
    ensures StageOk(sh', a, stage)
  {
    hide Evolves, Attributed, KeysOk, Calling;
    CallingSnap(sh, a);
    ActionStable(sh, sh', a);
    if Holds(stage) {
      HeldActionStable(sh, pc, sh', a);
    }
  }

  lemma CallingSnap(sh: Shared, a: Snapshot)
    requires SnapOk(sh.tables, a)
    ensures Calling(sh, a) ==> a.command.key !in sh.ledger.effects
  {
  }

  /** What the store and the ledger say of an action someone has a snapshot of only moves forward. */
  lemma ActionStable(sh: Shared, sh': Shared, a: Snapshot)
    requires Evolves(sh, sh') && SnapOk(sh.tables, a)
    ensures SnapOk(sh'.tables, a)
    ensures Begun(sh.tables.actions[a.id].status) ==> Begun(sh'.tables.actions[a.id].status)
    ensures sh.tables.actions[a.id].status != Requested ==> sh'.tables.actions[a.id].status != Requested
    ensures a.command.key in sh.ledger.effects ==> a.command.key in sh'.ledger.effects
  {
  }

  /** Nobody but the holder of its claim calls the provider for an action or closes it without an effect. */
  lemma HeldActionStable(sh: Shared, pc: Pc, sh': Shared, a: Snapshot)
    requires KeysOk(sh.tables.actions, sh.tables.keyIndex, sh.tables.cases)
    requires Evolves(sh, sh') && Attributed(sh, pc, sh')
    requires SnapOk(sh.tables, a) && Owner(pc) != Some(a.id)
    ensures a.command.key !in sh.ledger.effects ==> a.command.key !in sh'.ledger.effects
    ensures a.command.key !in sh.calls ==> a.command.key !in sh'.calls
    ensures Calling(sh, a) ==> Calling(sh', a)
  {
    assert !OwnedKey(sh.tables, pc, a.command.key);
  }

  lemma FactsStable(t: Tables, t': Tables, c: Command, v: int, todo: set<Name>)
    requires TablesEvolve(t, t') && VersionSeen(t, c.caseId, v) && FactsSeen(t, c, v, todo)
    ensures FactsSeen(t', c, v, todo)
  {
    if t'.cases[c.caseId].version == v {
      forall p | p in c.factRefs && p !in todo ensures FactAgrees(t', c, p) {
        assert FactAgrees(t, c, p);
        var k := (c.caseId, c.factRefs[p]);
        assert k.0 in t.cases && k in t.facts;
        assert t'.cases[k.0].version == t.cases[k.0].version;
        assert k in t'.facts;
      }
    }
  }

  lemma ClaimsStable(t: Tables, t': Tables, rs: seq<Claimed>)
    requires TablesEvolve(t, t') && forall i :: 0 <= i < |rs| ==> ClaimOk(t, rs[i])
    ensures forall i :: 0 <= i < |rs| ==> ClaimOk(t', rs[i])
  {
  }

  lemma FrameStable(sh: Shared, sh': Shared, cl: Client)
    requires Evolves(sh, sh') && FrameOk(sh.tables, cl)
    ensures FrameOk(sh'.tables, cl)
  {
    match cl.frame
    case Direct =>
    case OnConfirm(p, o) =>
    case OnWorker(r, rest) => ClaimsStable(sh.tables, sh'.tables, [r] + rest);
  }
}

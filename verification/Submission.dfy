/**
  What submit comes to when nothing interrupts it: a repeated request gets its stored
  action back and nothing is added, and a fresh one that is in order gets exactly its own
  action inserted.
 */
module Submission {
  import opened Domain
  import opened CoreTables
  import opened Provider
  import opened Protocol
  import opened ProtocolInvariant
  import opened ProtocolSafety
  import opened SoloRuns
  import opened Guards
  import opened Sourcing
  import Policy

  function Submitting(f: Frame, r: Request, s: SubmitPc): Client {
    Client(InSubmit(r, s), f)
  }

  function Authorizing(f: Frame, c: Command, version: int, s: AuthorizePc): Client {
    Client(InAuthorize(c, version, s), f)
  }

  function Holding(f: Frame, a: Snapshot): Client {
    Client(InAction(a, Entry), f)
  }

  // ---- A request whose key is taken ----

  /** The stored action is the one this request asks for, and its case is the customer's. */
  predicate SameAgain(t: Tables, r: Request, c: Command) {
    && c.action == r.action && c.caseId == r.caseId && c.policyPackageId == r.policyPackageId
    && c.caseId in t.cases && t.cases[c.caseId].customerId == r.customerId
    && if r.action.IssueRefund? then
         forall name :: name in c.params ==>
           c.params[name] == if name in r.params then r.params[name] else NullValue
       else c.params == r.params
  }

  lemma FindsStored(cfg: Config, sh: Shared, r: Request, id: nat)
    requires SharedOk(cfg, sh) && id in sh.tables.actions && sh.tables.actions[id].command.key == r.key
    ensures FindByKey(sh.tables, r.key) == Some(SnapshotOf(sh.tables, id))
    ensures sh.tables.actions[id].command.caseId in sh.tables.cases
  {
    hide LogsLegal, OutboxOk, ProposalsOk, VersionsOk, LedgerOk, CallsOk;
  }

  lemma LooksUp(cfg: Config, sh: Shared, r: Request, a: Snapshot, ch: Choice)
    requires FindByKey(sh.tables, r.key) == Some(a)
    ensures ClientStep(cfg, sh, Submitting(Direct, r, FindDuplicate), ch)
            == Outcome(sh, if SameRequest(r, a.command) then Submitting(Direct, r, CheckOwner(a)) else FINISHED)
  {
    hide StepAuthorize, StepAction, StepBridge, StepWorker, SameRequest, FindByKey;
  }

  lemma ChecksOwner(cfg: Config, sh: Shared, r: Request, a: Snapshot, ch: Choice)
    requires a.command.caseId in sh.tables.cases
    ensures ClientStep(cfg, sh, Submitting(Direct, r, CheckOwner(a)), ch)
            == Outcome(sh, if sh.tables.cases[a.command.caseId].customerId == r.customerId
                           then Holding(Direct, a) else FINISHED)
  {
    hide StepAuthorize, StepAction, StepBridge, StepWorker;
  }

  lemma SameAgainIs(t: Tables, r: Request, c: Command)
    requires c.caseId in t.cases
    ensures SameAgain(t, r, c) <==> SameRequest(r, c) && t.cases[c.caseId].customerId == r.customerId
  {
  }

  lemma FinishedStays(cfg: Config, sh: Shared, ch: Choice)
    ensures ClientStep(cfg, sh, FINISHED, ch) == Outcome(sh, FINISHED)
  {
    hide StepSubmit, StepAuthorize, StepAction, StepBridge, StepWorker;
  }

  /** The two lookups of a request whose key is taken. */
  lemma Recalls(cfg: Config, sh: Shared, r: Request, id: nat, ch: Choice, n: nat)
    requires SharedOk(cfg, sh) && id in sh.tables.actions && sh.tables.actions[id].command.key == r.key && n >= 2
    ensures Solo(cfg, sh, Submitting(Direct, r, FindDuplicate), ch, n)
            == Solo(cfg, sh, if SameAgain(sh.tables, r, sh.tables.actions[id].command)
                             then Holding(Direct, SnapshotOf(sh.tables, id)) else FINISHED, ch, n - 2)
  {
    hide SharedOk, Solo, ClientStep, SameRequest, SameAgain, FindByKey;
    var a := SnapshotOf(sh.tables, id);
    FindsStored(cfg, sh, r, id);
    SameAgainIs(sh.tables, r, a.command);
    LooksUp(cfg, sh, r, a, ch);
    if SameRequest(r, a.command) {
      SoloStep(cfg, sh, Submitting(Direct, r, FindDuplicate), ch, n, sh, Submitting(Direct, r, CheckOwner(a)));
      ChecksOwner(cfg, sh, r, a, ch);
      var next := if SameAgain(sh.tables, r, a.command) then Holding(Direct, a) else FINISHED;
      SoloStep(cfg, sh, Submitting(Direct, r, CheckOwner(a)), ch, n - 1, sh, next);
    } else {
      SoloStep(cfg, sh, Submitting(Direct, r, FindDuplicate), ch, n, sh, FINISHED);
      FinishedStays(cfg, sh, ch);
      SoloStep(cfg, sh, FINISHED, ch, n - 1, sh, FINISHED);
    }
  }

  /**
    In any reachable state, a request under a key that is taken goes on to the dispatch of
    the stored action if it asks for the same thing again for the same customer, and ends
    otherwise; either way nothing has changed.
   */
  lemma RepeatedSubmission(w: World, moves: seq<Move>, c: nat, r: Request, id: nat, ch: Choice)
    requires Initial(w) && c !in Run(w, moves).clients && id in Run(w, moves).shared.tables.actions
    requires Run(w, moves).shared.tables.actions[id].command.key == r.key
    ensures var now := Run(w, moves);
            var later := Run(now, [Spawn(c, Submit(r))] + Steps(c, ch, 2));
            && later.shared == now.shared && c in later.clients
            && later.clients[c] == if SameAgain(now.shared.tables, r, now.shared.tables.actions[id].command)
                                   then Holding(Direct, SnapshotOf(now.shared.tables, id)) else FINISHED
  {
    hide Initial, Run, Inv, SharedOk, Solo, ClientStep, SameAgain, Evolves;
    InitialInv(w);
    RunKept(w, moves);
    var now := Run(w, moves);
    InvShared(now);
    var first := Apply(now, Spawn(c, Submit(r)));
    RunFirst(now, Spawn(c, Submit(r)), Steps(c, ch, 2));
    SoloRun(first, c, ch, 2);
    Recalls(now.cfg, now.shared, r, id, ch, 2);
    SoloNone(now.cfg, now.shared, if SameAgain(now.shared.tables, r, now.shared.tables.actions[id].command)
                                  then Holding(Direct, SnapshotOf(now.shared.tables, id)) else FINISHED, ch);
  }

  lemma SoloNone(cfg: Config, sh: Shared, cl: Client, ch: Choice)
    ensures Solo(cfg, sh, cl, ch, 0) == Outcome(sh, cl)
  {
  }

  // ---- Whatever else is going on ----

  /** What a call that was started to submit this request works on. */
  ghost predicate Serves(t: Tables, r: Request, cl: Client) {
    && cl.frame == Direct
    && match cl.pc
       case InSubmit(q, _) => q == r
       case InAuthorize(c, _, _) =>
         c.key == r.key && c.params == r.params && SameAgain(t, r, c)
       case InAction(a, _) => a.command.key == r.key && SameAgain(t, r, a.command)
       case Done => true
       case _ => false
  }

  lemma SubmitServes(cfg: Config, sh: Shared, r: Request, cl: Client, ch: Choice)
    requires cl.pc.InSubmit? && Serves(sh.tables, r, cl) && SubmitOk(sh.tables, r, cl.pc.submit)
    ensures Serves(StepSubmit(cfg, sh, cl, ch).shared.tables, r, StepSubmit(cfg, sh, cl, ch).client)
  {
    var s := cl.pc.submit;
    if s.CheckOwner? {
      hide FindDuplicateTx, FetchResourceTx, FetchCaseTx, MakeCaseTx, CommitFactsTx, RereadVersionTx, ParamsMatch;
      if s.action.command.caseId in sh.tables.cases { SameAgainIs(sh.tables, r, s.action.command); }
      hide SameAgain;
    } else {
      hide CheckOwnerTx, SameRequest, FindByKey, UpstreamAgrees, Normalize, Authoritative, AppendFact, CreateCase;
    }
  }

  lemma AuthorizeServes(cfg: Config, sh: Shared, r: Request, cl: Client, ch: Choice)
    requires SharedOk(cfg, sh) && cl.pc.InAuthorize? && Serves(sh.tables, r, cl)
    ensures Serves(StepAuthorize(cfg, sh, cl, ch).shared.tables, r, StepAuthorize(cfg, sh, cl, ch).client)
  {
    hide LogsLegal, OutboxOk, ProposalsOk, VersionsOk, LedgerOk, CallsOk, SpecificationMet, FactAgrees;
    hide Policy.RequireActive, Governs, KeysOk;
  }

  lemma ActionServes(cfg: Config, sh: Shared, r: Request, cl: Client, ch: Choice)
    requires cl.pc.InAction? && Serves(sh.tables, r, cl) && SnapOk(sh.tables, cl.pc.action)
    ensures Serves(sh.tables, r, StepAction(cfg, sh, cl, ch).client)
  {
    hide OutcomeAllowed, CommitEffect, ScenarioFor, SetStatus, PolicyAllows, SameAgain, ClaimAction, TransitionAction;
  }

  lemma ServesStill(sh: Shared, sh': Shared, r: Request, cl: Client)
    requires Evolves(sh, sh') && Serves(sh.tables, r, cl)
    ensures Serves(sh'.tables, r, cl)
  {
    hide ActionsEvolve, ProposalsEvolve, OutboxEvolves, EffectsEvolve;
  }

  /** A step of the call itself. */
  lemma StepServes(w: World, r: Request, c: nat, ch: Choice)
    requires Inv(w) && c in w.clients && Serves(w.shared.tables, r, w.clients[c])
    ensures Serves(Apply(w, Step(c, ch)).shared.tables, r, Apply(w, Step(c, ch)).clients[c])
  {
    hide StepSubmit, StepAuthorize, StepAction, StepBridge, StepWorker, SharedOk, OwnersDistinct, SameAgain, FrameOk;
    hide Evolves, SnapOk;
    var cl := w.clients[c];
    match cl.pc
    case InSubmit(_, _) => SubmitServes(w.cfg, w.shared, r, cl, ch);
    case InAuthorize(_, _, _) => AuthorizeServes(w.cfg, w.shared, r, cl, ch);
    case InAction(_, _) =>
      ActionServes(w.cfg, w.shared, r, cl, ch);
      MoveKept(w, Step(c, ch));
      ServesStill(w.shared, Apply(w, Step(c, ch)).shared, r, Apply(w, Step(c, ch)).clients[c]);
    case Done =>
  }

  lemma MoveServes(w: World, m: Move, r: Request, c: nat)
    requires Inv(w) && c in w.clients && Serves(w.shared.tables, r, w.clients[c]) && m != Crash(c)
    ensures c in Apply(w, m).clients && Serves(Apply(w, m).shared.tables, r, Apply(w, m).clients[c])
  {
    hide ClientStep, Environment, Inv, Serves, Evolves, Start;
    if m.Step? && m.client == c {
      StepServes(w, r, c, m.choice);
    } else {
      MoveKept(w, m);
      ServesStill(w.shared, Apply(w, m).shared, r, w.clients[c]);
    }
  }

  lemma {:induction false} RunServes(w: World, moves: seq<Move>, r: Request, c: nat)
    requires Inv(w) && c in w.clients && Serves(w.shared.tables, r, w.clients[c]) && Spared(moves, c)
    ensures c in Run(w, moves).clients && Serves(Run(w, moves).shared.tables, r, Run(w, moves).clients[c])
    decreases |moves|
  {
    hide Apply, Inv, Serves, Evolves;
    if moves != [] {
      MoveKept(w, moves[0]);
      MoveServes(w, moves[0], r, c);
      RunServes(Apply(w, moves[0]), moves[1..], r, c);
    }
  }

  /**
    Whatever else runs and whoever inserts it, the action a submit call dispatches bears the
    request's key, asks for what the request asks for, and is on a case of its customer.
   */
  lemma SubmitDispatchesItsOwn(w: World, before: seq<Move>, c: nat, r: Request, moves: seq<Move>)
    requires Initial(w) && c !in Run(w, before).clients && Spared(moves, c)
    ensures var end := Run(Called(w, before, c, Submit(r)), moves);
            && c in end.clients
            && (end.clients[c].pc.InAction? ==>
                 var command := end.clients[c].pc.action.command;
                 command.key == r.key && SameAgain(end.shared.tables, r, command))
  {
    hide Initial, Run, Inv, Evolves, SameAgain;
    InitialInv(w);
    RunKept(w, before);
    MoveKept(Run(w, before), Spawn(c, Submit(r)));
    RunServes(Called(w, before, c, Submit(r)), moves, r, c);
  }

  // ---- What some choices lead to ----

  ghost predicate Leads(cfg: Config, sh: Shared, cl: Client, sh': Shared, cl': Client) {
    exists chs: seq<Choice> :: Script(cfg, sh, cl, chs) == Outcome(sh', cl')
  }

  lemma LeadsNowhere(cfg: Config, sh: Shared, cl: Client)
    ensures Leads(cfg, sh, cl, sh, cl)
  {
    hide ClientStep;
    assert Script(cfg, sh, cl, []) == Outcome(sh, cl);
  }

  lemma LeadsFirst(cfg: Config, sh: Shared, cl: Client, ch: Choice, sh1: Shared, cl1: Client, sh2: Shared, cl2: Client)
    requires ClientStep(cfg, sh, cl, ch) == Outcome(sh1, cl1) && Leads(cfg, sh1, cl1, sh2, cl2)
    ensures Leads(cfg, sh, cl, sh2, cl2)
  {
    hide ClientStep, Script;
    var chs: seq<Choice> :| Script(cfg, sh1, cl1, chs) == Outcome(sh2, cl2);
    ScriptStep(cfg, sh, cl, ch, sh1, cl1, chs);
    assert Script(cfg, sh, cl, [ch] + chs) == Outcome(sh2, cl2);
  }

  lemma LeadsOn(cfg: Config, sh: Shared, cl: Client, sh1: Shared, cl1: Client, sh2: Shared, cl2: Client)
    requires Leads(cfg, sh, cl, sh1, cl1) && Leads(cfg, sh1, cl1, sh2, cl2)
    ensures Leads(cfg, sh, cl, sh2, cl2)
  {
    hide ClientStep, Script;
    var a: seq<Choice> :| Script(cfg, sh, cl, a) == Outcome(sh1, cl1);
    var b: seq<Choice> :| Script(cfg, sh1, cl1, b) == Outcome(sh2, cl2);
    ScriptAppend(cfg, sh, cl, a, b);
    assert Script(cfg, sh, cl, a + b) == Outcome(sh2, cl2);
  }

  // ---- The facts ----

  /** Each of the parameters has its own fact, referred to and demanded VERIFIED. */
  predicate Referred(action: ActionName, done: set<Name>, g: Grounds) {
    && g.refs.Keys == done && g.authorities.Keys == done
    && forall p :: p in done ==> g.refs[p] == FactName(action, p) && g.authorities[p] == Verified
  }

  /** The fact of one of these parameters. */
  predicate FactOf(k: (Name, FactName), caseId: Name, action: ActionName, parameters: set<Name>) {
    k.0 == caseId && k.1.FactName? && k.1.action == action && k.1.parameter in parameters
  }

  /** The parameters' facts are filed with the resource's values, and no others. */
  ghost predicate FactsOf(facts: map<(Name, FactName), Fact>, caseId: Name, action: ActionName, upstream: Params,
                          todo: set<Name>, facts': map<(Name, FactName), Fact>)
  {
    && (forall p :: p in todo ==>
         (caseId, FactName(action, p)) in facts'
         && facts'[(caseId, FactName(action, p))] == Fact(Get(upstream, p), Verified))
    && (forall k :: k in facts ==> k in facts')
    && (forall k :: k in facts' && !FactOf(k, caseId, action, todo) ==> k in facts && facts'[k] == facts[k])
  }

  /** The facts are filed, each under a version of its own, and nothing else has changed. */
  ghost predicate Filed(t: Tables, caseId: Name, action: ActionName, upstream: Params, todo: set<Name>, t': Tables) {
    && caseId in t.cases
    && t' == t.(cases := t'.cases, facts := t'.facts, commits := t'.commits)
    && t'.cases == t.cases[caseId := t.cases[caseId].(version := t.cases[caseId].version + |todo|)]
    && FactsOf(t.facts, caseId, action, upstream, todo, t'.facts)
  }

  function WithTables(sh: Shared, t: Tables): Shared {
    sh.(tables := t)
  }

  /** One fact, filed. */
  function File(t: Tables, caseId: Name, action: ActionName, upstream: Params, p: Name): (t': Tables)
    requires caseId in t.cases
    ensures caseId in t'.cases && t'.cases[caseId].version == t.cases[caseId].version + 1
  {
    t.(cases := t.cases[caseId := Bump(t.cases[caseId])],
       facts := t.facts[(caseId, FactName(action, p)) := Fact(Get(upstream, p), Verified)],
       commits := t.commits[caseId := Commits(t.commits, caseId) + 1])
  }

  lemma FileStep(f: Frame, cfg: Config, sh: Shared, r: Request, upstream: Params, todo: set<Name>, g: Grounds,
                 ch: Choice)
    requires r.caseId in sh.tables.cases && ch.pick in todo
    ensures var t' := File(sh.tables, r.caseId, r.action, upstream, ch.pick);
            ClientStep(cfg, sh, Submitting(f, r, CommitFacts(upstream, todo, g, sh.tables.cases[r.caseId].version)), ch)
            == Outcome(WithTables(sh, t'),
                       Submitting(f, r, RereadVersion(upstream, todo - {ch.pick}, AddGround(g, r.action, ch.pick))))
  {
    hide StepAuthorize, StepAction, StepBridge, StepWorker;
  }

  lemma RereadStep(f: Frame, cfg: Config, sh: Shared, r: Request, upstream: Params, todo: set<Name>, g: Grounds,
                   ch: Choice)
    requires r.caseId in sh.tables.cases
    ensures ClientStep(cfg, sh, Submitting(f, r, RereadVersion(upstream, todo, g)), ch)
            == Outcome(sh, Submitting(f, r, CommitFacts(upstream, todo, g, sh.tables.cases[r.caseId].version)))
  {
    hide StepAuthorize, StepAction, StepBridge, StepWorker;
  }

  lemma FiledNone(t: Tables, caseId: Name, action: ActionName, upstream: Params)
    requires caseId in t.cases
    ensures Filed(t, caseId, action, upstream, {}, t)
  {
  }

  lemma FactsMore(facts: map<(Name, FactName), Fact>, caseId: Name, action: ActionName, upstream: Params, p: Name,
                  todo: set<Name>, facts': map<(Name, FactName), Fact>)
    requires p in todo
    requires FactsOf(facts[(caseId, FactName(action, p)) := Fact(Get(upstream, p), Verified)], caseId, action, upstream,
                     todo - {p}, facts')
    ensures FactsOf(facts, caseId, action, upstream, todo, facts')
  {
    var k := (caseId, FactName(action, p));
    assert k in facts' && facts'[k] == Fact(Get(upstream, p), Verified);
  }

  lemma FiledMore(t: Tables, caseId: Name, action: ActionName, upstream: Params, p: Name, todo: set<Name>, t': Tables)
    requires caseId in t.cases && p in todo
    requires Filed(File(t, caseId, action, upstream, p), caseId, action, upstream, todo - {p}, t')
    ensures Filed(t, caseId, action, upstream, todo, t') && caseId in t'.cases
  {
    hide FactsOf;
    assert |todo - {p}| == |todo| - 1;
    FactsMore(t.facts, caseId, action, upstream, p, todo, t'.facts);
  }

  /** The loop over the authoritative parameters, with this many to go. */
  function AtFacts(f: Frame, t: Tables, r: Request, upstream: Params, todo: set<Name>, g: Grounds): Client
    requires r.caseId in t.cases
  {
    Submitting(f, r, CommitFacts(upstream, todo, g, t.cases[r.caseId].version))
  }

  /** From these tables and grounds the loop gets to those. */
  ghost predicate FilesTo(f: Frame, cfg: Config, sh: Shared, r: Request, upstream: Params, todo: set<Name>,
                          g: Grounds, t': Tables, g': Grounds)
  {
    && r.caseId in sh.tables.cases && r.caseId in t'.cases
    && Filed(sh.tables, r.caseId, r.action, upstream, todo, t')
    && Leads(cfg, sh, AtFacts(f, sh.tables, r, upstream, todo, g), WithTables(sh, t'),
             AtFacts(f, t', r, upstream, {}, g'))
  }

  lemma ReferredMore(action: ActionName, done: set<Name>, g: Grounds, p: Name)
    requires Referred(action, done, g)
    ensures Referred(action, done + {p}, AddGround(g, action, p))
  {
  }

  lemma FilesNone(f: Frame, cfg: Config, sh: Shared, r: Request, upstream: Params, g: Grounds)
    requires r.caseId in sh.tables.cases
    ensures FilesTo(f, cfg, sh, r, upstream, {}, g, sh.tables, g)
  {
    hide ClientStep, Leads, Filed, AtFacts;
    FiledNone(sh.tables, r.caseId, r.action, upstream);
    LeadsNowhere(cfg, sh, AtFacts(f, sh.tables, r, upstream, {}, g));
  }

  lemma FilesOne(f: Frame, cfg: Config, sh: Shared, r: Request, upstream: Params, todo: set<Name>, g: Grounds,
                 ch: Choice, t': Tables, g': Grounds)
    requires r.caseId in sh.tables.cases && ch.pick in todo
    requires FilesTo(f, cfg, WithTables(sh, File(sh.tables, r.caseId, r.action, upstream, ch.pick)), r, upstream,
                     todo - {ch.pick}, AddGround(g, r.action, ch.pick), t', g')
    ensures FilesTo(f, cfg, sh, r, upstream, todo, g, t', g')
  {
    hide ClientStep, Leads, Filed, File, AddGround;
    var rest, g1, t1 := todo - {ch.pick}, AddGround(g, r.action, ch.pick),
        File(sh.tables, r.caseId, r.action, upstream, ch.pick);
    var sh1, reread := WithTables(sh, t1), Submitting(f, r, RereadVersion(upstream, rest, g1));
    var sh2, end := WithTables(sh, t'), AtFacts(f, t', r, upstream, {}, g');
    RereadStep(f, cfg, sh1, r, upstream, rest, g1, ch);
    LeadsFirst(cfg, sh1, reread, ch, sh1, AtFacts(f, t1, r, upstream, rest, g1), sh2, end);
    FileStep(f, cfg, sh, r, upstream, todo, g, ch);
    LeadsFirst(cfg, sh, AtFacts(f, sh.tables, r, upstream, todo, g), ch, sh1, reread, sh2, end);
    FiledMore(sh.tables, r.caseId, r.action, upstream, ch.pick, todo, t');
  }

  lemma {:induction false} FilesAll(f: Frame, cfg: Config, sh: Shared, r: Request, upstream: Params, todo: set<Name>,
                                    g: Grounds, done: set<Name>, ch: Choice)
    returns (t': Tables, g': Grounds)
    requires r.caseId in sh.tables.cases && Referred(r.action, done, g)
    ensures FilesTo(f, cfg, sh, r, upstream, todo, g, t', g') && Referred(r.action, done + todo, g')
    decreases |todo|
  {
    hide FilesTo, File, Referred;
    if todo == {} {
      t', g' := sh.tables, g;
      assert done + todo == done;
      FilesNone(f, cfg, sh, r, upstream, g);
    } else {
      var p :| p in todo;
      var t1 := File(sh.tables, r.caseId, r.action, upstream, p);
      ReferredMore(r.action, done, g, p);
      assert todo - {p} < todo;
      t', g' := FilesAll(f, cfg, WithTables(sh, t1), r, upstream, todo - {p}, AddGround(g, r.action, p), done + {p},
                         ch);
      assert done + {p} + (todo - {p}) == done + todo;
      FilesOne(f, cfg, sh, r, upstream, todo, g, ch.(pick := p), t', g');
    }
  }

  // ---- A request that is in order ----

  /** The procedure the request's case runs, or would run if the request opened it. */
  function ProcedureOf(t: Tables, r: Request): Name {
    if r.caseId in t.cases then t.cases[r.caseId].procedureId else r.procedureId
  }

  /** The package the request names is active, verifies, is of the case's procedure and permits the action. */
  predicate PolicyInOrder(sh: Shared, r: Request) {
    && r.policyPackageId in sh.policy.rows
    && var p := sh.policy.rows[r.policyPackageId].package;
       && p.body.lifecycle.Active? && Policy.Verify(sh.policy.signer, p)
       && p.body.procedureId == ProcedureOf(sh.tables, r)
       && (p.body.rules.allowed.Listed? ==> r.action in p.body.rules.allowed.actions)
  }

  /** What the catalog asks for is there, and the resource agrees with the authoritative parameters. */
  ghost predicate CatalogInOrder(cfg: Config, sh: Shared, r: Request) {
    && r.action in cfg.specs
    && var spec := cfg.specs[r.action];
       && (forall p :: p in spec.required ==> p in r.params)
       && (spec.requiresConsent ==> r.consentRef != None) && (spec.requiresApproval ==> r.approvalRef != None)
       && (spec.authoritative != {} ==> Matches(spec, sh, r, r.params, r.customerId))
  }

  ghost predicate InOrder(cfg: Config, sh: Shared, r: Request) {
    && CatalogInOrder(cfg, sh, r) && (r.caseId in sh.tables.cases ==> CaseFits(sh.tables, r))
    && r.action in sh.bindings && (cfg.governed ==> PolicyInOrder(sh, r))
  }

  /** The request's own command, with its fact references and the two stamps of this moment. */
  predicate Stamped(cfg: Config, sh: Shared, r: Request, c: Command) {
    && Repeats(c, r) && r.action in cfg.specs
    && Referred(r.action, cfg.specs[r.action].authoritative, Grounds(c.factRefs, c.requiredAuthority))
    && r.action in sh.bindings && c.binding == sh.bindings[r.action]
    && if cfg.governed then
         r.policyPackageId in sh.policy.rows
         && c.activationSignature == sh.policy.rows[r.policyPackageId].package.activationSignature
       else c.activationSignature == None
  }

  /** The case the request opens, or the one it finds. */
  function CaseOf(t: Tables, r: Request): Case {
    if r.caseId in t.cases then t.cases[r.caseId] else Case(r.customerId, r.procedureId, r.procedureVersion, 0)
  }

  /** Every authoritative parameter is filed as a VERIFIED fact of the case; other facts stay. */
  ghost predicate FactsFiled(t: Tables, r: Request, authoritative: set<Name>, t': Tables) {
    && (forall p :: p in authoritative ==>
         (r.caseId, FactName(r.action, p)) in t'.facts
         && t'.facts[(r.caseId, FactName(r.action, p))]
             == Fact(if p in r.params then r.params[p] else NullValue, Verified))
    && (forall k :: k in t.facts ==> k in t'.facts)
    && (forall k :: k in t'.facts && !FactOf(k, r.caseId, r.action, authoritative) ==>
         k in t.facts && t'.facts[k] == t.facts[k])
  }

  /** One authorized action with its log, its row, its facts and its case; nothing else has changed. */
  ghost predicate Admitted(cfg: Config, sh: Shared, r: Request, c: Command, id: nat, outboxId: nat, sh': Shared) {
    var t, t' := sh.tables, sh'.tables;
    && Stamped(cfg, sh, r, c)
    && sh' == sh.(tables := t') && t'.proposals == t.proposals
    && t'.actions == t.actions[id := Action(c, Authorized)] && t'.keyIndex == t.keyIndex[r.key := id]
    && t'.events == t.events + [Event(id, Requested), Event(id, Authorized)]
    && t'.outbox == t.outbox[outboxId := OutboxRow(ActionDispatch, id, Waiting, 0, sh.now, None, sh.now)]
    && t'.cases == t.cases[r.caseId :=
         CaseOf(t, r).(version := CaseOf(t, r).version + |cfg.specs[r.action].authoritative| + 1)]
    && FactsFiled(t, r, cfg.specs[r.action].authoritative, t')
  }

  // ---- Its steps ----

  function UpstreamOf(cfg: Config, sh: Shared, r: Request): Params {
    if r.action in cfg.specs && cfg.specs[r.action].authoritative != {} && r.resource.Some?
       && r.resource.value in sh.ledger.resources
    then Normalize(r.action, sh.ledger.resources[r.resource.value].payload) else map[]
  }

  lemma MatchesBacks(spec: Specification, sh: Shared, r: Request)
    requires Matches(spec, sh, r, r.params, r.customerId)
    ensures Backs(spec, sh, r)
  {
    hide Normalize, FieldOf;
    var payload := sh.ledger.resources[r.resource.value].payload;
    forall p | p in spec.authoritative
      ensures p in Normalize(r.action, payload) && Normalize(r.action, payload)[p] == Get(r.params, p)
    {
      NormalizedField(r.action, payload, p);
    }
    if spec.customerBinding.Some? { NormalizedField(r.action, payload, spec.customerBinding.value); }
  }

  lemma UpstreamIs(cfg: Config, sh: Shared, r: Request, p: Name)
    requires CatalogInOrder(cfg, sh, r) && p in cfg.specs[r.action].authoritative
    ensures Get(UpstreamOf(cfg, sh, r), p) == Get(r.params, p)
  {
    hide Normalize, Matches;
    MatchesBacks(cfg.specs[r.action], sh, r);
  }

  lemma NewKey(f: Frame, cfg: Config, sh: Shared, r: Request, ch: Choice)
    requires FindByKey(sh.tables, r.key) == None
    ensures ClientStep(cfg, sh, Submitting(f, r, FindDuplicate), ch) == Outcome(sh, Submitting(f, r, FetchResource))
  {
    hide StepAuthorize, StepAction, StepBridge, StepWorker, SameRequest, FindByKey;
  }

  lemma FetchesResource(f: Frame, cfg: Config, sh: Shared, r: Request, ch: Choice)
    requires CatalogInOrder(cfg, sh, r)
    ensures ClientStep(cfg, sh, Submitting(f, r, FetchResource), ch)
            == Outcome(sh, Submitting(f, r, FetchCase(UpstreamOf(cfg, sh, r))))
  {
    hide StepAuthorize, StepAction, StepBridge, StepWorker, Normalize, Matches, UpstreamAgrees;
    if cfg.specs[r.action].authoritative != {} { MatchesBacks(cfg.specs[r.action], sh, r); }
  }

  /** The tables once the case is there. */
  function Opened(t: Tables, r: Request): Tables {
    if r.caseId in t.cases then t
    else t.(cases := t.cases[r.caseId := Case(r.customerId, r.procedureId, r.procedureVersion, 0)],
            commits := t.commits[r.caseId := 0])
  }

  lemma FindsCase(f: Frame, cfg: Config, sh: Shared, r: Request, upstream: Params, ch: Choice)
    requires CaseFits(sh.tables, r)
    ensures ClientStep(cfg, sh, Submitting(f, r, FetchCase(upstream)), ch)
            == Outcome(sh, AtFacts(f, sh.tables, r, upstream, Authoritative(cfg, r.action), NO_GROUNDS))
  {
    hide StepAuthorize, StepAction, StepBridge, StepWorker;
  }

  lemma MissesCase(f: Frame, cfg: Config, sh: Shared, r: Request, upstream: Params, ch: Choice)
    requires r.caseId !in sh.tables.cases
    ensures ClientStep(cfg, sh, Submitting(f, r, FetchCase(upstream)), ch)
            == Outcome(sh, Submitting(f, r, MakeCase(upstream)))
    ensures ClientStep(cfg, sh, Submitting(f, r, MakeCase(upstream)), ch)
            == Outcome(WithTables(sh, Opened(sh.tables, r)),
                       AtFacts(f, Opened(sh.tables, r), r, upstream, Authoritative(cfg, r.action), NO_GROUNDS))
  {
    hide StepAuthorize, StepAction, StepBridge, StepWorker;
  }

  lemma ComesToFacts(f: Frame, cfg: Config, sh: Shared, r: Request, ch: Choice)
    requires FindByKey(sh.tables, r.key) == None && CatalogInOrder(cfg, sh, r)
    requires r.caseId in sh.tables.cases ==> CaseFits(sh.tables, r)
    ensures Leads(cfg, sh, Submitting(f, r, FindDuplicate), WithTables(sh, Opened(sh.tables, r)),
                  AtFacts(f, Opened(sh.tables, r), r, UpstreamOf(cfg, sh, r), cfg.specs[r.action].authoritative,
                          NO_GROUNDS))
  {
    hide ClientStep, Leads, FindByKey, UpstreamOf, Matches;
    var upstream, sh1 := UpstreamOf(cfg, sh, r), WithTables(sh, Opened(sh.tables, r));
    var end := AtFacts(f, Opened(sh.tables, r), r, upstream, cfg.specs[r.action].authoritative, NO_GROUNDS);
    LeadsNowhere(cfg, sh1, end);
    if r.caseId in sh.tables.cases {
      FindsCase(f, cfg, sh, r, upstream, ch);
    } else {
      MissesCase(f, cfg, sh, r, upstream, ch);
      LeadsFirst(cfg, sh, Submitting(f, r, MakeCase(upstream)), ch, sh1, end, sh1, end);
    }
    LeadsFirst(cfg, sh, Submitting(f, r, FetchCase(upstream)), ch, if r.caseId in sh.tables.cases then sh1 else sh,
               if r.caseId in sh.tables.cases then end else Submitting(f, r, MakeCase(upstream)), sh1, end);
    FetchesResource(f, cfg, sh, r, ch);
    LeadsFirst(cfg, sh, Submitting(f, r, FetchResource), ch, sh, Submitting(f, r, FetchCase(upstream)), sh1, end);
    NewKey(f, cfg, sh, r, ch);
    LeadsFirst(cfg, sh, Submitting(f, r, FindDuplicate), ch, sh, Submitting(f, r, FetchResource), sh1, end);
  }

  /** The command that is inserted. */
  function CommandOf(cfg: Config, sh: Shared, r: Request, g: Grounds): Command
    requires r.action in sh.bindings && (cfg.governed ==> r.policyPackageId in sh.policy.rows)
  {
    BuildCommand(r, g).(
      binding := sh.bindings[r.action],
      activationSignature :=
        if cfg.governed then sh.policy.rows[r.policyPackageId].package.activationSignature else None)
  }

  lemma Builds(f: Frame, cfg: Config, sh: Shared, r: Request, upstream: Params, g: Grounds, ch: Choice)
    requires r.caseId in sh.tables.cases
    ensures ClientStep(cfg, sh, AtFacts(f, sh.tables, r, upstream, {}, g), ch)
            == Outcome(sh, Authorizing(f, BuildCommand(r, g), sh.tables.cases[r.caseId].version, Stamp))
  {
    hide StepAuthorize, StepAction, StepBridge, StepWorker;
  }

  lemma Stamps(f: Frame, cfg: Config, sh: Shared, r: Request, g: Grounds, v: int, ch: Choice)
    requires !ch.raises && r.action in sh.bindings && r.caseId in sh.tables.cases
    requires cfg.governed ==> PolicyInOrder(sh, r)
    ensures ClientStep(cfg, sh, Authorizing(f, BuildCommand(r, g), v, Stamp), ch)
            == Outcome(sh, Authorizing(f, CommandOf(cfg, sh, r, g), v, FindKey))
  {
    hide StepSubmit, StepAction, StepBridge, StepWorker, Policy.Verify;
  }

  lemma FindsKeyFree(f: Frame, cfg: Config, sh: Shared, c: Command, v: int, ch: Choice)
    requires FindByKey(sh.tables, c.key) == None && c.action in cfg.specs && SpecificationMet(cfg.specs[c.action], c)
    ensures ClientStep(cfg, sh, Authorizing(f, c, v, FindKey), ch)
            == Outcome(sh, Authorizing(f, c, v, CheckFacts(c.factRefs.Keys)))
  {
    hide StepSubmit, StepAction, StepBridge, StepWorker, FindByKey, SpecificationMet;
  }

  lemma ChecksFact(f: Frame, cfg: Config, sh: Shared, c: Command, v: int, todo: set<Name>, ch: Choice)
    ensures todo == {} ==>
              ClientStep(cfg, sh, Authorizing(f, c, v, CheckFacts(todo)), ch)
                  == Outcome(sh, Authorizing(f, c, v, Insert))
    ensures ch.pick in todo && FactAgrees(sh.tables, c, ch.pick) ==>
              ClientStep(cfg, sh, Authorizing(f, c, v, CheckFacts(todo)), ch)
              == Outcome(sh, Authorizing(f, c, v, CheckFacts(todo - {ch.pick})))
  {
    hide StepSubmit, StepAction, StepBridge, StepWorker, FactAgrees;
  }

  lemma {:induction false} ChecksFacts(f: Frame, cfg: Config, sh: Shared, c: Command, v: int, todo: set<Name>,
                                       ch: Choice)
    requires forall p :: p in todo ==> FactAgrees(sh.tables, c, p)
    ensures Leads(cfg, sh, Authorizing(f, c, v, CheckFacts(todo)), sh, Authorizing(f, c, v, Insert))
    decreases |todo|
  {
    hide ClientStep, Leads, FactAgrees;
    var end := Authorizing(f, c, v, Insert);
    if todo == {} {
      ChecksFact(f, cfg, sh, c, v, todo, ch);
      LeadsNowhere(cfg, sh, end);
      LeadsFirst(cfg, sh, Authorizing(f, c, v, CheckFacts(todo)), ch, sh, end, sh, end);
    } else {
      var p :| p in todo;
      assert todo - {p} < todo;
      ChecksFacts(f, cfg, sh, c, v, todo - {p}, ch);
      ChecksFact(f, cfg, sh, c, v, todo, ch.(pick := p));
      LeadsFirst(cfg, sh, Authorizing(f, c, v, CheckFacts(todo)), ch.(pick := p), sh,
                 Authorizing(f, c, v, CheckFacts(todo - {p})), sh, end);
    }
  }

  lemma Inserts(f: Frame, cfg: Config, sh: Shared, c: Command, v: int, ch: Choice)
    requires InsertAction(sh.tables, ch.id, ch.outboxId, c, v, sh.now).Some?
    ensures ClientStep(cfg, sh, Authorizing(f, c, v, Insert), ch)
            == Outcome(WithTables(sh, InsertAction(sh.tables, ch.id, ch.outboxId, c, v, sh.now).value),
                       Holding(f, Snapshot(ch.id, c, Authorized)))
  {
    hide StepSubmit, StepAction, StepBridge, StepWorker, InsertAction;
  }

  // ---- From the lookup to the insert ----

  /** The tables once the facts are filed. */
  ghost predicate Prepared(cfg: Config, sh: Shared, r: Request, t: Tables, g: Grounds) {
    && r.action in cfg.specs && r.caseId in t.cases
    && Filed(Opened(sh.tables, r), r.caseId, r.action, UpstreamOf(cfg, sh, r), cfg.specs[r.action].authoritative, t)
    && Referred(r.action, cfg.specs[r.action].authoritative, g)
  }

  lemma PreparedStill(cfg: Config, sh: Shared, r: Request, t: Tables, g: Grounds)
    requires InOrder(cfg, sh, r) && Prepared(cfg, sh, r, t, g)
    ensures cfg.governed ==> PolicyInOrder(WithTables(sh, t), r)
    ensures FindByKey(t, r.key) == FindByKey(sh.tables, r.key)
    ensures t.actions == sh.tables.actions && t.keyIndex == sh.tables.keyIndex && t.outbox == sh.tables.outbox
  {
    hide Policy.Verify, Matches, UpstreamOf, Referred;
  }

  lemma PreparedFact(cfg: Config, sh: Shared, r: Request, t: Tables, g: Grounds, p: Name)
    requires InOrder(cfg, sh, r) && Prepared(cfg, sh, r, t, g) && p in cfg.specs[r.action].authoritative
    ensures FactAgrees(t, CommandOf(cfg, WithTables(sh, t), r, g), p)
  {
    hide PolicyInOrder, Matches, UpstreamOf, Opened, Policy.Verify;
    UpstreamIs(cfg, sh, r, p);
  }

  lemma PreparedSpec(cfg: Config, sh: Shared, r: Request, g: Grounds)
    requires InOrder(cfg, sh, r) && Referred(r.action, cfg.specs[r.action].authoritative, g)
    requires cfg.governed ==> r.policyPackageId in sh.policy.rows
    ensures SpecificationMet(cfg.specs[r.action], CommandOf(cfg, sh, r, g))
  {
    hide PolicyInOrder, Matches;
  }

  lemma ComesToInsert(f: Frame, cfg: Config, sh: Shared, r: Request, t: Tables, g: Grounds, ch: Choice)
    requires InOrder(cfg, sh, r) && Prepared(cfg, sh, r, t, g) && FindByKey(sh.tables, r.key) == None && !ch.raises
    ensures var sh2 := WithTables(sh, t);
            Leads(cfg, sh2, AtFacts(f, t, r, UpstreamOf(cfg, sh, r), {}, g), sh2,
                  Authorizing(f, CommandOf(cfg, sh2, r, g), t.cases[r.caseId].version, Insert))
  {
    hide ClientStep, Leads, FindByKey, UpstreamOf, FactAgrees, SpecificationMet, Filed, CatalogInOrder, CaseFits;
    hide Policy.Verify, Opened;
    var sh2, v := WithTables(sh, t), t.cases[r.caseId].version;
    var c := CommandOf(cfg, sh2, r, g);
    var end := Authorizing(f, c, v, Insert);
    PreparedStill(cfg, sh, r, t, g);
    PreparedSpec(cfg, sh, r, g);
    forall p | p in c.factRefs.Keys ensures FactAgrees(t, c, p) { PreparedFact(cfg, sh, r, t, g, p); }
    ChecksFacts(f, cfg, sh2, c, v, c.factRefs.Keys, ch);
    FindsKeyFree(f, cfg, sh2, c, v, ch);
    LeadsFirst(cfg, sh2, Authorizing(f, c, v, FindKey), ch, sh2, Authorizing(f, c, v, CheckFacts(c.factRefs.Keys)),
               sh2, end);
    Stamps(f, cfg, sh2, r, g, v, ch);
    LeadsFirst(cfg, sh2, Authorizing(f, BuildCommand(r, g), v, Stamp), ch, sh2, Authorizing(f, c, v, FindKey), sh2,
               end);
    Builds(f, cfg, sh2, r, UpstreamOf(cfg, sh, r), g, ch);
    LeadsFirst(cfg, sh2, AtFacts(f, t, r, UpstreamOf(cfg, sh, r), {}, g), ch, sh2,
               Authorizing(f, BuildCommand(r, g), v, Stamp), sh2, end);
  }

  // ---- What is left ----

  lemma CommandIsStamped(cfg: Config, sh: Shared, r: Request, t: Tables, g: Grounds)
    requires InOrder(cfg, sh, r) && Prepared(cfg, sh, r, t, g)
    ensures Stamped(cfg, sh, r, CommandOf(cfg, WithTables(sh, t), r, g))
  {
    hide CatalogInOrder, Filed, Policy.Verify;
  }

  lemma FactsAreFiled(cfg: Config, sh: Shared, r: Request, t: Tables, g: Grounds)
    requires CatalogInOrder(cfg, sh, r) && Prepared(cfg, sh, r, t, g)
    ensures FactsFiled(sh.tables, r, cfg.specs[r.action].authoritative, t)
  {
    hide Matches, UpstreamOf;
    forall p | p in cfg.specs[r.action].authoritative
      ensures Get(UpstreamOf(cfg, sh, r), p) == if p in r.params then r.params[p] else NullValue
    {
      UpstreamIs(cfg, sh, r, p);
    }
  }

  lemma InsertsCase(cfg: Config, sh: Shared, r: Request, t: Tables, g: Grounds)
    requires InOrder(cfg, sh, r) && Prepared(cfg, sh, r, t, g)
    ensures t.cases[r.caseId := Bump(t.cases[r.caseId])] == sh.tables.cases[r.caseId :=
              CaseOf(sh.tables, r).(version := CaseOf(sh.tables, r).version + |cfg.specs[r.action].authoritative| + 1)]
    ensures t.events == sh.tables.events && t.proposals == sh.tables.proposals
  {
    hide CatalogInOrder, PolicyInOrder, UpstreamOf, Referred;
  }

  lemma InsertAdmits(cfg: Config, sh: Shared, r: Request, t: Tables, g: Grounds, id: nat, outboxId: nat)
    requires InOrder(cfg, sh, r) && Prepared(cfg, sh, r, t, g)
    requires id !in sh.tables.actions && outboxId !in sh.tables.outbox && r.key !in sh.tables.keyIndex
    ensures var c := CommandOf(cfg, WithTables(sh, t), r, g);
            var made := InsertAction(t, id, outboxId, c, t.cases[r.caseId].version, sh.now);
            made.Some? && Admitted(cfg, sh, r, c, id, outboxId, WithTables(sh, made.value))
  {
    hide CatalogInOrder, PolicyInOrder, Filed, Referred, FactsFiled, Stamped, CaseOf, Opened, UpstreamOf;
    PreparedStill(cfg, sh, r, t, g);
    PreparedPackage(cfg, sh, r);
    CommandIsStamped(cfg, sh, r, t, g);
    FactsAreFiled(cfg, sh, r, t, g);
    FactsFiledAlike(sh.tables, r, cfg.specs[r.action].authoritative, t);
    InsertsCase(cfg, sh, r, t, g);
  }

  lemma PreparedPackage(cfg: Config, sh: Shared, r: Request)
    requires InOrder(cfg, sh, r)
    ensures cfg.governed ==> r.policyPackageId in sh.policy.rows
  {
    hide CatalogInOrder, Policy.Verify;
  }

  lemma FactsFiledAlike(t: Tables, r: Request, authoritative: set<Name>, t1: Tables)
    requires FactsFiled(t, r, authoritative, t1)
    ensures forall t2: Tables :: t2.facts == t1.facts ==> FactsFiled(t, r, authoritative, t2)
  {
  }

  /** From the start of the call to the dispatch of its new action. */
  lemma SoloSubmission(f: Frame, cfg: Config, sh: Shared, r: Request, ch: Choice) returns (c: Command, sh': Shared)
    requires InOrder(cfg, sh, r) && r.key !in sh.tables.keyIndex && !ch.raises
    requires ch.id !in sh.tables.actions && ch.outboxId !in sh.tables.outbox
    ensures Admitted(cfg, sh, r, c, ch.id, ch.outboxId, sh')
    ensures Leads(cfg, sh, Submitting(f, r, FindDuplicate), sh', Holding(f, Snapshot(ch.id, c, Authorized)))
  {
    hide ClientStep, Leads, UpstreamOf, Filed, CatalogInOrder, PolicyInOrder, CaseFits, Admitted, InsertAction;
    var upstream, start := UpstreamOf(cfg, sh, r), Submitting(f, r, FindDuplicate);
    CatalogAction(cfg, sh, r);
    var todo, sh1 := cfg.specs[r.action].authoritative, WithTables(sh, Opened(sh.tables, r));
    ComesToFacts(f, cfg, sh, r, ch);
    var t, g := FilesAll(f, cfg, sh1, r, upstream, todo, NO_GROUNDS, {}, ch);
    assert {} + todo == todo;
    assert Prepared(cfg, sh, r, t, g);
    var sh2 := WithTables(sh, t);
    LeadsOn(cfg, sh, start, sh1, AtFacts(f, sh1.tables, r, upstream, todo, NO_GROUNDS), sh2,
            AtFacts(f, t, r, upstream, {}, g));
    PreparedPackage(cfg, sh, r);
    ComesToInsert(f, cfg, sh, r, t, g, ch);
    c := CommandOf(cfg, sh2, r, g);
    var last := Authorizing(f, c, t.cases[r.caseId].version, Insert);
    LeadsOn(cfg, sh, start, sh2, AtFacts(f, t, r, upstream, {}, g), sh2, last);
    InsertAdmits(cfg, sh, r, t, g, ch.id, ch.outboxId);
    sh' := WithTables(sh2, InsertAction(t, ch.id, ch.outboxId, c, t.cases[r.caseId].version, sh.now).value);
    var end := Holding(f, Snapshot(ch.id, c, Authorized));
    Inserts(f, cfg, sh2, c, t.cases[r.caseId].version, ch);
    LeadsNowhere(cfg, sh', end);
    LeadsFirst(cfg, sh2, last, ch, sh', end, sh', end);
    LeadsOn(cfg, sh, start, sh2, last, sh', end);
  }

  lemma CatalogAction(cfg: Config, sh: Shared, r: Request)
    requires CatalogInOrder(cfg, sh, r)
    ensures r.action in cfg.specs
  {
  }

  /** The call, made from this state with these choices, comes to the dispatch of its new action. */
  ghost predicate Admits(w: World, c: nat, r: Request, chs: seq<Choice>, command: Command, id: nat, outboxId: nat) {
    var later := Run(w, [Spawn(c, Submit(r))] + StepsOf(c, chs));
    && Admitted(w.cfg, w.shared, r, command, id, outboxId, later.shared)
    && c in later.clients && later.clients[c] == Holding(Direct, Snapshot(id, command, Authorized))
  }

  /**
    From any reachable state, a request that is in order and whose key nobody has used can
    be submitted: with fresh identifiers and an order of the parameters the call inserts the
    request's action, and then stands at its dispatch.
   */
  lemma FreshSubmission(w: World, moves: seq<Move>, c: nat, r: Request, id: nat, outboxId: nat)
    requires Initial(w) && c !in Run(w, moves).clients && InOrder(w.cfg, Run(w, moves).shared, r)
    requires forall a :: a in Run(w, moves).shared.tables.actions ==>
                           Run(w, moves).shared.tables.actions[a].command.key != r.key
    requires id !in Run(w, moves).shared.tables.actions && outboxId !in Run(w, moves).shared.tables.outbox
    ensures exists chs: seq<Choice>, command :: Admits(Run(w, moves), c, r, chs, command, id, outboxId)
  {
    hide Initial, Run, Inv, SharedOk, Script, ClientStep, InOrder, Admitted, Evolves;
    InitialInv(w);
    RunKept(w, moves);
    var now := Run(w, moves);
    InvShared(now);
    KeyIsFree(now.cfg, now.shared, r.key);
    var command, sh' := SoloSubmission(Direct, now.cfg, now.shared, r, Choice(false, id, outboxId, r.key, []));
    var chs: seq<Choice> :|
      Script(now.cfg, now.shared, Submitting(Direct, r, FindDuplicate), chs)
      == Outcome(sh', Holding(Direct, Snapshot(id, command, Authorized)));
    var first := Apply(now, Spawn(c, Submit(r)));
    RunFirst(now, Spawn(c, Submit(r)), StepsOf(c, chs));
    ScriptRun(first, c, chs);
    assert Admits(now, c, r, chs, command, id, outboxId);
  }

  lemma KeyIsFree(cfg: Config, sh: Shared, key: Name)
    requires SharedOk(cfg, sh) && forall a :: a in sh.tables.actions ==> sh.tables.actions[a].command.key != key
    ensures key !in sh.tables.keyIndex
  {
    hide LogsLegal, OutboxOk, ProposalsOk, VersionsOk, LedgerOk, CallsOk;
  }
}

/**
  The invariant of the whole system, and that every move of every run keeps it: any
  number of requests, confirmations, cancellations, delivery workers and reconcilers,
  interleaved transaction by transaction, with a crash possible at every point.
 */
module ProtocolSafety {
  import opened Domain
  import opened CoreTables
  import opened Protocol
  import opened ProtocolInvariant
  import opened ProtocolTransactions
  import opened ProtocolSteps

  ghost predicate ClientsOk(cfg: Config, sh: Shared, clients: map<nat, Client>) {
    forall c :: c in clients ==> ClientOk(cfg, sh, clients[c])
  }

  /** At most one client holds the claim on an action. */
  ghost predicate OwnersDistinct(clients: map<nat, Client>) {
    forall c, d ::
      c in clients && d in clients && Owner(clients[c].pc).Some? && Owner(clients[c].pc) == Owner(clients[d].pc) ==>
          c == d
  }

  ghost predicate Inv(w: World) {
    SharedOk(w.cfg, w.shared) && ClientsOk(w.cfg, w.shared, w.clients) && OwnersDistinct(w.clients)
  }

  lemma InvShared(w: World)
    requires Inv(w)
    ensures SharedOk(w.cfg, w.shared)
  {
    hide SharedOk, ClientsOk, OwnersDistinct;
  }

  lemma InitialInv(w: World)
    requires Initial(w)
    ensures Inv(w)
  {
    forall c | c in w.shared.tables.cases ensures false {}
  }

  // ---- One move ----

  /** What a move guarantees to everybody. */
  ghost predicate Kept(w: World, w': World) {
    Inv(w') && Evolves(w.shared, w'.shared) && w'.cfg == w.cfg
  }

  /** A client that does not hold the mover's claim is not disturbed. */
  lemma Undisturbed(cfg: Config, sh: Shared, pc: Pc, sh': Shared, cl: Client)
    requires SharedOk(cfg, sh) && Good(cfg, sh, pc, sh') && ClientOk(cfg, sh, cl)
    requires Owner(pc).None? || Owner(pc) != Owner(cl.pc)
    ensures ClientOk(cfg, sh', cl)
  {
    hide PcOk, FrameOk, Evolves, Attributed, KeysOk, LogsLegal, OutboxOk, ProposalsOk, VersionsOk, LedgerOk, CallsOk;
    PcStable(cfg, sh, pc, sh', cl.pc);
    FrameStable(sh, sh', cl);
  }

  lemma OthersUndisturbed(cfg: Config, sh: Shared, pc: Pc, sh': Shared, others: map<nat, Client>)
    requires SharedOk(cfg, sh) && Good(cfg, sh, pc, sh') && ClientsOk(cfg, sh, others)
    requires forall d :: d in others ==> Owner(pc).None? || Owner(pc) != Owner(others[d].pc)
    ensures ClientsOk(cfg, sh', others)
  {
    hide SharedOk, Good, ClientOk, Owner;
    forall d | d in others ensures ClientOk(cfg, sh', others[d]) { Undisturbed(cfg, sh, pc, sh', others[d]); }
  }

  /** An action under claim is no longer AUTHORIZED, so nobody can claim it again. */
  lemma HolderBegun(cfg: Config, sh: Shared, cl: Client)
    requires ClientOk(cfg, sh, cl) && Owner(cl.pc).Some?
    ensures Owner(cl.pc).value in sh.tables.actions && sh.tables.actions[Owner(cl.pc).value].status != Authorized
  {
    hide FrameOk;
  }

  lemma OwnersStayDistinct(cfg: Config, sh: Shared, clients: map<nat, Client>, c: nat, cl': Client)
    requires ClientsOk(cfg, sh, clients) && OwnersDistinct(clients) && c in clients
    requires ClaimStep(sh, clients[c].pc, cl'.pc)
    ensures OwnersDistinct(clients[c := cl'])
  {
    hide ClientOk, Owner;
    if Owner(cl'.pc).Some? {
      forall d | d in clients && d != c ensures Owner(clients[d].pc) != Owner(cl'.pc) {
        if Owner(clients[d].pc) == Owner(cl'.pc) { HolderBegun(cfg, sh, clients[d]); }
      }
    }
  }

  lemma StepKept(w: World, c: nat, ch: Choice)
    requires Inv(w) && c in w.clients
    ensures Kept(w, Apply(w, Step(c, ch)))
  {
    hide SharedOk, ClientOk, ClientStep, Evolves, Attributed, ClaimStep, Owner;
    var cfg, sh, cl := w.cfg, w.shared, w.clients[c];
    var out := ClientStep(cfg, sh, cl, ch);
    ClientStepOk(cfg, sh, cl, ch);
    OwnersStayDistinct(cfg, sh, w.clients, c, out.client);
    OthersUndisturbed(cfg, sh, cl.pc, out.shared, w.clients - {c});
    assert forall d :: d in w.clients && d != c ==> (w.clients - {c})[d] == w.clients[d];
  }

  lemma StartOk(cfg: Config, sh: Shared, p: Program)
    ensures ClientOk(cfg, sh, Start(sh.tables, p)) && Owner(Start(sh.tables, p).pc).None?
  {
  }

  lemma ClientsKept(w: World, m: Move)
    requires Inv(w) && (m.Spawn? || m.Crash?)
    ensures Kept(w, Apply(w, m))
  {
    hide SharedOk, ClientOk, Evolves, Owner, Start;
    EvolvesReflexive(w.shared);
    if m.Spawn? { StartOk(w.cfg, w.shared, m.program); }
  }

  lemma EvolvesReflexive(sh: Shared)
    ensures Evolves(sh, sh)
  {
    hide CasesEvolve, ActionsEvolve, ProposalsEvolve, OutboxEvolves, EffectsEvolve;
    Unchanged(sh.tables, sh.ledger.effects);
  }

  lemma EnvironmentGood(cfg: Config, sh: Shared, m: Move)
    requires SharedOk(cfg, sh) && !m.Spawn? && !m.Step? && !m.Crash?
    ensures Good(cfg, sh, Done, Environment(sh, m))
  {
    hide SharedOk, Good, CreateProposal, CreateCase, AppendFact;
    StutterGood(cfg, sh, Done);
    match m
    case Propose(id, offer) =>
      if CreateProposal(sh.tables, id, offer).Some? { CreateProposalGood(cfg, sh, Done, id, offer); }
    case OpenCase(id, customer, procedure, version) =>
      if CreateCase(sh.tables, id, customer, procedure, version).Some? {
        CreateCaseGood(cfg, sh, Done, id, customer, procedure, version);
      }
    case CommitFact(id, name, fact, expected) =>
      if AppendFact(sh.tables, id, name, fact, expected).Some? {
        AppendFactGood(cfg, sh, Done, id, name, fact, expected);
      }
    case Tick(_) => OutsideGood(cfg, sh, Done, Environment(sh, m));
    case SetScenario(_, _) => OutsideGood(cfg, sh, Done, Environment(sh, m));
    case SeedResource(_, _) => OutsideGood(cfg, sh, Done, Environment(sh, m));
    case Deploy(_) => OutsideGood(cfg, sh, Done, Environment(sh, m));
    case Govern(_, _) => OutsideGood(cfg, sh, Done, Environment(sh, m));
  }

  lemma EnvironmentKept(w: World, m: Move)
    requires Inv(w) && !m.Spawn? && !m.Step? && !m.Crash?
    ensures Kept(w, Apply(w, m))
  {
    hide SharedOk, ClientOk, Environment, Evolves, Attributed;
    EnvironmentGood(w.cfg, w.shared, m);
    OthersUndisturbed(w.cfg, w.shared, Done, Environment(w.shared, m), w.clients);
  }

  lemma MoveKept(w: World, m: Move)
    requires Inv(w)
    ensures Kept(w, Apply(w, m))
  {
    hide Inv, ClientStep, Environment, Start, Evolves;
    match m
    case Spawn(_, _) => ClientsKept(w, m);
    case Crash(_) => ClientsKept(w, m);
    case Step(c, ch) => if c in w.clients { StepKept(w, c, ch); } else { EvolvesReflexive(w.shared); }
    case _ => EnvironmentKept(w, m);
  }

  // ---- Whole runs ----

  lemma {:induction false} RunKept(w: World, moves: seq<Move>)
    requires Inv(w)
    ensures Kept(w, Run(w, moves))
    decreases |moves|
  {
    hide Inv, Apply, Evolves;
    if moves == [] {
      EvolvesReflexive(w.shared);
    } else {
      var w1 := Apply(w, moves[0]);
      MoveKept(w, moves[0]);
      RunKept(w1, moves[1..]);
      EvolvesTransitive(w.shared, w1.shared, Run(w1, moves[1..]).shared);
    }
  }

  /** The invariant holds in every state every run reaches. */
  lemma ReachableInv(w: World, moves: seq<Move>)
    requires Initial(w)
    ensures Inv(Run(w, moves))
  {
    hide Inv, Initial, Run;
    InitialInv(w);
    RunKept(w, moves);
  }
}

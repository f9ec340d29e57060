/**
  How often a row is claimed.  Settling is not owner-checked and a lease that runs out is
  taken over by the next claim, so attempts alone do not bound the claims.  In every run a
  row is claimed at most as often as the maximum plus the number of takeovers; a row that
  has not been taken over has one holder at most and keeps to its retry schedule.
 */
module Takeovers {
  import opened Domain
  import opened Protocol
  import opened ProtocolInvariant
  import opened ProtocolSafety
  import opened Delivery

  /** The move claims the row although it is leased: its lease has run out unsettled. */
  ghost predicate TakesOver(w: World, m: Move, o: nat) {
    ClaimsRow(w, m, o) && o in w.shared.tables.outbox && w.shared.tables.outbox[o].status == Leased
  }

  ghost function TakeoverCount(w: World, moves: seq<Move>, o: nat): nat
    decreases |moves|
  {
    if moves == [] then 0
    else (if TakesOver(w, moves[0], o) then 1 else 0) + TakeoverCount(Apply(w, moves[0]), moves[1..], o)
  }

  ghost predicate HoldersOk(cfg: Config, sh: Shared, clients: map<nat, Client>) {
    forall c :: c in clients ==> HolderOk(cfg, sh, clients[c])
  }

  lemma OtherHolder(cfg: Config, sh: Shared, sh': Shared, cl: Client)
    requires HolderOk(cfg, sh, cl) && sh.now <= sh'.now && OutboxEvolves(sh.tables.outbox, sh'.tables.outbox)
    ensures HolderOk(cfg, sh', cl)
  {
    hide Held, Distinct, Backoff;
  }

  /** What holders hold is stored, so nobody holds a row that does not exist. */
  lemma UnknownRow(cfg: Config, sh: Shared, cl: Client, o: nat)
    requires HolderOk(cfg, sh, cl) && o !in sh.tables.outbox
    ensures forall os :: Hold(os, cl, o) == None
  {
    hide Shown, FailureOk;
    if !Rereading(cl) { ShownNone(Records(cl), o); }
  }

  lemma StartHoldsNothing(cfg: Config, sh: Shared, p: Program, o: nat)
    ensures HolderOk(cfg, sh, Start(sh.tables, p)) && Hold(sh.tables.outbox, Start(sh.tables, p), o) == None
  {
  }

  /** Every move keeps holders in order, without any assumption. */
  lemma MoveHolders(w: World, m: Move)
    requires Inv(w) && HoldersOk(w.cfg, w.shared, w.clients)
    ensures HoldersOk(w.cfg, Apply(w, m).shared, Apply(w, m).clients)
  {
    hide Inv, HolderOk, ClientStep, Environment, Start;
    MoveKept(w, m);
    var w' := Apply(w, m);
    ClockForward(w, m);
    forall c | c in w.clients ensures HolderOk(w.cfg, w'.shared, w.clients[c]) {
      OtherHolder(w.cfg, w.shared, w'.shared, w.clients[c]);
    }
    if m.Step? && m.client in w.clients { StepRow(w, m.client, m.choice, 0); }
    if m.Spawn? && m.client !in w.clients { StartHoldsNothing(w.cfg, w.shared, m.program, 0); }
  }

  lemma ClockForward(w: World, m: Move)
    ensures w.shared.now <= Apply(w, m).shared.now
  {
    hide ClientStep;
    if m.Step? && m.client in w.clients { ClockSteady(w.cfg, w.shared, w.clients[m.client], m.choice); }
  }

  lemma StepRow(w: World, c: nat, ch: Choice, o: nat)
    requires Inv(w) && HoldersOk(w.cfg, w.shared, w.clients) && c in w.clients
    ensures var out := ClientStep(w.cfg, w.shared, w.clients[c], ch);
            && RowStep(w.cfg, w.shared, w.clients[c], ch, out, o)
            && HolderOk(w.cfg, out.shared, out.client) && out.shared.now == w.shared.now
  {
    hide SharedOk, PcOk, OwnersDistinct, FrameOk, HolderOk, ClientStep, LeftOrSettled, Leases, Claiming;
    assert ClientOk(w.cfg, w.shared, w.clients[c]);
    ClientRow(w.cfg, w.shared, w.clients[c], ch, o);
    ClockSteady(w.cfg, w.shared, w.clients[c], ch);
  }

  // ---- The bound for every run ----

  /** The client holds the row on an attempt after which it may be retried. */
  predicate MayRetry(cfg: Config, os: map<nat, OutboxRow>, cl: Client, o: nat) {
    Hold(os, cl, o).Some? && Hold(os, cl, o).value < cfg.maxAttempts
  }

  function Retriers(cfg: Config, os: map<nat, OutboxRow>, clients: map<nat, Client>, o: nat): set<nat> {
    set c | c in clients && MayRetry(cfg, os, clients[c], o)
  }

  function Ready(os: map<nat, OutboxRow>, o: nat): nat {
    if o in os && (os[o].status == Waiting || os[o].status == Retry) then 1 else 0
  }

  function Cap(cfg: Config, attempts: nat): int {
    1 + if attempts < Limit(cfg) - 1 then attempts else Limit(cfg) - 1
  }

  /**
    After `n` claims that were no takeovers: these, the holders that may still put the row
    back, and the row itself if it is waiting, are at most one more than the attempts allow.
   */
  ghost predicate CountOk(cfg: Config, os: map<nat, OutboxRow>, clients: map<nat, Client>, o: nat, n: nat) {
    if o in os then n + |Retriers(cfg, os, clients, o)| + Ready(os, o) <= Cap(cfg, os[o].attempts) else n == 0
  }

  ghost predicate CountInv(w: World, o: nat, n: nat) {
    HoldersOk(w.cfg, w.shared, w.clients) && CountOk(w.cfg, w.shared.tables.outbox, w.clients, o, n)
  }

  /** A client that does not move becomes a retrier by no one's step: the attempt it holds never shrinks. */
  lemma OtherRetrier(cfg: Config, sh: Shared, os': map<nat, OutboxRow>, cl: Client, o: nat)
    requires HolderOk(cfg, sh, cl) && OutboxEvolves(sh.tables.outbox, os') && MayRetry(cfg, os', cl, o)
    ensures MayRetry(cfg, sh.tables.outbox, cl, o)
  {
    hide Shown, FailureOk;
  }

  lemma RetriersShrink(cfg: Config, sh: Shared, os': map<nat, OutboxRow>, clients: map<nat, Client>, o: nat)
    requires HoldersOk(cfg, sh, clients) && OutboxEvolves(sh.tables.outbox, os')
    ensures |Retriers(cfg, os', clients, o)| <= |Retriers(cfg, sh.tables.outbox, clients, o)|
  {
    hide MayRetry, HolderOk, OutboxEvolves;
    var before, after := Retriers(cfg, sh.tables.outbox, clients, o), Retriers(cfg, os', clients, o);
    forall c | c in after ensures c in before { OtherRetrier(cfg, sh, os', clients[c], o); }
    Subset(after, before);
  }

  lemma Subset(a: set<nat>, b: set<nat>)
    requires a <= b
    ensures |a| <= |b|
  {
    assert b == a + (b - a);
  }

  function One(b: bool): nat {
    if b then 1 else 0
  }

  /** One client moves: the retriers change by that client only. */
  lemma RetriersMove(cfg: Config, sh: Shared, os': map<nat, OutboxRow>, clients: map<nat, Client>, c: nat,
                     cl': Client, o: nat)
    requires HoldersOk(cfg, sh, clients) && OutboxEvolves(sh.tables.outbox, os') && c in clients
    ensures |Retriers(cfg, os', clients[c := cl'], o)| + One(MayRetry(cfg, sh.tables.outbox, clients[c], o))
            <= |Retriers(cfg, sh.tables.outbox, clients, o)| + One(MayRetry(cfg, os', cl', o))
  {
    hide MayRetry, HolderOk, OutboxEvolves;
    var before, after := Retriers(cfg, sh.tables.outbox, clients, o), Retriers(cfg, os', clients[c := cl'], o);
    forall d | d in after && d != c ensures d in before { OtherRetrier(cfg, sh, os', clients[d], o); }
    assert c in before <==> MayRetry(cfg, sh.tables.outbox, clients[c], o);
    assert c in after <==> MayRetry(cfg, os', cl', o);
    SetMove(before, after, c);
  }

  lemma SetMove(before: set<nat>, after: set<nat>, c: nat)
    requires forall d :: d in after && d != c ==> d in before
    ensures |after| + One(c in before) <= |before| + One(c in after)
  {
    Subset(after - {c}, before - {c});
  }

  lemma StepCount(w: World, c: nat, ch: Choice, o: nat, n: nat)
    requires Inv(w) && CountInv(w, o, n) && c in w.clients
    ensures var m, w' := Step(c, ch), Apply(w, Step(c, ch));
            CountOk(w.cfg, w'.shared.tables.outbox, w'.clients, o,
                    n + One(ClaimsRow(w, m, o)) - One(TakesOver(w, m, o)))
  {
    hide Inv, HoldersOk, ClientStep, Retriers, Evolves, MayRetry, Backoff, HolderOk;
    var cfg, sh, cl := w.cfg, w.shared, w.clients[c];
    var out := ClientStep(cfg, sh, cl, ch);
    StepRow(w, c, ch, o);
    EvolvesStep(w, c, ch);
    if o in sh.tables.outbox {
      RetriersMove(cfg, sh, out.shared.tables.outbox, w.clients, c, out.client, o);
      RowCount(cfg, sh, cl, ch, out, o);
    } else {
      NobodyHolds(w, c, ch, o);
    }
  }

  lemma EvolvesStep(w: World, c: nat, ch: Choice)
    requires Inv(w) && c in w.clients
    ensures OutboxEvolves(w.shared.tables.outbox, ClientStep(w.cfg, w.shared, w.clients[c], ch).shared.tables.outbox)
  {
    hide Inv, ClientStep, CasesEvolve, ActionsEvolve, ProposalsEvolve, OutboxEvolves, EffectsEvolve;
    MoveKept(w, Step(c, ch));
  }

  /** The change of the count, case by case. */
  lemma RowCount(cfg: Config, sh: Shared, cl: Client, ch: Choice, out: Outcome, o: nat)
    requires RowStep(cfg, sh, cl, ch, out, o) && o in sh.tables.outbox
    ensures var os, os' := sh.tables.outbox, out.shared.tables.outbox;
            var claimed := Claiming(sh, cl, ch, o);
            var takeover := claimed && os[o].status == Leased;
            && o in os'
            && One(claimed) - One(takeover) + One(MayRetry(cfg, os', out.client, o)) + Ready(os', o)
               <= One(MayRetry(cfg, os, cl, o)) + Ready(os, o) + Cap(cfg, os'[o].attempts) - Cap(cfg, os[o].attempts)
  {
    hide Hold, HolderOk, Claiming, Backoff;
  }

  lemma NobodyHolds(w: World, c: nat, ch: Choice, o: nat)
    requires HoldersOk(w.cfg, w.shared, w.clients) && c in w.clients && o !in w.shared.tables.outbox
    requires var out := ClientStep(w.cfg, w.shared, w.clients[c], ch);
             RowStep(w.cfg, w.shared, w.clients[c], ch, out, o)
    ensures !ClaimsRow(w, Step(c, ch), o)
    ensures CountOk(w.cfg, Apply(w, Step(c, ch)).shared.tables.outbox, Apply(w, Step(c, ch)).clients, o, 0)
  {
    hide ClientStep, Hold, HolderOk, Claiming;
    var w' := Apply(w, Step(c, ch));
    var os' := w'.shared.tables.outbox;
    forall d | d in w'.clients ensures !MayRetry(w.cfg, os', w'.clients[d], o) {
      UnknownRow(w.cfg, w.shared, w.clients[d], o);
    }
    assert Retriers(w.cfg, os', w'.clients, o) == {};
  }

  lemma MoveCount(w: World, m: Move, o: nat, n: nat)
    requires Inv(w) && CountInv(w, o, n)
    ensures CountInv(Apply(w, m), o, n + One(ClaimsRow(w, m, o)) - One(TakesOver(w, m, o)))
  {
    hide Inv, HoldersOk, CountOk, ClientStep, Environment, Start, Claiming;
    MoveHolders(w, m);
    match m
    case Step(c, ch) => if c in w.clients { StepCount(w, c, ch, o, n); }
    case Spawn(c, program) => if c !in w.clients { SpawnCount(w, c, program, o, n); }
    case Crash(c) => FewerRetriers(w.cfg, w.shared.tables.outbox, w.clients, w.clients - {c}, o, n);
    case _ => EnvironmentRows(w.shared, m);
  }

  lemma EnvironmentRows(sh: Shared, m: Move)
    requires !m.Spawn? && !m.Step? && !m.Crash?
    ensures Environment(sh, m).tables.outbox == sh.tables.outbox && sh.now <= Environment(sh, m).now
  {
  }

  lemma FewerRetriers(cfg: Config, os: map<nat, OutboxRow>, clients: map<nat, Client>, fewer: map<nat, Client>,
                      o: nat, n: nat)
    requires CountOk(cfg, os, clients, o, n)
    requires forall c :: c in fewer && MayRetry(cfg, os, fewer[c], o) ==> c in clients && clients[c] == fewer[c]
    ensures CountOk(cfg, os, fewer, o, n)
  {
    hide MayRetry;
    Subset(Retriers(cfg, os, fewer, o), Retriers(cfg, os, clients, o));
  }

  lemma SpawnCount(w: World, c: nat, program: Program, o: nat, n: nat)
    requires CountOk(w.cfg, w.shared.tables.outbox, w.clients, o, n) && c !in w.clients
    ensures CountOk(w.cfg, w.shared.tables.outbox, w.clients[c := Start(w.shared.tables, program)], o, n)
  {
    hide CountOk, Hold, Start, HolderOk;
    var clients := w.clients[c := Start(w.shared.tables, program)];
    StartHoldsNothing(w.cfg, w.shared, program, o);
    FewerRetriers(w.cfg, w.shared.tables.outbox, w.clients, clients, o, n);
  }

  lemma {:induction false} CountRun(w: World, moves: seq<Move>, o: nat, n: nat)
    requires Inv(w) && CountInv(w, o, n)
    ensures TakeoverCount(w, moves, o) <= ClaimCount(w, moves, o)
    ensures CountInv(Run(w, moves), o, n + ClaimCount(w, moves, o) - TakeoverCount(w, moves, o))
    decreases |moves|
  {
    hide Inv, CountInv, Apply, Claiming, Evolves;
    if moves != [] {
      var next := n + One(ClaimsRow(w, moves[0], o)) - One(TakesOver(w, moves[0], o));
      MoveKept(w, moves[0]);
      MoveCount(w, moves[0], o, n);
      CountRun(Apply(w, moves[0]), moves[1..], o, next);
    }
  }

  /**
    In every run, crashes and expired leases included, a row is claimed at most
    `maxAttempts` times (once if that is not positive) plus once for each takeover.
   */
  lemma ClaimsAreBounded(w: World, moves: seq<Move>, o: nat)
    requires Initial(w)
    ensures ClaimCount(w, moves, o) <= Limit(w.cfg) + TakeoverCount(w, moves, o)
  {
    hide Run, Inv, ClaimCount, TakeoverCount, HoldersOk, Evolves;
    InitialInv(w);
    InitialCount(w, o);
    RunKept(w, moves);
    CountRun(w, moves, o, 0);
  }

  lemma InitialCount(w: World, o: nat)
    requires Initial(w)
    ensures CountInv(w, o, 0)
  {
  }

  // ---- A row that has not been taken over ----

  ghost predicate RowBounded(cfg: Config, now: int, row: OutboxRow) {
    && (row.status == Waiting ==> row.attempts == 0)
    && (row.status == Retry ==> row.attempts < cfg.maxAttempts && row.availableAt <= now + Backoff(row.attempts))
  }

  /** Whoever holds the row holds its lease, on the current attempt. */
  ghost predicate HoldsLease(os: map<nat, OutboxRow>, cl: Client, o: nat) {
    Hold(os, cl, o).Some? ==> o in os && os[o].status == Leased && Hold(os, cl, o) == Some(os[o].attempts)
  }

  ghost predicate OneHolder(os: map<nat, OutboxRow>, clients: map<nat, Client>, o: nat) {
    forall c, d :: c in clients && d in clients && Hold(os, clients[c], o).Some? && Hold(os, clients[d], o).Some? ==>
        c == d
  }

  ghost predicate LoneInv(w: World, o: nat) {
    var os := w.shared.tables.outbox;
    && HoldersOk(w.cfg, w.shared, w.clients)
    && (o in os ==> RowBounded(w.cfg, w.shared.now, os[o]))
    && (forall c :: c in w.clients ==> HoldsLease(os, w.clients[c], o))
    && OneHolder(os, w.clients, o)
  }

  /** What a step means for the row and its own client, and for a client that holds the row meanwhile. */
  lemma LoneRow(cfg: Config, sh: Shared, cl: Client, ch: Choice, out: Outcome, o: nat)
    requires RowStep(cfg, sh, cl, ch, out, o) && HoldsLease(sh.tables.outbox, cl, o) && out.shared.now == sh.now
    requires o in sh.tables.outbox ==> RowBounded(cfg, sh.now, sh.tables.outbox[o])
    requires Claiming(sh, cl, ch, o) && o in sh.tables.outbox ==> sh.tables.outbox[o].status != Leased
    ensures var os, os' := sh.tables.outbox, out.shared.tables.outbox;
            && (o in os' ==> RowBounded(cfg, sh.now, os'[o]))
            && HoldsLease(os', out.client, o)
            && (o in os && os[o].status == Leased && Hold(os, cl, o).None? ==>
                 o in os' && os'[o] == os[o] && Hold(os', out.client, o).None?)
  {
    hide Hold, HolderOk, Claiming, Backoff;
  }

  /** Another holder is not disturbed, and the mover does not join it. */
  lemma OtherLease(cfg: Config, sh: Shared, os': map<nat, OutboxRow>, other: Client, o: nat)
    requires HolderOk(cfg, sh, other) && HoldsLease(sh.tables.outbox, other, o)
    requires Hold(sh.tables.outbox, other, o).Some? ==> o in os' && os'[o] == sh.tables.outbox[o]
    ensures HoldsLease(os', other, o)
    ensures Hold(os', other, o).Some? <==> Hold(sh.tables.outbox, other, o).Some?
  {
    hide Shown, FailureOk;
    if o !in sh.tables.outbox { UnknownRow(cfg, sh, other, o); }
  }

  lemma LoneStep(w: World, c: nat, ch: Choice, o: nat)
    requires Inv(w) && LoneInv(w, o) && c in w.clients && !TakesOver(w, Step(c, ch), o)
    ensures LoneInv(Apply(w, Step(c, ch)), o)
  {
    hide Inv, HoldersOk, ClientStep, RowBounded, HolderOk, Hold, RowStep, Claiming;
    var cfg, sh, cl := w.cfg, w.shared, w.clients[c];
    var out := ClientStep(cfg, sh, cl, ch);
    var os, os' := sh.tables.outbox, out.shared.tables.outbox;
    MoveHolders(w, Step(c, ch));
    StepRow(w, c, ch, o);
    LoneRow(cfg, sh, cl, ch, out, o);
    forall d | d in w.clients && d != c
      ensures HoldsLease(os', w.clients[d], o)
      ensures Hold(os', w.clients[d], o).Some? ==> Hold(os, w.clients[d], o).Some? && Hold(os', out.client, o).None?
    {
      HolderAt(w, d);
      OtherLease(cfg, sh, os', w.clients[d], o);
    }
  }

  lemma HolderAt(w: World, c: nat)
    requires HoldersOk(w.cfg, w.shared, w.clients) && c in w.clients
    ensures HolderOk(w.cfg, w.shared, w.clients[c])
  {
    hide HolderOk;
  }

  lemma LoneMove(w: World, m: Move, o: nat)
    requires Inv(w) && LoneInv(w, o) && !TakesOver(w, m, o)
    ensures LoneInv(Apply(w, m), o)
  {
    hide Inv, HoldersOk, ClientStep, Environment, Start, HolderOk, Hold, Claiming, Backoff;
    MoveHolders(w, m);
    match m
    case Step(c, ch) => if c in w.clients { LoneStep(w, c, ch, o); }
    case Spawn(c, program) => StartHoldsNothing(w.cfg, w.shared, program, o);
    case Crash(_) =>
    case _ => EnvironmentRows(w.shared, m);
  }

  lemma {:induction false} LoneRun(w: World, moves: seq<Move>, o: nat)
    requires Inv(w) && LoneInv(w, o) && TakeoverCount(w, moves, o) == 0
    ensures LoneInv(Run(w, moves), o)
    decreases |moves|
  {
    hide Inv, LoneInv, Apply, TakesOver, Evolves;
    if moves != [] {
      MoveKept(w, moves[0]);
      LoneMove(w, moves[0], o);
      LoneRun(Apply(w, moves[0]), moves[1..], o);
    }
  }

  lemma InitialLone(w: World, o: nat)
    requires Initial(w)
    ensures LoneInv(w, o)
  {
  }

  /**
    A row that has not been taken over is claimed at most `maxAttempts` times, waits for a
    retry only below the maximum and within its backoff, and has one holder at most.
   */
  lemma UndisturbedRow(w: World, moves: seq<Move>, o: nat)
    requires Initial(w) && TakeoverCount(w, moves, o) == 0 && o in Run(w, moves).shared.tables.outbox
    ensures ClaimCount(w, moves, o) <= Limit(w.cfg)
    ensures var sh := Run(w, moves).shared;
            sh.tables.outbox[o].status == Retry ==>
              && ClaimCount(w, moves, o) < w.cfg.maxAttempts
              && sh.tables.outbox[o].availableAt <= sh.now + Backoff(ClaimCount(w, moves, o))
    ensures OneHolder(Run(w, moves).shared.tables.outbox, Run(w, moves).clients, o)
  {
    hide Run, Inv, HoldersOk, OneHolder, HoldsLease, Backoff, ClaimCount, TakeoverCount, Evolves;
    ClaimsAreBounded(w, moves, o);
    InitialInv(w);
    InitialLone(w, o);
    RunKept(w, moves);
    LoneRun(w, moves, o);
    AttemptsCountClaims(w, moves, o);
  }
}

/**
  The time between claims: two successive claims of a row that has not been taken over lie
  at least the backoff of the first one apart, and a takeover comes only after the lease.
 */
module ClaimSpacing {
  import opened Domain
  import opened CoreTables
  import opened Protocol
  import opened ProtocolInvariant
  import opened ProtocolSafety
  import opened ProtocolWriters
  import opened Delivery
  import opened Takeovers

  /** The row as it stands since its `k`-th claim, made at time `t`. */
  ghost predicate RowSince(os: map<nat, OutboxRow>, now: int, o: nat, t: int, k: nat) {
    && o in os && os[o].attempts == k && k >= 1 && t <= now
    && (os[o].status == Retry ==> t + Backoff(k) <= os[o].availableAt)
  }

  /** A worker that is about to report the failure of that claim has scheduled the retry late enough. */
  predicate RetryLate(cl: Client, o: nat, t: int, k: nat) {
    cl.pc.InWorker? && cl.pc.worker.Fail? && cl.pc.worker.record.id == o && cl.pc.worker.retryAt.Some? ==>
      t + Backoff(k) <= cl.pc.worker.retryAt.value
  }

  ghost predicate Since(w: World, o: nat, t: int, k: nat) {
    && RowSince(w.shared.tables.outbox, w.shared.now, o, t, k)
    && forall c :: c in w.clients ==> RetryLate(w.clients[c], o, t, k)
  }

  // ---- Steps ----

  ghost predicate StepSince(out: Outcome, o: nat, t: int, k: nat) {
    RowSince(out.shared.tables.outbox, out.shared.now, o, t, k) && RetryLate(out.client, o, t, k)
  }

  lemma IdleSince(sh: Shared, out: Outcome, o: nat, t: int, k: nat)
    requires RowSince(sh.tables.outbox, sh.now, o, t, k) && Idle(out.client)
    requires out.shared.tables.outbox == sh.tables.outbox && out.shared.now == sh.now
    ensures StepSince(out, o, t, k)
  {
    hide Backoff;
  }

  /** An exception raised while the claim is being worked on schedules the retry from now. */
  lemma ActionSince(cfg: Config, sh: Shared, cl: Client, ch: Choice, o: nat, t: int, k: nat)
    requires RowSince(sh.tables.outbox, sh.now, o, t, k) && HoldsLease(sh.tables.outbox, cl, o) && cl.pc.InAction?
    ensures StepSince(StepAction(cfg, sh, cl, ch), o, t, k)
  {
    hide StepAction, Backoff, Shown;
    ActionWrites(cfg, sh, cl, ch);
    ActionExits(cfg, sh, cl, ch);
    if cl.frame.OnWorker? { ShownCons(cl.frame.record, cl.frame.rest, o); }
  }

  lemma InsertSince(cfg: Config, sh: Shared, cl: Client, ch: Choice, o: nat, t: int, k: nat)
    requires RowSince(sh.tables.outbox, sh.now, o, t, k) && Inserting(cl.pc) && !cl.frame.OnWorker?
    ensures StepSince(StepAuthorize(cfg, sh, cl, ch), o, t, k)
  {
    hide Backoff, StampTx, FindKeyTx, CheckFactsTx;
    AuthorizeIdle(cfg, sh, cl, ch);
  }

  lemma ClaimRowsSince(cfg: Config, sh: Shared, cl: Client, ch: Choice, limit: nat, o: nat, t: int, k: nat)
    requires RowSince(sh.tables.outbox, sh.now, o, t, k) && cl.pc == InWorker(ClaimRows(limit))
    requires DueBatch(sh.tables, sh.now, limit, ch.batch) ==> o !in ch.batch
    ensures StepSince(ClaimRowsTx(cfg, sh, cl, ch, limit), o, t, k)
  {
    hide Backoff, LeaseRows, Due;
    if DueBatch(sh.tables, sh.now, limit, ch.batch) {
      LeaseRowsAt(sh.tables.outbox, ch.batch, sh.now + cfg.leaseSeconds);
    }
  }

  lemma SettleSince(cfg: Config, sh: Shared, cl: Client, ch: Choice, o: nat, t: int, k: nat)
    requires RowSince(sh.tables.outbox, sh.now, o, t, k) && RetryLate(cl, o, t, k) && HolderOk(cfg, sh, cl)
    requires cl.pc.InWorker? && cl.frame.Direct? && (cl.pc.worker.Complete? || cl.pc.worker.Fail?)
    ensures StepSince(StepWorker(cfg, sh, cl, ch), o, t, k)
  {
    hide Backoff, Distinct, Held, LoopTx, ClaimRowsTx, RereadRowsTx;
    FirstRecord(cfg, sh, cl);
  }

  lemma FirstRecord(cfg: Config, sh: Shared, cl: Client)
    requires HolderOk(cfg, sh, cl) && cl.pc.InWorker? && cl.frame.Direct?
    requires cl.pc.worker.Complete? || cl.pc.worker.Fail?
    ensures cl.pc.worker.record.id in sh.tables.outbox
  {
    hide FailureOk;
    assert Held(cl)[0] == Records(cl)[0].id;
  }

  lemma WorkerSince(cfg: Config, sh: Shared, cl: Client, ch: Choice, o: nat, t: int, k: nat)
    requires RowSince(sh.tables.outbox, sh.now, o, t, k) && RetryLate(cl, o, t, k) && HolderOk(cfg, sh, cl)
    requires cl.pc.InWorker? && cl.frame.Direct?
    requires Claims(cl.pc) && DueBatch(sh.tables, sh.now, cl.pc.worker.limit, ch.batch) ==> o !in ch.batch
    ensures StepSince(StepWorker(cfg, sh, cl, ch), o, t, k)
  {
    match cl.pc.worker
    case ClaimRows(limit) =>
      hide RowSince, RetryLate, DueBatch, ClaimRowsTx, HolderOk, StepSince;
      ClaimRowsSince(cfg, sh, cl, ch, limit, o, t, k);
    case RereadRows(_) => hide Backoff, DueBatch, Reordered, ReadRows, HolderOk, RowSince;
    case Loop(_) => hide Backoff, DueBatch, HolderOk, RowSince;
    case _ =>
      hide RowSince, RetryLate, DueBatch, StepWorker, HolderOk, StepSince;
      SettleSince(cfg, sh, cl, ch, o, t, k);
  }

  lemma ClientSince(cfg: Config, sh: Shared, cl: Client, ch: Choice, o: nat, t: int, k: nat)
    requires RowSince(sh.tables.outbox, sh.now, o, t, k) && RetryLate(cl, o, t, k)
    requires HolderOk(cfg, sh, cl) && HoldsLease(sh.tables.outbox, cl, o) && FrameOk(sh.tables, cl)
    requires Claims(cl.pc) && DueBatch(sh.tables, sh.now, cl.pc.worker.limit, ch.batch) ==> o !in ch.batch
    ensures StepSince(ClientStep(cfg, sh, cl, ch), o, t, k)
  {
    hide RowSince, RetryLate, HolderOk, HoldsLease, StepSince, DueBatch, Carries, Describes, ClaimOk, ClaimsOk;
    hide StepSubmit, StepAuthorize, StepAction, StepBridge, StepWorker;
    match cl.pc
    case InSubmit(_, _) =>
      SubmitWrites(cfg, sh, cl, ch);
      SubmitIdle(cfg, sh, cl, ch);
      IdleSince(sh, StepSubmit(cfg, sh, cl, ch), o, t, k);
    case InAuthorize(_, _, s) =>
      if s.Insert? {
        InsertSince(cfg, sh, cl, ch, o, t, k);
      } else {
        AuthorizeWrites(cfg, sh, cl, ch);
        AuthorizeIdle(cfg, sh, cl, ch);
        IdleSince(sh, StepAuthorize(cfg, sh, cl, ch), o, t, k);
      }
    case InBridge(_, _) =>
      BridgeWrites(cfg, sh, cl, ch);
      BridgeIdle(cfg, sh, cl, ch);
      IdleSince(sh, StepBridge(cfg, sh, cl, ch), o, t, k);
    case InAction(_, _) => ActionSince(cfg, sh, cl, ch, o, t, k);
    case InWorker(_) => WorkerSince(cfg, sh, cl, ch, o, t, k);
    case Done => IdleSince(sh, Outcome(sh, cl), o, t, k);
  }

  // ---- Runs ----

  lemma MoveSince(w: World, m: Move, o: nat, t: int, k: nat)
    requires Inv(w) && LoneInv(w, o) && Since(w, o, t, k) && !ClaimsRow(w, m, o)
    ensures Since(Apply(w, m), o, t, k)
  {
    hide SharedOk, PcOk, FrameOk, OwnersDistinct, RowBounded, HolderOk, HoldsLease, OneHolder;
    hide ClientStep, DueBatch, Backoff, Start;
    match m
    case Step(c, ch) =>
      hide RowSince, RetryLate;
      if c in w.clients { ClientSince(w.cfg, w.shared, w.clients[c], ch, o, t, k); }
    case Spawn(_, program) => StartIsPlain(w.shared.tables, program, o, t, k);
    case Crash(_) =>
    case _ => EnvironmentRows(w.shared, m);
  }

  lemma StartIsPlain(tables: Tables, program: Program, o: nat, t: int, k: nat)
    ensures RetryLate(Start(tables, program), o, t, k)
  {
  }

  lemma {:induction false} RunSince(w: World, moves: seq<Move>, o: nat, t: int, k: nat)
    requires Inv(w) && LoneInv(w, o) && Since(w, o, t, k) && ClaimCount(w, moves, o) == 0
    ensures Since(Run(w, moves), o, t, k) && LoneInv(Run(w, moves), o)
    decreases |moves|
  {
    hide Inv, LoneInv, Since, Apply, ClaimsRow, Evolves;
    if moves != [] {
      assert !TakesOver(w, moves[0], o);
      MoveKept(w, moves[0]);
      LoneMove(w, moves[0], o);
      MoveSince(w, moves[0], o, t, k);
      RunSince(Apply(w, moves[0]), moves[1..], o, t, k);
    }
  }

  /** Right after a claim nobody has a failure of the row to report: before it, nobody held the row. */
  lemma ClaimBegins(w: World, m: Move, o: nat)
    requires Inv(w) && LoneInv(w, o) && ClaimsRow(w, m, o) && !TakesOver(w, m, o)
    ensures Since(Apply(w, m), o, w.shared.now, AttemptsOf(w.shared.tables.outbox, o) + 1)
  {
    hide Inv, RowBounded, OneHolder, ClientStep, Claiming, Backoff, Hold, HoldersOk, HolderOk;
    var sh, c, ch := w.shared, m.client, m.choice;
    var out := ClientStep(w.cfg, sh, w.clients[c], ch);
    StepRow(w, c, ch, o);
    forall d | d in w.clients
      ensures RetryLate(w.clients[d], o, sh.now, AttemptsOf(sh.tables.outbox, o) + 1)
    {
      if w.clients[d].pc.InWorker? && w.clients[d].pc.worker.Fail? {
        WorkersAreDirect(w, d);
        FailureIsHeld(sh.tables.outbox, w.clients[d]);
      }
    }
    ClaimantReads(w.cfg, sh, w.clients[c], ch, o);
  }

  lemma ClaimantReads(cfg: Config, sh: Shared, cl: Client, ch: Choice, o: nat)
    requires Claiming(sh, cl, ch, o)
    ensures !ClientStep(cfg, sh, cl, ch).client.pc.InWorker? || !ClientStep(cfg, sh, cl, ch).client.pc.worker.Fail?
  {
    hide DueBatch, LeaseRows;
  }

  lemma WorkersAreDirect(w: World, c: nat)
    requires Inv(w) && c in w.clients && w.clients[c].pc.InWorker?
    ensures w.clients[c].frame.Direct?
  {
    hide SharedOk, OwnersDistinct, PcOk;
  }

  lemma FailureIsHeld(os: map<nat, OutboxRow>, cl: Client)
    requires cl.pc.InWorker? && cl.pc.worker.Fail? && cl.frame.Direct?
    ensures Hold(os, cl, cl.pc.worker.record.id).Some?
  {
    hide Shown;
    ShownCons(cl.pc.worker.record, cl.pc.worker.rest, cl.pc.worker.record.id);
  }

  // ---- Theorems ----

  /** A run without takeovers of the row, then a claim that is none either, then a run without another claim. */
  ghost predicate ClaimedThen(w: World, before: seq<Move>, m: Move, between: seq<Move>, o: nat) {
    && Initial(w) && TakeoverCount(w, before, o) == 0
    && ClaimsRow(Run(w, before), m, o) && !TakesOver(Run(w, before), m, o)
    && ClaimCount(Apply(Run(w, before), m), between, o) == 0
  }

  lemma ClaimedSince(w: World, before: seq<Move>, m: Move, between: seq<Move>, o: nat)
    requires ClaimedThen(w, before, m, between, o)
    ensures var w1 := Run(w, before);
            var w2 := Run(Apply(w1, m), between);
            && Since(w2, o, w1.shared.now, ClaimCount(w, before, o) + 1)
            && LoneInv(w2, o) && w2.cfg == w.cfg
  {
    hide Run, ClaimsRow, TakesOver, TakeoverCount, ClaimCount, Inv, LoneInv, Since, Apply, Evolves;
    var w1 := Run(w, before);
    InitialInv(w);
    InitialLone(w, o);
    RunKept(w, before);
    LoneRun(w, before, o);
    AttemptsCountClaims(w, before, o);
    ClaimBegins(w1, m, o);
    MoveKept(w1, m);
    LoneMove(w1, m, o);
    RunKept(Apply(w1, m), between);
    RunSince(Apply(w1, m), between, o, w1.shared.now, ClaimCount(w, before, o) + 1);
  }

  /**
    A row waiting for the retry of its k-th claim becomes due a backoff after that claim at the
    earliest, and a backoff from now at the latest.
   */
  lemma RetryFollowsBackoff(w: World, before: seq<Move>, m: Move, between: seq<Move>, o: nat)
    requires ClaimedThen(w, before, m, between, o)
    ensures var w1 := Run(w, before);
            var sh := Run(Apply(w1, m), between).shared;
            var k := ClaimCount(w, before, o) + 1;
            && o in sh.tables.outbox
            && (sh.tables.outbox[o].status == Retry ==>
                 w1.shared.now + Backoff(k) <= sh.tables.outbox[o].availableAt <= sh.now + Backoff(k))
  {
    hide Run, ClaimedThen, ClaimCount, HoldersOk, HoldsLease, OneHolder, Apply, Backoff;
    ClaimedSince(w, before, m, between, o);
  }

  /** Unless it is taken over, the k-th and the next claim of a row are at least the k-th backoff apart. */
  lemma ClaimsAreSpaced(w: World, before: seq<Move>, m: Move, between: seq<Move>, m': Move, o: nat)
    requires ClaimedThen(w, before, m, between, o)
    requires var w2 := Run(Apply(Run(w, before), m), between); ClaimsRow(w2, m', o) && !TakesOver(w2, m', o)
    ensures var w2 := Run(Apply(Run(w, before), m), between);
            w2.shared.now - Run(w, before).shared.now >= Backoff(ClaimCount(w, before, o) + 1)
  {
    hide Run, ClaimedThen, ClaimCount, HoldersOk, HoldsLease, OneHolder, Apply, Backoff, Claiming;
    ClaimedSince(w, before, m, between, o);
    DueAgain(Run(Apply(Run(w, before), m), between), m', o);
  }

  /** A row that is claimed without being taken over was waiting and is due. */
  lemma DueAgain(w: World, m: Move, o: nat)
    requires ClaimsRow(w, m, o) && !TakesOver(w, m, o) && o in w.shared.tables.outbox
    ensures w.shared.tables.outbox[o].status == Waiting || w.shared.tables.outbox[o].status == Retry
    ensures w.shared.tables.outbox[o].availableAt <= w.shared.now
  {
  }

  // ---- Leases hold until they run out ----

  /**
    A claim takes no row whose lease still runs, only rows that wait and lapsed leases; and
    with room in the limit it takes every one of them.
   */
  lemma ClaimTakesWhatIsFree(w: World, m: Move, o: nat)
    requires m.Step? && m.client in w.clients && Claims(w.clients[m.client].pc)
    requires DueBatch(w.shared.tables, w.shared.now, w.clients[m.client].pc.worker.limit, m.choice.batch)
    ensures ClaimsRow(w, m, o) ==> o in w.shared.tables.outbox && Claimable(w.shared.tables.outbox[o], w.shared.now)
    ensures |m.choice.batch| < w.clients[m.client].pc.worker.limit ==>
              (o in w.shared.tables.outbox && Claimable(w.shared.tables.outbox[o], w.shared.now) ==> ClaimsRow(w, m, o))
  {
    hide DueBatch, Claimable, Due;
    BatchIsClaimable(w.shared.tables, w.shared.now, w.clients[m.client].pc.worker.limit, m.choice.batch);
  }

  /** Since the claim at time `t` the row is either no longer leased or still under that claim's lease. */
  ghost predicate LeasedSince(os: map<nat, OutboxRow>, o: nat, until: int) {
    o in os && (os[o].status == Leased ==> os[o].leaseUntil == Some(until))
  }

  lemma StepKeepsLease(w: World, m: Move, o: nat, until: int)
    requires Inv(w) && HoldersOk(w.cfg, w.shared, w.clients)
    requires LeasedSince(w.shared.tables.outbox, o, until) && !ClaimsRow(w, m, o)
    ensures LeasedSince(Apply(w, m).shared.tables.outbox, o, until)
  {
    hide Inv, HoldersOk, ClientStep, Environment, Start, HolderOk, Hold, Claiming, Backoff;
    match m
    case Step(c, ch) => if c in w.clients { StepRow(w, c, ch, o); }
    case Spawn(_, _) =>
    case Crash(_) =>
    case _ => EnvironmentRows(w.shared, m);
  }

  lemma {:induction false} RunKeepsLease(w: World, moves: seq<Move>, o: nat, until: int)
    requires Inv(w) && HoldersOk(w.cfg, w.shared, w.clients)
    requires LeasedSince(w.shared.tables.outbox, o, until) && ClaimCount(w, moves, o) == 0
    ensures LeasedSince(Run(w, moves).shared.tables.outbox, o, until)
    decreases |moves|
  {
    hide Inv, HoldersOk, LeasedSince, Apply, ClaimsRow, Evolves;
    if moves != [] {
      MoveKept(w, moves[0]);
      MoveHolders(w, moves[0]);
      StepKeepsLease(w, moves[0], o, until);
      RunKeepsLease(Apply(w, moves[0]), moves[1..], o, until);
    }
  }

  lemma {:induction false} RunHolders(w: World, moves: seq<Move>)
    requires Inv(w) && HoldersOk(w.cfg, w.shared, w.clients)
    ensures HoldersOk(Run(w, moves).cfg, Run(w, moves).shared, Run(w, moves).clients)
    decreases |moves|
  {
    hide Inv, HoldersOk, Apply, Evolves;
    if moves != [] {
      MoveKept(w, moves[0]);
      MoveHolders(w, moves[0]);
      RunHolders(Apply(w, moves[0]), moves[1..]);
    }
  }

  lemma ClaimLeases(w: World, m: Move, o: nat)
    requires Inv(w) && HoldersOk(w.cfg, w.shared, w.clients) && ClaimsRow(w, m, o)
    ensures LeasedSince(Apply(w, m).shared.tables.outbox, o, w.shared.now + w.cfg.leaseSeconds)
  {
    hide Inv, HoldersOk, ClientStep, HolderOk, Hold, Claiming;
    StepRow(w, m.client, m.choice, o);
  }

  /**
    In every run, a claim that takes over an unsettled lease comes more than the lease's
    duration after the claim it overtakes.
   */
  lemma TakeoverComesLate(w: World, before: seq<Move>, m: Move, between: seq<Move>, m': Move, o: nat)
    requires Initial(w) && ClaimsRow(Run(w, before), m, o)
    requires ClaimCount(Apply(Run(w, before), m), between, o) == 0
    requires TakesOver(Run(Apply(Run(w, before), m), between), m', o)
    ensures var w2 := Run(Apply(Run(w, before), m), between);
            w2.shared.now > Run(w, before).shared.now + w.cfg.leaseSeconds
  {
    hide Run, ClaimCount, Inv, HoldersOk, Apply, Evolves, Claiming, LeasedSince;
    var w1 := Run(w, before);
    InitialInv(w);
    InitialCount(w, o);
    RunKept(w, before);
    RunHolders(w, before);
    ClaimLeases(w1, m, o);
    MoveKept(w1, m);
    MoveHolders(w1, m);
    RunKeepsLease(Apply(w1, m), between, o, w1.shared.now + w.cfg.leaseSeconds);
    TakenLease(Run(Apply(w1, m), between), m', o, w1.shared.now + w.cfg.leaseSeconds);
  }

  lemma TakenLease(w: World, m: Move, o: nat, until: int)
    requires TakesOver(w, m, o) && LeasedSince(w.shared.tables.outbox, o, until)
    ensures until < w.shared.now
  {
  }
}

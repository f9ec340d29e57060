/**
  The claim bound is attained: for every lease, every maximum and every number of
  takeovers there is a run in which a row is claimed exactly as often as the bound says.
  The row fails until one attempt is left, is claimed, and then one worker after the other
  crashes on it and lets its lease run out.
 */
module TakeoverRuns {
  import opened Domain
  import opened CoreTables
  import opened Protocol
  import opened SoloRuns
  import opened SampleRun
  import opened Delivery
  import opened Takeovers

  const CLAIM := CHOICE.(batch := [0])
  const RAISE := CHOICE.(raises := true)

  /** One authorized action, its row, and nobody at work. */
  function Stage(row: OutboxRow, now: int): Shared {
    State(Inserted(Pending).(outbox := map[0 := row])).(now := now)
  }

  function Quiet(cfg: Config, row: OutboxRow, now: int): World {
    World(cfg, Stage(row, now), map[])
  }

  function Busy(cfg: Config, row: OutboxRow, now: int, cl: Client): World {
    World(cfg, Stage(row, now), map[2 := cl])
  }

  function Working(pc: WorkerPc): Client {
    Client(InWorker(pc), Direct)
  }

  // ---- Counting along a run ----

  /** From `w` to `w'`, with `claims` claims of row 0 of which `takeovers` were takeovers. */
  ghost predicate Leads(w: World, moves: seq<Move>, w': World, claims: nat, takeovers: nat) {
    Run(w, moves) == w' && ClaimCount(w, moves, 0) == claims && TakeoverCount(w, moves, 0) == takeovers
  }

  lemma LeadsNowhere(w: World)
    ensures Leads(w, [], w, 0, 0)
  {
  }

  lemma LeadsFirst(w: World, m: Move, w1: World, moves: seq<Move>, w2: World, claims: nat, takeovers: nat)
    requires Apply(w, m) == w1 && Leads(w1, moves, w2, claims, takeovers)
    ensures Leads(w, [m] + moves, w2, claims + One(ClaimsRow(w, m, 0)), takeovers + One(TakesOver(w, m, 0)))
  {
    hide Apply, ClaimsRow, TakesOver;
    assert ([m] + moves)[0] == m && ([m] + moves)[1..] == moves;
  }

  lemma {:induction false} LeadsOn(w: World, a: seq<Move>, w1: World, c1: nat, t1: nat, b: seq<Move>, w2: World,
                                   c2: nat, t2: nat)
    requires Leads(w, a, w1, c1, t1) && Leads(w1, b, w2, c2, t2)
    ensures Leads(w, a + b, w2, c1 + c2, t1 + t2)
    decreases |a|
  {
    hide Apply, ClaimsRow, TakesOver;
    if a == [] {
      assert a + b == b;
    } else {
      var claims, takeovers := One(ClaimsRow(w, a[0], 0)), One(TakesOver(w, a[0], 0));
      LeadsOn(Apply(w, a[0]), a[1..], w1, c1 - claims, t1 - takeovers, b, w2, c2, t2);
      LeadsFirst(w, a[0], Apply(w, a[0]), a[1..] + b, w2, c1 + c2 - claims, t1 + t2 - takeovers);
      assert a + b == [a[0]] + (a[1..] + b);
    }
  }

  // ---- Single moves ----

  lemma Spawns(cfg: Config, row: OutboxRow, now: int)
    ensures Apply(Quiet(cfg, row, now), Spawn(2, Deliver(1))) == Busy(cfg, row, now, Working(ClaimRows(1)))
    ensures !ClaimsRow(Quiet(cfg, row, now), Spawn(2, Deliver(1)), 0)
  {
    hide ClientStep;
  }

  lemma SingleBatch(row: OutboxRow, now: int)
    requires Due(row, now)
    ensures DueBatch(Stage(row, now).tables, now, 1, [0])
  {
    var t := Stage(row, now).tables;
    assert t.outbox.Keys == {0};
  }

  lemma ClaimStep(cfg: Config, row: OutboxRow, now: int)
    requires Due(row, now)
    ensures ClientStep(cfg, Stage(row, now), Working(ClaimRows(1)), CLAIM)
            == Outcome(Stage(Lease(row, now + cfg.leaseSeconds), now), Working(RereadRows([0])))
  {
    hide StepSubmit, StepAuthorize, StepAction, StepBridge, DueBatch;
    SingleBatch(row, now);
    var os: map<nat, OutboxRow> := map[0 := row];
    var until := now + cfg.leaseSeconds;
    assert [0][1..] == [];
    assert LeaseRows(os, [0], until) == LeaseRows(os[0 := Lease(row, until)], [], until);
    assert os[0 := Lease(row, until)] == map[0 := Lease(row, until)];
  }

  /** A claim; it is a takeover exactly when the row was leased. */
  lemma ClaimMove(cfg: Config, row: OutboxRow, now: int)
    requires Due(row, now)
    ensures var w := Busy(cfg, row, now, Working(ClaimRows(1)));
            && Apply(w, Step(2, CLAIM)) == Busy(cfg, Lease(row, now + cfg.leaseSeconds), now, Working(RereadRows([0])))
            && ClaimsRow(w, Step(2, CLAIM), 0) && (TakesOver(w, Step(2, CLAIM), 0) <==> row.status == Leased)
  {
    hide ClientStep, DueBatch;
    ClaimStep(cfg, row, now);
    SingleBatch(row, now);
    var w := Busy(cfg, row, now, Working(ClaimRows(1)));
    assert w.clients[2 := Working(RereadRows([0]))] == map[2 := Working(RereadRows([0]))];
  }

  /** A step of a worker that is past its claim. */
  lemma LaterMove(cfg: Config, row: OutboxRow, now: int, cl: Client, ch: Choice, row': OutboxRow, cl': Client)
    requires ClientStep(cfg, Stage(row, now), cl, ch) == Outcome(Stage(row', now), cl') && !Claims(cl.pc)
    ensures Apply(Busy(cfg, row, now, cl), Step(2, ch)) == Busy(cfg, row', now, cl')
    ensures !ClaimsRow(Busy(cfg, row, now, cl), Step(2, ch), 0)
  {
    hide ClientStep, DueBatch;
    assert Busy(cfg, row, now, cl).clients[2 := cl'] == map[2 := cl'];
  }

  lemma CrashMove(cfg: Config, row: OutboxRow, now: int, cl: Client)
    ensures Apply(Busy(cfg, row, now, cl), Crash(2)) == Quiet(cfg, row, now)
  {
    hide ClientStep;
    assert Busy(cfg, row, now, cl).clients - {2} == map[];
  }

  lemma TickMove(cfg: Config, row: OutboxRow, now: int, seconds: nat)
    ensures Apply(Quiet(cfg, row, now), Tick(seconds)) == Quiet(cfg, row, now + seconds)
  {
    hide ClientStep;
  }

  // ---- A worker that crashes on the row ----

  function Outlast(cfg: Config): nat {
    if cfg.leaseSeconds > 0 then cfg.leaseSeconds + 1 else 1
  }

  function CrashRound(cfg: Config): seq<Move> {
    [Spawn(2, Deliver(1))] + ([Step(2, CLAIM)] + ([Crash(2)] + ([Tick(Outlast(cfg))] + [])))
  }

  /** Claimed, abandoned, and due again when the lease has run out. */
  lemma CrashRoundRuns(cfg: Config, row: OutboxRow, now: int)
    requires Due(row, now)
    ensures var row', now' := Lease(row, now + cfg.leaseSeconds), now + Outlast(cfg);
            && Leads(Quiet(cfg, row, now), CrashRound(cfg), Quiet(cfg, row', now'), 1, One(row.status == Leased))
            && Due(row', now') && row'.status == Leased
  {
    hide Leads, Apply, Quiet, Busy, Claiming;
    var row', now' := Lease(row, now + cfg.leaseSeconds), now + Outlast(cfg);
    var end := Quiet(cfg, row', now');
    LeadsNowhere(end);
    TickMove(cfg, row', now, Outlast(cfg));
    LeadsFirst(Quiet(cfg, row', now), Tick(Outlast(cfg)), end, [], end, 0, 0);
    CrashMove(cfg, row', now, Working(RereadRows([0])));
    LeadsFirst(Busy(cfg, row', now, Working(RereadRows([0]))), Crash(2), Quiet(cfg, row', now),
               [Tick(Outlast(cfg))] + [], end, 0, 0);
    ClaimMove(cfg, row, now);
    LeadsFirst(Busy(cfg, row, now, Working(ClaimRows(1))), Step(2, CLAIM),
               Busy(cfg, row', now, Working(RereadRows([0]))),
               [Crash(2)] + ([Tick(Outlast(cfg))] + []), end, 0, 0);
    Spawns(cfg, row, now);
    LeadsFirst(Quiet(cfg, row, now), Spawn(2, Deliver(1)), Busy(cfg, row, now, Working(ClaimRows(1))),
               [Step(2, CLAIM)] + ([Crash(2)] + ([Tick(Outlast(cfg))] + [])), end, 1, One(row.status == Leased));
  }

  function CrashRounds(cfg: Config, n: nat): seq<Move> {
    if n == 0 then [] else CrashRound(cfg) + CrashRounds(cfg, n - 1)
  }

  lemma {:induction false} CrashRoundsRun(cfg: Config, row: OutboxRow, now: int, n: nat) returns (end: World)
    requires Due(row, now)
    ensures Leads(Quiet(cfg, row, now), CrashRounds(cfg, n), end, n,
                  if row.status == Leased || n == 0 then n else n - 1)
    decreases n
  {
    hide Leads, Quiet, Outlast, CrashRound;
    if n == 0 {
      end := Quiet(cfg, row, now);
      LeadsNowhere(end);
    } else {
      CrashRoundRuns(cfg, row, now);
      var row', now' := Lease(row, now + cfg.leaseSeconds), now + Outlast(cfg);
      end := CrashRoundsRun(cfg, row', now', n - 1);
      LeadsOn(Quiet(cfg, row, now), CrashRound(cfg), Quiet(cfg, row', now'), 1, One(row.status == Leased),
              CrashRounds(cfg, n - 1), end, n - 1, n - 1);
    }
  }

  // ---- A worker whose dispatch raises ----

  predicate Deliverable(row: OutboxRow) {
    row.topic == ActionDispatch && row.actionId == 0
  }

  function Frame0(row: OutboxRow): Frame {
    OnWorker(Claimed(0, row), [])
  }

  function Failed(row: OutboxRow, at: int): OutboxRow {
    row.(status := Retry, availableAt := at, leaseUntil := None)
  }

  lemma RereadStep(cfg: Config, row: OutboxRow, now: int)
    ensures ClientStep(cfg, Stage(row, now), Working(RereadRows([0])), CLAIM)
            == Outcome(Stage(row, now), Working(Loop([Claimed(0, row)])))
  {
    hide StepSubmit, StepAuthorize, StepAction, StepBridge;
    var t := Stage(row, now).tables;
    assert [0][1..] == [] && ReadRows(t, []) == [];
    assert ReadRows(t, [0]) == [Claimed(0, row)];
  }

  lemma LoopStep(cfg: Config, row: OutboxRow, now: int)
    requires Deliverable(row)
    ensures ClientStep(cfg, Stage(row, now), Working(Loop([Claimed(0, row)])), CHOICE)
            == Outcome(Stage(row, now), Client(CREATED, Frame0(row)))
  {
    hide StepSubmit, StepAuthorize, StepAction, StepBridge;
    assert [Claimed(0, row)][1..] == [];
  }

  lemma RaiseStep(cfg: Config, row: OutboxRow, now: int)
    requires row.attempts < cfg.maxAttempts
    ensures ClientStep(cfg, Stage(row, now), Client(CREATED, Frame0(row)), RAISE)
            == Outcome(Stage(row, now), Working(Fail(Claimed(0, row), [], false, Some(now + Backoff(row.attempts)))))
  {
    hide StepSubmit, StepAuthorize, StepBridge, StepWorker, Backoff;
  }

  lemma FailStep(cfg: Config, row: OutboxRow, now: int, at: int)
    ensures ClientStep(cfg, Stage(row, now), Working(Fail(Claimed(0, row), [], false, Some(at))), CHOICE)
            == Outcome(Stage(Failed(row, at), now), Working(Loop([])))
  {
    hide StepSubmit, StepAuthorize, StepAction, StepBridge;
    var os: map<nat, OutboxRow> := map[0 := row];
    assert os[0 := Failed(row, at)] == map[0 := Failed(row, at)];
  }

  const AFTER_CLAIM := [Step(2, CLAIM)] + ([Step(2, CHOICE)] + ([Step(2, RAISE)] + ([Step(2, CHOICE)] + ([Crash(2)]
                       + ([Tick(300)] + [])))))

  const FAIL_ROUND := [Spawn(2, Deliver(1))] + ([Step(2, CLAIM)] + AFTER_CLAIM)

  lemma AfterClaimRuns(cfg: Config, row: OutboxRow, now: int)
    requires Deliverable(row) && row.attempts < cfg.maxAttempts
    ensures var row' := Failed(row, now + Backoff(row.attempts));
            Leads(Busy(cfg, row, now, Working(RereadRows([0]))), AFTER_CLAIM, Quiet(cfg, row', now + 300), 0, 0)
  {
    hide Leads, Apply, Quiet, Busy, Stage, ClientStep, Claiming, Backoff, Failed, Frame0;
    var at := now + Backoff(row.attempts);
    var row', c := Failed(row, at), Claimed(0, row);
    var end := Quiet(cfg, row', now + 300);
    LeadsNowhere(end);
    TickMove(cfg, row', now, 300);
    LeadsFirst(Quiet(cfg, row', now), Tick(300), end, [], end, 0, 0);
    CrashMove(cfg, row', now, Working(Loop([])));
    var tail := [Tick(300)] + [];
    LeadsFirst(Busy(cfg, row', now, Working(Loop([]))), Crash(2), Quiet(cfg, row', now), tail, end, 0, 0);
    tail := [Crash(2)] + tail;
    FailStep(cfg, row, now, at);
    var failing := Working(Fail(c, [], false, Some(at)));
    LaterMove(cfg, row, now, failing, CHOICE, row', Working(Loop([])));
    LeadsFirst(Busy(cfg, row, now, failing), Step(2, CHOICE), Busy(cfg, row', now, Working(Loop([]))), tail, end, 0, 0);
    tail := [Step(2, CHOICE)] + tail;
    RaiseStep(cfg, row, now);
    var dispatching := Client(CREATED, Frame0(row));
    LaterMove(cfg, row, now, dispatching, RAISE, row, failing);
    LeadsFirst(Busy(cfg, row, now, dispatching), Step(2, RAISE), Busy(cfg, row, now, failing), tail, end, 0, 0);
    tail := [Step(2, RAISE)] + tail;
    LoopStep(cfg, row, now);
    LaterMove(cfg, row, now, Working(Loop([c])), CHOICE, row, dispatching);
    LeadsFirst(Busy(cfg, row, now, Working(Loop([c]))), Step(2, CHOICE), Busy(cfg, row, now, dispatching), tail, end,
               0, 0);
    tail := [Step(2, CHOICE)] + tail;
    RereadStep(cfg, row, now);
    LaterMove(cfg, row, now, Working(RereadRows([0])), CLAIM, row, Working(Loop([c])));
    LeadsFirst(Busy(cfg, row, now, Working(RereadRows([0]))), Step(2, CLAIM), Busy(cfg, row, now, Working(Loop([c]))),
               tail, end, 0, 0);
  }

  /** Claimed, failed below the maximum, and due again when the longest delay has passed. */
  lemma FailRoundRuns(cfg: Config, row: OutboxRow, now: int)
    requires Due(row, now) && row.status != Leased && Deliverable(row) && row.attempts + 1 < cfg.maxAttempts
    ensures var row' := Failed(Lease(row, now + cfg.leaseSeconds), now + Backoff(row.attempts + 1));
            && Leads(Quiet(cfg, row, now), FAIL_ROUND, Quiet(cfg, row', now + 300), 1, 0)
            && Due(row', now + 300)
  {
    hide Leads, Apply, Quiet, Busy, Claiming, Backoff;
    var leased := Lease(row, now + cfg.leaseSeconds);
    var row' := Failed(leased, now + Backoff(row.attempts + 1));
    DelaysGrow(0, row.attempts + 1);
    AfterClaimRuns(cfg, leased, now);
    ClaimMove(cfg, row, now);
    LeadsFirst(Busy(cfg, row, now, Working(ClaimRows(1))), Step(2, CLAIM),
               Busy(cfg, leased, now, Working(RereadRows([0]))),
               AFTER_CLAIM, Quiet(cfg, row', now + 300), 0, 0);
    Spawns(cfg, row, now);
    LeadsFirst(Quiet(cfg, row, now), Spawn(2, Deliver(1)), Busy(cfg, row, now, Working(ClaimRows(1))),
               [Step(2, CLAIM)] + AFTER_CLAIM, Quiet(cfg, row', now + 300), 1, 0);
  }

  function FailRounds(n: nat): seq<Move> {
    if n == 0 then [] else FAIL_ROUND + FailRounds(n - 1)
  }

  lemma {:induction false} FailRoundsRun(cfg: Config, row: OutboxRow, now: int, n: nat)
    returns (row': OutboxRow, now': int)
    requires Due(row, now) && row.status != Leased && Deliverable(row) && (n > 0 ==> row.attempts + n < cfg.maxAttempts)
    ensures Leads(Quiet(cfg, row, now), FailRounds(n), Quiet(cfg, row', now'), n, 0)
    ensures Due(row', now') && row'.status != Leased
    decreases n
  {
    hide Leads, Quiet, Backoff;
    if n == 0 {
      row', now' := row, now;
      LeadsNowhere(Quiet(cfg, row, now));
    } else {
      FailRoundRuns(cfg, row, now);
      var next := Failed(Lease(row, now + cfg.leaseSeconds), now + Backoff(row.attempts + 1));
      row', now' := FailRoundsRun(cfg, next, now + 300, n - 1);
      LeadsOn(Quiet(cfg, row, now), FAIL_ROUND, Quiet(cfg, next, now + 300), 1, 0,
              FailRounds(n - 1), Quiet(cfg, row', now'), n - 1, 0);
    }
  }

  // ---- From the empty store ----

  function Start(cfg: Config): World {
    World(cfg, State(EMPTY), map[])
  }

  function Submission(): seq<Move> {
    [Propose(0, OFFER)] + ([Spawn(1, Submit(REQUEST))] + (Steps(1, CHOICE, 9) + [Crash(1)]))
  }

  lemma {:induction false} FewerTakeovers(w: World, moves: seq<Move>, o: nat)
    ensures TakeoverCount(w, moves, o) <= ClaimCount(w, moves, o)
    decreases |moves|
  {
    hide Apply, Claiming;
    if moves != [] { FewerTakeovers(Apply(w, moves[0]), moves[1..], o); }
  }

  /** The action is authorized and its row has not been claimed. */
  lemma SubmissionRuns(cfg: Config)
    requires Sample(cfg)
    ensures Leads(Start(cfg), Submission(), Quiet(cfg, NewRow(0, 0), 0), 0, 0)
  {
    hide ClientStep, Run, Solo, Steps, ClaimCount, TakeoverCount;
    var pending := State(Proposed(Pending));
    var w1, w2 := World(cfg, pending, map[]), World(cfg, pending, map[1 := Submitting(Direct, FindDuplicate)]);
    var w3 := World(cfg, State(Inserted(Pending)), map[1 := Client(CREATED, Direct)]);
    var end := Quiet(cfg, NewRow(0, 0), 0);
    assert Apply(Start(cfg), Propose(0, OFFER)) == w1;
    assert Apply(w1, Spawn(1, Submit(REQUEST))) == w2;
    SoloSubmit(cfg, Pending, Direct);
    SoloRun(w2, 1, CHOICE, 9);
    assert w2.clients[1 := Client(CREATED, Direct)] == w3.clients;
    assert Run(w2, Steps(1, CHOICE, 9)) == w3;
    assert w3.clients - {1} == map[];
    assert Apply(w3, Crash(1)) == end;
    RunsOn(Start(cfg), w1, w2, w3, end);
    AttemptsCountClaims(Start(cfg), Submission(), 0);
    FewerTakeovers(Start(cfg), Submission(), 0);
  }

  lemma RunsOn(w0: World, w1: World, w2: World, w3: World, end: World)
    requires Apply(w0, Propose(0, OFFER)) == w1 && Apply(w1, Spawn(1, Submit(REQUEST))) == w2
    requires Run(w2, Steps(1, CHOICE, 9)) == w3 && Apply(w3, Crash(1)) == end
    ensures Run(w0, Submission()) == end
  {
    hide Apply, Steps;
    var crash: seq<Move> := [Crash(1)];
    assert crash[1..] == [];
    RunAppend(w2, Steps(1, CHOICE, 9), crash);
    var tail := Steps(1, CHOICE, 9) + crash;
    assert ([Spawn(1, Submit(REQUEST))] + tail)[1..] == tail;
    assert Submission()[1..] == [Spawn(1, Submit(REQUEST))] + tail;
  }

  /**
    For every lease, maximum and number of takeovers, some run from the empty store claims a
    row exactly the permitted number of times plus once for each takeover.
   */
  lemma BoundIsAttained(leaseSeconds: int, maxAttempts: int, takeovers: nat) returns (moves: seq<Move>)
    ensures var cfg := Settings(leaseSeconds, maxAttempts);
            && Initial(Start(cfg))
            && TakeoverCount(Start(cfg), moves, 0) == takeovers
            && ClaimCount(Start(cfg), moves, 0) == Limit(cfg) + takeovers
  {
    hide Run, ClaimCount, TakeoverCount, Quiet, FailRounds, CrashRounds, Submission;
    var cfg := Settings(leaseSeconds, maxAttempts);
    var n := Limit(cfg) - 1;
    SubmissionRuns(cfg);
    var row, now := FailRoundsRun(cfg, NewRow(0, 0), 0, n);
    var end := CrashRoundsRun(cfg, row, now, takeovers + 1);
    LeadsOn(Start(cfg), Submission(), Quiet(cfg, NewRow(0, 0), 0), 0, 0, FailRounds(n), Quiet(cfg, row, now), n, 0);
    LeadsOn(Start(cfg), Submission() + FailRounds(n), Quiet(cfg, row, now), n, 0,
            CrashRounds(cfg, takeovers + 1), end, takeovers + 1, takeovers);
    moves := Submission() + FailRounds(n) + CrashRounds(cfg, takeovers + 1);
  }
}

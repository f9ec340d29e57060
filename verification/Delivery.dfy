/**
  The outbox: no authorized action is lost, delays grow, attempts count claims, and what
  any single step may do to a row and to its holder.
 */
module Delivery {
  import opened Domain
  import opened CoreTables
  import opened Provider
  import opened Protocol
  import opened ProtocolInvariant
  import opened ProtocolSafety
  import opened ProtocolWriters

  // ---- No action is lost ----

  /** The row of an action and what its status says about the action. */
  ghost predicate Tracks(cfg: Config, acts: map<nat, Action>, os: map<nat, OutboxRow>, o: nat, id: nat) {
    && o in os && os[o].actionId == id && os[o].topic == ActionDispatch && id in acts
    && (os[o].status == Delivered ==> acts[id].status != Authorized)
    && (os[o].status == Quarantined ==> os[o].attempts >= cfg.maxAttempts)
    && (forall other :: other in os && os[other].actionId == id ==> other == o)
  }

  /** Sooner or later the row is up for delivery, and stays so until somebody claims it. */
  ghost predicate ComesDue(row: OutboxRow) {
    exists t :: DueFrom(row, t)
  }

  ghost predicate DueFrom(row: OutboxRow, t: int) {
    forall now :: now >= t ==> Due(row, now)
  }

  /**
    Every action has exactly one outbox row; the row is not DELIVERED while the action is
    still AUTHORIZED and is QUARANTINED only after the permitted attempts, so the row of
    an AUTHORIZED action that is not quarantined always comes due again.
   */
  lemma NoActionIsLost(w: World, moves: seq<Move>, id: nat)
    requires Initial(w) && id in Run(w, moves).shared.tables.actions
    ensures var t := Run(w, moves).shared.tables;
            exists o :: Tracks(w.cfg, t.actions, t.outbox, o, id)
                        && (t.actions[id].status == Authorized && t.outbox[o].status != Quarantined ==>
                            ComesDue(t.outbox[o]))
  {
    hide Initial, Run, KeysOk, LogsLegal, ProposalsOk, VersionsOk, LedgerOk, CallsOk;
    hide ClientsOk, OwnersDistinct, ComesDue, Evolves;
    InitialInv(w);
    RunKept(w, moves);
    var t := Run(w, moves).shared.tables;
    assert HasRow(t.outbox, id);
    var o :| o in t.outbox && t.outbox[o].actionId == id;
    assert Tracks(w.cfg, t.actions, t.outbox, o, id);
    if t.actions[id].status == Authorized && t.outbox[o].status != Quarantined { OpenRowsComeDue(t.outbox[o]); }
  }

  lemma OpenRowsComeDue(row: OutboxRow)
    requires row.status == Waiting || row.status == Retry || (row.status == Leased && row.leaseUntil.Some?)
    ensures ComesDue(row)
  {
    var leased := row.leaseUntil.Some? && row.leaseUntil.value >= row.availableAt;
    var t := if leased then row.leaseUntil.value + 1 else row.availableAt;
    assert DueFrom(row, t);
  }

  // ---- Retry delays ----

  lemma {:induction false} Pow2Grows(a: nat, b: nat)
    requires a <= b
    ensures 1 <= Pow2(a) <= Pow2(b)
  {
    if a < b { Pow2Grows(a, b - 1); } else if a > 0 { Pow2Grows(a - 1, a - 1); }
  }

  /** Delays lie between 1 and 300 seconds and never shrink from one attempt to the next. */
  lemma DelaysGrow(a: nat, b: nat)
    requires a <= b
    ensures 1 <= Backoff(a) <= Backoff(b) <= 300
  {
    Pow2Grows(if a == 0 then 0 else a - 1, if b == 0 then 0 else b - 1);
  }

  /** The delay starts at one second and doubles with every further attempt until it reaches 300 seconds. */
  lemma DelaysDouble(attempts: nat)
    ensures Backoff(0) == 1 && Backoff(1) == 1
    ensures attempts >= 1 ==>
              Backoff(attempts + 1) == if 2 * Backoff(attempts) < 300 then 2 * Backoff(attempts) else 300
  {
    if attempts >= 1 { assert Pow2(attempts) == 2 * Pow2(attempts - 1); }
  }

  // ---- Who holds which row ----

  function Ids(rs: seq<Claimed>): (ids: seq<nat>)
    ensures |ids| == |rs| && forall i :: 0 <= i < |rs| ==> ids[i] == rs[i].id
  {
    seq(|rs|, i requires 0 <= i < |rs| => rs[i].id)
  }

  /** The claimed rows a worker has yet to settle. */
  function Records(cl: Client): seq<Claimed> {
    if cl.frame.OnWorker? then [cl.frame.record] + cl.frame.rest
    else if !cl.pc.InWorker? then []
    else match cl.pc.worker
      case Loop(rs) => rs
      case Complete(r, rest) => [r] + rest
      case Fail(r, rest, _, _) => [r] + rest
      case _ => []
  }

  function Held(cl: Client): seq<nat> {
    if !cl.frame.OnWorker? && cl.pc.InWorker? && cl.pc.worker.RereadRows? then cl.pc.worker.ids else Ids(Records(cl))
  }

  ghost predicate Distinct(s: seq<nat>) {
    forall i, j :: 0 <= i < j < |s| ==> s[i] != s[j]
  }

  /** The attempt that the first record of a row shows. */
  function Shown(rs: seq<Claimed>, o: nat): Option<nat> {
    if rs == [] then None else if rs[0].id == o then Some(rs[0].row.attempts) else Shown(rs[1..], o)
  }

  predicate Rereading(cl: Client) {
    !cl.frame.OnWorker? && cl.pc.InWorker? && cl.pc.worker.RereadRows?
  }

  /** The attempt a client works on, if it holds the row: the one its record shows or is about to show. */
  function Hold(os: map<nat, OutboxRow>, cl: Client, o: nat): Option<nat> {
    if Rereading(cl) then (if o in cl.pc.worker.ids && o in os then Some(os[o].attempts) else None)
    else Shown(Records(cl), o)
  }

  function Limit(cfg: Config): int {
    if cfg.maxAttempts > 1 then cfg.maxAttempts else 1
  }

  /** A worker that has given up an attempt below the maximum schedules the next one. */
  ghost predicate FailureOk(cfg: Config, now: int, cl: Client) {
    cl.pc.InWorker? && cl.pc.worker.Fail? && !cl.pc.worker.quarantine ==>
      var attempts := cl.pc.worker.record.row.attempts;
      attempts < cfg.maxAttempts && cl.pc.worker.retryAt.Some? && cl.pc.worker.retryAt.value <= now + Backoff(attempts)
  }

  /** The rows a worker holds are distinct and stored. */
  ghost predicate HolderOk(cfg: Config, sh: Shared, cl: Client) {
    && Distinct(Held(cl)) && (forall o :: o in Held(cl) ==> o in sh.tables.outbox)
    && FailureOk(cfg, sh.now, cl)
  }

  // ---- What a step does to one row ----

  ghost predicate RowKept(os: map<nat, OutboxRow>, os': map<nat, OutboxRow>, o: nat) {
    (o in os <==> o in os') && (o in os ==> os'[o] == os[o])
  }

  /** A settlement of attempt `a`: a retry only below the maximum, and within the backoff from now. */
  predicate Settles(cfg: Config, now: int, row: OutboxRow, a: nat, row': OutboxRow) {
    && row' == row.(status := row'.status, availableAt := row'.availableAt, leaseUntil := None)
    && (|| row'.status == Delivered
        || row'.status == Quarantined
        || (row'.status == Retry && a < cfg.maxAttempts && row'.availableAt <= now + Backoff(a)))
  }

  /** The row is claimed in this step. */
  ghost predicate Claiming(sh: Shared, cl: Client, ch: Choice, o: nat) {
    Claims(cl.pc) && o in ch.batch && DueBatch(sh.tables, sh.now, cl.pc.worker.limit, ch.batch)
  }

  predicate Claims(pc: Pc) {
    pc.InWorker? && pc.worker.ClaimRows?
  }

  /** Leased to this client, which works on the new attempt. */
  ghost predicate Leases(cfg: Config, sh: Shared, out: Outcome, o: nat) {
    var os, os' := sh.tables.outbox, out.shared.tables.outbox;
    && o in os && o in os' && Due(os[o], sh.now) && os'[o] == Lease(os[o], sh.now + cfg.leaseSeconds)
    && Hold(os', out.client, o) == Some(os[o].attempts + 1)
  }

  /** Not claimed: left alone, new, or settled by the client, which then no longer holds it. */
  ghost predicate LeftOrSettled(cfg: Config, sh: Shared, cl: Client, out: Outcome, o: nat) {
    var os, os' := sh.tables.outbox, out.shared.tables.outbox;
    var h, h' := Hold(os, cl, o), Hold(os', out.client, o);
    || (RowKept(os, os', o) && (h' == h || h' == None))
    || (o !in os && o in os' && os'[o].status == Waiting && os'[o].attempts == 0 && h' == None)
    || (h.Some? && h' == None && o in os && o in os' && Settles(cfg, sh.now, os[o], h.value, os'[o]))
  }

  ghost predicate RowStep(cfg: Config, sh: Shared, cl: Client, ch: Choice, out: Outcome, o: nat) {
    && HolderOk(cfg, out.shared, out.client)
    && if Claiming(sh, cl, ch, o) then Leases(cfg, sh, out, o) else LeftOrSettled(cfg, sh, cl, out, o)
  }

  // ---- Steps outside the outbox ----

  predicate Idle(cl: Client) {
    !cl.frame.OnWorker? && !cl.pc.InWorker?
  }

  lemma IdleHoldsNothing(cfg: Config, sh: Shared, cl: Client, o: nat)
    requires Idle(cl)
    ensures HolderOk(cfg, sh, cl) && Hold(sh.tables.outbox, cl, o) == None
  {
  }

  /** A step that leaves the outbox and the clock alone and keeps or drops what it held. */
  lemma Keeps(cfg: Config, sh: Shared, cl: Client, ch: Choice, out: Outcome, o: nat)
    requires HolderOk(cfg, sh, cl) && !Claiming(sh, cl, ch, o)
    requires out.shared.tables.outbox == sh.tables.outbox && out.shared.now == sh.now
    requires Idle(out.client) || (Held(out.client) == Held(cl) && Records(out.client) == Records(cl)
                                  && Rereading(out.client) == Rereading(cl)
                                  && (Rereading(cl) ==> out.client.pc.worker.ids == cl.pc.worker.ids))
    requires FailureOk(cfg, sh.now, out.client)
    ensures RowStep(cfg, sh, cl, ch, out, o)
  {
    hide FailureOk, Claiming, Shown;
    if Idle(out.client) { IdleHoldsNothing(cfg, out.shared, out.client, o); }
  }

  lemma SubmitIdle(cfg: Config, sh: Shared, cl: Client, ch: Choice)
    requires cl.pc.InSubmit? && !cl.frame.OnWorker?
    ensures Idle(StepSubmit(cfg, sh, cl, ch).client)
  {
    hide SameRequest, FindByKey, UpstreamAgrees, Normalize, Authoritative, BuildCommand, CreateCase, AppendFact;
  }

  lemma AuthorizeIdle(cfg: Config, sh: Shared, cl: Client, ch: Choice)
    requires cl.pc.InAuthorize? && !cl.frame.OnWorker?
    ensures Idle(StepAuthorize(cfg, sh, cl, ch).client)
  {
    hide FindByKey, SpecificationMet, FactAgrees, InsertAction;
  }

  lemma BridgeIdle(cfg: Config, sh: Shared, cl: Client, ch: Choice)
    requires cl.pc.InBridge? && !cl.frame.OnWorker?
    ensures Idle(StepBridge(cfg, sh, cl, ch).client)
  {
    hide FindByKey, Owns, ResourceUnchanged, BindingUnchanged, EvidenceGiven, RequestFor;
  }

  /** A stage of an action continues, ends, returns or raises. */
  predicate StageExit(cfg: Config, sh: Shared, cl: Client, id: nat, cl': Client) {
    || (cl'.pc.InAction? && cl'.frame == cl.frame)
    || cl' == FINISHED
    || cl' == Return(cl.frame, id)
    || cl' == Raise(cfg, sh, cl.frame)
  }

  lemma ActionExits(cfg: Config, sh: Shared, cl: Client, ch: Choice)
    requires cl.pc.InAction?
    ensures StageExit(cfg, sh, cl, cl.pc.action.id, StepAction(cfg, sh, cl, ch).client)
  {
    hide Return, Raise, OutcomeAllowed, CommitEffect, ScenarioFor, SetStatus;
  }

  lemma ActionRow(cfg: Config, sh: Shared, cl: Client, ch: Choice, o: nat)
    requires HolderOk(cfg, sh, cl) && cl.pc.InAction?
    ensures RowStep(cfg, sh, cl, ch, StepAction(cfg, sh, cl, ch), o)
  {
    hide Distinct, StepAction, RowStep, Backoff;
    ActionWrites(cfg, sh, cl, ch);
    ActionExits(cfg, sh, cl, ch);
    Keeps(cfg, sh, cl, ch, StepAction(cfg, sh, cl, ch), o);
  }

  lemma InsertRow(cfg: Config, sh: Shared, cl: Client, ch: Choice, o: nat)
    requires !cl.frame.OnWorker? && Inserting(cl.pc)
    ensures RowStep(cfg, sh, cl, ch, StepAuthorize(cfg, sh, cl, ch), o)
  {
    hide StampTx, FindKeyTx, CheckFactsTx, HolderOk, Shown;
    AuthorizeIdle(cfg, sh, cl, ch);
    var out := StepAuthorize(cfg, sh, cl, ch);
    IdleHoldsNothing(cfg, out.shared, out.client, o);
  }

  // ---- Steps of the delivery worker ----

  lemma ClaimRowsRow(cfg: Config, sh: Shared, cl: Client, ch: Choice, limit: nat, o: nat)
    requires HolderOk(cfg, sh, cl) && cl == Client(InWorker(ClaimRows(limit)), Direct)
    ensures RowStep(cfg, sh, cl, ch, ClaimRowsTx(cfg, sh, cl, ch, limit), o)
  {
    hide HolderOk, RowStep, DueBatch, Leasing;
    if DueBatch(sh.tables, sh.now, limit, ch.batch) {
      LeasedRow(cfg, sh, cl, ch, limit, o);
    } else {
      Keeps(cfg, sh, cl, ch, Outcome(sh, cl), o);
    }
  }

  lemma LeasedRow(cfg: Config, sh: Shared, cl: Client, ch: Choice, limit: nat, o: nat)
    requires DueBatch(sh.tables, sh.now, limit, ch.batch) && cl == Client(InWorker(ClaimRows(limit)), Direct)
    ensures var sh' := sh.(tables := Leasing(sh, ch.batch, sh.now + cfg.leaseSeconds));
            RowStep(cfg, sh, cl, ch, Outcome(sh', Client(InWorker(RereadRows(ch.batch)), Direct)), o)
  {
    hide LeaseRows, Due, Shown, Settles;
    LeaseRowsAt(sh.tables.outbox, ch.batch, sh.now + cfg.leaseSeconds);
  }

  lemma {:induction false} ReadRowsAll(t: Tables, ids: seq<nat>)
    requires forall i :: 0 <= i < |ids| ==> ids[i] in t.outbox
    ensures var rs := ReadRows(t, ids);
            |rs| == |ids| && forall i :: 0 <= i < |ids| ==> rs[i] == Claimed(ids[i], t.outbox[ids[i]])
  {
    if ids != [] { ReadRowsAll(t, ids[1..]); }
  }

  lemma {:induction false} ReadRowsShow(t: Tables, ids: seq<nat>, o: nat)
    requires forall i :: 0 <= i < |ids| ==> ids[i] in t.outbox
    ensures Shown(ReadRows(t, ids), o) == if o in ids then Some(t.outbox[o].attempts) else None
  {
    if ids != [] {
      ReadRowsShow(t, ids[1..], o);
      assert ids == [ids[0]] + ids[1..];
      assert ReadRows(t, ids)[1..] == ReadRows(t, ids[1..]);
    }
  }

  lemma RereadRow(cfg: Config, sh: Shared, cl: Client, ch: Choice, ids: seq<nat>, o: nat)
    requires HolderOk(cfg, sh, cl) && cl == Client(InWorker(RereadRows(ids)), Direct)
    ensures RowStep(cfg, sh, cl, ch, RereadRowsTx(sh, cl, ch, ids), o)
  {
    if Reordered(ids, ch.batch) {
      hide ReadRows, Shown, Settles;
      ReadRowsAll(sh.tables, ch.batch);
      ReadRowsShow(sh.tables, ch.batch, o);
      assert Ids(ReadRows(sh.tables, ch.batch)) == ch.batch;
    } else {
      hide Reordered, RowStep, Shown;
      Keeps(cfg, sh, cl, ch, Outcome(sh, cl), o);
    }
  }

  lemma LoopRow(cfg: Config, sh: Shared, cl: Client, ch: Choice, rs: seq<Claimed>, o: nat)
    requires HolderOk(cfg, sh, cl) && cl == Client(InWorker(Loop(rs)), Direct)
    ensures RowStep(cfg, sh, cl, ch, LoopTx(sh, cl, rs), o)
  {
    hide Distinct, RowStep, Shown, Backoff;
    assert rs != [] ==> [rs[0]] + rs[1..] == rs;
    Keeps(cfg, sh, cl, ch, LoopTx(sh, cl, rs), o);
  }

  lemma IdsCons(r: Claimed, rest: seq<Claimed>)
    ensures Ids([r] + rest) == [r.id] + Ids(rest)
  {
  }

  lemma DistinctCons(id: nat, ids: seq<nat>)
    requires Distinct([id] + ids)
    ensures Distinct(ids) && id !in ids
  {
    var all := [id] + ids;
    assert forall i :: 0 <= i < |ids| ==> ids[i] == all[i + 1];
    assert all[0] == id;
  }

  lemma ShownCons(r: Claimed, rest: seq<Claimed>, o: nat)
    ensures Shown([r] + rest, o) == if r.id == o then Some(r.row.attempts) else Shown(rest, o)
  {
    assert ([r] + rest)[1..] == rest;
  }

  lemma {:induction false} ShownNone(rs: seq<Claimed>, o: nat)
    requires o !in Ids(rs)
    ensures Shown(rs, o) == None
  {
    if rs != [] {
      assert rs == [rs[0]] + rs[1..];
      IdsCons(rs[0], rs[1..]);
      ShownNone(rs[1..], o);
    }
  }

  /** Settling the first held row leaves the others held. */
  lemma SettleRows(cfg: Config, sh: Shared, cl: Client, ch: Choice, r: Claimed, rest: seq<Claimed>,
                   status: OutboxStatus, at: int, o: nat)
    requires HolderOk(cfg, sh, cl) && cl.frame.Direct? && Records(cl) == [r] + rest && Held(cl) == Ids([r] + rest)
    requires !Rereading(cl) && !Claims(cl.pc)
    requires status == Delivered || status == Quarantined
             || (status == Retry && r.row.attempts < cfg.maxAttempts && at <= sh.now + Backoff(r.row.attempts))
    ensures SettleRow(sh.tables, r.id, status, at).Some?
    ensures var t' := SettleRow(sh.tables, r.id, status, at).value;
            RowStep(cfg, sh, cl, ch, Outcome(sh.(tables := t'), Client(InWorker(Loop(rest)), Direct)), o)
  {
    hide Ids, Distinct, Shown, Backoff;
    IdsCons(r, rest);
    DistinctCons(r.id, Ids(rest));
    ShownCons(r, rest, o);
    if r.id == o { ShownNone(rest, o); }
    assert r.id in Held(cl);
  }

  lemma WorkerRow(cfg: Config, sh: Shared, cl: Client, ch: Choice, o: nat)
    requires HolderOk(cfg, sh, cl) && cl.pc.InWorker? && cl.frame.Direct?
    ensures RowStep(cfg, sh, cl, ch, StepWorker(cfg, sh, cl, ch), o)
  {
    hide Distinct, RowStep, ClaimRowsTx, RereadRowsTx, LoopTx, SettleRow, Backoff, Shown;
    match cl.pc.worker
    case ClaimRows(limit) => ClaimRowsRow(cfg, sh, cl, ch, limit, o);
    case RereadRows(ids) => RereadRow(cfg, sh, cl, ch, ids, o);
    case Loop(rs) => LoopRow(cfg, sh, cl, ch, rs, o);
    case Complete(r, rest) => SettleRows(cfg, sh, cl, ch, r, rest, Delivered, sh.now, o);
    case Fail(r, rest, q, at) =>
      var status := if q then Quarantined else Retry;
      SettleRows(cfg, sh, cl, ch, r, rest, status, if at.Some? then at.value else sh.now, o);
  }

  // ---- Any step ----

  lemma ClientRow(cfg: Config, sh: Shared, cl: Client, ch: Choice, o: nat)
    requires HolderOk(cfg, sh, cl) && FrameOk(sh.tables, cl)
    ensures RowStep(cfg, sh, cl, ch, ClientStep(cfg, sh, cl, ch), o)
  {
    hide HolderOk, RowStep, StepSubmit, StepAuthorize, StepAction, StepBridge, StepWorker;
    hide Carries, Describes, ClaimOk, ClaimsOk;
    match cl.pc
    case InSubmit(_, _) =>
      SubmitWrites(cfg, sh, cl, ch);
      SubmitIdle(cfg, sh, cl, ch);
      IdleKeeps(cfg, sh, cl, ch, StepSubmit(cfg, sh, cl, ch), o);
    case InAuthorize(_, _, s) =>
      if s.Insert? {
        InsertRow(cfg, sh, cl, ch, o);
      } else {
        AuthorizeWrites(cfg, sh, cl, ch);
        AuthorizeIdle(cfg, sh, cl, ch);
        IdleKeeps(cfg, sh, cl, ch, StepAuthorize(cfg, sh, cl, ch), o);
      }
    case InBridge(_, _) =>
      BridgeWrites(cfg, sh, cl, ch);
      BridgeIdle(cfg, sh, cl, ch);
      IdleKeeps(cfg, sh, cl, ch, StepBridge(cfg, sh, cl, ch), o);
    case InAction(_, _) => ActionRow(cfg, sh, cl, ch, o);
    case InWorker(_) => WorkerRow(cfg, sh, cl, ch, o);
    case Done => IdleKeeps(cfg, sh, cl, ch, Outcome(sh, cl), o);
  }

  lemma IdleKeeps(cfg: Config, sh: Shared, cl: Client, ch: Choice, out: Outcome, o: nat)
    requires HolderOk(cfg, sh, cl) && !cl.pc.InWorker? && Idle(out.client)
    requires out.shared.tables.outbox == sh.tables.outbox && out.shared.now == sh.now
    ensures RowStep(cfg, sh, cl, ch, out, o)
  {
    hide HolderOk, RowStep;
    Keeps(cfg, sh, cl, ch, out, o);
  }

  lemma ClockSteady(cfg: Config, sh: Shared, cl: Client, ch: Choice)
    ensures ClientStep(cfg, sh, cl, ch).shared.now == sh.now
  {
    hide StepSubmit, StepAction, StepBridge, StepWorker;
    match cl.pc
    case InSubmit(_, _) => SubmitWrites(cfg, sh, cl, ch);
    case InAuthorize(_, _, s) => if !s.Insert? { AuthorizeWrites(cfg, sh, cl, ch); }
    case InAction(_, _) => ActionWrites(cfg, sh, cl, ch);
    case InBridge(_, _) => BridgeWrites(cfg, sh, cl, ch);
    case InWorker(_) => WorkerWrites(cfg, sh, cl, ch);
    case Done =>
  }

  // ---- Attempts count claims ----

  function AttemptsOf(os: map<nat, OutboxRow>, o: nat): nat {
    if o in os then os[o].attempts else 0
  }

  /** The move leases the row. */
  ghost predicate ClaimsRow(w: World, m: Move, o: nat) {
    m.Step? && m.client in w.clients && Claiming(w.shared, w.clients[m.client], m.choice, o)
  }

  ghost function ClaimCount(w: World, moves: seq<Move>, o: nat): nat
    decreases |moves|
  {
    if moves == [] then 0
    else (if ClaimsRow(w, moves[0], o) then 1 else 0) + ClaimCount(Apply(w, moves[0]), moves[1..], o)
  }

  lemma WorkerAttempts(cfg: Config, sh: Shared, cl: Client, ch: Choice, o: nat)
    requires cl.pc.InWorker?
    ensures AttemptsOf(StepWorker(cfg, sh, cl, ch).shared.tables.outbox, o)
            == AttemptsOf(sh.tables.outbox, o)
               + if Claims(cl.pc) && o in ch.batch && DueBatch(sh.tables, sh.now, cl.pc.worker.limit, ch.batch)
                 then 1 else 0
  {
    if Claims(cl.pc) {
      hide LeaseRows, DueBatch;
      if DueBatch(sh.tables, sh.now, cl.pc.worker.limit, ch.batch) {
        LeaseAttempts(sh, cl.pc.worker.limit, ch.batch, sh.now + cfg.leaseSeconds, o);
      }
    } else {
      hide StepWorker, DueBatch;
      WorkerSettles(cfg, sh, cl, ch);
    }
  }

  lemma LeaseAttempts(sh: Shared, limit: nat, ids: seq<nat>, until: int, o: nat)
    requires DueBatch(sh.tables, sh.now, limit, ids)
    ensures AttemptsOf(LeaseRows(sh.tables.outbox, ids, until), o)
            == AttemptsOf(sh.tables.outbox, o) + if o in ids then 1 else 0
  {
    hide LeaseRows, Due;
    LeaseRowsAt(sh.tables.outbox, ids, until);
  }

  lemma StepAttempts(cfg: Config, sh: Shared, cl: Client, ch: Choice, o: nat)
    requires !cl.pc.InWorker?
    ensures AttemptsOf(ClientStep(cfg, sh, cl, ch).shared.tables.outbox, o) == AttemptsOf(sh.tables.outbox, o)
  {
    hide StepSubmit, StepAction, StepBridge, StepWorker;
    match cl.pc
    case InSubmit(_, _) => SubmitWrites(cfg, sh, cl, ch);
    case InAuthorize(_, _, s) => if !s.Insert? { AuthorizeWrites(cfg, sh, cl, ch); }
    case InAction(_, _) => ActionWrites(cfg, sh, cl, ch);
    case InBridge(_, _) => BridgeWrites(cfg, sh, cl, ch);
    case Done =>
  }

  lemma MoveAttempts(w: World, m: Move, o: nat)
    ensures AttemptsOf(Apply(w, m).shared.tables.outbox, o)
            == AttemptsOf(w.shared.tables.outbox, o) + if ClaimsRow(w, m, o) then 1 else 0
  {
    hide StepSubmit, StepAuthorize, StepAction, StepBridge, StepWorker, DueBatch;
    if m.Step? && m.client in w.clients {
      if w.clients[m.client].pc.InWorker? {
        WorkerAttempts(w.cfg, w.shared, w.clients[m.client], m.choice, o);
      } else {
        StepAttempts(w.cfg, w.shared, w.clients[m.client], m.choice, o);
      }
    }
  }

  /** The attempts of a row are the number of times it has been claimed. */
  lemma {:induction false} AttemptsCountClaims(w: World, moves: seq<Move>, o: nat)
    ensures AttemptsOf(Run(w, moves).shared.tables.outbox, o)
            == AttemptsOf(w.shared.tables.outbox, o) + ClaimCount(w, moves, o)
    decreases |moves|
  {
    hide Apply, ClaimsRow;
    if moves != [] {
      MoveAttempts(w, moves[0], o);
      AttemptsCountClaims(Apply(w, moves[0]), moves[1..], o);
    }
  }
}

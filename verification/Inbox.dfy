/**
  The sequenced conversation inbox: duplicates are dropped, a message that arrives ahead
  of its turn is quarantined until it is delivered again, and only accepted messages reach
  the turn processor.
 */
module Inbox {
  import opened Domain

  datatype Envelope = Envelope(provider: Name, messageId: Name, conversation: Name, sequence: Option<int>, text: Name)

  /** `Parked` is the status quarantined. */
  datatype Ordering = Accepted | Parked

  /** A redelivered message replaces the envelope and the ordering status; the other columns stay. */
  datatype Row = Row(conversation: Name, sequence: Option<int>, envelope: Envelope, ordering: Ordering)

  datatype Verdict = Taken | RepeatedId | RepeatedSequence | Gap(expected: int, received: int)

  /** `accepted` is a history variable: the accepted envelopes in order of acceptance. */
  datatype State = State(rows: map<(Name, Name), Row>, last: map<(Name, Name), int>, accepted: seq<Envelope>)

  const NOTHING := State(map[], map[], [])

  function Id(e: Envelope): (Name, Name) {
    (e.provider, e.messageId)
  }

  function Thread(e: Envelope): (Name, Name) {
    (e.provider, e.conversation)
  }

  function Judge(s: State, e: Envelope): Verdict {
    if Id(e) in s.rows && s.rows[Id(e)].ordering.Accepted? then RepeatedId
    else if e.sequence.None? || Thread(e) !in s.last then Taken
    else if e.sequence.value <= s.last[Thread(e)] then RepeatedSequence
    else if e.sequence.value > s.last[Thread(e)] + 1 then Gap(s.last[Thread(e)] + 1, e.sequence.value)
    else Taken
  }

  function File(rows: map<(Name, Name), Row>, e: Envelope, ordering: Ordering): map<(Name, Name), Row> {
    rows[Id(e) := if Id(e) in rows then rows[Id(e)].(envelope := e, ordering := ordering)
                  else Row(e.conversation, e.sequence, e, ordering)]
  }

  function Accept(s: State, e: Envelope): State {
    match Judge(s, e)
    case Taken =>
      State(File(s.rows, e, Accepted), if e.sequence.Some? then s.last[Thread(e) := e.sequence.value] else s.last,
            s.accepted + [e])
    case Gap(_, _) => s.(rows := File(s.rows, e, Parked))
    case _ => s
  }

  function Deliver(s: State, batch: seq<Envelope>): State
    decreases |batch|
  {
    if batch == [] then s else Deliver(Accept(s, batch[0]), batch[1..])
  }

  // ---- Gap-free and at most once, for every delivery ----

  /** The sequence numbers accepted in one thread, in order of acceptance. */
  function Numbers(accepted: seq<Envelope>, thread: (Name, Name)): seq<int> {
    if accepted == [] then []
    else
      var rest, e := Numbers(accepted[..|accepted| - 1], thread), accepted[|accepted| - 1];
      if Thread(e) == thread && e.sequence.Some? then rest + [e.sequence.value] else rest
  }

  predicate GapFree(numbers: seq<int>) {
    forall i :: 0 <= i < |numbers| ==> numbers[i] == numbers[0] + i
  }

  ghost predicate ThreadOk(s: State, thread: (Name, Name)) {
    var numbers := Numbers(s.accepted, thread);
    && GapFree(numbers)
    && (thread in s.last <==> numbers != [])
    && (thread in s.last ==> numbers[|numbers| - 1] == s.last[thread])
  }

  ghost predicate IdsOk(s: State) {
    && (forall i, j :: 0 <= i < j < |s.accepted| ==> Id(s.accepted[i]) != Id(s.accepted[j]))
    && (forall i :: 0 <= i < |s.accepted| ==>
         Id(s.accepted[i]) in s.rows && s.rows[Id(s.accepted[i])].ordering.Accepted?)
    && (forall k :: k in s.rows && s.rows[k].ordering.Accepted? ==> Known(s.accepted, k))
  }

  /** A message with this id has been accepted. */
  ghost predicate Known(accepted: seq<Envelope>, id: (Name, Name)) {
    exists i :: 0 <= i < |accepted| && Id(accepted[i]) == id
  }

  lemma NumbersAppend(accepted: seq<Envelope>, e: Envelope, thread: (Name, Name))
    ensures Numbers(accepted + [e], thread) ==
            if Thread(e) == thread && e.sequence.Some? then Numbers(accepted, thread) + [e.sequence.value]
            else Numbers(accepted, thread)
  {
    assert (accepted + [e])[..|accepted|] == accepted;
  }

  lemma AcceptKeepsThread(s: State, e: Envelope, thread: (Name, Name))
    requires ThreadOk(s, thread)
    ensures ThreadOk(Accept(s, e), thread)
  {
    hide Numbers;
    NumbersAppend(s.accepted, e, thread);
  }

  lemma TakenAppend(accepted: seq<Envelope>, e: Envelope)
    ensures forall k :: Known(accepted + [e], k) <==> Known(accepted, k) || k == Id(e)
  {
    forall k | Known(accepted, k) || k == Id(e) ensures Known(accepted + [e], k) {
      var i :| 0 <= i <= |accepted| && Id((accepted + [e])[i]) == k by {
        if k == Id(e) {
          assert (accepted + [e])[|accepted|] == e;
        } else {
          var j :| 0 <= j < |accepted| && Id(accepted[j]) == k;
          assert (accepted + [e])[j] == accepted[j];
        }
      }
    }
  }

  lemma AcceptKeepsIds(s: State, e: Envelope)
    requires IdsOk(s)
    ensures IdsOk(Accept(s, e))
  {
    TakenAppend(s.accepted, e);
  }

  lemma {:induction false} DeliverKeeps(s: State, batch: seq<Envelope>, thread: (Name, Name))
    requires ThreadOk(s, thread) && IdsOk(s)
    ensures ThreadOk(Deliver(s, batch), thread) && IdsOk(Deliver(s, batch))
    decreases |batch|
  {
    hide ThreadOk, IdsOk, Accept;
    if batch != [] {
      AcceptKeepsThread(s, batch[0], thread);
      AcceptKeepsIds(s, batch[0]);
      DeliverKeeps(Accept(s, batch[0]), batch[1..], thread);
    }
  }

  /** In every thread the accepted numbers are a gap-free increasing run that ends at `last_sequence`. */
  lemma AcceptedIsGapFree(batch: seq<Envelope>, thread: (Name, Name))
    ensures var s := Deliver(NOTHING, batch);
            var numbers := Numbers(s.accepted, thread);
            && (forall i :: 0 <= i < |numbers| ==> numbers[i] == numbers[0] + i)
            && (thread in s.last <==> numbers != [])
            && (thread in s.last ==> numbers[|numbers| - 1] == s.last[thread])
  {
    hide Deliver, Numbers;
    assert Numbers([], thread) == [] by { NumbersEmpty(thread); }
    DeliverKeeps(NOTHING, batch, thread);
  }

  lemma NumbersEmpty(thread: (Name, Name))
    ensures Numbers([], thread) == []
  {
  }

  /** No message id of a provider is accepted twice. */
  lemma AcceptedAtMostOnce(batch: seq<Envelope>, i: nat, j: nat)
    requires i < j < |Deliver(NOTHING, batch).accepted|
    ensures Id(Deliver(NOTHING, batch).accepted[i]) != Id(Deliver(NOTHING, batch).accepted[j])
  {
    hide Deliver, Numbers;
    var any := (Name(""), Name(""));
    NumbersEmpty(any);
    DeliverKeeps(NOTHING, batch, any);
  }

  // ---- What is accepted, in terms of the history ----

  /** The number of the latest message accepted in a thread. */
  function LastNumber(accepted: seq<Envelope>, thread: (Name, Name)): Option<int> {
    if accepted == [] then None
    else
      var e := accepted[|accepted| - 1];
      if Thread(e) == thread && e.sequence.Some? then e.sequence else LastNumber(accepted[..|accepted| - 1], thread)
  }

  lemma {:induction false} LastOfNumbers(accepted: seq<Envelope>, thread: (Name, Name))
    ensures var numbers := Numbers(accepted, thread);
            LastNumber(accepted, thread) == if numbers == [] then None else Some(numbers[|numbers| - 1])
  {
    if accepted != [] { LastOfNumbers(accepted[..|accepted| - 1], thread); }
  }

  /** New, and unnumbered, the first numbered one of its thread, or the successor of the last one accepted there. */
  ghost predicate IsNext(accepted: seq<Envelope>, e: Envelope) {
    && !Known(accepted, Id(e))
    && (e.sequence.None? || LastNumber(accepted, Thread(e)).None?
        || e.sequence.value == LastNumber(accepted, Thread(e)).value + 1)
  }

  /** New, but with numbers missing before it. */
  ghost predicate IsAhead(accepted: seq<Envelope>, e: Envelope) {
    && !Known(accepted, Id(e)) && e.sequence.Some? && LastNumber(accepted, Thread(e)).Some?
    && e.sequence.value > LastNumber(accepted, Thread(e)).value + 1
  }

  /** New by its id, but its number has been passed. */
  ghost predicate IsPassed(accepted: seq<Envelope>, e: Envelope) {
    && !Known(accepted, Id(e)) && e.sequence.Some? && LastNumber(accepted, Thread(e)).Some?
    && e.sequence.value <= LastNumber(accepted, Thread(e)).value
  }

  function LastOr(accepted: seq<Envelope>, thread: (Name, Name), none: int): int {
    if LastNumber(accepted, thread).Some? then LastNumber(accepted, thread).value else none
  }

  /** What the tables know of the history, for every thread. */
  ghost predicate HistoryOk(s: State) {
    IdsOk(s) && forall thread :: ThreadOk(s, thread)
  }

  lemma AcceptKeepsHistory(s: State, e: Envelope)
    requires HistoryOk(s)
    ensures HistoryOk(Accept(s, e))
  {
    hide IdsOk, ThreadOk, Accept;
    AcceptKeepsIds(s, e);
    forall thread ensures ThreadOk(Accept(s, e), thread) { AcceptKeepsThread(s, e, thread); }
  }

  lemma {:induction false} DeliverKeepsHistory(s: State, batch: seq<Envelope>)
    requires HistoryOk(s)
    ensures HistoryOk(Deliver(s, batch))
    decreases |batch|
  {
    hide HistoryOk, Accept;
    if batch != [] {
      AcceptKeepsHistory(s, batch[0]);
      DeliverKeepsHistory(Accept(s, batch[0]), batch[1..]);
    }
  }

  lemma NothingIsHistory()
    ensures HistoryOk(NOTHING)
  {
    forall thread ensures ThreadOk(NOTHING, thread) { NumbersEmpty(thread); }
  }

  lemma LastIsStored(s: State, thread: (Name, Name))
    requires HistoryOk(s)
    ensures LastNumber(s.accepted, thread) == if thread in s.last then Some(s.last[thread]) else None
  {
    hide IdsOk, Numbers, LastNumber;
    LastOfNumbers(s.accepted, thread);
    assert ThreadOk(s, thread);
  }

  lemma KnownIsStored(s: State, id: (Name, Name))
    requires HistoryOk(s)
    ensures Known(s.accepted, id) <==> id in s.rows && s.rows[id].ordering.Accepted?
  {
    hide ThreadOk;
  }

  /** The verdict, case by case, from the history alone. */
  lemma VerdictFromHistory(s: State, e: Envelope)
    requires HistoryOk(s)
    ensures Judge(s, e).Taken? <==> IsNext(s.accepted, e)
    ensures Judge(s, e).RepeatedId? <==> Known(s.accepted, Id(e))
    ensures Judge(s, e).RepeatedSequence? <==> IsPassed(s.accepted, e)
    ensures Judge(s, e).Gap? <==> IsAhead(s.accepted, e)
    ensures IsAhead(s.accepted, e) ==>
              Judge(s, e) == Gap(LastNumber(s.accepted, Thread(e)).value + 1, e.sequence.value)
  {
    hide HistoryOk, LastNumber, Known;
    LastIsStored(s, Thread(e));
    KnownIsStored(s, Id(e));
  }

  /**
    After any deliveries, a message is accepted exactly when it is next, parked exactly when
    it is ahead, and otherwise changes nothing at all.
   */
  lemma AcceptanceIsExact(batch: seq<Envelope>, e: Envelope)
    ensures var s, s' := Deliver(NOTHING, batch), Accept(Deliver(NOTHING, batch), e);
            && (IsNext(s.accepted, e) ==>
                 && s'.accepted == s.accepted + [e]
                 && Id(e) in s'.rows && s'.rows[Id(e)].ordering == Accepted && s'.rows[Id(e)].envelope == e
                 && (e.sequence.Some? ==> Thread(e) in s'.last && s'.last[Thread(e)] == e.sequence.value))
            && (IsAhead(s.accepted, e) ==>
                 && s'.accepted == s.accepted && s'.last == s.last
                 && Id(e) in s'.rows && s'.rows[Id(e)].ordering == Parked && s'.rows[Id(e)].envelope == e
                 && forall k :: k != Id(e) ==>
                     (k in s'.rows <==> k in s.rows) && (k in s.rows ==> s'.rows[k] == s.rows[k]))
            && (!IsNext(s.accepted, e) && !IsAhead(s.accepted, e) ==> s' == s)
  {
    hide HistoryOk, Deliver, IsNext, IsAhead, IsPassed, Judge;
    NothingIsHistory();
    DeliverKeepsHistory(NOTHING, batch);
    VerdictFromHistory(Deliver(NOTHING, batch), e);
  }

  // ---- Convergence under redelivery ----

  /** Messages k+1, k+2, ... of one thread with distinct ids. */
  ghost predicate Successors(msgs: seq<Envelope>, thread: (Name, Name), k: int) {
    && (forall i :: 0 <= i < |msgs| ==> Thread(msgs[i]) == thread && msgs[i].sequence == Some(k + 1 + i))
    && (forall i, j :: 0 <= i < j < |msgs| ==> Id(msgs[i]) != Id(msgs[j]))
  }

  predicate Done(s: State, e: Envelope) {
    Id(e) in s.rows && s.rows[Id(e)].ordering.Accepted?
  }

  /** Exactly the first `n` of the messages have been accepted. */
  ghost predicate Progress(s: State, msgs: seq<Envelope>, thread: (Name, Name), k: int, n: nat) {
    && n <= |msgs| && thread in s.last && s.last[thread] == k + n
    && (forall i :: 0 <= i < n ==> Done(s, msgs[i]))
    && (forall i :: n <= i < |msgs| ==> !Done(s, msgs[i]))
  }

  /** Delivering message `i` accepts it if it is next and otherwise accepts nothing. */
  lemma DeliverOne(s: State, msgs: seq<Envelope>, thread: (Name, Name), k: int, n: nat, i: nat)
    requires Successors(msgs, thread, k) && Progress(s, msgs, thread, k, n) && i < |msgs|
    ensures Progress(Accept(s, msgs[i]), msgs, thread, k, if i == n then n + 1 else n)
    ensures Accept(s, msgs[i]).accepted == s.accepted + if i == n then [msgs[n]] else []
  {
    var e, s' := msgs[i], Accept(s, msgs[i]);
    assert i < n ==> Done(s, e);
    forall j | 0 <= j < |msgs| && j != i ensures Done(s', msgs[j]) <==> Done(s, msgs[j]) {
      assert Id(msgs[j]) != Id(e);
    }
  }

  /** A batch that brings only these messages. */
  ghost predicate Only(batch: seq<Envelope>, msgs: seq<Envelope>) {
    forall i :: 0 <= i < |batch| ==> batch[i] in msgs
  }

  /** Whatever the order, a batch accepts the next messages in sequence, and at least one if the next is in it. */
  lemma {:induction false} DeliverBatch(s: State, msgs: seq<Envelope>, thread: (Name, Name), k: int, n: nat,
                                        batch: seq<Envelope>) returns (n': nat)
    requires Successors(msgs, thread, k) && Progress(s, msgs, thread, k, n) && Only(batch, msgs)
    ensures n <= n' && Progress(Deliver(s, batch), msgs, thread, k, n')
    ensures Deliver(s, batch).accepted == s.accepted + msgs[n..n']
    ensures n < |msgs| && msgs[n] in batch ==> n < n'
    decreases |batch|
  {
    hide Successors, Progress, Accept, Only, Deliver;
    DeliverHead(s, batch);
    ProgressBound(s, msgs, thread, k, n);
    if batch == [] {
      n' := n;
    } else {
      OnlyTail(batch, msgs);
      var i :| 0 <= i < |msgs| && msgs[i] == batch[0];
      DeliverOne(s, msgs, thread, k, n, i);
      var mid := if i == n then n + 1 else n;
      assert msgs[n..mid] == if i == n then [msgs[n]] else [];
      n' := DeliverBatch(Accept(s, batch[0]), msgs, thread, k, mid, batch[1..]);
      ProgressBound(Deliver(s, batch), msgs, thread, k, n');
      assert msgs[n..n'] == msgs[n..mid] + msgs[mid..n'];
      assert s.accepted + msgs[n..n'] == (s.accepted + msgs[n..mid]) + msgs[mid..n'];
      if n < |msgs| && i != n && msgs[n] in batch {
        if msgs[n] == batch[0] { SameMessage(msgs, thread, k, n, i); }
        StillAhead(batch, msgs[n]);
      }
    }
  }

  lemma DeliverHead(s: State, batch: seq<Envelope>)
    ensures Deliver(s, batch) == if batch == [] then s else Deliver(Accept(s, batch[0]), batch[1..])
  {
  }

  lemma OnlyTail(batch: seq<Envelope>, msgs: seq<Envelope>)
    requires Only(batch, msgs) && batch != []
    ensures batch[0] in msgs && Only(batch[1..], msgs)
  {
  }

  lemma StillAhead(batch: seq<Envelope>, e: Envelope)
    requires batch != [] && e in batch && e != batch[0]
    ensures e in batch[1..]
  {
  }

  lemma ProgressBound(s: State, msgs: seq<Envelope>, thread: (Name, Name), k: int, n: nat)
    requires Progress(s, msgs, thread, k, n)
    ensures n <= |msgs|
  {
  }

  lemma SameMessage(msgs: seq<Envelope>, thread: (Name, Name), k: int, i: nat, j: nat)
    requires Successors(msgs, thread, k) && i < |msgs| && j < |msgs| && msgs[i] == msgs[j]
    ensures i == j
  {
  }

  function DeliverRounds(s: State, rounds: seq<seq<Envelope>>): State
    decreases |rounds|
  {
    if rounds == [] then s else DeliverRounds(Deliver(s, rounds[0]), rounds[1..])
  }

  /** Each round brings every one of the messages, in any order and any number of times, and nothing else. */
  ghost predicate Redelivers(rounds: seq<seq<Envelope>>, msgs: seq<Envelope>) {
    forall r :: 0 <= r < |rounds| ==> Only(rounds[r], msgs) && forall i :: 0 <= i < |msgs| ==> msgs[i] in rounds[r]
  }

  lemma {:induction false} RoundsConverge(s: State, msgs: seq<Envelope>, thread: (Name, Name), k: int, n: nat,
                                          rounds: seq<seq<Envelope>>) returns (n': nat)
    requires Successors(msgs, thread, k) && Progress(s, msgs, thread, k, n) && Redelivers(rounds, msgs)
    ensures n <= n' && Progress(DeliverRounds(s, rounds), msgs, thread, k, n')
    ensures n' == |msgs| || n' >= n + |rounds|
    ensures DeliverRounds(s, rounds).accepted == s.accepted + msgs[n..n']
    decreases |rounds|
  {
    hide Successors, Progress, Deliver;
    ProgressBound(s, msgs, thread, k, n);
    if rounds == [] {
      n' := n;
    } else {
      var mid := DeliverBatch(s, msgs, thread, k, n, rounds[0]);
      ProgressBound(Deliver(s, rounds[0]), msgs, thread, k, mid);
      assert Redelivers(rounds[1..], msgs);
      n' := RoundsConverge(Deliver(s, rounds[0]), msgs, thread, k, mid, rounds[1..]);
      ProgressBound(DeliverRounds(s, rounds), msgs, thread, k, n');
      assert msgs[n..n'] == msgs[n..mid] + msgs[mid..n'];
    }
  }

  /** Baseline `k` is the last accepted number and none of the messages has been accepted under its id. */
  ghost predicate Baseline(s: State, msgs: seq<Envelope>, thread: (Name, Name), k: int) {
    thread in s.last && s.last[thread] == k && forall i :: 0 <= i < |msgs| ==> !Done(s, msgs[i])
  }

  /**
    After as many rounds as there are messages, every one has been accepted exactly once
    and in sequence order, and nothing else has.
   */
  lemma InboxConverges(s: State, msgs: seq<Envelope>, thread: (Name, Name), k: int, rounds: seq<seq<Envelope>>)
    requires Successors(msgs, thread, k) && Baseline(s, msgs, thread, k) && Redelivers(rounds, msgs)
    requires |rounds| >= |msgs|
    ensures DeliverRounds(s, rounds).accepted == s.accepted + msgs
    ensures thread in DeliverRounds(s, rounds).last && DeliverRounds(s, rounds).last[thread] == k + |msgs|
  {
    hide Successors, Redelivers, DeliverRounds;
    var n' := RoundsConverge(s, msgs, thread, k, 0, rounds);
    assert msgs[0..n'] == msgs;
  }

  /** Every round accepts at least one message while any remain. */
  lemma RoundAcceptsOne(s: State, msgs: seq<Envelope>, thread: (Name, Name), k: int, n: nat, round: seq<Envelope>)
    requires Successors(msgs, thread, k) && Progress(s, msgs, thread, k, n) && n < |msgs| && Redelivers([round], msgs)
    ensures |Deliver(s, round).accepted| > |s.accepted|
  {
    hide Successors, Progress, Deliver;
    assert [round][0] == round;
    var n' := DeliverBatch(s, msgs, thread, k, n, round);
    ProgressBound(Deliver(s, round), msgs, thread, k, n');
  }

  // ---- The store's tables and the turn service as objects ----

  class ConversationInbox {
    var rows: map<(Name, Name), Row>
    var last: map<(Name, Name), int>
    ghost var accepted: seq<Envelope>

    ghost function Contents(): State
      reads this
    {
      State(rows, last, accepted)
    }

    ghost predicate Valid()
      reads this
    {
      HistoryOk(Contents())
    }

    constructor ()
      ensures Contents() == NOTHING && Valid()
    {
      rows, last, accepted := map[], map[], [];
      new;
      NothingIsHistory();
    }

    method AcceptMessage(e: Envelope) returns (v: Verdict)
      requires Valid()
      modifies this
      ensures Valid()
      ensures v == Judge(old(Contents()), e) && Contents() == Accept(old(Contents()), e)
      ensures v.Taken? <==> IsNext(old(accepted), e)
      ensures v.RepeatedId? <==> Known(old(accepted), Id(e))
      ensures v.RepeatedSequence? <==> IsPassed(old(accepted), e)
      ensures IsAhead(old(accepted), e) <==>
                e.sequence.Some? && v == Gap(LastOr(old(accepted), Thread(e), 0) + 1, e.sequence.value)
    {
      VerdictFromHistory(Contents(), e);
      AcceptKeepsHistory(Contents(), e);
      hide HistoryOk, IsNext, IsPassed, LastNumber, Known;
      var existing := Id(e) in rows;
      if existing && rows[Id(e)].ordering.Accepted? { return RepeatedId; }
      var ordering := Accepted;
      v := Taken;
      if e.sequence.Some? && Thread(e) in last {
        var seen, sequence := last[Thread(e)], e.sequence.value;
        if sequence <= seen { return RepeatedSequence; }
        if sequence > seen + 1 { ordering, v := Parked, Gap(seen + 1, sequence); }
      }
      if existing {
        rows := rows[Id(e) := rows[Id(e)].(envelope := e, ordering := ordering)];
      } else {
        rows := rows[Id(e) := Row(e.conversation, e.sequence, e, ordering)];
      }
      if ordering.Accepted? {
        if e.sequence.Some? { last := last[Thread(e) := e.sequence.value]; }
        accepted := accepted + [e];
      }
    }
  }

  class ConversationService {
    const inbox: ConversationInbox
    /** The envelopes handed to the turn processor. */
    var turns: seq<Envelope>

    ghost predicate Valid()
      reads this, inbox
    {
      turns == inbox.accepted && inbox.Valid()
    }

    constructor (inbox: ConversationInbox)
      requires inbox.Contents() == NOTHING && inbox.Valid()
      ensures this.inbox == inbox && Valid() && turns == []
    {
      this.inbox := inbox;
      turns := [];
    }

    /** The processor runs exactly when the message is accepted, and never twice for one message id. */
    method ProcessTurn(e: Envelope) returns (v: Verdict)
      requires Valid()
      modifies this, inbox
      ensures Valid()
      ensures v == Judge(old(inbox.Contents()), e) && inbox.Contents() == Accept(old(inbox.Contents()), e)
      ensures turns == old(turns) + if v.Taken? then [e] else []
      ensures forall i, j :: 0 <= i < j < |turns| ==> Id(turns[i]) != Id(turns[j])
    {
      v := inbox.AcceptMessage(e);
      if v.Taken? { turns := turns + [e]; }
    }
  }
}

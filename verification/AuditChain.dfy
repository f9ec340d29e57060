/**
  The audit trail: rows linked by hashes, appended by `write`, checked by `verify_chain`
  and completed once for rows that predate hashing.  SHA-256 over the previous hash and
  the canonical JSON of an entry is an injective constructor.
 */
module AuditChain {
  import opened Domain

  datatype Column =
    | EntryId | Timestamp | ActionColumn | Actor | ResourceType | ResourceId
    | CorrelationId | SessionId | ProcedureId | StepId

  datatype Document = BeforeState | AfterState | Metadata

  /** The keys of an entry: ten scalar columns, three JSON documents, and keys the table has no column for. */
  datatype Field = InColumn(column: Column) | InDocument(document: Document) | Extra(name: Name)

  datatype Json = Null | Scalar(text: Name) | Object(members: Params)

  predicate Truthy(v: Json) {
    match v
    case Null => false
    case Scalar(n) => n.text != ""
    case Object(m) => m != map[]
  }

  type Entry = map<Field, Json>

  datatype Hash = Genesis | Sha(previous: Hash, content: Entry)

  /** `cells` holds the columns that are not NULL, documents parsed. */
  datatype Row = Row(cells: Entry, previous: Option<Hash>, hash: Option<Hash>)

  // ---- Writing ----

  /** Whether the table keeps a key of the entry: scalars unless null, documents unless empty. */
  predicate Kept(f: Field, v: Json) {
    match f
    case InColumn(_) => v != Null
    case InDocument(_) => Truthy(v)
    case Extra(_) => false
  }

  function Stored(e: Entry): Entry {
    e - (set f | f in e && !Kept(f, e[f]))
  }

  /** The hash a new row is linked to. */
  function Head(rows: seq<Row>): Hash {
    if rows == [] || rows[|rows| - 1].hash.None? then Genesis else rows[|rows| - 1].hash.value
  }

  /** The hash covers the whole entry; the row keeps what the table has room for. */
  function Written(rows: seq<Row>, e: Entry): seq<Row> {
    rows + [Row(Stored(e), Some(Head(rows)), Some(Sha(Head(rows), e)))]
  }

  function WriteAll(rows: seq<Row>, entries: seq<Entry>): seq<Row>
    decreases |entries|
  {
    if entries == [] then rows else WriteAll(Written(rows, entries[0]), entries[1..])
  }

  // ---- Verifying ----

  predicate Linked(previous: Hash, row: Row) {
    row.previous == Some(previous) && row.hash == Some(Sha(previous, row.cells))
  }

  /** Every row names the hash before it and carries the hash of its own content. */
  predicate ChainValid(rows: seq<Row>) {
    var n := |rows|;
    n == 0 || (ChainValid(rows[..n - 1]) && Linked(Head(rows[..n - 1]), rows[n - 1]))
  }

  lemma ChainExtend(rows: seq<Row>, row: Row)
    ensures ChainValid(rows + [row]) <==> ChainValid(rows) && Linked(Head(rows), row)
  {
    assert (rows + [row])[..|rows|] == rows;
  }

  lemma {:induction false} PrefixValid(rows: seq<Row>, n: nat)
    requires ChainValid(rows) && n <= |rows|
    ensures ChainValid(rows[..n])
    decreases |rows|
  {
    if n < |rows| {
      PrefixValid(rows[..|rows| - 1], n);
      assert rows[..|rows| - 1][..n] == rows[..n];
    } else {
      assert rows[..n] == rows;
    }
  }

  // ---- What verifies ----

  /** Every key of the entry survives storage. */
  predicate Faithful(e: Entry) {
    forall f :: f in e ==> Kept(f, e[f])
  }

  lemma StoredFaithful(e: Entry)
    ensures Stored(e) == e <==> Faithful(e)
  {
    if Faithful(e) {
      assert (set f | f in e && !Kept(f, e[f])) == {};
    } else {
      var f :| f in e && !Kept(f, e[f]);
      assert f !in Stored(e);
    }
  }

  /**
    A write keeps a valid chain valid exactly when the entry has no null scalar, no empty document
    and no extra key.
   */
  lemma WriteVerifies(rows: seq<Row>, e: Entry)
    requires ChainValid(rows)
    ensures ChainValid(Written(rows, e)) <==> Faithful(e)
  {
    hide Faithful, Stored, Head;
    var row := Row(Stored(e), Some(Head(rows)), Some(Sha(Head(rows), e)));
    ChainExtend(rows, row);
    StoredFaithful(e);
  }

  lemma {:induction false} WritesVerify(rows: seq<Row>, entries: seq<Entry>)
    requires ChainValid(rows) && forall i :: 0 <= i < |entries| ==> Faithful(entries[i])
    ensures ChainValid(WriteAll(rows, entries)) && |WriteAll(rows, entries)| == |rows| + |entries|
    decreases |entries|
  {
    hide Faithful, ChainValid;
    if entries != [] {
      WriteVerifies(rows, entries[0]);
      WritesVerify(Written(rows, entries[0]), entries[1..]);
    }
  }

  /** An extra key is hashed but not stored, so the row it leaves does not verify. */
  lemma ExtraKeyBreaksTheChain()
    ensures !ChainValid(Written([], map[Extra(Name("note")) := Scalar(Name("text"))]))
  {
    var e: Entry := map[Extra(Name("note")) := Scalar(Name("text"))];
    WriteVerifies([], e);
    assert Extra(Name("note")) in e && !Kept(Extra(Name("note")), e[Extra(Name("note"))]);
  }

  // ---- Audit entries ----

  /** An entry as the audit logger builds it; absent and empty optional fields look alike. */
  datatype AuditEntry = AuditEntry(
    entryId: Name, timestamp: Name, action: Name, actor: Name, resourceType: Name, resourceId: Name,
    correlationId: Option<Name>, sessionId: Option<Name>, procedureId: Option<Name>, stepId: Option<Name>,
    before: Params, after: Params, metadata: Params)

  function WithText(e: Entry, column: Column, text: Option<Name>): Entry {
    if text.Some? && text.value.text != "" then e[InColumn(column) := Scalar(text.value)] else e
  }

  function WithDocument(e: Entry, document: Document, members: Params): Entry {
    if members != map[] then e[InDocument(document) := Object(members)] else e
  }

  function Always(a: AuditEntry): Entry {
    map[InColumn(EntryId) := Scalar(a.entryId), InColumn(Timestamp) := Scalar(a.timestamp),
        InColumn(ActionColumn) := Scalar(a.action), InColumn(Actor) := Scalar(a.actor),
        InColumn(ResourceType) := Scalar(a.resourceType), InColumn(ResourceId) := Scalar(a.resourceId)]
  }

  function WithTexts(a: AuditEntry): Entry {
    var correlated := WithText(Always(a), CorrelationId, a.correlationId);
    var inSession := WithText(correlated, SessionId, a.sessionId);
    WithText(WithText(inSession, ProcedureId, a.procedureId), StepId, a.stepId)
  }

  function ToDict(a: AuditEntry): Entry {
    var changed := WithDocument(WithDocument(WithTexts(a), BeforeState, a.before), AfterState, a.after);
    WithDocument(changed, Metadata, a.metadata)
  }

  lemma ToDictFaithful(a: AuditEntry)
    ensures Faithful(ToDict(a))
  {
    hide WithTexts, WithDocument, Faithful;
    TextsFaithful(a);
    var e := WithTexts(a);
    WithDocumentFaithful(e, BeforeState, a.before);
    WithDocumentFaithful(WithDocument(e, BeforeState, a.before), AfterState, a.after);
    WithDocumentFaithful(WithDocument(WithDocument(e, BeforeState, a.before), AfterState, a.after), Metadata,
                         a.metadata);
  }

  lemma TextsFaithful(a: AuditEntry)
    ensures Faithful(WithTexts(a))
  {
  }

  lemma WithDocumentFaithful(e: Entry, document: Document, members: Params)
    requires Faithful(e)
    ensures Faithful(WithDocument(e, document, members))
  {
  }

  function ToDicts(entries: seq<AuditEntry>): (ds: seq<Entry>)
    ensures |ds| == |entries| && forall i :: 0 <= i < |ds| ==> ds[i] == ToDict(entries[i])
  {
    seq(|entries|, i requires 0 <= i < |entries| => ToDict(entries[i]))
  }

  /** Any sequence of logged entries verifies, all rows checked. */
  lemma LoggedEntriesVerify(entries: seq<AuditEntry>)
    ensures ChainValid(WriteAll([], ToDicts(entries))) && |WriteAll([], ToDicts(entries))| == |entries|
  {
    hide ToDict, WriteAll, Faithful;
    var ds := ToDicts(entries);
    forall i | 0 <= i < |ds| ensures Faithful(ds[i]) {
      ToDictFaithful(entries[i]);
    }
    WritesVerify([], ds);
  }

  // ---- What a logged row says ----

  function OptionalText(text: Option<Name>): Option<Json> {
    match text
    case None => None
    case Some(n) => if n.text == "" then None else Some(Scalar(n))
  }

  function OptionalDocument(members: Params): Option<Json> {
    if members == map[] then None else Some(Object(members))
  }

  /** What an entry says in each column and document. */
  function Says(a: AuditEntry, f: Field): Option<Json> {
    match f
    case InColumn(EntryId) => Some(Scalar(a.entryId))
    case InColumn(Timestamp) => Some(Scalar(a.timestamp))
    case InColumn(ActionColumn) => Some(Scalar(a.action))
    case InColumn(Actor) => Some(Scalar(a.actor))
    case InColumn(ResourceType) => Some(Scalar(a.resourceType))
    case InColumn(ResourceId) => Some(Scalar(a.resourceId))
    case InColumn(CorrelationId) => OptionalText(a.correlationId)
    case InColumn(SessionId) => OptionalText(a.sessionId)
    case InColumn(ProcedureId) => OptionalText(a.procedureId)
    case InColumn(StepId) => OptionalText(a.stepId)
    case InDocument(BeforeState) => OptionalDocument(a.before)
    case InDocument(AfterState) => OptionalDocument(a.after)
    case InDocument(Metadata) => OptionalDocument(a.metadata)
    case Extra(_) => None
  }

  /** What the cells hold under a field. */
  function Cell(cells: Entry, f: Field): Option<Json> {
    if f in cells then Some(cells[f]) else None
  }

  /** The cells hold what the entry says, no more and no less. */
  ghost predicate Tells(cells: Entry, a: AuditEntry) {
    forall f :: Cell(cells, f) == Says(a, f)
  }

  lemma TextCell(e: Entry, column: Column, text: Option<Name>, f: Field)
    ensures Cell(WithText(e, column, text), f)
            == if f == InColumn(column) && OptionalText(text).Some? then OptionalText(text) else Cell(e, f)
  {
  }

  lemma DocumentCell(e: Entry, document: Document, members: Params, f: Field)
    ensures Cell(WithDocument(e, document, members), f)
            == if f == InDocument(document) && members != map[] then Some(Object(members)) else Cell(e, f)
  {
  }

  lemma TextsTell(a: AuditEntry, f: Field)
    ensures Cell(WithTexts(a), f) == if f.InColumn? then Says(a, f) else None
  {
    hide WithText;
    var e1 := WithText(Always(a), CorrelationId, a.correlationId);
    var e2 := WithText(e1, SessionId, a.sessionId);
    var e3 := WithText(e2, ProcedureId, a.procedureId);
    TextCell(Always(a), CorrelationId, a.correlationId, f);
    TextCell(e1, SessionId, a.sessionId, f);
    TextCell(e2, ProcedureId, a.procedureId, f);
    TextCell(e3, StepId, a.stepId, f);
  }

  lemma ToDictTells(a: AuditEntry)
    ensures Tells(ToDict(a), a)
  {
    hide WithTexts, WithDocument;
    forall f ensures Cell(ToDict(a), f) == Says(a, f) {
      var e1 := WithDocument(WithTexts(a), BeforeState, a.before);
      var e2 := WithDocument(e1, AfterState, a.after);
      TextsTell(a, f);
      DocumentCell(WithTexts(a), BeforeState, a.before, f);
      DocumentCell(e1, AfterState, a.after, f);
      DocumentCell(e2, Metadata, a.metadata, f);
    }
  }

  lemma {:induction false} WritesKeepRows(rows: seq<Row>, entries: seq<Entry>, i: nat)
    requires i < |rows| + |entries|
    ensures |WriteAll(rows, entries)| == |rows| + |entries|
    ensures WriteAll(rows, entries)[i].cells == if i < |rows| then rows[i].cells else Stored(entries[i - |rows|])
    decreases |entries|
  {
    hide Stored, Head;
    if entries != [] { WritesKeepRows(Written(rows, entries[0]), entries[1..], i); }
  }

  /** Each logged entry is stored in its place, and its row tells all that the entry says. */
  lemma LoggedEntriesAreTold(entries: seq<AuditEntry>, i: nat)
    requires i < |entries|
    ensures |WriteAll([], ToDicts(entries))| == |entries|
    ensures Tells(WriteAll([], ToDicts(entries))[i].cells, entries[i])
  {
    hide ToDict, WriteAll, Faithful, Stored, Tells;
    var ds := ToDicts(entries);
    WritesKeepRows([], ds, i);
    ToDictFaithful(entries[i]);
    StoredFaithful(ds[i]);
    ToDictTells(entries[i]);
  }

  // ---- The head hash determines the trail ----

  /** Two valid chains with the same head hash are the same trail. */
  lemma {:induction false} HeadDeterminesTrail(a: seq<Row>, b: seq<Row>)
    requires ChainValid(a) && ChainValid(b) && Head(a) == Head(b)
    ensures a == b
    decreases |a|
  {
    if a != [] && b != [] {
      var n, m := |a| - 1, |b| - 1;
      HeadDeterminesTrail(a[..n], b[..m]);
      assert a == a[..n] + [a[n]] && b == b[..m] + [b[m]];
    }
  }

  /** Changing the content of any row of a valid chain is detected. */
  lemma TamperingIsDetected(rows: seq<Row>, i: nat, cells: Entry)
    requires ChainValid(rows) && i < |rows| && cells != rows[i].cells
    ensures !ChainValid(rows[i := rows[i].(cells := cells)])
  {
    HashCoversContent(rows, i);
    if ChainValid(rows[i := rows[i].(cells := cells)]) { HashCoversContent(rows[i := rows[i].(cells := cells)], i); }
  }

  lemma {:induction false} HashCoversContent(rows: seq<Row>, i: nat)
    requires ChainValid(rows) && i < |rows|
    ensures rows[i].hash.Some? && rows[i].hash.value.Sha? && rows[i].hash.value.content == rows[i].cells
    decreases |rows|
  {
    if i < |rows| - 1 { HashCoversContent(rows[..|rows| - 1], i); }
  }

  // ---- Backfill of rows that predate hashing ----

  function Linking(previous: Hash, row: Row): Row {
    row.(previous := Some(previous), hash := Some(Sha(previous, row.cells)))
  }

  function Backfill(rows: seq<Row>): seq<Row> {
    if rows == [] then []
    else
      var done, row := Backfill(rows[..|rows| - 1]), rows[|rows| - 1];
      done + [if row.hash.Some? then row else Linking(Head(done), row)]
  }

  lemma {:induction false} BackfillRow(rows: seq<Row>, i: nat)
    requires i < |rows|
    ensures |Backfill(rows)| == |rows|
    ensures Backfill(rows)[i].cells == rows[i].cells && Backfill(rows)[i].hash.Some?
    ensures rows[i].hash.Some? ==> Backfill(rows)[i] == rows[i]
    decreases |rows|
  {
    if |rows| > 1 { BackfillRow(rows[..|rows| - 1], if i < |rows| - 1 then i else 0); }
  }

  lemma BackfillExtend(rows: seq<Row>, row: Row)
    ensures Backfill(rows + [row])
            == Backfill(rows) + [if row.hash.Some? then row else Linking(Head(Backfill(rows)), row)]
  {
    assert (rows + [row])[..|rows|] == rows;
  }

  lemma BackfillEmpty()
    ensures Backfill([]) == []
  {
  }

  lemma {:induction false} BackfillHashed(rows: seq<Row>)
    requires forall i :: 0 <= i < |rows| ==> rows[i].hash.Some?
    ensures Backfill(rows) == rows
    decreases |rows|
  {
    hide Backfill, Linking, Head;
    if rows == [] {
      BackfillEmpty();
    } else {
      var n := |rows| - 1;
      assert rows == rows[..n] + [rows[n]];
      BackfillHashed(rows[..n]);
      BackfillExtend(rows[..n], rows[n]);
    }
  }

  /** A second backfill changes nothing. */
  lemma {:induction false} BackfillRunsOnce(rows: seq<Row>)
    ensures Backfill(Backfill(rows)) == Backfill(rows)
  {
    hide Backfill;
    if rows == [] {
      BackfillHashed([]);
    } else {
      BackfillRow(rows, 0);
      forall i | 0 <= i < |Backfill(rows)| ensures Backfill(rows)[i].hash.Some? { BackfillRow(rows, i); }
      BackfillHashed(Backfill(rows));
    }
  }

  /** A valid hashed prefix followed by unhashed rows becomes a valid chain over the same contents. */
  lemma {:induction false} BackfillCompletesTheChain(rows: seq<Row>, n: nat)
    requires n <= |rows| && ChainValid(rows[..n]) && forall i :: n <= i < |rows| ==> rows[i].hash.None?
    ensures ChainValid(Backfill(rows)) && |Backfill(rows)| == |rows|
    ensures Backfill(rows)[..n] == rows[..n]
    decreases |rows|
  {
    if n == |rows| {
      assert rows[..n] == rows;
      forall i | 0 <= i < n ensures rows[i].hash.Some? { HashCoversContent(rows, i); }
      BackfillHashed(rows);
    } else {
      var m := |rows| - 1;
      assert rows[..m][..n] == rows[..n];
      BackfillCompletesTheChain(rows[..m], n);
      var done := Backfill(rows[..m]);
      ChainExtend(done, Linking(Head(done), rows[m]));
      assert (done + [Linking(Head(done), rows[m])])[..n] == done[..n];
    }
  }

  // ---- The table as an object ----

  class AuditTrail {
    var rows: seq<Row>

    constructor ()
      ensures rows == []
    {
      rows := [];
    }

    method Write(e: Entry)
      modifies this
      ensures rows == Written(old(rows), e)
    {
      var previous := Genesis;
      if rows != [] && rows[|rows| - 1].hash.Some? { previous := rows[|rows| - 1].hash.value; }
      rows := rows + [Row(Stored(e), Some(previous), Some(Sha(previous, e)))];
    }

    /** Valid exactly when the chain is; otherwise `checked` counts the rows of its longest valid prefix. */
    method VerifyChain() returns (valid: bool, checked: nat, head: Hash)
      ensures valid <==> ChainValid(rows)
      ensures checked <= |rows| && ChainValid(rows[..checked])
      ensures valid ==> checked == |rows| && head == Head(rows)
      ensures !valid ==> checked < |rows| && !ChainValid(rows[..checked + 1])
    {
      var previous, i := Genesis, 0;
      while i < |rows|
        invariant 0 <= i <= |rows| && ChainValid(rows[..i]) && previous == Head(rows[..i])
      {
        var row := rows[i];
        var expected := Sha(previous, row.cells);
        assert rows[..i + 1] == rows[..i] + [row];
        ChainExtend(rows[..i], row);
        if row.previous != Some(previous) || row.hash != Some(expected) {
          if ChainValid(rows) { PrefixValid(rows, i + 1); }
          return false, i, previous;
        }
        previous := expected;
        i := i + 1;
      }
      assert rows[..i] == rows;
      return true, |rows|, previous;
    }

    method BackfillHashes()
      modifies this
      ensures rows == Backfill(old(rows))
    {
      hide Backfill;
      var previous, i := Genesis, 0;
      BackfillEmpty();
      assert rows[..0] == [];
      while i < |rows|
        invariant 0 <= i <= |rows| == |old(rows)|
        invariant rows == Backfill(old(rows)[..i]) + old(rows)[i..]
        invariant |Backfill(old(rows)[..i])| == i && previous == Head(Backfill(old(rows)[..i]))
      {
        ghost var before := old(rows)[..i];
        assert old(rows)[..i + 1] == before + [old(rows)[i]];
        BackfillExtend(before, old(rows)[i]);
        assert rows[i] == old(rows)[i];
        if rows[i].hash.Some? {
          previous := rows[i].hash.value;
        } else {
          var hash := Sha(previous, rows[i].cells);
          rows := rows[i := rows[i].(previous := Some(previous), hash := Some(hash))];
          previous := hash;
        }
        i := i + 1;
      }
      assert old(rows)[..i] == old(rows);
    }
  }
}

/**
  Signed policy packages, the rows of the policy repository, the in-process registry,
  and the calls of the policy service as transitions between their joint states.
  HMAC over the canonical payload is an injective constructor.
 */
module Policy {
  import opened Domain

  // ---- Signatures ----

  datatype Signer = Signer(key: Name, keyId: Name, verificationKeys: map<Name, Name>)

  function MakeSigner(key: Name, keyId: Name, verificationKeys: map<Name, Name>): Option<Signer> {
    if |key.text| < 8 then None else Some(Signer(key, keyId, verificationKeys[keyId := key]))
  }

  /** A signer as its constructor leaves it: it verifies what it signs. */
  predicate SignerOk(s: Signer) {
    s.keyId in s.verificationKeys && s.verificationKeys[s.keyId] == s.key
  }

  function Sign(s: Signer, body: Body): Signature {
    Hmac(s.key, body)
  }

  predicate Verify(s: Signer, p: Package) {
    && p.signature.Some? && !p.body.lifecycle.Draft?
    && p.body.signingKeyId.Some? && p.body.signingKeyId.value in s.verificationKeys
    && p.signature.value == Hmac(s.verificationKeys[p.body.signingKeyId.value], p.body)
  }

  function ApprovePackage(s: Signer, p: Package, approver: Name): Option<Package> {
    if approver == p.body.author then None
    else
      var body := p.body.(approver := Some(approver), lifecycle := Approved, signingKeyId := Some(s.keyId));
      Some(p.(body := body, signature := Some(Sign(s, body))))
  }

  function ActivatePackage(s: Signer, p: Package): Option<Package> {
    if !p.body.lifecycle.Approved? || !Verify(s, p) then None
    else
      var body := p.body.(lifecycle := Active, signingKeyId := Some(s.keyId));
      Some(Package(body, Some(Sign(s, body)), Some(Sign(s, body))))
  }

  function RetirePackage(s: Signer, p: Package): Option<Package> {
    if !p.body.lifecycle.Active? || !Verify(s, p) then None
    else
      var body := p.body.(lifecycle := Retired, signingKeyId := Some(s.keyId));
      Some(p.(body := body, signature := Some(Sign(s, body))))
  }

  /**
    A signer can be made from any key of eight characters or more, and whatever other keys
    it is given it verifies every package it approves, activates or retires itself.
   */
  lemma MadeSignerVerifies(key: Name, keyId: Name, verificationKeys: map<Name, Name>, p: Package, approver: Name)
    ensures MakeSigner(key, keyId, verificationKeys).Some? <==> |key.text| >= 8
    ensures MakeSigner(key, keyId, verificationKeys).Some? ==>
              var s := MakeSigner(key, keyId, verificationKeys).value;
              && SignerOk(s)
              && (approver != p.body.author ==>
                   var approved := ApprovePackage(s, p, approver);
                   && approved.Some? && Verify(s, approved.value)
                   && var active := ActivatePackage(s, approved.value);
                      && active.Some? && Verify(s, active.value)
                      && var retired := RetirePackage(s, active.value);
                         retired.Some? && Verify(s, retired.value)
                         && retired.value.activationSignature == active.value.signature)
  {
  }

  // ---- Repository rows ----

  /** The columns the uniqueness index reads, and the package stored as JSON. */
  datatype Row = Row(procedureId: Name, jurisdiction: Name, lifecycle: Lifecycle, package: Package)

  type Rows = map<Name, Row>

  /** The upsert leaves the procedure and jurisdiction columns of an existing row alone. */
  function Upsert(rows: Rows, p: Package): Rows {
    var id := p.body.packageId;
    rows[id := if id in rows then rows[id].(lifecycle := p.body.lifecycle, package := p)
               else Row(p.body.procedureId, p.body.jurisdiction, p.body.lifecycle, p)]
  }

  /** The partial unique index: one active row per procedure and jurisdiction. */
  ghost predicate IndexOk(rows: Rows) {
    forall a, b :: a in rows && b in rows && Clash(rows[a], rows[b]) ==> a == b
  }

  predicate Clash(a: Row, b: Row) {
    a.lifecycle.Active? && b.lifecycle.Active? && a.procedureId == b.procedureId && a.jurisdiction == b.jurisdiction
  }

  // ---- The service ----

  /** `catalog` holds the names of the closed action catalog. */
  datatype State = State(
    catalog: set<ActionName>,
    signer: Signer,
    rows: Rows,
    active: map<Name, Package>,
    packages: map<Name, Package>)

  predicate History(l: Lifecycle) {
    l.Active? || l.Retired?
  }

  predicate DraftOk(s: State, p: Package) {
    && p.body.lifecycle.Draft? && p.body.packageId !in s.rows
    && !p.body.rules.allowed.Malformed?
    && (p.body.rules.allowed.Listed? ==> forall a :: a in p.body.rules.allowed.actions ==> a in s.catalog)
  }

  function LoadHistory(s: State, p: Package): Option<State> {
    if !History(p.body.lifecycle) || !Verify(s.signer, p) then None
    else Some(s.(packages := s.packages[p.body.packageId := p],
                 active := if p.body.lifecycle.Active? then s.active[p.body.packageId := p] else s.active))
  }

  /** The two lookups that decide authorization, backed by the repository. */
  function RequireActive(s: State, id: Name): Option<Package> {
    if id in s.rows && s.rows[id].package.body.lifecycle.Active? && Verify(s.signer, s.rows[id].package)
    then Some(s.rows[id].package) else None
  }

  function RequireSnapshot(s: State, id: Name, signature: Signature): Option<Package> {
    if id in s.rows && History(s.rows[id].package.body.lifecycle) && Verify(s.signer, s.rows[id].package)
       && s.rows[id].package.activationSignature == Some(signature)
    then Some(s.rows[id].package) else None
  }

  /** The same two, answered by the registry alone. */
  function CachedActive(s: State, id: Name): Option<Package> {
    if id in s.active then Some(s.active[id]) else None
  }

  function CachedSnapshot(s: State, id: Name, signature: Signature): Option<Package> {
    if id in s.packages && s.packages[id].activationSignature == Some(signature) && Verify(s.signer, s.packages[id])
    then Some(s.packages[id]) else None
  }

  datatype Call =
    | CreateDraft(package: Package)
    | Approve(id: Name, approver: Name)
    | Activate(id: Name)
    | Retire(id: Name)
    | UseActive(id: Name)
    | UseSnapshot(id: Name, signature: Signature)
    | Restart(signer: Signer)

  function CreateDraftCall(s: State, p: Package): State {
    if DraftOk(s, p) then s.(rows := Upsert(s.rows, p)) else s
  }

  function ApproveCall(s: State, id: Name, approver: Name): State {
    if id in s.rows && s.rows[id].package.body.lifecycle.Draft? then
      match ApprovePackage(s.signer, s.rows[id].package, approver)
      case None => s
      case Some(p) => s.(rows := Upsert(s.rows, p))
    else s
  }

  function RetireCall(s: State, id: Name): State {
    if id !in s.rows then s
    else
      match RetirePackage(s.signer, s.rows[id].package)
      case None => s
      case Some(p) => s.(rows := Upsert(s.rows, p), active := s.active - {id})
  }

  /** The authorization lookups refresh the registry with what they return. */
  function UseCall(s: State, found: Option<Package>): State {
    if found.Some? && LoadHistory(s, found.value).Some? then LoadHistory(s, found.value).value else s
  }

  /** An active package of the same procedure and jurisdiction, to be retired by an activation. */
  predicate Rival(rows: Rows, a: Package, k: Name) {
    && k in rows && rows[k].lifecycle.Active? && k != a.body.packageId
    && rows[k].package.body.procedureId == a.body.procedureId
    && rows[k].package.body.jurisdiction == a.body.jurisdiction
  }

  /** Rivals are retired and the package is activated in one transaction. */
  ghost predicate Replaced(signer: Signer, rows: Rows, a: Package, rows': Rows) {
    && rows'.Keys == rows.Keys + {a.body.packageId}
    && a.body.packageId in rows' && rows'[a.body.packageId] == Upsert(rows, a)[a.body.packageId]
    && forall k :: k in rows && k != a.body.packageId ==>
         rows'[k] == if Rival(rows, a, k) && RetirePackage(signer, rows[k].package).Some?
                     then rows[k].(lifecycle := Retired, package := RetirePackage(signer, rows[k].package).value)
                     else rows[k]
  }

  ghost predicate Uncached(rows: Rows, a: Package, active: map<Name, Package>, active': map<Name, Package>) {
    forall k :: (k in active' <==> k == a.body.packageId || (k in active && !Rival(rows, a, k)))
                && (k in active' ==> active'[k] == if k == a.body.packageId then a else active[k])
  }

  ghost predicate RivalsVerify(s: State, a: Package) {
    forall k :: Rival(s.rows, a, k) ==> RetirePackage(s.signer, s.rows[k].package).Some?
  }

  /** The activation of `a` goes through. */
  ghost predicate Activated(s: State, a: Package, s': State) {
    && s' == s.(rows := s'.rows, active := s'.active, packages := s.packages[a.body.packageId := a])
    && RivalsVerify(s, a) && Replaced(s.signer, s.rows, a, s'.rows) && IndexOk(s'.rows)
    && Uncached(s.rows, a, s.active, s'.active)
  }

  /** The activation of `a` stops because a rival does not verify, or the uniqueness index refuses it. */
  ghost predicate Refused(s: State, a: Package) {
    !RivalsVerify(s, a) || exists rows' :: Replaced(s.signer, s.rows, a, rows') && !IndexOk(rows')
  }

  ghost predicate ActivateNext(s: State, id: Name, s': State) {
    if id in s.rows && ActivatePackage(s.signer, s.rows[id].package).Some?
    then
      var a := ActivatePackage(s.signer, s.rows[id].package).value;
      Activated(s, a, s') || (Refused(s, a) && s' == s)
    else s' == s
  }

  /** The registry holds the executable history of the repository and nothing else. */
  ghost predicate Hydrated(rows: Rows, active: map<Name, Package>, packages: map<Name, Package>) {
    && (forall k :: k in packages <==> k in rows && History(rows[k].package.body.lifecycle))
    && (forall k :: k in active <==> k in rows && rows[k].package.body.lifecycle.Active?)
    && (forall k :: k in packages ==> packages[k] == rows[k].package)
    && (forall k :: k in active ==> active[k] == rows[k].package)
  }

  ghost predicate HistoryVerifies(signer: Signer, rows: Rows) {
    forall k :: k in rows && History(rows[k].package.body.lifecycle) ==> Verify(signer, rows[k].package)
  }

  /** A new process: its own signer, an empty registry, then hydration, which needs every signature to verify. */
  ghost predicate RestartNext(s: State, signer: Signer, s': State) {
    && s' == s.(signer := signer, active := s'.active, packages := s'.packages)
    && (HistoryVerifies(signer, s.rows) ==> Hydrated(s.rows, s'.active, s'.packages))
  }

  /** A restarted signer keeps every verification key of the one before it. */
  predicate Retains(s: Signer, s': Signer) {
    && SignerOk(s')
    && forall k :: k in s.verificationKeys ==>
         k in s'.verificationKeys && s'.verificationKeys[k] == s.verificationKeys[k]
  }

  /**
    A rotation retains the old keys exactly when each is handed over for verification and
    none is replaced under its own id.
   */
  lemma RotationRetains(before: Signer, key: Name, keyId: Name, verificationKeys: map<Name, Name>)
    requires MakeSigner(key, keyId, verificationKeys).Some?
    ensures Retains(before, MakeSigner(key, keyId, verificationKeys).value) <==>
            forall k :: k in before.verificationKeys ==>
              if k == keyId then before.verificationKeys[k] == key
              else k in verificationKeys && verificationKeys[k] == before.verificationKeys[k]
  {
  }

  ghost predicate Next(s: State, call: Call, s': State) {
    match call
    case CreateDraft(p) => s' == CreateDraftCall(s, p)
    case Approve(id, approver) => s' == ApproveCall(s, id, approver)
    case Activate(id) => ActivateNext(s, id, s')
    case Retire(id) => s' == RetireCall(s, id)
    case UseActive(id) => s' == UseCall(s, RequireActive(s, id))
    case UseSnapshot(id, signature) => s' == UseCall(s, RequireSnapshot(s, id, signature))
    case Restart(signer) => Retains(s.signer, signer) && RestartNext(s, signer, s')
  }

  ghost predicate Reaches(s: State, calls: seq<Call>, s': State)
    decreases |calls|
  {
    if calls == [] then s' == s else exists mid :: Next(s, calls[0], mid) && Reaches(mid, calls[1..], s')
  }

  /** An empty repository and an empty registry. */
  predicate Fresh(s: State) {
    s.rows == map[] && s.active == map[] && s.packages == map[] && SignerOk(s.signer)
  }

  // ---- The invariant ----

  predicate ApprovalOk(b: Body) {
    b.approver.Some? && b.approver.value != b.author
  }

  /** A stored package is filed under its own id and columns, and what is not a draft is approved and verifies. */
  predicate RowOk(signer: Signer, id: Name, row: Row) {
    var p := row.package;
    && p.body.packageId == id && p.body.procedureId == row.procedureId && p.body.jurisdiction == row.jurisdiction
    && p.body.lifecycle == row.lifecycle
    && (!p.body.lifecycle.Draft? ==> Verify(signer, p) && ApprovalOk(p.body))
    && (History(p.body.lifecycle) ==> p.activationSignature.Some?)
  }

  ghost predicate RowsOk(signer: Signer, rows: Rows) {
    forall id :: id in rows ==> RowOk(signer, id, rows[id])
  }

  ghost predicate ActiveOk(rows: Rows, active: map<Name, Package>) {
    forall id :: (id in active <==> id in rows && rows[id].lifecycle.Active?)
                 && (id in active ==> active[id] == rows[id].package)
  }

  /** A cached package may be older than the stored one, but only by the retirement. */
  predicate SnapshotOk(signer: Signer, cached: Package, stored: Package) {
    && Verify(signer, cached) && cached.activationSignature == stored.activationSignature
    && cached.body.rules == stored.body.rules && cached.body.procedureId == stored.body.procedureId
  }

  ghost predicate PackagesOk(signer: Signer, rows: Rows, packages: map<Name, Package>) {
    forall id :: (id in packages <==> id in rows && History(rows[id].lifecycle))
                 && (id in packages ==> SnapshotOk(signer, packages[id], rows[id].package))
  }

  ghost predicate Inv(s: State) {
    && SignerOk(s.signer) && RowsOk(s.signer, s.rows) && IndexOk(s.rows)
    && ActiveOk(s.rows, s.active) && PackagesOk(s.signer, s.rows, s.packages)
  }

  /** Rules and activation signature never change once a package has been activated. */
  ghost predicate Evolves(rows: Rows, rows': Rows) {
    forall id :: id in rows && History(rows[id].lifecycle) ==>
      id in rows' && History(rows'[id].lifecycle)
      && rows'[id].package.activationSignature == rows[id].package.activationSignature
      && rows'[id].package.body.rules == rows[id].package.body.rules
      && rows'[id].package.body.procedureId == rows[id].package.body.procedureId
  }

  // ---- Each call keeps it ----

  lemma FreshInv(s: State)
    requires Fresh(s)
    ensures Inv(s)
  {
  }

  /** Replacing one row by a row that is not active. */
  lemma PutRow(signer: Signer, rows: Rows, active: map<Name, Package>, id: Name, row: Row)
    requires RowsOk(signer, rows) && IndexOk(rows) && ActiveOk(rows, active)
    requires RowOk(signer, id, row) && !row.lifecycle.Active?
    ensures RowsOk(signer, rows[id := row]) && IndexOk(rows[id := row]) && ActiveOk(rows[id := row], active - {id})
  {
    hide RowOk;
  }

  /** A row without executable history changes nothing the registry keeps. */
  lemma PutEarly(signer: Signer, rows: Rows, active: map<Name, Package>, packages: map<Name, Package>, id: Name,
                 row: Row)
    requires PackagesOk(signer, rows, packages) && ActiveOk(rows, active)
    requires !History(row.lifecycle) && (id in rows ==> !History(rows[id].lifecycle))
    ensures PackagesOk(signer, rows[id := row], packages) && Evolves(rows, rows[id := row]) && active - {id} == active
  {
    hide SnapshotOk;
  }

  lemma CreateDraftKeeps(s: State, p: Package)
    requires Inv(s)
    ensures Inv(CreateDraftCall(s, p)) && Evolves(s.rows, CreateDraftCall(s, p).rows)
  {
    hide RowsOk, IndexOk, ActiveOk, PackagesOk, Evolves;
    EvolvesReflexive(s.rows);
    if DraftOk(s, p) {
      var row := Row(p.body.procedureId, p.body.jurisdiction, p.body.lifecycle, p);
      PutRow(s.signer, s.rows, s.active, p.body.packageId, row);
      PutEarly(s.signer, s.rows, s.active, s.packages, p.body.packageId, row);
    }
  }

  lemma ApproveKeeps(s: State, id: Name, approver: Name)
    requires Inv(s)
    ensures Inv(ApproveCall(s, id, approver)) && Evolves(s.rows, ApproveCall(s, id, approver).rows)
  {
    hide IndexOk, ActiveOk, PackagesOk, Evolves;
    EvolvesReflexive(s.rows);
    if id in s.rows && s.rows[id].package.body.lifecycle.Draft? {
      var p := ApprovePackage(s.signer, s.rows[id].package, approver);
      if p.Some? {
        assert RowOk(s.signer, id, s.rows[id]);
        var row := s.rows[id].(lifecycle := Approved, package := p.value);
        PutRow(s.signer, s.rows, s.active, id, row);
        PutEarly(s.signer, s.rows, s.active, s.packages, id, row);
      }
    }
  }

  /** Retirement changes neither the rules nor the activation signature. */
  lemma PutRetired(signer: Signer, rows: Rows, packages: map<Name, Package>, id: Name, row: Row)
    requires PackagesOk(signer, rows, packages) && id in rows && History(rows[id].lifecycle) && History(row.lifecycle)
    requires row.package.activationSignature == rows[id].package.activationSignature
    requires row.package.body.rules == rows[id].package.body.rules
    requires row.package.body.procedureId == rows[id].package.body.procedureId
    ensures PackagesOk(signer, rows[id := row], packages) && Evolves(rows, rows[id := row])
  {
    hide Verify;
  }

  lemma RetireKeeps(s: State, id: Name)
    requires Inv(s)
    ensures Inv(RetireCall(s, id)) && Evolves(s.rows, RetireCall(s, id).rows)
  {
    hide IndexOk, ActiveOk, PackagesOk, Evolves;
    EvolvesReflexive(s.rows);
    if id in s.rows && RetirePackage(s.signer, s.rows[id].package).Some? {
      assert RowOk(s.signer, id, s.rows[id]);
      var row := s.rows[id].(lifecycle := Retired, package := RetirePackage(s.signer, s.rows[id].package).value);
      PutRow(s.signer, s.rows, s.active, id, row);
      PutRetired(s.signer, s.rows, s.packages, id, row);
    }
  }

  lemma EvolvesReflexive(rows: Rows)
    ensures Evolves(rows, rows)
  {
  }

  lemma EvolvesTransitive(a: Rows, b: Rows, c: Rows)
    requires Evolves(a, b) && Evolves(b, c)
    ensures Evolves(a, c)
  {
  }

  /** Loading what the repository holds keeps the registry in step with it. */
  lemma LoadKeeps(s: State, id: Name)
    requires Inv(s) && id in s.rows && History(s.rows[id].lifecycle)
    ensures LoadHistory(s, s.rows[id].package).Some? && Inv(LoadHistory(s, s.rows[id].package).value)
  {
    hide IndexOk, RowsOk, ActiveOk, PackagesOk, Verify;
    RowAt(s, id);
    LoadedCache(s.signer, s.rows, s.active, s.packages, id);
  }

  lemma LoadedCache(signer: Signer, rows: Rows, active: map<Name, Package>, packages: map<Name, Package>, id: Name)
    requires id in rows && RowOk(signer, id, rows[id]) && History(rows[id].lifecycle)
    requires ActiveOk(rows, active) && PackagesOk(signer, rows, packages)
    ensures PackagesOk(signer, rows, packages[id := rows[id].package])
    ensures rows[id].lifecycle.Active? ==> ActiveOk(rows, active[id := rows[id].package])
  {
    hide Verify;
  }

  lemma RowAt(s: State, id: Name)
    requires RowsOk(s.signer, s.rows) && id in s.rows
    ensures RowOk(s.signer, id, s.rows[id])
  {
    hide RowOk;
  }

  lemma UseKeeps(s: State, id: Name, found: Option<Package>)
    requires Inv(s) && (found.Some? ==> id in s.rows && found.value == s.rows[id].package)
    ensures Inv(UseCall(s, found)) && UseCall(s, found).rows == s.rows
  {
    hide Inv, LoadHistory;
    if found.Some? && LoadHistory(s, found.value).Some? { LoadedRow(s, id); }
  }

  lemma LoadedRow(s: State, id: Name)
    requires Inv(s) && id in s.rows && LoadHistory(s, s.rows[id].package).Some?
    ensures Inv(LoadHistory(s, s.rows[id].package).value) && LoadHistory(s, s.rows[id].package).value.rows == s.rows
  {
    hide IndexOk, RowsOk, ActiveOk, PackagesOk, Verify;
    RowAt(s, id);
    LoadKeeps(s, id);
  }

  /** Signatures made before a key rotation still verify after it. */
  lemma StillVerifies(signer: Signer, signer': Signer, p: Package)
    requires Retains(signer, signer') && Verify(signer, p)
    ensures Verify(signer', p)
  {
  }

  lemma RestartKeeps(s: State, signer: Signer, s': State)
    requires Inv(s) && Retains(s.signer, signer) && RestartNext(s, signer, s')
    ensures Inv(s') && s'.rows == s.rows
  {
    hide IndexOk, Verify, ActiveOk, PackagesOk, Hydrated;
    forall id | id in s.rows ensures RowOk(signer, id, s.rows[id]) {
      assert RowOk(s.signer, id, s.rows[id]);
      if !s.rows[id].package.body.lifecycle.Draft? { StillVerifies(s.signer, signer, s.rows[id].package); }
    }
    HydratedOk(signer, s.rows, s'.active, s'.packages);
  }

  lemma HydratedOk(signer: Signer, rows: Rows, active: map<Name, Package>, packages: map<Name, Package>)
    requires RowsOk(signer, rows) && Hydrated(rows, active, packages)
    ensures ActiveOk(rows, active) && PackagesOk(signer, rows, packages)
  {
    hide Verify;
    forall id | id in rows ensures RowOk(signer, id, rows[id]) {}
  }

  // ---- Activation ----

  lemma ActivatedRow(signer: Signer, id: Name, row: Row)
    requires SignerOk(signer) && RowOk(signer, id, row) && ActivatePackage(signer, row.package).Some?
    ensures var a := ActivatePackage(signer, row.package).value;
            && RowOk(signer, id, row.(lifecycle := Active, package := a)) && a.body.packageId == id
            && row.lifecycle.Approved? && a.body.lifecycle.Active?
            && a.body == row.package.body.(lifecycle := Active, signingKeyId := a.body.signingKeyId)
            && Verify(signer, a)
  {
  }

  /** A stored active package can always be retired. */
  lemma RetiredRow(signer: Signer, id: Name, row: Row)
    requires SignerOk(signer) && RowOk(signer, id, row) && row.lifecycle.Active?
    ensures RetirePackage(signer, row.package).Some?
    ensures var p := RetirePackage(signer, row.package).value;
            && RowOk(signer, id, row.(lifecycle := Retired, package := p))
            && p.activationSignature == row.package.activationSignature
            && p.body.rules == row.package.body.rules && p.body.procedureId == row.package.body.procedureId
  {
  }

  /** What an activation leaves in each other row. */
  lemma OtherRow(s: State, a: Package, rows': Rows, k: Name)
    requires Inv(s) && Replaced(s.signer, s.rows, a, rows') && k in s.rows && k != a.body.packageId
    ensures RowOk(s.signer, k, rows'[k])
    ensures rows'[k].lifecycle == if Rival(s.rows, a, k) then Retired else s.rows[k].lifecycle
    ensures !Rival(s.rows, a, k) ==> rows'[k] == s.rows[k]
    ensures rows'[k].procedureId == s.rows[k].procedureId && rows'[k].jurisdiction == s.rows[k].jurisdiction
    ensures rows'[k].package.activationSignature == s.rows[k].package.activationSignature
    ensures rows'[k].package.body.rules == s.rows[k].package.body.rules
    ensures rows'[k].package.body.procedureId == s.rows[k].package.body.procedureId
  {
    hide IndexOk, ActiveOk, PackagesOk, RowOk, RetirePackage;
    if Rival(s.rows, a, k) { RetiredRow(s.signer, k, s.rows[k]); }
  }

  /** No rival survives an activation, so the uniqueness index accepts it. */
  lemma ActivationKeepsIndex(s: State, id: Name, a: Package, rows': Rows)
    requires Inv(s) && id in s.rows && ActivatePackage(s.signer, s.rows[id].package) == Some(a)
    requires Replaced(s.signer, s.rows, a, rows')
    ensures IndexOk(rows') && RowsOk(s.signer, rows')
  {
    hide ActiveOk, PackagesOk, RowOk, ActivatePackage, Verify, RetirePackage;
    ActivatedRow(s.signer, id, s.rows[id]);
    forall k | k in s.rows && k != id
      ensures RowOk(s.signer, k, rows'[k])
      ensures rows'[k].lifecycle.Active? ==>
              rows'[k] == s.rows[k] && !Clash(rows'[k], rows'[id]) && !Clash(rows'[id], rows'[k])
    {
      OtherRow(s, a, rows', k);
      Columns(s.signer, k, s.rows[k]);
      Columns(s.signer, id, s.rows[id]);
    }
  }

  lemma Columns(signer: Signer, id: Name, row: Row)
    requires RowOk(signer, id, row)
    ensures row.package.body.procedureId == row.procedureId && row.package.body.jurisdiction == row.jurisdiction
    ensures row.package.body.packageId == id && row.package.body.lifecycle == row.lifecycle
  {
  }

  /** A row keeps what authorizations were stamped with. */
  predicate KeepsStamp(row: Row, row': Row) {
    && row'.package.activationSignature == row.package.activationSignature
    && row'.package.body.rules == row.package.body.rules
    && row'.package.body.procedureId == row.package.body.procedureId
  }

  /** What an activation does to the rows, as far as the registry is concerned. */
  ghost predicate Turnover(rows: Rows, a: Package, rows': Rows) {
    var id := a.body.packageId;
    && id in rows && rows[id].lifecycle.Approved? && rows'.Keys == rows.Keys
    && rows'[id].lifecycle.Active? && rows'[id].package == a && a.body.lifecycle.Active?
    && forall k :: k in rows && k != id ==>
         && rows'[k].lifecycle == (if Rival(rows, a, k) then Retired else rows[k].lifecycle)
         && (!Rival(rows, a, k) ==> rows'[k] == rows[k])
         && (History(rows'[k].lifecycle) <==> History(rows[k].lifecycle)) && KeepsStamp(rows[k], rows'[k])
  }

  lemma ActivationTurnover(s: State, id: Name, a: Package, rows': Rows)
    requires Inv(s) && id in s.rows && ActivatePackage(s.signer, s.rows[id].package) == Some(a)
    requires Replaced(s.signer, s.rows, a, rows')
    ensures Turnover(s.rows, a, rows') && a.body.packageId == id && Verify(s.signer, a)
  {
    hide RowOk, RowsOk, IndexOk, ActiveOk, PackagesOk, ActivatePackage, Verify, RetirePackage, Rival;
    RowAt(s, id);
    ActivatedRow(s.signer, id, s.rows[id]);
    assert rows'[id].package == a;
    forall k | k in s.rows && k != id
      ensures rows'[k].lifecycle == (if Rival(s.rows, a, k) then Retired else s.rows[k].lifecycle)
      ensures !Rival(s.rows, a, k) ==> rows'[k] == s.rows[k]
      ensures (History(rows'[k].lifecycle) <==> History(s.rows[k].lifecycle)) && KeepsStamp(s.rows[k], rows'[k])
    {
      OtherRow(s, a, rows', k);
      RivalIsActive(s.rows, a, k);
    }
  }

  lemma RivalIsActive(rows: Rows, a: Package, k: Name)
    ensures Rival(rows, a, k) ==> k in rows && rows[k].lifecycle.Active?
  {
  }

  lemma TurnoverActive(rows: Rows, a: Package, rows': Rows, active: map<Name, Package>, active': map<Name, Package>)
    requires ActiveOk(rows, active) && Turnover(rows, a, rows') && Uncached(rows, a, active, active')
    ensures ActiveOk(rows', active')
  {
    hide KeepsStamp;
    forall k ensures (k in active' <==> k in rows' && rows'[k].lifecycle.Active?)
                     && (k in active' ==> active'[k] == rows'[k].package)
    {
    }
  }

  lemma TurnoverPackages(signer: Signer, rows: Rows, a: Package, rows': Rows, packages: map<Name, Package>)
    requires PackagesOk(signer, rows, packages) && Turnover(rows, a, rows') && Verify(signer, a)
    ensures PackagesOk(signer, rows', packages[a.body.packageId := a]) && Evolves(rows, rows')
  {
    hide Verify, Rival;
  }

  lemma ActivationKeepsCache(s: State, id: Name, a: Package, s': State)
    requires Inv(s) && id in s.rows && ActivatePackage(s.signer, s.rows[id].package) == Some(a) && Activated(s, a, s')
    ensures ActiveOk(s'.rows, s'.active) && PackagesOk(s.signer, s'.rows, s'.packages) && Evolves(s.rows, s'.rows)
  {
    hide RowsOk, IndexOk, ActiveOk, PackagesOk, Evolves, ActivatePackage;
    hide Verify, Replaced, Uncached, Turnover, RivalsVerify;
    ActivationTurnover(s, id, a, s'.rows);
    TurnoverActive(s.rows, a, s'.rows, s.active, s'.active);
    TurnoverPackages(s.signer, s.rows, a, s'.rows, s.packages);
  }

  /** With the invariant, an activation is refused neither by a rival's signature nor by the index. */
  lemma ActivationNeverRefused(s: State, id: Name)
    requires Inv(s) && id in s.rows && ActivatePackage(s.signer, s.rows[id].package).Some?
    ensures !Refused(s, ActivatePackage(s.signer, s.rows[id].package).value)
  {
    hide ActiveOk, PackagesOk, RowOk, ActivatePackage, Replaced;
    var a := ActivatePackage(s.signer, s.rows[id].package).value;
    forall k | Rival(s.rows, a, k) ensures RetirePackage(s.signer, s.rows[k].package).Some? {
      RetiredRow(s.signer, k, s.rows[k]);
    }
    forall rows' | Replaced(s.signer, s.rows, a, rows') ensures IndexOk(rows') {
      ActivationKeepsIndex(s, id, a, rows');
    }
  }

  lemma ActivateKeeps(s: State, id: Name, s': State)
    requires Inv(s) && ActivateNext(s, id, s')
    ensures Inv(s') && Evolves(s.rows, s'.rows)
  {
    hide RowsOk, IndexOk, ActiveOk, PackagesOk, Evolves, ActivatePackage, Refused, Replaced, Uncached;
    EvolvesReflexive(s.rows);
    if s' != s {
      var a := ActivatePackage(s.signer, s.rows[id].package).value;
      ActivationKeepsIndex(s, id, a, s'.rows);
      ActivationKeepsCache(s, id, a, s');
    }
  }

  // ---- Whole runs ----

  lemma NextKeeps(s: State, call: Call, s': State)
    requires Inv(s) && Next(s, call, s')
    ensures Inv(s') && Evolves(s.rows, s'.rows)
  {
    hide Inv, Evolves, CreateDraftCall, ApproveCall, RetireCall, UseCall, ActivateNext, RestartNext, Verify;
    EvolvesReflexive(s.rows);
    match call
    case CreateDraft(p) => CreateDraftKeeps(s, p);
    case Approve(id, approver) => ApproveKeeps(s, id, approver);
    case Activate(id) => ActivateKeeps(s, id, s');
    case Retire(id) => RetireKeeps(s, id);
    case UseActive(id) => UseKeeps(s, id, RequireActive(s, id));
    case UseSnapshot(id, signature) => UseKeeps(s, id, RequireSnapshot(s, id, signature));
    case Restart(signer) => RestartKeeps(s, signer, s');
  }

  lemma {:induction false} RunKeeps(s: State, calls: seq<Call>, s': State)
    requires Inv(s) && Reaches(s, calls, s')
    ensures Inv(s') && Evolves(s.rows, s'.rows)
    decreases |calls|
  {
    hide Inv, Evolves, Next;
    EvolvesReflexive(s.rows);
    if calls != [] {
      var mid :| Next(s, calls[0], mid) && Reaches(mid, calls[1..], s');
      NextKeeps(s, calls[0], mid);
      RunKeeps(mid, calls[1..], s');
      EvolvesTransitive(s.rows, mid.rows, s'.rows);
    }
  }

  // ---- Theorems ----

  /** The registry answers `require_active` exactly as the repository does. */
  lemma CacheAgrees(s: State, calls: seq<Call>, s': State, id: Name)
    requires Fresh(s) && Reaches(s, calls, s')
    ensures CachedActive(s', id) == RequireActive(s', id)
  {
    hide Fresh, Reaches, Verify, IndexOk, PackagesOk, Evolves;
    FreshInv(s);
    RunKeeps(s, calls, s');
  }

  /** At most one package is active per procedure and jurisdiction. */
  lemma ActiveIsUnique(s: State, calls: seq<Call>, s': State, id: Name, other: Name)
    requires Fresh(s) && Reaches(s, calls, s')
    requires RequireActive(s', id).Some? && RequireActive(s', other).Some?
    requires RequireActive(s', id).value.body.procedureId == RequireActive(s', other).value.body.procedureId
    requires RequireActive(s', id).value.body.jurisdiction == RequireActive(s', other).value.body.jurisdiction
    ensures id == other
  {
    hide Fresh, Reaches, Verify, ActiveOk, PackagesOk, Evolves;
    FreshInv(s);
    RunKeeps(s, calls, s');
    RowAt(s', id);
    RowAt(s', other);
  }

  /** Nobody approves a package of their own. */
  lemma ActiveWasReviewed(s: State, calls: seq<Call>, s': State, id: Name)
    requires Fresh(s) && Reaches(s, calls, s') && RequireActive(s', id).Some?
    ensures var b := RequireActive(s', id).value.body; b.approver.Some? && b.approver.value != b.author
  {
    hide Fresh, Reaches, Verify, IndexOk, ActiveOk, PackagesOk, Evolves;
    FreshInv(s);
    RunKeeps(s, calls, s');
    RowAt(s', id);
  }

  /** An approved package that verifies is always activated. */
  lemma ActivateSucceeds(s: State, calls: seq<Call>, s': State, id: Name, s'': State)
    requires Fresh(s) && Reaches(s, calls, s') && Next(s', Activate(id), s'')
    requires id in s'.rows && s'.rows[id].lifecycle.Approved?
    ensures RequireActive(s'', id).Some?
  {
    hide Fresh, Reaches, Evolves, IndexOk, ActiveOk, PackagesOk, Replaced, Refused, Uncached;
    FreshInv(s);
    RunKeeps(s, calls, s');
    RowAt(s', id);
    ActivationNeverRefused(s', id);
    ActivatedIsActive(s', id, s'');
  }

  lemma ActivatedIsActive(s: State, id: Name, s': State)
    requires Inv(s) && id in s.rows && ActivatePackage(s.signer, s.rows[id].package).Some?
    requires Activated(s, ActivatePackage(s.signer, s.rows[id].package).value, s')
    ensures RequireActive(s', id).Some?
  {
    hide IndexOk, ActiveOk, PackagesOk, RivalsVerify, Uncached, RowOk, ActivatePackage, Verify;
    RowAt(s, id);
    ActivatedRow(s.signer, id, s.rows[id]);
  }

  /** The gateway's check of a package's rules. */
  predicate Permits(p: Package, action: ActionName) {
    p.body.rules.allowed.Listed? ==> action in p.body.rules.allowed.actions
  }

  /**
    Authorization is stable: an action stamped with the activation signature of the package
    that was active then passes both dispatch-time checks, against the repository and
    against the registry, after any activations, retirements and key rotations.
   */
  lemma AuthorizationIsStable(s: State, before: seq<Call>, s1: State, after: seq<Call>, s2: State, id: Name,
                              action: ActionName)
    requires Fresh(s) && Reaches(s, before, s1) && Reaches(s1, after, s2)
    requires RequireActive(s1, id).Some? && Permits(RequireActive(s1, id).value, action)
    ensures var stamp := RequireActive(s1, id).value.activationSignature;
            && stamp.Some?
            && RequireSnapshot(s2, id, stamp.value).Some? && Permits(RequireSnapshot(s2, id, stamp.value).value, action)
            && CachedSnapshot(s2, id, stamp.value).Some? && Permits(CachedSnapshot(s2, id, stamp.value).value, action)
  {
    hide Fresh, Reaches, Inv, Evolves, RequireSnapshot, CachedSnapshot, Verify;
    FreshInv(s);
    RunKeeps(s, before, s1);
    RunKeeps(s1, after, s2);
    StampHolds(s1, s2, id);
  }

  /** A snapshot that is accepted once is accepted, with the same rules, ever after. */
  lemma SnapshotHolds(s1: State, s2: State, id: Name, signature: Signature)
    requires Inv(s1) && Inv(s2) && Evolves(s1.rows, s2.rows) && RequireSnapshot(s1, id, signature).Some?
    ensures RequireSnapshot(s2, id, signature).Some?
    ensures RequireSnapshot(s2, id, signature).value.body.rules == RequireSnapshot(s1, id, signature).value.body.rules
  {
    hide RowsOk, IndexOk, ActiveOk, PackagesOk, Verify;
    RowAt(s1, id);
    RowAt(s2, id);
  }

  /** The stamp of the active package is a snapshot that is accepted. */
  lemma ActiveIsSnapshot(s: State, id: Name)
    requires Inv(s) && RequireActive(s, id).Some?
    ensures var p := RequireActive(s, id).value;
            && p.activationSignature.Some?
            && RequireSnapshot(s, id, p.activationSignature.value) == Some(p)
  {
    hide RowsOk, IndexOk, ActiveOk, PackagesOk, Verify;
    RowAt(s, id);
  }

  lemma StampHolds(s1: State, s2: State, id: Name)
    requires Inv(s1) && Inv(s2) && Evolves(s1.rows, s2.rows) && RequireActive(s1, id).Some?
    ensures var p := RequireActive(s1, id).value;
            && p.activationSignature.Some?
            && RequireSnapshot(s2, id, p.activationSignature.value).Some?
            && RequireSnapshot(s2, id, p.activationSignature.value).value.body.rules == p.body.rules
            && CachedSnapshot(s2, id, p.activationSignature.value).Some?
            && CachedSnapshot(s2, id, p.activationSignature.value).value.body.rules == p.body.rules
  {
    hide RowsOk, IndexOk, ActiveOk, Verify;
    RowAt(s1, id);
    RowAt(s2, id);
    assert id in s2.packages;
  }
}

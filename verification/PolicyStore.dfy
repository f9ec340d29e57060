/**
  The policy repository, the in-process registry and the policy service as objects.
  Each service call is proved to be the transition of `Policy` that bears its name.
 */
module PolicyStore {
  import opened Domain
  import opened Policy

  /** Every row is filed under the id of its package. */
  ghost predicate Filed(rows: Rows) {
    forall id :: id in rows ==> rows[id].package.body.packageId == id
  }

  class PolicyRegistry {
    const signer: Signer
    var active: map<Name, Package>
    var packages: map<Name, Package>

    constructor (signer: Signer)
      ensures this.signer == signer && active == map[] && packages == map[]
    {
      this.signer := signer;
      active, packages := map[], map[];
    }

    method Load(p: Package) returns (ok: bool)
      modifies this
      ensures ok == (p.body.lifecycle.Active? && Verify(signer, p))
      ensures active == if ok then old(active)[p.body.packageId := p] else old(active)
      ensures packages == if ok then old(packages)[p.body.packageId := p] else old(packages)
    {
      ok := p.body.lifecycle.Active? && Verify(signer, p);
      if ok {
        active := active[p.body.packageId := p];
        packages := packages[p.body.packageId := p];
      }
    }

    method LoadHistory(p: Package) returns (ok: bool)
      modifies this
      ensures ok == (History(p.body.lifecycle) && Verify(signer, p))
      ensures packages == if ok then old(packages)[p.body.packageId := p] else old(packages)
      ensures active == if ok && p.body.lifecycle.Active? then old(active)[p.body.packageId := p] else old(active)
    {
      ok := History(p.body.lifecycle) && Verify(signer, p);
      if !ok { return; }
      packages := packages[p.body.packageId := p];
      if p.body.lifecycle.Active? { active := active[p.body.packageId := p]; }
    }

    method Retire(id: Name)
      modifies this`active
      ensures active == old(active) - {id}
    {
      active := active - {id};
    }

    method Clear()
      modifies this
      ensures active == map[] && packages == map[]
    {
      active, packages := map[], map[];
    }
  }

  /** The UPDATE statements of one replacement, in order. */
  function RetireRows(rows: Rows, retired: seq<Package>): Rows {
    if retired == [] then rows
    else
      var id := retired[0].body.packageId;
      var once := if id in rows then rows[id := rows[id].(lifecycle := Retired, package := retired[0])] else rows;
      RetireRows(once, retired[1..])
  }

  ghost predicate DistinctIds(ps: seq<Package>) {
    forall i, j :: 0 <= i < j < |ps| ==> ps[i].body.packageId != ps[j].body.packageId
  }

  ghost predicate Among(ps: seq<Package>, id: Name) {
    exists i :: 0 <= i < |ps| && ps[i].body.packageId == id
  }

  lemma {:induction false} RetireRowsAt(rows: Rows, retired: seq<Package>)
    requires DistinctIds(retired)
    ensures var rows' := RetireRows(rows, retired);
            && rows'.Keys == rows.Keys
            && (forall k :: k in rows && !Among(retired, k) ==> rows'[k] == rows[k])
            && (forall i :: 0 <= i < |retired| && retired[i].body.packageId in rows ==>
                 rows'[retired[i].body.packageId]
                 == rows[retired[i].body.packageId].(lifecycle := Retired, package := retired[i]))
  {
    if retired != [] {
      var id, rest := retired[0].body.packageId, retired[1..];
      var once := if id in rows then rows[id := rows[id].(lifecycle := Retired, package := retired[0])] else rows;
      RetireRowsAt(once, rest);
      assert forall i :: 0 <= i < |rest| ==> rest[i] == retired[i + 1];
      assert !Among(rest, id);
      forall k | k in rows && !Among(retired, k) ensures k != id && !Among(rest, k) {
        assert retired[0].body.packageId == id;
      }
    }
  }

  class SQLitePolicyRepository {
    var rows: Rows

    constructor ()
      ensures rows == map[]
    {
      rows := map[];
    }

    /** Whether the uniqueness index has room for the row of this package. */
    method Accepts(candidate: Rows, id: Name) returns (ok: bool)
      requires id in candidate
      requires forall a, b ::
                 a in candidate && b in candidate && a != id && b != id && Clash(candidate[a], candidate[b]) ==> a == b
      ensures ok == IndexOk(candidate)
    {
      ok := true;
      var todo := candidate.Keys;
      while todo != {}
        invariant todo <= candidate.Keys
        invariant ok <==> forall k :: k in candidate && k !in todo && k != id ==> !Clash(candidate[k], candidate[id])
        decreases todo
      {
        var k :| k in todo;
        if k != id && Clash(candidate[k], candidate[id]) { ok := false; }
        todo := todo - {k};
      }
    }

    method Save(p: Package) returns (ok: bool)
      requires IndexOk(rows)
      modifies this
      ensures ok == IndexOk(Upsert(old(rows), p))
      ensures rows == if ok then Upsert(old(rows), p) else old(rows)
    {
      ok := Accepts(Upsert(rows, p), p.body.packageId);
      if ok { rows := Upsert(rows, p); }
    }

    method ReplaceActive(a: Package, retired: seq<Package>) returns (ok: bool)
      requires IndexOk(rows)
      modifies this
      ensures ok == IndexOk(Upsert(RetireRows(old(rows), retired), a))
      ensures rows == if ok then Upsert(RetireRows(old(rows), retired), a) else old(rows)
    {
      var before, i := rows, 0;
      while i < |retired|
        invariant 0 <= i <= |retired| && IndexOk(rows)
        invariant RetireRows(rows, retired[i..]) == RetireRows(before, retired)
      {
        var id := retired[i].body.packageId;
        assert retired[i..][0] == retired[i] && retired[i..][1..] == retired[i + 1..];
        if id in rows { rows := rows[id := rows[id].(lifecycle := Retired, package := retired[i])]; }
        i := i + 1;
      }
      assert retired[i..] == [];
      ok := Accepts(Upsert(rows, a), a.body.packageId);
      rows := if ok then Upsert(rows, a) else before;
    }

    /** The packages for which the filter holds, in no particular order. */
    method List(wanted: Lifecycle -> bool) returns (ps: seq<Package>)
      requires Filed(rows)
      ensures DistinctIds(ps)
      ensures forall i :: 0 <= i < |ps| ==>
                var id := ps[i].body.packageId; id in rows && rows[id].package == ps[i] && wanted(rows[id].lifecycle)
      ensures forall id :: id in rows && wanted(rows[id].lifecycle) ==> Among(ps, id)
    {
      ps := [];
      var todo := rows.Keys;
      while todo != {}
        invariant todo <= rows.Keys
        invariant DistinctIds(ps)
        invariant forall i :: 0 <= i < |ps| ==>
                    var id := ps[i].body.packageId;
                    id in rows && id !in todo && rows[id].package == ps[i] && wanted(rows[id].lifecycle)
        invariant forall id :: id in rows && id !in todo && wanted(rows[id].lifecycle) ==> Among(ps, id)
        decreases todo
      {
        var id :| id in todo;
        if wanted(rows[id].lifecycle) {
          ps := Appended(ps, rows[id].package);
        }
        todo := todo - {id};
      }
    }
  }

  method Appended(ps: seq<Package>, p: Package) returns (ps': seq<Package>)
    requires DistinctIds(ps) && !Among(ps, p.body.packageId)
    ensures ps' == ps + [p] && DistinctIds(ps') && Among(ps', p.body.packageId)
    ensures forall id :: Among(ps, id) ==> Among(ps', id)
  {
    ps' := ps + [p];
    assert ps'[|ps|] == p;
    forall id | Among(ps, id) ensures Among(ps', id) {
      var i :| 0 <= i < |ps| && ps[i].body.packageId == id;
      assert ps'[i].body.packageId == id;
    }
  }

  /** The signed retirement of a stored rival. */
  ghost predicate IsRetirement(signer: Signer, rows: Rows, a: Package, p: Package) {
    && Rival(rows, a, p.body.packageId)
    && RetirePackage(signer, rows[p.body.packageId].package) == Some(p)
  }

  /** The retirements of exactly the rivals, each once. */
  ghost predicate Retirements(signer: Signer, rows: Rows, a: Package, retired: seq<Package>) {
    && DistinctIds(retired)
    && (forall k :: Rival(rows, a, k) ==> Among(retired, k))
    && (forall i :: 0 <= i < |retired| ==> IsRetirement(signer, rows, a, retired[i]))
  }

  lemma RetirementIds(signer: Signer, rows: Rows, a: Package, retired: seq<Package>)
    requires Retirements(signer, rows, a, retired)
    ensures forall k :: Among(retired, k) <==> Rival(rows, a, k)
  {
  }

  lemma RetirementsVerify(s: State, a: Package, retired: seq<Package>)
    requires Retirements(s.signer, s.rows, a, retired)
    ensures RivalsVerify(s, a)
  {
    hide RetirePackage;
    forall k | Rival(s.rows, a, k) ensures RetirePackage(s.signer, s.rows[k].package).Some? {
      var i :| 0 <= i < |retired| && retired[i].body.packageId == k;
      assert IsRetirement(s.signer, s.rows, a, retired[i]);
    }
  }

  /** The statements of a replacement amount to retiring the rivals and activating the package. */
  lemma ReplacedByStatements(signer: Signer, rows: Rows, a: Package, retired: seq<Package>)
    requires Retirements(signer, rows, a, retired)
    ensures Replaced(signer, rows, a, Upsert(RetireRows(rows, retired), a))
  {
    hide RetirePackage, RetireRows;
    RetireRowsAt(rows, retired);
    RetirementIds(signer, rows, a, retired);
    forall k | Rival(rows, a, k)
      ensures RetirePackage(signer, rows[k].package).Some?
      ensures RetireRows(rows, retired)[k]
              == rows[k].(lifecycle := Retired, package := RetirePackage(signer, rows[k].package).value)
    {
      var i :| 0 <= i < |retired| && retired[i].body.packageId == k;
      assert IsRetirement(signer, rows, a, retired[i]);
    }
    assert !Rival(rows, a, a.body.packageId);
  }

  lemma ReplacedFiled(signer: Signer, rows: Rows, a: Package, rows': Rows)
    requires Filed(rows) && Replaced(signer, rows, a, rows')
    ensures Filed(rows')
  {
  }

  lemma UnverifiedRefused(s: State, a: Package)
    requires !RivalsVerify(s, a)
    ensures Refused(s, a)
  {
  }

  lemma SignedVerifies(signer: Signer, p: Package)
    requires SignerOk(signer) && ActivatePackage(signer, p).Some?
    ensures Verify(signer, ActivatePackage(signer, p).value)
  {
  }

  /** The sequence holds the package of every row. */
  ghost predicate Lists(rows: Rows, ps: seq<Package>) {
    && (forall i :: 0 <= i < |ps| ==> ps[i].body.packageId in rows && rows[ps[i].body.packageId].package == ps[i])
    && (forall id :: id in rows ==> Among(ps, id))
  }

  lemma AllVerify(signer: Signer, rows: Rows, ps: seq<Package>)
    requires Lists(rows, ps)
    requires forall j :: 0 <= j < |ps| && History(ps[j].body.lifecycle) ==> Verify(signer, ps[j])
    ensures HistoryVerifies(signer, rows)
  {
    hide Verify;
    forall k | k in rows && History(rows[k].package.body.lifecycle) ensures Verify(signer, rows[k].package) {
      assert Among(ps, k);
    }
  }

  /** The registry holds the executable packages among those visited. */
  ghost predicate Loaded(active: map<Name, Package>, packages: map<Name, Package>, ps: seq<Package>) {
    && (forall i :: 0 <= i < |ps| && History(ps[i].body.lifecycle) ==>
         ps[i].body.packageId in packages && packages[ps[i].body.packageId] == ps[i])
    && (forall i :: 0 <= i < |ps| && ps[i].body.lifecycle.Active? ==>
         ps[i].body.packageId in active && active[ps[i].body.packageId] == ps[i])
    && (forall k :: k in packages ==> packages[k] in ps && packages[k].body.packageId == k
                                      && History(packages[k].body.lifecycle))
    && (forall k :: k in active ==>
        active[k] in ps && active[k].body.packageId == k && active[k].body.lifecycle.Active?)
  }

  /** Whatever is cached is a stored executable package that verifies. */
  ghost predicate Genuine(signer: Signer, rows: Rows, active: map<Name, Package>, packages: map<Name, Package>) {
    && (forall k :: k in packages ==>
         k in rows && packages[k] == rows[k].package && History(packages[k].body.lifecycle)
             && Verify(signer, packages[k]))
    && (forall k :: k in active ==> k in packages && active[k] == packages[k] && active[k].body.lifecycle.Active?)
  }

  lemma LoadedIsGenuine(signer: Signer, rows: Rows, active: map<Name, Package>, packages: map<Name, Package>,
                        ps: seq<Package>, n: nat)
    requires n <= |ps| && Lists(rows, ps) && Loaded(active, packages, ps[..n])
    requires forall j :: 0 <= j < n && History(ps[j].body.lifecycle) ==> Verify(signer, ps[j])
    ensures Genuine(signer, rows, active, packages)
  {
    hide Verify;
    var seen := ps[..n];
    forall p | p in seen ensures p.body.packageId in rows && rows[p.body.packageId].package == p {
      var i :| 0 <= i < n && seen[i] == p;
      assert ps[i] == p;
    }
    forall p | p in seen && History(p.body.lifecycle) ensures Verify(signer, p) {
      var i :| 0 <= i < n && seen[i] == p;
      assert ps[i] == p;
    }
  }

  /** Some listing of the rows was loaded up to its first executable package that does not verify. */
  ghost predicate StoppedShort(signer: Signer, rows: Rows, active: map<Name, Package>, packages: map<Name, Package>) {
    exists ps, n :: StopsAt(signer, rows, active, packages, ps, n)
  }

  ghost predicate StopsAt(signer: Signer, rows: Rows, active: map<Name, Package>, packages: map<Name, Package>,
                          ps: seq<Package>, n: nat)
  {
    && DistinctIds(ps) && Lists(rows, ps) && n < |ps| && Loaded(active, packages, ps[..n])
    && (forall i :: 0 <= i < n && History(ps[i].body.lifecycle) ==> Verify(signer, ps[i]))
    && History(ps[n].body.lifecycle) && !Verify(signer, ps[n])
  }

  lemma Stops(signer: Signer, rows: Rows, active: map<Name, Package>, packages: map<Name, Package>,
              ps: seq<Package>, n: nat)
    requires StopsAt(signer, rows, active, packages, ps, n)
    ensures StoppedShort(signer, rows, active, packages)
  {
    hide StopsAt;
  }

  lemma NothingLoaded()
    ensures Loaded(map[], map[], [])
  {
  }

  lemma LoadedMore(active: map<Name, Package>, packages: map<Name, Package>, ps: seq<Package>, i: nat)
    requires DistinctIds(ps) && i < |ps| && Loaded(active, packages, ps[..i])
    ensures var p := ps[i];
            Loaded(if p.body.lifecycle.Active? then active[p.body.packageId := p] else active,
                   if History(p.body.lifecycle) then packages[p.body.packageId := p] else packages, ps[..i + 1])
  {
    var now, next := ps[..i], ps[..i + 1];
    assert next == now + [ps[i]];
    assert forall j :: 0 <= j < i ==> now[j] == ps[j] && now[j].body.packageId != ps[i].body.packageId;
  }

  lemma AllLoaded(rows: Rows, active: map<Name, Package>, packages: map<Name, Package>, ps: seq<Package>)
    requires Loaded(active, packages, ps) && Lists(rows, ps)
    ensures Hydrated(rows, active, packages)
  {
    hide History;
    forall k | k in rows ensures exists i :: 0 <= i < |ps| && ps[i] == rows[k].package {
      assert Among(ps, k);
    }
  }

  lemma Wider(ps: seq<Package>, i: nat)
    requires i < |ps|
    ensures forall k :: Among(ps[..i + 1], k) <==> Among(ps[..i], k) || ps[i].body.packageId == k
  {
    var now, next := ps[..i], ps[..i + 1];
    assert next == now + [ps[i]];
    forall k ensures Among(next, k) <==> Among(now, k) || ps[i].body.packageId == k {
      if Among(now, k) {
        var j :| 0 <= j < |now| && now[j].body.packageId == k;
        assert next[j].body.packageId == k;
      }
      if ps[i].body.packageId == k { assert next[i].body.packageId == k; }
    }
  }

  class PolicyService {
    const catalog: set<ActionName>
    const signer: Signer
    const repository: SQLitePolicyRepository
    const registry: PolicyRegistry

    ghost predicate Valid()
      reads this, repository
    {
      registry.signer == signer && SignerOk(signer) && IndexOk(repository.rows) && Filed(repository.rows)
    }

    ghost function Now(): State
      reads this, repository, registry
    {
      State(catalog, signer, repository.rows, registry.active, registry.packages)
    }

    constructor (catalog: set<ActionName>, signer: Signer, repository: SQLitePolicyRepository, registry: PolicyRegistry)
      requires registry.signer == signer && SignerOk(signer) && IndexOk(repository.rows) && Filed(repository.rows)
      ensures Valid() && this.signer == signer && this.repository == repository && this.registry == registry
    {
      this.catalog, this.signer, this.repository, this.registry := catalog, signer, repository, registry;
    }

    method CreateDraft(p: Package) returns (ok: bool)
      requires Valid()
      modifies repository
      ensures Valid() && ok == DraftOk(old(Now()), p) && Now() == CreateDraftCall(old(Now()), p)
    {
      if !p.body.lifecycle.Draft? || p.body.packageId in repository.rows || p.body.rules.allowed.Malformed? {
        return false;
      }
      if p.body.rules.allowed.Listed? {
        var names := p.body.rules.allowed.actions;
        if exists i :: 0 <= i < |names| && names[i] !in catalog { return false; }
      }
      ok := repository.Save(p);
    }

    method Approve(id: Name, approver: Name) returns (r: Option<Package>)
      requires Valid()
      modifies repository
      ensures Valid() && Now() == ApproveCall(old(Now()), id, approver)
      ensures r.Some? <==> id in old(repository.rows) && old(repository.rows)[id].package.body.lifecycle.Draft?
                           && old(repository.rows)[id].package.body.author != approver
      ensures r.Some? ==> id in repository.rows && repository.rows[id].package == r.value
    {
      if id !in repository.rows || !repository.rows[id].package.body.lifecycle.Draft? { return None; }
      r := ApprovePackage(signer, repository.rows[id].package, approver);
      if r.Some? {
        var saved := repository.Save(r.value);
      }
    }

    method Retire(id: Name) returns (r: Option<Package>)
      requires Valid()
      modifies repository, registry
      ensures Valid() && Now() == RetireCall(old(Now()), id)
      ensures r == if id in old(repository.rows) then RetirePackage(signer, old(repository.rows)[id].package) else None
    {
      if id !in repository.rows { return None; }
      r := RetirePackage(signer, repository.rows[id].package);
      if r.Some? {
        var saved := repository.Save(r.value);
        registry.Retire(id);
      }
    }

    method RequireActive(id: Name) returns (r: Option<Package>)
      requires Valid()
      modifies registry
      ensures Valid() && r == Policy.RequireActive(old(Now()), id) && Now() == UseCall(old(Now()), r)
    {
      if id !in repository.rows { return None; }
      var p := repository.rows[id].package;
      if !p.body.lifecycle.Active? || !Verify(signer, p) { return None; }
      var ok := registry.LoadHistory(p);
      r := Some(p);
    }

    method RequireAuthorizationSnapshot(id: Name, signature: Signature) returns (r: Option<Package>)
      requires Valid()
      modifies registry
      ensures Valid() && r == RequireSnapshot(old(Now()), id, signature) && Now() == UseCall(old(Now()), r)
    {
      if id !in repository.rows { return None; }
      var p := repository.rows[id].package;
      if !History(p.body.lifecycle) || !Verify(signer, p) || p.activationSignature != Some(signature) { return None; }
      var ok := registry.LoadHistory(p);
      r := Some(p);
    }

    /** Signs the retirement of every rival of the package to be activated. */
    method RetireRivals(a: Package) returns (ok: bool, retired: seq<Package>)
      requires Valid()
      ensures ok == RivalsVerify(Now(), a)
      ensures ok ==> Retirements(signer, repository.rows, a, retired)
    {
      var prior := repository.List((l: Lifecycle) => l.Active?);
      retired := [];
      var i := 0;
      while i < |prior|
        invariant 0 <= i <= |prior|
        invariant DistinctIds(retired)
        invariant forall j :: 0 <= j < i && Rival(repository.rows, a, prior[j].body.packageId) ==>
                    Among(retired, prior[j].body.packageId)
        invariant forall j :: 0 <= j < |retired| ==> IsRetirement(signer, repository.rows, a, retired[j])
        invariant forall j :: 0 <= j < |retired| ==> Among(prior[..i], retired[j].body.packageId)
      {
        var p := prior[i];
        if p.body.procedureId == a.body.procedureId && p.body.jurisdiction == a.body.jurisdiction
           && p.body.packageId != a.body.packageId
        {
          var r := RetirePackage(signer, p);
          if r.None? {
            assert Rival(repository.rows, a, p.body.packageId);
            return false, [];
          }
          retired := Appended(retired, r.value);
        }
        Wider(prior, i);
        i := i + 1;
      }
      ok := true;
      forall k | Rival(repository.rows, a, k) ensures Among(retired, k) {
        assert Among(prior, k);
      }
      RetirementsVerify(Now(), a, retired);
    }

    method Activate(id: Name) returns (r: Option<Package>)
      requires Valid()
      modifies repository, registry
      ensures Valid() && ActivateNext(old(Now()), id, Now())
      ensures r.Some? ==> Activated(old(Now()), r.value, Now())
      ensures r.None? ==> Now() == old(Now())
    {
      hide Activated, Refused, RivalsVerify, Retirements, IndexOk, Filed, Verify;
      if id !in repository.rows { return None; }
      r := ActivatePackage(signer, repository.rows[id].package);
      if r.None? { return; }
      var ok, retired := RetireRivals(r.value);
      if !ok {
        UnverifiedRefused(Now(), r.value);
        return None;
      }
      SignedVerifies(signer, repository.rows[id].package);
      ok := Replace(r.value, retired);
      if !ok { r := None; }
    }

    /** The transaction that replaces the active package, and the registry updates that follow it. */
    method Replace(a: Package, retired: seq<Package>) returns (ok: bool)
      requires Valid() && a.body.lifecycle.Active? && Verify(signer, a)
               && Retirements(signer, repository.rows, a, retired)
      modifies repository, registry
      ensures Valid()
      ensures ok ==> Activated(old(Now()), a, Now())
      ensures !ok ==> Now() == old(Now()) && Refused(old(Now()), a)
    {
      hide RetirePackage, RetireRows, IndexOk, Verify, Replaced, Filed, Upsert, Retirements, RivalsVerify;
      ghost var rows := repository.rows;
      RetirementsVerify(Now(), a, retired);
      ReplacedByStatements(signer, rows, a, retired);
      RetirementIds(signer, rows, a, retired);
      ReplacedFiled(signer, rows, a, Upsert(RetireRows(rows, retired), a));
      ok := repository.ReplaceActive(a, retired);
      if !ok { return; }
      Uncache(retired);
      var loaded := registry.Load(a);
      assert Uncached(rows, a, old(registry.active), registry.active);
    }

    method Uncache(retired: seq<Package>)
      modifies registry`active
      ensures forall k :: k in registry.active <==> k in old(registry.active) && !Among(retired, k)
      ensures forall k :: k in registry.active ==> registry.active[k] == old(registry.active)[k]
    {
      var i := 0;
      while i < |retired|
        invariant 0 <= i <= |retired|
        invariant forall k :: k in registry.active <==> k in old(registry.active) && !Among(retired[..i], k)
        invariant forall k :: k in registry.active ==> registry.active[k] == old(registry.active)[k]
        modifies registry`active
      {
        registry.Retire(retired[i].body.packageId);
        Wider(retired, i);
        i := i + 1;
      }
      assert retired[..i] == retired;
    }

    /** Loads the executable history; one package that does not verify stops it. */
    method Hydrate() returns (ok: bool)
      requires Valid()
      modifies registry
      ensures Valid() && ok == HistoryVerifies(signer, repository.rows)
      ensures old(registry.active) == map[] && old(registry.packages) == map[] ==>
                && Genuine(signer, repository.rows, registry.active, registry.packages)
                && (ok ==> Hydrated(repository.rows, registry.active, registry.packages))
                && (!ok ==> StoppedShort(signer, repository.rows, registry.active, registry.packages))
    {
      hide Verify, IndexOk;
      var ps := repository.List(_ => true);
      assert Lists(repository.rows, ps);
      hide Filed, Loaded, Lists;
      ghost var blank := registry.active == map[] && registry.packages == map[];
      assert blank ==> Loaded(registry.active, registry.packages, ps[..0]) by { NothingLoaded(); }
      var i := 0;
      while i < |ps|
        invariant 0 <= i <= |ps|
        invariant forall j :: 0 <= j < i && History(ps[j].body.lifecycle) ==> Verify(signer, ps[j])
        invariant blank ==> Loaded(registry.active, registry.packages, ps[..i])
        modifies registry
      {
        if blank { LoadedMore(registry.active, registry.packages, ps, i); }
        if History(ps[i].body.lifecycle) {
          ok := registry.LoadHistory(ps[i]);
          if !ok {
            assert ps[i].body.packageId in repository.rows;
            if blank {
              LoadedIsGenuine(signer, repository.rows, registry.active, registry.packages, ps, i);
              Stops(signer, repository.rows, registry.active, registry.packages, ps, i);
            }
            return;
          }
        }
        i := i + 1;
      }
      assert ps[..i] == ps;
      ok := true;
      AllVerify(signer, repository.rows, ps);
      if blank {
        AllLoaded(repository.rows, registry.active, registry.packages, ps);
        LoadedIsGenuine(signer, repository.rows, registry.active, registry.packages, ps, i);
      }
    }

    /** What a starting process does: the registry is emptied and then hydrated. */
    method Restart() returns (ok: bool)
      requires Valid()
      modifies registry
      ensures Valid() && ok == HistoryVerifies(signer, repository.rows)
      ensures RestartNext(old(Now()), signer, Now())
      ensures Genuine(signer, repository.rows, registry.active, registry.packages)
    {
      hide HistoryVerifies, Hydrated, Genuine;
      registry.Clear();
      ok := Hydrate();
    }
  }
}

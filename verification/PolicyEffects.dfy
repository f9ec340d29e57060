/**
  What each call of the policy service brings about, stored row by stored row: drafts are
  stored, approvals signed, activations replace exactly their rivals, and a retirement ends
  a package's authorizations for good while those already given stand.
 */
module PolicyEffects {
  import opened Domain
  import opened Policy

  /** A state that some calls have led to from an empty service. */
  ghost predicate Reachable(s: State) {
    exists start, calls :: Fresh(start) && Reaches(start, calls, s)
  }

  lemma ReachableInv(s: State)
    requires Reachable(s)
    ensures Inv(s)
  {
    hide Inv, Fresh, Reaches, Evolves;
    var start, calls :| Fresh(start) && Reaches(start, calls, s);
    FreshInv(start);
    RunKeeps(start, calls, s);
  }

  /** All rows but one are as they were. */
  ghost predicate OthersKept(rows: Rows, id: Name, rows': Rows) {
    forall k :: k != id ==> (k in rows' <==> k in rows) && (k in rows ==> rows'[k] == rows[k])
  }

  // ---- Drafts and approvals ----

  /** A new draft whose actions are all in the catalog. */
  predicate Admissible(s: State, p: Package) {
    && p.body.lifecycle == Draft && p.body.packageId !in s.rows && p.body.rules.allowed != Malformed
    && (p.body.rules.allowed.Listed? ==>
         forall i :: 0 <= i < |p.body.rules.allowed.actions| ==> p.body.rules.allowed.actions[i] in s.catalog)
  }

  /** An admissible draft is stored as it is; anything else changes nothing. */
  lemma DraftIsStored(s: State, p: Package, s': State)
    requires Next(s, CreateDraft(p), s')
    ensures !Admissible(s, p) ==> s' == s
    ensures Admissible(s, p) ==>
              && p.body.packageId in s'.rows && s'.rows[p.body.packageId].package == p
              && OthersKept(s.rows, p.body.packageId, s'.rows)
  {
  }

  predicate Approvable(s: State, id: Name, approver: Name) {
    id in s.rows && s.rows[id].package.body.lifecycle == Draft && s.rows[id].package.body.author != approver
  }

  /**
    A draft approved by somebody else is stored as approved, signed with the current key;
    otherwise nothing changes.
   */
  lemma ApprovalIsStored(s: State, id: Name, approver: Name, s': State)
    requires Reachable(s) && Next(s, Approve(id, approver), s')
    ensures !Approvable(s, id, approver) ==> s' == s
    ensures Approvable(s, id, approver) ==>
              && id in s'.rows && OthersKept(s.rows, id, s'.rows)
              && var before, after := s.rows[id].package, s'.rows[id].package;
                 && after.body == before.body.(lifecycle := Approved, approver := Some(approver),
                                               signingKeyId := Some(s.signer.keyId))
                 && Verify(s.signer, after)
  {
    hide RowsOk, IndexOk, ActiveOk, PackagesOk, Reachable;
    ReachableInv(s);
    if id in s.rows { RowAt(s, id); }
  }

  // ---- Activation ----

  /** Active for the same procedure and jurisdiction. */
  predicate Competes(rows: Rows, k: Name, id: Name) {
    && k in rows && id in rows && rows[k].package.body.lifecycle == Active
    && rows[k].package.body.procedureId == rows[id].package.body.procedureId
    && rows[k].package.body.jurisdiction == rows[id].package.body.jurisdiction
  }

  /**
    An approved package becomes active with nothing else about it changed, every competitor
    is retired with its stamp and rules kept, and all other rows are as they were.
   */
  lemma ActivationTakesEffect(s: State, id: Name, s': State)
    requires Reachable(s) && Next(s, Activate(id), s')
    requires id in s.rows && s.rows[id].package.body.lifecycle == Approved
    ensures RequireActive(s', id).Some? && CachedActive(s', id) == RequireActive(s', id)
    ensures RequireActive(s', id).value.body
            == s.rows[id].package.body.(lifecycle := Active, signingKeyId := Some(s.signer.keyId))
    ensures forall k :: k in s.rows && k != id && !Competes(s.rows, k, id) ==> k in s'.rows && s'.rows[k] == s.rows[k]
    ensures forall k :: k in s.rows && k != id && Competes(s.rows, k, id) ==>
              && k in s'.rows && s'.rows[k].package.body.lifecycle == Retired
              && s'.rows[k].package.activationSignature == s.rows[k].package.activationSignature
              && s'.rows[k].package.body.rules == s.rows[k].package.body.rules
  {
    hide Next;
    ReachableInv(s);
    ActivationRows(s, id, s');
    ActivationCaches(s, id, s');
  }

  lemma ActivationRows(s: State, id: Name, s': State)
    requires Inv(s) && Next(s, Activate(id), s') && id in s.rows && s.rows[id].package.body.lifecycle == Approved
    ensures id in s'.rows
    ensures s'.rows[id].package.body
            == s.rows[id].package.body.(lifecycle := Active, signingKeyId := Some(s.signer.keyId))
    ensures forall k :: k in s.rows && k != id && !Competes(s.rows, k, id) ==> k in s'.rows && s'.rows[k] == s.rows[k]
    ensures forall k :: k in s.rows && k != id && Competes(s.rows, k, id) ==>
              && k in s'.rows && s'.rows[k].package.body.lifecycle == Retired
              && s'.rows[k].package.activationSignature == s.rows[k].package.activationSignature
              && s'.rows[k].package.body.rules == s.rows[k].package.body.rules
  {
    hide IndexOk, ActiveOk, PackagesOk, RivalsVerify, Uncached, Refused, RowOk, Verify, RetirePackage;
    RowAt(s, id);
    Columns(s.signer, id, s.rows[id]);
    ActivatedBody(s.signer, id, s.rows[id]);
    var a := ActivatePackage(s.signer, s.rows[id].package).value;
    ActivationNeverRefused(s, id);
    forall k | k in s.rows && k != id
      ensures Competes(s.rows, k, id) <==> Rival(s.rows, a, k)
      ensures !Rival(s.rows, a, k) ==> s'.rows[k] == s.rows[k]
      ensures Rival(s.rows, a, k) ==> s'.rows[k].package.body.lifecycle == Retired
      ensures s'.rows[k].package.activationSignature == s.rows[k].package.activationSignature
      ensures s'.rows[k].package.body.rules == s.rows[k].package.body.rules
    {
      RowAt(s, k);
      Columns(s.signer, k, s.rows[k]);
      OtherRow(s, a, s'.rows, k);
      Columns(s.signer, k, s'.rows[k]);
    }
  }

  lemma ActivatedBody(signer: Signer, id: Name, row: Row)
    requires SignerOk(signer) && RowOk(signer, id, row) && row.package.body.lifecycle == Approved
    ensures var a := ActivatePackage(signer, row.package);
            && a.Some? && a.value.body == row.package.body.(lifecycle := Active, signingKeyId := Some(signer.keyId))
            && a.value.body.packageId == id
  {
  }

  lemma ActivationCaches(s: State, id: Name, s': State)
    requires Inv(s) && Next(s, Activate(id), s') && id in s'.rows && s'.rows[id].package.body.lifecycle == Active
    ensures RequireActive(s', id) == Some(s'.rows[id].package) && CachedActive(s', id) == RequireActive(s', id)
  {
    hide Next, IndexOk, PackagesOk, Evolves, Verify;
    NextKeeps(s, Activate(id), s');
    RowAt(s', id);
  }

  // ---- Retirement ----

  lemma RetiredRowStays(s: State, call: Call, s': State, id: Name)
    requires Inv(s) && Next(s, call, s') && id in s.rows && s.rows[id].package.body.lifecycle == Retired
    ensures id in s'.rows && s'.rows[id] == s.rows[id]
  {
    hide RowsOk, IndexOk, ActiveOk, PackagesOk, ActivateNext, RestartNext;
    RowAt(s, id);
    match call
    case Activate(other) => ActivationSpares(s, other, s', id);
    case Restart(signer) => RestartKeeps(s, signer, s');
    case Retire(other) => if other in s.rows { RowAt(s, other); }
    case Approve(other, _) => if other in s.rows { RowAt(s, other); }
    case _ =>
  }

  lemma ActivationSpares(s: State, other: Name, s': State, id: Name)
    requires Inv(s) && ActivateNext(s, other, s') && id in s.rows && s.rows[id].package.body.lifecycle == Retired
    ensures id in s'.rows && s'.rows[id] == s.rows[id]
  {
    hide IndexOk, ActiveOk, PackagesOk, RivalsVerify, Uncached, Refused, RowOk, Verify, RetirePackage, ActivatePackage;
    if s' != s {
      RowAt(s, other);
      RowAt(s, id);
      Columns(s.signer, id, s.rows[id]);
      Columns(s.signer, other, s.rows[other]);
      ActivatedRow(s.signer, other, s.rows[other]);
      OtherRow(s, ActivatePackage(s.signer, s.rows[other].package).value, s'.rows, id);
    }
  }

  lemma {:induction false} RetiredForever(s: State, calls: seq<Call>, s': State, id: Name)
    requires Inv(s) && Reaches(s, calls, s') && id in s.rows && s.rows[id].package.body.lifecycle == Retired
    ensures id in s'.rows && s'.rows[id] == s.rows[id]
    decreases |calls|
  {
    hide Inv, Next, Evolves;
    if calls != [] {
      var mid :| Next(s, calls[0], mid) && Reaches(mid, calls[1..], s');
      NextKeeps(s, calls[0], mid);
      RetiredRowStays(s, calls[0], mid, id);
      RetiredForever(mid, calls[1..], s', id);
    }
  }

  /**
    Retiring the active package ends it: it is stored as retired, neither the repository nor
    the registry returns it as active, then or after any further calls, while its stamp is
    still accepted with the same rules, and no other row is touched.
   */
  lemma RetirementTakesEffect(s: State, id: Name, s': State, later: seq<Call>, s'': State)
    requires Reachable(s) && RequireActive(s, id).Some? && Next(s, Retire(id), s') && Reaches(s', later, s'')
    ensures id in s'.rows && s'.rows[id].package.body.lifecycle == Retired && OthersKept(s.rows, id, s'.rows)
    ensures RequireActive(s', id) == None && CachedActive(s', id) == None
    ensures RequireActive(s'', id) == None && CachedActive(s'', id) == None
    ensures var stamp := RequireActive(s, id).value.activationSignature;
            && stamp.Some?
            && RequireSnapshot(s', id, stamp.value).Some?
            && RequireSnapshot(s', id, stamp.value).value.body.rules == RequireActive(s, id).value.body.rules
  {
    hide Inv, Reaches, Verify, Evolves;
    ReachableInv(s);
    RetireStores(s, id, s');
    NextKeeps(s, Retire(id), s');
    StampHolds(s, s', id);
    RunKeeps(s', later, s'');
    RetiredForever(s', later, s'', id);
    RetiredIsInactive(s', id);
    RetiredIsInactive(s'', id);
  }

  lemma RetireStores(s: State, id: Name, s': State)
    requires Inv(s) && RequireActive(s, id).Some? && Next(s, Retire(id), s')
    ensures id in s'.rows && s'.rows[id].package.body.lifecycle == Retired && OthersKept(s.rows, id, s'.rows)
  {
    hide IndexOk, ActiveOk, PackagesOk;
    RowAt(s, id);
  }

  lemma RetiredIsInactive(s: State, id: Name)
    requires Inv(s) && id in s.rows && s.rows[id].package.body.lifecycle == Retired
    ensures RequireActive(s, id) == None && CachedActive(s, id) == None
  {
    hide IndexOk, PackagesOk, Verify;
    RowAt(s, id);
  }

  // ---- Restarts and lookups ----

  /**
    A restart installs its signer, leaves every row alone and fills the registry with exactly
    the stored executable packages, as they are stored now.
   */
  lemma RestartTakesEffect(s: State, signer: Signer, s': State, id: Name)
    requires Reachable(s) && Next(s, Restart(signer), s')
    ensures s'.signer == signer && s'.rows == s.rows
    ensures id in s'.packages <==>
              id in s.rows
              && (s.rows[id].package.body.lifecycle == Active || s.rows[id].package.body.lifecycle == Retired)
    ensures id in s'.packages ==> s'.packages[id] == s.rows[id].package
    ensures id in s'.active <==> id in s.rows && s.rows[id].package.body.lifecycle == Active
    ensures id in s'.active ==> s'.active[id] == s.rows[id].package
  {
    hide IndexOk, ActiveOk, PackagesOk, Reachable, Verify;
    ReachableInv(s);
    forall k | k in s.rows && History(s.rows[k].package.body.lifecycle) ensures Verify(signer, s.rows[k].package) {
      RowAt(s, k);
      StillVerifies(s.signer, signer, s.rows[k].package);
    }
  }

  // ---- What the checks refuse ----

  /**
    A package whose signed fields have been changed does not verify, nor does one without a
    signature or still a draft.
   */
  lemma TamperedPackageFails(signer: Signer, p: Package, body: Body)
    requires Verify(signer, p)
    ensures body != p.body ==> !Verify(signer, p.(body := body))
    ensures !Verify(signer, p.(signature := None)) && p.body.lifecycle != Draft
  {
  }

  /** A snapshot is accepted, by repository and registry alike, exactly for the stamp of an executed package. */
  lemma SnapshotIsExact(s: State, id: Name, signature: Signature)
    requires Reachable(s)
    ensures RequireSnapshot(s, id, signature).Some? <==>
              id in s.rows && s.rows[id].package.activationSignature == Some(signature)
              && (s.rows[id].package.body.lifecycle == Active || s.rows[id].package.body.lifecycle == Retired)
    ensures CachedSnapshot(s, id, signature).Some? <==> RequireSnapshot(s, id, signature).Some?
  {
    hide RowsOk, IndexOk, ActiveOk, Verify, Reachable;
    ReachableInv(s);
    if id in s.rows { RowAt(s, id); }
  }
}

/**
  The registry of action connectors: which configurations are accepted, how they are
  built, and that the binding stamped at authorization keeps naming the same connector.
 */
module ConnectorRegistry {
  import opened Domain

  datatype Scheme = Http | Https | Ws | Wss | OtherScheme

  /** A parsed URL. */
  datatype Endpoint = Endpoint(scheme: Scheme, host: Option<Name>, rest: Name)

  /** How HTTP status codes map to outcomes. */
  datatype Statuses = Statuses(succeeded: set<int>, accepted: set<int>, failed: set<int>)

  datatype Transport =
    | Sqlite(url: Name)
    | Rest(endpoint: Endpoint, hosts: set<Name>, secret: Option<Name>, timeout: real, statuses: Statuses,
           reconciles: bool)
    | Python(factory: Name)
    | WebSocket(endpoint: Endpoint, hosts: set<Name>, secret: Option<Name>)

  datatype Binding = Binding(
    action: ActionName, id: Name, version: Name, contract: Name, transport: Transport, enabled: bool)

  /** A connector is an object; two are the same when they were made from the same settings. */
  datatype Connector =
    | SqliteConnector(handle: Name)
    | RestConnector(id: Name, transport: Transport)
    | PythonConnector(id: Name, factory: Name)

  datatype Resolved = Resolved(action: ActionName, id: Name, version: Name, contract: Name, connector: Connector)

  /** What construction reads besides the configuration: foreign code is a set of names that load. */
  datatype Host = Host(
    production: bool,
    sqlite: map<Name, Connector>,
    actionNames: map<ActionName, Name>,
    contracts: set<Transport>,
    factories: set<Name>)

  type Key = (ActionName, Name, Name)

  datatype Registry = Registry(resolved: map<Key, Resolved>, active: map<ActionName, Resolved>)

  // ---- Accepted configurations ----

  predicate IdCharacter(c: char) {
    'A' <= c <= 'Z' || 'a' <= c <= 'z' || '0' <= c <= '9' || c == '_' || c == '.' || c == ':' || c == '-'
  }

  /** The endpoint's host is named in the list of allowed hosts. */
  predicate Reachable(e: Endpoint, hosts: set<Name>) {
    e.host.Some? && e.host.value in hosts
  }

  /** Credentials are references, never the secrets themselves. */
  predicate ByReference(secret: Option<Name>) {
    secret.Some? && secret.value.text != "" ==> "env://" <= secret.value.text || "secret://" <= secret.value.text
  }

  predicate Disjoint(s: Statuses) {
    s.succeeded !! s.accepted && s.succeeded !! s.failed && s.accepted !! s.failed
  }

  predicate TransportOk(t: Transport) {
    match t
    case Sqlite(url) => "sqlite" <= url.text
    case Rest(e, hosts, secret, timeout, statuses, reconciles) =>
      && (e.scheme.Http? || e.scheme.Https?) && Reachable(e, hosts) && ByReference(secret)
      && 0.0 < timeout <= 120.0 && Disjoint(statuses) && (statuses.accepted != {} ==> reconciles)
    case Python(_) => true
    case WebSocket(e, hosts, secret) => (e.scheme.Ws? || e.scheme.Wss?) && Reachable(e, hosts) && ByReference(secret)
  }

  predicate BindingOk(catalog: set<ActionName>, b: Binding) {
    && b.action in catalog
    && b.id.text != "" && (forall i :: 0 <= i < |b.id.text| ==> IdCharacter(b.id.text[i]))
    && b.version.text != "" && b.contract.text != ""
    && TransportOk(b.transport)
  }

  ghost predicate OneEnabledPerAction(bs: seq<Binding>) {
    forall i, j :: 0 <= i < j < |bs| && bs[i].enabled && bs[j].enabled ==> bs[i].action != bs[j].action
  }

  ghost predicate UniqueIdentities(bs: seq<Binding>) {
    forall i, j :: 0 <= i < j < |bs| ==> (bs[i].id, bs[i].version) != (bs[j].id, bs[j].version)
  }

  ghost predicate Acceptable(catalog: set<ActionName>, bs: seq<Binding>) {
    (forall i :: 0 <= i < |bs| ==> BindingOk(catalog, bs[i])) && OneEnabledPerAction(bs) && UniqueIdentities(bs)
  }

  /** The validators, which compare the length of a list with the size of the set of its elements. */
  method Accepts(catalog: set<ActionName>, bs: seq<Binding>) returns (ok: bool)
    ensures ok <==> Acceptable(catalog, bs)
  {
    var names: set<ActionName>, identities: set<(Name, Name)>, i := {}, {}, 0;
    while i < |bs|
      invariant 0 <= i <= |bs| && Acceptable(catalog, bs[..i])
      invariant forall a :: a in names <==> exists j :: 0 <= j < i && bs[j].enabled && bs[j].action == a
      invariant forall k :: k in identities <==> exists j :: 0 <= j < i && (bs[j].id, bs[j].version) == k
    {
      var b := bs[i];
      if !BindingOk(catalog, b) || (b.enabled && b.action in names) || (b.id, b.version) in identities {
        return false;
      }
      if b.enabled { names := names + {b.action}; }
      identities := identities + {(b.id, b.version)};
      i := i + 1;
    }
    assert bs[..i] == bs;
    return true;
  }

  // ---- Construction ----

  function Connect(host: Host, b: Binding): Option<Connector> {
    match b.transport
    case Sqlite(_) =>
      if host.production then None
      else if b.id in host.sqlite then Some(host.sqlite[b.id])
      else if b.action in host.actionNames && host.actionNames[b.action] in host.sqlite
      then Some(host.sqlite[host.actionNames[b.action]])
      else None
    case Rest(endpoint, _, _, _, _, _) =>
      if host.production && endpoint.scheme != Https then None
      else if b.transport !in host.contracts then None
      else Some(RestConnector(b.id, b.transport))
    case Python(factory) => if factory in host.factories then Some(PythonConnector(b.id, factory)) else None
    case WebSocket(_, _, _) => None
  }

  function KeyOf(b: Binding): Key {
    (b.action, b.id, b.version)
  }

  function Resolve1(b: Binding, c: Connector): Resolved {
    Resolved(b.action, b.id, b.version, b.contract, c)
  }

  function Add(r: Registry, b: Binding, c: Connector): Registry {
    var active := if b.enabled then r.active[b.action := Resolve1(b, c)] else r.active;
    Registry(r.resolved[KeyOf(b) := Resolve1(b, c)], active)
  }

  /** One binding that cannot be connected fails the whole registry. */
  function Build(host: Host, bs: seq<Binding>): Option<Registry> {
    if bs == [] then Some(Registry(map[], map[]))
    else
      var rest, b := Build(host, bs[..|bs| - 1]), bs[|bs| - 1];
      if rest.None? || Connect(host, b).None? then None else Some(Add(rest.value, b, Connect(host, b).value))
  }

  lemma BuildExtend(host: Host, bs: seq<Binding>, b: Binding)
    ensures Build(host, bs + [b]) ==
            if Build(host, bs).None? || Connect(host, b).None? then None
            else Some(Add(Build(host, bs).value, b, Connect(host, b).value))
  {
    assert (bs + [b])[..|bs|] == bs;
  }

  lemma {:induction false} BuildPrefixFails(host: Host, bs: seq<Binding>, n: nat)
    requires n <= |bs| && Build(host, bs[..n]).None?
    ensures Build(host, bs).None?
    decreases |bs|
  {
    if n == |bs| {
      assert bs[..n] == bs;
    } else {
      assert bs[..|bs| - 1][..n] == bs[..n];
      BuildPrefixFails(host, bs[..|bs| - 1], n);
    }
  }

  method BuildRegistry(host: Host, bs: seq<Binding>) returns (r: Option<Registry>)
    ensures r == Build(host, bs)
  {
    var resolved: map<Key, Resolved>, active: map<ActionName, Resolved>, i := map[], map[], 0;
    while i < |bs|
      invariant 0 <= i <= |bs| && Build(host, bs[..i]) == Some(Registry(resolved, active))
    {
      var b := bs[i];
      assert bs[..i + 1] == bs[..i] + [b];
      BuildExtend(host, bs[..i], b);
      var connector := Connect(host, b);
      if connector.None? {
        BuildPrefixFails(host, bs, i + 1);
        return None;
      }
      resolved := resolved[KeyOf(b) := Resolve1(b, connector.value)];
      if b.enabled { active := active[b.action := Resolve1(b, connector.value)]; }
      i := i + 1;
    }
    assert bs[..i] == bs;
    return Some(Registry(resolved, active));
  }

  // ---- Resolution ----

  predicate Given(n: Option<Name>) {
    n.Some? && n.value.text != ""
  }

  function Resolve(catalog: set<ActionName>, r: Registry, action: ActionName, pin: BindingRef): Option<Resolved> {
    if action !in catalog then None
    else if pin == BindingRef(None, None, None) then
      if action in r.active then Some(r.active[action]) else None
    else if !Given(pin.id) || !Given(pin.version) || !Given(pin.contract) then None
    else
      var key := (action, pin.id.value, pin.version.value);
      if key in r.resolved && r.resolved[key].contract == pin.contract.value then Some(r.resolved[key]) else None
  }

  /** The binding reference the gateway stamps on a command. */
  function Stamp(r: Resolved): BindingRef {
    BindingRef(Some(r.id), Some(r.version), Some(r.contract))
  }

  // ---- The pin ----

  /** A binding of an accepted configuration is found under its own key. */
  lemma {:induction false} ResolvedHolds(host: Host, bs: seq<Binding>, i: nat)
    requires UniqueIdentities(bs) && Build(host, bs).Some? && i < |bs|
    ensures Connect(host, bs[i]).Some?
    ensures KeyOf(bs[i]) in Build(host, bs).value.resolved
    ensures Build(host, bs).value.resolved[KeyOf(bs[i])] == Resolve1(bs[i], Connect(host, bs[i]).value)
    decreases |bs|
  {
    var n := |bs| - 1;
    if i < n {
      ResolvedHolds(host, bs[..n], i);
      assert KeyOf(bs[i]) != KeyOf(bs[n]);
    }
  }

  /** What is active comes from an enabled binding of the configuration. */
  lemma {:induction false} ActiveComesFrom(host: Host, bs: seq<Binding>, action: ActionName) returns (i: nat)
    requires Build(host, bs).Some? && action in Build(host, bs).value.active
    ensures i < |bs| && bs[i].enabled && bs[i].action == action && Connect(host, bs[i]).Some?
    ensures Build(host, bs).value.active[action] == Resolve1(bs[i], Connect(host, bs[i]).value)
    decreases |bs|
  {
    var n := |bs| - 1;
    if bs[n].enabled && bs[n].action == action {
      i := n;
    } else {
      i := ActiveComesFrom(host, bs[..n], action);
    }
  }

  /** A later configuration keeps a binding, enabled or not, on a host that connects it alike. */
  ghost predicate Keeps(host: Host, b: Binding, host': Host, bs': seq<Binding>) {
    exists j :: 0 <= j < |bs'| && bs'[j] == b.(enabled := bs'[j].enabled) && Connect(host', bs'[j]) == Connect(host, b)
  }

  lemma PinnedResolves(catalog: set<ActionName>, host: Host, b: Binding, host': Host, bs': seq<Binding>)
    requires Acceptable(catalog, bs') && Build(host', bs').Some? && Connect(host, b).Some?
    requires Keeps(host, b, host', bs') && BindingOk(catalog, b)
    ensures var r := Resolve1(b, Connect(host, b).value);
            Resolve(catalog, Build(host', bs').value, b.action, Stamp(r)) == Some(r)
  {
    hide Build, Connect;
    var j :| 0 <= j < |bs'| && bs'[j] == b.(enabled := bs'[j].enabled) && Connect(host', bs'[j]) == Connect(host, b);
    ResolvedHolds(host', bs', j);
  }

  /**
    The binding stamped at authorization resolves to the connector chosen then, under the
    same configuration and under any later accepted one that keeps the binding.
   */
  lemma BindingIsPinned(catalog: set<ActionName>, host: Host, bs: seq<Binding>, action: ActionName,
                        host': Host, bs': seq<Binding>)
    requires Acceptable(catalog, bs) && Build(host, bs).Some? && Acceptable(catalog, bs') && Build(host', bs').Some?
    requires Resolve(catalog, Build(host, bs).value, action, BindingRef(None, None, None)).Some?
    ensures var r := Resolve(catalog, Build(host, bs).value, action, BindingRef(None, None, None)).value;
            && r.action == action
            && Resolve(catalog, Build(host, bs).value, action, Stamp(r)) == Some(r)
            && (forall b :: b in bs && b.enabled && b.action == action && Keeps(host, b, host', bs') ==>
                 Resolve(catalog, Build(host', bs').value, action, Stamp(r)) == Some(r))
  {
    hide Build, Connect, Resolve;
    var r := Resolve(catalog, Build(host, bs).value, action, BindingRef(None, None, None)).value;
    var i := ChosenBinding(catalog, host, bs, action);
    assert Keeps(host, bs[i], host, bs);
    PinnedResolves(catalog, host, bs[i], host, bs);
    forall b | b in bs && b.enabled && b.action == action && Keeps(host, b, host', bs')
      ensures Resolve(catalog, Build(host', bs').value, action, Stamp(r)) == Some(r)
    {
      assert b == bs[i] by { EnabledIsUnique(bs, b, i); }
      PinnedResolves(catalog, host, bs[i], host', bs');
    }
  }

  lemma ChosenBinding(catalog: set<ActionName>, host: Host, bs: seq<Binding>, action: ActionName) returns (i: nat)
    requires Build(host, bs).Some?
    requires Resolve(catalog, Build(host, bs).value, action, BindingRef(None, None, None)).Some?
    ensures i < |bs| && bs[i].enabled && bs[i].action == action && Connect(host, bs[i]).Some?
    ensures Resolve(catalog, Build(host, bs).value, action, BindingRef(None, None, None)).value
            == Resolve1(bs[i], Connect(host, bs[i]).value)
  {
    hide Build, Connect;
    i := ActiveComesFrom(host, bs, action);
  }

  lemma EnabledIsUnique(bs: seq<Binding>, b: Binding, i: nat)
    requires OneEnabledPerAction(bs) && b in bs && b.enabled && i < |bs| && bs[i].enabled && bs[i].action == b.action
    ensures b == bs[i]
  {
    var j :| 0 <= j < |bs| && bs[j] == b;
    assert !(i < j) && !(j < i);
  }

  // ---- What can be built, and what is found ----

  /**
    In production only HTTPS and loaded factories connect; the sandbox database connects outside
    it, by id or by name.
   */
  predicate Connectable(host: Host, b: Binding) {
    match b.transport
    case Sqlite(_) =>
      !host.production
      && (b.id in host.sqlite || (b.action in host.actionNames && host.actionNames[b.action] in host.sqlite))
    case Rest(e, _, _, _, _, _) => (host.production ==> e.scheme == Https) && b.transport in host.contracts
    case Python(factory) => factory in host.factories
    case WebSocket(_, _, _) => false
  }

  /** A connector is made from its own binding's settings. */
  predicate MadeFor(host: Host, b: Binding, c: Connector) {
    match b.transport
    case Sqlite(_) => c in host.sqlite.Values && (b.id in host.sqlite ==> c == host.sqlite[b.id])
    case Rest(_, _, _, _, _, _) => c == RestConnector(b.id, b.transport)
    case Python(factory) => c == PythonConnector(b.id, factory)
    case WebSocket(_, _, _) => false
  }

  lemma ConnectIsExact(host: Host, b: Binding)
    ensures Connect(host, b).Some? <==> Connectable(host, b)
    ensures Connect(host, b).Some? ==> MadeFor(host, b, Connect(host, b).value)
  {
  }

  /** The registry is built exactly when every one of its bindings, enabled or not, can be connected. */
  lemma {:induction false} BuildIsExact(host: Host, bs: seq<Binding>)
    ensures Build(host, bs).Some? <==> forall i :: 0 <= i < |bs| ==> Connectable(host, bs[i])
    decreases |bs|
  {
    hide Connect, Connectable, Add;
    if bs != [] {
      BuildIsExact(host, bs[..|bs| - 1]);
      ConnectIsExact(host, bs[|bs| - 1]);
    }
  }

  /** The lookup found this binding, with a connector made for it. */
  predicate Finds(host: Host, b: Binding, found: Option<Resolved>) {
    && found.Some? && found.value.action == b.action && found.value.id == b.id && found.value.version == b.version
    && found.value.contract == b.contract && MadeFor(host, b, found.value.connector)
  }

  lemma {:induction false} EnabledIsActive(host: Host, bs: seq<Binding>, i: nat)
    requires Build(host, bs).Some? && i < |bs| && bs[i].enabled
    ensures bs[i].action in Build(host, bs).value.active
    decreases |bs|
  {
    hide Connect;
    if i < |bs| - 1 { EnabledIsActive(host, bs[..|bs| - 1], i); }
  }

  lemma {:induction false} ResolvedComesFrom(host: Host, bs: seq<Binding>, key: Key) returns (i: nat)
    requires Build(host, bs).Some? && key in Build(host, bs).value.resolved
    ensures i < |bs| && KeyOf(bs[i]) == key
    decreases |bs|
  {
    hide Connect;
    var n := |bs| - 1;
    if KeyOf(bs[n]) == key { i := n; } else { i := ResolvedComesFrom(host, bs[..n], key); }
  }

  /** Without a pin, the lookup finds the enabled binding of the action, if there is one. */
  lemma UnpinnedIsExact(catalog: set<ActionName>, host: Host, bs: seq<Binding>, action: ActionName)
    requires Acceptable(catalog, bs) && Build(host, bs).Some?
    ensures var found := Resolve(catalog, Build(host, bs).value, action, BindingRef(None, None, None));
            && (found.Some? <==> exists i :: 0 <= i < |bs| && bs[i].enabled && bs[i].action == action)
            && forall i :: 0 <= i < |bs| && bs[i].enabled && bs[i].action == action ==> Finds(host, bs[i], found)
  {
    hide Build, Connect, MadeFor, TransportOk;
    var found := Resolve(catalog, Build(host, bs).value, action, BindingRef(None, None, None));
    if found.Some? { var j := ChosenBinding(catalog, host, bs, action); }
    forall i | 0 <= i < |bs| && bs[i].enabled && bs[i].action == action ensures Finds(host, bs[i], found) {
      EnabledIsActive(host, bs, i);
      assert BindingOk(catalog, bs[i]);
      var j := ChosenBinding(catalog, host, bs, action);
      EnabledIsUnique(bs, bs[i], j);
      ConnectIsExact(host, bs[i]);
    }
  }

  /** With a pin, it finds the binding that bears all three of its names, enabled or not, and no other. */
  lemma PinnedIsExact(catalog: set<ActionName>, host: Host, bs: seq<Binding>, action: ActionName, pin: BindingRef)
    requires Acceptable(catalog, bs) && Build(host, bs).Some? && pin != BindingRef(None, None, None)
    ensures var found := Resolve(catalog, Build(host, bs).value, action, pin);
            && (found.Some? <==> exists i :: 0 <= i < |bs| && Pinned(bs[i], action, pin))
            && forall i :: 0 <= i < |bs| && Pinned(bs[i], action, pin) ==> Finds(host, bs[i], found)
  {
    hide Build, Connect, MadeFor, TransportOk;
    var found := Resolve(catalog, Build(host, bs).value, action, pin);
    if found.Some? {
      var i := ResolvedComesFrom(host, bs, (action, pin.id.value, pin.version.value));
      ResolvedHolds(host, bs, i);
      assert Pinned(bs[i], action, pin);
    }
    forall i | 0 <= i < |bs| && Pinned(bs[i], action, pin) ensures Finds(host, bs[i], found) {
      assert BindingOk(catalog, bs[i]);
      ResolvedHolds(host, bs, i);
      ConnectIsExact(host, bs[i]);
    }
  }

  predicate Pinned(b: Binding, action: ActionName, pin: BindingRef) {
    b.action == action && pin == BindingRef(Some(b.id), Some(b.version), Some(b.contract))
  }

  // ---- What an accepted transport may do ----

  /** A status code that is read in one way only, and read as pending only if there is a way to ask again. */
  predicate Unambiguous(t: Transport, code: int)
    requires t.Rest?
  {
    match (code in t.statuses.succeeded, code in t.statuses.accepted, code in t.statuses.failed)
    case (false, pending, failed) => if pending then !failed && t.reconciles else true
    case (true, pending, failed) => !pending && !failed
  }

  /** The secret names where it is kept. */
  predicate Referenced(secret: Option<Name>) {
    secret.Some? && secret.value.text != "" ==>
      var text := secret.value.text;
      (|text| >= 6 && text[..6] == "env://") || (|text| >= 9 && text[..9] == "secret://")
  }

  /**
    A transport is accepted exactly when it keeps to its scheme and its allowed hosts, names
    its secret without holding it, reads every status code in one way and waits a bounded time.
   */
  lemma TransportIsExact(t: Transport)
    ensures TransportOk(t) <==>
            match t
            case Sqlite(url) => |url.text| >= 6 && url.text[..6] == "sqlite"
            case Rest(e, hosts, secret, timeout, _, _) =>
              (e.scheme == Http || e.scheme == Https) && (exists h :: h in hosts && e.host == Some(h))
                  && Referenced(secret) && 0.0 < timeout && timeout <= 120.0 && forall code :: Unambiguous(t, code)
            case Python(_) => true
            case WebSocket(e, hosts, secret) =>
              (e.scheme == Ws || e.scheme == Wss) && (exists h :: h in hosts && e.host == Some(h)) && Referenced(secret)
  {
    if t.Rest? { StatusesExact(t); }
  }

  lemma StatusesExact(t: Transport)
    requires t.Rest?
    ensures Disjoint(t.statuses) && (t.statuses.accepted != {} ==> t.reconciles) <==>
            forall code :: Unambiguous(t, code)
  {
    if forall code :: Unambiguous(t, code) {
      forall code | code in t.statuses.succeeded || code in t.statuses.accepted || code in t.statuses.failed
        ensures !(code in t.statuses.succeeded && code in t.statuses.accepted)
        ensures !(code in t.statuses.succeeded && code in t.statuses.failed)
        ensures !(code in t.statuses.accepted && code in t.statuses.failed)
        ensures code in t.statuses.accepted ==> t.reconciles
      {
        assert Unambiguous(t, code);
      }
    }
  }
}

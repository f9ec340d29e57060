/**
  The sandbox provider: its effect ledger, its fault-injection scenarios and its
  authoritative resources.
 */
module Provider {
  import opened Domain

  datatype Scenario = Success | Rejected | TimeoutBeforeCommit | TimeoutAfterCommit

  /** `effects` is keyed by idempotency key, its primary key. */
  datatype Ledger = Ledger(
    effects: map<Name, Command>,
    scenarios: map<Name, Scenario>,
    resources: map<ResourceRef, Resource>)

  const BLANK := Ledger(map[], map[], map[])

  function ScenarioFor(l: Ledger, key: Name): Scenario {
    if key in l.scenarios then l.scenarios[key] else Success
  }

  /** INSERT OR IGNORE: the first command committed under a key stays. */
  function CommitEffect(l: Ledger, command: Command): Ledger {
    if command.key in l.effects then l else l.(effects := l.effects[command.key := command])
  }

  function WithResource(l: Ledger, ref: ResourceRef, payload: Params): Ledger {
    var version := if ref in l.resources then l.resources[ref].version + 1 else 1;
    l.(resources := l.resources[ref := Resource(payload, version)])
  }

  const REFUND_AMOUNT := Name("refund_amount")
  const AMOUNT := Name("amount")
  const CURRENCY := Name("currency")

  /** Fills in the fields older resource documents leave out. */
  function Normalize(action: ActionName, payload: Params): Params {
    var amounts :=
      if action == IssueRefund && REFUND_AMOUNT !in payload && AMOUNT in payload
      then payload[REFUND_AMOUNT := payload[AMOUNT]] else payload;
    if (action == IssueRefund || action == IssueStoreCredit) && CURRENCY !in amounts
    then amounts[CURRENCY := Text(Name("USD"))] else amounts
  }

  /** The scenarios in which a dispatch takes effect, whether or not it reports so. */
  predicate TakesEffect(s: Scenario) {
    s.Success? || s.TimeoutAfterCommit?
  }

  datatype Reply = Performed(replay: bool) | Declined | Unsure

  // ---- Any sequence of provider operations ----

  datatype Operation =
    | DispatchOp(command: Command)
    | ScriptOp(key: Name, scenario: Scenario)
    | SeedOp(ref: ResourceRef, payload: Params)

  function Perform(l: Ledger, op: Operation): Ledger {
    match op
    case DispatchOp(c) => if TakesEffect(ScenarioFor(l, c.key)) then CommitEffect(l, c) else l
    case ScriptOp(key, scenario) => l.(scenarios := l.scenarios[key := scenario])
    case SeedOp(ref, payload) => WithResource(l, ref, payload)
  }

  function PerformAll(l: Ledger, ops: seq<Operation>): Ledger
    decreases |ops|
  {
    if ops == [] then l else PerformAll(Perform(l, ops[0]), ops[1..])
  }

  /** The first dispatch under the key, if any, whose scenario at that moment lets it take effect. */
  function FirstEffect(l: Ledger, ops: seq<Operation>, key: Name): Option<Command>
    decreases |ops|
  {
    if ops == [] then None
    else if ops[0].DispatchOp? && ops[0].command.key == key && TakesEffect(ScenarioFor(l, key))
        then Some(ops[0].command)
    else FirstEffect(Perform(l, ops[0]), ops[1..], key)
  }

  lemma {:induction false} EffectIsTheFirst(l: Ledger, ops: seq<Operation>, key: Name)
    ensures var l' := PerformAll(l, ops);
            if key in l.effects then key in l'.effects && l'.effects[key] == l.effects[key]
            else match FirstEffect(l, ops, key)
                 case None => key !in l'.effects
                 case Some(c) => key in l'.effects && l'.effects[key] == c
    decreases |ops|
  {
    if ops != [] { EffectIsTheFirst(Perform(l, ops[0]), ops[1..], key); }
  }

  /** The provider's answer to a query. */
  function Answer(l: Ledger, key: Name): Reply {
    if key in l.effects then Performed(false) else Unsure
  }

  /**
    Over any operations on an empty provider, a query answers that an action was performed
    exactly when some dispatch under its key took effect, and the effect it reports is the
    first such dispatch's own command.
   */
  lemma QueriesAreTruthful(ops: seq<Operation>, key: Name)
    ensures Answer(PerformAll(BLANK, ops), key).Performed? <==> FirstEffect(BLANK, ops, key).Some?
    ensures FirstEffect(BLANK, ops, key).Some? ==>
              PerformAll(BLANK, ops).effects[key] == FirstEffect(BLANK, ops, key).value
  {
    hide PerformAll, FirstEffect;
    EffectIsTheFirst(BLANK, ops, key);
  }

  /** The scenario last scripted for a key. */
  function LastScript(ops: seq<Operation>, key: Name): Scenario
    decreases |ops|
  {
    if ops == [] then Success
    else
      var last := ops[|ops| - 1];
      if last.ScriptOp? && last.key == key then last.scenario else LastScript(ops[..|ops| - 1], key)
  }

  /** The payloads seeded for a resource, in order. */
  function SeedsOf(ops: seq<Operation>, ref: ResourceRef): seq<Params>
    decreases |ops|
  {
    if ops == [] then []
    else
      var front, last := SeedsOf(ops[..|ops| - 1], ref), ops[|ops| - 1];
      if last.SeedOp? && last.ref == ref then front + [last.payload] else front
  }

  lemma {:induction false} PerformLast(l: Ledger, ops: seq<Operation>)
    requires ops != []
    ensures PerformAll(l, ops) == Perform(PerformAll(l, ops[..|ops| - 1]), ops[|ops| - 1])
    decreases |ops|
  {
    hide Perform;
    if |ops| > 1 {
      PerformLast(Perform(l, ops[0]), ops[1..]);
      assert ops[1..][..|ops| - 2] == ops[..|ops| - 1][1..];
    } else {
      assert ops[1..] == [] && ops[..0] == [];
    }
  }

  /**
    A dispatch meets the scenario last scripted for its key, success if there is none; a
    resource has the payload last seeded for it, and its version counts the seedings.
   */
  lemma {:induction false} ProviderRemembers(ops: seq<Operation>, key: Name, ref: ResourceRef)
    ensures var l, seeds := PerformAll(BLANK, ops), SeedsOf(ops, ref);
            && ScenarioFor(l, key) == LastScript(ops, key)
            && (ref in l.resources <==> seeds != [])
            && (seeds != [] ==> l.resources[ref] == Resource(seeds[|seeds| - 1], |seeds|))
    decreases |ops|
  {
    hide PerformAll;
    if ops == [] {
      PerformNothing(BLANK);
    } else {
      ProviderRemembers(ops[..|ops| - 1], key, ref);
      PerformLast(BLANK, ops);
    }
  }

  lemma PerformNothing(l: Ledger)
    ensures PerformAll(l, []) == l
  {
  }

  /** The sandbox as an object; each method is proved against the ledger functions above. */
  class SandboxConnector {
    var effects: map<Name, Command>
    var scenarios: map<Name, Scenario>
    var resources: map<ResourceRef, Resource>

    ghost function Contents(): Ledger
      reads this
    {
      Ledger(effects, scenarios, resources)
    }

    constructor ()
      ensures Contents() == BLANK
    {
      effects, scenarios, resources := map[], map[], map[];
    }

    method PutResource(ref: ResourceRef, payload: Params)
      modifies this`resources
      ensures Contents() == Perform(old(Contents()), SeedOp(ref, payload))
    {
      if ref in resources {
        resources := resources[ref := Resource(payload, resources[ref].version + 1)];
      } else {
        resources := resources[ref := Resource(payload, 1)];
      }
    }

    method SetScenario(key: Name, scenario: Scenario)
      modifies this`scenarios
      ensures Contents() == Perform(old(Contents()), ScriptOp(key, scenario))
      ensures ScenarioFor(Contents(), key) == scenario
      ensures forall other :: other != key ==> ScenarioFor(Contents(), other) == ScenarioFor(old(Contents()), other)
    {
      scenarios := scenarios[key := scenario];
    }

    method Commit(command: Command)
      modifies this`effects
      ensures Contents() == CommitEffect(old(Contents()), command)
    {
      if command.key !in effects { effects := effects[command.key := command]; }
    }

    /** Repeating a dispatch under one key never adds a second effect, whatever the scenario has become. */
    method Dispatch(command: Command) returns (r: Reply)
      modifies this`effects
      ensures Contents() == Perform(old(Contents()), DispatchOp(command))
      ensures command.key in old(effects) ==> r == Performed(true) && effects == old(effects)
      ensures command.key !in old(effects) ==>
                match ScenarioFor(old(Contents()), command.key)
                case Success => r == Performed(false) && effects == old(effects)[command.key := command]
                case Rejected => r == Declined && effects == old(effects)
                case TimeoutBeforeCommit => r == Unsure && effects == old(effects)
                case TimeoutAfterCommit => r == Unsure && effects == old(effects)[command.key := command]
    {
      if command.key in effects { return Performed(true); }
      var scenario := if command.key in scenarios then scenarios[command.key] else Success;
      if scenario == Rejected { return Declined; }
      if scenario == TimeoutBeforeCommit { return Unsure; }
      Commit(command);
      if scenario == TimeoutAfterCommit { return Unsure; }
      return Performed(false);
    }

    /** A query: it changes nothing, never declines, and tells the truth in the sense of `QueriesAreTruthful`. */
    method Reconcile(command: Command) returns (r: Reply)
      ensures r == Answer(Contents(), command.key) && !r.Declined?
    {
      if command.key in effects { return Performed(false); }
      return Unsure;
    }
  }
}

/**
  A small catalog and a submission under it, transaction by transaction: the stage on which
  concrete runs are set.
 */
module SampleRun {
  import opened Domain
  import opened CoreTables
  import opened Provider
  import opened Protocol
  import opened SoloRuns
  import Policy

  const N := Name("n")
  const UNBOUND := BindingRef(None, None, None)
  const TOOL := OtherAction(N)
  const PLAIN := Specification({}, {}, None, false, false)

  /** A catalog with one action that asks for nothing; the delivery settings are free. */
  function Settings(leaseSeconds: int, maxAttempts: int): Config {
    Config(map[TOOL := PLAIN], leaseSeconds, maxAttempts, true, false)
  }

  const OFFER := Offer(TOOL, map[], N, N, N, N, N, N, N, None, None, UNBOUND, 100)
  const REQUEST := Request(TOOL, map[], N, N, N, N, N, N, None, None, None, UNBOUND, N)
  const COMMAND := Command(TOOL, N, N, N, N, map[], map[], map[], None, None, None, UNBOUND)
  const CONTEXT := Confirmation(N, N, None, None)
  const CHOICE := Choice(false, 0, 0, N, [])
  const NO_POLICIES := Policy.State({}, Policy.Signer(N, N, map[N := N]), map[], map[], map[])

  // ---- The tables as a submission goes by, whatever the proposal's status ----

  function Proposed(status: ProposalStatus): Tables {
    EMPTY.(proposals := map[0 := Proposal(OFFER, status, None)])
  }

  function Opened(status: ProposalStatus): Tables {
    Proposed(status).(cases := map[N := Case(N, N, N, 0)], commits := map[N := 0])
  }

  function Inserted(status: ProposalStatus): Tables {
    Opened(status).(
      cases := map[N := Case(N, N, N, 1)],
      actions := map[0 := Action(COMMAND, Authorized)],
      keyIndex := map[N := 0],
      events := [Event(0, Requested), Event(0, Authorized)],
      outbox := map[0 := NewRow(0, 0)])
  }

  function State(t: Tables): Shared {
    Shared(t, BLANK, [], 0, map[TOOL := UNBOUND], NO_POLICIES)
  }

  function Submitting(f: Frame, pc: SubmitPc): Client {
    Client(InSubmit(REQUEST, pc), f)
  }

  function Authorizing(f: Frame, pc: AuthorizePc): Client {
    Client(InAuthorize(COMMAND, 0, pc), f)
  }

  ghost function StepOf(cfg: Config, t: Tables, cl: Client): Outcome {
    ClientStep(cfg, State(t), cl, CHOICE)
  }

  predicate Sample(cfg: Config) {
    cfg.specs == map[TOOL := PLAIN] && !cfg.governed
  }

  const COMMITTING := CommitFacts(map[], {}, NO_GROUNDS, 0)

  lemma SubmitSteps(cfg: Config, s: ProposalStatus, f: Frame)
    requires Sample(cfg)
    ensures StepOf(cfg, Proposed(s), Submitting(f, FindDuplicate))
            == Outcome(State(Proposed(s)), Submitting(f, FetchResource))
    ensures StepOf(cfg, Proposed(s), Submitting(f, FetchResource))
            == Outcome(State(Proposed(s)), Submitting(f, FetchCase(map[])))
    ensures StepOf(cfg, Proposed(s), Submitting(f, FetchCase(map[])))
            == Outcome(State(Proposed(s)), Submitting(f, MakeCase(map[])))
    ensures StepOf(cfg, Proposed(s), Submitting(f, MakeCase(map[])))
            == Outcome(State(Opened(s)), Submitting(f, COMMITTING))
  {
    hide StepAuthorize, StepAction, StepBridge, StepWorker;
  }

  lemma BuildStep(cfg: Config, s: ProposalStatus, f: Frame)
    requires Sample(cfg)
    ensures StepOf(cfg, Opened(s), Submitting(f, COMMITTING)) == Outcome(State(Opened(s)), Authorizing(f, Stamp))
  {
    hide StepAuthorize, StepAction, StepBridge, StepWorker;
  }

  lemma AuthorizeSteps(cfg: Config, s: ProposalStatus, f: Frame)
    requires Sample(cfg)
    ensures StepOf(cfg, Opened(s), Authorizing(f, Stamp)) == Outcome(State(Opened(s)), Authorizing(f, FindKey))
    ensures StepOf(cfg, Opened(s), Authorizing(f, FindKey)) == Outcome(State(Opened(s)), Authorizing(f, CheckFacts({})))
    ensures StepOf(cfg, Opened(s), Authorizing(f, CheckFacts({}))) == Outcome(State(Opened(s)), Authorizing(f, Insert))
  {
    hide StepSubmit, StepAction, StepBridge, StepWorker;
    assert COMMAND.factRefs.Keys == {};
  }

  const CREATED := InAction(Snapshot(0, COMMAND, Authorized), Entry)

  lemma InsertStep(cfg: Config, s: ProposalStatus, f: Frame)
    requires Sample(cfg)
    ensures StepOf(cfg, Opened(s), Authorizing(f, Insert)) == Outcome(State(Inserted(s)), Client(CREATED, f))
  {
    hide StepSubmit, StepAction, StepBridge, StepWorker;
    var t' := InsertAction(Opened(s), 0, 0, COMMAND, 0, 0).value;
    assert t'.cases == Inserted(s).cases;
    assert t'.events == Inserted(s).events;
  }

  /** Run alone, the request is authorized in nine transactions, whatever has become of the proposal. */
  lemma SoloSubmit(cfg: Config, s: ProposalStatus, f: Frame)
    requires Sample(cfg)
    ensures Solo(cfg, State(Proposed(s)), Submitting(f, FindDuplicate), CHOICE, 9)
            == Outcome(State(Inserted(s)), Client(CREATED, f))
  {
    hide ClientStep, Proposed, Opened, Inserted, State;
    SubmitSteps(cfg, s, f);
    BuildStep(cfg, s, f);
    AuthorizeSteps(cfg, s, f);
    InsertStep(cfg, s, f);
    SoloUnfold(cfg, Proposed(s), Submitting(f, FindDuplicate), 9);
    SoloUnfold(cfg, Proposed(s), Submitting(f, FetchResource), 8);
    SoloUnfold(cfg, Proposed(s), Submitting(f, FetchCase(map[])), 7);
    SoloUnfold(cfg, Proposed(s), Submitting(f, MakeCase(map[])), 6);
    SoloUnfold(cfg, Opened(s), Submitting(f, COMMITTING), 5);
    SoloUnfold(cfg, Opened(s), Authorizing(f, Stamp), 4);
    SoloUnfold(cfg, Opened(s), Authorizing(f, FindKey), 3);
    SoloUnfold(cfg, Opened(s), Authorizing(f, CheckFacts({})), 2);
    SoloUnfold(cfg, Opened(s), Authorizing(f, Insert), 1);
  }

  lemma SoloUnfold(cfg: Config, t: Tables, cl: Client, n: nat)
    requires n > 0
    ensures Solo(cfg, State(t), cl, CHOICE, n)
            == Solo(cfg, StepOf(cfg, t, cl).shared, StepOf(cfg, t, cl).client, CHOICE, n - 1)
  {
    hide ClientStep;
  }
}

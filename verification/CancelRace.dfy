/**
  Two runs in which a proposal ends CANCELLED although an action carries its key.  In the
  first, a submission under the key is authorized between the cancel's lookup and its
  write.  In the second the cancel is not interrupted at all, but a confirm has already
  passed its checks and goes on to authorize the action afterwards.
 */
module CancelRace {
  import opened Domain
  import opened CoreTables
  import opened Protocol
  import opened SoloRuns
  import opened SampleRun
  import opened Cancellation

  const CONFIG := Settings(30, 5)

  // ---- A submission between lookup and write ----

  const START := World(CONFIG, State(EMPTY), map[])
  const PENDING := State(Proposed(Pending))

  lemma RunFour(w: World, a: Move, b: Move, c: Move, d: Move)
    ensures Run(w, [a, b, c, d]) == Apply(Apply(Apply(Apply(w, a), b), c), d)
  {
    hide Apply;
    assert [a, b, c, d][1..] == [b, c, d] && [b, c, d][1..] == [c, d] && [c, d][1..] == [d] && [d][1..] == [];
    assert Run(Apply(w, a), [b, c, d]) == Run(Apply(Apply(w, a), b), [c, d]);
    assert Run(Apply(Apply(Apply(w, a), b), c), [d]) == Run(Apply(Apply(Apply(Apply(w, a), b), c), d), []);
  }

  lemma Proposes()
    ensures Apply(START, Propose(0, OFFER)) == World(CONFIG, PENDING, map[])
  {
    hide ClientStep;
  }

  const LOOKED_UP := [Propose(0, OFFER), Spawn(1, Cancel(0, CONTEXT)), Step(1, CHOICE), Step(1, CHOICE)]
  const WAITING := World(CONFIG, PENDING, map[1 := Client(InBridge(0, CancelWrite), Direct)])

  lemma CancelWaits()
    ensures Run(START, LOOKED_UP) == WAITING
  {
    hide ClientStep;
    Proposes();
    var w1 := World(CONFIG, PENDING, map[]);
    var w2 := Apply(w1, LOOKED_UP[1]);
    assert w2 == w1.(clients := map[1 := Client(InBridge(0, CancelRead(CONTEXT)), Direct)]);
    CancelReads(CONFIG, PENDING, 0, CONTEXT, CHOICE);
    var w3 := Apply(w2, LOOKED_UP[2]);
    assert w3 == w1.(clients := map[1 := Client(InBridge(0, CancelLookup(OFFER)), Direct)]);
    CancelLooksUp(CONFIG, PENDING, 0, OFFER, CHOICE);
    assert Apply(w3, LOOKED_UP[3]) == WAITING;
    RunFour(START, LOOKED_UP[0], LOOKED_UP[1], LOOKED_UP[2], LOOKED_UP[3]);
  }

  ghost function Overtaken(): World {
    Run(Apply(WAITING, Spawn(2, Submit(REQUEST))), Steps(2, CHOICE, 9))
  }

  /** An overtaken cancel: the proposal ends CANCELLED with an action carrying its key. */
  lemma CancelCanLoseTheRace()
    ensures Initial(START) && Run(START, LOOKED_UP) == WAITING
    ensures var t := Apply(Overtaken(), Step(1, CHOICE)).shared.tables;
            0 in t.proposals && t.proposals[0].status == Cancelled && Carried(t.actions, t.proposals[0].offer.key)
  {
    hide ClientStep, Run, Solo, Steps;
    CancelWaits();
    SoloSubmit(CONFIG, Pending, Direct);
    SoloRun(Apply(WAITING, Spawn(2, Submit(REQUEST))), 2, CHOICE, 9);
    var t := Inserted(Pending);
    assert Overtaken().shared == State(t) && Overtaken().clients[1] == WAITING.clients[1];
    BridgeWrite(CONFIG, State(t), 0, CancelWrite, Cancelled, None, CHOICE);
    assert t.actions[0].command.key == N;
  }

  // ---- A confirm that is already past its checks ----

  const CONFIRMING := OnConfirm(0, OFFER)
  const CHECKED := [Propose(0, OFFER), Spawn(1, Confirm(0, CONTEXT)), Step(1, CHOICE), Step(1, CHOICE)]
  const PAST_CHECKS := World(CONFIG, PENDING, map[1 := Submitting(CONFIRMING, FindDuplicate)])

  lemma ConfirmSteps()
    ensures StepOf(CONFIG, Proposed(Pending), Client(InBridge(0, ConfirmRead(CONTEXT)), Direct))
            == Outcome(PENDING, Client(InBridge(0, ConfirmVerify(OFFER, CONTEXT)), Direct))
    ensures StepOf(CONFIG, Proposed(Pending), Client(InBridge(0, ConfirmVerify(OFFER, CONTEXT)), Direct))
            == Outcome(PENDING, Submitting(CONFIRMING, FindDuplicate))
  {
    hide StepSubmit, StepAuthorize, StepAction, StepWorker;
    assert RequestFor(OFFER, PLAIN, CONTEXT) == REQUEST;
  }

  lemma ConfirmChecks()
    ensures Run(START, CHECKED) == PAST_CHECKS
  {
    hide ClientStep;
    Proposes();
    ConfirmSteps();
    var w1 := World(CONFIG, PENDING, map[]);
    var w2 := Apply(w1, CHECKED[1]);
    assert w2 == w1.(clients := map[1 := Client(InBridge(0, ConfirmRead(CONTEXT)), Direct)]);
    var w3 := Apply(w2, CHECKED[2]);
    assert w3 == w1.(clients := map[1 := Client(InBridge(0, ConfirmVerify(OFFER, CONTEXT)), Direct)]);
    assert Apply(w3, CHECKED[3]) == PAST_CHECKS;
    RunFour(START, CHECKED[0], CHECKED[1], CHECKED[2], CHECKED[3]);
  }

  /** The three transactions of the cancel, back to back. */
  lemma CancelAlone()
    ensures Solo(CONFIG, PENDING, Client(InBridge(0, CancelRead(CONTEXT)), Direct), CHOICE, 3)
            == Outcome(State(Proposed(Cancelled)), FINISHED)
  {
    hide ClientStep, Solo, CancelEffect;
    var read := Client(InBridge(0, CancelRead(CONTEXT)), Direct);
    var look := Client(InBridge(0, CancelLookup(OFFER)), Direct);
    var write := Client(InBridge(0, CancelWrite), Direct);
    CancelReads(CONFIG, PENDING, 0, CONTEXT, CHOICE);
    SoloStep(CONFIG, PENDING, read, CHOICE, 3, PENDING, look);
    CancelLooksUp(CONFIG, PENDING, 0, OFFER, CHOICE);
    SoloStep(CONFIG, PENDING, look, CHOICE, 2, PENDING, write);
    CancelLands();
    SoloStep(CONFIG, PENDING, write, CHOICE, 1, State(Proposed(Cancelled)), FINISHED);
    SoloDone(CONFIG, State(Proposed(Cancelled)), CHOICE, 0);
  }

  lemma CancelLands()
    ensures StepOf(CONFIG, Proposed(Pending), Client(InBridge(0, CancelWrite), Direct))
            == Outcome(State(Proposed(Cancelled)), FINISHED)
  {
    hide StepSubmit, StepAuthorize, StepAction, StepWorker;
    var t := Proposed(Pending);
    assert t.proposals[0 := Proposal(OFFER, Cancelled, None)] == Proposed(Cancelled).proposals;
  }

  ghost function Uninterrupted(): World {
    Run(Apply(PAST_CHECKS, Spawn(2, Cancel(0, CONTEXT))), Steps(2, CHOICE, 3))
  }

  /**
    An uninterrupted cancel after which the action still comes: the confirm that was past
    its checks authorizes it and stands before its dispatch.
   */
  lemma ConfirmCanOutliveCancel()
    ensures Initial(START) && Run(START, CHECKED) == PAST_CHECKS
    ensures var t := Uninterrupted().shared.tables;
            0 in t.proposals && t.proposals[0].status == Cancelled && !Carried(t.actions, t.proposals[0].offer.key)
    ensures var end := Run(Uninterrupted(), Steps(1, CHOICE, 9));
            var t := end.shared.tables;
            && 0 in t.proposals && t.proposals[0].status == Cancelled && Carried(t.actions, t.proposals[0].offer.key)
            && 1 in end.clients && end.clients[1] == Client(CREATED, CONFIRMING)
  {
    hide ClientStep, Run, Solo, Steps;
    ConfirmChecks();
    CancelAlone();
    SoloRun(Apply(PAST_CHECKS, Spawn(2, Cancel(0, CONTEXT))), 2, CHOICE, 3);
    var w := Uninterrupted();
    assert w.shared == State(Proposed(Cancelled)) && w.clients[1] == Submitting(CONFIRMING, FindDuplicate);
    SoloSubmit(CONFIG, Cancelled, CONFIRMING);
    SoloRun(w, 1, CHOICE, 9);
    assert Inserted(Cancelled).actions[0].command.key == N;
  }
}

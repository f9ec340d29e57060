/**
  Procedure definitions, their validation, and the executor that walks their step graph,
  as functions on values with the theorem about whole runs.
 */
module Procedure {
  import opened Domain

  const END := Name("end")

  datatype StepAction = ToolCall | OtherStep(name: Name)

  /** A field that may name a step; a null that is present names nothing and is never valid. */
  datatype Reference = Absent | Null | To(name: Name)

  /**
    A step of the definition.  A key that is absent is `None`; `refs` are the fields
    next_step, on_success and on_failure, `conditions` and `options` the next_step of each.
   */
  datatype Step = Step(
    id: Option<Name>, instruction: bool, action: Option<StepAction>, tool: bool,
    refs: seq<Reference>, conditions: seq<Reference>, options: seq<Reference>)

  // ---- Validation ----

  function StepIds(steps: seq<Step>): set<Name> {
    set i | 0 <= i < |steps| && steps[i].id.Some? :: steps[i].id.value
  }

  predicate RefsOk(refs: seq<Reference>, targets: set<Name>) {
    forall i :: 0 <= i < |refs| ==> refs[i].Absent? || (refs[i].To? && refs[i].name in targets)
  }

  predicate StepOk(s: Step, targets: set<Name>) {
    && s.id.Some? && s.instruction && s.action.Some? && (s.action.value.ToolCall? ==> s.tool)
    && RefsOk(s.refs, targets) && RefsOk(s.conditions, targets) && RefsOk(s.options, targets)
  }

  /** Every step is complete and refers only to steps of the procedure or to the end. */
  predicate WellFormed(steps: seq<Step>) {
    forall i :: 0 <= i < |steps| ==> StepOk(steps[i], StepIds(steps) + {END})
  }

  /** What validation reports: the step concerned and, for a reference, its value. */
  datatype Problem =
    | NoId
    | NoInstruction(step: Name)
    | NoAction(step: Name)
    | NoTool(step: Name)
    | BadReference(step: Name, value: Reference)

  predicate BadRef(ref: Reference, targets: set<Name>) {
    ref.Null? || (ref.To? && ref.name !in targets)
  }

  /** The reference is the first bad one of the list. */
  ghost predicate FirstBad(refs: seq<Reference>, targets: set<Name>, ref: Reference) {
    exists i :: 0 <= i < |refs| && refs[i] == ref && BadRef(ref, targets) && RefsOk(refs[..i], targets)
  }

  /** The problem of one step, in the order in which its parts are looked at. */
  ghost predicate StepProblem(s: Step, targets: set<Name>, problem: Problem) {
    && s.id.Some? && !problem.NoId? && problem.step == s.id.value
    && match problem
       case NoInstruction(_) => !s.instruction
       case NoAction(_) => s.instruction && s.action.None?
       case NoTool(_) => s.instruction && s.action == Some(ToolCall) && !s.tool
       case BadReference(_, ref) =>
         && s.instruction && s.action.Some? && (s.action.value.ToolCall? ==> s.tool)
         && (|| FirstBad(s.refs, targets, ref)
             || (RefsOk(s.refs, targets) && FirstBad(s.conditions, targets, ref))
             || (RefsOk(s.refs, targets) && RefsOk(s.conditions, targets) && FirstBad(s.options, targets, ref)))
  }

  method CheckRefs(refs: seq<Reference>, targets: set<Name>) returns (bad: Option<Reference>)
    ensures bad.None? <==> RefsOk(refs, targets)
    ensures bad.Some? ==> FirstBad(refs, targets, bad.value)
  {
    var i := 0;
    while i < |refs|
      invariant 0 <= i <= |refs| && RefsOk(refs[..i], targets)
    {
      if BadRef(refs[i], targets) { return Some(refs[i]); }
      i := i + 1;
    }
    assert refs[..i] == refs;
    return None;
  }

  method CheckStep(s: Step, targets: set<Name>) returns (problem: Option<Problem>)
    requires s.id.Some?
    ensures problem.None? <==> StepOk(s, targets)
    ensures problem.Some? ==> StepProblem(s, targets, problem.value)
  {
    hide RefsOk, FirstBad;
    var id := s.id.value;
    if !s.instruction { return Some(NoInstruction(id)); }
    if s.action.None? { return Some(NoAction(id)); }
    if s.action.value.ToolCall? && !s.tool { return Some(NoTool(id)); }
    var bad := CheckRefs(s.refs, targets);
    if bad.Some? { return Some(BadReference(id, bad.value)); }
    bad := CheckRefs(s.conditions, targets);
    if bad.Some? { return Some(BadReference(id, bad.value)); }
    bad := CheckRefs(s.options, targets);
    if bad.Some? { return Some(BadReference(id, bad.value)); }
    return None;
  }

  /** The ids are collected first, so a missing one is reported before anything else; then the first step in error. */
  method ValidateProcedure(steps: seq<Step>) returns (problem: Option<Problem>)
    ensures problem.None? <==> WellFormed(steps)
    ensures problem == Some(NoId) <==> exists i :: 0 <= i < |steps| && steps[i].id.None?
    ensures problem.Some? && !problem.value.NoId? ==>
              exists i :: 0 <= i < |steps| && StepProblem(steps[i], StepIds(steps) + {END}, problem.value)
                          && forall j :: 0 <= j < i ==> StepOk(steps[j], StepIds(steps) + {END})
  {
    hide RefsOk, FirstBad;
    if exists i :: 0 <= i < |steps| && steps[i].id.None? { return Some(NoId); }
    var targets, i := StepIds(steps) + {END}, 0;
    while i < |steps|
      invariant 0 <= i <= |steps|
      invariant forall j :: 0 <= j < i ==> StepOk(steps[j], targets)
    {
      problem := CheckStep(steps[i], targets);
      if problem.Some? { return; }
      i := i + 1;
    }
    return None;
  }

  // ---- The step graph ----

  /** A reference that names a step; the end and an empty name are not followed. */
  predicate Follows(refs: seq<Reference>, t: Name) {
    To(t) in refs && t != END
  }

  predicate Refers(s: Step, t: Name) {
    Follows(s.refs, t) || (t.text != "" && (Follows(s.conditions, t) || Follows(s.options, t)))
  }

  /** `valid` is the adjacency the executor enforces; a later step of the same id replaces an earlier one. */
  datatype Graph = Graph(id: Name, steps: map<Name, Step>, order: seq<Name>, valid: map<Name, set<Name>>)

  /** The definition declares a transition from one step to another. */
  ghost predicate Declared(steps: seq<Step>, from: Name, to: Name) {
    exists i :: 0 <= i < |steps| && steps[i].id == Some(from) && Refers(steps[i], to)
  }

  /** The graph built from a definition whose steps all have ids. */
  ghost predicate Built(steps: seq<Step>, g: Graph) {
    && |g.order| == |steps| && (forall i :: 0 <= i < |steps| ==> steps[i].id == Some(g.order[i]))
    && (forall id :: id in g.steps <==> id in g.order)
    && g.valid.Keys == g.steps.Keys
    && (forall id :: id in g.steps ==> g.steps[id] in steps && g.steps[id].id == Some(id))
    && (forall id, t :: id in g.steps ==> (t in g.valid[id] <==> t == END || Refers(g.steps[id], t)))
  }

  /** In a well-formed procedure every permitted target is the end or a step that exists. */
  lemma TargetsExist(steps: seq<Step>, g: Graph, id: Name, t: Name)
    requires WellFormed(steps) && Built(steps, g) && id in g.steps && t in g.valid[id] && t != END
    ensures t in g.steps && Declared(steps, id, t)
  {
    var s := g.steps[id];
    var i :| 0 <= i < |steps| && steps[i] == s;
    assert StepOk(steps[i], StepIds(steps) + {END});
    assert t in StepIds(steps);
    var j :| 0 <= j < |steps| && steps[j].id.Some? && steps[j].id.value == t;
    assert g.order[j] == t;
  }

  // ---- Execution ----

  datatype Mark = Active | Completed

  datatype Progress = NotStarted | InProgress | Finished

  /** The entries of the caller's session state that the executor keeps in step. */
  datatype Session = Session(procedure: Option<Name>, step: Option<Name>, completed: set<Name>, status: Progress)

  /** `visited` is a history variable: the steps entered, in order. */
  datatype Execution = Execution(
    status: Progress, current: Option<Name>, marks: map<Name, Mark>, session: Session, visited: seq<Name>)

  datatype Reply = Moved(step: Name) | Ended | NoActiveStep | InvalidTransition | UnknownStep | AlreadyStarted

  function CompletedSteps(marks: map<Name, Mark>): set<Name> {
    set id | id in marks && marks[id].Completed?
  }

  function Enter(g: Graph, e: Execution, id: Name): (Execution, Reply) {
    if id !in g.steps then (e, UnknownStep)
    else
      var marks := e.marks[id := Mark.Active];
      (e.(current := Some(id), marks := marks, visited := e.visited + [id],
          session := Session(Some(g.id), Some(id), CompletedSteps(marks), e.status)), Moved(id))
  }

  function Start(g: Graph, e: Execution): (Execution, Reply)
    requires g.order != []
  {
    if e.status.InProgress? then (e, AlreadyStarted)
    else
      var begun := e.(status := InProgress,
                      session := Session(Some(g.id), Some(g.order[0]), CompletedSteps(e.marks), InProgress));
      Enter(g, begun, g.order[0])
  }

  function Complete(e: Execution): Execution {
    e.(status := Finished, current := None, session := e.session.(step := None, status := Finished))
  }

  function Transition(g: Graph, e: Execution, target: Name): (Execution, Reply) {
    if e.current.None? then (e, NoActiveStep)
    else
      var c := e.current.value;
      if c !in g.valid || target !in g.valid[c] then (e, InvalidTransition)
      else
        var left := if c in e.marks then e.(marks := e.marks[c := Completed]) else e;
        if target == END then (Complete(left), Ended) else Enter(g, left, target)
  }

  /** Transitions asked for one after the other; refused ones change nothing. */
  function Walk(g: Graph, e: Execution, targets: seq<Name>): Execution
    decreases |targets|
  {
    if targets == [] then e else Walk(g, Transition(g, e, targets[0]).0, targets[1..])
  }

  // ---- Runs ----

  /** Consecutive steps are joined by permitted transitions. */
  predicate Path(g: Graph, visited: seq<Name>) {
    var n := |visited|;
    n <= 1 || (Path(g, visited[..n - 1]) && visited[n - 2] in g.valid && visited[n - 1] in g.valid[visited[n - 2]]
               && visited[n - 1] != END)
  }

  ghost predicate MarksOk(e: Execution) {
    && (forall id :: id in e.marks <==> id in e.visited)
    && (forall id :: id in e.marks ==> (e.marks[id].Active? <==> e.current == Some(id)))
  }

  ghost predicate RunOk(g: Graph, e: Execution) {
    && e.visited != [] && g.order != [] && e.visited[0] == g.order[0] && Path(g, e.visited)
    && (forall i :: 0 <= i < |e.visited| ==> e.visited[i] in g.steps)
    && MarksOk(e)
    && e.session.procedure == Some(g.id) && e.session.step == e.current && e.session.status == e.status
    && (e.current.Some? ==> e.status.InProgress? && e.current.value == e.visited[|e.visited| - 1]
                            && e.session.completed == CompletedSteps(e.marks))
    && (e.current.None? ==> e.status.Finished?)
  }

  const FRESH := Execution(NotStarted, None, map[], Session(None, None, {}, NotStarted), [])

  lemma StartOk(steps: seq<Step>, g: Graph, e: Execution)
    requires Built(steps, g) && steps != []
    requires e.status.NotStarted? && e.visited == [] && e.marks == map[]
    ensures Start(g, e).1 == Moved(g.order[0]) && RunOk(g, Start(g, e).0)
  {
    assert g.order[0] in g.order;
  }

  /** Entering a step that a permitted transition leads to. */
  lemma EnterOk(g: Graph, e: Execution, target: Name)
    requires RunOk(g, e) && e.current.Some? && target in g.steps && e.current.value in g.valid
    requires target in g.valid[e.current.value] && target != END
    ensures RunOk(g, Enter(g, e.(marks := e.marks[e.current.value := Completed]), target).0)
  {
    var e' := Enter(g, e.(marks := e.marks[e.current.value := Completed]), target).0;
    assert e'.visited[..|e.visited|] == e.visited;
  }

  lemma CompleteOk(g: Graph, e: Execution)
    requires RunOk(g, e) && e.current.Some?
    ensures RunOk(g, Complete(e.(marks := e.marks[e.current.value := Completed])))
  {
  }

  /** A permitted transition never fails on entry, a refused one changes nothing, and either keeps the run in order. */
  lemma TransitionOk(steps: seq<Step>, g: Graph, e: Execution, target: Name)
    requires WellFormed(steps) && Built(steps, g) && RunOk(g, e)
    ensures var (e', reply) := Transition(g, e, target);
            && RunOk(g, e') && !reply.UnknownStep?
            && (reply == Ended || reply == Moved(target) <==>
                 e.current.Some? && target in g.valid[e.current.value])
            && (!(reply == Ended || reply == Moved(target)) ==> e' == e)
  {
    hide WellFormed, Path;
    if e.current.Some? {
      var c := e.current.value;
      assert c in g.steps && c in g.valid && c in e.marks;
      if target in g.valid[c] {
        if target == END {
          CompleteOk(g, e);
        } else {
          TargetsExist(steps, g, c, target);
          EnterOk(g, e, target);
        }
      }
    }
  }

  lemma {:induction false} WalkOk(steps: seq<Step>, g: Graph, e: Execution, targets: seq<Name>)
    requires WellFormed(steps) && Built(steps, g) && RunOk(g, e)
    ensures RunOk(g, Walk(g, e, targets))
    decreases |targets|
  {
    hide WellFormed, Built, RunOk, Transition;
    if targets != [] {
      TransitionOk(steps, g, e, targets[0]);
      WalkOk(steps, g, Transition(g, e, targets[0]).0, targets[1..]);
    }
  }

  lemma {:induction false} PathIsDeclared(steps: seq<Step>, g: Graph, visited: seq<Name>)
    requires WellFormed(steps) && Built(steps, g) && Path(g, visited)
    requires forall i :: 0 <= i < |visited| ==> visited[i] in g.steps
    ensures forall i, j :: 0 <= i && j == i + 1 && j < |visited| ==> Declared(steps, visited[i], visited[j])
  {
    var n := |visited|;
    if n > 1 {
      var front := visited[..n - 1];
      PathIsDeclared(steps, g, front);
      TargetsExist(steps, g, visited[n - 2], visited[n - 1]);
      forall i, j | 0 <= i && j == i + 1 && j < n ensures Declared(steps, visited[i], visited[j]) {
        if j < n - 1 { assert front[i] == visited[i] && front[j] == visited[j]; }
      }
    }
  }

  /** What a run of a well-formed procedure looks like after each transition. */
  ghost predicate InOrder(steps: seq<Step>, g: Graph, e: Execution) {
    && e.visited != [] && g.order != [] && e.visited[0] == g.order[0]
    && (forall i, j :: 0 <= i && j == i + 1 && j < |e.visited| ==> Declared(steps, e.visited[i], e.visited[j]))
    && (forall id :: id in e.marks <==> id in e.visited)
    && (forall id :: id in e.marks ==> e.marks[id] == if e.current == Some(id) then Mark.Active else Completed)
    && (e.current.Some? <==> e.status.InProgress?)
    && (e.current.Some? ==> e.current.value == e.visited[|e.visited| - 1])
    && e.session.step == e.current && e.session.status == e.status
    && (e.current.Some? ==> e.session.completed == CompletedSteps(e.marks))
  }

  /**
    One start and any transitions, refused ones included: the steps visited are a path of
    the declared graph, exactly the current one is active, the others are completed, and
    the session state agrees.
   */
  lemma RunsFollowTheProcedure(steps: seq<Step>, g: Graph, targets: seq<Name>)
    requires WellFormed(steps) && Built(steps, g) && steps != [] && g.order != []
    ensures InOrder(steps, g, Walk(g, Start(g, FRESH).0, targets))
  {
    hide WellFormed, Built, Start, Walk, Path;
    StartOk(steps, g, FRESH);
    var e := Walk(g, Start(g, FRESH).0, targets);
    WalkOk(steps, g, Start(g, FRESH).0, targets);
    PathIsDeclared(steps, g, e.visited);
  }
}

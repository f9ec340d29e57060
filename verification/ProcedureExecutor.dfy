/**
  The procedure executor as an object that updates its own fields and the caller's
  session state, proved against the functions of `Procedure`.
 */
module ProcedureExecutor {
  import opened Domain
  import opened Procedure

  class SessionState {
    var procedure: Option<Name>
    var step: Option<Name>
    var completed: set<Name>
    var status: Progress

    ghost function View(): Session
      reads this
    {
      Session(procedure, step, completed, status)
    }

    constructor ()
      ensures View() == FRESH.session
    {
      procedure, step, completed, status := None, None, {}, NotStarted;
    }
  }

  class Executor {
    const id: Name
    var steps: map<Name, Step>
    var order: seq<Name>
    var valid: map<Name, set<Name>>
    var status: Progress
    var current: Option<Name>
    var marks: map<Name, Mark>
    ghost var visited: seq<Name>

    ghost function TheGraph(): Graph
      reads this
    {
      Graph(id, steps, order, valid)
    }

    ghost function State(session: SessionState): Execution
      reads this, session
    {
      Execution(status, current, marks, session.View(), visited)
    }

    /** Builds the graph from the steps, in order. */
    constructor (id: Name, definition: seq<Step>)
      requires forall i :: 0 <= i < |definition| ==> definition[i].id.Some?
      ensures this.id == id && Built(definition, TheGraph())
      ensures status == NotStarted && current == None && marks == map[] && visited == []
    {
      this.id := id;
      status, current, marks, visited := NotStarted, None, map[], [];
      steps, order, valid := map[], [], map[];
      new;
      hide Built, Refers;
      var i := 0;
      assert definition[..0] == [];
      BuiltEmpty(id);
      while i < |definition|
        invariant 0 <= i <= |definition| && Built(definition[..i], TheGraph())
        invariant this.id == id && status == NotStarted && current == None && marks == map[] && visited == []
      {
        var s := definition[i];
        var targets := Targets(s);
        BuiltMore(definition, i, TheGraph(), targets);
        steps, order, valid := steps[s.id.value := s], order + [s.id.value], valid[s.id.value := targets];
        i := i + 1;
      }
      assert definition[..i] == definition;
    }

    /** Marks a step active and brings the session state in line. */
    method EnterStep(step: Name, session: SessionState) returns (r: Reply)
      modifies this, session
      ensures (State(session), r) == Enter(old(TheGraph()), old(State(session)), step) && TheGraph() == old(TheGraph())
    {
      if step !in steps { return UnknownStep; }
      marks := marks[step := Mark.Active];
      current := Some(step);
      visited := visited + [step];
      session.procedure, session.step, session.completed, session.status :=
          Some(id), Some(step), CompletedSteps(marks), status;
      return Moved(step);
    }

    method Start(session: SessionState) returns (r: Reply)
      requires order != []
      modifies this, session
      ensures (State(session), r) == Procedure.Start(old(TheGraph()), old(State(session)))
              && TheGraph() == old(TheGraph())
    {
      if status == InProgress { return AlreadyStarted; }
      status := InProgress;
      session.procedure, session.step, session.completed, session.status :=
          Some(id), Some(order[0]), CompletedSteps(marks), status;
      r := EnterStep(order[0], session);
    }

    method Complete(session: SessionState) returns (r: Reply)
      modifies this, session
      ensures State(session) == Procedure.Complete(old(State(session))) && r == Ended && TheGraph() == old(TheGraph())
    {
      status, current := Finished, None;
      session.status, session.step := Finished, None;
      return Ended;
    }

    method Transition(target: Name, session: SessionState) returns (r: Reply)
      modifies this, session
      ensures (State(session), r) == Procedure.Transition(old(TheGraph()), old(State(session)), target)
      ensures TheGraph() == old(TheGraph())
    {
      if current.None? { return NoActiveStep; }
      if current.value !in valid || target !in valid[current.value] { return InvalidTransition; }
      if current.value in marks { marks := marks[current.value := Completed]; }
      if target == END {
        r := Complete(session);
      } else {
        r := EnterStep(target, session);
      }
    }
  }

  /** The names among the references that lead to a step. */
  method Followed(refs: seq<Reference>, emptyToo: bool) returns (targets: set<Name>)
    ensures forall t :: t in targets <==> Follows(refs, t) && (emptyToo || t.text != "")
  {
    targets := {};
    var i := 0;
    while i < |refs|
      invariant 0 <= i <= |refs|
      invariant forall t :: t in targets <==> Follows(refs[..i], t) && (emptyToo || t.text != "")
    {
      assert refs[..i + 1] == refs[..i] + [refs[i]];
      if refs[i].To? && refs[i].name != END && (emptyToo || refs[i].name.text != "") {
        targets := targets + {refs[i].name};
      }
      i := i + 1;
    }
    assert refs[..i] == refs;
  }

  method Targets(s: Step) returns (targets: set<Name>)
    ensures forall t :: t in targets <==> t == END || Refers(s, t)
  {
    targets := Followed(s.refs, true);
    var conditions := Followed(s.conditions, false);
    var options := Followed(s.options, false);
    targets := targets + conditions + options + {END};
  }

  lemma BuiltEmpty(id: Name)
    ensures Built([], Graph(id, map[], [], map[]))
  {
  }

  lemma BuiltMore(definition: seq<Step>, i: nat, g: Graph, targets: set<Name>)
    requires i < |definition| && definition[i].id.Some? && Built(definition[..i], g)
    requires forall t :: t in targets <==> t == END || Refers(definition[i], t)
    ensures var s := definition[i];
            Built(definition[..i + 1],
                  Graph(g.id, g.steps[s.id.value := s], g.order + [s.id.value], g.valid[s.id.value := targets]))
  {
    hide Refers;
    assert definition[..i + 1] == definition[..i] + [definition[i]];
  }
}

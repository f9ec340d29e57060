/**
  One client taking several steps while nothing else moves.
 */
module SoloRuns {
  import opened Protocol

  ghost function Solo(cfg: Config, sh: Shared, cl: Client, ch: Choice, n: nat): Outcome
    decreases n
  {
    if n == 0 then Outcome(sh, cl)
    else
      var out := ClientStep(cfg, sh, cl, ch);
      Solo(cfg, out.shared, out.client, ch, n - 1)
  }

  function Steps(c: nat, ch: Choice, n: nat): seq<Move> {
    seq(n, _ => Step(c, ch))
  }

  lemma {:induction false} SoloRun(w: World, c: nat, ch: Choice, n: nat)
    requires c in w.clients
    ensures var out := Solo(w.cfg, w.shared, w.clients[c], ch, n);
            Run(w, Steps(c, ch, n)) == w.(shared := out.shared, clients := w.clients[c := out.client])
    decreases n
  {
    hide ClientStep;
    if n == 0 {
      assert w.clients[c := w.clients[c]] == w.clients;
    } else {
      assert Steps(c, ch, n)[1..] == Steps(c, ch, n - 1);
      SoloRun(Apply(w, Step(c, ch)), c, ch, n - 1);
    }
  }

  /** One step of a client running alone. */
  lemma SoloStep(cfg: Config, sh: Shared, cl: Client, ch: Choice, n: nat, sh': Shared, cl': Client)
    requires n > 0 && ClientStep(cfg, sh, cl, ch) == Outcome(sh', cl')
    ensures Solo(cfg, sh, cl, ch, n) == Solo(cfg, sh', cl', ch, n - 1)
  {
    hide ClientStep;
  }

  /** A client that has finished stays as it is. */
  lemma {:induction false} SoloDone(cfg: Config, sh: Shared, ch: Choice, n: nat)
    ensures Solo(cfg, sh, FINISHED, ch, n) == Outcome(sh, FINISHED)
  {
    hide StepSubmit, StepAuthorize, StepAction, StepBridge, StepWorker;
    if n > 0 { SoloDone(cfg, sh, ch, n - 1); }
  }

  // ---- Choices made step by step ----

  ghost function Script(cfg: Config, sh: Shared, cl: Client, chs: seq<Choice>): Outcome
    decreases |chs|
  {
    if chs == [] then Outcome(sh, cl)
    else
      var out := ClientStep(cfg, sh, cl, chs[0]);
      Script(cfg, out.shared, out.client, chs[1..])
  }

  function StepsOf(c: nat, chs: seq<Choice>): seq<Move> {
    if chs == [] then [] else [Step(c, chs[0])] + StepsOf(c, chs[1..])
  }

  lemma {:induction false} ScriptRun(w: World, c: nat, chs: seq<Choice>)
    requires c in w.clients
    ensures var out := Script(w.cfg, w.shared, w.clients[c], chs);
            Run(w, StepsOf(c, chs)) == w.(shared := out.shared, clients := w.clients[c := out.client])
    decreases |chs|
  {
    hide ClientStep;
    if chs == [] {
      assert w.clients[c := w.clients[c]] == w.clients;
    } else {
      assert StepsOf(c, chs)[1..] == StepsOf(c, chs[1..]);
      ScriptRun(Apply(w, Step(c, chs[0])), c, chs[1..]);
    }
  }

  /** One step, then the rest of the script. */
  lemma ScriptStep(cfg: Config, sh: Shared, cl: Client, ch: Choice, sh': Shared, cl': Client, chs: seq<Choice>)
    requires ClientStep(cfg, sh, cl, ch) == Outcome(sh', cl')
    ensures Script(cfg, sh, cl, [ch] + chs) == Script(cfg, sh', cl', chs)
  {
    hide ClientStep;
    assert ([ch] + chs)[1..] == chs;
  }

  lemma {:induction false} ScriptAppend(cfg: Config, sh: Shared, cl: Client, a: seq<Choice>, b: seq<Choice>)
    ensures Script(cfg, sh, cl, a + b)
            == Script(cfg, Script(cfg, sh, cl, a).shared, Script(cfg, sh, cl, a).client, b)
    decreases |a|
  {
    hide ClientStep;
    if a == [] {
      assert a + b == b;
    } else {
      assert (a + b)[0] == a[0] && (a + b)[1..] == a[1..] + b;
      var out := ClientStep(cfg, sh, cl, a[0]);
      ScriptAppend(cfg, out.shared, out.client, a[1..], b);
    }
  }

  function Same(ch: Choice, n: nat): seq<Choice> {
    if n == 0 then [] else [ch] + Same(ch, n - 1)
  }

  lemma {:induction false} SoloIsScript(cfg: Config, sh: Shared, cl: Client, ch: Choice, n: nat)
    ensures Script(cfg, sh, cl, Same(ch, n)) == Solo(cfg, sh, cl, ch, n)
    decreases n
  {
    hide ClientStep;
    if n > 0 {
      var out := ClientStep(cfg, sh, cl, ch);
      ScriptStep(cfg, sh, cl, ch, out.shared, out.client, Same(ch, n - 1));
      SoloIsScript(cfg, out.shared, out.client, ch, n - 1);
    }
  }

  lemma {:induction false} RunAppend(w: World, a: seq<Move>, b: seq<Move>)
    ensures Run(w, a + b) == Run(Run(w, a), b)
    decreases |a|
  {
    hide Apply;
    if a == [] {
      assert a + b == b;
    } else {
      assert (a + b)[0] == a[0] && (a + b)[1..] == a[1..] + b;
      RunAppend(Apply(w, a[0]), a[1..], b);
    }
  }

  lemma RunFirst(w: World, m: Move, moves: seq<Move>)
    ensures Run(w, [m] + moves) == Run(Apply(w, m), moves)
  {
    hide Apply;
    assert ([m] + moves)[1..] == moves;
  }
}

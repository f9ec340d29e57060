/**
  The verify-and-rewrite loop around a generated response.  Pattern filtering, rule
  checking and generation are arbitrary functions; a generator that raises returns `None`.
 */
module Steering {
  import opened Domain

  type Text = Name

  datatype Severity = Error | Warning | Note

  datatype Finding = Finding(severity: Severity, description: Name)

  datatype Verdict = Valid | Invalid | Satisfiable | NotApplicable

  datatype Verification = Verification(verdict: Verdict, findings: seq<Finding>, hint: Option<Name>)

  predicate HasError(findings: seq<Finding>) {
    exists i :: 0 <= i < |findings| && findings[i].severity.Error?
  }

  predicate HasWarning(findings: seq<Finding>) {
    exists i :: 0 <= i < |findings| && findings[i].severity.Warning?
  }

  /** The verdict that a set of findings leads to. */
  function Judge(findings: seq<Finding>, hint: Name): (v: Verification)
    ensures v.findings == findings
    ensures v.verdict.Invalid? <==> HasError(findings)
    ensures v.verdict.NotApplicable? <==> findings == []
    ensures v.verdict.Satisfiable? <==> HasWarning(findings) && !HasError(findings)
    ensures v.hint == if HasError(findings) then Some(hint) else None
  {
    if findings == [] then Verification(NotApplicable, [], None)
    else if HasError(findings) then Verification(Invalid, findings, Some(hint))
    else if HasWarning(findings) then Verification(Satisfiable, findings, None)
    else Verification(Valid, findings, None)
  }

  /** What the loop is given: filtering, checking, hints built from findings, maybe a generator, and a safe fallback. */
  datatype Rails = Rails(
    clean: Text -> Text,
    violations: Text -> seq<Name>,
    check: Text -> seq<Finding>,
    hint: seq<Finding> -> Name,
    generate: Option<nat -> Option<Text>>,
    fallback: Text)

  function Verify(r: Rails, text: Text): Verification {
    Judge(r.check(text), r.hint(r.check(text)))
  }

  /** The violations found in the raw texts, in order. */
  function AllViolations(r: Rails, raw: seq<Text>): seq<Name> {
    if raw == [] then [] else AllViolations(r, raw[..|raw| - 1]) + r.violations(raw[|raw| - 1])
  }

  lemma ViolationsAppend(r: Rails, raw: seq<Text>, t: Text)
    ensures AllViolations(r, raw + [t]) == AllViolations(r, raw) + r.violations(t)
  {
    assert (raw + [t])[..|raw|] == raw;
  }

  /** The raw texts are the response and then what the generator returned, call by call. */
  ghost predicate Generated(r: Rails, text: Text, raw: seq<Text>) {
    && raw != [] && raw[0] == text
    && (forall i :: 1 <= i < |raw| ==> r.generate.Some? && r.generate.value(i - 1) == Some(raw[i]))
  }

  /** Every text before the last was found in error. */
  ghost predicate EarlierFailed(r: Rails, raw: seq<Text>) {
    forall i :: 0 <= i < |raw| - 1 ==> HasError(r.check(r.clean(raw[i])))
  }

  /** The generator, asked once more, has nothing to return. */
  predicate GivesUp(r: Rails, maxIterations: int, tried: nat) {
    tried - 1 < maxIterations && tried > 0 && r.generate.Some? && r.generate.value(tried - 1) == None
  }

  /** No rewrite is left to try: the calls are used up, there is no generator, or it gives up. */
  predicate Exhausted(r: Rails, maxIterations: int, tried: nat) {
    tried == maxIterations + 1 || r.generate == None || GivesUp(r, maxIterations, tried)
  }

  lemma Begins(r: Rails, text: Text)
    ensures Generated(r, text, [text]) && EarlierFailed(r, [text]) && AllViolations(r, [text]) == r.violations(text)
  {
    ViolationsAppend(r, [], text);
    assert [] + [text] == [text];
  }

  /** A text in error is followed by what the next generator call returns. */
  lemma Continues(r: Rails, text: Text, raw: seq<Text>, next: Text)
    requires Generated(r, text, raw) && EarlierFailed(r, raw) && HasError(r.check(r.clean(raw[|raw| - 1])))
    requires r.generate.Some? && r.generate.value(|raw| - 1) == Some(next)
    ensures Generated(r, text, raw + [next]) && EarlierFailed(r, raw + [next])
    ensures AllViolations(r, raw + [next]) == AllViolations(r, raw) + r.violations(next)
  {
    hide HasError;
    ViolationsAppend(r, raw, next);
  }

  /**
    `raw` lists the texts that were filtered, `calls` counts generator calls and `checks`
    verifications.
   */
  method SteerResponse(r: Rails, text: Text, enabled: bool, maxIterations: int)
    returns (out: Text, violations: seq<Name>, verification: Option<Verification>, raw: seq<Text>, calls: nat,
             checks: nat)
    ensures Generated(r, text, raw) && EarlierFailed(r, raw) && violations == AllViolations(r, raw)
    ensures enabled && maxIterations >= 0 ==> calls <= maxIterations && 1 <= checks <= maxIterations + 1
    ensures verification.Some? <==> enabled && maxIterations >= 0
    ensures verification.Some? ==>
              var last := r.clean(raw[|raw| - 1]);
              && verification.value == Verify(r, last)
              && out == if HasError(r.check(last)) then r.fallback else last
    ensures verification.Some? ==>
              var failed, n := HasError(r.check(r.clean(raw[|raw| - 1]))), |raw|;
              && checks == n <= maxIterations + 1 && (failed ==> Exhausted(r, maxIterations, n))
              && calls == if failed && GivesUp(r, maxIterations, n) then n else n - 1
    ensures verification.None? ==> raw == [text] && out == r.clean(text) && calls == 0 && checks == 0
  {
    hide HasError, Generated, EarlierFailed, AllViolations;
    Begins(r, text);
    raw := [text];
    out, violations, verification, calls, checks := r.clean(text), r.violations(text), None, 0, 0;
    if !enabled { return; }
    var iteration := 0;
    while iteration < maxIterations + 1
      invariant 0 <= iteration && (maxIterations >= 0 ==> iteration <= maxIterations)
      invariant Generated(r, text, raw) && EarlierFailed(r, raw) && violations == AllViolations(r, raw)
      invariant calls == iteration && checks == iteration && |raw| == iteration + 1 && out == r.clean(raw[|raw| - 1])
      invariant iteration > 0 ==> verification.Some?
      invariant maxIterations < 0 ==> iteration == 0 && verification.None?
      invariant iteration == 0 ==> verification.None? && raw == [text]
      decreases maxIterations + 1 - iteration
    {
      var v := Verify(r, out);
      verification, checks := Some(v), checks + 1;
      if v.verdict.Valid? || v.verdict.NotApplicable? { break; }
      if !(iteration < maxIterations && r.generate.Some? && v.hint.Some?) { break; }
      var rewritten := r.generate.value(iteration);
      calls := calls + 1;
      if rewritten.None? { break; }
      Continues(r, text, raw, rewritten.value);
      raw := raw + [rewritten.value];
      out, violations := r.clean(rewritten.value), violations + r.violations(rewritten.value);
      iteration := iteration + 1;
    }
    if verification.Some? && verification.value.verdict.Invalid? { out := r.fallback; }
  }
}

/** The benchmark adapter's report: assertions, verdict, score, phases and cause of one trial. */
module BenchAdapter {
  import opened Options
  import opened BoundedText

  // ---------------------------------------------------------------- text

  function TrimStart(s: string): (r: string) { if s != [] && IsSpace(s[0]) then TrimStart(s[1..]) else s }

  function LowerChar(c: char): (r: char) { if 'A' <= c <= 'Z' then ((c as int) + 32) as char else c }

  function Lower(s: string): (r: string) { seq(|s|, i requires 0 <= i < |s| => LowerChar(s[i])) }

  predicate StandsAt(s: string, part: string, i: nat) { i + |part| <= |s| && s[i..i + |part|] == part }

  predicate Contains(s: string, part: string) { exists i | 0 <= i <= |s| :: StandsAt(s, part, i) }

  // ---------------------------------------------------------------- assertions

  datatype Assertion = Assertion(name: string, passed: bool)

  predicate IsPass(status: string) { Lower(status) == "pass" || Lower(status) == "passed" }

  /** The harness reports a failure mode. */
  predicate Reports(mode: Option<string>) { mode.Some? && mode.value != "none" && mode.value != "unset" }

  function FromResults(results: seq<(string, string)>): (r: seq<Assertion>) {
    seq(|results|, i requires 0 <= i < |results| => Assertion(results[i].0, IsPass(results[i].1)))
  }

  predicate AllPassed(assertions: seq<Assertion>) { forall a <- assertions :: a.passed }

  function Assertions(results: seq<(string, string)>, resolved: bool, mode: Option<string>): (r: seq<Assertion>) {
    var tested := FromResults(results) + if Reports(mode) then [Assertion("harness_failure_mode", false)] else [];
    tested + if tested == [] || (!resolved && AllPassed(tested)) then [Assertion("resolved", resolved)] else []
  }

  method EvaluationAssertions(results: seq<(string, string)>, resolved: bool, mode: Option<string>)
    returns (r: seq<Assertion>)
    ensures r == Assertions(results, resolved, mode)
  {
    r := [];
    for i := 0 to |results|
      invariant r == FromResults(results)[..i]
    {
      r := r + [Assertion(results[i].0, IsPass(results[i].1))];
    }
    assert r == FromResults(results);
    if Reports(mode) { r := r + [Assertion("harness_failure_mode", false)]; }
    if r == [] || (!resolved && AllPassed(r)) { r := r + [Assertion("resolved", resolved)]; }
  }

  function Passed(assertions: seq<Assertion>): (n: nat)
    ensures n <= |assertions|
  {
    if assertions == [] then 0 else (if assertions[0].passed then 1 else 0) + Passed(assertions[1..])
  }

  lemma {:induction false} PassedIsAll(assertions: seq<Assertion>)
    ensures Passed(assertions) == |assertions| <==> AllPassed(assertions)
  {
    if assertions != [] {
      PassedIsAll(assertions[1..]);
      assert assertions == [assertions[0]] + assertions[1..];
    }
  }

  // ---------------------------------------------------------------- phases and cause

  datatype Phase = Setup | Agent | Test | AssertionPhase

  datatype PhaseStatus = TimedOut | Error | FailedPhase | PassedPhase | UnknownPhase

  predicate Fails(s: PhaseStatus) { s.TimedOut? || s.Error? || s.FailedPhase? }

  function Alias(mode: string): (r: string) {
    if mode == "runtime_command_timeout" then "agent_timeout"
    else if mode == "setup_timeout" || mode == "docker_timeout" then "environment_timeout"
    else if mode == "docker_build" then "docker_build_failure"
    else if mode == "parse" then "parse_error"
    else mode
  }

  function NormalizedFailure(mode: Option<string>): (r: Option<string>) {
    if mode.None? then None
    else
      var text := Lower(TrimEnd(TrimStart(mode.value)));
      if text == "" || text == "none" || text == "unset" then None else Some(Alias(text))
  }

  function PhaseOf(failure: string): (p: Phase) {
    if failure in {"agent_installation_failed", "setup_failure", "docker_build_failure", "environment_timeout"}
       || Contains(failure, "install") || Contains(failure, "setup") then Setup
    else if failure in {"agent_timeout", "provider_timeout", "parse_error"} || Contains(failure, "agent") then Agent
    else if failure in {"test_timeout", "external_verifier_failure"} || Contains(failure, "test") then Test
    else AssertionPhase
  }

  predicate Unmet(assertions: seq<Assertion>, resolved: bool) { !AllPassed(assertions) || !resolved }

  function FailurePhase(assertions: seq<Assertion>, resolved: bool, failure: Option<string>): (p: Option<Phase>) {
    if failure.Some? then Some(PhaseOf(failure.value))
    else if Unmet(assertions, resolved) then Some(AssertionPhase)
    else None
  }

  /** The status of a phase; `completed` says whether the trial recorded its end. */
  function StatusFor(p: Phase, completed: bool, assertions: seq<Assertion>, resolved: bool, failure: Option<string>)
    : (s: PhaseStatus)
  {
    if FailurePhase(assertions, resolved, failure) == Some(p) then
      if failure.Some? && Contains(failure.value, "timeout") then TimedOut
      else if failure.Some? then Error
      else FailedPhase
    else if (p.Test? || p.AssertionPhase?) && Unmet(assertions, resolved) then FailedPhase
    else if p.AssertionPhase? then (if assertions != [] then PassedPhase else UnknownPhase)
    else if completed then PassedPhase
    else UnknownPhase
  }

  datatype Cause = Cause(code: string, phase: Phase, retryable: bool)

  function TerminalCause(assertions: seq<Assertion>, resolved: bool, failure: Option<string>): (c: Option<Cause>) {
    var phase := FailurePhase(assertions, resolved, failure);
    if phase.None? then None
    else if failure.Some? then
      Some(Cause(failure.value, phase.value,
        failure.value in {"agent_timeout", "provider_timeout", "test_timeout", "environment_timeout"}))
    else Some(Cause("assertion_failed", phase.value, false))
  }

  datatype Report = Report(pass: bool, score: nat, scoreMax: nat, cause: Option<Cause>,
    statuses: map<Phase, PhaseStatus>)

  function Evaluate(results: seq<(string, string)>, resolved: bool, mode: Option<string>, completed: map<Phase, bool>)
    : (r: Report)
    requires forall p: Phase :: p in completed
  {
    var assertions := Assertions(results, resolved, mode);
    var failure := NormalizedFailure(mode);
    var passed, total := Passed(assertions), |assertions|;
    Report(resolved && passed == total, passed, if total > 0 then total else 1,
           TerminalCause(assertions, resolved, failure),
           map p | p in {Setup, Agent, Test, AssertionPhase} ::
             StatusFor(p, completed[p], assertions, resolved, failure))
  }

  /** When every assertion passes, the trial is resolved and reports no failure. */
  lemma AllPassedMeans(results: seq<(string, string)>, resolved: bool, mode: Option<string>)
    ensures Assertions(results, resolved, mode) != []
    ensures AllPassed(Assertions(results, resolved, mode)) ==>
      resolved && !Reports(mode) && NormalizedFailure(mode).None?
  {
    var tested := FromResults(results) + if Reports(mode) then [Assertion("harness_failure_mode", false)] else [];
    var all := Assertions(results, resolved, mode);
    assert forall a <- tested :: a in all;
    if Reports(mode) { assert tested[|tested| - 1] == Assertion("harness_failure_mode", false); }
    if tested == [] || (!resolved && AllPassed(tested)) { assert all[|all| - 1] == Assertion("resolved", resolved); }
    QuietModes();
  }

  lemma QuietModes()
    ensures NormalizedFailure(Some("none")).None? && NormalizedFailure(Some("unset")).None?
  {
    assert TrimStart("none") == "none" && TrimEnd("none") == "none";
    assert TrimStart("unset") == "unset" && TrimEnd("unset") == "unset";
    assert Lower("none") == "none" && Lower("unset") == "unset";
  }

  /** For every trial: the verdict is pass exactly when the score is full, and exactly when there is no
      cause. A cause names a phase that fails; without one no phase fails, and with one exactly the
      named phase and, when an assertion or the resolution failed, the test and assertion phases do. */
  lemma ReportIsConsistent(results: seq<(string, string)>, resolved: bool, mode: Option<string>,
    completed: map<Phase, bool>)
    requires forall p: Phase :: p in completed
    ensures
      var r := Evaluate(results, resolved, mode, completed);
      && (r.pass <==> r.score == r.scoreMax)
      && (r.pass <==> r.cause.None?)
      && (r.cause.Some? ==> Fails(r.statuses[r.cause.value.phase]))
      && (r.cause.None? ==> forall p <- r.statuses :: !Fails(r.statuses[p]))
      && (r.cause.Some? ==> forall p <- r.statuses :: Fails(r.statuses[p]) <==>
            p == r.cause.value.phase || ((p.Test? || p.AssertionPhase?)
              && Unmet(Assertions(results, resolved, mode), resolved)))
      && (r.cause.Some? && r.cause.value.retryable ==> r.statuses[r.cause.value.phase].TimedOut?)
  {
    var assertions := Assertions(results, resolved, mode);
    AllPassedMeans(results, resolved, mode);
    PassedIsAll(assertions);
    var failure := NormalizedFailure(mode);
    if failure.Some? { RetryableTimesOut(failure.value); }
  }

  lemma RetryableTimesOut(failure: string)
    ensures failure in {"agent_timeout", "provider_timeout", "test_timeout", "environment_timeout"} ==>
      Contains(failure, "timeout")
  {
    if failure == "agent_timeout" { assert StandsAt(failure, "timeout", 6); }
    if failure == "provider_timeout" { assert StandsAt(failure, "timeout", 9); }
    if failure == "test_timeout" { assert StandsAt(failure, "timeout", 5); }
    if failure == "environment_timeout" { assert StandsAt(failure, "timeout", 12); }
  }
}

/** Health identity and the readiness wait: when an answer from /health may be taken for the recorded app's. */
module Readiness {
  import opened DaemonState
  import opened Wrappers
  import opened Timing
  import Lifecycle
  import LifecycleInvariant

  /** What a health response says about its sender; None when a field is missing or unreadable. */
  datatype HealthResponse = HealthResponse(statusCode: int, pid: Option<Pid>, generation: Option<nat>, attempt: string)

  datatype Answer = Answered(response: HealthResponse) | Failed(message: string)

  datatype Reason = IdentityMismatch | Timeout(lastError: Option<string>)

  datatype Readiness = Ready(response: HealthResponse) | NotReady(reason: Reason)

  predicate MatchesHealthIdentity(r: HealthResponse, s: State) {
    && r.statusCode == 200
    && r.pid == s.appPid
    && (r.attempt == s.attempt || r.generation == Some(s.generation))
  }

  predicate Accepted(a: Answer, s: State) {
    a.Answered? && MatchesHealthIdentity(a.response, s)
  }

  predicate Healthy(a: Answer) {
    a.Answered? && a.response.statusCode == 200
  }

  /** The last failure among the answers. */
  function LastError(answers: seq<Answer>): Option<string> {
    if |answers| == 0 then None
    else if answers[|answers| - 1].Failed? then Some(answers[|answers| - 1].message)
    else LastError(answers[..|answers| - 1])
  }

  /** `waitForReadiness`: ready at the first answer with the right identity; otherwise it blames the
      identity exactly when some other answer was a 200, and it ends within one interval of the timeout. */
  method WaitForReadiness(clock: Clock, s: State, timeoutMs: int, intervalMs: int)
    returns (r: Readiness, ghost answers: seq<Answer>)
    requires intervalMs >= 1
    modifies clock
    ensures clock.now <= old(clock.now) + Max(0, timeoutMs) + intervalMs
    ensures |answers| > 0
    ensures forall k :: 0 <= k < |answers| ==> (Accepted(answers[k], s) <==> r.Ready? && k == |answers| - 1)
    ensures r.Ready? ==> answers[|answers| - 1] == Answered(r.response)
    ensures r.Ready? ==> r.response.statusCode == 200 && r.response.pid == s.appPid
                         && (r.response.attempt == s.attempt || r.response.generation == Some(s.generation))
    ensures forall k :: 0 <= k < |answers| - 1 && answers[k].Answered? && answers[k].response.statusCode == 200 ==>
              answers[k].response.pid != s.appPid
              || (answers[k].response.attempt != s.attempt && answers[k].response.generation != Some(s.generation))
    ensures r.NotReady? ==> clock.now >= old(clock.now) + timeoutMs
    ensures r.NotReady? ==> (r.reason == IdentityMismatch <==>
              exists k :: 0 <= k < |answers| && answers[k].Answered? && answers[k].response.statusCode == 200)
    ensures r.NotReady? && r.reason.Timeout? ==> r.reason.lastError == LastError(answers)
  {
    var deadline := clock.now + timeoutMs;
    var lastError := None;
    var stranger := false;
    answers := [];
    while true
      invariant old(clock.now) <= clock.now
      invariant clock.now == old(clock.now) || clock.now < deadline
      invariant forall k :: 0 <= k < |answers| ==> !Accepted(answers[k], s)
      invariant stranger <==> exists k :: 0 <= k < |answers| && Healthy(answers[k])
      invariant lastError == LastError(answers)
      decreases deadline - clock.now
    {
      clock.Request(Min(intervalMs, 1000));
      var answer: Answer := *;
      ghost var before := answers;
      answers := answers + [answer];
      assert answers[..|answers| - 1] == before;
      if Accepted(answer, s) {
        return Ready(answer.response), answers;
      }
      match answer {
        case Answered(response) =>
          if response.statusCode == 200 {
            stranger := true;
            assert Healthy(answers[|answers| - 1]);
          }
        case Failed(message) =>
          lastError := Some(message);
      }
      assert stranger <==> exists k :: 0 <= k < |answers| && Healthy(answers[k]) by {
        if k :| 0 <= k < |answers| && Healthy(answers[k]) {
          assert k < |before| ==> Healthy(before[k]);
        }
        if j :| 0 <= j < |before| && Healthy(before[j]) {
          assert Healthy(answers[j]);
        }
      }
      if clock.now < deadline {
        clock.Sleep(intervalMs);
      }
      if clock.now >= deadline {
        return NotReady(if stranger then IdentityMismatch else Timeout(lastError)), answers;
      }
    }
  }

  /** An app that reports what it was started with: its own pid, and the generation it was handed. */
  predicate Honest(st: Lifecycle.Setup, s: Lifecycle.Sys, p: Pid, r: HealthResponse) {
    && r.pid == Some(p)
    && r.attempt == st.Attempt()
    && r.generation.Some? && LifecycleInvariant.WasGiven(st, s, p, r.generation.value)
  }

  /** In every state of every run, an honest answer is taken for the recorded app's exactly when it is a 200 of
      the recorded app, and then generation and attempt both agree, although only one is asked for. */
  lemma HonestAnswerIdentifiesApp(st: Lifecycle.Setup, events: seq<Lifecycle.Event>, states: seq<Lifecycle.Sys>, i: nat,
                                  p: Pid, r: HealthResponse)
    requires Lifecycle.IsRun(st, events, states) && i < |states|
    requires Honest(st, states[i], p, r)
    ensures var file := states[i].file;
            && (MatchesHealthIdentity(r, file) <==> r.statusCode == 200 && file.appPid == Some(p))
            && (MatchesHealthIdentity(r, file) ==> r.generation == Some(file.generation) && r.attempt == file.attempt)
  {
    LifecycleInvariant.RunKeepsInv(st, events, states, i);
  }
}

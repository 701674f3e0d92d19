/** `deploy_lambda_container` (deploy.py:102-222) and its helper
    `wait_for_function_update_completion` (deploy.py:12-47): create or update
    the function, wait for it to become Active, then optionally deploy the
    API Gateway. Every remote observation comes from an oracle history
    indexed by attempt number, so the bounded loops are checked against every
    possible history; the sleeps and the random jitter are left out. */
module LambdaDeploy {
  import opened Options
  import opened ControlPlane
  import Gateway

  // ---------------------------------------------------------------------------
  // Waiting for an update to finish

  const MaxUpdatePolls: nat := 30

  /** One `get_function` while waiting: `LastUpdateStatus` absent (or None),
      present with a value, or the call raised. */
  datatype UpdatePoll = StatusAbsent | Status(text: string) | PollError

  /** Python's `not status or status == 'Successful'`. */
  predicate UpdateComplete(u: UpdatePoll) {
    u.StatusAbsent? || (u.Status? && (u.text == "" || u.text == "Successful"))
  }

  predicate UpdateFailed(u: UpdatePoll) {
    u.Status? && u.text == "Failed"
  }

  predicate Decisive(u: UpdatePoll) {
    UpdateComplete(u) || UpdateFailed(u)
  }

  /** None of the first `j` polls settled the wait. */
  ghost predicate UndecidedBefore(poll: nat -> UpdatePoll, j: int) {
    forall i: nat :: i < j ==> !Decisive(poll(i))
  }

  /** `wait_for_function_update_completion`: at most 30 polls; a complete
      status returns true, `Failed` returns false at once, anything else
      (including a raised call) uses up one attempt. */
  method WaitForUpdateCompletion(poll: nat -> UpdatePoll) returns (ok: bool, polls: nat)
    ensures 1 <= polls <= MaxUpdatePolls
    ensures UndecidedBefore(poll, polls - 1)
    ensures polls < MaxUpdatePolls ==> Decisive(poll(polls - 1))
    ensures ok <==> UpdateComplete(poll(polls - 1))
    ensures ok <==> exists j: nat :: j < MaxUpdatePolls && UpdateComplete(poll(j)) && UndecidedBefore(poll, j)
  {
    polls := 0;
    while polls < MaxUpdatePolls
      invariant polls <= MaxUpdatePolls
      invariant UndecidedBefore(poll, polls)
    {
      var u := poll(polls);
      polls := polls + 1;
      if UpdateComplete(u) {
        return true, polls;
      }
      if UpdateFailed(u) {
        assert !UpdateComplete(poll(polls - 1));
        return false, polls;
      }
    }
    ok := false;
  }

  // ---------------------------------------------------------------------------
  // Retrying on conflict

  const MaxRetries: nat := 5

  /** One update request: accepted, refused with `ResourceConflictException`,
      or failed with anything else (which propagates at once). */
  datatype Attempt = Accepted | Conflict | OtherError

  /** Applied, or the exception escaped the loop. */
  datatype RetryOutcome = Applied | GaveUp

  function Pow2(n: nat): (r: nat)
    ensures r >= 1
  {
    if n == 0 then 1 else 2 * Pow2(n - 1)
  }

  /** Some attempt within the limit is accepted after conflicts only. */
  ghost predicate RetrySucceeds(attempt: nat -> Attempt) {
    exists j: nat :: j < MaxRetries && attempt(j) == Accepted && forall i: nat :: i < j ==> attempt(i) == Conflict
  }

  /** How many requests the retry loop makes from request `i` on, counting
      the `i` made before: it stops at the first request that is not a
      conflict, and at the fifth in any case. */
  function TriesFrom(attempt: nat -> Attempt, i: nat): (n: nat)
    requires i < MaxRetries
    ensures i < n <= MaxRetries
    ensures n < MaxRetries ==> attempt(n - 1) != Conflict
    ensures forall k: nat :: i <= k < n - 1 ==> attempt(k) == Conflict
    decreases MaxRetries - i
  {
    if attempt(i) != Conflict || i == MaxRetries - 1 then i + 1 else TriesFrom(attempt, i + 1)
  }

  /** One step of `TriesFrom`. */
  lemma TriesFromStep(attempt: nat -> Attempt, i: nat)
    requires i < MaxRetries
    ensures attempt(i) != Conflict || i == MaxRetries - 1 ==> TriesFrom(attempt, i) == i + 1
    ensures attempt(i) == Conflict && i < MaxRetries - 1 ==> TriesFrom(attempt, i) == TriesFrom(attempt, i + 1)
  {
  }

  /** Counting from request `i` after conflicts only, the retry loop
      succeeds exactly when the last request it makes is accepted. */
  lemma {:induction false} TriesFromSucceeds(attempt: nat -> Attempt, i: nat)
    requires i < MaxRetries && forall k: nat :: k < i ==> attempt(k) == Conflict
    ensures attempt(TriesFrom(attempt, i) - 1) == Accepted <==> RetrySucceeds(attempt)
    decreases MaxRetries - i
  {
    if attempt(i) != Conflict || i == MaxRetries - 1 {
      if attempt(i) == Accepted {
        assert forall k: nat :: k < i ==> attempt(k) == Conflict;
      }
      if RetrySucceeds(attempt) {
        var j: nat :| j < MaxRetries && attempt(j) == Accepted && forall k: nat :: k < j ==> attempt(k) == Conflict;
        assert j == i;
      }
    } else {
      TriesFromSucceeds(attempt, i + 1);
    }
  }

  /** How many requests the retry loop makes in all. */
  function AttemptsMade(attempt: nat -> Attempt): (n: nat)
    ensures 1 <= n <= MaxRetries
  {
    TriesFrom(attempt, 0)
  }


  /** A count that stops at the first request that is not a conflict, or at
      the fifth, is the one `AttemptsMade` gives; the loop then succeeds
      exactly when its last request is accepted. */
  lemma AttemptsMadeIs(attempt: nat -> Attempt, n: nat)
    requires 1 <= n <= MaxRetries
    requires forall i: nat :: i < n - 1 ==> attempt(i) == Conflict
    requires n < MaxRetries ==> attempt(n - 1) != Conflict
    ensures n == AttemptsMade(attempt)
    ensures attempt(n - 1) == Accepted <==> RetrySucceeds(attempt)
  {
    TriesFromIs(attempt, 0, n);
    TriesFromSucceeds(attempt, 0);
  }

  lemma {:induction false} TriesFromIs(attempt: nat -> Attempt, i: nat, n: nat)
    requires i < n <= MaxRetries
    requires forall k: nat :: i <= k < n - 1 ==> attempt(k) == Conflict
    requires n < MaxRetries ==> attempt(n - 1) != Conflict
    ensures TriesFrom(attempt, i) == n
    decreases MaxRetries - i
  {
    TriesFromStep(attempt, i);
    if i < n - 1 {
      TriesFromIs(attempt, i + 1, n);
    }
  }

  /** The waits before the first `n` retries: `2^0`, `2^1`, ... seconds. */
  function Backoff(n: nat): (r: seq<nat>)
    ensures |r| == n
    ensures forall j :: 0 <= j < n ==> r[j] == Pow2(j)
  {
    if n == 0 then [] else Backoff(n - 1) + [Pow2(n - 1)]
  }

  /** The retry loop around `update_function_code` and
      `update_function_configuration`: at most five requests; a conflict
      before the last one waits `2^attempt` seconds (plus jitter, left out)
      and retries; a conflict on the last one, or any other error, escapes. */
  method RetryOnConflict(attempt: nat -> Attempt) returns (outcome: RetryOutcome, tries: nat, delays: seq<nat>)
    ensures 1 <= tries <= MaxRetries && tries == AttemptsMade(attempt)
    ensures forall i: nat :: i < tries - 1 ==> attempt(i) == Conflict
    ensures tries < MaxRetries ==> attempt(tries - 1) != Conflict
    ensures outcome == Applied <==> attempt(tries - 1) == Accepted
    ensures outcome == Applied <==> RetrySucceeds(attempt)
    ensures |delays| == tries - 1
    ensures forall j :: 0 <= j < |delays| ==> delays[j] == Pow2(j)
  {
    tries := 1;
    while attempt(tries - 1) == Conflict && tries < MaxRetries
      invariant 1 <= tries <= MaxRetries
      invariant forall i: nat :: i < tries - 1 ==> attempt(i) == Conflict
      decreases MaxRetries - tries
    {
      tries := tries + 1;
    }
    AttemptsMadeIs(attempt, tries);
    outcome := if attempt(tries - 1) == Accepted then Applied else GaveUp;
    delays := Backoff(tries - 1);
  }

  // ---------------------------------------------------------------------------
  // Waiting for Active

  const MaxActivePolls: nat := 10
  const ActiveState := "Active"

  /** One `get_function` of the Active wait: the function's `State`, or the
      call (or the lookup of `State`) raised, which ends the deployment. */
  datatype StatePoll = State(name: string) | StateRaised

  datatype ActiveOutcome = BecameActive | NotActive(lastState: string) | PollRaised

  ghost predicate PendingBefore(poll: nat -> StatePoll, j: int) {
    forall i: nat :: i < j ==> poll(i).State? && poll(i).name != ActiveState
  }

  /** Some poll within the limit shows Active after non-Active states only. */
  ghost predicate BecomesActive(poll: nat -> StatePoll) {
    exists j: nat :: j < MaxActivePolls && poll(j) == State(ActiveState) && PendingBefore(poll, j)
  }

  /** The Active poll: at most ten polls, stopping at the first `Active`. */
  method WaitForActive(poll: nat -> StatePoll) returns (outcome: ActiveOutcome, polls: nat)
    ensures 1 <= polls <= MaxActivePolls
    ensures PendingBefore(poll, polls - 1)
    ensures outcome == BecameActive <==> poll(polls - 1) == State(ActiveState)
    ensures outcome == PollRaised <==> poll(polls - 1) == StateRaised
    ensures outcome.NotActive? ==> polls == MaxActivePolls && poll(polls - 1) == State(outcome.lastState)
    ensures outcome == BecameActive <==> BecomesActive(poll)
  {
    var state := "";
    polls := 0;
    while state != ActiveState && polls < MaxActivePolls
      invariant polls <= MaxActivePolls
      invariant polls == 0 ==> state == ""
      invariant polls > 0 ==> poll(polls - 1) == State(state)
      invariant PendingBefore(poll, if state == ActiveState then polls - 1 else polls)
    {
      match poll(polls)
      case StateRaised =>
        return PollRaised, polls + 1;
      case State(s) =>
        state := s;
        polls := polls + 1;
    }
    if state == ActiveState {
      outcome := BecameActive;
    } else {
      outcome := NotActive(state);
    }
  }

  // ---------------------------------------------------------------------------
  // Create or update, then wait, then the gateway

  datatype LambdaConfig = LambdaConfig(
    image: string, functionName: string, role: string, region: string,
    memory: int, timeout: int, apiGateway: bool, apiName: Option<string>, stageName: string)

  /** The remote side of one deployment: whether the existence check raises
      something other than "not found", the histories of the two retry
      loops and of the two waits, whether `create_function` fails and the
      ARN it assigns, and the gateway's own oracle. */
  datatype LambdaOracle = LambdaOracle(
    lookupFails: bool,
    codeAttempts: nat -> Attempt, updatePolls: nat -> UpdatePoll, configAttempts: nat -> Attempt,
    createFails: bool, newArn: string,
    statePolls: nat -> StatePoll,
    gateway: Gateway.GatewayOracle)

  /** The function once created or updated: an existing one gets the new
      image, timeout and memory and keeps its role and ARN; a new one is
      created with everything from the configuration. */
  function DeployedFunction(p: Plane, cfg: LambdaConfig, newArn: string): (f: LambdaFn)
    ensures cfg.functionName in p.functions ==>
              f.(image := p.functions[cfg.functionName].image,
                 timeout := p.functions[cfg.functionName].timeout,
                 memory := p.functions[cfg.functionName].memory) == p.functions[cfg.functionName]
    ensures f.image == cfg.image && f.timeout == cfg.timeout && f.memory == cfg.memory
    ensures cfg.functionName !in p.functions ==> f.role == cfg.role && f.arn == newArn
  {
    if cfg.functionName in p.functions then
      p.functions[cfg.functionName].(image := cfg.image, timeout := cfg.timeout, memory := cfg.memory)
    else LambdaFn(cfg.image, cfg.role, cfg.timeout, cfg.memory, newArn)
  }

  /** The plane once the function is in place. */
  function Ready(p: Plane, cfg: LambdaConfig, newArn: string): Plane {
    p.(functions := p.functions[cfg.functionName := DeployedFunction(p, cfg, newArn)])
  }

  function GatewayConfigOf(q: Plane, cfg: LambdaConfig): Gateway.GatewayConfig
    requires cfg.functionName in q.functions
  {
    Gateway.GatewayConfig(cfg.functionName, q.functions[cfg.functionName].arn, cfg.region, cfg.apiName, cfg.stageName)
  }

  /** Whether the create or update phase goes through. */
  ghost predicate FunctionPhaseSucceeds(p: Plane, cfg: LambdaConfig, o: LambdaOracle) {
    && !o.lookupFails
    && (cfg.functionName in p.functions ==> RetrySucceeds(o.codeAttempts) && RetrySucceeds(o.configAttempts))
    && (cfg.functionName !in p.functions ==> !o.createFails)
  }

  /** The plane once only the new image is in place. */
  function CodeUpdated(p: Plane, name: string, image: string): Plane
    requires name in p.functions
  {
    p.(functions := p.functions[name := p.functions[name].(image := image)])
  }

  /** The update branch of `deploy_lambda_container`: the code update under
      the retry loop, the wait, then the configuration update under the
      retry loop. A configuration update is requested only once the code
      update went through. */
  method UpdateExisting(p: Plane, cfg: LambdaConfig, o: LambdaOracle) returns (ok: bool, q: Plane, calls: seq<Call>)
    requires cfg.functionName in p.functions
    ensures calls == seq(AttemptsMade(o.codeAttempts), _ => UpdateFunctionCode(cfg.functionName, cfg.image))
                     + (if RetrySucceeds(o.codeAttempts)
                        then seq(AttemptsMade(o.configAttempts),
                                 _ => UpdateFunctionConfiguration(cfg.functionName, cfg.timeout, cfg.memory))
                        else [])
    ensures ok <==> RetrySucceeds(o.codeAttempts) && RetrySucceeds(o.configAttempts)
    ensures RetrySucceeds(o.codeAttempts) ==> UpdateFunctionConfiguration(cfg.functionName, cfg.timeout, cfg.memory) in calls
    ensures !RetrySucceeds(o.codeAttempts) ==> q == p
    ensures RetrySucceeds(o.codeAttempts) && !ok ==> q == CodeUpdated(p, cfg.functionName, cfg.image)
    ensures ok ==> q == Ready(p, cfg, o.newArn)
  {
    var name := cfg.functionName;
    q := p;
    var code, n1, _ := RetryOnConflict(o.codeAttempts);
    calls := seq(n1, _ => UpdateFunctionCode(name, cfg.image));
    if code == GaveUp {
      return false, q, calls;
    }
    q := CodeUpdated(p, name, cfg.image);
    var _, _ := WaitForUpdateCompletion(o.updatePolls);
    var config, n2, _ := RetryOnConflict(o.configAttempts);
    calls := calls + seq(n2, _ => UpdateFunctionConfiguration(name, cfg.timeout, cfg.memory));
    assert calls[|calls| - 1] == UpdateFunctionConfiguration(name, cfg.timeout, cfg.memory);
    if config == GaveUp {
      return false, q, calls;
    }
    q := q.(functions := q.functions[name := q.functions[name].(timeout := cfg.timeout, memory := cfg.memory)]);
    ok := true;
  }

  /** `deploy_lambda_container`. Returns the result, the plane afterwards,
      the Lambda requests issued, and the gateway run when there was one.
      The outcome of the wait between the code and the configuration update
      is not looked at: the configuration update follows whatever it was. */
  method DeployLambdaContainer(p: Plane, cfg: LambdaConfig, o: LambdaOracle)
    returns (ok: bool, q: Plane, calls: seq<Call>, gateway: Option<Gateway.GatewayRun>)
    ensures o.lookupFails ==> !ok && q == p && calls == [] && gateway == None
    ensures cfg.functionName !in p.functions && !o.lookupFails ==>
              calls == [CreateFunction(cfg.functionName, cfg.image, cfg.role, cfg.timeout, cfg.memory)]
    ensures cfg.functionName in p.functions ==>
              && (forall c :: c in calls ==>
                    c == UpdateFunctionCode(cfg.functionName, cfg.image)
                    || c == UpdateFunctionConfiguration(cfg.functionName, cfg.timeout, cfg.memory))
              && |calls| <= 2 * MaxRetries
    ensures cfg.functionName in p.functions && !o.lookupFails && RetrySucceeds(o.codeAttempts) ==>
              UpdateFunctionConfiguration(cfg.functionName, cfg.timeout, cfg.memory) in calls
    ensures cfg.functionName in p.functions && !o.lookupFails ==>
              calls == seq(AttemptsMade(o.codeAttempts), _ => UpdateFunctionCode(cfg.functionName, cfg.image))
                       + (if RetrySucceeds(o.codeAttempts)
                          then seq(AttemptsMade(o.configAttempts),
                                   _ => UpdateFunctionConfiguration(cfg.functionName, cfg.timeout, cfg.memory))
                          else [])
    ensures cfg.functionName in p.functions && cfg.functionName in q.functions ==>
              q.functions[cfg.functionName].role == p.functions[cfg.functionName].role
    ensures forall n :: n in p.functions && n != cfg.functionName ==> n in q.functions && q.functions[n] == p.functions[n]
    ensures ok <==> FunctionPhaseSucceeds(p, cfg, o) && BecomesActive(o.statePolls)
                    && (cfg.apiGateway ==> gateway.Some? && gateway.value.ok)
    ensures gateway.Some? <==> FunctionPhaseSucceeds(p, cfg, o) && BecomesActive(o.statePolls) && cfg.apiGateway
    ensures gateway.Some? ==>
              var ready := Ready(p, cfg, o.newArn);
              gateway.value == Gateway.DeployApiGateway(ready, GatewayConfigOf(ready, cfg), o.gateway)
              && q == gateway.value.plane
    ensures ok && !cfg.apiGateway ==> q == Ready(p, cfg, o.newArn)
  {
    var name := cfg.functionName;
    q, calls, gateway := p, [], None;
    if o.lookupFails {
      return false, q, calls, gateway;
    }
    if name in p.functions {
      var updated;
      updated, q, calls := UpdateExisting(p, cfg, o);
      if !updated {
        return false, q, calls, gateway;
      }
    } else {
      calls := [CreateFunction(name, cfg.image, cfg.role, cfg.timeout, cfg.memory)];
      if o.createFails {
        return false, q, calls, gateway;
      }
      q := q.(functions := q.functions[name := LambdaFn(cfg.image, cfg.role, cfg.timeout, cfg.memory, o.newArn)]);
    }
    assert q == Ready(p, cfg, o.newArn);
    var state, _ := WaitForActive(o.statePolls);
    if state != BecameActive {
      return false, q, calls, gateway;
    }
    if cfg.apiGateway {
      var run := Gateway.DeployApiGateway(q, GatewayConfigOf(q, cfg), o.gateway);
      return run.ok, run.plane, calls, Some(run);
    }
    ok := true;
  }
}

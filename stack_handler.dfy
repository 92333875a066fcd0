/**
 * The older copy of the custom-resource handler (lib/codebuild-resource-provider.stack.handler.ts):
 * one jsonpath, the project name as physical id, a 15 s poll interval, a missing build skipped
 * instead of reported, and the loop guard `remaining < 1000`.
 */
module StackHandler {
  import opened Wrappers
  import opened Json
  import opened Runtime
  import Handler

  /** The legacy resource's properties; None is a property that is absent (or null). */
  datatype LegacyProperties = LegacyProperties(codebuildProjectName: Option<string>, resultJsonPath: Option<string>)

  const DefaultJsonPath := "$.artifacts.location"
  const PollDelayMs := 15000
  const GuardMs := 1000
  /** The one response value the legacy handler adds. */
  const ResultKey := "result"

  /**
   * One pass through the body of the legacy do-while loop: sleep, poll, and map the reply.
   * Success(None) is a `continue` (no build in the reply, or IN_PROGRESS); a SUCCEEDED build's
   * first match of the path is added, unserialised, as the `result` response value.
   */
  function LegacyRound(foreign: Foreign, world: World, buildId: string, jsonPath: string, clock: int, deadline: int)
    : (r: Run<Option<Value>>)
    ensures r.result.Success? ==> r.clock == clock + PollDelayMs <= deadline
    ensures r.clock <= deadline
  {
    if deadline < clock + PollDelayMs then Run(Failure(Killed), [Sleep(PollDelayMs)], deadline)
    else
      var now := clock + PollDelayMs;
      var reply := world.builds(buildId, now);
      var polled := [Sleep(PollDelayMs), BatchGetBuilds(buildId, reply)];
      if reply.None? || reply.value.buildStatus == Some(InProgress) then Run(Success(None), polled, now)
      else if reply.value.buildStatus != Some(Succeeded) then
        Run(Failure(StatusNotSucceeded(reply.value.buildStatus)), polled, now)
      else
        var result := First(foreign.query(reply.value.document, jsonPath));
        if !Truthy(result) then Run(Failure(MissingResult(jsonPath)), polled, now)
        else Run(Success(Some(result.value)), polled + [AddResponseValue(ResultKey, result.value)], now)
  }

  /**
   * One iteration of the legacy loop: a round and, after a `continue`, the guard. Success(None) is
   * "go round again", which the guard allows only while LESS than 1000 ms are left; with 1000 ms
   * or more left the loop ends with the Timeout error.
   */
  function LegacyStep(foreign: Foreign, world: World, buildId: string, jsonPath: string, clock: int, deadline: int)
    : (r: Run<Option<Value>>)
    ensures r.result == Success(None) ==> r.clock == clock + PollDelayMs && deadline - r.clock < GuardMs
    ensures r.result.Success? ==> r.clock == clock + PollDelayMs <= deadline
  {
    var round := LegacyRound(foreign, world, buildId, jsonPath, clock, deadline);
    if round.result != Success(None) then round
    else
      var remaining := deadline - round.clock;
      var checked := round.calls + [RemainingTime(remaining)];
      if remaining < GuardMs then Run(Success(None), checked, round.clock)
      else Run(Failure(LambdaTimeout), checked, round.clock)
  }

  /** What the legacy loop does from a given clock on: iterations until one ends it. */
  function LegacyPollFrom(foreign: Foreign, world: World, buildId: string, jsonPath: string, clock: int, deadline: int)
    : Run<Value>
    requires clock <= deadline
    decreases deadline - clock
  {
    var step := LegacyStep(foreign, world, buildId, jsonPath, clock, deadline);
    match step.result
    case Success(None) => Prepend(step.calls, LegacyPollFrom(foreign, world, buildId, jsonPath, step.clock, deadline))
    case Success(Some(value)) => Run(Success(value), step.calls, step.clock)
    case Failure(e) => Run(Failure(e), step.calls, step.clock)
  }

  /**
   * What the legacy `createOrUpdateResource` does: check the name, set it as the physical id,
   * start one build and run the loop. The result is the value added under `result`.
   */
  function LegacyRun(foreign: Foreign, world: World, props: LegacyProperties, clock: int, deadline: int): Run<Value>
    requires clock <= deadline
  {
    var name := props.codebuildProjectName.GetOr("");
    if name == "" then Run(Failure(MissingProjectName), [], clock)
    else
      var jsonPath := props.resultJsonPath.GetOr(DefaultJsonPath);
      var buildId := world.startBuild(name);
      var started := [SetPhysicalResourceId(name), StartBuild(name, buildId)];
      if buildId.None? || buildId.value == "" then Run(Failure(EmptyBuildId), started, clock)
      else Prepend(started, LegacyPollFrom(foreign, world, buildId.value, jsonPath, clock, deadline))
  }

  /**
   * One iteration of the legacy loop, as the handler runs it: the body up to its `continue` or its
   * `return`, and after a `continue` the guard. Only a SUCCEEDED build with a result touches the
   * resource, adding that result under `result`.
   */
  method LegacyIteration(inv: Invocation, resource: CustomResource, foreign: Foreign, buildId: string, jsonPath: string)
    returns (r: Result<Option<Value>, Error>)
    requires inv.Valid()
    modifies inv, resource
    ensures inv.Valid()
    ensures var run := LegacyStep(foreign, inv.world, buildId, jsonPath, old(inv.clock), inv.deadline);
      r == run.result && inv.trace == old(inv.trace) + run.calls && inv.clock == run.clock
    ensures resource.physicalResourceId == old(resource.physicalResourceId)
    ensures resource.responseData
         == if r.Success? && r.value.Some? then old(resource.responseData)[ResultKey := r.value.value]
            else old(resource.responseData)
  {
    var alive := inv.Sleep(PollDelayMs);
    if !alive {
      return Failure(Killed);
    }
    var build := inv.BatchGetBuilds(buildId);
    if build.Some? && build.value.buildStatus != Some(InProgress) {
      if build.value.buildStatus != Some(Succeeded) {
        return Failure(StatusNotSucceeded(build.value.buildStatus));
      }
      var result := First(foreign.query(build.value.document, jsonPath));
      if !Truthy(result) {
        return Failure(MissingResult(jsonPath));
      }
      resource.AddResponseValue(inv, ResultKey, result.value);
      return Success(Some(result.value));
    }
    var remaining := inv.GetRemainingTimeInMillis();
    if remaining < GuardMs {
      return Success(None);
    }
    return Failure(LambdaTimeout);
  }

  /** The legacy do-while loop: iterations until one returns, throws, or ends the invocation. */
  method LegacyWait(inv: Invocation, resource: CustomResource, foreign: Foreign, buildId: string, jsonPath: string)
    returns (r: Result<Value, Error>)
    requires inv.Valid()
    modifies inv, resource
    ensures inv.Valid()
    ensures var run := LegacyPollFrom(foreign, inv.world, buildId, jsonPath, old(inv.clock), inv.deadline);
      r == run.result && inv.trace == old(inv.trace) + run.calls && inv.clock == run.clock
    ensures resource.physicalResourceId == old(resource.physicalResourceId)
    ensures resource.responseData
         == if r.Success? then old(resource.responseData)[ResultKey := r.value] else old(resource.responseData)
  {
    ghost var whole := LegacyPollFrom(foreign, inv.world, buildId, jsonPath, inv.clock, inv.deadline);
    ghost var trace0 := inv.trace;
    ghost var done: seq<Call> := [];
    while true
      invariant inv.Valid()
      invariant inv.trace == trace0 + done
      invariant whole == Prepend(done, LegacyPollFrom(foreign, inv.world, buildId, jsonPath, inv.clock, inv.deadline))
      invariant resource.physicalResourceId == old(resource.physicalResourceId)
      invariant resource.responseData == old(resource.responseData)
      decreases inv.deadline - inv.clock
    {
      ghost var rest := LegacyPollFrom(foreign, inv.world, buildId, jsonPath, inv.clock, inv.deadline);
      ghost var step := LegacyStep(foreign, inv.world, buildId, jsonPath, inv.clock, inv.deadline);
      var outcome := LegacyIteration(inv, resource, foreign, buildId, jsonPath);
      if outcome != Success(None) {
        r := if outcome.Success? then Success(outcome.value.value) else Failure(outcome.error);
        assert rest == Run(r, step.calls, inv.clock);
        EndOfRun(trace0, done, rest, whole);
        return;
      }
      PrependTwice(done, step.calls, LegacyPollFrom(foreign, inv.world, buildId, jsonPath, inv.clock, inv.deadline));
      done := done + step.calls;
    }
  }

  /**
   * The legacy `createOrUpdateResource` (used for Create and Update): a falsy project name is
   * rejected before anything else; the name becomes the physical id; one build is started, and an
   * absent or empty build id is an error; then the loop.
   */
  method LegacyCreateOrUpdateResource(inv: Invocation, resource: CustomResource, foreign: Foreign, props: LegacyProperties)
    returns (r: Result<Value, Error>)
    requires inv.Valid()
    modifies inv, resource
    ensures inv.Valid()
    ensures var run := LegacyRun(foreign, inv.world, props, old(inv.clock), inv.deadline);
      r == run.result && inv.trace == old(inv.trace) + run.calls && inv.clock == run.clock
    ensures var name := props.codebuildProjectName.GetOr("");
      resource.physicalResourceId == if name == "" then old(resource.physicalResourceId) else Some(name)
    ensures resource.responseData
         == if r.Success? then old(resource.responseData)[ResultKey := r.value] else old(resource.responseData)
  {
    var name := props.codebuildProjectName.GetOr("");
    if name == "" {
      return Failure(MissingProjectName);
    }
    var jsonPath := props.resultJsonPath.GetOr(DefaultJsonPath);
    ghost var trace0 := inv.trace;
    resource.SetPhysicalResourceId(inv, name);
    var buildId := inv.StartBuild(name);
    ghost var started := [SetPhysicalResourceId(name), StartBuild(name, buildId)];
    assert inv.trace == trace0 + started;
    if buildId.None? || buildId.value == "" {
      return Failure(EmptyBuildId);
    }
    ghost var poll := LegacyPollFrom(foreign, inv.world, buildId.value, jsonPath, inv.clock, inv.deadline);
    r := LegacyWait(inv, resource, foreign, buildId.value, jsonPath);
    AppendAssociative(trace0, started, poll.calls);
  }

  /** The legacy `deleteResource`: no call to anything, and it succeeds. */
  method LegacyDeleteResource(inv: Invocation) returns (r: Result<(), Error>)
    ensures r == Success(())
  {
    return Success(());
  }
}

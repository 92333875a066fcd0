/**
 * Properties of the legacy handler of lib/codebuild-resource-provider.stack.handler.ts. Its loop
 * guard `remaining < 1000` is the inverse of the newer handler's: the loop goes round again only
 * when less than a second is left, and the next 15 s sleep then outlives the invocation. So the
 * legacy loop never polls twice, and with time left a missing or IN_PROGRESS build ends it with
 * the Timeout error.
 */
module StackHandlerProperties {
  import opened Wrappers
  import opened Json
  import opened Runtime
  import opened StackHandler

  /** One iteration: a sleep and, if the invocation survives it, one poll and maybe more. */
  lemma LegacyStepShape(foreign: Foreign, world: World, buildId: string, jsonPath: string, clock: int, deadline: int)
    ensures var step := LegacyStep(foreign, world, buildId, jsonPath, clock, deadline);
      if deadline < clock + PollDelayMs then step == Run(Failure(Killed), [Sleep(PollDelayMs)], deadline)
      else
        && 2 <= |step.calls| <= 3
        && step.calls[..2] == [Sleep(PollDelayMs), BatchGetBuilds(buildId, world.builds(buildId, clock + PollDelayMs))]
        && CountPolls(step.calls) == 1
        && NoStarts(step.calls)
  {
    var step := LegacyStep(foreign, world, buildId, jsonPath, clock, deadline);
    if deadline >= clock + PollDelayMs {
      var tail := step.calls[2..];
      assert step.calls[1..][1..] == tail;
      assert |tail| <= 1 && (tail == [] || !tail[0].BatchGetBuilds?);
      assert CountPolls(tail) == 0 by {
        if tail != [] { assert tail[1..] == []; }
      }
    }
  }

  /**
   * The legacy loop never polls twice: after a `continue` the guard lets it go round again only
   * with less than 1000 ms left, and the next 15 s sleep is ended by the platform. It polls once
   * if the invocation survives the first sleep, and starts nothing.
   */
  lemma LegacyLoopPollsOnce(foreign: Foreign, world: World, buildId: string, jsonPath: string, clock: int, deadline: int)
    requires clock <= deadline
    ensures var step := LegacyStep(foreign, world, buildId, jsonPath, clock, deadline);
      var r := LegacyPollFrom(foreign, world, buildId, jsonPath, clock, deadline);
      && (step.result == Success(None) ==> r == Run(Failure(Killed), step.calls + [Sleep(PollDelayMs)], deadline))
      && (step.result != Success(None) ==> r.calls == step.calls && r.clock == step.clock)
      && CountPolls(r.calls) == (if clock + PollDelayMs <= deadline then 1 else 0)
      && NoStarts(r.calls)
  {
    var step := LegacyStep(foreign, world, buildId, jsonPath, clock, deadline);
    LegacyStepShape(foreign, world, buildId, jsonPath, clock, deadline);
    if step.result == Success(None) {
      var rest := LegacyPollFrom(foreign, world, buildId, jsonPath, step.clock, deadline);
      assert deadline < step.clock + PollDelayMs;
      assert LegacyStep(foreign, world, buildId, jsonPath, step.clock, deadline) == Run(Failure(Killed), [Sleep(PollDelayMs)], deadline);
      assert rest == Run(Failure(Killed), [Sleep(PollDelayMs)], deadline);
      CountsAppend(step.calls, rest.calls);
    }
  }

  /**
   * How the legacy loop ends when it gets to poll: a SUCCEEDED build's truthy first match is the
   * result, added under `result` as the last call; another status than IN_PROGRESS and SUCCEEDED
   * is an error naming it; a falsy match is an error naming the path. Only the success touches
   * the resource.
   */
  lemma LegacyLoopOutcome(foreign: Foreign, world: World, buildId: string, jsonPath: string, clock: int, deadline: int)
    requires clock + PollDelayMs <= deadline
    ensures var r := LegacyPollFrom(foreign, world, buildId, jsonPath, clock, deadline);
      var reply := world.builds(buildId, clock + PollDelayMs);
      var polled := [Sleep(PollDelayMs), BatchGetBuilds(buildId, reply)];
      && (r.result.Success? <==>
            && reply.Some? && reply.value.buildStatus == Some(Succeeded)
            && Truthy(First(foreign.query(reply.value.document, jsonPath))))
      && (r.result.Success? ==>
            && First(foreign.query(reply.value.document, jsonPath)) == Some(r.result.value)
            && r.calls == polled + [AddResponseValue(ResultKey, r.result.value)])
      && (r.result.Failure? ==> NoResourceCalls(r.calls))
      && (r.result.Failure? && r.result.error.StatusNotSucceeded?
          <==> reply.Some? && reply.value.buildStatus != Some(InProgress) && reply.value.buildStatus != Some(Succeeded))
      && (r.result.Failure? && r.result.error.StatusNotSucceeded? ==> r.result.error.status == reply.value.buildStatus)
      && (r.result.Failure? && r.result.error.MissingResult? ==>
            && reply.Some? && reply.value.buildStatus == Some(Succeeded) && r.result.error.jsonPath == jsonPath)
  {
    var step := LegacyStep(foreign, world, buildId, jsonPath, clock, deadline);
    LegacyLoopPollsOnce(foreign, world, buildId, jsonPath, clock, deadline);
  }

  /**
   * The inverted guard, as written: once the first poll finds no build or an IN_PROGRESS one, the
   * legacy handler fails with the Timeout error exactly when at least 1000 ms are left — the
   * opposite of running out of time. With less left, the platform ends it in the next sleep.
   */
  lemma LegacyTimeoutWithTimeLeft(foreign: Foreign, world: World, buildId: string, jsonPath: string, clock: int, deadline: int)
    requires clock <= deadline
    ensures var reply := world.builds(buildId, clock + PollDelayMs);
      LegacyPollFrom(foreign, world, buildId, jsonPath, clock, deadline).result == Failure(LambdaTimeout)
      <==> && clock + PollDelayMs <= deadline
           && (reply.None? || reply.value.buildStatus == Some(InProgress))
           && deadline - (clock + PollDelayMs) >= GuardMs
  {
    LegacyLoopPollsOnce(foreign, world, buildId, jsonPath, clock, deadline);
  }

  /**
   * A concrete run: fifteen minutes left and a build that is IN_PROGRESS at its first poll. The
   * legacy handler gives up after 15 s with the Timeout error, 885 s before its deadline.
   */
  lemma LegacyGivesUpEarly(foreign: Foreign, world: World, buildId: string, jsonPath: string)
    requires world.builds(buildId, 15000).Some? && world.builds(buildId, 15000).value.buildStatus == Some(InProgress)
    ensures LegacyPollFrom(foreign, world, buildId, jsonPath, 0, 900000)
         == Run(Failure(LambdaTimeout),
                [Sleep(15000), BatchGetBuilds(buildId, world.builds(buildId, 15000)), RemainingTime(885000)],
                15000)
  {
    LegacyLoopPollsOnce(foreign, world, buildId, jsonPath, 0, 900000);
  }

  /** The loop's calls leave the resource alone, but for the `result` value a success adds last. */
  lemma LegacyLoopSplit(foreign: Foreign, world: World, buildId: string, jsonPath: string, clock: int, deadline: int)
    requires clock <= deadline
    ensures var r := LegacyPollFrom(foreign, world, buildId, jsonPath, clock, deadline);
      var adds := if r.result.Success? then [AddResponseValue(ResultKey, r.result.value)] else [];
      && |adds| <= |r.calls|
      && r.calls == r.calls[..|r.calls| - |adds|] + adds
      && NoResourceCalls(r.calls[..|r.calls| - |adds|])
      && NoStarts(r.calls)
  {
    var r := LegacyPollFrom(foreign, world, buildId, jsonPath, clock, deadline);
    LegacyLoopPollsOnce(foreign, world, buildId, jsonPath, clock, deadline);
    if clock + PollDelayMs <= deadline {
      LegacyLoopOutcome(foreign, world, buildId, jsonPath, clock, deadline);
    } else {
      assert r.calls == [Sleep(PollDelayMs)];
    }
  }

  /**
   * The legacy handler: a falsy name is rejected before any call; otherwise its first call sets the
   * project name as the physical id, which stays the id, and the only response value it ever adds
   * is the result, under `result`, when the run succeeds.
   */
  lemma LegacyRunResource(foreign: Foreign, world: World, props: LegacyProperties, clock: int, deadline: int,
                          id0: Option<string>, data0: map<string, Value>)
    requires clock <= deadline
    ensures var r := LegacyRun(foreign, world, props, clock, deadline);
      var name := props.codebuildProjectName.GetOr("");
      && (name == "" ==> r == Run(Failure(MissingProjectName), [], clock))
      && (name != "" ==>
            && r.calls != [] && r.calls[0] == SetPhysicalResourceId(name)
            && PhysicalIdAfter(id0, r.calls) == Some(name)
            && ResponsesAfter(data0, r.calls) == if r.result.Success? then data0[ResultKey := r.result.value] else data0)
  {
    var r := LegacyRun(foreign, world, props, clock, deadline);
    var name := props.codebuildProjectName.GetOr("");
    if name != "" {
      var jsonPath := props.resultJsonPath.GetOr(DefaultJsonPath);
      var buildId := world.startBuild(name);
      var poll: seq<Call> := [];
      var adds: seq<Call> := [];
      if buildId.Some? && buildId.value != "" {
        var run := LegacyPollFrom(foreign, world, buildId.value, jsonPath, clock, deadline);
        poll := run.calls;
        LegacyLoopSplit(foreign, world, buildId.value, jsonPath, clock, deadline);
        adds := if run.result.Success? then [AddResponseValue(ResultKey, run.result.value)] else [];
      }
      var quiet := [StartBuild(name, buildId)] + poll[..|poll| - |adds|];
      assert r.calls == [SetPhysicalResourceId(name)] + quiet + adds;
      SetThenRespond(id0, data0, name, quiet, adds);
    }
  }

  /**
   * The legacy handler with a name first sets it as the physical id and starts a build; with no
   * build id (absent or empty) it stops right there with the EmptyBuildId error.
   */
  lemma LegacyRunStart(foreign: Foreign, world: World, props: LegacyProperties, clock: int, deadline: int)
    requires clock <= deadline
    requires props.codebuildProjectName.GetOr("") != ""
    ensures var r := LegacyRun(foreign, world, props, clock, deadline);
      var name := props.codebuildProjectName.value;
      var buildId := world.startBuild(name);
      var started := [SetPhysicalResourceId(name), StartBuild(name, buildId)];
      && |r.calls| >= 2 && r.calls[..2] == started
      && (buildId.None? || buildId.value == "" <==> r.calls == started)
      && (buildId.None? || buildId.value == "" ==> r.result == Failure(EmptyBuildId) && r.clock == clock)
  {
    var name := props.codebuildProjectName.value;
    var buildId := world.startBuild(name);
    if buildId.Some? && buildId.value != "" {
      var jsonPath := props.resultJsonPath.GetOr(DefaultJsonPath);
      LegacyStepShape(foreign, world, buildId.value, jsonPath, clock, deadline);
      assert LegacyPollFrom(foreign, world, buildId.value, jsonPath, clock, deadline).calls != [];
    }
  }

  /** Without a `resultJsonPath` the legacy handler reads `$.artifacts.location`. */
  lemma LegacyDefaultPath(foreign: Foreign, world: World, name: string, clock: int, deadline: int)
    requires clock <= deadline
    ensures LegacyRun(foreign, world, LegacyProperties(Some(name), None), clock, deadline)
         == LegacyRun(foreign, world, LegacyProperties(Some(name), Some("$.artifacts.location")), clock, deadline)
  {
  }

  /** The legacy handler with a name starts exactly one build and polls it at most once. */
  lemma LegacyRunCounts(foreign: Foreign, world: World, props: LegacyProperties, clock: int, deadline: int)
    requires clock <= deadline
    requires props.codebuildProjectName.GetOr("") != ""
    ensures var r := LegacyRun(foreign, world, props, clock, deadline);
      CountStarts(r.calls) == 1 && CountPolls(r.calls) <= 1
  {
    var r := LegacyRun(foreign, world, props, clock, deadline);
    var name := props.codebuildProjectName.GetOr("");
    var jsonPath := props.resultJsonPath.GetOr(DefaultJsonPath);
    var buildId := world.startBuild(name);
    var setId := [SetPhysicalResourceId(name)];
    var start := StartBuild(name, buildId);
    var poll: seq<Call> := [];
    if buildId.Some? && buildId.value != "" {
      poll := LegacyPollFrom(foreign, world, buildId.value, jsonPath, clock, deadline).calls;
      LegacyLoopPollsOnce(foreign, world, buildId.value, jsonPath, clock, deadline);
    }
    assert r.calls == setId + [start] + poll;
    CountOneStart(setId, start, poll);
    CountsAppend(setId + [start], poll);
  }
}

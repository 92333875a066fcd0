/**
 * The CloudFormation custom-resource handler that runs a CodeBuild project and answers with values
 * taken from the finished build (lib/codebuild-resource-provider.handler.ts). Each step that talks
 * to the outside world is a method on an Invocation, proved against a function that says which
 * calls the step makes, what it returns and when it ends; the lemmas further down are about those
 * functions.
 */
module Handler {
  import opened Wrappers
  import opened Json
  import opened Numbers
  import opened Runtime

  /** The custom resource's properties; None is a property that is absent (or null). */
  datatype Properties = Properties(
    codebuildProjectName: Option<string>,
    resultJsonPaths: Option<seq<string>>,
    initialDelaySeconds: Option<string>)

  /** The validated parameters of one invocation. */
  datatype Parameters = Parameters(projectName: string, jsonPaths: seq<string>, initialDelaySeconds: nat)

  const DefaultJsonPath := "$.artifacts.location"
  const DefaultInitialDelaySeconds := "60"
  const DelayBetweenChecksMs := 5000
  const TimeoutRemainingMs := 1000

  // ---------------------------------------------------------------------------------------------
  // Parameters and identity

  /**
   * `loadParameters`: the project name must be present and non-empty; the paths default to
   * `['$.artifacts.location']` only when absent; the delay text defaults to "60" and is accepted when
   * parseInt reads a number from it that is not negative.
   */
  function LoadParameters(props: Properties): (r: Result<Parameters, Error>)
    ensures r == Failure(MissingProjectName) <==> props.codebuildProjectName.GetOr("") == ""
    ensures var delay := ParseInt(props.initialDelaySeconds.GetOr(DefaultInitialDelaySeconds));
      r.Success? <==> props.codebuildProjectName.GetOr("") != "" && delay.Some? && delay.value >= 0
    ensures r.Failure? ==> r.error in {MissingProjectName, InvalidInitialDelay}
    ensures r.Success? ==>
      && Some(r.value.projectName) == props.codebuildProjectName
      && r.value.jsonPaths == props.resultJsonPaths.GetOr([DefaultJsonPath])
      && Some(r.value.initialDelaySeconds as int) == ParseInt(props.initialDelaySeconds.GetOr(DefaultInitialDelaySeconds))
  {
    var name := props.codebuildProjectName.GetOr("");
    if name == "" then Failure(MissingProjectName)
    else
      var jsonPaths := props.resultJsonPaths.GetOr([DefaultJsonPath]);
      var delay := ParseInt(props.initialDelaySeconds.GetOr(DefaultInitialDelaySeconds));
      if delay.None? || delay.value <= -1 then Failure(InvalidInitialDelay)
      else Success(Parameters(name, jsonPaths, delay.value))
  }

  /** The JSON array of the paths, as JSON.stringify sees `jsonPaths`. */
  function PathsJson(jsonPaths: seq<string>): Value
  {
    Array(seq(|jsonPaths|, i requires 0 <= i < |jsonPaths| => String(jsonPaths[i])))
  }

  /** `generateResourceId`: the project name, a colon, and the hash of name, colon and JSON of the paths. */
  function GenerateResourceId(foreign: Foreign, projectName: string, jsonPaths: seq<string>): (id: string)
    ensures projectName + ":" <= id
  {
    var hashMaterial := projectName + ":" + foreign.stringify(PathsJson(jsonPaths));
    projectName + ":" + foreign.sha256(hashMaterial)
  }

  // ---------------------------------------------------------------------------------------------
  // Readiness wait

  /**
   * How long `waitForProjectToBeReady` sleeps: until `initialDelaySeconds` have passed since the
   * project was created (a missing creation time counts as now), and not at all once they have.
   */
  function ReadinessDelay(initialDelaySeconds: nat, created: Option<int>, now: int): (wait: nat)
    ensures var target := created.GetOr(now) + initialDelaySeconds * 1000;
      && now + wait >= target
      && (wait > 0 ==> now + wait == target)
    ensures created.None? ==> wait == initialDelaySeconds * 1000
  {
    var createdOn := created.GetOr(now);
    var initialDelayMillis := initialDelaySeconds * 1000;
    var elapsedMillis := now - createdOn;
    if elapsedMillis < initialDelayMillis then initialDelayMillis - elapsedMillis else 0
  }

  /**
   * A sleep of `ms`: it returns once the timer has fired, `TimerDelay(ms)` later (1 ms when `ms`
   * is beyond the timer's range), or the platform ends the invocation at its deadline.
   */
  function SleepRun(ms: int, clock: int, deadline: int): (r: Run<()>)
    ensures r.calls == [Sleep(ms)]
    ensures r.result.Success? <==> clock + TimerDelay(ms) <= deadline
    ensures r.result.Success? ==> r.clock == clock + TimerDelay(ms)
    ensures r.result.Failure? ==> r.result == Failure(Killed) && r.clock == deadline
  {
    var delay := TimerDelay(ms);
    if clock + delay <= deadline then Run(Success(()), [Sleep(ms)], clock + delay)
    else Run(Failure(Killed), [Sleep(ms)], deadline)
  }

  /** What `waitForProjectToBeReady` does: look the project up, then sleep out the readiness delay. */
  function ReadinessRun(world: World, projectName: string, initialDelaySeconds: nat, clock: int, deadline: int): (r: Run<()>)
    requires clock <= deadline
    ensures clock <= r.clock <= deadline
  {
    var project := world.projects(projectName);
    var asked := [BatchGetProjects(projectName, project)];
    if project.None? then Run(Failure(ProjectNotFound(projectName)), asked, clock)
    else
      var wait := ReadinessDelay(initialDelaySeconds, project.value.created, clock);
      if wait == 0 then Run(Success(()), asked, clock)
      else Prepend(asked, SleepRun(wait, clock, deadline))
  }

  method WaitForProjectToBeReady(inv: Invocation, projectName: string, initialDelaySeconds: nat) returns (r: Result<(), Error>)
    requires inv.Valid()
    modifies inv
    ensures inv.Valid()
    ensures var run := ReadinessRun(inv.world, projectName, initialDelaySeconds, old(inv.clock), inv.deadline);
      r == run.result && inv.trace == old(inv.trace) + run.calls && inv.clock == run.clock
  {
    var project := inv.BatchGetProjects(projectName);
    if project.None? {
      return Failure(ProjectNotFound(projectName));
    }
    var createdOn := project.value.created.GetOr(inv.clock);
    var now := inv.clock;
    var initialDelayMillis := initialDelaySeconds * 1000;
    var elapsedMillis := now - createdOn;
    if elapsedMillis < initialDelayMillis {
      var millisToWait := initialDelayMillis - elapsedMillis;
      var alive := inv.Sleep(millisToWait);
      if !alive {
        return Failure(Killed);
      }
    }
    return Success(());
  }

  // ---------------------------------------------------------------------------------------------
  // Starting and polling the build

  /** What `startCodebuildProject` does: one StartBuild; an absent or empty build id is an error. */
  function StartRun(world: World, projectName: string, clock: int): (r: Run<string>)
    ensures r.clock == clock
    ensures r.calls == [StartBuild(projectName, world.startBuild(projectName))]
    ensures r.result == Failure(EmptyBuildId)
        <==> world.startBuild(projectName).None? || world.startBuild(projectName).value == ""
    ensures r.result.Success? ==> Some(r.result.value) == world.startBuild(projectName) && r.result.value != ""
  {
    var buildId := world.startBuild(projectName);
    var calls := [StartBuild(projectName, buildId)];
    if buildId.None? || buildId.value == "" then Run(Failure(EmptyBuildId), calls, clock)
    else Run(Success(buildId.value), calls, clock)
  }

  method StartCodebuildProject(inv: Invocation, projectName: string) returns (r: Result<string, Error>)
    requires inv.Valid()
    modifies inv
    ensures inv.Valid()
    ensures var run := StartRun(inv.world, projectName, old(inv.clock));
      r == run.result && inv.trace == old(inv.trace) + run.calls && inv.clock == run.clock
  {
    var buildId := inv.StartBuild(projectName);
    if buildId.None? || buildId.value == "" {
      return Failure(EmptyBuildId);
    }
    return Success(buildId.value);
  }

  /** `getBuildStatus`: one BatchGetBuilds; a reply without the build is an error, not a retry. */
  method GetBuildStatus(inv: Invocation, buildId: string) returns (r: Result<Build, Error>)
    requires inv.Valid()
    modifies inv
    ensures inv.Valid()
    ensures var reply := inv.world.builds(buildId, old(inv.clock));
      && r == (if reply.Some? then Success(reply.value) else Failure(BuildNotReturned))
      && inv.trace == old(inv.trace) + [BatchGetBuilds(buildId, reply)] && inv.clock == old(inv.clock)
  {
    var build := inv.BatchGetBuilds(buildId);
    if build.None? {
      return Failure(BuildNotReturned);
    }
    return Success(build.value);
  }

  /** `canContinueExecution`: more than the margin is left of the invocation. */
  method CanContinueExecution(inv: Invocation, timeoutRemainingMs: int) returns (b: bool)
    requires inv.Valid()
    modifies inv
    ensures inv.Valid()
    ensures b <==> old(inv.RemainingTimeInMillis()) > timeoutRemainingMs
    ensures inv.trace == old(inv.trace) + [RemainingTime(old(inv.RemainingTimeInMillis()))]
    ensures inv.clock == old(inv.clock)
  {
    var remaining := inv.GetRemainingTimeInMillis();
    b := remaining > timeoutRemainingMs;
  }

  /**
   * One pass through the body of the do-while loop of `waitCodebuildExecutionCompletion`: sleep,
   * poll, and map the status. Success(None) is IN_PROGRESS (go to the loop guard), Success(Some(b))
   * is SUCCEEDED, any other status is an error naming it.
   */
  function PollRound(world: World, buildId: string, clock: int, deadline: int): (r: Run<Option<Build>>)
    ensures r.result.Success? ==> r.clock == clock + DelayBetweenChecksMs <= deadline
    ensures r.result.Failure? ==> r.clock <= deadline
  {
    if deadline < clock + DelayBetweenChecksMs then Run(Failure(Killed), [Sleep(DelayBetweenChecksMs)], deadline)
    else
      var now := clock + DelayBetweenChecksMs;
      var reply := world.builds(buildId, now);
      var polled := [Sleep(DelayBetweenChecksMs), BatchGetBuilds(buildId, reply)];
      match reply
      case None => Run(Failure(BuildNotReturned), polled, now)
      case Some(build) =>
        if build.buildStatus == Some(InProgress) then Run(Success(None), polled, now)
        else if build.buildStatus != Some(Succeeded) then
          Run(Failure(BuildDidNotSucceed(build.buildStatus, build.deepLink)), polled, now)
        else Run(Success(Some(build)), polled, now)
  }

  /**
   * One iteration of the do-while loop of `waitCodebuildExecutionCompletion`: a round and, after an
   * IN_PROGRESS round, the loop guard. Success(None) is "poll again": more than 1000 ms are left;
   * with no more than that left the loop ends with the Timeout error.
   */
  function PollStep(world: World, buildId: string, clock: int, deadline: int): (r: Run<Option<Build>>)
    ensures r.result == Success(None) ==> r.clock == clock + DelayBetweenChecksMs <= deadline
    ensures r.clock <= deadline
  {
    var round := PollRound(world, buildId, clock, deadline);
    if round.result != Success(None) then round
    else
      var remaining := deadline - round.clock;
      var checked := round.calls + [RemainingTime(remaining)];
      if remaining > TimeoutRemainingMs then Run(Success(None), checked, round.clock)
      else Run(Failure(LambdaTimeout), checked, round.clock)
  }

  /** What `waitCodebuildExecutionCompletion` does from a given clock on: iterations until one ends the loop. */
  function PollFrom(world: World, buildId: string, clock: int, deadline: int): Run<Build>
    requires clock <= deadline
    decreases deadline - clock
  {
    var step := PollStep(world, buildId, clock, deadline);
    match step.result
    case Success(None) => Prepend(step.calls, PollFrom(world, buildId, step.clock, deadline))
    case Success(Some(build)) => Run(Success(build), step.calls, step.clock)
    case Failure(e) => Run(Failure(e), step.calls, step.clock)
  }

  /** The body of the poll loop up to its `continue`. */
  method PollOnce(inv: Invocation, buildId: string) returns (r: Result<Option<Build>, Error>)
    requires inv.Valid()
    modifies inv
    ensures inv.Valid()
    ensures var run := PollRound(inv.world, buildId, old(inv.clock), inv.deadline);
      r == run.result && inv.trace == old(inv.trace) + run.calls && inv.clock == run.clock
  {
    var alive := inv.Sleep(DelayBetweenChecksMs);
    if !alive {
      return Failure(Killed);
    }
    var build := GetBuildStatus(inv, buildId);
    if build.Failure? {
      return Failure(build.error);
    }
    if build.value.buildStatus == Some(InProgress) {
      return Success(None);
    }
    if build.value.buildStatus != Some(Succeeded) {
      return Failure(BuildDidNotSucceed(build.value.buildStatus, build.value.deepLink));
    }
    return Success(Some(build.value));
  }

  /** One iteration of the do-while loop: the body and, after IN_PROGRESS, the guard. */
  method PollIteration(inv: Invocation, buildId: string) returns (r: Result<Option<Build>, Error>)
    requires inv.Valid()
    modifies inv
    ensures inv.Valid()
    ensures var run := PollStep(inv.world, buildId, old(inv.clock), inv.deadline);
      r == run.result && inv.trace == old(inv.trace) + run.calls && inv.clock == run.clock
  {
    r := PollOnce(inv, buildId);
    if r == Success(None) {
      var canContinue := CanContinueExecution(inv, TimeoutRemainingMs);
      if !canContinue {
        r := Failure(LambdaTimeout);
      }
    }
  }

  method WaitCodebuildExecutionCompletion(inv: Invocation, buildId: string) returns (r: Result<Build, Error>)
    requires inv.Valid()
    modifies inv
    ensures inv.Valid()
    ensures var run := PollFrom(inv.world, buildId, old(inv.clock), inv.deadline);
      r == run.result && inv.trace == old(inv.trace) + run.calls && inv.clock == run.clock
  {
    ghost var whole := PollFrom(inv.world, buildId, inv.clock, inv.deadline);
    ghost var trace0 := inv.trace;
    ghost var done: seq<Call> := [];
    while true
      invariant inv.Valid()
      invariant inv.trace == trace0 + done
      invariant whole == Prepend(done, PollFrom(inv.world, buildId, inv.clock, inv.deadline))
      decreases inv.deadline - inv.clock
    {
      ghost var rest := PollFrom(inv.world, buildId, inv.clock, inv.deadline);
      ghost var step := PollStep(inv.world, buildId, inv.clock, inv.deadline);
      var outcome := PollIteration(inv, buildId);
      if outcome != Success(None) {
        r := if outcome.Success? then Success(outcome.value.value) else Failure(outcome.error);
        assert rest == Run(r, step.calls, inv.clock);
        EndOfRun(trace0, done, rest, whole);
        return;
      }
      PrependTwice(done, step.calls, PollFrom(inv.world, buildId, inv.clock, inv.deadline));
      done := done + step.calls;
    }
  }

  // ---------------------------------------------------------------------------------------------
  // Extracting the results

  /**
   * `extractJsonPathProperty`: the first match of the path in the build; a falsy match (none, null,
   * false, 0, "") is an error, a string is returned as it is, anything else as its JSON text.
   */
  function ExtractJsonPathProperty(foreign: Foreign, build: Build, jsonPath: string): (r: Result<string, Error>)
    ensures var first := First(foreign.query(build.document, jsonPath));
      && (r.Failure? <==> !Truthy(first))
      && (r.Failure? ==> r.error == MissingResult(jsonPath))
      && (r.Success? && first.value.String? ==> r.value == first.value.s)
      && (r.Success? && !first.value.String? ==> r.value == foreign.stringify(first.value))
  {
    var result := First(foreign.query(build.document, jsonPath));
    if !Truthy(result) then Failure(MissingResult(jsonPath))
    else if result.value.String? then Success(result.value.s)
    else Success(foreign.stringify(result.value))
  }

  /** The response key of the i-th path: `results[i]`. */
  function ResultKey(i: nat): string
  {
    "results[" + NatToString(i) + "]"
  }

  /**
   * What the loop of `createOrUpdateResource` does from path i on: extract each path in order and
   * add its value under `results[i]`; the first path that yields nothing stops it with an error.
   */
  function RespondFrom(foreign: Foreign, build: Build, jsonPaths: seq<string>, i: nat, clock: int): (r: Run<()>)
    requires i <= |jsonPaths|
    ensures r.clock == clock
    decreases |jsonPaths| - i
  {
    if i == |jsonPaths| then Run(Success(()), [], clock)
    else
      match ExtractJsonPathProperty(foreign, build, jsonPaths[i])
      case Failure(e) => Run(Failure(e), [], clock)
      case Success(value) =>
        Prepend([AddResponseValue(ResultKey(i), String(value))], RespondFrom(foreign, build, jsonPaths, i + 1, clock))
  }

  // ---------------------------------------------------------------------------------------------
  // The handler

  /** Waiting for the project, starting one build and polling it, as `createOrUpdateResource` does. */
  function BuildRun(world: World, p: Parameters, clock: int, deadline: int): (r: Run<Build>)
    requires clock <= deadline
  {
    var ready := ReadinessRun(world, p.projectName, p.initialDelaySeconds, clock, deadline);
    if ready.result.Failure? then Run(Failure(ready.result.error), ready.calls, ready.clock)
    else
      var start := StartRun(world, p.projectName, ready.clock);
      var calls := ready.calls + start.calls;
      if start.result.Failure? then Run(Failure(start.result.error), calls, start.clock)
      else Prepend(calls, PollFrom(world, start.result.value, start.clock, deadline))
  }

  /**
   * What `createOrUpdateResource` does once its parameters are loaded: set the physical id, wait
   * for the project, start one build, poll it, and add one response value per path. The result
   * carries the build that succeeded.
   */
  function RunWithParameters(foreign: Foreign, world: World, p: Parameters, clock: int, deadline: int): (r: Run<Build>)
    requires clock <= deadline
  {
    var build := Prepend([SetPhysicalResourceId(GenerateResourceId(foreign, p.projectName, p.jsonPaths))],
                         BuildRun(world, p, clock, deadline));
    if build.result.Failure? then build
    else
      var respond := RespondFrom(foreign, build.result.value, p.jsonPaths, 0, build.clock);
      var calls := build.calls + respond.calls;
      if respond.result.Failure? then Run(Failure(respond.result.error), calls, build.clock)
      else Run(build.result, calls, build.clock)
  }

  /** What `createOrUpdateResource` does: load the parameters; nothing else happens when that fails. */
  function CreateOrUpdateRun(foreign: Foreign, world: World, props: Properties, clock: int, deadline: int): (r: Run<Build>)
    requires clock <= deadline
  {
    match LoadParameters(props)
    case Failure(e) => Run(Failure(e), [], clock)
    case Success(p) => RunWithParameters(foreign, world, p, clock, deadline)
  }

  /** The build part of `createOrUpdateResource`: readiness wait, start, and poll. */
  method RunBuild(inv: Invocation, p: Parameters) returns (r: Result<Build, Error>)
    requires inv.Valid()
    modifies inv
    ensures inv.Valid()
    ensures var run := BuildRun(inv.world, p, old(inv.clock), inv.deadline);
      r == run.result && inv.trace == old(inv.trace) + run.calls && inv.clock == run.clock
  {
    ghost var trace0 := inv.trace;
    var ready := WaitForProjectToBeReady(inv, p.projectName, p.initialDelaySeconds);
    if ready.Failure? {
      return Failure(ready.error);
    }
    ghost var readyCalls := inv.trace[|trace0|..];
    var buildId := StartCodebuildProject(inv, p.projectName);
    if buildId.Failure? {
      AppendAssociative(trace0, readyCalls, [StartBuild(p.projectName, inv.world.startBuild(p.projectName))]);
      return Failure(buildId.error);
    }
    ghost var startCalls := [StartBuild(p.projectName, inv.world.startBuild(p.projectName))];
    ghost var pollRun := PollFrom(inv.world, buildId.value, inv.clock, inv.deadline);
    r := WaitCodebuildExecutionCompletion(inv, buildId.value);
    AppendAssociative(trace0, readyCalls, startCalls);
    AppendAssociative(trace0, readyCalls + startCalls, pollRun.calls);
  }

  /** The loop of `createOrUpdateResource`: one response value `results[i]` per path, in order. */
  method AddResults(inv: Invocation, resource: CustomResource, foreign: Foreign, build: Build, jsonPaths: seq<string>)
    returns (r: Result<(), Error>)
    requires inv.Valid()
    modifies inv, resource
    ensures inv.Valid()
    ensures var run := RespondFrom(foreign, build, jsonPaths, 0, old(inv.clock));
      && r == run.result && inv.trace == old(inv.trace) + run.calls && inv.clock == run.clock
      && resource.responseData == ResponsesAfter(old(resource.responseData), run.calls)
    ensures resource.physicalResourceId == old(resource.physicalResourceId)
  {
    ghost var trace0, clock0, data0 := inv.trace, inv.clock, resource.responseData;
    ghost var done: seq<Call> := [];
    for i := 0 to |jsonPaths|
      invariant inv.Valid() && inv.clock == clock0
      invariant inv.trace == trace0 + done
      invariant resource.responseData == ResponsesAfter(data0, done)
      invariant resource.physicalResourceId == old(resource.physicalResourceId)
      invariant RespondFrom(foreign, build, jsonPaths, 0, clock0)
             == Prepend(done, RespondFrom(foreign, build, jsonPaths, i, clock0))
    {
      var result := ExtractJsonPathProperty(foreign, build, jsonPaths[i]);
      if result.Failure? {
        assert done + [] == done;
        return Failure(result.error);
      }
      var added := AddResponseValue(ResultKey(i), String(result.value));
      resource.AddResponseValue(inv, ResultKey(i), String(result.value));
      assert resource.responseData == ResponsesAfter(data0, done + [added]) by {
        ResponsesAfterOneMore(data0, done, added);
      }
      PrependTwice(done, [added], RespondFrom(foreign, build, jsonPaths, i + 1, clock0));
      done := done + [added];
    }
    assert done + [] == done;
    return Success(());
  }

  lemma {:induction false} PollFromLeavesResource(world: World, buildId: string, clock: int, deadline: int)
    requires clock <= deadline
    ensures NoResourceCalls(PollFrom(world, buildId, clock, deadline).calls)
    decreases deadline - clock
  {
    var step := PollStep(world, buildId, clock, deadline);
    if step.result == Success(None) {
      PollFromLeavesResource(world, buildId, step.clock, deadline);
    }
  }

  lemma BuildRunLeavesResource(world: World, p: Parameters, clock: int, deadline: int)
    requires clock <= deadline
    ensures NoResourceCalls(BuildRun(world, p, clock, deadline).calls)
  {
    var ready := ReadinessRun(world, p.projectName, p.initialDelaySeconds, clock, deadline);
    if ready.result.Success? {
      var start := StartRun(world, p.projectName, ready.clock);
      if start.result.Success? {
        PollFromLeavesResource(world, start.result.value, start.clock, deadline);
      }
    }
  }

  lemma {:induction false} RespondFromOnlyResponseValues(foreign: Foreign, build: Build, jsonPaths: seq<string>, i: nat, clock: int)
    requires i <= |jsonPaths|
    ensures OnlyResponseValues(RespondFrom(foreign, build, jsonPaths, i, clock).calls)
    decreases |jsonPaths| - i
  {
    if i < |jsonPaths| && ExtractJsonPathProperty(foreign, build, jsonPaths[i]).Success? {
      RespondFromOnlyResponseValues(foreign, build, jsonPaths, i + 1, clock);
    }
  }

  /** `createOrUpdateResource` after `loadParameters`. */
  method CreateOrUpdateWith(inv: Invocation, resource: CustomResource, foreign: Foreign, p: Parameters)
    returns (r: Result<(), Error>)
    requires inv.Valid()
    modifies inv, resource
    ensures inv.Valid()
    ensures var run := RunWithParameters(foreign, inv.world, p, old(inv.clock), inv.deadline);
      && inv.trace == old(inv.trace) + run.calls
      && inv.clock == run.clock
      && r == (if run.result.Success? then Success(()) else Failure(run.result.error))
      && resource.physicalResourceId == PhysicalIdAfter(old(resource.physicalResourceId), run.calls)
      && resource.responseData == ResponsesAfter(old(resource.responseData), run.calls)
  {
    var resourceId := GenerateResourceId(foreign, p.projectName, p.jsonPaths);
    ghost var trace0 := inv.trace;
    ghost var setId := [SetPhysicalResourceId(resourceId)];
    resource.SetPhysicalResourceId(inv, resourceId);
    ghost var buildRun := BuildRun(inv.world, p, inv.clock, inv.deadline);
    BuildRunLeavesResource(inv.world, p, inv.clock, inv.deadline);
    var build := RunBuild(inv, p);
    AppendAssociative(trace0, setId, buildRun.calls);
    if build.Failure? {
      SetThenRespond(old(resource.physicalResourceId), old(resource.responseData), resourceId, buildRun.calls, []);
      assert setId + buildRun.calls + [] == setId + buildRun.calls;
      return Failure(build.error);
    }
    ghost var respond := RespondFrom(foreign, build.value, p.jsonPaths, 0, inv.clock);
    RespondFromOnlyResponseValues(foreign, build.value, p.jsonPaths, 0, inv.clock);
    var results := AddResults(inv, resource, foreign, build.value, p.jsonPaths);
    AppendAssociative(trace0, setId + buildRun.calls, respond.calls);
    SetThenRespond(old(resource.physicalResourceId), old(resource.responseData), resourceId, buildRun.calls, respond.calls);
    r := if results.Failure? then Failure(results.error) else Success(());
  }

  /** Create and Update: both run the same handler. */
  method CreateOrUpdateResource(inv: Invocation, resource: CustomResource, foreign: Foreign, props: Properties)
    returns (r: Result<(), Error>)
    requires inv.Valid()
    modifies inv, resource
    ensures inv.Valid()
    ensures var run := CreateOrUpdateRun(foreign, inv.world, props, old(inv.clock), inv.deadline);
      && inv.trace == old(inv.trace) + run.calls
      && inv.clock == run.clock
      && r == (if run.result.Success? then Success(()) else Failure(run.result.error))
      && resource.physicalResourceId == PhysicalIdAfter(old(resource.physicalResourceId), run.calls)
      && resource.responseData == ResponsesAfter(old(resource.responseData), run.calls)
  {
    var loaded := LoadParameters(props);
    if loaded.Failure? {
      return Failure(loaded.error);
    }
    r := CreateOrUpdateWith(inv, resource, foreign, loaded.value);
  }

  /** `deleteResource`: no call to anything, and it succeeds. */
  method DeleteResource(inv: Invocation) returns (r: Result<(), Error>)
    ensures r == Success(())
  {
    return Success(());
  }
}

/**
 * What the handlers see of the outside world: the CodeBuild service, the timer, the Lambda context
 * and the CloudFormation custom resource they answer. Every interaction is recorded, in order, in a
 * trace of calls, so that properties such as "every poll is preceded by a sleep" can be stated.
 */
module Runtime {
  import opened Wrappers
  import opened Json

  /** The values of a build's `buildStatus` that CodeBuild reports. */
  datatype BuildStatus = Succeeded | Failed | Fault | TimedOut | InProgress | Stopped

  /**
   * A build as BatchGetBuilds returns it. `buildStatus` and `deepLink` (the logs link) may be
   * absent; `document` is the whole build record as a JSON tree, which jsonpath queries run against.
   */
  datatype Build = Build(id: string, buildStatus: Option<BuildStatus>, deepLink: Option<string>, document: Value)

  /** A project as BatchGetProjects returns it; `created` is a time in milliseconds, maybe absent. */
  datatype Project = Project(name: string, created: Option<int>)

  /**
   * The replies of the CodeBuild service: the first project BatchGetProjects returns for a name,
   * the build id StartBuild returns for a project, and the first build BatchGetBuilds returns for a
   * build id at a given time. None is an empty or missing reply.
   */
  datatype World = World(
    projects: string -> Option<Project>,
    startBuild: string -> Option<string>,
    builds: (string, int) -> Option<Build>)

  /** Library functions whose code is not part of this model: sha256 (hex digest), JSON.stringify, jp.query. */
  datatype Foreign = Foreign(
    sha256: string -> string,
    stringify: Value -> string,
    query: (Value, string) -> seq<Value>)

  /** One interaction with the outside world, with the reply it got. */
  datatype Call =
    | BatchGetProjects(name: string, project: Option<Project>)
    | StartBuild(projectName: string, buildId: Option<string>)
    | BatchGetBuilds(id: string, build: Option<Build>)
    | Sleep(ms: int)
    | RemainingTime(ms: int)
    | SetPhysicalResourceId(resourceId: string)
    | AddResponseValue(key: string, value: Value)

  /** The errors the handlers throw, and Killed: the platform ending the invocation at its deadline. */
  datatype Error =
    | MissingProjectName
    | InvalidInitialDelay
    | ProjectNotFound(projectName: string)
    | EmptyBuildId
    | BuildNotReturned
    | BuildDidNotSucceed(status: Option<BuildStatus>, logs: Option<string>)
    | StatusNotSucceeded(status: Option<BuildStatus>)
    | MissingResult(jsonPath: string)
    | LambdaTimeout
    | Killed

  /** The longest delay a Node timer honours, 2^31 - 1 milliseconds. */
  const TimerMaxMs := 2147483647

  /**
   * How long a Node timer asked for `ms` actually waits: a delay outside 1 .. TimerMaxMs
   * (too long, or not positive) is replaced by 1 ms.
   */
  function TimerDelay(ms: int): (d: int)
    ensures 1 <= d <= TimerMaxMs
    ensures 1 <= ms <= TimerMaxMs ==> d == ms
    ensures ms > TimerMaxMs ==> d == 1
  {
    if 1 <= ms <= TimerMaxMs then ms else 1
  }

  /** What a step of a handler does: its outcome, the calls it makes, and the clock when it ends. */
  datatype Run<T> = Run(result: Result<T, Error>, calls: seq<Call>, clock: int)

  /** A run preceded by some calls. */
  function Prepend<T>(calls: seq<Call>, run: Run<T>): Run<T>
  {
    run.(calls := calls + run.calls)
  }

  lemma PrependTwice<T>(a: seq<Call>, b: seq<Call>, run: Run<T>)
    ensures Prepend(a, Prepend(b, run)) == Prepend(a + b, run)
  {
    assert a + (b + run.calls) == (a + b) + run.calls;
  }

  lemma AppendAssociative(a: seq<Call>, b: seq<Call>, c: seq<Call>)
    ensures (a + b) + c == a + (b + c)
  {
  }

  /** Where the trace stands when a run that started after `trace0` ends with `rest`. */
  lemma EndOfRun<T>(trace0: seq<Call>, done: seq<Call>, rest: Run<T>, whole: Run<T>)
    requires whole == Prepend(done, rest)
    ensures (trace0 + done) + rest.calls == trace0 + whole.calls
    ensures whole.result == rest.result && whole.clock == rest.clock
  {
    assert (trace0 + done) + rest.calls == trace0 + (done + rest.calls);
  }

  /** The number of BatchGetBuilds calls (polls) among the calls. */
  function CountPolls(calls: seq<Call>): nat
  {
    if calls == [] then 0 else (if calls[0].BatchGetBuilds? then 1 else 0) + CountPolls(calls[1..])
  }

  /** The number of StartBuild calls among the calls. */
  function CountStarts(calls: seq<Call>): nat
  {
    if calls == [] then 0 else (if calls[0].StartBuild? then 1 else 0) + CountStarts(calls[1..])
  }

  lemma {:induction false} CountsAppend(a: seq<Call>, b: seq<Call>)
    ensures CountPolls(a + b) == CountPolls(a) + CountPolls(b)
    ensures CountStarts(a + b) == CountStarts(a) + CountStarts(b)
    decreases |a|
  {
    if a == [] {
      assert a + b == b;
    } else {
      assert (a + b)[1..] == a[1..] + b;
      CountsAppend(a[1..], b);
    }
  }

  /** Calls none of which starts a build. */
  predicate NoStarts(calls: seq<Call>)
  {
    forall k :: 0 <= k < |calls| ==> !calls[k].StartBuild?
  }

  lemma {:induction false} NoStartsCount(calls: seq<Call>)
    requires NoStarts(calls)
    ensures CountStarts(calls) == 0
    decreases |calls|
  {
    if calls != [] {
      NoStartsCount(calls[1..]);
    }
  }

  /** Calls with one start among them. */
  lemma CountOneStart(a: seq<Call>, start: Call, b: seq<Call>)
    requires NoStarts(a) && start.StartBuild? && NoStarts(b)
    ensures CountStarts(a + [start] + b) == 1
  {
    CountsAppend(a + [start], b);
    CountsAppend(a, [start]);
    NoStartsCount(a);
    NoStartsCount(b);
  }

  /** The custom resource's physical id after the calls: the last one set, else the initial one. */
  function PhysicalIdAfter(initial: Option<string>, calls: seq<Call>): Option<string>
  {
    if calls == [] then initial
    else if calls[|calls| - 1].SetPhysicalResourceId? then Some(calls[|calls| - 1].resourceId)
    else PhysicalIdAfter(initial, calls[..|calls| - 1])
  }

  /** The custom resource's response values after the calls: each AddResponseValue sets its key. */
  function ResponsesAfter(initial: map<string, Value>, calls: seq<Call>): map<string, Value>
  {
    if calls == [] then initial
    else
      var before := ResponsesAfter(initial, calls[..|calls| - 1]);
      var last := calls[|calls| - 1];
      if last.AddResponseValue? then before[last.key := last.value] else before
  }

  lemma PhysicalIdAfterOneMore(id: Option<string>, calls: seq<Call>, c: Call)
    ensures PhysicalIdAfter(id, calls + [c])
         == if c.SetPhysicalResourceId? then Some(c.resourceId) else PhysicalIdAfter(id, calls)
  {
    assert (calls + [c])[..|calls|] == calls;
  }

  lemma ResponsesAfterOneMore(data: map<string, Value>, calls: seq<Call>, c: Call)
    ensures ResponsesAfter(data, calls + [c])
         == if c.AddResponseValue? then ResponsesAfter(data, calls)[c.key := c.value] else ResponsesAfter(data, calls)
  {
    assert (calls + [c])[..|calls|] == calls;
  }

  /** Calls that leave the custom resource alone. */
  predicate NoResourceCalls(calls: seq<Call>)
  {
    forall k :: 0 <= k < |calls| ==> !calls[k].SetPhysicalResourceId? && !calls[k].AddResponseValue?
  }

  /** Folding two stretches of calls one after the other is folding them together. */
  lemma {:induction false} ResponsesAfterAppend(data: map<string, Value>, a: seq<Call>, b: seq<Call>)
    ensures ResponsesAfter(data, a + b) == ResponsesAfter(ResponsesAfter(data, a), b)
    decreases |b|
  {
    if b == [] {
      assert a + b == a;
    } else {
      var b' := b[..|b| - 1];
      assert (a + b)[..|a + b| - 1] == a + b';
      ResponsesAfterAppend(data, a, b');
    }
  }

  lemma {:induction false} PhysicalIdAfterAppend(id: Option<string>, a: seq<Call>, b: seq<Call>)
    ensures PhysicalIdAfter(id, a + b) == PhysicalIdAfter(PhysicalIdAfter(id, a), b)
    decreases |b|
  {
    if b == [] {
      assert a + b == a;
    } else {
      var b' := b[..|b| - 1];
      assert (a + b)[..|a + b| - 1] == a + b';
      PhysicalIdAfterAppend(id, a, b');
    }
  }

  /** Calls that do not touch the resource leave its id and its response values as they were. */
  lemma {:induction false} NoResourceCallsKeep(id: Option<string>, data: map<string, Value>, calls: seq<Call>)
    requires NoResourceCalls(calls)
    ensures PhysicalIdAfter(id, calls) == id && ResponsesAfter(data, calls) == data
    decreases |calls|
  {
    if calls != [] {
      NoResourceCallsKeep(id, data, calls[..|calls| - 1]);
    }
  }

  /** Calls that only add response values. */
  predicate OnlyResponseValues(calls: seq<Call>)
  {
    forall k :: 0 <= k < |calls| ==> calls[k].AddResponseValue?
  }

  lemma {:induction false} OnlyResponseValuesKeepId(id: Option<string>, calls: seq<Call>)
    requires OnlyResponseValues(calls)
    ensures PhysicalIdAfter(id, calls) == id
    decreases |calls|
  {
    if calls != [] {
      OnlyResponseValuesKeepId(id, calls[..|calls| - 1]);
    }
  }

  /**
   * Setting the id, then calls that leave the resource alone, then response values: the id is the
   * one set, and the response values are those the last stretch adds.
   */
  lemma SetThenRespond(id0: Option<string>, data0: map<string, Value>, id: string, quiet: seq<Call>, adds: seq<Call>)
    requires NoResourceCalls(quiet) && OnlyResponseValues(adds)
    ensures PhysicalIdAfter(id0, [SetPhysicalResourceId(id)] + quiet + adds) == Some(id)
    ensures ResponsesAfter(data0, [SetPhysicalResourceId(id)] + quiet + adds) == ResponsesAfter(data0, adds)
  {
    var first := [SetPhysicalResourceId(id)];
    PhysicalIdAfterAppend(id0, first + quiet, adds);
    PhysicalIdAfterAppend(id0, first, quiet);
    assert PhysicalIdAfter(id0, first) == Some(id) by { PhysicalIdAfterOneMore(id0, [], first[0]); assert [] + first == first; }
    NoResourceCallsKeep(Some(id), data0, quiet);
    OnlyResponseValuesKeepId(Some(id), adds);
    ResponsesAfterAppend(data0, first + quiet, adds);
    ResponsesAfterAppend(data0, first, quiet);
    assert ResponsesAfter(data0, first) == data0 by { ResponsesAfterOneMore(data0, [], first[0]); assert [] + first == first; }
    NoResourceCallsKeep(id0, data0, quiet);
  }

  /**
   * One invocation of the Lambda function: the CodeBuild client, the timer, the Lambda context
   * (a clock and the invocation's deadline, in milliseconds) and the custom resource it answers.
   * CodeBuild calls take no time here; only sleeps move the clock.
   */
  class Invocation {
    const world: World
    const deadline: int
    var clock: int
    var trace: seq<Call>

    /** The invocation is still running: its clock has not passed the deadline. */
    ghost predicate Valid()
      reads this
    {
      clock <= deadline
    }

    constructor (world: World, clock: int, deadline: int)
      requires clock <= deadline
      ensures Valid()
      ensures this.world == world && this.clock == clock && this.deadline == deadline && trace == []
    {
      this.world := world;
      this.clock := clock;
      this.deadline := deadline;
      this.trace := [];
    }

    /** `context.getRemainingTimeInMillis()` */
    function RemainingTimeInMillis(): int
      reads this
    {
      deadline - clock
    }

    /** Appends a call to the trace; the clock stays where it is. */
    method Record(c: Call)
      requires Valid()
      modifies this
      ensures Valid()
      ensures trace == old(trace) + [c] && clock == old(clock)
    {
      trace := trace + [c];
    }

    /** Reads the remaining time of the invocation (recorded, as the poll loops decide on it). */
    method GetRemainingTimeInMillis() returns (ms: int)
      requires Valid()
      modifies this
      ensures Valid()
      ensures ms == old(RemainingTimeInMillis())
      ensures trace == old(trace) + [Call.RemainingTime(ms)] && clock == old(clock)
    {
      ms := deadline - clock;
      Record(Call.RemainingTime(ms));
    }

    /**
     * `await sleep(ms)`, a promisified Node timer: it waits `TimerDelay(ms)`, which is 1 ms for a
     * delay beyond the timer's range. A sleep that would run past the deadline does not return:
     * the platform ends the invocation (alive is false and the clock stops at the deadline). The
     * trace records the delay asked for.
     */
    method Sleep(ms: int) returns (alive: bool)
      requires Valid()
      modifies this
      ensures Valid()
      ensures alive == (old(clock) + TimerDelay(ms) <= deadline)
      ensures clock == if alive then old(clock) + TimerDelay(ms) else deadline
      ensures trace == old(trace) + [Call.Sleep(ms)]
    {
      Record(Call.Sleep(ms));
      var delay := TimerDelay(ms);
      alive := clock + delay <= deadline;
      clock := if alive then clock + delay else deadline;
    }

    /** BatchGetProjects for one name: its first project, if any. */
    method BatchGetProjects(name: string) returns (project: Option<Project>)
      requires Valid()
      modifies this
      ensures Valid()
      ensures project == world.projects(name)
      ensures trace == old(trace) + [Call.BatchGetProjects(name, project)] && clock == old(clock)
    {
      project := world.projects(name);
      Record(Call.BatchGetProjects(name, project));
    }

    /** StartBuild for a project: the `build.id` of the reply, if any. */
    method StartBuild(projectName: string) returns (buildId: Option<string>)
      requires Valid()
      modifies this
      ensures Valid()
      ensures buildId == world.startBuild(projectName)
      ensures trace == old(trace) + [Call.StartBuild(projectName, buildId)] && clock == old(clock)
    {
      buildId := world.startBuild(projectName);
      Record(Call.StartBuild(projectName, buildId));
    }

    /** BatchGetBuilds for one build id: the first build of the reply, if any. */
    method BatchGetBuilds(id: string) returns (build: Option<Build>)
      requires Valid()
      modifies this
      ensures Valid()
      ensures build == world.builds(id, old(clock))
      ensures trace == old(trace) + [Call.BatchGetBuilds(id, build)] && clock == old(clock)
    {
      build := world.builds(id, clock);
      Record(Call.BatchGetBuilds(id, build));
    }
  }

  /**
   * The CloudFormation custom resource an invocation answers: its physical id and the response
   * values it sends back. Each change is also recorded in the invocation's trace.
   */
  class CustomResource {
    var physicalResourceId: Option<string>
    var responseData: map<string, Value>

    constructor (physicalResourceId: Option<string>)
      ensures this.physicalResourceId == physicalResourceId && responseData == map[]
    {
      this.physicalResourceId := physicalResourceId;
      this.responseData := map[];
    }

    /** `resource.setPhysicalResourceId(id)` */
    method SetPhysicalResourceId(inv: Invocation, id: string)
      requires inv.Valid()
      modifies this, inv
      ensures inv.Valid()
      ensures physicalResourceId == Some(id)
      ensures responseData == old(responseData)
      ensures inv.trace == old(inv.trace) + [Call.SetPhysicalResourceId(id)] && inv.clock == old(inv.clock)
    {
      inv.Record(Call.SetPhysicalResourceId(id));
      physicalResourceId := Some(id);
    }

    /** `resource.addResponseValue(key, value)` */
    method AddResponseValue(inv: Invocation, key: string, value: Value)
      requires inv.Valid()
      modifies this, inv
      ensures inv.Valid()
      ensures responseData == old(responseData)[key := value]
      ensures physicalResourceId == old(physicalResourceId)
      ensures inv.trace == old(inv.trace) + [Call.AddResponseValue(key, value)] && inv.clock == old(inv.clock)
    {
      inv.Record(Call.AddResponseValue(key, value));
      responseData := responseData[key := value];
    }
  }
}

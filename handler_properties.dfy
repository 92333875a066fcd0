/**
 * Properties of the handler of lib/codebuild-resource-provider.handler.ts, stated about the
 * functions that say what each step does (module Handler), and therefore about every run of the
 * methods proved against them.
 */
module HandlerProperties {
  import opened Wrappers
  import opened Json
  import opened Numbers
  import opened Runtime
  import opened Handler

  // ---------------------------------------------------------------------------------------------
  // The readiness wait

  /**
   * The readiness wait looks the project up once; a missing project is an error and nothing else
   * happens. Otherwise it sleeps only when the delay has not yet passed since the project's
   * creation (a missing creation time counting as now), and then until exactly that moment, unless
   * that moment is more than TimerMaxMs away: the timer then fires after 1 ms.
   */
  lemma ReadinessOutcome(world: World, name: string, delaySeconds: nat, clock: int, deadline: int)
    requires clock <= deadline
    ensures var r := ReadinessRun(world, name, delaySeconds, clock, deadline);
      var project := world.projects(name);
      && (project.None? ==> r == Run(Failure(ProjectNotFound(name)), [BatchGetProjects(name, None)], clock))
      && (project.Some? ==>
            var ready := project.value.created.GetOr(clock) + delaySeconds * 1000;
            && r.calls[0] == BatchGetProjects(name, project)
            && (clock >= ready ==> r == Run(Success(()), [BatchGetProjects(name, project)], clock))
            && (clock < ready ==>
                  && r.calls == [BatchGetProjects(name, project), Sleep(ready - clock)]
                  && (ready - clock <= TimerMaxMs ==>
                        && (r.result.Success? <==> ready <= deadline)
                        && (r.result.Success? ==> r.clock == ready))
                  && (ready - clock > TimerMaxMs ==>
                        && (r.result.Success? <==> clock + 1 <= deadline)
                        && (r.result.Success? ==> r.clock == clock + 1))
                  && (r.result.Failure? ==> r.result == Failure(Killed) && r.clock == deadline)))
  {
    var project := world.projects(name);
    if project.Some? {
      var wait := ReadinessDelay(delaySeconds, project.value.created, clock);
      assert wait == 0 <==> clock >= project.value.created.GetOr(clock) + delaySeconds * 1000;
    }
  }

  // ---------------------------------------------------------------------------------------------
  // The poll loop

  /** Every poll is of the given build and comes right after a sleep of `ms`. */
  predicate SleepBeforeEveryPoll(calls: seq<Call>, buildId: string, ms: int)
  {
    forall k :: 0 <= k < |calls| && calls[k].BatchGetBuilds? ==>
      0 < k && calls[k - 1] == Sleep(ms) && calls[k].id == buildId
  }

  /** A poll that saw the build IN_PROGRESS. */
  predicate InProgressPoll(c: Call)
  {
    c.BatchGetBuilds? && c.build.Some? && c.build.value.buildStatus == Some(InProgress)
  }

  /**
   * The loop begins with a sleep (the first poll is not conditional on anything but that sleep),
   * and every poll is of the started build and comes right after a sleep of 5000 ms.
   */
  lemma {:induction false} PollFromSleepsBeforePolls(world: World, buildId: string, clock: int, deadline: int)
    requires clock <= deadline
    ensures var calls := PollFrom(world, buildId, clock, deadline).calls;
      && calls != [] && calls[0] == Sleep(DelayBetweenChecksMs)
      && SleepBeforeEveryPoll(calls, buildId, DelayBetweenChecksMs)
    decreases deadline - clock
  {
    var step := PollStep(world, buildId, clock, deadline);
    if step.result == Success(None) {
      var rest := PollFrom(world, buildId, step.clock, deadline);
      PollFromSleepsBeforePolls(world, buildId, step.clock, deadline);
      var calls := step.calls + rest.calls;
      forall k | 0 <= k < |calls| && calls[k].BatchGetBuilds?
        ensures 0 < k && calls[k - 1] == Sleep(DelayBetweenChecksMs) && calls[k].id == buildId
      {
        if k >= |step.calls| {
          assert calls[k] == rest.calls[k - |step.calls|];
          assert k > |step.calls|;
          assert calls[k - 1] == rest.calls[k - 1 - |step.calls|];
        }
      }
    }
  }

  /**
   * How the loop ends, read off its last calls: SUCCEEDED returns the build of the last poll; a
   * status other than IN_PROGRESS and SUCCEEDED is an error naming it and the logs link; a poll
   * without a build is an error; the Timeout error comes only right after an IN_PROGRESS poll and
   * a reading of at most 1000 ms; and a sleep past the deadline ends the invocation.
   */
  lemma {:induction false} PollFromOutcome(world: World, buildId: string, clock: int, deadline: int)
    requires clock <= deadline
    ensures var r := PollFrom(world, buildId, clock, deadline);
      var n := |r.calls|;
      && n >= 1
      && (r.result.Success? ==>
            && r.result.value.buildStatus == Some(Succeeded)
            && r.calls[n - 1] == BatchGetBuilds(buildId, Some(r.result.value)))
      && (r.result.Failure? ==> match r.result.error
            case LambdaTimeout =>
              && n >= 2 && InProgressPoll(r.calls[n - 2])
              && r.calls[n - 1] == RemainingTime(deadline - r.clock) && deadline - r.clock <= TimeoutRemainingMs
            case Killed => r.calls[n - 1] == Sleep(DelayBetweenChecksMs) && r.clock == deadline
            case BuildNotReturned => r.calls[n - 1] == BatchGetBuilds(buildId, None)
            case BuildDidNotSucceed(status, logs) =>
              && r.calls[n - 1].BatchGetBuilds? && r.calls[n - 1].build.Some?
              && status == r.calls[n - 1].build.value.buildStatus && logs == r.calls[n - 1].build.value.deepLink
              && status != Some(InProgress) && status != Some(Succeeded)
            case _ => false)
    decreases deadline - clock
  {
    var step := PollStep(world, buildId, clock, deadline);
    if step.result == Success(None) {
      var rest := PollFrom(world, buildId, step.clock, deadline);
      PollFromOutcome(world, buildId, step.clock, deadline);
      var calls := step.calls + rest.calls;
      assert calls[|calls| - 1] == rest.calls[|rest.calls| - 1];
      assert |rest.calls| >= 2 ==> calls[|calls| - 2] == rest.calls[|rest.calls| - 2];
    }
  }

  /**
   * Every reading of the remaining time comes right after an IN_PROGRESS poll, and every reading
   * but the last one left more than 1000 ms: the loop went on only with that margin.
   */
  lemma {:induction false} PollFromGuards(world: World, buildId: string, clock: int, deadline: int)
    requires clock <= deadline
    ensures var calls := PollFrom(world, buildId, clock, deadline).calls;
      forall k :: 0 <= k < |calls| && calls[k].RemainingTime? ==>
        && 0 < k && InProgressPoll(calls[k - 1])
        && (k < |calls| - 1 ==> calls[k].ms > TimeoutRemainingMs)
    decreases deadline - clock
  {
    var step := PollStep(world, buildId, clock, deadline);
    if step.result == Success(None) {
      var rest := PollFrom(world, buildId, step.clock, deadline);
      PollFromGuards(world, buildId, step.clock, deadline);
      PollFromSleepsBeforePolls(world, buildId, step.clock, deadline);
      var calls := step.calls + rest.calls;
      forall k | 0 <= k < |calls| && calls[k].RemainingTime?
        ensures 0 < k && InProgressPoll(calls[k - 1]) && (k < |calls| - 1 ==> calls[k].ms > TimeoutRemainingMs)
      {
        if k >= |step.calls| {
          assert calls[k] == rest.calls[k - |step.calls|];
          assert k > |step.calls|;
          assert calls[k - 1] == rest.calls[k - 1 - |step.calls|];
        }
      }
    }
  }

  /**
   * The loop goes on only after an IN_PROGRESS poll: every poll but a final one saw the build
   * IN_PROGRESS and is followed by a reading of the remaining time. A poll without a build, a
   * SUCCEEDED build or any other status ends the loop there, with no further call.
   */
  lemma {:induction false} PollFromStopsAtFinalStatus(world: World, buildId: string, clock: int, deadline: int)
    requires clock <= deadline
    ensures var calls := PollFrom(world, buildId, clock, deadline).calls;
      forall k :: 0 <= k < |calls| - 1 && calls[k].BatchGetBuilds? ==>
        InProgressPoll(calls[k]) && calls[k + 1].RemainingTime?
    decreases deadline - clock
  {
    var step := PollStep(world, buildId, clock, deadline);
    PollStepShape(world, buildId, clock, deadline);
    if deadline >= clock + DelayBetweenChecksMs && |step.calls| == 3 {
      assert PollRound(world, buildId, clock, deadline).result == Success(None);
      assert InProgressPoll(step.calls[1]);
    }
    if step.result == Success(None) {
      var rest := PollFrom(world, buildId, step.clock, deadline);
      PollFromStopsAtFinalStatus(world, buildId, step.clock, deadline);
      PollFromSleepsBeforePolls(world, buildId, step.clock, deadline);
      var calls := step.calls + rest.calls;
      forall k | 0 <= k < |calls| - 1 && calls[k].BatchGetBuilds?
        ensures InProgressPoll(calls[k]) && calls[k + 1].RemainingTime?
      {
        if k >= |step.calls| {
          assert calls[k] == rest.calls[k - |step.calls|];
          assert calls[k + 1] == rest.calls[k + 1 - |step.calls|];
        } else {
          assert k == 1;
        }
      }
    }
  }

  /** One iteration: a sleep and, if the invocation survives it, one poll, maybe a reading. */
  lemma PollStepShape(world: World, buildId: string, clock: int, deadline: int)
    ensures var step := PollStep(world, buildId, clock, deadline);
      if deadline < clock + DelayBetweenChecksMs then
        step == Run(Failure(Killed), [Sleep(DelayBetweenChecksMs)], deadline) && CountPolls(step.calls) == 0
      else
        && step.clock == clock + DelayBetweenChecksMs
        && 2 <= |step.calls| <= 3
        && step.calls[..2] == [Sleep(DelayBetweenChecksMs), BatchGetBuilds(buildId, world.builds(buildId, step.clock))]
        && (|step.calls| == 3 ==> step.calls[2] == RemainingTime(deadline - step.clock))
        && CountPolls(step.calls) == 1
  {
    var step := PollStep(world, buildId, clock, deadline);
    if deadline >= clock + DelayBetweenChecksMs {
      var tail := step.calls[2..];
      assert step.calls[1..][1..] == tail;
      assert tail == [] || tail == [RemainingTime(deadline - step.clock)];
      assert CountPolls(tail) == 0 by {
        if tail != [] { assert tail[1..] == []; }
      }
    }
  }

  /**
   * Polls take time: each one comes after its own 5000 ms sleep, so the clock has moved on by at
   * least 5000 ms per poll, and by exactly that much unless the invocation was ended.
   */
  lemma {:induction false} PollFromElapsed(world: World, buildId: string, clock: int, deadline: int)
    requires clock <= deadline
    ensures var r := PollFrom(world, buildId, clock, deadline);
      && clock + CountPolls(r.calls) * DelayBetweenChecksMs <= r.clock <= deadline
      && (r.result != Failure(Killed) ==> r.clock == clock + CountPolls(r.calls) * DelayBetweenChecksMs)
    decreases deadline - clock
  {
    var step := PollStep(world, buildId, clock, deadline);
    PollStepShape(world, buildId, clock, deadline);
    if step.result == Success(None) {
      var rest := PollFrom(world, buildId, step.clock, deadline);
      PollFromElapsed(world, buildId, step.clock, deadline);
      CountsAppend(step.calls, rest.calls);
    }
  }

  /**
   * While the build stays IN_PROGRESS, the loop polls once per 5000 ms of the time left, and it
   * ends with its own Timeout error only when the time left is within 1000 ms of a multiple of
   * 5000 ms; otherwise the platform ends the invocation during the last sleep.
   */
  lemma {:induction false} PollFromWhileInProgress(world: World, buildId: string, clock: int, deadline: int)
    requires clock <= deadline
    requires forall t :: world.builds(buildId, t).Some? && world.builds(buildId, t).value.buildStatus == Some(InProgress)
    ensures var r := PollFrom(world, buildId, clock, deadline);
      var left := deadline - clock;
      && r.result == (if left >= DelayBetweenChecksMs && left % DelayBetweenChecksMs <= TimeoutRemainingMs
                      then Failure(LambdaTimeout) else Failure(Killed))
      && CountPolls(r.calls) == left / DelayBetweenChecksMs
    decreases deadline - clock
  {
    var step := PollStep(world, buildId, clock, deadline);
    var left := deadline - clock;
    PollStepShape(world, buildId, clock, deadline);
    if left >= DelayBetweenChecksMs {
      var reply := world.builds(buildId, clock + DelayBetweenChecksMs);
      assert reply.Some? && reply.value.buildStatus == Some(InProgress);
      assert PollRound(world, buildId, clock, deadline).result == Success(None);
      CycleArithmetic(left);
      if step.result == Success(None) {
        var rest := PollFrom(world, buildId, step.clock, deadline);
        PollFromWhileInProgress(world, buildId, step.clock, deadline);
        CountsAppend(step.calls, rest.calls);
      }
    }
  }

  /**
   * The loop guard the Timeout error evidently calls for: after an IN_PROGRESS round, go round
   * again only while the next sleep and the 1000 ms margin both fit in the time left.
   */
  function IntendedPollStep(world: World, buildId: string, clock: int, deadline: int): (r: Run<Option<Build>>)
    ensures r.result == Success(None) ==>
      r.clock == clock + DelayBetweenChecksMs && r.clock + DelayBetweenChecksMs + TimeoutRemainingMs < deadline
    ensures r.clock <= deadline
  {
    var round := PollRound(world, buildId, clock, deadline);
    if round.result != Success(None) then round
    else
      var remaining := deadline - round.clock;
      var checked := round.calls + [RemainingTime(remaining)];
      if remaining > DelayBetweenChecksMs + TimeoutRemainingMs then Run(Success(None), checked, round.clock)
      else Run(Failure(LambdaTimeout), checked, round.clock)
  }

  /** The poll loop with the intended guard. */
  function IntendedPollFrom(world: World, buildId: string, clock: int, deadline: int): Run<Build>
    requires clock <= deadline
    decreases deadline - clock
  {
    var step := IntendedPollStep(world, buildId, clock, deadline);
    match step.result
    case Success(None) => Prepend(step.calls, IntendedPollFrom(world, buildId, step.clock, deadline))
    case Success(Some(build)) => Run(Success(build), step.calls, step.clock)
    case Failure(e) => Run(Failure(e), step.calls, step.clock)
  }

  /**
   * With the intended guard, a loop that has time for its first sleep is never ended by the
   * platform, and a build that stays IN_PROGRESS always ends in the Timeout error.
   */
  lemma {:induction false} IntendedPollNeverKilled(world: World, buildId: string, clock: int, deadline: int)
    requires clock + DelayBetweenChecksMs <= deadline
    ensures IntendedPollFrom(world, buildId, clock, deadline).result != Failure(Killed)
    ensures (forall t :: world.builds(buildId, t).Some? && world.builds(buildId, t).value.buildStatus == Some(InProgress))
      ==> IntendedPollFrom(world, buildId, clock, deadline).result == Failure(LambdaTimeout)
    decreases deadline - clock
  {
    var step := IntendedPollStep(world, buildId, clock, deadline);
    if step.result == Success(None) {
      IntendedPollNeverKilled(world, buildId, step.clock, deadline);
    }
  }

  /** Arithmetic of one 5000 ms cycle of the loop. */
  lemma CycleArithmetic(left: int)
    requires left >= DelayBetweenChecksMs
    ensures (left - DelayBetweenChecksMs) % DelayBetweenChecksMs == left % DelayBetweenChecksMs
    ensures (left - DelayBetweenChecksMs) / DelayBetweenChecksMs == left / DelayBetweenChecksMs - 1
    ensures left - DelayBetweenChecksMs < DelayBetweenChecksMs ==>
      left / DelayBetweenChecksMs == 1 && left % DelayBetweenChecksMs == left - DelayBetweenChecksMs
  {
  }

  // ---------------------------------------------------------------------------------------------
  // The results

  /** `results[i]` and `results[j]` are different keys for different i and j. */
  lemma ResultKeyInjective(i: nat, j: nat)
    requires i != j
    ensures ResultKey(i) != ResultKey(j)
  {
    var a, b := ResultKey(i), ResultKey(j);
    assert a[8..|a| - 1] == NatToString(i);
    assert b[8..|b| - 1] == NatToString(j);
    NatToStringInjective(i, j);
  }

  /** The value a path contributes, when it yields one. */
  function PathValue(foreign: Foreign, build: Build, jsonPath: string): Value
    requires ExtractJsonPathProperty(foreign, build, jsonPath).Success?
  {
    String(ExtractJsonPathProperty(foreign, build, jsonPath).value)
  }

  /**
   * The k-th call the loop makes from path i on adds `results[i+k]`, holding the value of path
   * i+k, which yielded one.
   */
  lemma {:induction false} RespondFromCallAt(foreign: Foreign, build: Build, jsonPaths: seq<string>, i: nat, clock: int, k: nat)
    requires i <= |jsonPaths|
    requires k < |RespondFrom(foreign, build, jsonPaths, i, clock).calls|
    ensures i + k < |jsonPaths|
    ensures ExtractJsonPathProperty(foreign, build, jsonPaths[i + k]).Success?
    ensures RespondFrom(foreign, build, jsonPaths, i, clock).calls[k]
      == AddResponseValue(ResultKey(i + k), PathValue(foreign, build, jsonPaths[i + k]))
    decreases k
  {
    var r := RespondFrom(foreign, build, jsonPaths, i, clock);
    assert i < |jsonPaths| && ExtractJsonPathProperty(foreign, build, jsonPaths[i]).Success?;
    var rest := RespondFrom(foreign, build, jsonPaths, i + 1, clock);
    assert r.calls == [AddResponseValue(ResultKey(i), PathValue(foreign, build, jsonPaths[i]))] + rest.calls;
    if k > 0 {
      assert r.calls[k] == rest.calls[k - 1];
      RespondFromCallAt(foreign, build, jsonPaths, i + 1, clock, k - 1);
    }
  }

  /**
   * The loop makes one call per path until the first path that yields nothing; it stops there
   * with the error naming that path, and succeeds exactly when every path yielded a value.
   */
  lemma {:induction false} RespondFromOutcome(foreign: Foreign, build: Build, jsonPaths: seq<string>, i: nat, clock: int)
    requires i <= |jsonPaths|
    ensures var r := RespondFrom(foreign, build, jsonPaths, i, clock);
      && i + |r.calls| <= |jsonPaths|
      && (r.result.Success? <==> i + |r.calls| == |jsonPaths|)
      && (r.result.Failure? ==>
            && ExtractJsonPathProperty(foreign, build, jsonPaths[i + |r.calls|]).Failure?
            && r.result.error == MissingResult(jsonPaths[i + |r.calls|]))
    decreases |jsonPaths| - i
  {
    if i < |jsonPaths| && ExtractJsonPathProperty(foreign, build, jsonPaths[i]).Success? {
      RespondFromOutcome(foreign, build, jsonPaths, i + 1, clock);
    }
  }

  /** A key the later calls do not set again keeps the value its call added. */
  lemma {:induction false} ResponsesAfterLookup(data: map<string, Value>, calls: seq<Call>, k: nat)
    requires k < |calls| && calls[k].AddResponseValue?
    requires forall m :: k < m < |calls| && calls[m].AddResponseValue? ==> calls[m].key != calls[k].key
    ensures calls[k].key in ResponsesAfter(data, calls)
    ensures ResponsesAfter(data, calls)[calls[k].key] == calls[k].value
    decreases |calls|
  {
    if k < |calls| - 1 {
      var prefix := calls[..|calls| - 1];
      assert prefix[k] == calls[k];
      ResponsesAfterLookup(data, prefix, k);
    }
  }

  /**
   * After the loop, `results[j]` holds the value of path j for every path it got to: the extracted
   * string, whatever was in the response data before.
   */
  lemma RespondFromResults(foreign: Foreign, build: Build, jsonPaths: seq<string>, clock: int, data: map<string, Value>)
    ensures var r := RespondFrom(foreign, build, jsonPaths, 0, clock);
      forall j :: 0 <= j < |r.calls| && j < |jsonPaths| ==>
        && ExtractJsonPathProperty(foreign, build, jsonPaths[j]).Success?
        && ResultKey(j) in ResponsesAfter(data, r.calls)
        && ResponsesAfter(data, r.calls)[ResultKey(j)] == PathValue(foreign, build, jsonPaths[j])
  {
    var r := RespondFrom(foreign, build, jsonPaths, 0, clock);
    forall j | 0 <= j < |r.calls| && j < |jsonPaths|
      ensures ExtractJsonPathProperty(foreign, build, jsonPaths[j]).Success?
      ensures ResultKey(j) in ResponsesAfter(data, r.calls)
      ensures ResponsesAfter(data, r.calls)[ResultKey(j)] == PathValue(foreign, build, jsonPaths[j])
    {
      RespondFromCallAt(foreign, build, jsonPaths, 0, clock, j);
      forall m | j < m < |r.calls| && r.calls[m].AddResponseValue?
        ensures r.calls[m].key != r.calls[j].key
      {
        RespondFromCallAt(foreign, build, jsonPaths, 0, clock, m);
        ResultKeyInjective(m, j);
      }
      ResponsesAfterLookup(data, r.calls, j);
    }
  }

  // ---------------------------------------------------------------------------------------------
  // Parameters and identity

  /** With only the project name given, the path list is `['$.artifacts.location']` and the delay 60 s. */
  lemma LoadParametersDefaults(name: string)
    requires name != ""
    ensures LoadParameters(Properties(Some(name), None, None)) == Success(Parameters(name, [DefaultJsonPath], 60))
  {
    ParseSixty();
  }

  /** parseInt reads the delay's leading digits and ignores what follows them: "30s" is 30 seconds. */
  lemma DelayReadsLeadingDigits(name: string, paths: Option<seq<string>>, d: string, t: string)
    requires name != ""
    requires d != [] && AllDigits(d, 10)
    requires t == [] || !IsDigit(t[0], 10)
    requires !(|d| == 1 && d[0] == '0' && t != [] && (t[0] == 'x' || t[0] == 'X'))
    ensures LoadParameters(Properties(Some(name), paths, Some(d + t)))
         == Success(Parameters(name, paths.GetOr([DefaultJsonPath]), DigitsValue(d, 10)))
  {
    assert ParseInt(d + t) == Some(DigitsValue(d, 10)) by { ParseLeadingDigits(d, t); }
  }

  /** A negative delay is rejected; "-0" (or "-00s") reads as 0, which is not below 0, and is accepted. */
  lemma NegativeDelay(name: string, paths: Option<seq<string>>, d: string, t: string)
    requires name != ""
    requires d != [] && AllDigits(d, 10)
    requires t == [] || !IsDigit(t[0], 10)
    requires !(|d| == 1 && d[0] == '0' && t != [] && (t[0] == 'x' || t[0] == 'X'))
    ensures LoadParameters(Properties(Some(name), paths, Some("-" + (d + t))))
         == if DigitsValue(d, 10) == 0 then Success(Parameters(name, paths.GetOr([DefaultJsonPath]), 0))
            else Failure(InvalidInitialDelay)
  {
    var props := Properties(Some(name), paths, Some("-" + (d + t)));
    var delay := ParseInt(props.initialDelaySeconds.GetOr(DefaultInitialDelaySeconds));
    assert delay.Some? && delay.value == -(DigitsValue(d, 10) as int) by {
      assert props.initialDelaySeconds.GetOr(DefaultInitialDelaySeconds) == "-" + (d + t);
      ParseNegatedLeadingDigits(d, t);
    }
    if DigitsValue(d, 10) == 0 {
      assert delay.value == 0;
    } else {
      assert delay.value <= -1;
    }
  }

  /** The JSON arrays of two path lists are equal only when the lists are. */
  lemma PathsJsonInjective(a: seq<string>, b: seq<string>)
    requires PathsJson(a) == PathsJson(b)
    ensures a == b
  {
    assert |a| == |PathsJson(a).items| == |PathsJson(b).items| == |b|;
    forall i | 0 <= i < |a|
      ensures a[i] == b[i]
    {
      assert PathsJson(a).items[i] == String(a[i]);
      assert PathsJson(b).items[i] == String(b[i]);
    }
  }

  /**
   * The physical id determines the project name and the path list, so a change of either gives a
   * new id (and CloudFormation replaces the resource). This rests on three hypotheses about library
   * code, stated as preconditions: sha256 yields 64 hex digits; sha256 does not collide on the two
   * hash inputs; JSON.stringify does not give the two path arrays the same text.
   */
  lemma IdDeterminesConfiguration(foreign: Foreign, name1: string, paths1: seq<string>, name2: string, paths2: seq<string>)
    requires forall text :: |foreign.sha256(text)| == 64
    requires var m1, m2 := name1 + ":" + foreign.stringify(PathsJson(paths1)), name2 + ":" + foreign.stringify(PathsJson(paths2));
      foreign.sha256(m1) == foreign.sha256(m2) ==> m1 == m2
    requires foreign.stringify(PathsJson(paths1)) == foreign.stringify(PathsJson(paths2)) ==> PathsJson(paths1) == PathsJson(paths2)
    requires GenerateResourceId(foreign, name1, paths1) == GenerateResourceId(foreign, name2, paths2)
    ensures name1 == name2 && paths1 == paths2
  {
    var s1, s2 := foreign.stringify(PathsJson(paths1)), foreign.stringify(PathsJson(paths2));
    var h1, h2 := foreign.sha256(name1 + ":" + s1), foreign.sha256(name2 + ":" + s2);
    var id := GenerateResourceId(foreign, name1, paths1);
    assert id == name1 + ":" + h1 == name2 + ":" + h2;
    assert |name1| == |name2|;
    assert name1 == id[..|name1|] == name2;
    assert h1 == id[|name1| + 1..] == h2;
    assert s1 == (name1 + ":" + s1)[|name1| + 1..] == (name2 + ":" + s2)[|name2| + 1..] == s2;
    PathsJsonInjective(paths1, paths2);
  }

  // ---------------------------------------------------------------------------------------------
  // The whole handler

  lemma {:induction false} PollFromNoStarts(world: World, buildId: string, clock: int, deadline: int)
    requires clock <= deadline
    ensures NoStarts(PollFrom(world, buildId, clock, deadline).calls)
    decreases deadline - clock
  {
    var step := PollStep(world, buildId, clock, deadline);
    if step.result == Success(None) {
      PollFromNoStarts(world, buildId, step.clock, deadline);
    }
  }

  /** A build run that succeeds returns a build whose last poll saw it SUCCEEDED. */
  lemma BuildRunSucceeded(world: World, p: Parameters, clock: int, deadline: int)
    requires clock <= deadline
    ensures var r := BuildRun(world, p, clock, deadline);
      r.result.Success? ==> r.result.value.buildStatus == Some(Succeeded)
  {
    var ready := ReadinessRun(world, p.projectName, p.initialDelaySeconds, clock, deadline);
    if ready.result.Success? {
      var start := StartRun(world, p.projectName, ready.clock);
      if start.result.Success? {
        PollFromOutcome(world, start.result.value, start.clock, deadline);
      }
    }
  }

  /** How a run of the handler is put together, once its parameters are loaded. */
  lemma RunWithParametersShape(foreign: Foreign, world: World, p: Parameters, clock: int, deadline: int)
    requires clock <= deadline
    ensures var r := RunWithParameters(foreign, world, p, clock, deadline);
      var build := BuildRun(world, p, clock, deadline);
      var setId := [SetPhysicalResourceId(GenerateResourceId(foreign, p.projectName, p.jsonPaths))];
      if build.result.Failure? then r == Run(build.result, setId + build.calls + [], build.clock)
      else
        var respond := RespondFrom(foreign, build.result.value, p.jsonPaths, 0, build.clock);
        && r.calls == setId + build.calls + respond.calls
        && r.clock == build.clock
        && r.result == (if respond.result.Failure? then Failure(respond.result.error) else build.result)
  {
    var build := BuildRun(world, p, clock, deadline);
    var setId := [SetPhysicalResourceId(GenerateResourceId(foreign, p.projectName, p.jsonPaths))];
    assert setId + build.calls + [] == setId + build.calls;
  }

  /** How a run of the handler is put together, before its parameters are loaded. */
  lemma CreateOrUpdateShape(foreign: Foreign, world: World, props: Properties, clock: int, deadline: int)
    requires clock <= deadline
    ensures var r := CreateOrUpdateRun(foreign, world, props, clock, deadline);
      var loaded := LoadParameters(props);
      if loaded.Failure? then r == Run(Failure(loaded.error), [], clock)
      else r == RunWithParameters(foreign, world, loaded.value, clock, deadline)
  {
  }

  /**
   * Once the parameters are loaded, the handler's first call sets the physical id, before the
   * readiness wait and the start; no later call sets it again, so it is the resource's physical id
   * at the end, whatever happens after.
   */
  lemma SetsIdFirst(foreign: Foreign, world: World, p: Parameters, clock: int, deadline: int, id0: Option<string>)
    requires clock <= deadline
    ensures var r := RunWithParameters(foreign, world, p, clock, deadline);
      var id := GenerateResourceId(foreign, p.projectName, p.jsonPaths);
      && r.calls != [] && r.calls[0] == SetPhysicalResourceId(id)
      && (forall k :: 0 < k < |r.calls| ==> !r.calls[k].SetPhysicalResourceId?)
      && PhysicalIdAfter(id0, r.calls) == Some(id)
  {
    var r := RunWithParameters(foreign, world, p, clock, deadline);
    var id := GenerateResourceId(foreign, p.projectName, p.jsonPaths);
    var build := BuildRun(world, p, clock, deadline);
    RunWithParametersShape(foreign, world, p, clock, deadline);
    BuildRunLeavesResource(world, p, clock, deadline);
    var adds: seq<Call> := [];
    if build.result.Success? {
      adds := RespondFrom(foreign, build.result.value, p.jsonPaths, 0, build.clock).calls;
      RespondFromOnlyResponseValues(foreign, build.result.value, p.jsonPaths, 0, build.clock);
    }
    assert r.calls == [SetPhysicalResourceId(id)] + build.calls + adds;
    SetThenRespond(id0, map[], id, build.calls, adds);
  }

  /** Invalid parameters end the handler before any call; valid ones make it set the id first. */
  lemma CreateOrUpdateSetsIdFirst(foreign: Foreign, world: World, props: Properties, clock: int, deadline: int, id0: Option<string>)
    requires clock <= deadline
    ensures var r := CreateOrUpdateRun(foreign, world, props, clock, deadline);
      var loaded := LoadParameters(props);
      && (loaded.Failure? ==> r == Run(Failure(loaded.error), [], clock))
      && (loaded.Success? ==>
            var id := GenerateResourceId(foreign, loaded.value.projectName, loaded.value.jsonPaths);
            && r.calls != [] && r.calls[0] == SetPhysicalResourceId(id)
            && (forall k :: 0 < k < |r.calls| ==> !r.calls[k].SetPhysicalResourceId?)
            && PhysicalIdAfter(id0, r.calls) == Some(id))
  {
    CreateOrUpdateShape(foreign, world, props, clock, deadline);
    var loaded := LoadParameters(props);
    if loaded.Success? {
      SetsIdFirst(foreign, world, loaded.value, clock, deadline, id0);
    }
  }

  /**
   * Once the parameters are loaded, the handler starts one build if the project is found and its
   * readiness wait is over, and none otherwise.
   */
  lemma StartsOnce(foreign: Foreign, world: World, p: Parameters, clock: int, deadline: int)
    requires clock <= deadline
    ensures var r := RunWithParameters(foreign, world, p, clock, deadline);
      CountStarts(r.calls)
      == if ReadinessRun(world, p.projectName, p.initialDelaySeconds, clock, deadline).result.Success? then 1 else 0
  {
    var r := RunWithParameters(foreign, world, p, clock, deadline);
    var setId := [SetPhysicalResourceId(GenerateResourceId(foreign, p.projectName, p.jsonPaths))];
    var build := BuildRun(world, p, clock, deadline);
    var ready := ReadinessRun(world, p.projectName, p.initialDelaySeconds, clock, deadline);
    RunWithParametersShape(foreign, world, p, clock, deadline);
    assert NoStarts(setId + ready.calls);
    if ready.result.Failure? {
      assert r.calls == setId + ready.calls;
      NoStartsCount(setId + ready.calls);
    } else {
      var start := StartRun(world, p.projectName, ready.clock);
      var poll: seq<Call> := [];
      if start.result.Success? {
        poll := PollFrom(world, start.result.value, start.clock, deadline).calls;
        PollFromNoStarts(world, start.result.value, start.clock, deadline);
      }
      assert build.calls == ready.calls + start.calls + poll;
      var adds: seq<Call> := [];
      if build.result.Success? {
        adds := RespondFrom(foreign, build.result.value, p.jsonPaths, 0, build.clock).calls;
        RespondFromOnlyResponseValues(foreign, build.result.value, p.jsonPaths, 0, build.clock);
      }
      assert NoStarts(poll + adds);
      assert r.calls == (setId + ready.calls) + start.calls + (poll + adds);
      CountOneStart(setId + ready.calls, start.calls[0], poll + adds);
    }
  }

  /**
   * The handler starts one build once the parameters are valid, the project is found and its
   * readiness wait is over, and none otherwise; a run that succeeds started exactly one.
   */
  lemma CreateOrUpdateStartsOnce(foreign: Foreign, world: World, props: Properties, clock: int, deadline: int)
    requires clock <= deadline
    ensures var r := CreateOrUpdateRun(foreign, world, props, clock, deadline);
      var loaded := LoadParameters(props);
      && CountStarts(r.calls)
         == (if loaded.Success? && ReadinessRun(world, loaded.value.projectName, loaded.value.initialDelaySeconds, clock, deadline).result.Success?
             then 1 else 0)
      && (r.result.Success? ==> CountStarts(r.calls) == 1)
  {
    CreateOrUpdateShape(foreign, world, props, clock, deadline);
    var loaded := LoadParameters(props);
    if loaded.Success? {
      var p := loaded.value;
      StartsOnce(foreign, world, p, clock, deadline);
      RunWithParametersShape(foreign, world, p, clock, deadline);
    }
  }

  /**
   * Once the parameters are loaded, a run that succeeds ends with one response value per path, in
   * path order: `results[j]` holds the value path j yields on the SUCCEEDED build, whatever the
   * response data held before.
   */
  lemma Results(foreign: Foreign, world: World, p: Parameters, clock: int, deadline: int, data0: map<string, Value>)
    requires clock <= deadline
    ensures var r := RunWithParameters(foreign, world, p, clock, deadline);
      r.result.Success? ==>
        && r.result.value.buildStatus == Some(Succeeded)
        && |p.jsonPaths| <= |r.calls|
        && forall j :: 0 <= j < |p.jsonPaths| ==>
             && ExtractJsonPathProperty(foreign, r.result.value, p.jsonPaths[j]).Success?
             && r.calls[|r.calls| - |p.jsonPaths| + j] == AddResponseValue(ResultKey(j), PathValue(foreign, r.result.value, p.jsonPaths[j]))
             && ResultKey(j) in ResponsesAfter(data0, r.calls)
             && ResponsesAfter(data0, r.calls)[ResultKey(j)] == PathValue(foreign, r.result.value, p.jsonPaths[j])
  {
    var r := RunWithParameters(foreign, world, p, clock, deadline);
    var build := BuildRun(world, p, clock, deadline);
    RunWithParametersShape(foreign, world, p, clock, deadline);
    if r.result.Success? {
      var id := GenerateResourceId(foreign, p.projectName, p.jsonPaths);
      BuildRunSucceeded(world, p, clock, deadline);
      var b := build.result.value;
      var respond := RespondFrom(foreign, b, p.jsonPaths, 0, build.clock);
      RespondFromOutcome(foreign, b, p.jsonPaths, 0, build.clock);
      BuildRunLeavesResource(world, p, clock, deadline);
      RespondFromOnlyResponseValues(foreign, b, p.jsonPaths, 0, build.clock);
      SetThenRespond(None, data0, id, build.calls, respond.calls);
      RespondFromResults(foreign, b, p.jsonPaths, build.clock, data0);
      forall j | 0 <= j < |p.jsonPaths|
        ensures ExtractJsonPathProperty(foreign, b, p.jsonPaths[j]).Success?
        ensures r.calls[|r.calls| - |p.jsonPaths| + j] == AddResponseValue(ResultKey(j), PathValue(foreign, b, p.jsonPaths[j]))
      {
        RespondFromCallAt(foreign, b, p.jsonPaths, 0, build.clock, j);
        assert r.calls[|r.calls| - |p.jsonPaths| + j] == respond.calls[j];
      }
    }
  }

  /**
   * Once the parameters are loaded, the Timeout error comes only from the poll loop: right after an
   * IN_PROGRESS poll, and a reading of no more than 1000 ms left.
   */
  lemma TimeoutAfterInProgress(foreign: Foreign, world: World, p: Parameters, clock: int, deadline: int)
    requires clock <= deadline
    ensures var r := RunWithParameters(foreign, world, p, clock, deadline);
      var n := |r.calls|;
      r.result == Failure(LambdaTimeout) ==>
        && n >= 2 && InProgressPoll(r.calls[n - 2])
        && r.calls[n - 1] == RemainingTime(deadline - r.clock) && deadline - r.clock <= TimeoutRemainingMs
  {
    var r := RunWithParameters(foreign, world, p, clock, deadline);
    var build := BuildRun(world, p, clock, deadline);
    RunWithParametersShape(foreign, world, p, clock, deadline);
    if r.result == Failure(LambdaTimeout) {
      if build.result.Success? {
        RespondFromOutcome(foreign, build.result.value, p.jsonPaths, 0, build.clock);
      }
      assert build.result == Failure(LambdaTimeout);
      var ready := ReadinessRun(world, p.projectName, p.initialDelaySeconds, clock, deadline);
      var start := StartRun(world, p.projectName, ready.clock);
      var poll := PollFrom(world, start.result.value, start.clock, deadline);
      PollFromOutcome(world, start.result.value, start.clock, deadline);
      var prefix := [SetPhysicalResourceId(GenerateResourceId(foreign, p.projectName, p.jsonPaths))] + (ready.calls + start.calls);
      assert r.calls == prefix + poll.calls;
      assert r.calls[|r.calls| - 1] == poll.calls[|poll.calls| - 1];
      assert r.calls[|r.calls| - 2] == poll.calls[|poll.calls| - 2];
    }
  }
}

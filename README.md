# CodeBuild custom resource, in Dafny

This project models the core of a CDK sample that runs an AWS CodeBuild project as a CloudFormation
custom resource and answers with values read from the finished build. There are four parts:

- **The provider handler** (`lib/codebuild-resource-provider.handler.ts`), modules `Handler` and
  `HandlerProperties`. It does the following:
  - loads and validates the resource properties;
  - derives the physical id from a hash;
  - waits until the project is old enough;
  - starts one build and polls it in a do-while loop bounded by the Lambda's remaining time;
  - adds one response value `results[i]` per jsonpath.
- **The older handler** (`lib/codebuild-resource-provider.stack.handler.ts`), modules `StackHandler`
  and `StackHandlerProperties`. It has one jsonpath, uses the project name as physical id, polls
  every 15 s and has the loop guard `remaining < 1000`.
- **The asset-download construct** (`lib/codebuild-assets-download.resource.ts`), modules
  `AssetsDownload` and `AssetsDownloadProperties`. It mangles asset names into variable names. It
  builds the downloader's environment, exported variables, result paths and commands in lockstep.
  It then reads the S3 locations back from the resource's results.
- **The provider registry** (`lib/codebuild-resource-provider.resource.ts`), module
  `ResourceProvider`. `getOrCreate` is a get-or-insert of the provider Lambda among the children
  of the scope's stack, keyed by a uid derived from the scope.

The outside world is module `Runtime`:

- **`Invocation`** is a class holding the CodeBuild replies (`World`), the Lambda clock and
  deadline, and a trace of every call made.
- **`Invocation.Sleep`** is `promisify(setTimeout)`: a delay outside 1 .. 2^31 - 1 ms waits 1 ms,
  as a Node timer does (`TimerDelay`).
- **`CustomResource`** is a class holding the physical id and response data that the handlers
  update in place.
- Each imperative step is a method proved against a function. The function returns the step's
  outcome, the calls it makes and the clock when it ends (`Run`). The lemmas are stated about
  those functions.

sha256, `JSON.stringify` and `jp.query` are uninterpreted function values (`Foreign`). Where a
lemma needs them to be injective, that need is an explicit precondition.

`parseInt` is modelled per ECMAScript on strings, in module `Numbers`. It trims leading white
space, reads a sign and an optional `0x` prefix, and then takes the leading digits.

Where the code and its design description disagree, the model follows the code:

- there is no force-rebuild token in the physical id;
- an empty `resultJsonPaths` array is accepted, and the run then adds no response value;
- the first poll happens without a time check (do-while), so the remaining time is read only after an IN_PROGRESS poll.

## Model

| member | source | states |
|---|---|---|
| Handler.LoadParameters | lib/codebuild-resource-provider.handler.ts:46-62 | a falsy project name is MissingProjectName; success exactly when the name is non-empty and parseInt of the delay text (default "60") is a number ≥ 0; the paths default to `['$.artifacts.location']` only when absent; the parameters are the name, the paths and the parsed delay |
| HandlerProperties.LoadParametersDefaults | lib/codebuild-resource-provider.handler.ts:50-53 | with only a name given, the paths are `['$.artifacts.location']` and the delay is 60 s |
| HandlerProperties.DelayReadsLeadingDigits | lib/codebuild-resource-provider.handler.ts:52-54 | a delay text of digits followed by a non-digit tail ("30s") is accepted as the value of its digits |
| HandlerProperties.NegativeDelay | lib/codebuild-resource-provider.handler.ts:53-54 | a negative delay is InvalidInitialDelay, except one whose digits are all zero ("-0"), which is accepted as 0 |
| Numbers.ParseLeadingDigits | lib/codebuild-resource-provider.handler.ts:53 | parseInt of decimal digits followed by a non-digit is the value of the digits |
| Numbers.ParseNegatedLeadingDigits | lib/codebuild-resource-provider.handler.ts:53 | parseInt of "-" followed by digits is the negated value of the digits |
| Numbers.ParseSingleChar | lib/codebuild-assets-download.resource.ts:89 | parseInt of one character is its digit value for '0'..'9', NaN otherwise |
| Numbers.ParseNatToString | lib/codebuild-resource-provider.handler.ts:154-156 | the decimal text of an array index parses back to that index |
| Numbers.NatToStringInjective | lib/codebuild-resource-provider.handler.ts:154-156 | different indices have different decimal texts |
| Handler.GenerateResourceId | lib/codebuild-resource-provider.handler.ts:69-73 | the id starts with the project name and a colon |
| HandlerProperties.PathsJsonInjective | lib/codebuild-resource-provider.handler.ts:70 | the JSON arrays of two path lists are equal only when the lists are |
| HandlerProperties.IdDeterminesConfiguration | lib/codebuild-resource-provider.handler.ts:64-73 | if sha256 gives 64 hex digits and neither sha256 nor JSON.stringify collide on the two inputs, equal ids mean equal project names and equal path lists |
| Handler.ReadinessDelay | lib/codebuild-resource-provider.handler.ts:34-43 | the wait ends no earlier than creation time plus the delay, and exactly then when it is positive; a missing creation time gives the full delay |
| HandlerProperties.ReadinessOutcome | lib/codebuild-resource-provider.handler.ts:26-44 | one BatchGetProjects; a missing project is ProjectNotFound with no other call; otherwise no sleep once the delay has passed, else one sleep asking for the rest of the delay, which ends exactly at creation plus delay when that is at most 2^31 - 1 ms away and after 1 ms when it is further (or the invocation is killed at its deadline) |
| Handler.WaitForProjectToBeReady | lib/codebuild-resource-provider.handler.ts:26-44 | result, calls and clock are those of ReadinessRun |
| Runtime.TimerDelay | lib/codebuild-resource-provider.handler.ts:8 | a promisified Node timer waits the delay asked for when it is between 1 and 2^31 - 1 ms, and 1 ms otherwise |
| Handler.SleepRun | lib/codebuild-resource-provider.handler.ts:8 | a sleep is one recorded call; it succeeds exactly when the timer's actual delay ends by the deadline, and then the clock is that end; otherwise the invocation is killed at the deadline |
| Handler.StartRun | lib/codebuild-resource-provider.handler.ts:75-84 | exactly one StartBuild call; the EmptyBuildId error exactly when the reply has no id or an empty one; otherwise the id returned |
| Handler.StartCodebuildProject | lib/codebuild-resource-provider.handler.ts:75-84 | one StartBuild; an absent or empty build id is EmptyBuildId, otherwise the id is returned |
| Handler.GetBuildStatus | lib/codebuild-resource-provider.handler.ts:86-97 | one BatchGetBuilds at the current clock; a reply without a build is BuildNotReturned, not a retry |
| Handler.CanContinueExecution | lib/codebuild-resource-provider.handler.ts:134-136 | true exactly when more than the margin is left; the reading is recorded |
| Handler.PollRound | lib/codebuild-resource-provider.handler.ts:113-128 | a round that does not fail ends 5000 ms later, within the deadline |
| Handler.PollStep | lib/codebuild-resource-provider.handler.ts:113-129 | "poll again" only 5000 ms later and within the deadline; no step ends past the deadline |
| Handler.PollOnce | lib/codebuild-resource-provider.handler.ts:113-128 | result, calls and clock are those of PollRound |
| Handler.PollIteration | lib/codebuild-resource-provider.handler.ts:113-129 | result, calls and clock are those of PollStep |
| Handler.WaitCodebuildExecutionCompletion | lib/codebuild-resource-provider.handler.ts:111-132 | result, calls and clock are those of PollFrom |
| HandlerProperties.PollStepShape | lib/codebuild-resource-provider.handler.ts:113-129 | an iteration is a sleep that kills the invocation, or a sleep, one poll of the build at the new clock and possibly one remaining-time reading |
| HandlerProperties.PollFromSleepsBeforePolls | lib/codebuild-resource-provider.handler.ts:113-116 | the loop begins with a 5000 ms sleep, and every poll is of the started build and comes right after a 5000 ms sleep |
| HandlerProperties.PollFromOutcome | lib/codebuild-resource-provider.handler.ts:113-131 | success returns a SUCCEEDED build from the last poll; BuildDidNotSucceed names the last status and logs link, which is neither IN_PROGRESS nor SUCCEEDED; BuildNotReturned follows an empty poll; LambdaTimeout follows an IN_PROGRESS poll and a reading of at most 1000 ms; Killed follows a sleep at the deadline |
| HandlerProperties.IntendedPollNeverKilled | lib/codebuild-resource-provider.handler.ts:111-131 | with the guard corrected to keep room for the next sleep, a loop that has time for its first sleep is never killed, and a build stuck IN_PROGRESS ends in Timeout |
| HandlerProperties.PollFromStopsAtFinalStatus | lib/codebuild-resource-provider.handler.ts:113-129 | the loop goes on only after an IN_PROGRESS poll: every poll but a final one saw IN_PROGRESS and is followed by a remaining-time reading, so a missing build, SUCCEEDED or any other status ends the loop at that poll |
| HandlerProperties.PollFromGuards | lib/codebuild-resource-provider.handler.ts:117-129 | every remaining-time reading follows an IN_PROGRESS poll, and every reading but the last was above 1000 ms |
| HandlerProperties.PollFromElapsed | lib/codebuild-resource-provider.handler.ts:113-116 | the clock advances by at least 5000 ms per poll, and by exactly that unless the invocation was killed |
| HandlerProperties.PollFromWhileInProgress | lib/codebuild-resource-provider.handler.ts:111-131 | for a build that stays IN_PROGRESS: one poll per 5000 ms of time left; Timeout when the time left is within 1000 ms of a multiple of 5000 ms, else the invocation is killed in its last sleep |
| HandlerProperties.PollFromNoStarts | lib/codebuild-resource-provider.handler.ts:111-132 | the poll loop starts no build |
| Handler.PollFromLeavesResource | lib/codebuild-resource-provider.handler.ts:111-132 | the poll loop neither sets the physical id nor adds response values |
| Handler.BuildRunLeavesResource | lib/codebuild-resource-provider.handler.ts:148-152 | readiness wait, start and poll leave the resource alone |
| Handler.RunBuild | lib/codebuild-resource-provider.handler.ts:148-152 | result, calls and clock are those of BuildRun |
| HandlerProperties.BuildRunSucceeded | lib/codebuild-resource-provider.handler.ts:148-152 | a build run that succeeds returns a SUCCEEDED build |
| Handler.ExtractJsonPathProperty | lib/codebuild-resource-provider.handler.ts:99-109 | fails exactly when the first match is falsy (none, null, false, 0, ""), with MissingResult naming the path; a string match is returned unchanged, any other as its JSON text |
| Json.First | lib/codebuild-resource-provider.handler.ts:100 | the first element of the matches, present exactly when there is one |
| HandlerProperties.ResultKeyInjective | lib/codebuild-resource-provider.handler.ts:156 | `results[i]` and `results[j]` are different keys for different i and j |
| Handler.RespondFromOnlyResponseValues | lib/codebuild-resource-provider.handler.ts:154-157 | the result loop only adds response values |
| HandlerProperties.RespondFromCallAt | lib/codebuild-resource-provider.handler.ts:154-157 | the k-th call of the loop from path i on adds `results[i+k]` holding the value of path i+k, which yielded one |
| HandlerProperties.RespondFromOutcome | lib/codebuild-resource-provider.handler.ts:154-157 | one call per path until the first path yielding nothing, which stops the loop with the error naming it; success exactly when every path yields a value |
| HandlerProperties.ResponsesAfterLookup | lib/codebuild-resource-provider.handler.ts:156 | a key that no later call sets again keeps the value its call added |
| HandlerProperties.RespondFromResults | lib/codebuild-resource-provider.handler.ts:154-157 | after a successful loop `results[j]` holds the value of path j for every j, whatever the data held before |
| Handler.AddResults | lib/codebuild-resource-provider.handler.ts:154-157 | result, calls and new response data are those of RespondFrom; the physical id is unchanged |
| HandlerProperties.RunWithParametersShape | lib/codebuild-resource-provider.handler.ts:145-157 | a run is the physical-id call, then the build run, then the result loop if the build succeeded |
| HandlerProperties.CreateOrUpdateShape | lib/codebuild-resource-provider.handler.ts:138-143 | invalid properties end the handler with their error and no call; valid ones run RunWithParameters |
| HandlerProperties.SetsIdFirst | lib/codebuild-resource-provider.handler.ts:145-148 | the first call sets the generated physical id, no later call sets it again, and it is the id at the end |
| HandlerProperties.CreateOrUpdateSetsIdFirst | lib/codebuild-resource-provider.handler.ts:138-148 | invalid properties make no call at all; valid ones set the generated id first and keep it |
| HandlerProperties.StartsOnce | lib/codebuild-resource-provider.handler.ts:145-152 | exactly one StartBuild when the readiness wait succeeds, none otherwise |
| HandlerProperties.CreateOrUpdateStartsOnce | lib/codebuild-resource-provider.handler.ts:138-152 | one start exactly when the parameters are valid and the readiness wait succeeds; a successful run started exactly one build |
| HandlerProperties.Results | lib/codebuild-resource-provider.handler.ts:150-157 | on success the build is SUCCEEDED, the last calls add `results[j]` in path order, and `results[j]` holds path j's value whatever the data held before |
| HandlerProperties.TimeoutAfterInProgress | lib/codebuild-resource-provider.handler.ts:111-152 | the Timeout error of a handler run comes right after an IN_PROGRESS poll and a reading of at most 1000 ms |
| Handler.CreateOrUpdateWith | lib/codebuild-resource-provider.handler.ts:145-157 | calls, clock, result, physical id and response data are those of RunWithParameters |
| Handler.CreateOrUpdateResource | lib/codebuild-resource-provider.handler.ts:138-158 | calls, clock, result, physical id and response data are those of CreateOrUpdateRun |
| Handler.DeleteResource | lib/codebuild-resource-provider.handler.ts:160-162 | succeeds, with no call |
| Runtime.CountsAppend | lib/codebuild-resource-provider.handler.ts:138-158 | poll and start counts add up over concatenated calls |
| Runtime.CountOneStart | lib/codebuild-resource-provider.handler.ts:150 | a single StartBuild between start-free calls counts as one start |
| Runtime.ResponsesAfterAppend | lib/codebuild-resource-provider.handler.ts:156 | response data after concatenated calls is the second batch applied to the first's result |
| Runtime.PhysicalIdAfterAppend | lib/codebuild-resource-provider.handler.ts:146 | the physical id after concatenated calls is the second batch applied to the first's result |
| Runtime.NoResourceCallsKeep | lib/codebuild-resource-provider.handler.ts:148-152 | calls that do not touch the resource leave id and data as they were |
| Runtime.SetThenRespond | lib/codebuild-resource-provider.handler.ts:145-157 | setting the id, then calls not touching the resource, then response values, leaves that id and only the added values changed |
| Runtime.Invocation.Sleep | lib/codebuild-resource-provider.handler.ts:8 | the clock advances by the timer's actual delay (1 ms for a delay beyond 2^31 - 1 ms); a sleep that would end past the deadline ends the invocation at the deadline; the delay asked for is recorded |
| Runtime.Invocation.GetRemainingTimeInMillis | lib/codebuild-resource-provider.handler.ts:135 | the reading is the deadline minus the clock, and it is recorded |
| Runtime.CustomResource.SetPhysicalResourceId | lib/codebuild-resource-provider.handler.ts:146 | sets the id, leaves the data, records the call |
| Runtime.CustomResource.AddResponseValue | lib/codebuild-resource-provider.handler.ts:156 | adds the key with the value, leaves the id, records the call |
| StackHandler.LegacyRound | lib/codebuild-resource-provider.stack.handler.ts:41-64 | a round that does not fail ends 15 s later within the deadline |
| StackHandler.LegacyStep | lib/codebuild-resource-provider.stack.handler.ts:41-65 | "go round again" only 15 s later and with less than 1000 ms left |
| StackHandler.LegacyIteration | lib/codebuild-resource-provider.stack.handler.ts:41-65 | result, calls and clock are those of LegacyStep; only a success with a value adds it under `result` |
| StackHandler.LegacyWait | lib/codebuild-resource-provider.stack.handler.ts:41-67 | result, calls and clock are those of LegacyPollFrom; a success adds its value under `result`, nothing else changes |
| StackHandler.LegacyCreateOrUpdateResource | lib/codebuild-resource-provider.stack.handler.ts:24-68 | result, calls and clock are those of LegacyRun; a non-empty name becomes the physical id; a success adds its value under `result` |
| StackHandler.LegacyDeleteResource | lib/codebuild-resource-provider.stack.handler.ts:70-72 | succeeds, with no call |
| StackHandlerProperties.LegacyStepShape | lib/codebuild-resource-provider.stack.handler.ts:41-65 | an iteration is a killing sleep, or a sleep, one poll and possibly a `result` value or a reading |
| StackHandlerProperties.LegacyLoopPollsOnce | lib/codebuild-resource-provider.stack.handler.ts:41-65 | the loop polls at most once: after a `continue` the guard lets it round again only with under 1000 ms left, and the next 15 s sleep kills it; it starts nothing |
| StackHandlerProperties.LegacyLoopOutcome | lib/codebuild-resource-provider.stack.handler.ts:48-64 | success exactly for a SUCCEEDED build with a truthy first match, added last under `result` unserialised; another status than IN_PROGRESS and SUCCEEDED names it; a falsy match names the path; a missing build is skipped; failures leave the resource alone |
| StackHandlerProperties.LegacyTimeoutWithTimeLeft | lib/codebuild-resource-provider.stack.handler.ts:48-67 | LambdaTimeout exactly when the first poll finds no build or IN_PROGRESS and at least 1000 ms are left |
| StackHandlerProperties.LegacyGivesUpEarly | lib/codebuild-resource-provider.stack.handler.ts:41-67 | with 900 s left and IN_PROGRESS at the first poll, the handler fails with Timeout after 15 s, 885 s before its deadline |
| StackHandlerProperties.LegacyLoopSplit | lib/codebuild-resource-provider.stack.handler.ts:41-65 | the loop's calls leave the resource alone except for the `result` value a success adds last |
| StackHandlerProperties.LegacyRunResource | lib/codebuild-resource-provider.stack.handler.ts:24-64 | a falsy name is rejected before any call; otherwise the first call sets the project name as physical id, which stays, and `result` is the only response value, added on success |
| StackHandlerProperties.LegacyRunStart | lib/codebuild-resource-provider.stack.handler.ts:24-38 | with a name, the first two calls set it as physical id and start a build; an absent or empty build id ends the run there with EmptyBuildId |
| StackHandlerProperties.LegacyDefaultPath | lib/codebuild-resource-provider.stack.handler.ts:28 | without `resultJsonPath` the legacy handler behaves as with `$.artifacts.location` |
| StackHandlerProperties.LegacyRunCounts | lib/codebuild-resource-provider.stack.handler.ts:34-65 | with a name: exactly one start and at most one poll |
| AssetsDownload.MangleName | lib/codebuild-assets-download.resource.ts:43 | same length as the name; each '-' becomes '_', each lower-case ASCII letter its upper case; no '-' or lower-case letter is left |
| AssetsDownload.ToUpperCase | lib/codebuild-assets-download.resource.ts:43 | each character upper-cased, length kept |
| AssetsDownload.ReplaceAll | lib/codebuild-assets-download.resource.ts:43 | each occurrence of the character replaced, length kept |
| AssetsDownloadProperties.MangleNameIdempotent | lib/codebuild-assets-download.resource.ts:43 | mangling a mangled name changes nothing |
| AssetsDownloadProperties.MangledNamesCollide | lib/codebuild-assets-download.resource.ts:43-46 | "web-app" and "WEB_APP" get the same URL and location variables |
| AssetsDownloadProperties.BucketIsNoUrlVariable | lib/codebuild-assets-download.resource.ts:26-46 | no URL variable is `S3_BUCKET` |
| AssetsDownload.ConfigureDownloader | lib/codebuild-assets-download.resource.ts:26-59 | the environment, exported variables, result paths and commands are DownloaderAfter of the assets |
| AssetsDownloadProperties.DownloaderShape | lib/codebuild-assets-download.resource.ts:35-58 | one exported variable and one result path per asset, in order, path i filtering on variable i; commands are the mkdir then export, wget and cp per asset: 1 + 3n |
| AssetsDownloadProperties.DownloaderEnvironment | lib/codebuild-assets-download.resource.ts:26-51 | the environment's keys are exactly `S3_BUCKET` and the assets' URL variables, and `S3_BUCKET` holds the bucket URL |
| AssetsDownloadProperties.DownloaderUrl | lib/codebuild-assets-download.resource.ts:48-51 | an asset's URL variable holds its URL unless a later asset mangles to the same variable |
| AssetsDownload.ReadLocations | lib/codebuild-assets-download.resource.ts:88-90 | the map is S3UrlsAfter of the keys, the key string destructured as `[index, assetName]` |
| AssetsDownload.CodebuildAssetsDownload.constructor | lib/codebuild-assets-download.resource.ts:23-91 | the downloader configuration is DownloaderAfter of the assets and `assetsS3Url` is S3UrlsAfter of their names |
| AssetsDownloadProperties.S3UrlKeys | lib/codebuild-assets-download.resource.ts:88-89 | every key written is one character long, or "undefined" |
| AssetsDownloadProperties.S3UrlsMissLongNames | lib/codebuild-assets-download.resource.ts:88-89 | no asset name of two or more characters (but "undefined") is ever a key |
| AssetsDownloadProperties.EntryForDigits | lib/codebuild-assets-download.resource.ts:88-89 | the key's second character gets the result at the key's first character when that is a digit in range, undefined otherwise |
| AssetsDownloadProperties.ReadBackCounterexample | lib/codebuild-assets-download.resource.ts:88-89 | one asset "web-app" yields exactly `{ e: undefined }` |
| AssetsDownloadProperties.IntendedS3UrlsKeys | lib/codebuild-assets-download.resource.ts:88-89 | the intended map's keys are exactly the asset names |
| AssetsDownloadProperties.IntendedS3UrlsLookup | lib/codebuild-assets-download.resource.ts:88-89 | with distinct names, the intended map gives name i the result at position i |
| AssetsDownloadProperties.IntendedReadsOwnPath | lib/codebuild-assets-download.resource.ts:53-89 | intended: each asset gets the result read through its own location variable's path |
| ResourceProvider.Uid | lib/codebuild-resource-provider.resource.ts:38 | the uid is the scope's unique id followed by `-codebuild-resource-provider` |
| ResourceProvider.UidInjective | lib/codebuild-resource-provider.resource.ts:38 | two scopes share a uid exactly when their unique ids are equal |
| ResourceProvider.Provider.constructor | lib/codebuild-resource-provider.resource.ts:12-16 | the function name is the props' name; the timeout is the props' timeout or 6 minutes |
| ResourceProvider.GetOrCreate | lib/codebuild-resource-provider.resource.ts:37-47 | an existing child under the uid is returned, stack unchanged, props ignored; otherwise one fresh provider with that uid and the props' settings is inserted under it and returned |
| ResourceProvider.GetOrCreateServiceToken | lib/codebuild-resource-provider.resource.ts:50-52 | the ARN of the scope's provider, which is registered afterwards |
| ResourceProvider.SecondRequest | lib/codebuild-resource-provider.resource.ts:37-47 | a second request for the same scope returns the same provider whatever its props; another scope gets another provider |

## Left out

- I/O: the CodeBuild client, `sleep`, `new Date()` and the Lambda context are the `World` oracle and the `Invocation` clock. CodeBuild calls take no model time; only sleeps move the clock.
- sha256, `JSON.stringify` and `jp.query` are uninterpreted functions. No property of them is assumed except as the preconditions of `HandlerProperties.IdDeterminesConfiguration`.
- Logging, the `handler` entry points that register the callbacks, and the custom-resource framework's response to CloudFormation.
- The Lambda's role, runtime, bundling and IAM policy in `lib/codebuild-resource-provider.resource.ts`, and the CodeBuild project, buildspec and bucket grant in `lib/codebuild-assets-download.resource.ts`. They are declarative CDK wiring.
- `Number.parseInt` is modelled on its integer results. Digit strings too long for a double are not rounded, and one too long for any double (which parses to Infinity) is a very large integer. The readiness wait then asks for a delay beyond 2^31 - 1 ms, and `Runtime.TimerDelay` turns that into 1 ms, just as Node does for Infinity.
- CodeBuild requests the service rejects are not modelled. Every `World` reply is a value, so a throttled or denied `client.send`, or a StartBuild for an unknown project, cannot occur. In the source such a rejection ends the handler with the SDK's error and no retry (`lib/codebuild-resource-provider.handler.ts:28-30`, `:78-80`, `:89-91`; `lib/codebuild-resource-provider.stack.handler.ts:34-36`, `:44-46`). Only the reply without a build id (EmptyBuildId) is modelled.
- JSON numbers are integers. The floating-point numbers and `Date` values that a jsonpath can pick out of a build are not modelled; they reach `JSON.stringify` only as values of `Json.Value`.
- `toUpperCase` is modelled on ASCII letters only. Unicode case mapping is not modelled.
- `Object.entries` and `Object.keys` are taken in the order of the `assets` sequence. Integer-like keys, which JavaScript lists first, are not reordered.
- `resource.results` of the asset-download construct is a parameter. `lib/codebuild.resource.ts` is not part of this model. The version of it in the repository only has a `result` attribute and a `resultJsonPath` property. So the `resultJsonPaths` property and the `results` array used at `lib/codebuild-assets-download.resource.ts:85-89` come from a `CodebuildResource` that is not in the repository; the model takes them as the construct uses them.
- `Names.nodeUniqueId` and `Stack.of` are left out: a scope is its unique-id string and its stack. A new provider's `functionArn` is a given token.
- The provider's `role` property is left out. `Duration` is a number of seconds.
- HandlerProperties.Results: stated for a run whose parameters are already loaded (`RunWithParameters`). `HandlerProperties.CreateOrUpdateShape` connects that to the whole handler.
- HandlerProperties.TimeoutAfterInProgress: stated for a run whose parameters are already loaded, like `Results`.

## Findings

| source | as written | input that shows it | evidently intended | confidence | as-written member | corrected member |
|---|---|---|---|---|---|---|
| lib/codebuild-resource-provider.stack.handler.ts:65 | the loop goes round again only while `remaining < 1000` | 900 s left and the build IN_PROGRESS at the first poll: Timeout after 15 s, 885 s early | continue while more than 1000 ms are left, as `lib/codebuild-resource-provider.handler.ts`, the newer handler that replaces this one, does; the corrected member is that handler's loop | high, not executed | StackHandlerProperties.LegacyGivesUpEarly | HandlerProperties.PollFromGuards |
| lib/codebuild-resource-provider.handler.ts:111-131 | the loop goes round again while more than 1000 ms are left, though the next pass first sleeps 5000 ms | a build stuck IN_PROGRESS and 7000 ms left: after the first poll 2000 ms are left, the guard passes, and the platform ends the invocation in the next sleep, so no Timeout error is ever reported | go round again only while the next sleep and the 1000 ms margin both fit in the time left | medium, not executed | HandlerProperties.PollFromWhileInProgress | HandlerProperties.IntendedPollNeverKilled |
| lib/codebuild-assets-download.resource.ts:88-89 | `for (const [index, assetName] of Object.keys(...))` destructures each key string into its first two characters | one asset named "web-app": `assetsS3Url` is `{ e: undefined }` | iterate `Object.keys(...).entries()`, so that asset i gets `results[i]` under its own name | high, not executed | AssetsDownloadProperties.ReadBackCounterexample | AssetsDownloadProperties.IntendedS3UrlsLookup |

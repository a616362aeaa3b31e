# Federated-learning job and worker configuration, modelled in Dafny

This project models two parts of the `syftlib` Android library, the
client side of a PySyft/PyGrid federated-learning deployment.

**The training job (`SyftJob`).** A job asks PyGrid for a place in a
training cycle. PyGrid then accepts it, handing over plans, protocols, a
model id and a request key, or it rejects it with a retry timeout. An
accepted job downloads its data and trains. Finally it reports a weight
diff, and only if the device's network and battery constraints still
hold. The job tells its subscribers what happens through a status
stream, an RxJava `PublishProcessor`: rejection messages, errors, and
completion. Once disposed, a job refuses to start again.

The model has three layers:
- `SyftJob` is a class whose fields are the source's fields.
- `StatusProcessor` is the processor, with a log of emitted signals and
  the subscriptions taken on it.
- Each operation is also a pure step function on a `JobState` value. The
  class method is proved to move its state exactly as that step function
  says.

The properties are stated on the step functions and proved there:
- the invariant every operation preserves: nothing is emitted after a
  terminal signal, and a job whose stream carries an error (one it
  published itself) is disposed;
- what each operation emits and what it asks of the worker and the
  repository;
- the scenarios that combine several steps.

`JobID.matchWithResponse` is modelled as well, with its wildcard version
rule.

**The configuration (`SyftConfiguration` and its builder).** The builder
starts from fixed defaults. Its setters overwrite one field each, and
`enableMeteredData` removes the NOT_METERED entry from the
network-constraint map. `build` keeps the capabilities whose flag is true,
in map order. The configuration then picks the signalling client: the HTTP
API or the socket client, depending on the messaging-client choice. WebRTC
signalling always uses the socket client.

Files:
- `wrappers.dfy`: `Option` and Kotlin's `isNullOrEmpty`.
- `domain.dfy`: `SyftConfiguration.kt`.
- `execution.dfy`: `SyftJob.kt`.

Collaborators the job calls are not modelled as objects:
- The worker's answers become method parameters: `isNetworkValid`,
  `isBatteryValid` and `getSyftWorkerId`.
- The job's calls to the worker's cycle request and device checks, to the
  repository's download, to the signalling client's report and to a
  subscriber's `onError` are recorded in a ghost log, `calls`. The query for
  the worker id at the start of `report` is not logged; its answer is a
  parameter.
- The repository's download status is a field of the job.

The model keeps these behaviours of the code:
- There is no "disposed" cycle status.
- `start` checks for REJECT before it checks for disposal, so a rejected
  and disposed job ignores `start` silently.
- `cycleAccepted` does not start the download and does not look at the
  disposed flag. `downloadData` is a separate call.
- A report answer that carries a status completes the stream but does not
  dispose the job.
- `throwError` disposes the job without ending the stream.

## Model

| member | source | states |
|---|---|---|
| Domain.SyftConfiguration.GetSignallingClient | syftlib/src/main/java/fl/wearable/autosport/domain/SyftConfiguration.kt:36-39 | the signalling client is the HTTP API exactly when the messaging client is HTTP, and otherwise the configuration's own socket client |
| Domain.SyftConfiguration.GetWebRTCSignallingClient | syftlib/src/main/java/fl/wearable/autosport/domain/SyftConfiguration.kt:41 | WebRTC signalling always uses the socket client; with SOCKET messaging it is the same client the cycle protocol uses |
| Domain.RemoveKey | syftlib/src/main/java/fl/wearable/autosport/domain/SyftConfiguration.kt:113-117 | removing a key keeps exactly the entries with another key, leaves the key absent, changes nothing when the key was absent, and keeps keys distinct |
| Domain.TrueKeys | syftlib/src/main/java/fl/wearable/autosport/domain/SyftConfiguration.kt:75 | `filterValues { it }.keys`: a capability is listed exactly when the map holds it with flag true |
| Domain.TrueKeyIsKey | syftlib/src/main/java/fl/wearable/autosport/domain/SyftConfiguration.kt:75 | every listed capability is a key of the map |
| Domain.TrueKeysDistinct | syftlib/src/main/java/fl/wearable/autosport/domain/SyftConfiguration.kt:75 | a map with distinct keys yields a list without duplicates |
| Domain.DefaultConstraints | syftlib/src/main/java/fl/wearable/autosport/domain/SyftConfiguration.kt:67-71 | the default map satisfies the builder invariant, builds to [INTERNET, NOT_RESTRICTED, NOT_METERED] in that order, and to [INTERNET, NOT_RESTRICTED] once NOT_METERED is removed |
| Domain.BuiltConstraintsBounded | syftlib/src/main/java/fl/wearable/autosport/domain/SyftConfiguration.kt:67-75 | from any map the builder can reach, the built list always holds INTERNET and NOT_RESTRICTED, holds nothing but the three default capabilities, and lists none twice |
| Domain.SyftConfigBuilder.constructor | syftlib/src/main/java/fl/wearable/autosport/domain/SyftConfiguration.kt:43-72 | every default: IO/main-thread and computation/single schedulers, a socket client with timeout period 20000 and the default networking schedulers, the context's files dir, battery check on, one concurrent job, SOCKET messaging, cache timeout 100000, device monitoring on, the three constraints, WIFI transport |
| Domain.SyftConfigBuilder.Build | syftlib/src/main/java/fl/wearable/autosport/domain/SyftConfiguration.kt:74-91 | the constraint list holds exactly the capabilities flagged true, each once, and always INTERNET and NOT_RESTRICTED; every other field is passed through unchanged |
| Domain.SyftConfigBuilder.DisableBatteryCheck | syftlib/src/main/java/fl/wearable/autosport/domain/SyftConfiguration.kt:93-96 | battery check off, nothing else changed, returns the builder itself |
| Domain.SyftConfigBuilder.EnableBatteryCheck | syftlib/src/main/java/fl/wearable/autosport/domain/SyftConfiguration.kt:98-101 | battery check on, nothing else changed, returns the builder itself |
| Domain.SyftConfigBuilder.SetMessagingClient | syftlib/src/main/java/fl/wearable/autosport/domain/SyftConfiguration.kt:103-106 | the messaging client is the given one, nothing else changed |
| Domain.SyftConfigBuilder.EnableCellularData | syftlib/src/main/java/fl/wearable/autosport/domain/SyftConfiguration.kt:108-111 | the transport medium becomes CELLULAR, nothing else changed |
| Domain.SyftConfigBuilder.EnableMeteredData | syftlib/src/main/java/fl/wearable/autosport/domain/SyftConfiguration.kt:113-117 | NOT_METERED is no longer a key, every other entry is kept, and the invariant still holds; calling it again changes nothing |
| Domain.SyftConfigBuilder.SetCacheTimeout | syftlib/src/main/java/fl/wearable/autosport/domain/SyftConfiguration.kt:119-122 | the cache timeout is the given one, nothing else changed |
| Domain.SyftConfigBuilder.SetNetworkingScheduler | syftlib/src/main/java/fl/wearable/autosport/domain/SyftConfiguration.kt:124-127 | the networking schedulers are replaced; the socket client, created earlier, keeps the default schedulers |
| Domain.SyftConfigBuilder.SetComputeScheduler | syftlib/src/main/java/fl/wearable/autosport/domain/SyftConfiguration.kt:129-132 | the compute schedulers are replaced, nothing else changed |
| Domain.SyftConfigBuilder.DisableBackgroundServiceExecution | syftlib/src/main/java/fl/wearable/autosport/domain/SyftConfiguration.kt:139-142 | device monitoring on, nothing else changed |
| Domain.SyftConfigBuilder.EnableBackgroundServiceExecution | syftlib/src/main/java/fl/wearable/autosport/domain/SyftConfiguration.kt:144-147 | device monitoring off, nothing else changed |
| Domain.SyftConfigBuilder.SetFilesDir | syftlib/src/main/java/fl/wearable/autosport/domain/SyftConfiguration.kt:149-152 | the files dir is the given one, nothing else changed |
| Domain.DefaultConfiguration | syftlib/src/main/java/fl/wearable/autosport/domain/SyftConfiguration.kt:43-91 | an untouched builder builds the three constraints in map order, WIFI, battery check and monitoring on, and socket signalling |
| Domain.MeteredCellularConfiguration | syftlib/src/main/java/fl/wearable/autosport/domain/SyftConfiguration.kt:103-117 | metered data (enabled twice), cellular data and HTTP messaging: the list is [INTERNET, NOT_RESTRICTED], the transport CELLULAR, the cycle protocol uses HTTP while WebRTC keeps the socket |
| Execution.JobID.MatchWithResponse | syftlib/src/main/java/fl/wearable/autosport/execution/SyftJob.kt:346-350 | names must agree; a null or empty version on either side is a wildcard; otherwise the versions must agree too, so with both versions present a match means equal ids |
| Execution.MatchSymmetric | syftlib/src/main/java/fl/wearable/autosport/execution/SyftJob.kt:346-350 | every id matches itself, and matching does not depend on which id is the job's and which is the response's |
| Execution.MatchExamples | syftlib/src/main/java/fl/wearable/autosport/execution/SyftJob.kt:346-350 | the wildcard in use: "1" matches none and none matches "2", while "1" does not match "2" (matching is not transitive); an empty version is a wildcard too; differing names never match |
| Execution.Signal | syftlib/src/main/java/fl/wearable/autosport/execution/SyftJob.kt:189 | an offer to the processor adds the signal unless the stream has terminated, when it is dropped; well-formed streams stay well-formed and a terminal signal terminates |
| Execution.TerminalCountOfWellFormed | syftlib/src/main/java/fl/wearable/autosport/execution/SyftJob.kt:323-327 | a well-formed stream holds at most one terminal signal, and exactly one once it has terminated |
| Execution.SubscriptionFor | syftlib/src/main/java/fl/wearable/autosport/execution/SyftJob.kt:140-161 | a subscriber to a live processor receives only later signals; one to a terminated processor receives the terminal signal at once |
| Execution.PlansOfGrows | syftlib/src/main/java/fl/wearable/autosport/execution/SyftJob.kt:172-174 | writing one more plan under its name extends the map by exactly that response entry |
| Execution.ProtocolsOfGrows | syftlib/src/main/java/fl/wearable/autosport/execution/SyftJob.kt:175-177 | writing one more protocol under its name extends the map by exactly that response entry |
| Execution.InitialState | syftlib/src/main/java/fl/wearable/autosport/execution/SyftJob.kt:75-90 | a new job is APPLY, not disposed, with no plans, protocols, key, model id, signals, subscriptions or calls, and satisfies the invariant |
| Execution.SubscribeStep | syftlib/src/main/java/fl/wearable/autosport/execution/SyftJob.kt:140-163 | subscribing adds one subscription and changes nothing else |
| Execution.StartStep | syftlib/src/main/java/fl/wearable/autosport/execution/SyftJob.kt:120-132 | a rejected job ignores start even if disposed; a disposed job tells the subscriber RunningDisposedJob and changes nothing else; otherwise one subscription and exactly one cycle request |
| Execution.CycleAcceptedStep | syftlib/src/main/java/fl/wearable/autosport/execution/SyftJob.kt:170-181 | status ACCEPTED, the response's request key and model id, every response plan and protocol stored under its name, older entries kept unless overwritten, and the stream and disposal untouched |
| Execution.CycleRejectedStep | syftlib/src/main/java/fl/wearable/autosport/execution/SyftJob.kt:187-190 | status REJECT and one JobCycleRejected with the response's timeout offered; no error and no disposal |
| Execution.PublishErrorStep | syftlib/src/main/java/fl/wearable/autosport/execution/SyftJob.kt:300-304 | the error ends a live stream, network subscriptions are dropped, the job is disposed, and nothing else changes |
| Execution.ThrowErrorStep | syftlib/src/main/java/fl/wearable/autosport/execution/SyftJob.kt:309-313 | the job is disposed and its network subscriptions are dropped, with nothing emitted |
| Execution.ConstraintCheck | syftlib/src/main/java/fl/wearable/autosport/execution/SyftJob.kt:274-295 | the worker is asked once; a valid answer returns false and changes nothing else; an invalid one publishes and returns true when publishing, and otherwise throws after disposing |
| Execution.NetworkCheckStep | syftlib/src/main/java/fl/wearable/autosport/execution/SyftJob.kt:270-281 | one network query; a valid network changes nothing else and returns false; an invalid one publishes NetworkConstraintsFailure and returns true when `publish` holds, and otherwise disposes the job and throws it; the job ends up disposed exactly when it already was or the network is invalid |
| Execution.BatteryCheckStep | syftlib/src/main/java/fl/wearable/autosport/execution/SyftJob.kt:284-295 | one battery query; a valid battery changes nothing else and returns false; an invalid one publishes BatteryConstraintsFailure and returns true when `publish` holds, and otherwise disposes the job and throws it; the job ends up disposed exactly when it already was or the battery is invalid |
| Execution.ReportStep | syftlib/src/main/java/fl/wearable/autosport/execution/SyftJob.kt:239-258 | the network is checked first and the battery only if the network passed; a failed check publishes its error and sends nothing; with both checks passing the only changes are the two queries, plus exactly one report (worker id, request key, diff) and one more live report subscription when both ids are non-empty, and nothing more when either is empty |
| Execution.ReportResponseStep | syftlib/src/main/java/fl/wearable/autosport/execution/SyftJob.kt:259-266 | an answer with an error offers NetworkResponseFailure to the stream (dropped if the stream has already terminated), disposes and drops every report subscription, changing nothing else; an answer with only a status completes the stream and uses up its subscription, changing nothing else; with no live report subscription the answer is ignored |
| Execution.DownloadDataStep | syftlib/src/main/java/fl/wearable/autosport/execution/SyftJob.kt:197-218 | before acceptance CycleNotAccepted is published (which disposes) and nothing is downloaded; after acceptance the download starts once, with the response's request key, and a repeat request does nothing |
| Execution.DisposeStep | syftlib/src/main/java/fl/wearable/autosport/execution/SyftJob.kt:323-331 | a live job completes its stream, drops network subscriptions and becomes disposed; a disposed job is left as it is |
| Execution.DisposeIdempotent | syftlib/src/main/java/fl/wearable/autosport/execution/SyftJob.kt:323-331 | disposing twice is the same as disposing once |
| Execution.DisposeAfterPublishError | syftlib/src/test/java/fl/wearable/autosport/integration/DeviceMonitorTest.kt:64-70 | after an error has been published, dispose changes nothing and no Complete follows the error |
| Execution.DisposeTerminatesOnce | syftlib/src/main/java/fl/wearable/autosport/execution/SyftJob.kt:323-331 | disposing a live job leaves exactly one terminal signal, and a second dispose adds none |
| Execution.CycleAcceptedIdempotent | syftlib/src/main/java/fl/wearable/autosport/execution/SyftJob.kt:170-181 | accepting the same response twice is the same as accepting it once; no entry is duplicated |
| Execution.RejectedJobIgnoresStart | syftlib/src/main/java/fl/wearable/autosport/execution/SyftJob.kt:120-124 | once rejected, a job is unchanged by any number of starts, whatever the subscriber |
| Execution.StatusProcessor.constructor | syftlib/src/main/java/fl/wearable/autosport/execution/SyftJob.kt:78 | `PublishProcessor.create()`: a processor with nothing emitted and no subscriber |
| Execution.StatusProcessor.Offer | syftlib/src/main/java/fl/wearable/autosport/execution/SyftJob.kt:189 | the log grows as `Signal` says; subscriptions unchanged |
| Execution.StatusProcessor.OnError | syftlib/src/main/java/fl/wearable/autosport/execution/SyftJob.kt:301 | the error is emitted unless the stream has terminated |
| Execution.StatusProcessor.OnComplete | syftlib/src/main/java/fl/wearable/autosport/execution/SyftJob.kt:325 | Complete is emitted unless the stream has terminated |
| Execution.StatusProcessor.Subscribe | syftlib/src/main/java/fl/wearable/autosport/execution/SyftJob.kt:144-161 | one subscription recorded as `SubscriptionFor` says; the log unchanged |
| Execution.SyftJob.constructor | syftlib/src/main/java/fl/wearable/autosport/execution/SyftJob.kt:75-90 | a fresh job is in the initial state, with a fresh status processor |
| Execution.SyftJob.IsDisposed | syftlib/src/main/java/fl/wearable/autosport/execution/SyftJob.kt:318 | the job's disposed flag; a job that published an error through `publishError` reports itself disposed |
| Execution.SyftJob.Start | syftlib/src/main/java/fl/wearable/autosport/execution/SyftJob.kt:120-132 | moves the job as `StartStep` says and keeps the invariant |
| Execution.SyftJob.Subscribe | syftlib/src/main/java/fl/wearable/autosport/execution/SyftJob.kt:140-163 | moves the job as `SubscribeStep` says |
| Execution.SyftJob.CycleAccepted | syftlib/src/main/java/fl/wearable/autosport/execution/SyftJob.kt:170-181 | moves the job as `CycleAcceptedStep` says |
| Execution.SyftJob.PutPlans | syftlib/src/main/java/fl/wearable/autosport/execution/SyftJob.kt:172-174 | the loop leaves the old plans overlaid with one Plan per response entry, stored under its name |
| Execution.SyftJob.PutProtocols | syftlib/src/main/java/fl/wearable/autosport/execution/SyftJob.kt:175-177 | the loop leaves the old protocols overlaid with one Protocol per response entry, stored under its name |
| Execution.SyftJob.CycleRejected | syftlib/src/main/java/fl/wearable/autosport/execution/SyftJob.kt:187-190 | moves the job as `CycleRejectedStep` says |
| Execution.SyftJob.DownloadData | syftlib/src/main/java/fl/wearable/autosport/execution/SyftJob.kt:197-218 | moves the job as `DownloadDataStep` says |
| Execution.SyftJob.Report | syftlib/src/main/java/fl/wearable/autosport/execution/SyftJob.kt:239-258 | moves the job as `ReportStep` says, reporting through the configuration's signalling client |
| Execution.SyftJob.OnReportResponse | syftlib/src/main/java/fl/wearable/autosport/execution/SyftJob.kt:259-266 | moves the job as `ReportResponseStep` says |
| Execution.SyftJob.ThrowErrorIfNetworkInvalid | syftlib/src/main/java/fl/wearable/autosport/execution/SyftJob.kt:274-281 | moves the job and returns as `NetworkCheckStep` says |
| Execution.SyftJob.ThrowErrorIfBatteryInvalid | syftlib/src/main/java/fl/wearable/autosport/execution/SyftJob.kt:288-295 | moves the job and returns as `BatteryCheckStep` says |
| Execution.SyftJob.CheckConstraint | syftlib/src/main/java/fl/wearable/autosport/execution/SyftJob.kt:274-295 | moves the job and returns as `ConstraintCheck` says |
| Execution.SyftJob.PublishError | syftlib/src/main/java/fl/wearable/autosport/execution/SyftJob.kt:300-304 | moves the job as `PublishErrorStep` says |
| Execution.SyftJob.ThrowError | syftlib/src/main/java/fl/wearable/autosport/execution/SyftJob.kt:309-313 | moves the job as `ThrowErrorStep` says |
| Execution.SyftJob.Dispose | syftlib/src/main/java/fl/wearable/autosport/execution/SyftJob.kt:323-331 | moves the job as `DisposeStep` says |
| Execution.RejectedCycleWorkflow | syftlib/src/main/java/fl/wearable/autosport/execution/SyftJob.kt:120-190 | driving a real job: a rejected subscriber sees JobCycleRejected and then one Complete, however often it is disposed, and a start after rejection sends no second cycle request |
| Execution.AcceptedAndDownloading | syftlib/src/main/java/fl/wearable/autosport/execution/SyftJob.kt:197-218 | start, acceptance and a download request give an accepted, live job with an empty stream, one cycle request, one download started with the response's key, and no report sent |
| Execution.SentReportsConcat | syftlib/src/main/java/fl/wearable/autosport/execution/SyftJob.kt:245-257 | the number of reports in a call log is the sum over its parts |
| Execution.SentReportsAppendOther | syftlib/src/main/java/fl/wearable/autosport/execution/SyftJob.kt:245-257 | appending a call that is not a report leaves the count unchanged |
| Execution.OnlyReportSends | syftlib/src/main/java/fl/wearable/autosport/execution/SyftJob.kt:120-218 | only `report` sends reports: subscribe, start, cycleAccepted, cycleRejected and downloadData leave the number of sent reports unchanged, on every state |
| Execution.ErrorPathsSendNoReport | syftlib/src/main/java/fl/wearable/autosport/execution/SyftJob.kt:259-331 | a report answer, publishError, throwError, dispose and each device check leave the number of sent reports unchanged, on every state |
| Execution.ReportSendsAtMostOne | syftlib/src/main/java/fl/wearable/autosport/execution/SyftJob.kt:239-258 | one `report` adds exactly one sent report when both checks pass and both ids are non-empty, and none otherwise |
| Execution.BatteryFailureScenario | syftlib/src/main/java/fl/wearable/autosport/execution/SyftJob.kt:239-304 | accepted and downloaded (a second download request starts nothing), then a failed battery check at report: the subscriber receives only BatteryConstraintsFailure, no report is sent, the job is disposed and a later dispose adds no Complete |
| Execution.ReportedOnce | syftlib/src/main/java/fl/wearable/autosport/execution/SyftJob.kt:245-266 | with both checks passing and both ids known, the first report sends exactly one report and holds one live report subscription |
| Execution.AnsweredThenDisposed | syftlib/src/main/java/fl/wearable/autosport/execution/SyftJob.kt:259-331 | a status answer completes the stream, the following dispose emits nothing more, and a later start is refused with RunningDisposedJob |
| Execution.CompletedCycleScenario | syftlib/src/main/java/fl/wearable/autosport/execution/SyftJob.kt:120-331 | the whole cycle from start to report answer: one report sent, the subscriber receives exactly one Complete, and a start after disposal is refused |

## Left out

- `SyftJob.createDiff` (SyftJob.kt:224-233) is not modelled. It loads a model file and runs a TorchScript diff; the diff enters `Report` as an opaque `SyftState` value.
- The diff's serialisation and its Base64 encoding in `report` are not modelled. The report records the `SyftState` itself.
- `JobRepository` and the worker (`Syft`) are not part of this model.
  - Their answers (`isNetworkValid`, `isBatteryValid`, `getSyftWorkerId`) become parameters of the methods that ask for them.
  - Their side effects appear only as entries in the ghost call log.
  - `jobRepository.downloadData` is assumed to move the repository status from NOT_STARTED to IN_PROGRESS. Its downloads, and the JobReady and error messages it emits on the stream, are not modelled.
- `CycleAccept.clientConfig` and the `SyftModel` object are not modelled. The model keeps only `pyGridModelId`, as `modelId`.
- `requiresSpeedTest` and `SyftConfiguration.getDownloader` are not modelled. Nothing in the modelled operations reads them.
- Schedulers, threads, `onBackpressureBuffer`, `computeDisposable` and the atomics are not modelled. Every operation is treated as one sequential step, and the subscriber is assumed to receive the stream's signals in order.
- When `throwError` throws, the model returns a `Threw` outcome instead of raising an exception. RxJava's global error handler, which also receives errors offered after the stream has terminated, is not modelled.
- A report request that fails is not modelled. In the source (SyftJob.kt:259) the report's `subscribe` has no error consumer, so the failure goes to RxJava's global error handler. The job stays live and keeps its report subscription; the model has no transition for this.
- `Plan` drops the back-reference to its job that `Plan(this, planId, planName)` (SyftJob.kt:173) stores. A plan is kept as its id and name only; the job it belongs to is the job whose `plans` field holds it.
- `Execution.JobInv` and `Execution.SyftJob.IsDisposed`: errors the repository emits on the shared status stream (`downloadData` hands it `jobStatusProcessor`, SyftJob.kt:211) are not modelled. Such an error does not set `isDisposed`, so with them an errored stream would no longer imply a disposed job. The invariant's clause "an error on the stream implies disposed" holds only for the errors the job publishes itself.
- Logging (`Log.d`, `Log.e`) is not modelled.
- The SyftConfiguration constructor's `maxConcurrentJobs` has no setter in the source (it is commented out). It stays at 1.
- Two Android values are only identified, not modelled: `Context` by its files directory, and the clients by the values they are built from.
- `Execution.SyftJob.Report`: the report request is recorded as sent at the moment `report` is called. Its answer arrives later through `OnReportResponse`. Which of several live requests the answer belongs to is not modelled.

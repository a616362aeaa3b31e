/**
 * The training-job state machine (package `execution`, class `SyftJob`).
 *
 * The job is a class whose fields are the job's own state. Its status
 * stream, an RxJava `PublishProcessor`, is the class `StatusProcessor`: a log
 * of the signals it has emitted and of the subscriptions made to it. The
 * worker, the job repository and the signalling client are not modelled:
 * what they answer is passed in as parameters, and what the job asks of them
 * is appended to the ghost log `calls`.
 *
 * Each operation is written twice: as a pure step function on `JobState`,
 * which carries the properties in its contract, and as a method of `SyftJob`
 * that updates the fields in place and is proved to take `State()` exactly
 * where the step function says.
 */
module Execution {
  import opened Wrappers
  import Domain

  // ---------------------------------------------------------------------
  // Identity of a job
  // ---------------------------------------------------------------------

  datatype JobID = JobID(modelName: string, version: Option<string>) {
    /**
     * Whether a cycle response for (responseName, responseVersion) belongs to
     * this job: a missing or empty version on either side is a wildcard and
     * only the names are compared; otherwise names and versions must agree.
     */
    function MatchWithResponse(responseName: string, responseVersion: Option<string>): (r: bool)
      ensures r ==> modelName == responseName
      ensures r <==> (modelName == responseName &&
        (IsNullOrEmpty(version) || IsNullOrEmpty(responseVersion) || version.value == responseVersion.value))
      ensures !IsNullOrEmpty(version) && !IsNullOrEmpty(responseVersion) ==>
        (r <==> this == JobID(responseName, responseVersion))
    {
      if IsNullOrEmpty(responseVersion) || IsNullOrEmpty(version) then
        modelName == responseName
      else
        modelName == responseName && version == responseVersion
    }
  }

  /** Every job matches its own id, and matching does not depend on which side is the job and which the response. */
  lemma MatchSymmetric(a: JobID, b: JobID)
    ensures a.MatchWithResponse(a.modelName, a.version)
    ensures a.MatchWithResponse(b.modelName, b.version) <==> b.MatchWithResponse(a.modelName, a.version)
  {
  }

  /** The wildcard makes matching reflexive and symmetric but not transitive. */
  lemma MatchExamples()
    ensures JobID("mnist", Some("1")).MatchWithResponse("mnist", None)
    ensures JobID("mnist", None).MatchWithResponse("mnist", Some("1"))
    ensures JobID("mnist", Some("")).MatchWithResponse("mnist", Some("2"))
    ensures JobID("mnist", None).MatchWithResponse("mnist", Some("2"))
    ensures !JobID("mnist", Some("1")).MatchWithResponse("mnist", Some("2"))
    ensures !JobID("mnist", None).MatchWithResponse("cifar", None)
  {
  }

  // ---------------------------------------------------------------------
  // Values the job works with
  // ---------------------------------------------------------------------

  datatype CycleStatus = APPLY | REJECT | ACCEPTED

  /** The job repository's download status; only NOT_STARTED is tested by the job. */
  datatype DownloadStatus = NOT_STARTED | IN_PROGRESS | COMPLETE

  datatype JobErrorThrowable =
    | RunningDisposedJob
    | CycleNotAccepted(message: string)
    | NetworkConstraintsFailure
    | BatteryConstraintsFailure
    | NetworkResponseFailure(message: string)

  const CycleNotAcceptedMessage := "Cycle not accepted. Download cannot start"

  datatype Plan = Plan(planId: string, planName: string)
  datatype Protocol = Protocol(protocolId: string)

  /** A serialised model-state diff. */
  datatype SyftState = SyftState(serialized: seq<bv8>)

  /** PyGrid's answers: name-keyed plan and protocol ids, the model id and the report key. */
  datatype CycleAccept = CycleAccept(plans: map<string, string>, protocols: map<string, string>, modelId: string, requestKey: string)
  datatype CycleReject = CycleReject(timeout: string)
  datatype ReportResponse = ReportResponse(status: Option<string>, error: Option<string>)

  function PlansOf(planIds: map<string, string>): map<string, Plan> {
    map name | name in planIds :: Plan(planIds[name], name)
  }

  function ProtocolsOf(protocolIds: map<string, string>): map<string, Protocol> {
    map name | name in protocolIds :: Protocol(protocolIds[name])
  }

  /** Writing one more response entry into the map extends what has been written by that entry. */
  lemma PlansOfGrows(base: map<string, Plan>, planIds: map<string, string>, pending: set<string>, name: string)
    requires name in pending && pending <= planIds.Keys
    ensures (base + PlansOf(planIds - pending))[name := Plan(planIds[name], name)]
         == base + PlansOf(planIds - (pending - {name}))
  {
    var before := base + PlansOf(planIds - pending);
    assert before[name := Plan(planIds[name], name)].Keys == (base + PlansOf(planIds - (pending - {name}))).Keys;
  }

  lemma ProtocolsOfGrows(base: map<string, Protocol>, protocolIds: map<string, string>, pending: set<string>, name: string)
    requires name in pending && pending <= protocolIds.Keys
    ensures (base + ProtocolsOf(protocolIds - pending))[name := Protocol(protocolIds[name])]
         == base + ProtocolsOf(protocolIds - (pending - {name}))
  {
    var before := base + ProtocolsOf(protocolIds - pending);
    assert before[name := Protocol(protocolIds[name])].Keys == (base + ProtocolsOf(protocolIds - (pending - {name}))).Keys;
  }

  // ---------------------------------------------------------------------
  // The status stream
  // ---------------------------------------------------------------------

  /** The job-status messages this class emits itself (the repository emits others). */
  datatype JobStatusMessage = JobCycleRejected(timeout: string)

  datatype StatusSignal = Next(message: JobStatusMessage) | Error(error: JobErrorThrowable) | Complete {
    predicate IsTerminal() { !Next? }
  }

  /** Only the last signal of a stream may be terminal. */
  predicate WellFormedLog(log: seq<StatusSignal>) {
    forall i :: 0 <= i < |log| - 1 ==> !log[i].IsTerminal()
  }

  predicate Terminated(log: seq<StatusSignal>) {
    |log| > 0 && log[|log| - 1].IsTerminal()
  }

  predicate HasError(log: seq<StatusSignal>) {
    exists i :: 0 <= i < |log| && log[i].Error?
  }

  /**
   * One signal offered to the processor. A terminated processor drops it
   * (rule 1.7 of the Reactive Streams specification); otherwise it is emitted.
   */
  function Signal(log: seq<StatusSignal>, s: StatusSignal): (r: seq<StatusSignal>)
    ensures WellFormedLog(log) ==> WellFormedLog(r)
    ensures Terminated(log) ==> r == log
    ensures !Terminated(log) ==> r == log + [s]
    ensures s.IsTerminal() ==> Terminated(r)
    ensures log <= r
  {
    if Terminated(log) then log else log + [s]
  }

  function TerminalCount(log: seq<StatusSignal>): nat {
    if log == [] then 0 else (if log[0].IsTerminal() then 1 else 0) + TerminalCount(log[1..])
  }

  /** A well-formed stream holds one terminal signal exactly when it has terminated, never two. */
  lemma {:induction false} TerminalCountOfWellFormed(log: seq<StatusSignal>)
    requires WellFormedLog(log)
    ensures TerminalCount(log) <= 1
    ensures TerminalCount(log) == 1 <==> Terminated(log)
  {
    if |log| > 1 {
      assert !log[0].IsTerminal();
      assert WellFormedLog(log[1..]) by {
        forall i | 0 <= i < |log[1..]| - 1 ensures !log[1..][i].IsTerminal() {
          assert log[1..][i] == log[i + 1];
        }
      }
      TerminalCountOfWellFormed(log[1..]);
      assert log[1..][|log[1..]| - 1] == log[|log| - 1];
    } else if |log| == 1 {
      assert log[1..] == [];
    }
  }

  /** A subscriber, identified by reference. */
  datatype Subscriber = Subscriber(id: nat)

  /** A subscription receives the stream from position `from` on. */
  datatype Subscription = Subscription(subscriber: Subscriber, from: nat)

  /**
   * Subscribing to a live processor receives what is emitted from now on;
   * subscribing to a terminated one receives its terminal signal at once.
   */
  function SubscriptionFor(log: seq<StatusSignal>, subscriber: Subscriber): (r: Subscription)
    ensures r.subscriber == subscriber && r.from <= |log|
    ensures !Terminated(log) ==> log[r.from..] == []
    ensures Terminated(log) ==> log[r.from..] == [log[|log| - 1]]
  {
    Subscription(subscriber, if Terminated(log) then |log| - 1 else |log|)
  }

  predicate SubscriptionsInRange(log: seq<StatusSignal>, subscriptions: seq<Subscription>) {
    forall i :: 0 <= i < |subscriptions| ==> subscriptions[i].from <= |log|
  }

  /** What the i-th subscription has been handed. */
  function Delivered(log: seq<StatusSignal>, subscriptions: seq<Subscription>, i: nat): seq<StatusSignal>
    requires i < |subscriptions| && SubscriptionsInRange(log, subscriptions)
  {
    log[subscriptions[i].from..]
  }

  // ---------------------------------------------------------------------
  // The job's state and its collaborators
  // ---------------------------------------------------------------------

  /** A call the job makes on something outside it. */
  datatype Call =
    | SubscriberOnError(subscriber: Subscriber, error: JobErrorThrowable)  // subscriber.onError, bypassing the stream
    | CycleRequest                                                          // worker.executeCycleRequest(this)
    | NetworkQuery                                                          // worker.isNetworkValid()
    | BatteryQuery                                                          // worker.isBatteryValid()
    | DownloadStarted(workerId: string, requestKey: string)                // jobRepository.downloadData(...)
    | ReportSent(client: Domain.CommunicationApi, workerId: string, requestKey: string, diff: SyftState)

  /** How many reports a call log has sent. */
  function SentReports(calls: seq<Call>): nat {
    if calls == [] then 0
    else SentReports(calls[..|calls| - 1]) + (if calls[|calls| - 1].ReportSent? then 1 else 0)
  }

  datatype JobState = JobState(
    status: CycleStatus,
    disposed: bool,
    plans: map<string, Plan>,
    protocols: map<string, Protocol>,
    requestKey: string,
    modelId: Option<string>,
    download: DownloadStatus,
    liveReports: nat,                  // report subscriptions still held by networkDisposable
    signals: seq<StatusSignal>,
    subscriptions: seq<Subscription>,
    calls: seq<Call>)

  /**
   * What every modelled operation preserves: the stream never signals after
   * its terminal signal, subscriptions point into it, and a job whose stream
   * carries an error is disposed. The only errors modelled are those the job
   * publishes itself through `publishError`, which disposes it.
   */
  predicate JobInv(s: JobState) {
    && WellFormedLog(s.signals)
    && SubscriptionsInRange(s.signals, s.subscriptions)
    && (HasError(s.signals) ==> s.disposed)
  }

  function InitialState(): (s: JobState)
    ensures JobInv(s)
    ensures s.status == APPLY && !s.disposed && s.download == NOT_STARTED
    ensures s.plans == map[] && s.protocols == map[] && s.requestKey == "" && s.modelId == None
    ensures s.signals == [] && s.subscriptions == [] && s.calls == [] && s.liveReports == 0
  {
    JobState(APPLY, false, map[], map[], "", None, NOT_STARTED, 0, [], [], [])
  }

  // ---------------------------------------------------------------------
  // Operations, as steps on JobState
  // ---------------------------------------------------------------------

  /** `subscribe`: one more subscription to the status stream, nothing else. */
  function SubscribeStep(s: JobState, subscriber: Subscriber): (r: JobState)
    ensures JobInv(s) ==> JobInv(r)
    ensures r.subscriptions == s.subscriptions + [SubscriptionFor(s.signals, subscriber)]
    ensures r.(subscriptions := s.subscriptions) == s
  {
    s.(subscriptions := s.subscriptions + [SubscriptionFor(s.signals, subscriber)])
  }

  /**
   * `start`: a rejected job does nothing at all, even if also disposed; a
   * disposed job tells the subscriber RunningDisposedJob and changes nothing;
   * any other job subscribes and asks the worker for exactly one cycle.
   */
  function StartStep(s: JobState, subscriber: Subscriber): (r: JobState)
    ensures JobInv(s) ==> JobInv(r)
    ensures s.status == REJECT ==> r == s
    ensures s.status != REJECT && s.disposed ==>
      r == s.(calls := s.calls + [SubscriberOnError(subscriber, RunningDisposedJob)])
    ensures s.status != REJECT && !s.disposed ==>
      && r.calls == s.calls + [CycleRequest]
      && r.subscriptions == s.subscriptions + [SubscriptionFor(s.signals, subscriber)]
      && r.(calls := s.calls, subscriptions := s.subscriptions) == s
    ensures multiset(r.calls)[CycleRequest] == multiset(s.calls)[CycleRequest] + (if s.status != REJECT && !s.disposed then 1 else 0)
  {
    if s.status == REJECT then s
    else if s.disposed then s.(calls := s.calls + [SubscriberOnError(subscriber, RunningDisposedJob)])
    else
      var subscribed := SubscribeStep(s, subscriber);
      subscribed.(calls := subscribed.calls + [CycleRequest])
  }

  /**
   * `cycleAccepted`: status ACCEPTED, the response's request key and model
   * id, and every response plan and protocol written under its name,
   * replacing an entry of the same name. The stream is not touched and the
   * disposed flag is not consulted.
   */
  function CycleAcceptedStep(s: JobState, response: CycleAccept): (r: JobState)
    ensures JobInv(s) ==> JobInv(r)
    ensures r.status == ACCEPTED
    ensures r.requestKey == response.requestKey && r.modelId == Some(response.modelId)
    ensures r.plans.Keys == s.plans.Keys + response.plans.Keys
    ensures forall name :: name in response.plans ==> r.plans[name] == Plan(response.plans[name], name)
    ensures forall name :: name in s.plans && name !in response.plans ==> r.plans[name] == s.plans[name]
    ensures r.protocols.Keys == s.protocols.Keys + response.protocols.Keys
    ensures forall name :: name in response.protocols ==> r.protocols[name] == Protocol(response.protocols[name])
    ensures forall name :: name in s.protocols && name !in response.protocols ==> r.protocols[name] == s.protocols[name]
    ensures r.(status := s.status, requestKey := s.requestKey, modelId := s.modelId, plans := s.plans, protocols := s.protocols) == s
  {
    s.(plans := s.plans + PlansOf(response.plans),
       protocols := s.protocols + ProtocolsOf(response.protocols),
       requestKey := response.requestKey,
       modelId := Some(response.modelId),
       status := ACCEPTED)
  }

  /** `cycleRejected`: status REJECT and one JobCycleRejected offered; not an error, not a disposal. */
  function CycleRejectedStep(s: JobState, response: CycleReject): (r: JobState)
    ensures JobInv(s) ==> JobInv(r)
    ensures r.status == REJECT
    ensures r.signals == Signal(s.signals, Next(JobCycleRejected(response.timeout)))
    ensures !Terminated(s.signals) ==> r.signals == s.signals + [Next(JobCycleRejected(response.timeout))]
    ensures HasError(r.signals) == HasError(s.signals)
    ensures r.(status := s.status, signals := s.signals) == s
  {
    var signals := Signal(s.signals, Next(JobCycleRejected(response.timeout)));
    assert HasError(signals) ==> HasError(s.signals) by {
      if HasError(signals) && !Terminated(s.signals) {
        var i :| 0 <= i < |signals| && signals[i].Error?;
        assert i < |s.signals| && s.signals[i] == signals[i];
      }
    }
    s.(status := REJECT, signals := signals)
  }

  /**
   * `publishError`: the error is emitted (unless the stream has already
   * terminated), every network subscription is dropped and the job is disposed.
   */
  function PublishErrorStep(s: JobState, throwable: JobErrorThrowable): (r: JobState)
    ensures JobInv(s) ==> JobInv(r)
    ensures r.disposed && r.liveReports == 0 && Terminated(r.signals)
    ensures r.signals == Signal(s.signals, Error(throwable))
    ensures !Terminated(s.signals) ==> r.signals == s.signals + [Error(throwable)]
    ensures r.(disposed := s.disposed, liveReports := s.liveReports, signals := s.signals) == s
  {
    s.(signals := Signal(s.signals, Error(throwable)), liveReports := 0, disposed := true)
  }

  /** `throwError`: network subscriptions dropped and the job disposed, with nothing on the stream. */
  function ThrowErrorStep(s: JobState): (r: JobState)
    ensures JobInv(s) ==> JobInv(r)
    ensures r.disposed && r.liveReports == 0 && r.signals == s.signals
    ensures r.(disposed := s.disposed, liveReports := s.liveReports) == s
  {
    s.(liveReports := 0, disposed := true)
  }

  /** `throwErrorIf…Invalid` either returns whether the check failed or throws. */
  datatype CheckOutcome = Returned(invalid: bool) | Threw(error: JobErrorThrowable)
  datatype CheckResult = CheckResult(state: JobState, outcome: CheckOutcome)

  /**
   * A device-constraint check: the worker is asked once; a valid answer
   * changes nothing else; an invalid one is published (and returns true)
   * when `publish` holds, and is thrown otherwise.
   */
  function ConstraintCheck(s: JobState, query: Call, valid: bool, failure: JobErrorThrowable, publish: bool): (r: CheckResult)
    ensures JobInv(s) ==> JobInv(r.state)
    ensures r.outcome == Returned(false) <==> valid
    ensures r.outcome == Returned(true) <==> !valid && publish
    ensures r.outcome == Threw(failure) <==> !valid && !publish
    ensures valid ==> r.state == s.(calls := s.calls + [query])
    ensures !valid && publish ==> r.state == PublishErrorStep(s.(calls := s.calls + [query]), failure)
    ensures !valid && !publish ==> r.state == ThrowErrorStep(s.(calls := s.calls + [query]))
  {
    var asked := s.(calls := s.calls + [query]);
    if publish && !valid then CheckResult(PublishErrorStep(asked, failure), Returned(true))
    else if !valid then CheckResult(ThrowErrorStep(asked), Threw(failure))
    else CheckResult(asked, Returned(false))
  }

  function NetworkCheckStep(s: JobState, networkValid: bool, publish: bool): (r: CheckResult)
    ensures JobInv(s) ==> JobInv(r.state)
    ensures r.outcome == Returned(!networkValid) || r.outcome == Threw(NetworkConstraintsFailure)
    ensures r.outcome == Threw(NetworkConstraintsFailure) <==> !networkValid && !publish
    ensures !networkValid && publish ==>
      r.state == PublishErrorStep(s.(calls := s.calls + [NetworkQuery]), NetworkConstraintsFailure)
    ensures !networkValid && !publish ==> r.state == ThrowErrorStep(s.(calls := s.calls + [NetworkQuery]))
    ensures networkValid ==> r.state == s.(calls := s.calls + [NetworkQuery])
    ensures r.state.calls == s.calls + [NetworkQuery]
    ensures r.state.disposed <==> s.disposed || !networkValid
  {
    ConstraintCheck(s, NetworkQuery, networkValid, NetworkConstraintsFailure, publish)
  }

  function BatteryCheckStep(s: JobState, batteryValid: bool, publish: bool): (r: CheckResult)
    ensures JobInv(s) ==> JobInv(r.state)
    ensures r.outcome == Returned(!batteryValid) || r.outcome == Threw(BatteryConstraintsFailure)
    ensures r.outcome == Threw(BatteryConstraintsFailure) <==> !batteryValid && !publish
    ensures !batteryValid && publish ==>
      r.state == PublishErrorStep(s.(calls := s.calls + [BatteryQuery]), BatteryConstraintsFailure)
    ensures !batteryValid && !publish ==> r.state == ThrowErrorStep(s.(calls := s.calls + [BatteryQuery]))
    ensures batteryValid ==> r.state == s.(calls := s.calls + [BatteryQuery])
    ensures r.state.calls == s.calls + [BatteryQuery]
    ensures r.state.disposed <==> s.disposed || !batteryValid
  {
    ConstraintCheck(s, BatteryQuery, batteryValid, BatteryConstraintsFailure, publish)
  }

  /** Both ids are known, so `report` may contact the server. */
  predicate CanSendReport(s: JobState, workerId: Option<string>) {
    !IsNullOrEmpty(workerId) && s.requestKey != ""
  }

  /**
   * `report`: the network is checked first and the battery only if the
   * network passed; a failing check publishes its error and nothing is sent;
   * otherwise exactly one report goes out when the worker id and the request
   * key are both non-empty.
   */
  function ReportStep(s: JobState, client: Domain.CommunicationApi, workerId: Option<string>,
                      networkValid: bool, batteryValid: bool, diff: SyftState): (r: JobState)
    ensures JobInv(s) ==> JobInv(r)
    ensures !networkValid ==>
      r == PublishErrorStep(s.(calls := s.calls + [NetworkQuery]), NetworkConstraintsFailure)
    ensures networkValid && !batteryValid ==>
      r == PublishErrorStep(s.(calls := s.calls + [NetworkQuery, BatteryQuery]), BatteryConstraintsFailure)
    ensures r.disposed <==> s.disposed || !networkValid || !batteryValid
    ensures networkValid && batteryValid ==>
      r == s.(calls := s.calls + [NetworkQuery, BatteryQuery] +
                       (if CanSendReport(s, workerId) then [ReportSent(client, workerId.value, s.requestKey, diff)] else []),
              liveReports := s.liveReports + (if CanSendReport(s, workerId) then 1 else 0))
  {
    var network := NetworkCheckStep(s, networkValid, true);
    if network.outcome != Returned(false) then network.state
    else
      var battery := BatteryCheckStep(network.state, batteryValid, true);
      assert battery.state.calls == s.calls + [NetworkQuery, BatteryQuery];
      if battery.outcome != Returned(false) then battery.state
      else
        var checked := s.(calls := s.calls + [NetworkQuery, BatteryQuery]);
        assert battery.state == checked;
        if CanSendReport(s, workerId) then
          var report := ReportSent(client, workerId.value, s.requestKey, diff);
          checked.(calls := checked.calls + [report], liveReports := s.liveReports + 1)
        else
          assert checked.calls + [] == checked.calls;
          checked
  }

  /**
   * The server's answer to a report, delivered to one live report
   * subscription: an error is published, a status completes the stream. With
   * no live subscription (the job dropped them) the answer is ignored.
   */
  function ReportResponseStep(s: JobState, response: ReportResponse): (r: JobState)
    ensures JobInv(s) ==> JobInv(r)
    ensures s.liveReports == 0 ==> r == s
    ensures s.liveReports > 0 && response.error.Some? ==>
      r.disposed && r.signals == Signal(s.signals, Error(NetworkResponseFailure(response.error.value)))
    ensures s.liveReports > 0 && response.error.Some? ==>
      r.liveReports == 0 && r.(signals := s.signals, disposed := s.disposed, liveReports := s.liveReports) == s
    ensures s.liveReports > 0 && response.error.None? && response.status.Some? ==>
      r == s.(liveReports := s.liveReports - 1, signals := Signal(s.signals, Complete))
    ensures s.liveReports > 0 && response.error.None? && response.status.Some? ==>
      r.signals == Signal(s.signals, Complete) && r.disposed == s.disposed
    ensures s.liveReports > 0 && response.status.Some? ==> Terminated(r.signals)
    ensures s.liveReports > 0 && response.error.None? && response.status.None? ==>
      r == s.(liveReports := s.liveReports - 1)
    ensures r.calls == s.calls && r.status == s.status
  {
    if s.liveReports == 0 then s
    else
      var answered := s.(liveReports := s.liveReports - 1);
      var afterError := if response.error.Some? then PublishErrorStep(answered, NetworkResponseFailure(response.error.value)) else answered;
      if response.status.Some? then
        var completed := afterError.(signals := Signal(afterError.signals, Complete));
        assert HasError(completed.signals) ==> HasError(afterError.signals) by {
          if HasError(completed.signals) && !Terminated(afterError.signals) {
            var i :| 0 <= i < |completed.signals| && completed.signals[i].Error?;
            assert i < |afterError.signals| && afterError.signals[i] == completed.signals[i];
          }
        }
        completed
      else afterError
  }

  /**
   * `downloadData`: before acceptance it publishes CycleNotAccepted (which
   * disposes the job) and starts nothing; after acceptance it starts the
   * repository's download only if none has started, with the response's key.
   */
  function DownloadDataStep(s: JobState, workerId: string, response: CycleAccept): (r: JobState)
    ensures JobInv(s) ==> JobInv(r)
    ensures s.status != ACCEPTED ==> r == PublishErrorStep(s, CycleNotAccepted(CycleNotAcceptedMessage))
    ensures s.status == ACCEPTED && s.download == NOT_STARTED ==>
      r == s.(download := IN_PROGRESS, calls := s.calls + [DownloadStarted(workerId, response.requestKey)])
    ensures s.status == ACCEPTED && s.download != NOT_STARTED ==> r == s
    ensures r.download != NOT_STARTED <==> s.download != NOT_STARTED || s.status == ACCEPTED
  {
    if s.status != ACCEPTED then PublishErrorStep(s, CycleNotAccepted(CycleNotAcceptedMessage))
    else if s.download == NOT_STARTED then
      s.(download := IN_PROGRESS, calls := s.calls + [DownloadStarted(workerId, response.requestKey)])
    else s
  }

  /**
   * `dispose`: on a live job, Complete is offered, network subscriptions are
   * dropped and the job is disposed; on a disposed job nothing happens.
   */
  function DisposeStep(s: JobState): (r: JobState)
    ensures JobInv(s) ==> JobInv(r)
    ensures r.disposed
    ensures !s.disposed ==> Terminated(r.signals)
    ensures s.disposed ==> r == s
    ensures !s.disposed ==>
      r == s.(signals := Signal(s.signals, Complete), liveReports := 0, disposed := true)
  {
    if s.disposed then s
    else
      var signals := Signal(s.signals, Complete);
      assert HasError(signals) ==> HasError(s.signals) by {
        if HasError(signals) && !Terminated(s.signals) {
          var i :| 0 <= i < |signals| && signals[i].Error?;
          assert i < |s.signals| && s.signals[i] == signals[i];
        }
      }
      s.(signals := signals, liveReports := 0, disposed := true)
  }

  // ---------------------------------------------------------------------
  // Properties that relate several steps
  // ---------------------------------------------------------------------

  /** Counting reports distributes over concatenation of call logs. */
  lemma {:induction false} SentReportsConcat(a: seq<Call>, b: seq<Call>)
    ensures SentReports(a + b) == SentReports(a) + SentReports(b)
    decreases |b|
  {
    if b == [] {
      assert a + b == a;
    } else {
      var last := |b| - 1;
      assert (a + b)[..|a + b| - 1] == a + b[..last];
      assert (a + b)[|a + b| - 1] == b[last];
      SentReportsConcat(a, b[..last]);
    }
  }

  /** The two device checks send no report. */
  lemma ChecksSendNoReport()
    ensures SentReports([NetworkQuery]) == 0 && SentReports([NetworkQuery, BatteryQuery]) == 0
  {
    SentReportsSingle(NetworkQuery);
    SentReportsSingle(BatteryQuery);
    SentReportsConcat([NetworkQuery], [BatteryQuery]);
  }

  /** A single call counts as a report exactly when it is one. */
  lemma SentReportsSingle(c: Call)
    ensures SentReports([c]) == if c.ReportSent? then 1 else 0
  {
    assert [c][..0] == [];
  }

  /** A call that is not a report leaves the count unchanged. */
  lemma SentReportsAppendOther(calls: seq<Call>, c: Call)
    requires !c.ReportSent?
    ensures SentReports(calls + [c]) == SentReports(calls)
  {
    SentReportsConcat(calls, [c]);
    SentReportsSingle(c);
  }

  /**
   * Only `report` sends reports: subscribing, starting, accepting,
   * rejecting and downloading leave the number of sent reports unchanged.
   */
  lemma OnlyReportSends(s: JobState, subscriber: Subscriber, accept: CycleAccept, reject: CycleReject, workerId: string)
    ensures SentReports(SubscribeStep(s, subscriber).calls) == SentReports(s.calls)
    ensures SentReports(StartStep(s, subscriber).calls) == SentReports(s.calls)
    ensures SentReports(CycleAcceptedStep(s, accept).calls) == SentReports(s.calls)
    ensures SentReports(CycleRejectedStep(s, reject).calls) == SentReports(s.calls)
    ensures SentReports(DownloadDataStep(s, workerId, accept).calls) == SentReports(s.calls)
  {
    assert SentReports(StartStep(s, subscriber).calls) == SentReports(s.calls) by {
      SentReportsAppendOther(s.calls, CycleRequest);
      SentReportsAppendOther(s.calls, SubscriberOnError(subscriber, RunningDisposedJob));
    }
    assert SentReports(DownloadDataStep(s, workerId, accept).calls) == SentReports(s.calls) by {
      SentReportsAppendOther(s.calls, DownloadStarted(workerId, accept.requestKey));
    }
    assert CycleAcceptedStep(s, accept).calls == s.calls;
    assert CycleRejectedStep(s, reject).calls == s.calls;
  }

  /**
   * Neither do a report answer, the error paths, `dispose` or a device
   * check (whose query is not a report).
   */
  lemma ErrorPathsSendNoReport(s: JobState, answer: ReportResponse, throwable: JobErrorThrowable,
                               query: Call, valid: bool, publish: bool)
    requires !query.ReportSent?
    ensures SentReports(ReportResponseStep(s, answer).calls) == SentReports(s.calls)
    ensures SentReports(PublishErrorStep(s, throwable).calls) == SentReports(s.calls)
    ensures SentReports(ThrowErrorStep(s).calls) == SentReports(s.calls)
    ensures SentReports(DisposeStep(s).calls) == SentReports(s.calls)
    ensures SentReports(ConstraintCheck(s, query, valid, throwable, publish).state.calls) == SentReports(s.calls)
  {
    SentReportsAppendOther(s.calls, query);
  }

  /** `report` sends exactly one report when both checks pass and both ids are known, and none otherwise. */
  lemma ReportSendsAtMostOne(s: JobState, client: Domain.CommunicationApi, workerId: Option<string>,
                             networkValid: bool, batteryValid: bool, diff: SyftState)
    ensures SentReports(ReportStep(s, client, workerId, networkValid, batteryValid, diff).calls) ==
      SentReports(s.calls) + (if networkValid && batteryValid && CanSendReport(s, workerId) then 1 else 0)
  {
    var r := ReportStep(s, client, workerId, networkValid, batteryValid, diff);
    ChecksSendNoReport();
    SentReportsConcat(s.calls, [NetworkQuery]);
    SentReportsConcat(s.calls, [NetworkQuery, BatteryQuery]);
    if networkValid && batteryValid && CanSendReport(s, workerId) {
      var report := ReportSent(client, workerId.value, s.requestKey, diff);
      assert r.calls == (s.calls + [NetworkQuery, BatteryQuery]) + [report];
      SentReportsConcat(s.calls + [NetworkQuery, BatteryQuery], [report]);
      SentReportsSingle(report);
    } else if networkValid && batteryValid {
      assert r.calls == s.calls + [NetworkQuery, BatteryQuery] + [];
    }
  }



  /** Disposing twice is disposing once. */
  lemma DisposeIdempotent(s: JobState)
    ensures DisposeStep(DisposeStep(s)) == DisposeStep(s)
  {
  }

  /** After an error, `dispose` emits no Complete: the job is already disposed. */
  lemma DisposeAfterPublishError(s: JobState, throwable: JobErrorThrowable)
    ensures DisposeStep(PublishErrorStep(s, throwable)) == PublishErrorStep(s, throwable)
    ensures Complete !in PublishErrorStep(s, throwable).signals[|s.signals|..]
  {
  }

  /** However often `dispose` is called, the stream carries exactly one terminal signal. */
  lemma DisposeTerminatesOnce(s: JobState)
    requires JobInv(s) && !s.disposed
    ensures TerminalCount(DisposeStep(s).signals) == 1
    ensures DisposeStep(DisposeStep(s)).signals == DisposeStep(s).signals
  {
    TerminalCountOfWellFormed(DisposeStep(s).signals);
  }

  /** Accepting the same response twice leaves the job as accepting it once: no entry is duplicated. */
  lemma CycleAcceptedIdempotent(s: JobState, response: CycleAccept)
    ensures CycleAcceptedStep(CycleAcceptedStep(s, response), response) == CycleAcceptedStep(s, response)
  {
    var once := CycleAcceptedStep(s, response);
    var twice := CycleAcceptedStep(once, response);
    assert twice.plans == once.plans;
    assert twice.protocols == once.protocols;
  }

  /** Once rejected, a job ignores every further `start`, whatever its subscriber. */
  lemma RejectedJobIgnoresStart(s: JobState, response: CycleReject, first: Subscriber, second: Subscriber)
    ensures var rejected := CycleRejectedStep(s, response);
      StartStep(StartStep(rejected, first), second) == rejected
  {
  }

  // ---------------------------------------------------------------------
  // The status processor (RxJava PublishProcessor)
  // ---------------------------------------------------------------------

  class StatusProcessor {
    var signals: seq<StatusSignal>
    var subscriptions: seq<Subscription>

    ghost predicate Valid()
      reads this
    {
      WellFormedLog(signals) && SubscriptionsInRange(signals, subscriptions)
    }

    constructor ()
      ensures Valid() && signals == [] && subscriptions == []
    {
      signals := [];
      subscriptions := [];
    }

    /** `offer`: emits an item unless the processor has terminated. */
    method Offer(message: JobStatusMessage)
      requires Valid()
      modifies this
      ensures Valid()
      ensures signals == Signal(old(signals), Next(message)) && subscriptions == old(subscriptions)
    {
      if !Terminated(signals) {
        signals := signals + [Next(message)];
      }
    }

    method OnError(throwable: JobErrorThrowable)
      requires Valid()
      modifies this
      ensures Valid()
      ensures signals == Signal(old(signals), Error(throwable)) && subscriptions == old(subscriptions)
    {
      if !Terminated(signals) {
        signals := signals + [Error(throwable)];
      }
    }

    method OnComplete()
      requires Valid()
      modifies this
      ensures Valid()
      ensures signals == Signal(old(signals), Complete) && subscriptions == old(subscriptions)
    {
      if !Terminated(signals) {
        signals := signals + [Complete];
      }
    }

    method Subscribe(subscriber: Subscriber)
      requires Valid()
      modifies this
      ensures Valid()
      ensures signals == old(signals)
      ensures subscriptions == old(subscriptions) + [SubscriptionFor(old(signals), subscriber)]
    {
      var from := if Terminated(signals) then |signals| - 1 else |signals|;
      subscriptions := subscriptions + [Subscription(subscriber, from)];
    }
  }

  // ---------------------------------------------------------------------
  // The job
  // ---------------------------------------------------------------------

  class SyftJob {
    const jobId: JobID
    const config: Domain.SyftConfiguration
    const jobStatusProcessor: StatusProcessor
    var cycleStatus: CycleStatus
    var disposed: bool
    var plans: map<string, Plan>
    var protocols: map<string, Protocol>
    var requestKey: string
    var modelId: Option<string>          // model.pyGridModelId
    var downloadStatus: DownloadStatus   // jobRepository.status
    var liveReports: nat                 // report subscriptions held by networkDisposable
    ghost var calls: seq<Call>

    ghost function State(): JobState
      reads this, jobStatusProcessor
    {
      JobState(cycleStatus, disposed, plans, protocols, requestKey, modelId, downloadStatus, liveReports,
               jobStatusProcessor.signals, jobStatusProcessor.subscriptions, calls)
    }

    ghost predicate Valid()
      reads this, jobStatusProcessor
    {
      JobInv(State())
    }

    constructor (modelName: string, version: Option<string>, config: Domain.SyftConfiguration)
      ensures Valid() && fresh(jobStatusProcessor)
      ensures jobId == JobID(modelName, version) && this.config == config
      ensures State() == InitialState()
    {
      jobId := JobID(modelName, version);
      this.config := config;
      jobStatusProcessor := new StatusProcessor();
      cycleStatus := APPLY;
      disposed := false;
      plans := map[];
      protocols := map[];
      requestKey := "";
      modelId := None;
      downloadStatus := NOT_STARTED;
      liveReports := 0;
      calls := [];
    }

    /** `isDisposed()`: the abstract state's flag; a job that published an error through `publishError` says yes. */
    predicate IsDisposed(): (r: bool)
      reads this, jobStatusProcessor
      ensures r == State().disposed
      ensures Valid() && HasError(State().signals) ==> r
    {
      disposed
    }

    method Start(subscriber: Subscriber)
      requires Valid()
      modifies this, jobStatusProcessor
      ensures Valid()
      ensures State() == StartStep(old(State()), subscriber)
    {
      if cycleStatus == REJECT {
        return;
      }
      if disposed {
        calls := calls + [SubscriberOnError(subscriber, RunningDisposedJob)];
        return;
      }
      Subscribe(subscriber);
      calls := calls + [CycleRequest];
    }

    method Subscribe(subscriber: Subscriber)
      requires Valid()
      modifies jobStatusProcessor
      ensures Valid()
      ensures State() == SubscribeStep(old(State()), subscriber)
    {
      jobStatusProcessor.Subscribe(subscriber);
    }

    method CycleAccepted(responseData: CycleAccept)
      requires Valid()
      modifies this
      ensures Valid()
      ensures State() == CycleAcceptedStep(old(State()), responseData)
    {
      PutPlans(responseData.plans);
      PutProtocols(responseData.protocols);
      requestKey := responseData.requestKey;
      modelId := Some(responseData.modelId);
      cycleStatus := ACCEPTED;
    }

    /** `responseData.plans.forEach { (planName, planId) -> plans[planName] = Plan(…) }` */
    method PutPlans(planIds: map<string, string>)
      modifies this`plans
      ensures plans == old(plans) + PlansOf(planIds)
    {
      var planNames := planIds.Keys;
      while planNames != {}
        invariant planNames <= planIds.Keys
        invariant plans == old(plans) + PlansOf(planIds - planNames)
        decreases planNames
      {
        var planName :| planName in planNames;
        PlansOfGrows(old(plans), planIds, planNames, planName);
        plans := plans[planName := Plan(planIds[planName], planName)];
        planNames := planNames - {planName};
      }
      assert planIds - {} == planIds;
    }

    /** `responseData.protocols.forEach { (protocolName, protocolId) -> protocols[protocolName] = Protocol(…) }` */
    method PutProtocols(protocolIds: map<string, string>)
      modifies this`protocols
      ensures protocols == old(protocols) + ProtocolsOf(protocolIds)
    {
      var protocolNames := protocolIds.Keys;
      while protocolNames != {}
        invariant protocolNames <= protocolIds.Keys
        invariant protocols == old(protocols) + ProtocolsOf(protocolIds - protocolNames)
        decreases protocolNames
      {
        var protocolName :| protocolName in protocolNames;
        ProtocolsOfGrows(old(protocols), protocolIds, protocolNames, protocolName);
        protocols := protocols[protocolName := Protocol(protocolIds[protocolName])];
        protocolNames := protocolNames - {protocolName};
      }
      assert protocolIds - {} == protocolIds;
    }

    method CycleRejected(responseData: CycleReject)
      requires Valid()
      modifies this, jobStatusProcessor
      ensures Valid()
      ensures State() == CycleRejectedStep(old(State()), responseData)
    {
      cycleStatus := REJECT;
      jobStatusProcessor.Offer(JobCycleRejected(responseData.timeout));
    }

    method DownloadData(workerId: string, responseData: CycleAccept)
      requires Valid()
      modifies this, jobStatusProcessor
      ensures Valid()
      ensures State() == DownloadDataStep(old(State()), workerId, responseData)
    {
      if cycleStatus != ACCEPTED {
        PublishError(CycleNotAccepted(CycleNotAcceptedMessage));
        return;
      }
      if downloadStatus == NOT_STARTED {
        // jobRepository.downloadData(...) marks the download as under way
        downloadStatus := IN_PROGRESS;
        calls := calls + [DownloadStarted(workerId, responseData.requestKey)];
      }
    }

    /** `networkValid` and `batteryValid` are the worker's answers; `workerId` is its id. */
    method Report(diff: SyftState, workerId: Option<string>, networkValid: bool, batteryValid: bool)
      requires Valid()
      modifies this, jobStatusProcessor
      ensures Valid()
      ensures State() == ReportStep(old(State()), config.GetSignallingClient(), workerId, networkValid, batteryValid, diff)
    {
      var network := ThrowErrorIfNetworkInvalid(networkValid, true);
      if network != Returned(false) {
        return;
      }
      var battery := ThrowErrorIfBatteryInvalid(batteryValid, true);
      if battery != Returned(false) {
        return;
      }
      if !IsNullOrEmpty(workerId) && requestKey != "" {
        calls := calls + [ReportSent(config.GetSignallingClient(), workerId.value, requestKey, diff)];
        liveReports := liveReports + 1;
      }
    }

    /** The signalling client hands the report's answer to one live subscription. */
    method OnReportResponse(reportResponse: ReportResponse)
      requires Valid()
      modifies this, jobStatusProcessor
      ensures Valid()
      ensures State() == ReportResponseStep(old(State()), reportResponse)
    {
      if liveReports == 0 {
        return;
      }
      liveReports := liveReports - 1;
      if reportResponse.error.Some? {
        PublishError(NetworkResponseFailure(reportResponse.error.value));
      }
      if reportResponse.status.Some? {
        jobStatusProcessor.OnComplete();
      }
    }

    method ThrowErrorIfNetworkInvalid(networkValid: bool, publish: bool) returns (outcome: CheckOutcome)
      requires Valid()
      modifies this, jobStatusProcessor
      ensures Valid()
      ensures CheckResult(State(), outcome) == NetworkCheckStep(old(State()), networkValid, publish)
    {
      outcome := CheckConstraint(NetworkQuery, networkValid, NetworkConstraintsFailure, publish);
    }

    method ThrowErrorIfBatteryInvalid(batteryValid: bool, publish: bool) returns (outcome: CheckOutcome)
      requires Valid()
      modifies this, jobStatusProcessor
      ensures Valid()
      ensures CheckResult(State(), outcome) == BatteryCheckStep(old(State()), batteryValid, publish)
    {
      outcome := CheckConstraint(BatteryQuery, batteryValid, BatteryConstraintsFailure, publish);
    }

    method CheckConstraint(query: Call, valid: bool, failure: JobErrorThrowable, publish: bool) returns (outcome: CheckOutcome)
      requires Valid()
      modifies this, jobStatusProcessor
      ensures Valid()
      ensures CheckResult(State(), outcome) == ConstraintCheck(old(State()), query, valid, failure, publish)
    {
      calls := calls + [query];
      if publish && !valid {
        PublishError(failure);
        outcome := Returned(true);
      } else if !valid {
        ThrowError();
        outcome := Threw(failure);
      } else {
        outcome := Returned(false);
      }
    }

    method PublishError(throwable: JobErrorThrowable)
      requires Valid()
      modifies this, jobStatusProcessor
      ensures Valid()
      ensures State() == PublishErrorStep(old(State()), throwable)
    {
      jobStatusProcessor.OnError(throwable);
      liveReports := 0;
      disposed := true;
    }

    method ThrowError()
      requires Valid()
      modifies this
      ensures Valid()
      ensures State() == ThrowErrorStep(old(State()))
    {
      liveReports := 0;
      disposed := true;
    }

    method Dispose()
      requires Valid()
      modifies this, jobStatusProcessor
      ensures Valid()
      ensures State() == DisposeStep(old(State()))
    {
      if !IsDisposed() {
        jobStatusProcessor.OnComplete();
        liveReports := 0;
        disposed := true;
      }
    }
  }

  // ---------------------------------------------------------------------
  // Whole workflows, driven through the class
  // ---------------------------------------------------------------------

  /**
   * PyGrid rejects the cycle: the subscriber is told JobCycleRejected, a
   * second `start` before the retry sends nothing, and disposing (twice)
   * completes the stream once.
   */
  method RejectedCycleWorkflow(config: Domain.SyftConfiguration) returns (delivered: seq<StatusSignal>, ghost cycleRequests: nat)
    ensures delivered == [Next(JobCycleRejected("600")), Complete]
    ensures cycleRequests == 1
  {
    var job := new SyftJob("test", Some("1"), config);
    var p := job.jobStatusProcessor;
    job.Start(Subscriber(0));
    assert p.signals == [] && p.subscriptions == [Subscription(Subscriber(0), 0)] && job.calls == [CycleRequest];
    job.CycleRejected(CycleReject("600"));
    assert p.signals == [Next(JobCycleRejected("600"))] && job.calls == [CycleRequest];
    job.Start(Subscriber(0));
    job.Dispose();
    job.Dispose();
    delivered := Delivered(p.signals, p.subscriptions, 0);
    cycleRequests := multiset(job.calls)[CycleRequest];
  }

  /** `start` on a fresh job, then acceptance and the first download request. */
  lemma AcceptedAndDownloading(accept: CycleAccept)
    ensures
      var s := DownloadDataStep(CycleAcceptedStep(StartStep(InitialState(), Subscriber(0)), accept), "worker-1", accept);
      && s.signals == [] && s.subscriptions == [Subscription(Subscriber(0), 0)]
      && s.calls == [CycleRequest, DownloadStarted("worker-1", accept.requestKey)]
      && s.status == ACCEPTED && !s.disposed && s.liveReports == 0
      && s.requestKey == accept.requestKey && s.download == IN_PROGRESS
      && SentReports(s.calls) == 0
  {
    var s0 := StartStep(InitialState(), Subscriber(0));
    assert s0.signals == [] && s0.subscriptions == [Subscription(Subscriber(0), 0)] && s0.calls == [CycleRequest];
    assert !s0.disposed && s0.liveReports == 0 && s0.download == NOT_STARTED;
    var a := CycleAcceptedStep(s0, accept);
    assert a.signals == [] && a.subscriptions == s0.subscriptions && a.calls == [CycleRequest];
    assert a.status == ACCEPTED && !a.disposed && a.liveReports == 0 && a.download == NOT_STARTED;
    SentReportsSingle(CycleRequest);
    SentReportsSingle(DownloadStarted("worker-1", accept.requestKey));
    SentReportsConcat([CycleRequest], [DownloadStarted("worker-1", accept.requestKey)]);
  }

  /**
   * Accepted, downloaded (the second request starts nothing), then the
   * battery check fails at `report`: the subscriber gets
   * BatteryConstraintsFailure, no report is sent and the later `dispose`
   * adds no Complete.
   */
  lemma BatteryFailureScenario(client: Domain.CommunicationApi, accept: CycleAccept, diff: SyftState)
    ensures
      var s1 := DownloadDataStep(CycleAcceptedStep(StartStep(InitialState(), Subscriber(0)), accept), "worker-1", accept);
      var s2 := DisposeStep(ReportStep(DownloadDataStep(s1, "worker-1", accept), client, Some("worker-1"), true, false, diff));
      && s2.subscriptions == [Subscription(Subscriber(0), 0)]
      && s2.signals == [Error(BatteryConstraintsFailure)]
      && s2.disposed
      && SentReports(s2.calls) == 0
      && multiset(s2.calls)[DownloadStarted("worker-1", accept.requestKey)] == 1
  {
    var s1 := DownloadDataStep(CycleAcceptedStep(StartStep(InitialState(), Subscriber(0)), accept), "worker-1", accept);
    AcceptedAndDownloading(accept);
    assert DownloadDataStep(s1, "worker-1", accept) == s1;
    var r := ReportStep(s1, client, Some("worker-1"), true, false, diff);
    assert r == PublishErrorStep(s1.(calls := s1.calls + [NetworkQuery, BatteryQuery]), BatteryConstraintsFailure);
    assert r.signals == [Error(BatteryConstraintsFailure)] && r.disposed;
    assert r.calls == s1.calls + [NetworkQuery, BatteryQuery];
    ReportSendsAtMostOne(s1, client, Some("worker-1"), true, false, diff);
    assert DisposeStep(r) == r;
  }

  /**
   * A status answer to a live report on a job whose stream is still empty
   * completes the stream; the following `dispose` adds nothing and a later
   * `start` is refused with RunningDisposedJob.
   */
  lemma AnsweredThenDisposed(s: JobState, late: Subscriber)
    requires s.signals == [] && !s.disposed && s.liveReports > 0 && s.status == ACCEPTED
    ensures
      var r := StartStep(DisposeStep(ReportResponseStep(s, ReportResponse(Some("ok"), None))), late);
      && r.signals == [Complete] && r.subscriptions == s.subscriptions
      && r.disposed && r.liveReports == 0
      && r.calls == s.calls + [SubscriberOnError(late, RunningDisposedJob)]
  {
    var r := ReportResponseStep(s, ReportResponse(Some("ok"), None));
    assert r.signals == [Complete] && !r.disposed && r.calls == s.calls && r.status == ACCEPTED;
    assert r == s.(liveReports := s.liveReports - 1, signals := [Complete]);
    var d := DisposeStep(r);
    assert d == r.(liveReports := 0, disposed := true);
  }

  /** With both checks passing and both ids known, the first `report` sends exactly one report. */
  lemma ReportedOnce(client: Domain.CommunicationApi, accept: CycleAccept, diff: SyftState)
    requires accept.requestKey != ""
    ensures
      var s1 := DownloadDataStep(CycleAcceptedStep(StartStep(InitialState(), Subscriber(0)), accept), "worker-1", accept);
      var s2 := ReportStep(s1, client, Some("worker-1"), true, true, diff);
      && s2.signals == [] && s2.subscriptions == [Subscription(Subscriber(0), 0)]
      && !s2.disposed && s2.status == ACCEPTED && s2.liveReports == 1
      && SentReports(s2.calls) == 1
  {
    var s1 := DownloadDataStep(CycleAcceptedStep(StartStep(InitialState(), Subscriber(0)), accept), "worker-1", accept);
    AcceptedAndDownloading(accept);
    assert CanSendReport(s1, Some("worker-1"));
    ReportSendsAtMostOne(s1, client, Some("worker-1"), true, true, diff);
  }

  /**
   * The whole cycle: accepted with a request key, downloaded, one report
   * sent, a status answer that completes the stream, a final `dispose` that
   * emits nothing more, and a `start` after disposal that is refused.
   */
  lemma CompletedCycleScenario(client: Domain.CommunicationApi, accept: CycleAccept, diff: SyftState)
    requires accept.requestKey != ""
    ensures
      var s1 := DownloadDataStep(CycleAcceptedStep(StartStep(InitialState(), Subscriber(0)), accept), "worker-1", accept);
      var s2 := ReportStep(s1, client, Some("worker-1"), true, true, diff);
      var s3 := StartStep(DisposeStep(ReportResponseStep(s2, ReportResponse(Some("ok"), None))), Subscriber(1));
      && s3.subscriptions == [Subscription(Subscriber(0), 0)]
      && s3.signals == [Complete]
      && s3.disposed && s3.liveReports == 0
      && SentReports(s3.calls) == 1
      && s3.calls == s2.calls + [SubscriberOnError(Subscriber(1), RunningDisposedJob)]
  {
    var s1 := DownloadDataStep(CycleAcceptedStep(StartStep(InitialState(), Subscriber(0)), accept), "worker-1", accept);
    var s2 := ReportStep(s1, client, Some("worker-1"), true, true, diff);
    ReportedOnce(client, accept, diff);
    AnsweredThenDisposed(s2, Subscriber(1));
    var s3 := StartStep(DisposeStep(ReportResponseStep(s2, ReportResponse(Some("ok"), None))), Subscriber(1));
    SentReportsConcat(s2.calls, [SubscriberOnError(Subscriber(1), RunningDisposedJob)]);
    SentReportsSingle(SubscriberOnError(Subscriber(1), RunningDisposedJob));
  }
}

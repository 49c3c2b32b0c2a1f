/**
 * The drift-remediation handler (lambda/index.py `handler`, lines 29-85).
 *
 * `Handler` is the handler itself: it inspects the event, issues its requests
 * against a `TrailApi.Client` one after another and appends an action tag
 * after each request that succeeds. `Remediate` specifies it in two layers:
 * `Plan` says which requests an event name calls for and in which order, and
 * `Run` says what the exception handling makes of a plan when some request
 * raises.
 */
module Remediation {
  import opened Json
  import opened Settings
  import opened TrailApi

  const CLOUDTRAIL_SOURCE := "cloudtrail.amazonaws.com"
  const TRAIL_NAME_EMPTY := "TRAIL_NAME env var is empty"
  const NOT_CLOUDTRAIL := "not cloudtrail"

  const STOP_LOGGING := "StopLogging"
  const DELETE_TRAIL := "DeleteTrail"
  /** The event names after which the baseline settings are re-applied. */
  const REAPPLY_NAMES: set<string> := {"UpdateTrail", "PutEventSelectors", "PutInsightSelectors"}

  const TAG_START_LOGGING := "start_logging"
  const TAG_UPDATE_TRAIL := "update_trail"
  const TAG_PUT_EVENT_SELECTORS := "put_event_selectors"
  const TAG_START_LOGGING_AFTER_UPDATE := "start_logging_after_update"
  const TAG_TRAIL_DELETED := "trail_deleted_no_auto_fix"

  /** Management events only, read and write; no data events. */
  const BASE_EVENT_SELECTORS: seq<map<string, Value>> :=
    [map["ReadWriteType" := JStr("All"), "IncludeManagementEvents" := JBool(true)]]

  /** What went wrong: a request the service rejected, `in` on a list or dict, `.get` on a non-dict. */
  datatype Fault = ServiceError | UnhashableName | NotAMapping

  /** The dict the handler returns, or an exception that escapes it. */
  datatype Response =
    | Rejected(message: string)                                     // {"ok": False, "error": ...}
    | Ignored(reason: string)                                      // {"ok": True, "ignored": True, "reason": ...}
    | Completed(eventName: Value, actions: seq<string>)            // {"ok": True, "eventName": ..., "actions": ...}
    | Failed(eventName: Value, actions: seq<string>, error: Fault)  // {"ok": False, "eventName": ..., "actions": ..., "error": ...}
    | Raised(fault: Fault)                                         // the exception leaves the handler
  {
    /** The "ok" field of the returned dict. */
    predicate Ok()
    {
      Ignored? || Completed?
    }
  }

  /**
   * `event.get("detail", {}) or {}`: a missing or falsy detail reads as the
   * empty dict; None when `.get` is called on something that is not a dict.
   */
  function DetailOf(event: Value): (detail: Option<map<string, Value>>)
    ensures detail.None? <==>
              || !event.JObj?
              || ("detail" in event.fields && Truthy(event.fields["detail"]) && !event.fields["detail"].JObj?)
    ensures detail.Some? ==>
              detail.value == if "detail" in event.fields && event.fields["detail"].JObj?
                              then event.fields["detail"].fields else map[]
  {
    match event
    case JObj(fields) =>
      var d := if "detail" in fields then fields["detail"] else JObj(map[]);
      if !Truthy(d) then Some(map[])
      else if d.JObj? then Some(d.fields)
      else None
    case _ => None
  }

  /** The event's detail says it comes from CloudTrail and names `name` as the API call. */
  predicate FromCloudTrail(event: Value, name: Value)
  {
    var detail := DetailOf(event);
    && detail.Some?
    && Get(detail.value, "eventSource") == JStr(CLOUDTRAIL_SOURCE)
    && Get(detail.value, "eventName") == name
  }

  /**
   * The arguments of `update_trail`: global service events, log file
   * validation and the configured multi-region flag, plus the bucket and the
   * key exactly when they are set.
   */
  function UpdateTrailArgs(config: Config): (request: UpdateTrailRequest)
    ensures request.name == config.trailName
    ensures request.includeGlobalServiceEvents && request.enableLogFileValidation
    ensures request.isMultiRegionTrail == config.isMultiRegion
    ensures request.s3BucketName.Some? <==> IsSet(config.logBucketName)
    ensures request.s3BucketName.Some? ==> request.s3BucketName == config.logBucketName
    ensures request.kmsKeyId.Some? <==> IsSet(config.kmsKeyId)
    ensures request.kmsKeyId.Some? ==> request.kmsKeyId == config.kmsKeyId
  {
    UpdateTrailRequest(
      config.trailName, true, config.isMultiRegion, true,
      if IsSet(config.logBucketName) then config.logBucketName else None,
      if IsSet(config.kmsKeyId) then config.kmsKeyId else None)
  }

  /** One step of a remediation: a request followed by its tag, a tag alone, or the TypeError of an `in` test on an unhashable name. */
  datatype Step =
    | Invoke(call: Call, tag: string)
    | Note(tag: string)
    | Throw

  /** The event names any of the three checks reacts to. */
  predicate Remediated(name: Value)
  {
    name.JStr? && (name.s == STOP_LOGGING || name.s in REAPPLY_NAMES || name.s == DELETE_TRAIL)
  }

  /** The three requests that re-apply the baseline, in order. */
  function ReapplySteps(config: Config): seq<Step>
  {
    [ Invoke(UpdateTrailCall(UpdateTrailArgs(config)), TAG_UPDATE_TRAIL),
      Invoke(PutEventSelectorsCall(config.trailName, BASE_EVENT_SELECTORS), TAG_PUT_EVENT_SELECTORS),
      Invoke(StartLoggingCall(config.trailName), TAG_START_LOGGING_AFTER_UPDATE) ]
  }

  /**
   * The steps an event name calls for: three independent checks, in the
   * order of the source. The `in` test of the second check raises on a list
   * or a dict.
   */
  function Plan(config: Config, name: Value): (steps: seq<Step>)
    ensures name == JStr(STOP_LOGGING) ==>
              steps == [Invoke(StartLoggingCall(config.trailName), TAG_START_LOGGING)]
    ensures name.JStr? && name.s in REAPPLY_NAMES ==> steps == ReapplySteps(config)
    ensures name == JStr(DELETE_TRAIL) ==> steps == [Note(TAG_TRAIL_DELETED)]
    ensures !Hashable(name) ==> steps == [Throw]
    ensures Hashable(name) && !Remediated(name) ==> steps == []
  {
    (if name == JStr(STOP_LOGGING)
     then [Invoke(StartLoggingCall(config.trailName), TAG_START_LOGGING)] else [])
    + (if !Hashable(name) then [Throw]
       else if name.JStr? && name.s in REAPPLY_NAMES then ReapplySteps(config) else [])
    + (if name == JStr(DELETE_TRAIL) then [Note(TAG_TRAIL_DELETED)] else [])
  }

  /** The requests among `steps`, in order. */
  function CallsOf(steps: seq<Step>): seq<Call>
  {
    if steps == [] then []
    else (if steps[0].Invoke? then [steps[0].call] else []) + CallsOf(steps[1..])
  }

  /** The action tags among `steps`, in order. */
  function TagsOf(steps: seq<Step>): seq<string>
  {
    if steps == [] then []
    else (if steps[0].Throw? then [] else [steps[0].tag]) + TagsOf(steps[1..])
  }

  /** What running some steps produced: the requests issued, the tags recorded, and the fault that stopped it. */
  datatype Trace = Trace(calls: seq<Call>, actions: seq<string>, fault: Option<Fault>)

  /**
   * Runs `steps` against a service that rejects the requests at the
   * positions in `failing`, `issued` requests having gone before. A tag is
   * recorded only once its request succeeded; the first rejected request or
   * exception ends the run.
   */
  function Run(steps: seq<Step>, failing: set<nat>, issued: nat): Trace
  {
    if steps == [] then Trace([], [], None)
    else match steps[0]
      case Invoke(call, tag) =>
        if issued in failing then Trace([call], [], Some(ServiceError))
        else
          var rest := Run(steps[1..], failing, issued + 1);
          Trace([call] + rest.calls, [tag] + rest.actions, rest.fault)
      case Note(tag) =>
        var rest := Run(steps[1..], failing, issued);
        Trace(rest.calls, [tag] + rest.actions, rest.fault)
      case Throw => Trace([], [], Some(UnhashableName))
  }

  /** The handler's response together with the requests it issued. */
  datatype Outcome = Outcome(response: Response, calls: seq<Call>)

  /** The specification of `Handler`. */
  function Remediate(config: Config, event: Value, failing: set<nat>, issued: nat): Outcome
  {
    if config.trailName == "" then Outcome(Rejected(TRAIL_NAME_EMPTY), [])
    else match DetailOf(event)
      case None => Outcome(Raised(NotAMapping), [])
      case Some(detail) =>
        if Get(detail, "eventSource") != JStr(CLOUDTRAIL_SOURCE) then Outcome(Ignored(NOT_CLOUDTRAIL), [])
        else
          var name := Get(detail, "eventName");
          var trace := Run(Plan(config, name), failing, issued);
          var response := match trace.fault
            case None => Completed(name, trace.actions)
            case Some(fault) => Failed(name, trace.actions, fault);
          Outcome(response, trace.calls)
  }

  /**
   * Step `j` of `steps` ends the run: it raises, or it is a request at a
   * position the service rejects.
   */
  predicate Aborts(steps: seq<Step>, j: nat, failing: set<nat>, issued: nat)
    requires j < |steps|
  {
    steps[j].Throw? || (steps[j].Invoke? && issued + |CallsOf(steps[..j])| in failing)
  }

  /** The fault a step that ends the run reports. */
  function FaultOf(step: Step): Fault
  {
    if step.Throw? then UnhashableName else ServiceError
  }

  lemma PrefixSplit(steps: seq<Step>, n: nat)
    requires 0 < n <= |steps|
    ensures CallsOf(steps[..n]) == CallsOf(steps[..1]) + CallsOf(steps[1..][..n - 1])
    ensures TagsOf(steps[..n]) == TagsOf(steps[..1]) + TagsOf(steps[1..][..n - 1])
    ensures CallsOf(steps[..1]) == if steps[0].Invoke? then [steps[0].call] else []
    ensures TagsOf(steps[..1]) == if steps[0].Throw? then [] else [steps[0].tag]
  {
    assert steps[..n][1..] == steps[1..][..n - 1];
    assert steps[..1][1..] == [];
  }

  /** Aborting at `j + 1` in `steps` is aborting at `j` in its tail, once the head request is counted. */
  lemma AbortsInTail(steps: seq<Step>, j: nat, failing: set<nat>, issued: nat)
    requires j + 1 < |steps|
    ensures Aborts(steps, j + 1, failing, issued) <==>
              Aborts(steps[1..], j, failing, issued + |CallsOf(steps[..1])|)
  {
    PrefixSplit(steps, j + 1);
  }

  /**
   * A first step that does not end the run contributes its request and its
   * tag in front of the rest. Dafny can prove this unaided; the two hints in
   * the body cut the cost of the proof to about a fifth.
   */
  lemma RunHead(steps: seq<Step>, failing: set<nat>, issued: nat)
    requires steps != [] && !Aborts(steps, 0, failing, issued)
    ensures var rest := Run(steps[1..], failing, issued + |CallsOf(steps[..1])|);
            Run(steps, failing, issued) ==
              Trace(CallsOf(steps[..1]) + rest.calls, TagsOf(steps[..1]) + rest.actions, rest.fault)
  {
    PrefixSplit(steps, 1);
    assert steps[..0] == [];
  }

  /** With no step ending it, a run issues every request and records every tag. */
  lemma {:induction false} RunCompletes(steps: seq<Step>, failing: set<nat>, issued: nat)
    requires forall j :: 0 <= j < |steps| ==> !Aborts(steps, j, failing, issued)
    ensures Run(steps, failing, issued) == Trace(CallsOf(steps), TagsOf(steps), None)
  {
    if steps != [] {
      assert !Aborts(steps, 0, failing, issued);
      RunHead(steps, failing, issued);
      var next := issued + |CallsOf(steps[..1])|;
      forall j | 0 <= j < |steps| - 1
        ensures !Aborts(steps[1..], j, failing, next)
      {
        assert !Aborts(steps, j + 1, failing, issued);
        AbortsInTail(steps, j, failing, issued);
      }
      RunCompletes(steps[1..], failing, next);
      PrefixSplit(steps, |steps|);
      assert steps[..|steps|] == steps;
      assert steps[1..][..|steps| - 1] == steps[1..];
    }
  }

  /** The step that ends a run, when it is the first one. */
  lemma RunAbortsFirst(steps: seq<Step>, failing: set<nat>, issued: nat)
    requires steps != [] && Aborts(steps, 0, failing, issued)
    ensures Run(steps, failing, issued) == Trace(CallsOf(steps[..1]), [], Some(FaultOf(steps[0])))
  {
  }

  /**
   * A run that step `k` ends is the run of the steps before it: the requests
   * up to and including the one that failed, and the tags of the steps that
   * completed.
   */
  lemma {:induction false} RunAbortsAt(steps: seq<Step>, failing: set<nat>, issued: nat, k: nat)
    requires k < |steps|
    requires forall j :: 0 <= j < k ==> !Aborts(steps, j, failing, issued)
    requires Aborts(steps, k, failing, issued)
    ensures Run(steps, failing, issued) ==
              Trace(CallsOf(steps[..k + 1]), TagsOf(steps[..k]), Some(FaultOf(steps[k])))
  {
    if k == 0 {
      RunAbortsFirst(steps, failing, issued);
      assert steps[..0] == [];
    } else {
      assert !Aborts(steps, 0, failing, issued);
      RunHead(steps, failing, issued);
      var next := issued + |CallsOf(steps[..1])|;
      forall j | 0 <= j < k - 1
        ensures !Aborts(steps[1..], j, failing, next)
      {
        assert !Aborts(steps, j + 1, failing, issued);
        AbortsInTail(steps, j, failing, issued);
      }
      AbortsInTail(steps, k - 1, failing, issued);
      RunAbortsAt(steps[1..], failing, next, k - 1);
      PrefixSplit(steps, k + 1);
      PrefixSplit(steps, k);
    }
  }

  /** No position in `from .. from + n - 1` is one the service rejects. */
  predicate NoneRejected(failing: set<nat>, from: nat, n: nat)
  {
    forall p :: from <= p < from + n ==> p !in failing
  }

  /**
   * A request the service rejects is the last one issued, and every request
   * before it was accepted; when no request was rejected, all were accepted.
   */
  lemma {:induction false} RejectedRequestIsLast(steps: seq<Step>, failing: set<nat>, issued: nat)
    ensures var t := Run(steps, failing, issued);
            if t.fault == Some(ServiceError)
            then t.calls != [] && issued + |t.calls| - 1 in failing && NoneRejected(failing, issued, |t.calls| - 1)
            else NoneRejected(failing, issued, |t.calls|)
  {
    if steps != [] {
      var next := if steps[0].Invoke? then issued + 1 else issued;
      RejectedRequestIsLast(steps[1..], failing, next);
    }
  }

  /** Requests only: every step contributes its request and its tag. */
  lemma {:induction false} InvokesOnly(steps: seq<Step>)
    requires forall i :: 0 <= i < |steps| ==> steps[i].Invoke?
    ensures |CallsOf(steps)| == |steps| && |TagsOf(steps)| == |steps|
    ensures forall i :: 0 <= i < |steps| ==> CallsOf(steps)[i] == steps[i].call
    ensures forall i :: 0 <= i < |steps| ==> TagsOf(steps)[i] == steps[i].tag
  {
    if steps != [] {
      InvokesOnly(steps[1..]);
    }
  }

  /** The requests that re-apply the baseline: update_trail, put_event_selectors, start_logging. */
  function BaselineRequests(config: Config): seq<Call>
  {
    [ UpdateTrailCall(UpdateTrailArgs(config)),
      PutEventSelectorsCall(config.trailName, BASE_EVENT_SELECTORS),
      StartLoggingCall(config.trailName) ]
  }

  const BASELINE_TAGS := [TAG_UPDATE_TRAIL, TAG_PUT_EVENT_SELECTORS, TAG_START_LOGGING_AFTER_UPDATE]

  /** For a CloudTrail event, the outcome is the run of the plan for its name. */
  lemma RemediateRunsPlan(config: Config, event: Value, name: Value, failing: set<nat>, issued: nat)
    requires config.trailName != "" && FromCloudTrail(event, name)
    ensures var t := Run(Plan(config, name), failing, issued);
            Remediate(config, event, failing, issued) ==
              Outcome(if t.fault.None? then Completed(name, t.actions) else Failed(name, t.actions, t.fault.value),
                      t.calls)
  {
  }

  /** The run of the StopLogging plan: one start_logging request, tagged once it succeeds. */
  lemma StopLoggingRun(config: Config, failing: set<nat>, issued: nat)
    ensures Run(Plan(config, JStr(STOP_LOGGING)), failing, issued) ==
              if issued in failing then Trace([StartLoggingCall(config.trailName)], [], Some(ServiceError))
              else Trace([StartLoggingCall(config.trailName)], [TAG_START_LOGGING], None)
  {
  }

  /** The first `n` steps of the baseline re-application are its first `n` requests and tags. */
  lemma ReapplyPrefix(config: Config, n: nat)
    requires n <= 3
    ensures CallsOf(ReapplySteps(config)[..n]) == BaselineRequests(config)[..n]
    ensures TagsOf(ReapplySteps(config)[..n]) == BASELINE_TAGS[..n]
  {
    InvokesOnly(ReapplySteps(config)[..n]);
  }

  /** Step `j` of the baseline re-application ends the run exactly when request `j` is rejected. */
  lemma ReapplyAborts(config: Config, failing: set<nat>, issued: nat, j: nat)
    requires j < 3
    ensures Aborts(ReapplySteps(config), j, failing, issued) <==> issued + j in failing
  {
    ReapplyPrefix(config, j);
  }

  /** The run of the re-application when all three requests are accepted. */
  lemma ReapplyRunCompletes(config: Config, failing: set<nat>, issued: nat)
    requires NoneRejected(failing, issued, 3)
    ensures Run(ReapplySteps(config), failing, issued) == Trace(BaselineRequests(config), BASELINE_TAGS, None)
  {
    var steps := ReapplySteps(config);
    forall j | 0 <= j < 3 ensures !Aborts(steps, j, failing, issued) {
      ReapplyAborts(config, failing, issued, j);
    }
    RunCompletes(steps, failing, issued);
    ReapplyPrefix(config, 3);
    assert steps[..3] == steps;
    assert BaselineRequests(config)[..3] == BaselineRequests(config);
    assert BASELINE_TAGS[..3] == BASELINE_TAGS;
  }

  /** The run of the re-application when request `k` is the first one rejected. */
  lemma ReapplyRunStops(config: Config, failing: set<nat>, issued: nat, k: nat)
    requires k < 3 && issued + k in failing && NoneRejected(failing, issued, k)
    ensures Run(ReapplySteps(config), failing, issued) ==
              Trace(BaselineRequests(config)[..k + 1], BASELINE_TAGS[..k], Some(ServiceError))
  {
    var steps := ReapplySteps(config);
    forall j | 0 <= j < k ensures !Aborts(steps, j, failing, issued) {
      ReapplyAborts(config, failing, issued, j);
    }
    ReapplyAborts(config, failing, issued, k);
    RunAbortsAt(steps, failing, issued, k);
    ReapplyPrefix(config, k);
    ReapplyPrefix(config, k + 1);
  }

  /** The run of the DeleteTrail plan: no request, one tag. */
  lemma DeleteTrailRun(config: Config, failing: set<nat>, issued: nat)
    ensures Run(Plan(config, JStr(DELETE_TRAIL)), failing, issued) == Trace([], [TAG_TRAIL_DELETED], None)
  {
  }
}

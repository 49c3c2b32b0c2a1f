/**
 * What the handler promises, event by event, stated about its specification
 * `Remediation.Remediate`: which requests are issued in which order, which
 * action tags are returned, and how a rejected request ends the remediation
 * with the actions completed so far.
 */
module RemediationProperties {
  import opened Json
  import opened Settings
  import opened TrailApi
  import opened Remediation

  /** The event name in the detail of an event whose `.get` calls succeed. */
  function EventName(event: Value): Value
    requires DetailOf(event).Some?
  {
    Get(DetailOf(event).value, "eventName")
  }

  /** The selector list sent is one management-events selector for all reads and writes, without data resources. */
  lemma BaseSelectorsAreManagementOnly()
    ensures |BASE_EVENT_SELECTORS| == 1
    ensures BASE_EVENT_SELECTORS[0].Keys == {"ReadWriteType", "IncludeManagementEvents"}
    ensures BASE_EVENT_SELECTORS[0]["ReadWriteType"] == JStr("All")
    ensures BASE_EVENT_SELECTORS[0]["IncludeManagementEvents"] == JBool(true)
    ensures "DataResources" !in BASE_EVENT_SELECTORS[0]
  {
  }

  /** An empty trail name is a configuration error whatever the event, and nothing is issued. */
  lemma EmptyTrailNameIsRejected(config: Config, event: Value, failing: set<nat>, issued: nat)
    requires config.trailName == ""
    ensures Remediate(config, event, failing, issued) == Outcome(Rejected(TRAIL_NAME_EMPTY), [])
    ensures !Remediate(config, event, failing, issued).response.Ok()
  {
  }

  /** An event whose source is not CloudTrail is ignored without any request. */
  lemma OtherSourceIsIgnored(config: Config, event: Value, failing: set<nat>, issued: nat)
    requires config.trailName != ""
    requires DetailOf(event).Some? && Get(DetailOf(event).value, "eventSource") != JStr(CLOUDTRAIL_SOURCE)
    ensures Remediate(config, event, failing, issued) == Outcome(Ignored(NOT_CLOUDTRAIL), [])
    ensures Remediate(config, event, failing, issued).response.Ok()
  {
  }

  /** A missing, null or otherwise empty detail reads as an empty dict, so the event is ignored. */
  lemma MissingDetailIsIgnored(config: Config, fields: map<string, Value>, failing: set<nat>, issued: nat)
    requires config.trailName != ""
    requires "detail" !in fields || !Truthy(fields["detail"])
    ensures Remediate(config, JObj(fields), failing, issued) == Outcome(Ignored(NOT_CLOUDTRAIL), [])
  {
  }

  /** StopLogging: one start_logging request for the trail, tagged "start_logging" once it succeeds. */
  lemma StopLoggingRestartsLogging(config: Config, event: Value, failing: set<nat>, issued: nat)
    requires config.trailName != "" && FromCloudTrail(event, JStr(STOP_LOGGING))
    ensures Remediate(config, event, failing, issued) ==
              Outcome(
                if issued in failing then Failed(JStr(STOP_LOGGING), [], ServiceError)
                else Completed(JStr(STOP_LOGGING), [TAG_START_LOGGING]),
                [StartLoggingCall(config.trailName)])
  {
    RemediateRunsPlan(config, event, JStr(STOP_LOGGING), failing, issued);
    StopLoggingRun(config, failing, issued);
  }

  /**
   * UpdateTrail, PutEventSelectors, PutInsightSelectors: update_trail, then
   * put_event_selectors, then start_logging, each tagged once it succeeds.
   */
  lemma ReapplyRestoresBaseline(config: Config, event: Value, name: string, failing: set<nat>, issued: nat)
    requires config.trailName != "" && FromCloudTrail(event, JStr(name)) && name in REAPPLY_NAMES
    requires NoneRejected(failing, issued, 3)
    ensures Remediate(config, event, failing, issued) ==
              Outcome(Completed(JStr(name), BASELINE_TAGS), BaselineRequests(config))
  {
    RemediateRunsPlan(config, event, JStr(name), failing, issued);
    ReapplyRunCompletes(config, failing, issued);
  }

  /**
   * When request `k` of the re-application is the first one rejected, the
   * later requests are never issued and the failure reports the tags of the
   * `k` requests that succeeded.
   */
  lemma ReapplyStopsAtRejection(
    config: Config, event: Value, name: string, failing: set<nat>, issued: nat, k: nat)
    requires config.trailName != "" && FromCloudTrail(event, JStr(name)) && name in REAPPLY_NAMES
    requires k < 3 && issued + k in failing && NoneRejected(failing, issued, k)
    ensures Remediate(config, event, failing, issued) ==
              Outcome(Failed(JStr(name), BASELINE_TAGS[..k], ServiceError), BaselineRequests(config)[..k + 1])
  {
    RemediateRunsPlan(config, event, JStr(name), failing, issued);
    ReapplyRunStops(config, failing, issued, k);
  }

  /** DeleteTrail: no request, only the "trail_deleted_no_auto_fix" tag. */
  lemma DeleteTrailNeedsManualFix(config: Config, event: Value, failing: set<nat>, issued: nat)
    requires config.trailName != "" && FromCloudTrail(event, JStr(DELETE_TRAIL))
    ensures Remediate(config, event, failing, issued) ==
              Outcome(Completed(JStr(DELETE_TRAIL), [TAG_TRAIL_DELETED]), [])
  {
    RemediateRunsPlan(config, event, JStr(DELETE_TRAIL), failing, issued);
    DeleteTrailRun(config, failing, issued);
  }

  /** Any other event name from CloudTrail succeeds with no action and no request. */
  lemma OtherNameIsNoOp(config: Config, event: Value, name: Value, failing: set<nat>, issued: nat)
    requires config.trailName != "" && FromCloudTrail(event, name)
    requires Hashable(name) && !Remediated(name)
    ensures Remediate(config, event, failing, issued) == Outcome(Completed(name, []), [])
  {
  }

  /** A list or dict as the event name makes the membership test raise before any request. */
  lemma UnhashableNameFails(config: Config, event: Value, name: Value, failing: set<nat>, issued: nat)
    requires config.trailName != "" && FromCloudTrail(event, name)
    requires !Hashable(name)
    ensures Remediate(config, event, failing, issued) == Outcome(Failed(name, [], UnhashableName), [])
  {
  }

  /**
   * Every request goes to the configured trail, sends the baseline settings,
   * and only a CloudTrail event with a remediated name issues any; at most
   * three are issued.
   */
  lemma RequestsAreBaselineOnly(config: Config, event: Value, failing: set<nat>, issued: nat)
    ensures var o := Remediate(config, event, failing, issued);
            && |o.calls| <= 3
            && (o.calls != [] ==>
                  && config.trailName != "" && DetailOf(event).Some?
                  && FromCloudTrail(event, EventName(event)) && Remediated(EventName(event)))
            && (forall c :: c in o.calls ==> c in BaselineRequests(config))
  {
    var o := Remediate(config, event, failing, issued);
    if config.trailName != "" && DetailOf(event).Some? && FromCloudTrail(event, EventName(event)) {
      var name := EventName(event);
      if name == JStr(STOP_LOGGING) {
        StopLoggingRestartsLogging(config, event, failing, issued);
        assert BaselineRequests(config)[2] == StartLoggingCall(config.trailName);
      } else if !Hashable(name) {
        UnhashableNameFails(config, event, name, failing, issued);
      } else if name.JStr? && name.s in REAPPLY_NAMES {
        if NoneRejected(failing, issued, 3) {
          ReapplyRestoresBaseline(config, event, name.s, failing, issued);
        } else {
          var k := FirstRejected(failing, issued, 3);
          ReapplyStopsAtRejection(config, event, name.s, failing, issued, k);
        }
      } else if name == JStr(DELETE_TRAIL) {
        DeleteTrailNeedsManualFix(config, event, failing, issued);
      } else {
        OtherNameIsNoOp(config, event, name, failing, issued);
      }
    }
  }

  /** The first of `n` positions from `from` that the service rejects. */
  lemma FirstRejected(failing: set<nat>, from: nat, n: nat) returns (k: nat)
    requires !NoneRejected(failing, from, n)
    ensures k < n && from + k in failing && NoneRejected(failing, from, k)
  {
    k := 0;
    while from + k !in failing
      invariant k < n && NoneRejected(failing, from, k)
      decreases n - k
    {
      k := k + 1;
    }
  }

  /**
   * An UpdateTrail event whose put_event_selectors request (the second one
   * issued) is rejected reports only "update_trail", and start_logging is
   * never issued.
   */
  lemma SelectorFailureExample(config: Config)
    requires config.trailName != ""
    ensures var event := JObj(map["detail" := JObj(map[
                                   "eventSource" := JStr(CLOUDTRAIL_SOURCE),
                                   "eventName" := JStr("UpdateTrail")])]);
            Remediate(config, event, {1}, 0) ==
              Outcome(Failed(JStr("UpdateTrail"), [TAG_UPDATE_TRAIL], ServiceError),
                      [UpdateTrailCall(UpdateTrailArgs(config)), PutEventSelectorsCall(config.trailName, BASE_EVENT_SELECTORS)])
  {
    var event := JObj(map["detail" := JObj(map[
                          "eventSource" := JStr(CLOUDTRAIL_SOURCE),
                          "eventName" := JStr("UpdateTrail")])]);
    ReapplyStopsAtRejection(config, event, "UpdateTrail", {1}, 0, 1);
    assert BASELINE_TAGS[..1] == [TAG_UPDATE_TRAIL];
    assert BaselineRequests(config)[..2] ==
             [UpdateTrailCall(UpdateTrailArgs(config)), PutEventSelectorsCall(config.trailName, BASE_EVENT_SELECTORS)];
  }
}

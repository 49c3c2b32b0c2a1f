/**
 * The handler as the Lambda runs it (lambda/index.py lines 29-85): it builds
 * its list of actions and the `update_trail` arguments step by step and
 * issues its requests one after another against the client, stopping at the
 * first one that raises. The contracts tie the response and the client's
 * request log to `Remediation.Remediate` (and the `try` block to
 * `Remediation.Run` of `Remediation.Plan`), whose properties
 * `RemediationProperties` proves.
 */
module Handler {
  import opened Json
  import opened Settings
  import opened TrailApi
  import opened Remediation

  /**
   * The `update_kwargs` dict of lines 58-67: the baseline flags first, then
   * the bucket and the key added when they are set.
   */
  method UpdateKwargs(config: Config) returns (request: UpdateTrailRequest)
    ensures request == UpdateTrailArgs(config)
  {
    request := UpdateTrailRequest(config.trailName, true, config.isMultiRegion, true, None, None);
    if IsSet(config.logBucketName) {
      request := request.(s3BucketName := Some(config.logBucketName.value));
    }
    if IsSet(config.kmsKeyId) {
      request := request.(kmsKeyId := Some(config.kmsKeyId.value));
    }
  }

  /**
   * Lines 57-76: update_trail, put_event_selectors and start_logging in this
   * order, each tag appended once its request returned; `fault` is set when a
   * request raised, and nothing after it is issued.
   */
  method ReapplyBaseline(config: Config, client: Client) returns (actions: seq<string>, fault: Option<Fault>)
    modifies client
    ensures var trace := Run(ReapplySteps(config), client.failing, |old(client.log)|);
            && client.log == old(client.log) + trace.calls
            && actions == trace.actions
            && fault == trace.fault
  {
    ghost var issued := |client.log|;
    ghost var failing := client.failing;
    actions := [];
    var request := UpdateKwargs(config);

    var ok := client.UpdateTrail(request);
    if !ok {
      ReapplyRunStops(config, failing, issued, 0);
      return actions, Some(ServiceError);
    }
    actions := actions + [TAG_UPDATE_TRAIL];

    ok := client.PutEventSelectors(config.trailName, BASE_EVENT_SELECTORS);
    if !ok {
      ReapplyRunStops(config, failing, issued, 1);
      return actions, Some(ServiceError);
    }
    actions := actions + [TAG_PUT_EVENT_SELECTORS];

    ok := client.StartLogging(config.trailName);
    if !ok {
      ReapplyRunStops(config, failing, issued, 2);
      return actions, Some(ServiceError);
    }
    actions := actions + [TAG_START_LOGGING_AFTER_UPDATE];
    ReapplyRunCompletes(config, failing, issued);
    fault := None;
  }

  /**
   * The `try` block of lines 52-80: the three independent checks on the
   * event name, each request followed by its tag; `fault` is the exception
   * that ended the block, if any, and `actions` the tags appended before it.
   */
  method ApplyRemediation(config: Config, eventName: Value, client: Client)
    returns (actions: seq<string>, fault: Option<Fault>)
    modifies client
    ensures var trace := Run(Plan(config, eventName), client.failing, |old(client.log)|);
            && client.log == old(client.log) + trace.calls
            && actions == trace.actions
            && fault == trace.fault
  {
    ghost var issued := |client.log|;
    ghost var failing := client.failing;
    actions := [];
    var ok: bool;

    if eventName == JStr(STOP_LOGGING) {
      StopLoggingRun(config, failing, issued);
      ok := client.StartLogging(config.trailName);
      if !ok {
        return actions, Some(ServiceError);
      }
      actions := actions + [TAG_START_LOGGING];
    }

    if !Hashable(eventName) {
      RunAbortsAt(Plan(config, eventName), failing, issued, 0);
      return actions, Some(UnhashableName);
    }

    if eventName.JStr? && eventName.s in REAPPLY_NAMES {
      var done, failure := ReapplyBaseline(config, client);
      actions := actions + done;
      if failure.Some? {
        return actions, failure;
      }
    }

    if eventName == JStr(DELETE_TRAIL) {
      DeleteTrailRun(config, failing, issued);
      actions := actions + [TAG_TRAIL_DELETED];
    }
    fault := None;
  }

  /** `handler(event, context)`, with the client `_ct_client()` would build passed in as `client`. */
  method Handle(config: Config, event: Value, client: Client) returns (response: Response)
    modifies client
    ensures response == Remediate(config, event, client.failing, |old(client.log)|).response
    ensures client.log == old(client.log) + Remediate(config, event, client.failing, |old(client.log)|).calls
  {
    if config.trailName == "" {
      return Rejected(TRAIL_NAME_EMPTY);
    }

    var detail := DetailOf(event);
    if detail.None? {
      return Raised(NotAMapping);
    }
    var eventSource := Get(detail.value, "eventSource");
    var eventName := Get(detail.value, "eventName");
    if eventSource != JStr(CLOUDTRAIL_SOURCE) {
      return Ignored(NOT_CLOUDTRAIL);
    }

    RemediateRunsPlan(config, event, eventName, client.failing, |client.log|);
    var actions, fault := ApplyRemediation(config, eventName, client);
    if fault.Some? {
      return Failed(eventName, actions, fault.value);
    }
    return Completed(eventName, actions);
  }
}

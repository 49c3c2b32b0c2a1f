# CloudTrail drift remediation, modelled in Dafny

This project models the Lambda handler that puts a CloudTrail trail back into
its baseline configuration. The handler lives in
`terraform/modules/remediation-cloudtrail/lambda/index.py`. It receives an
EventBridge change event, reads `detail.eventSource` and `detail.eventName`,
and reacts to the API call the event reports:

- `StopLogging`: restarts logging on the trail.
- `UpdateTrail`, `PutEventSelectors`, `PutInsightSelectors`: re-applies the
  baseline. It sends `update_trail` with the baseline flags, then
  `put_event_selectors` with the management-events-only selector, then
  `start_logging`.
- `DeleteTrail`: only records that a manual fix is needed.

An action tag is appended after each request succeeds. The first request that
raises ends the remediation. The handler then returns `ok: false` with the
tags recorded so far.

Files:

- `json.dfy` (module `Json`): the decoded event as a JSON value. It also holds
  the Python truthiness and hashability rules the handler depends on.
- `settings.dfy` (module `Settings`): the configuration derived from the
  environment at module load (lines 10-14).
- `trail_api.dfy` (module `TrailApi`): the CloudTrail client as a class. It
  keeps a log of every request issued and a set of log positions whose request
  the service rejects.
- `remediation.dfy` (module `Remediation`): the constants, plus the
  specification of the handler as a pure function `Remediate`.
  `Remediate` is built from two parts:
  - `Plan` chooses the steps for an event name. It uses three independent
    checks, not an `elif` chain.
  - `Run` gives the exception semantics of a list of steps: tag after success,
    stop at the first failure.
  The module also proves the run of each plan (StopLogging, the re-apply
  block, DeleteTrail) for every set of rejected requests.
- `properties.dfy` (module `RemediationProperties`): what the handler
  promises, event by event, proved about `Remediate`.
- `handler.dfy` (module `Handler`): the handler itself as imperative methods
  on a `TrailApi.Client`. Their contracts tie the response and the client's
  new request log to `Remediate`.

The configuration and the event are parameters. The service's behaviour is
the client's `failing` set: a request issued at log position `p` raises
exactly when `p` is in `failing`. A rejected request was still sent, so it
still appears in the log.

Exceptions and selectors, as `index.py` has them:

- An event that is not a dict, or a `detail` that is truthy but not a dict,
  makes `.get` raise `AttributeError` at lines 42-43. That is outside the
  `try`, so the exception leaves the handler. The model returns
  `Raised(NotAMapping)` for it.
- An event name that is a list or a dict makes the `in` test of line 57 raise
  `TypeError` inside the `try`. The model reports this as `Failed` with the
  actions recorded before it.
- The selectors sent are always the constant `BASE_EVENT_SELECTORS`. The file
  builds no data-event selectors (no S3 or Lambda ARN lists, no read/write
  mode), and neither does the model.

The property rows below are stated about these specification functions,
which carry no contract of their own:

- `Remediation.Remediate` is the whole handler, lines 29-85.
- `Remediation.Run` is the `try`/`except` semantics of lines 52-83.
- `Remediation.ReapplySteps` is the re-apply block, lines 57-76.
- `Json.Truthy` is the truthiness of a JSON value: `or {}` at line 42.
- `Settings.IsSet` is the truthiness of a `str | None`: `if LOG_BUCKET_NAME:`
  and `if KMS_KEY_ID:` at lines 64 and 66.
- `Json.Hashable` decides whether the `in` test of line 57 raises.
- `Json.Get` is `dict.get` at lines 43-44.
- `Settings.EnvGet` is `os.environ.get` at lines 10-14.

## Model

| member | source | states |
|---|---|---|
| Settings.Lower | terraform/modules/remediation-cloudtrail/lambda/index.py:12 | maps each ASCII capital A-Z to its lower-case letter and leaves every other character unchanged, one character for one |
| Settings.LowerIsTrue | terraform/modules/remediation-cloudtrail/lambda/index.py:12 | a string lowers to "true" exactly when it spells "true" in any mix of cases |
| Settings.ParseMultiRegion | terraform/modules/remediation-cloudtrail/lambda/index.py:12 | the multi-region flag is true iff the variable is unset or spells "true" case-insensitively |
| Settings.OrNone | terraform/modules/remediation-cloudtrail/lambda/index.py:13-14 | `or None` turns an empty value into absent and keeps a non-empty value unchanged |
| Settings.FromEnvironment | terraform/modules/remediation-cloudtrail/lambda/index.py:10-14 | the trail name defaults to ""; the multi-region flag defaults to true; the bucket and the key are present exactly when set to a non-empty value |
| TrailApi.Client.StartLogging | terraform/modules/remediation-cloudtrail/lambda/index.py:54 | one `start_logging` request is appended to the log, and it fails exactly when its position is rejected |
| TrailApi.Client.UpdateTrail | terraform/modules/remediation-cloudtrail/lambda/index.py:69 | one `update_trail` request with the given arguments is appended to the log, and it fails exactly when its position is rejected |
| TrailApi.Client.PutEventSelectors | terraform/modules/remediation-cloudtrail/lambda/index.py:72 | one `put_event_selectors` request is appended to the log, and it fails exactly when its position is rejected |
| Remediation.DetailOf | terraform/modules/remediation-cloudtrail/lambda/index.py:42 | a missing or falsy detail reads as `{}` and a dict detail as itself; `.get` fails exactly when the event is not a dict or the detail is a truthy non-dict |
| Remediation.UpdateTrailArgs | terraform/modules/remediation-cloudtrail/lambda/index.py:58-67 | `update_trail` always names the trail with global service events, log file validation and the configured multi-region flag; `S3BucketName` and `KmsKeyId` are passed iff set, with the configured values |
| Remediation.Plan | terraform/modules/remediation-cloudtrail/lambda/index.py:52-80 | StopLogging gives one tagged start_logging; the three reapply names give update_trail, put_event_selectors, start_logging in that order; DeleteTrail gives a tag alone; an unhashable name raises; every other name gives nothing |
| Remediation.RunCompletes | terraform/modules/remediation-cloudtrail/lambda/index.py:52-80 | when no step fails, every request is issued in order and every tag is recorded |
| Remediation.RunAbortsAt | terraform/modules/remediation-cloudtrail/lambda/index.py:52-83 | when step k is the first to fail, the requests up to and including k are issued, only the tags before k are recorded, and that step's fault is reported |
| Remediation.RejectedRequestIsLast | terraform/modules/remediation-cloudtrail/lambda/index.py:52-83 | a rejected request is the last one issued and every earlier request was accepted; without a rejection, every issued request was accepted |
| Remediation.StopLoggingRun | terraform/modules/remediation-cloudtrail/lambda/index.py:53-55 | the StopLogging plan issues one start_logging request and records "start_logging" exactly when the request succeeds |
| Remediation.ReapplyRunCompletes | terraform/modules/remediation-cloudtrail/lambda/index.py:57-76 | when all three requests are accepted, the reapply plan issues update_trail, put_event_selectors, start_logging and records their three tags in order |
| Remediation.ReapplyRunStops | terraform/modules/remediation-cloudtrail/lambda/index.py:57-83 | when request k is the first rejected, the reapply plan issues only the first k+1 requests, records the first k tags, and fails |
| Remediation.DeleteTrailRun | terraform/modules/remediation-cloudtrail/lambda/index.py:78-79 | the DeleteTrail plan issues no request and records one tag |
| RemediationProperties.BaseSelectorsAreManagementOnly | terraform/modules/remediation-cloudtrail/lambda/index.py:16-22 | the selector list is a single selector with ReadWriteType "All", management events included, and no data resources |
| RemediationProperties.EmptyTrailNameIsRejected | terraform/modules/remediation-cloudtrail/lambda/index.py:39-40 | an empty trail name gives `ok: false` with the configuration error, whatever the event, and no request is issued |
| RemediationProperties.OtherSourceIsIgnored | terraform/modules/remediation-cloudtrail/lambda/index.py:43-47 | an event source other than exactly "cloudtrail.amazonaws.com" is ignored with "not cloudtrail", `ok: true`, and no request is issued |
| RemediationProperties.MissingDetailIsIgnored | terraform/modules/remediation-cloudtrail/lambda/index.py:42-47 | a missing or falsy detail is read as `{}`, so the event is ignored with no request |
| RemediationProperties.StopLoggingRestartsLogging | terraform/modules/remediation-cloudtrail/lambda/index.py:53-55 | StopLogging issues exactly `start_logging(Name=TRAIL_NAME)`; it succeeds with `["start_logging"]` or fails with no actions |
| RemediationProperties.ReapplyRestoresBaseline | terraform/modules/remediation-cloudtrail/lambda/index.py:57-76 | UpdateTrail, PutEventSelectors and PutInsightSelectors issue exactly the three baseline requests in order and complete with the three tags |
| RemediationProperties.ReapplyStopsAtRejection | terraform/modules/remediation-cloudtrail/lambda/index.py:57-83 | when request k is the first rejected, no later request is issued, and the failure carries the event name and the tags of the k requests before it |
| RemediationProperties.DeleteTrailNeedsManualFix | terraform/modules/remediation-cloudtrail/lambda/index.py:78-79 | DeleteTrail issues no request and completes with `["trail_deleted_no_auto_fix"]` |
| RemediationProperties.OtherNameIsNoOp | terraform/modules/remediation-cloudtrail/lambda/index.py:52-85 | any other hashable event name from CloudTrail completes with no actions and no request |
| RemediationProperties.UnhashableNameFails | terraform/modules/remediation-cloudtrail/lambda/index.py:57-83 | a list or dict event name makes the membership test raise, so the result is a failure with no actions and no request |
| RemediationProperties.RequestsAreBaselineOnly | terraform/modules/remediation-cloudtrail/lambda/index.py:39-85 | at most three requests are issued; a request is issued only for a CloudTrail event with a remediated name and a non-empty trail name; every request is one of the baseline requests for the configured trail |
| RemediationProperties.SelectorFailureExample | terraform/modules/remediation-cloudtrail/lambda/index.py:69-83 | an UpdateTrail event whose put_event_selectors request is rejected fails with `["update_trail"]`, and start_logging is never issued |
| Handler.UpdateKwargs | terraform/modules/remediation-cloudtrail/lambda/index.py:58-67 | the argument record built by conditional insertion is `UpdateTrailArgs` of the configuration |
| Handler.ReapplyBaseline | terraform/modules/remediation-cloudtrail/lambda/index.py:57-76 | the three reapply requests are issued against the client as `Run` of the reapply steps prescribes: the new log, the tags and the fault |
| Handler.ApplyRemediation | terraform/modules/remediation-cloudtrail/lambda/index.py:50-83 | the `try` block leaves the client's log extended by, and returns the actions and fault of, `Run` of `Plan` for the event name |
| Handler.Handle | terraform/modules/remediation-cloudtrail/lambda/index.py:29-85 | the handler's response and the requests it adds to the client's log are those of `Remediate` |

## Left out

- `_ct_client` and `HOME_REGION` (lines 11, 24-27): building the boto3 client and choosing its region are SDK calls. The client is a parameter here, so the model assumes it exists: an exception from `_ct_client()` at line 49, which is outside the `try` and would leave the handler, is not modelled.
- Logging and `json.dumps` of the event (lines 7-8, 37, 82): output only, with no effect on the result.
- Reading `os.environ` (lines 10-14): the environment is a map passed to `Settings.FromEnvironment`, and the handler takes the resulting `Config`.
- The `context` argument of `handler`: the code never reads it.
- The text of `str(exc)` (line 83): a failure carries a `Fault` that says which kind of error occurred, not its message.
- Settings.Lower: folds only the ASCII capitals, not all of Unicode. This is exact for the comparison with "true" on line 12, because the only non-ASCII characters whose lower case contains an ASCII letter are the Kelvin sign U+212A (to "k") and U+0130 (to "i" followed by U+0307), and neither "k" nor "i" occurs in "true".
- JSON numbers are integers. A float `detail` is truthy exactly when it is non-zero, so it behaves like `JNum(0)` or `JNum(1)`. A float event name cannot be represented, although lines 83 and 85 would echo it back.
- A data-event selector builder (ARN lists, ARN normalisation, read/write mode): it does not exist in `index.py`, so there is nothing to model.
- Concurrent invocations: each invocation is modelled on its own, against its own client.

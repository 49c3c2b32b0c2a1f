/**
 * The CloudTrail client the handler talks to, reduced to the three operations
 * it uses. Every request is appended to `log` when it is issued; whether a
 * request raises is decided by `failing`, the positions in the log (counting
 * from 0) whose request the service rejects. A rejected request is still
 * issued, so it is logged too.
 */
module TrailApi {
  import opened Json

  /**
   * The keyword arguments of `update_trail`. An optional argument that is
   * None is one the call does not pass at all.
   */
  datatype UpdateTrailRequest = UpdateTrailRequest(
    name: string,
    includeGlobalServiceEvents: bool,
    isMultiRegionTrail: bool,
    enableLogFileValidation: bool,
    s3BucketName: Option<string>,
    kmsKeyId: Option<string>)

  /** One request sent to the service, with the keyword arguments it carries. */
  datatype Call =
    | StartLoggingCall(name: string)
    | UpdateTrailCall(request: UpdateTrailRequest)
    | PutEventSelectorsCall(trailName: string, eventSelectors: seq<map<string, Value>>)

  class Client {
    var log: seq<Call>
    const failing: set<nat>

    constructor (failing: set<nat>)
      ensures log == [] && this.failing == failing
    {
      log := [];
      this.failing := failing;
    }

    /** `start_logging(Name=name)`; `ok` is false when the request raises. */
    method StartLogging(name: string) returns (ok: bool)
      modifies this
      ensures log == old(log) + [StartLoggingCall(name)]
      ensures ok <==> |old(log)| !in failing
    {
      ok := |log| !in failing;
      log := log + [StartLoggingCall(name)];
    }

    /** `update_trail(**kwargs)`; `ok` is false when the request raises. */
    method UpdateTrail(request: UpdateTrailRequest) returns (ok: bool)
      modifies this
      ensures log == old(log) + [UpdateTrailCall(request)]
      ensures ok <==> |old(log)| !in failing
    {
      ok := |log| !in failing;
      log := log + [UpdateTrailCall(request)];
    }

    /** `put_event_selectors(TrailName=..., EventSelectors=...)`; `ok` is false when the request raises. */
    method PutEventSelectors(trailName: string, eventSelectors: seq<map<string, Value>>) returns (ok: bool)
      modifies this
      ensures log == old(log) + [PutEventSelectorsCall(trailName, eventSelectors)]
      ensures ok <==> |old(log)| !in failing
    {
      ok := |log| !in failing;
      log := log + [PutEventSelectorsCall(trailName, eventSelectors)];
    }
  }
}

/** One connector's share of a poll cycle, `handleKafkaConnector`
    (main.go:70-77): the restart requests issued after its status reply.
    The goroutines that issue them are abstracted to a sequence in the
    order the candidates were found. */
module Watchdog {
  import opened Wrappers
  import opened Status
  import opened Detector
  import opened Endpoints

  /** The restart URL of each task, in order (the loop at main.go:73-75). */
  function RestartUrls(base: string, tasks: seq<KCTask>): (urls: seq<string>)
    ensures |urls| == |tasks|
    ensures forall k :: 0 <= k < |urls| ==> urls[k] == RestartUrl(base, tasks[k])
  {
    seq(|tasks|, k requires 0 <= k < |tasks| => RestartUrl(base, tasks[k]))
  }

  /** Each URL of `RestartUrls` reads back as the task it was built from. */
  lemma RestartUrlsParseBack(base: string, tasks: seq<KCTask>)
    ensures forall k :: 0 <= k < |tasks| ==> ParseRestartUrl(base, RestartUrls(base, tasks)[k]) == Some(tasks[k])
  {
    forall k | 0 <= k < |tasks|
      ensures ParseRestartUrl(base, RestartUrls(base, tasks)[k]) == Some(tasks[k])
    {
      RestartUrlRoundTrip(base, tasks[k]);
    }
  }

  /** The restart URLs posted for `connector` after its status reply. */
  function RestartRequests(base: string, connector: string, reply: StatusReply): (urls: seq<string>)
    ensures |urls| == |GetToRestartKCTasks(connector, reply)|
    ensures forall k :: 0 <= k < |urls| ==>
      urls[k] == RestartUrl(base, GetToRestartKCTasks(connector, reply)[k])
    ensures forall k :: 0 <= k < |urls| ==>
      ParseRestartUrl(base, urls[k]) == Some(GetToRestartKCTasks(connector, reply)[k])
  {
    var candidates := GetToRestartKCTasks(connector, reply);
    RestartUrlsParseBack(base, candidates);
    RestartUrls(base, candidates)
  }

  /** `t` names `connector` and the id of a FAILED entry of `status`,
      and `status` is that of a RUNNING connector. */
  predicate TargetsFailedTask(connector: string, status: KCConnectorStatusResponse, t: KCTask) {
    && status.connector.state == Running
    && t.connector == connector
    && exists i :: 0 <= i < |status.tasks| && IsFailed(status.tasks[i]) && status.tasks[i].id == t.taskId
  }

  /** Every restart request names this connector and the id of a FAILED
      entry of a RUNNING status that was fetched, read and decoded; a failed
      fetch or read, or an undecodable body, triggers no request at all. */
  lemma RestartRequestsTargetFailedTasks(base: string, connector: string, reply: StatusReply)
    ensures forall k :: 0 <= k < |RestartRequests(base, connector, reply)| ==>
      && reply.Body? && reply.decoded.Some?
      && ParseRestartUrl(base, RestartRequests(base, connector, reply)[k]).Some?
      && TargetsFailedTask(connector, reply.decoded.value,
           ParseRestartUrl(base, RestartRequests(base, connector, reply)[k]).value)
  {
    var urls := RestartRequests(base, connector, reply);
    var candidates := GetToRestartKCTasks(connector, reply);
    forall k | 0 <= k < |urls|
      ensures reply.Body? && reply.decoded.Some?
      ensures ParseRestartUrl(base, urls[k]).Some?
      ensures TargetsFailedTask(connector, reply.decoded.value, ParseRestartUrl(base, urls[k]).value)
    {
      CandidateMembership(connector, reply.decoded.value, candidates[k]);
    }
  }
}

/** The failure detector of `getToRestartKCTasks` (main.go:86-112): from a
    connector's decoded status, the tasks to restart. */
module Detector {
  import opened Wrappers
  import opened Status

  predicate IsFailed(t: KCTaskResponse) {
    t.state == Failed
  }

  /** The task states, in input order. */
  function States(tasks: seq<KCTaskResponse>): (s: seq<string>)
    ensures |s| == |tasks|
  {
    seq(|tasks|, i requires 0 <= i < |tasks| => tasks[i].state)
  }

  /** How many task entries report FAILED. */
  function FailedCount(tasks: seq<KCTaskResponse>): nat {
    multiset(States(tasks))[Failed]
  }

  /** The restart references for the FAILED entries of `tasks`, built the
      way the loop at main.go:102-106 appends them. */
  function FailedTasks(connector: string, tasks: seq<KCTaskResponse>): (r: seq<KCTask>)
    ensures |r| <= |tasks|
    ensures forall k :: 0 <= k < |r| ==> r[k].connector == connector
    decreases |tasks|
  {
    if |tasks| == 0 then []
    else
      var last := tasks[|tasks| - 1];
      FailedTasks(connector, tasks[..|tasks| - 1])
        + (if IsFailed(last) then [KCTask(connector, last.id)] else [])
  }

  /** The i-th task entry, when FAILED, becomes the candidate whose position
      is the number of FAILED entries before it; there are as many
      candidates as FAILED entries. Together these fix the candidate list:
      exactly the FAILED entries, each once, in input order. */
  lemma {:induction false} FailedTasksByRank(connector: string, tasks: seq<KCTaskResponse>)
    ensures |FailedTasks(connector, tasks)| == FailedCount(tasks)
    ensures forall i :: 0 <= i < |tasks| && IsFailed(tasks[i]) ==>
      FailedCount(tasks[..i]) < |FailedTasks(connector, tasks)|
      && FailedTasks(connector, tasks)[FailedCount(tasks[..i])] == KCTask(connector, tasks[i].id)
    decreases |tasks|
  {
    if |tasks| > 0 {
      var n := |tasks| - 1;
      var front := tasks[..n];
      FailedTasksByRank(connector, front);
      assert States(tasks) == States(front) + [tasks[n].state];
      forall i | 0 <= i < |tasks| && IsFailed(tasks[i])
        ensures FailedCount(tasks[..i]) < |FailedTasks(connector, tasks)|
        ensures FailedTasks(connector, tasks)[FailedCount(tasks[..i])] == KCTask(connector, tasks[i].id)
      {
        if i < n {
          assert tasks[..i] == front[..i];
          assert tasks[i] == front[i];
        } else {
          assert tasks[..i] == front;
        }
      }
    } else {
      assert States(tasks) == [];
    }
  }

  /** A reference is a candidate exactly when it names this connector and
      the id of some FAILED entry. */
  lemma {:induction false} FailedTasksMembership(connector: string, tasks: seq<KCTaskResponse>, t: KCTask)
    ensures t in FailedTasks(connector, tasks) <==>
      t.connector == connector && exists i :: 0 <= i < |tasks| && IsFailed(tasks[i]) && tasks[i].id == t.taskId
    decreases |tasks|
  {
    if |tasks| > 0 {
      var n := |tasks| - 1;
      var front := tasks[..n];
      FailedTasksMembership(connector, front, t);
      if t in FailedTasks(connector, tasks) && t !in FailedTasks(connector, front) {
        assert IsFailed(tasks[n]) && tasks[n].id == t.taskId;
      }
      if t.connector == connector && exists i :: 0 <= i < |tasks| && IsFailed(tasks[i]) && tasks[i].id == t.taskId {
        var i :| 0 <= i < |tasks| && IsFailed(tasks[i]) && tasks[i].id == t.taskId;
        if i < n {
          assert front[i] == tasks[i];
        }
      }
    }
  }

  /** Restarting is order-preserving and entry-local: the candidates of a
      concatenation are the candidates of each part, concatenated. */
  lemma {:induction false} FailedTasksAppend(connector: string, a: seq<KCTaskResponse>, b: seq<KCTaskResponse>)
    ensures FailedTasks(connector, a + b) == FailedTasks(connector, a) + FailedTasks(connector, b)
    decreases |b|
  {
    if |b| == 0 {
      assert a + b == a;
    } else {
      var n := |b| - 1;
      FailedTasksAppend(connector, a, b[..n]);
      assert (a + b)[..|a + b| - 1] == a + b[..n];
    }
  }

  /** The filter inside `getToRestartKCTasks`, main.go:100-107: the
      FAILED tasks, in order, but only while the connector itself is
      RUNNING. */
  function SelectRestartCandidates(connector: string, status: KCConnectorStatusResponse): (r: seq<KCTask>)
    ensures status.connector.state != Running ==> r == []
    ensures |r| <= |status.tasks|
    ensures forall k :: 0 <= k < |r| ==> r[k].connector == connector
    ensures status.connector.state == Running ==>
      |r| == FailedCount(status.tasks)
      && forall i :: 0 <= i < |status.tasks| && IsFailed(status.tasks[i]) ==>
        FailedCount(status.tasks[..i]) < |r|
        && r[FailedCount(status.tasks[..i])] == KCTask(connector, status.tasks[i].id)
  {
    if status.connector.state == Running then
      FailedTasksByRank(connector, status.tasks);
      FailedTasks(connector, status.tasks)
    else
      []
  }

  /** For a RUNNING connector, a reference is a candidate exactly when it
      names the connector and the id of a FAILED entry; for any other
      connector state nothing is. */
  lemma CandidateMembership(connector: string, status: KCConnectorStatusResponse, t: KCTask)
    ensures t in SelectRestartCandidates(connector, status) <==>
      status.connector.state == Running
      && t.connector == connector
      && exists i :: 0 <= i < |status.tasks| && IsFailed(status.tasks[i]) && status.tasks[i].id == t.taskId
  {
    FailedTasksMembership(connector, status.tasks, t);
  }

  /** The status a body that fails to decode leaves behind selects nothing. */
  lemma ZeroStatusSelectsNothing(connector: string)
    ensures SelectRestartCandidates(connector, ZeroStatus) == []
  {
  }

  /** Worked cases: one FAILED task of a RUNNING connector is selected; a
      FAILED task of a PAUSED connector is not. */
  lemma SelectExamples(connector: string)
    ensures SelectRestartCandidates(connector, KCConnectorStatusResponse(KCConnectorResponse("RUNNING"),
      [KCTaskResponse(0, "RUNNING"), KCTaskResponse(1, "FAILED")])) == [KCTask(connector, 1)]
    ensures SelectRestartCandidates(connector, KCConnectorStatusResponse(KCConnectorResponse("PAUSED"),
      [KCTaskResponse(1, "FAILED")])) == []
  {
  }

  /** The loop of main.go:100-107 as written, appending one reference per
      FAILED entry; it computes the same list as the functional model. */
  method CollectRestartCandidates(connector: string, status: KCConnectorStatusResponse) returns (r: seq<KCTask>)
    ensures r == SelectRestartCandidates(connector, status)
  {
    r := [];
    if status.connector.state == Running {
      var i := 0;
      while i < |status.tasks|
        invariant 0 <= i <= |status.tasks|
        invariant r == FailedTasks(connector, status.tasks[..i])
      {
        var task := status.tasks[i];
        if task.state == Failed {
          r := r + [KCTask(connector, task.id)];
        }
        assert status.tasks[..i + 1][..i] == status.tasks[..i];
        i := i + 1;
      }
      assert status.tasks[..i] == status.tasks;
    }
  }

  /** How far the status request of main.go:87-99 got: the GET failed, the
      body could not be read, or the body was read and either decoded into
      a status (`Some`) or was not valid JSON (`None`). */
  datatype StatusReply =
    | GetFailed
    | ReadFailed
    | Body(decoded: Option<KCConnectorStatusResponse>)

  /** `getToRestartKCTasks` minus its I/O: a transport or read failure
      yields no candidates, and an undecodable body is read as the zero
      status, which yields none either. */
  function GetToRestartKCTasks(connector: string, reply: StatusReply): (r: seq<KCTask>)
    ensures reply.GetFailed? || reply.ReadFailed? ==> r == []
    ensures reply == Body(None) ==> r == []
    ensures reply.Body? && reply.decoded.Some? ==> r == SelectRestartCandidates(connector, reply.decoded.value)
    ensures forall k :: 0 <= k < |r| ==> r[k].connector == connector
  {
    match reply
    case GetFailed => []
    case ReadFailed => []
    case Body(decoded) => SelectRestartCandidates(connector, decoded.GetOr(ZeroStatus))
  }
}

/** The records that main.go declares: the task reference the watchdog
    restarts and the decoded shape of a connector's status document. */
module Status {

  /** The range of Go's `int`, taken as 64 bits. */
  predicate InInt64(x: int) {
    -0x8000_0000_0000_0000 <= x < 0x8000_0000_0000_0000
  }

  /** Go's `int`, taken as 64 bits. */
  newtype Int64 = x: int | InInt64(x)

  /** A task to restart: the owning connector's name and the task index. */
  datatype KCTask = KCTask(connector: string, taskId: Int64)

  /** One entry of the `tasks` array of a status document. */
  datatype KCTaskResponse = KCTaskResponse(id: Int64, state: string)

  /** The `connector` object of a status document. */
  datatype KCConnectorResponse = KCConnectorResponse(state: string)

  /** A decoded status document: the connector's own state and its task
      entries in the order the management API listed them. */
  datatype KCConnectorStatusResponse =
    KCConnectorStatusResponse(connector: KCConnectorResponse, tasks: seq<KCTaskResponse>)

  /** The only connector state under which failed tasks are restarted. */
  const Running: string := "RUNNING"

  /** The only task state that makes a task a restart candidate. */
  const Failed: string := "FAILED"

  /** The value a status variable holds when decoding leaves it untouched:
      an empty connector state and no tasks. */
  const ZeroStatus: KCConnectorStatusResponse :=
    KCConnectorStatusResponse(KCConnectorResponse(""), [])
}

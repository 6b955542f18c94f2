/** The messages exchanged between the portal and the worker nodes. */
module Proto {
  datatype RegisterRequest = RegisterRequest(id: string, addr: string)

  datatype RegisterReply = RegisterReply(addr: string, subject: string)

  datatype UpgradeRequest = UpgradeRequest(nodeId: string, taskId: string)

  datatype UpgradeReply = UpgradeReply(nodeId: string, addr: string, subject: string)

  /** A storage location: a type tag and key/value configuration pairs. */
  datatype Endpoint = Endpoint(kind: string, pairs: seq<(string, string)>)

  datatype Job = Job(id: string, kind: string, content: seq<bv8>)

  datatype Task = Task(id: string, endpoints: seq<Endpoint>, job: Job)

  datatype JobStatus = Succeed | Failed

  datatype TaskReply = TaskReply(id: string, status: JobStatus, message: string)
}

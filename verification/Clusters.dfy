/** A connection to one cluster: `ScyllaConnection::execute` of svckit/src/database.cpp, reduced to its outcome. */
module Clusters {

  /** The result of one `execute`. A refusal (a SyncError) leaves no effect. */
  datatype Reply = Acked | Refused(error: string)

  /** A cluster connection. `replies` is what the n-th `execute` answers, any sequence at all. */
  class Cluster {
    const replies: nat -> Reply
    var executions: nat
    var acknowledged: seq<string>

    constructor (replies: nat -> Reply)
      ensures this.replies == replies && executions == 0 && acknowledged == []
    {
      this.replies := replies;
      executions, acknowledged := 0, [];
    }

    method Execute(cql: string) returns (reply: Reply)
      modifies this
      ensures reply == replies(old(executions))
      ensures executions == old(executions) + 1
      ensures acknowledged == old(acknowledged) + if reply.Acked? then [cql] else []
    {
      reply := replies(executions);
      executions := executions + 1;
      if reply.Acked? {
        acknowledged := acknowledged + [cql];
      }
    }
  }
}

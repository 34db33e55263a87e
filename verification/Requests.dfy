/** Write requests and their responses (src/request.rs). */
module Requests {
  import opened Basics

  datatype Operation = Operation(sql: string, params: seq<Json>)

  datatype WriteRequest = WriteRequest(
    requestId: string,
    actorId: string,
    runId: Option<string>,
    idempotencyKey: Option<string>,
    operations: seq<Operation>)

  datatype WriteStatus = Committed | Failed

  datatype WriteResponse = WriteResponse(
    requestId: string,
    status: WriteStatus,
    commitSeq: Option<int>,
    error: Option<string>)

  function CommittedReply(requestId: string, commitSeq: Option<int>): WriteResponse {
    WriteResponse(requestId, Committed, commitSeq, None)
  }

  function FailedReply(requestId: string, error: string): WriteResponse {
    WriteResponse(requestId, Failed, None, Some(error))
  }
}

/**
 * The parts of the chain indexer's stream that the consumer reads: a message
 * per block, its shards, and each shard's receipt execution outcomes.
 */
module Near {

  /** The status of an execution outcome; only the two success forms are eligible. */
  datatype ExecutionStatus =
    | Unknown
    | Failure(error: string)
    | SuccessValue(value: string)
    | SuccessReceiptId(receiptId: string)

  /** An execution outcome: the account that ran it, its status and the lines it logged, in order. */
  datatype ExecutionOutcome = ExecutionOutcome(executorId: string, status: ExecutionStatus, logs: seq<string>)

  datatype Shard = Shard(outcomes: seq<ExecutionOutcome>)

  datatype StreamerMessage = StreamerMessage(height: nat, shards: seq<Shard>)
}

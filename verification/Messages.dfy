/** The messages of the protocol (`proto/pbft.proto`, `proto/view_change.proto`), as values. */
module Messages {

  datatype Option<+T> = None | Some(value: T)

  datatype OperationType = Get | Add | Sub | Unknown

  datatype Operation = Operation(kind: OperationType, key: string, value: string)

  datatype ClientRequest = ClientRequest(clientId: string, timestamp: int, operation: Operation, callback: string)

  /** A Go slice of requests: `None` is the nil slice, which the store tells apart from an empty one. */
  type Batch = Option<seq<ClientRequest>>

  datatype PrePrepare = PrePrepare(view: int, seqNo: int, digest: string)

  /** `PrepareRequest` and `CommitRequest` have the same fields; `Message` tells them apart. */
  datatype Vote = Vote(view: int, seqNo: int, digest: string, replica: string)

  datatype Checkpoint = Checkpoint(seqNo: int, digest: string, replica: string, view: int)

  /** `ViewChangePreparedMessage`; its pre-prepare is a pointer and may be nil. */
  datatype Certificate = Certificate(preprepare: Option<PrePrepare>, prepares: seq<Vote>)

  datatype ViewChange = ViewChange(newView: int, lastStable: int, proof: seq<Checkpoint>,
                                   certificates: seq<Certificate>, replica: string)

  datatype NewView = NewView(newView: int, votes: seq<ViewChange>, preprepares: seq<PrePrepare>, replica: string)

  /** What a replica hands to its sender. */
  datatype Message =
    | MsgPrePrepare(preprepare: PrePrepare, batch: Batch)
    | MsgPrepare(prepare: Vote)
    | MsgCommit(commit: Vote)
    | MsgCheckpoint(checkpoint: Checkpoint)
    | MsgForward(leader: string, request: ClientRequest)
    | MsgReply(callback: string, view: int, timestamp: int, clientId: string, replica: string, result: string)
    | MsgStatus(to: string, lastStable: int, proof: seq<Checkpoint>)
    | MsgViewChange(vote: ViewChange)

  /** `maps.Values` of a vote map, in whatever order the map is ranged over. */
  ghost predicate Lists(votes: seq<Vote>, m: map<string, Vote>) {
    && |votes| == |m|
    && (forall k | k in m :: m[k] in votes)
    && (forall v | v in votes :: exists k | k in m :: m[k] == v)
  }
}

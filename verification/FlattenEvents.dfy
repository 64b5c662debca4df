/** The durable vocabulary of one flatten occurrence (`persistence/flatten.py`). */
module FlattenEvents {
  import opened ExecutionEvents

  datatype FlattenEventType =
    | FlattenRequestClaimed | FlattenGateBlocked | FlattenGatePassed
    | FlattenSubmissionStarted | FlattenOutcomeResolved

  /** `instructions` is the committed plan (one ticket per instruction); the other keys belong to
      the resolved record. */
  datatype FlattenPayload = FlattenPayload(
    instructions: seq<Ticket>,
    targets: seq<Ticket>,
    stillOpen: seq<Ticket>,
    closed: seq<Ticket>,
    flattened: bool)

  datatype FlattenEvent = FlattenEvent(kind: FlattenEventType, payload: Option<FlattenPayload>)

  type OccurrenceId = nat

  datatype Occurrence = Occurrence(id: OccurrenceId, events: seq<FlattenEvent>)
}

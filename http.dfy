/** FastAPI's `HTTPException`: a status code and a JSON-able detail; and
    what a router asks of storage and of the WebSocket manager. */
module Http {
  import opened Wrappers
  import opened JsonValue

  datatype HttpError = HttpError(status: int, detail: Json)

  /** FastAPI's answer to an exception the endpoint does not catch. */
  const InternalError := HttpError(500, JStr("Internal Server Error"))

  /** The clock unit shared by the model: `time.time()` and ISO timestamps
      are read as integers in microseconds. */
  const MicrosPerSecond: int := 1_000_000

  /** A storage write or a broadcast a router asks for. `StoreMessage` and
      `UpdateTicket` stand for `storage.add_message` and
      `storage.update_ticket`, which no store defines: only the request is
      recorded. */
  datatype Effect =
    | SaveTicket(ticket: Json)
    | StoreMessage(ticketId: string, message: Json)
    | SetStatus(ticketId: string, status: string, closedAt: string)
    | UpdateTicket(ticketId: string, updates: seq<Member>)
    | Broadcast(ticketId: string, event: Json)

  /** An answer or an HTTP error, and the effects made on the way. */
  datatype Outcome = Outcome(result: Result<Json, HttpError>, effects: seq<Effect>)
}

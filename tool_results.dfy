/** What a tool handler gives back to the tool-calling loop. */
module ToolResults {
  import opened Optional
  import opened Tables

  /** The columns list_services selects. */
  datatype ServiceInfo = ServiceInfo(id: Id, name: string, price: int, durationMinutes: Option<int>)

  /** The columns list_professionals selects. */
  datatype ProfessionalInfo = ProfessionalInfo(id: Id, name: string, role: string)

  /** A tool result: a message, or a value the handler passes through
      JSON.stringify (None standing for a null `data`, which renders as
      "null"). */
  datatype ToolResult =
    | Reply(text: string)
    | ServiceRows(services: Option<seq<ServiceInfo>>)
    | ProfessionalRows(professionals: Option<seq<ProfessionalInfo>>)
    | SlotTimes(slots: seq<string>)

  /** How a handler ends: it returns, it throws (the message of the
      exception), or it never returns. */
  datatype HandlerOutcome = Returned(result: ToolResult) | Raised(error: string) | Diverges

  /** The store after a handler and how the handler ended. */
  datatype Effect = Effect(tables: Tables, outcome: HandlerOutcome)

  function Says(text: string): HandlerOutcome {
    Returned(Reply(text))
  }
}

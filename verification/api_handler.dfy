/** The older `apiHandler` wrapper (`src/helpers/apiHandler.ts`), used by `api/login`. */
module LegacyApiHandler {
  import opened Wrappers
  import opened Http
  import ZodErrors

  /** The older wrapper's `catch`: its 500 body has a `message` but no `success` field. */
  function CatchResponse(e: Thrown): (r: Response)
    ensures e.ZodError? ==> r == ZodErrors.ValidationResponse(e.issues)
    ensures !e.ZodError? ==> r.status == 500 && r.body == Message(None, Some(ErrorMessage(e)))
  {
    if e.ZodError? then ZodErrors.ValidationResponse(e.issues)
    else Response(500, Message(None, Some(ErrorMessage(e))))
  }

  /** Runs the handler; a response it returns passes through unchanged. */
  function ApiHandler(o: Outcome): (r: Response)
    ensures o.Returned? ==> r == o.response
    ensures o.Threw? ==> r == CatchResponse(o.error)
  {
    match o
    case Returned(response) => response
    case Threw(e) => CatchResponse(e)
  }
}

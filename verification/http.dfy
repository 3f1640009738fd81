/** Validation issues, thrown errors and JSON responses shared by the route handlers. */
module Http {
  import opened Wrappers
  import opened Accounts

  /** The zod issue codes the model distinguishes. */
  datatype IssueCode = InvalidType | UnrecognizedKeys | TooSmall | TooBig | InvalidFormat | InvalidValue | Custom

  /**
   * A zod issue. `path` holds the path segments as strings (`String(segment)`);
   * `keys` is filled only for `UnrecognizedKeys`.
   */
  datatype Issue = Issue(code: IssueCode, path: seq<string>, message: string, keys: seq<string>)

  /** One entry of the `errors` array of a validation response. */
  datatype FieldErrors = FieldErrors(key: string, messages: seq<string>)

  datatype Body =
    | /** `{success?, message?}`; `None` is a field left out of the JSON. */
      Message(success: Option<bool>, text: Option<string>)
    | /** `{success: false, message, errors}` */
      Validation(message: string, errors: seq<FieldErrors>)
    | /** `{success: true, message, user, accessToken}` from `auth/login` */
      SessionStarted(message: string, summary: Summary, accessToken: string)
    | /** `{success: true, message, user, accessToken?}` from `user/login` and `api/login` */
      ProfileShown(message: string, profile: Profile, token: Option<string>)
    | /** `{success: true, message, user}` from signup */
      AccountCreated(message: string, account: PublicAccount)

  datatype Response = Response(status: int, body: Body)

  /** What the body of an Axios error response carries. */
  datatype AxiosResponse = AxiosResponse(dataMessage: Option<string>)

  /** What a handler can throw. Every case but `NonError` is an `Error` instance. */
  datatype Thrown =
    | ZodError(issues: seq<Issue>)
    | PrismaKnownError(code: string, message: string, target: Option<seq<string>>)
    | AxiosError(message: string, status: Option<int>, response: Option<AxiosResponse>)
    | OtherError(message: string)
    | NonError

  /** A handler either returns a response or throws. */
  datatype Outcome = Returned(response: Response) | Threw(error: Thrown)

  const InternalServerError := "Internal server error"

  /** `{success: false, message}` with the given status. */
  function Failure(status: int, message: string): Response {
    Response(status, Message(Some(false), Some(message)))
  }

  /** The message an `Error` carries, or the fallback for a thrown non-Error. */
  function ErrorMessage(e: Thrown): string
    requires !e.ZodError?
  {
    match e
    case PrismaKnownError(_, m, _) => m
    case AxiosError(m, _, _) => m
    case OtherError(m) => m
    case NonError => InternalServerError
  }
}

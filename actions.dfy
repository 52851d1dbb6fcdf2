/**
 * The server actions `post` and `getPostById`. Each is a chain of early returns
 * over three things it cannot see: the session lookup, the schema check and the
 * HTTP call. These are parameters here, and each action returns its result
 * together with the trace of the lookups and requests it made, so that the
 * guard order ("which check fires first, and what is skipped") can be stated.
 */
module Actions {
  import opened Types

  /** The authenticated user of the session; the actions only read its token. */
  datatype User = User(accessToken: string)

  /** The form values the `post` action submits. */
  datatype PostInput = PostInput(body: string, image: Option<string>)

  /**
   * How an HTTP call failed: either no response arrived at all, or the server
   * answered with an error status whose body may carry a `message`.
   */
  datatype Failure = NoResponse | Reply(message: Option<string>)

  /** What the HTTP call does when it is made: it delivers `data.post`, or it fails. */
  datatype Transport = Delivered(post: Option<Post>) | Failed(failure: Failure)

  /** A request sent to the API, with the bearer token it carries. */
  datatype Request = CreateRequest(input: PostInput, token: string) | FetchRequest(id: string, token: string)

  /** One externally visible step of an action. */
  datatype Step = SessionLookup | Http(request: Request)

  /** The two result shapes: `{ error }` and `{ post }`. */
  datatype ActionResult = ErrorReply(error: string) | PostReply(post: Option<Post>)

  /** How an asynchronous action ends: with a value, or with a rejected promise. */
  datatype Settled<+T> = Resolved(value: T) | Rejected

  /** An action's result and the steps it took to reach it, in order. */
  datatype Run<+T> = Run(result: T, steps: seq<Step>)

  const Unauthorized := "Unauthorized"
  const EmptyPost := "Post Cannot be empty"
  const SomethingWentWrong := "Something went wrong"
  const PostMissing := "Post does not exist"

  /** The server's `message` counts only when it is a non-empty string. */
  predicate HasMessage(message: Option<string>) {
    message.Some? && message.value != ""
  }

  /** JavaScript's `message || fallback`. */
  function MessageOr(message: Option<string>, fallback: string): (r: string)
    ensures r == fallback || (message == Some(r) && r != "")
    ensures HasMessage(message) <==> message == Some(r) && r != ""
  {
    if HasMessage(message) then message.value else fallback
  }

  /**
   * `post`: no user → "Unauthorized" before anything else; an input the schema
   * rejects → "Post Cannot be empty" without a request; otherwise one request
   * carrying the session's token, whose failure yields the server's message or
   * "Something went wrong". The error path reads `error?.response?.data?.message`,
   * so a failure without a response falls back too.
   */
  function CreatePost(session: Option<User>, input: PostInput, schemaValid: bool, transport: Transport): (r: Run<ActionResult>)
    ensures session.None? ==> r == Run(ErrorReply(Unauthorized), [SessionLookup])
    ensures session.Some? && !schemaValid ==> r == Run(ErrorReply(EmptyPost), [SessionLookup])
    ensures session.Some? && schemaValid ==>
              r.steps == [SessionLookup, Http(CreateRequest(input, session.value.accessToken))]
    ensures |r.steps| == 2 <==> session.Some? && schemaValid
    ensures session.Some? && schemaValid && transport.Delivered? ==> r.result == PostReply(transport.post)
    ensures session.Some? && schemaValid && transport.Failed? && transport.failure.Reply? && HasMessage(transport.failure.message) ==>
                  r.result == ErrorReply(transport.failure.message.value)
    ensures session.Some? && schemaValid && transport.Failed? && (transport.failure.NoResponse? || !HasMessage(transport.failure.message)) ==>
                  r.result == ErrorReply(SomethingWentWrong)
    ensures r.result.ErrorReply? ==> r.result.error != ""
  {
    match session
    case None => Run(ErrorReply(Unauthorized), [SessionLookup])
    case Some(user) =>
      if !schemaValid then Run(ErrorReply(EmptyPost), [SessionLookup])
      else
        var steps := [SessionLookup, Http(CreateRequest(input, user.accessToken))];
        match transport
        case Delivered(post) => Run(PostReply(post), steps)
        case Failed(NoResponse) => Run(ErrorReply(SomethingWentWrong), steps)
        case Failed(Reply(message)) => Run(ErrorReply(MessageOr(message, SomethingWentWrong)), steps)
  }

  /**
   * `getPostById`: an empty id → `null` before the session is even looked up; no
   * user → "Unauthorized" without a request; otherwise one request. Its error
   * path reads `error.response.data.message` without optional chaining, so a
   * failure without a response throws inside the catch and the promise rejects;
   * a response without a message falls back to "Post does not exist".
   */
  function GetPostById(id: string, session: Option<User>, transport: Transport): (r: Run<Settled<Option<ActionResult>>>)
    ensures id == "" ==> r == Run(Resolved(None), [])
    ensures id != "" && session.None? ==> r == Run(Resolved(Some(ErrorReply(Unauthorized))), [SessionLookup])
    ensures id != "" && session.Some? ==> r.steps == [SessionLookup, Http(FetchRequest(id, session.value.accessToken))]
    ensures id != "" && session.Some? && transport.Delivered? ==> r.result == Resolved(Some(PostReply(transport.post)))
    ensures id != "" && session.Some? && transport.Failed? && transport.failure.NoResponse? ==> r.result == Rejected
    ensures id != "" && session.Some? && transport.Failed? && transport.failure.Reply? && HasMessage(transport.failure.message) ==>
                  r.result == Resolved(Some(ErrorReply(transport.failure.message.value)))
    ensures id != "" && session.Some? && transport.Failed? && transport.failure.Reply? && !HasMessage(transport.failure.message) ==>
                  r.result == Resolved(Some(ErrorReply(PostMissing)))
    ensures r.result.Resolved? && r.result.value.Some? && r.result.value.value.ErrorReply? ==> r.result.value.value.error != ""
  {
    if id == "" then Run(Resolved(None), [])
    else
      match session
      case None => Run(Resolved(Some(ErrorReply(Unauthorized))), [SessionLookup])
      case Some(user) =>
        var steps := [SessionLookup, Http(FetchRequest(id, user.accessToken))];
        match transport
        case Delivered(post) => Run(Resolved(Some(PostReply(post))), steps)
        case Failed(NoResponse) => Run(Rejected, steps)
        case Failed(Reply(message)) => Run(Resolved(Some(ErrorReply(MessageOr(message, PostMissing)))), steps)
  }

  /**
   * Neither action sends a request without a user, and `post` sends none for an
   * input the schema rejects: every request in a trace follows a session lookup
   * that found a user, and carries that user's token.
   */
  lemma RequestsNeedAUser(session: Option<User>, input: PostInput, schemaValid: bool, id: string, transport: Transport)
    ensures forall q :: Http(q) in CreatePost(session, input, schemaValid, transport).steps ==>
              session.Some? && schemaValid && q.token == session.value.accessToken
    ensures forall q :: Http(q) in GetPostById(id, session, transport).steps ==>
              id != "" && session.Some? && q == FetchRequest(id, session.value.accessToken)
  {
  }
}

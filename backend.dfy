/** What the components see of the hosted backend: each call is replaced by the reply it gives
    (a value or an error with a message), and the records the components read or write. */
module Backend {
  import opened Js

  /** The reply to one backend call: `{ data, error }` with exactly one of them set. */
  datatype Reply<+T> = Ok(data: T) | Err(message: string)

  /** The reply to a call whose data the caller ignores. */
  type Ack = Reply<()>

  /** Error code the table API gives when `.single()` finds no row. */
  const NotFoundCode: string := "PGRST116"

  /** The reply to a `.single()` table query: the one row, or an error with its code. */
  datatype SingleRow<+T> = Row(row: T) | QueryError(code: string, message: string)
  {
    /** The query found nothing (the error that the components do not treat as a failure). */
    predicate NotFound()
    {
      QueryError? && code == NotFoundCode
    }
  }

  /** An authenticated user as the session reports it; the two timestamps are `null` until
      the address is confirmed. */
  datatype User = User(id: string, emailConfirmedAt: Option<string>, confirmedAt: Option<string>)

  /** An auth session; `session.user` may itself be missing. */
  datatype Session = Session(user: Option<User>)

  /** `!!user.email_confirmed_at || !!user.confirmed_at`. */
  predicate EmailConfirmed(u: User)
  {
    Truthy(u.emailConfirmedAt) || Truthy(u.confirmedAt)
  }

  /** The reply to `auth.getUser()`. */
  datatype UserLookup = UserFound(user: User) | NoUser | UserError(message: string)

  /** A row of the `code_segments` table as the components insert it. */
  datatype SegmentRow = SegmentRow(
    userId: string,
    segmentType: string,
    title: string,
    filePath: Option<string>,
    language: string,
    isPublic: bool,
    updatedAt: string)
}

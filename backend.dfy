/**
 * The boundary to the PocketBase client: the record shapes the backend
 * returns, the errors it throws, and the requests the service layer issues.
 * The backend itself is not modelled: every service operation receives the
 * backend's answer as a parameter and reports the requests it would send.
 */
module Backend {
  import opened Wrappers

  /** System fields every PocketBase record carries besides its own. */
  datatype RecordMeta = RecordMeta(collectionId: string, collectionName: string, created: string, updated: string)

  /** A row of the `tickers` collection. */
  datatype TickerRecord = TickerRecord(id: string, symbol: string, name: string, meta: RecordMeta)

  /** The `expand` object of a record: the resolved `ticker` relation, if any. */
  datatype Expansion = Expansion(ticker: Option<TickerRecord>)

  /** `expand?.ticker`: the ticker a relation resolved to, if it did. */
  function Expanded(expand: Option<Expansion>): Option<TickerRecord>
  {
    if expand.Some? then expand.value.ticker else None
  }

  /** A row of the `users_tickers` collection (one watchlist entry). */
  datatype WatchRecord = WatchRecord(id: string, user: string, ticker: string, expand: Option<Expansion>, meta: RecordMeta)

  /** A row of the `filings` collection; `formType` is the record's `type` field. */
  datatype FilingRecord = FilingRecord(
    id: string,
    ticker: string,
    formType: string,
    date: string,
    title: string,
    summary: string,
    url: string,
    expand: Option<Expansion>,
    meta: RecordMeta)

  /** A row of the `users` collection as returned by `create`. */
  datatype UserRecord = UserRecord(id: string, email: string, name: string, meta: RecordMeta)

  /** What `authWithPassword` resolves to. */
  datatype AuthData = AuthData(token: string, record: UserRecord)

  /**
   * One entry of a validation payload's `data.data` object, in key order:
   * the field name and its `message`; "" stands for a missing or falsy
   * entry or message.
   */
  datatype FieldEntry = FieldEntry(name: string, message: string)

  /**
   * The `data` object of an error response: its `message` ("" when missing
   * or empty) and its `data` object of per-field errors (`None` when missing).
   */
  datatype ErrorData = ErrorData(message: string, fields: Option<seq<FieldEntry>>)

  /**
   * A thrown error: its message (`error.message`, or `String(error)` for a
   * non-`Error`), and `Some` response data when the error is an object with
   * a `response` object that has a `data` key.
   */
  datatype ClientError = ClientError(message: string, response: Option<ErrorData>)

  /** The outcome of one SDK call: the value it resolved to, or what it threw. */
  datatype Answer<T> = Answered(value: T) | Threw(error: ClientError)

  /**
   * One SDK call. An option the source does not pass (`filter`, `sort`,
   * `expand`) is "".
   */
  datatype Request =
    | GetFullList(collection: string, filter: string, sort: string, expand: string)
    | GetFirstListItem(collection: string, filter: string)
    | CreateWatch(user: string, ticker: string)
    | Delete(collection: string, id: string)
    | CreateUser(email: string, password: string, passwordConfirm: string, name: string)
    | AuthWithPassword(email: string, password: string)

  /** What a service operation does: the requests it issues, in order, and what it returns. */
  datatype Call<T> = Call(requests: seq<Request>, result: T)

  /** JavaScript truthiness of a user id: `null`, `undefined` and "" are falsy. */
  predicate Truthy(id: Option<string>)
  {
    id.Some? && id.value != ""
  }
}

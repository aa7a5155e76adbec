/** The screens' view of the hosted data store and of the notification area. Every store call is
    an input to the operation that makes it: a write comes back as a StoreResult, a read as a
    Fetch. */
module Store {
  import opened Wrappers

  /** Outcome of an insert, update or delete: `{ error }` is null or carries a message. */
  datatype StoreResult = Ok | Failed(message: string)

  /** Outcome of a select: rows, a null `data` without an error, or an error. */
  datatype Fetch<T> = Fetched(rows: seq<T>) | NoData | FetchFailed(message: string)

  /** `data || []` when the error is ignored, as the lab screen does. */
  function RowsOrEmpty<T>(f: Fetch<T>): seq<T> {
    if f.Fetched? then f.rows else []
  }

  /** A list refreshed by a fetcher that throws on error and catches it itself: an error keeps the
      current list, otherwise the list becomes `data || []`. */
  function Refreshed<T>(current: seq<T>, f: Fetch<T>): seq<T> {
    match f
    case Fetched(rows) => rows
    case NoData => []
    case FetchFailed(_) => current
  }

  datatype NoticeKind = Success | Error | Warning

  /** The `showNotification` toast: title, message and kind. */
  datatype Notice = Notice(title: string, message: string, kind: NoticeKind)

  /** JavaScript truthiness of a nullable numeric id (`if (editingId)`): null and 0 are both unset. */
  predicate IsSet(id: Option<int>) {
    id.Some? && id.value != 0
  }
}

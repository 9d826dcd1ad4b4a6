/** Shared values of the tracker: the optional (nullable) wrapper, the error-carrying
    result, one logged coffee, the timestamp-keyed log and the signed-in user. */
module Types {

  /** A value that may be absent; stands for a JavaScript value that may be `null`. */
  datatype Option<+T> = None | Some(value: T)

  /** The outcome of an operation that may throw. */
  datatype Result<+T, +E> = Success(value: T) | Failure(error: E)

  /** One logged consumption: the coffee's name and what it cost. The cost is the
      JavaScript number typed into the cost field. */
  datatype Entry = Entry(name: string, cost: real)

  /** The user's log: epoch-millisecond timestamp of the consumption to its entry. */
  type Log = map<int, Entry>

  /** A signed-in user; only the identifier of its document is used. */
  datatype User = User(uid: string)

  /** The log with `null` read as the empty log, as `globalData || {}` does. */
  function OrEmpty(data: Option<Log>): (m: Log)
    ensures data.None? ==> m == map[]
    ensures data.Some? ==> m == data.value
  {
    match data
    case None => map[]
    case Some(log) => log
  }
}

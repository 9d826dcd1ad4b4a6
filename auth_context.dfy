/** The session provider: who is signed in, that user's log and whether the log is
    being fetched, with the transitions `logout` and the auth-state listener make,
    and the check that a consumer sits under a provider. */
module AuthContext {
  import opened Types

  /** What reading the user's document produced. */
  datatype FetchOutcome =
    | Found(doc: Log)   // the document exists; its contents
    | Missing           // no document for this user yet
    | Threw             // the read failed

  /** The message `useAuth` throws outside a provider. */
  const OutsideProviderMessage := "useAuth must be used within an AuthProvider"

  /** `useAuth`: the provider's value, or the error thrown when there is none. */
  function UseAuth<V>(context: Option<V>): (r: Result<V, string>)
    ensures r.Failure? <==> context.None?
    ensures r.Failure? ==> r.error == OutsideProviderMessage
    ensures r.Success? ==> r.value == context.value
  {
    match context
    case None => Failure(OutsideProviderMessage)
    case Some(v) => Success(v)
  }

  /** The data the listener stores for a signed-in user whose fetch did not throw:
      the document if it exists, otherwise the empty log. `None` when the fetch threw. */
  function FetchedData(outcome: FetchOutcome): (d: Option<Log>)
    ensures d.None? <==> outcome == Threw
    ensures outcome.Found? ==> d == Some(outcome.doc)
    ensures outcome == Missing ==> d == Some(map[])
  {
    match outcome
    case Found(doc) => Some(doc)
    case Missing => Some(map[])
    case Threw => None
  }

  /** The provider's state: `globalUser`, `globalData` and `isLoading`. */
  class Session {
    var user: Option<User>
    var data: Option<Log>
    var isLoading: bool

    /** A fresh provider: nobody signed in, no data, not loading. */
    constructor ()
      ensures user == None && data == None && !isLoading
    {
      user := None;
      data := None;
      isLoading := false;
    }

    /** `setGlobalData`. */
    method SetData(d: Option<Log>)
      modifies this
      ensures data == d
      ensures user == old(user) && isLoading == old(isLoading)
    {
      data := d;
    }

    /** `logout`: forgets the user and the data; the sign-out call itself is not modelled. */
    method Logout()
      modifies this
      ensures user == None && data == None
      ensures isLoading == old(isLoading)
    {
      user := None;
      data := None;
    }

    /** The listener up to the document read: records the user and, for a signed-in
        user, raises `isLoading`. Returns whether a read follows. */
    method BeginAuthChange(u: Option<User>) returns (fetching: bool)
      modifies this
      ensures fetching <==> u.Some?
      ensures user == u
      ensures data == old(data)
      ensures isLoading == (u.Some? || old(isLoading))
      ensures fetching ==> isLoading
    {
      user := u;
      fetching := u.Some?;
      if fetching {
        isLoading := true;
      }
    }

    /** The listener after the document read: stores what was read (the `try`) and
        lowers `isLoading` whatever happened (the `finally`). */
    method FinishAuthChange(outcome: FetchOutcome)
      modifies this
      ensures user == old(user)
      ensures data == if outcome == Threw then old(data) else FetchedData(outcome)
      ensures !isLoading
    {
      var d := FetchedData(outcome);
      if d.Some? {
        data := d;
      }
      isLoading := false;
    }

    /** The whole `onAuthStateChanged` handler as one step; `outcome` is what the
        document read gives, consulted only for a signed-in user. */
    method OnAuthStateChanged(u: Option<User>, outcome: FetchOutcome)
      modifies this
      ensures user == u
      ensures u.None? ==> data == old(data) && isLoading == old(isLoading)
      ensures u.Some? ==> !isLoading
      ensures u.Some? && outcome.Found? ==> data == Some(outcome.doc)
      ensures u.Some? && outcome == Missing ==> data == Some(map[])
      ensures u.Some? && outcome == Threw ==> data == old(data)
    {
      var fetching := BeginAuthChange(u);
      if fetching {
        FinishAuthChange(outcome);
      }
    }
  }
}

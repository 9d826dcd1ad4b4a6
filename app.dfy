/** The page: which parts are shown for the provider's user, data and loading flag. */
module App {
  import opened Types
  import History
  import CoffeeForm

  /** `Boolean(globalUser)`. */
  predicate IsAuthenticated(user: Option<User>)
    ensures IsAuthenticated(user) <==> user != None
  {
    user.Some?
  }

  /** `Boolean(globalData && Object.keys(globalData || {}).length)`: a log with at
      least one entry. */
  predicate IsData(data: Option<Log>)
    ensures IsData(data) <==> data.Some? && data.value != map[]
  {
    data.Some? && |data.value.Keys| > 0
  }

  /** Which of the conditional parts of the page are rendered. */
  datatype Page = Page(loadingMessage: bool, statsAndHistory: bool)

  function Render(user: Option<User>, data: Option<Log>, isLoading: bool): (p: Page)
    ensures p.loadingMessage <==> user.Some? && isLoading
    ensures p.statsAndHistory <==> user.Some? && data.Some? && data.value != map[]
  {
    Page(IsAuthenticated(user) && isLoading, IsAuthenticated(user) && IsData(data))
  }

  /** Stats and History are rendered only over a log that exists and has an entry,
      so History's key listing never meets a null log. */
  lemma ContentGateProtectsHistory(user: Option<User>, data: Option<Log>, isLoading: bool, u: History.Utils)
    requires Render(user, data, isLoading).statsAndHistory
    ensures History.View(data, u).Success?
    ensures |History.View(data, u).value| >= 1
  {
    assert data.Some? && data.value != map[];
  }

  /** A signed-in user whose document had no entries sees no Stats or History until
      the first submit, after which both appear. */
  lemma FirstEntryShowsContent(user: User, key: int, e: Entry, isLoading: bool)
    ensures !Render(Some(user), Some(map[]), isLoading).statsAndHistory
    ensures Render(Some(user), Some(CoffeeForm.WithEntry(Some(map[]), key, e)), isLoading).statsAndHistory
  {
    var m := CoffeeForm.WithEntry(Some(map[]), key, e);
    assert key in m;
  }
}

/** The `favorites` store and the thunk that loads the signed-in user's favourites. */
module FavoritesSlice {
  import opened Options
  import opened Domain
  import opened Thunks

  /** What `fetchFavorites` does: whether it sent a request, and how it settled. */
  datatype Fetch = Fetch(requested: bool, outcome: Outcome<seq<Recipe>>)

  /**
   * `fetchFavorites` for the token the auth store holds: a missing or empty token
   * rejects with 'Not authenticated' before any request; otherwise the reply's
   * favourites, or the server message, or 'Failed to fetch favorites'.
   */
  function FetchFavorites(token: Option<string>, reply: Reply<seq<Recipe>>): (r: Fetch)
    ensures r.requested <==> token.Some? && token.value != ""
    ensures !r.requested ==> r.outcome == Rejected("Not authenticated")
    ensures r.requested ==> r.outcome == Settle(reply, "Failed to fetch favorites")
  {
    if token.None? || token.value == "" then Fetch(false, Rejected("Not authenticated"))
    else Fetch(true, Settle(reply, "Failed to fetch favorites"))
  }

  /** Without a token the outcome is the same whatever the server would have said. */
  lemma NoTokenNoRequest(reply1: Reply<seq<Recipe>>, reply2: Reply<seq<Recipe>>)
    ensures FetchFavorites(None, reply1) == FetchFavorites(Some(""), reply2)
    ensures FetchFavorites(None, reply1).outcome.Rejected?
  {
  }

  datatype State = State(favorites: seq<Recipe>, loading: bool, error: Option<string>)

  const Initial := State([], false, None)

  datatype Action = Pending | Settled(outcome: Outcome<seq<Recipe>>)

  /** The reducer. */
  function Reduce(s: State, a: Action): (r: State)
    ensures a.Pending? ==> r.loading && r.error.None? && r.favorites == s.favorites
    ensures a.Settled? ==> !r.loading
    ensures a.Settled? && a.outcome.Fulfilled? ==> r.favorites == a.outcome.payload && r.error == s.error
    ensures a.Settled? && a.outcome.Rejected? ==> r.favorites == s.favorites && r.error == Some(a.outcome.reason)
  {
    match a
    case Pending => s.(loading := true, error := None)
    case Settled(Fulfilled(fs)) => s.(loading := false, favorites := fs)
    case Settled(Rejected(reason)) => s.(loading := false, error := Some(reason))
  }

  /**
   * A load from any state: with no token the previous favourites stay and the
   * error says so; with a token and an answer they are replaced by the answer.
   */
  lemma LoadCycle(s: State, token: Option<string>, reply: Reply<seq<Recipe>>)
    ensures var r := Reduce(Reduce(s, Pending), Settled(FetchFavorites(token, reply).outcome));
      && !r.loading
      && (token.None? || token == Some("") ==> r.favorites == s.favorites && r.error == Some("Not authenticated"))
      && (token.Some? && token.value != "" && reply.Answered? ==> r.favorites == reply.data && r.error.None?)
  {
  }

  class FavoritesStore {
    var favorites: seq<Recipe>
    var loading: bool
    var error: Option<string>

    function Snapshot(): State
      reads this
    {
      State(favorites, loading, error)
    }

    constructor ()
      ensures Snapshot() == Initial
    {
      favorites, loading, error := [], false, None;
    }

    method OnPending()
      modifies this
      ensures Snapshot() == Reduce(old(Snapshot()), Pending)
    {
      loading := true;
      error := None;
    }

    method OnSettled(outcome: Outcome<seq<Recipe>>)
      modifies this
      ensures Snapshot() == Reduce(old(Snapshot()), Settled(outcome))
    {
      loading := false;
      match outcome
      case Fulfilled(fs) =>
        favorites := fs;
      case Rejected(reason) =>
        error := Some(reason);
    }
  }
}

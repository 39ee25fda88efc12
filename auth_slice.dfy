/**
 * The `auth` store together with the browser's stored token: the initial token
 * read from storage, `logout` and `setUser`, and the login and register
 * requests, whose pending, fulfilled and rejected cases act alike.
 */
module AuthSlice {
  import opened Options
  import opened Domain
  import opened Thunks

  /** `localStorage.getItem('token') || null`: an empty stored string counts as no token. */
  function InitialToken(stored: Option<string>): (r: Option<string>)
    ensures r.Some? <==> stored.Some? && stored.value != ""
    ensures r.Some? ==> r == stored
  {
    if stored.Some? && stored.value != "" then stored else None
  }

  /** What the login and register endpoints answer with. */
  datatype Session = Session(user: User, token: string)

  /** How `loginUser` settles. */
  function SettleLogin(reply: Reply<Session>): (r: Outcome<Session>)
    ensures reply.Answered? <==> r.Fulfilled?
    ensures r.Fulfilled? ==> r.payload == reply.data
    ensures r.Rejected? ==> r.reason == RejectValue(reply.message, "Failed to login")
  {
    Settle(reply, "Failed to login")
  }

  /** How `registerUser` settles. */
  function SettleRegister(reply: Reply<Session>): (r: Outcome<Session>)
    ensures reply.Answered? <==> r.Fulfilled?
    ensures r.Fulfilled? ==> r.payload == reply.data
    ensures r.Rejected? ==> r.reason == RejectValue(reply.message, "Failed to register")
  {
    Settle(reply, "Failed to register")
  }

  /** A snapshot of the store and of the stored token. */
  datatype State = State(
    user: Option<User>,
    token: Option<string>,
    loading: bool,
    error: Option<string>,
    stored: Option<string>)

  /** `initialState`, for what storage holds when the app loads. */
  function Initial(stored: Option<string>): (r: State)
    ensures r.user.None? && !r.loading && r.error.None?
    ensures r.stored == stored
    ensures r.token == InitialToken(stored)
  {
    State(None, InitialToken(stored), false, None, stored)
  }

  /** The actions the reducer handles; `loginUser` and `registerUser` share the last two. */
  datatype Action =
    | Logout
    | SetUser(user: Option<User>, token: Option<string>)
    | AuthPending
    | AuthSettled(outcome: Outcome<Session>)

  /** The signed-in user, the token and the stored token are the same in both snapshots. */
  predicate SameSession(a: State, b: State)
  {
    a.user == b.user && a.token == b.token && a.stored == b.stored
  }

  /** The reducer, with the storage writes it performs. */
  function Reduce(s: State, a: Action): (r: State)
    ensures a.Logout? ==> r == s.(user := None, token := None, stored := None)
    ensures a.SetUser? ==> r == s.(user := a.user, token := a.token)
    ensures a.AuthPending? ==> r.loading && r.error.None? && SameSession(r, s)
    ensures a.AuthSettled? && a.outcome.Fulfilled? ==>
      r == s.(loading := false, user := Some(a.outcome.payload.user),
               token := Some(a.outcome.payload.token), stored := Some(a.outcome.payload.token))
    ensures a.AuthSettled? && a.outcome.Rejected? ==>
      !r.loading && r.error == Some(a.outcome.reason) && SameSession(r, s)
  {
    match a
    case Logout => s.(user := None, token := None, stored := None)
    case SetUser(user, token) => s.(user := user, token := token)
    case AuthPending => s.(loading := true, error := None)
    case AuthSettled(Fulfilled(p)) =>
      s.(loading := false, user := Some(p.user), token := Some(p.token), stored := Some(p.token))
    case AuthSettled(Rejected(reason)) => s.(loading := false, error := Some(reason))
  }

  /** The stored token is the one the store holds. */
  predicate InSync(s: State)
  {
    s.stored == s.token
  }

  /** Everything but `setUser` keeps storage in step with the store; logout and a successful sign-in restore it. */
  lemma ReduceKeepsInSync(s: State, a: Action)
    requires !a.SetUser?
    ensures a.Logout? || (a.AuthSettled? && a.outcome.Fulfilled?) ==> InSync(Reduce(s, a))
    ensures InSync(s) ==> InSync(Reduce(s, a))
  {
  }

  /** `setUser` does not write storage, so it can leave the stored token behind. */
  lemma SetUserLeavesStorage(u: User)
    ensures var s := Reduce(Initial(None), SetUser(Some(u), Some("t")));
      s.token == Some("t") && s.stored.None? && !InSync(s)
  {
  }

  /** The store starts in step with storage unless storage holds the empty string. */
  lemma InitialInSync(stored: Option<string>)
    ensures InSync(Initial(stored)) <==> stored != Some("")
  {
  }

  /**
   * Reloading the app after a step that keeps storage in step gives back the same
   * token, except for an empty token, which the reload reads as none.
   */
  lemma ReloadKeepsToken(s: State)
    requires InSync(s)
    ensures s.token != Some("") ==> Initial(s.stored).token == s.token
    ensures s.token == Some("") ==> Initial(s.stored).token.None?
  {
  }

  /** The store as the slice keeps it, with the browser's stored token beside it. */
  class AuthStore {
    var user: Option<User>
    var token: Option<string>
    var loading: bool
    var error: Option<string>
    var stored: Option<string>

    function Snapshot(): State
      reads this
    {
      State(user, token, loading, error, stored)
    }

    constructor (storage: Option<string>)
      ensures Snapshot() == Initial(storage)
    {
      stored := storage;
      user := None;
      token := if storage.Some? && storage.value != "" then storage else None;
      loading := false;
      error := None;
    }

    method OnLogout()
      modifies this
      ensures Snapshot() == Reduce(old(Snapshot()), Logout)
    {
      user := None;
      token := None;
      stored := None;
    }

    method OnSetUser(u: Option<User>, t: Option<string>)
      modifies this
      ensures Snapshot() == Reduce(old(Snapshot()), SetUser(u, t))
    {
      user := u;
      token := t;
    }

    /** `loginUser.pending` and `registerUser.pending`. */
    method OnPending()
      modifies this
      ensures Snapshot() == Reduce(old(Snapshot()), AuthPending)
    {
      loading := true;
      error := None;
    }

    /** `loginUser` and `registerUser`, fulfilled or rejected. */
    method OnSettled(outcome: Outcome<Session>)
      modifies this
      ensures Snapshot() == Reduce(old(Snapshot()), AuthSettled(outcome))
    {
      loading := false;
      match outcome
      case Fulfilled(p) =>
        user := Some(p.user);
        token := Some(p.token);
        stored := Some(p.token);
      case Rejected(reason) =>
        error := Some(reason);
    }
  }
}

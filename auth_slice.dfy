/** The session record: who is signed in, whether someone is, and whether a
    request is in flight. The reducer is given as a function on state values;
    the store applies it in place. */
module AuthSlice {
  import opened Wrappers
  import opened AuthTypes

  /** The slice's state record; `None` is `null`. */
  datatype AuthState = AuthState(user: Option<AuthUser>, isAuthenticated: bool, isLoading: bool)

  /** Nobody signed in, nothing loading. */
  const InitialState: AuthState := AuthState(None, false, false)

  /** The slice's invariant: authenticated exactly when a user is stored. */
  predicate Consistent(s: AuthState) {
    s.isAuthenticated <==> s.user.Some?
  }

  /** The three actions the slice accepts. */
  datatype Action = SetUser(payload: AuthUser) | ClearAuth | SetLoading(loading: bool)

  /** The slice reducer: the state after one action. */
  function Reduce(s: AuthState, a: Action): (r: AuthState)
    ensures a.SetUser? ==> r.user == Some(a.payload) && r.isAuthenticated && r.isLoading == s.isLoading
    ensures a.ClearAuth? ==> r.user.None? && !r.isAuthenticated && r.isLoading == s.isLoading
    ensures a.SetLoading? ==> r.user == s.user && r.isAuthenticated == s.isAuthenticated && r.isLoading == a.loading
    ensures !a.SetLoading? ==> Consistent(r)
    ensures Consistent(s) ==> Consistent(r)
  {
    match a
    case SetUser(u) => s.(user := Some(u), isAuthenticated := true)
    case ClearAuth => s.(user := None, isAuthenticated := false)
    case SetLoading(b) => s.(isLoading := b)
  }

  /** The state after a sequence of actions, in order. */
  function Run(s: AuthState, actions: seq<Action>): AuthState
    decreases |actions|
  {
    if actions == [] then s else Run(Reduce(s, actions[0]), actions[1..])
  }

  /** Every state the slice can reach from its initial state keeps the invariant. */
  lemma {:induction false} RunKeepsConsistent(s: AuthState, actions: seq<Action>)
    requires Consistent(s)
    ensures Consistent(Run(s, actions))
    decreases |actions|
  {
    if actions != [] {
      RunKeepsConsistent(Reduce(s, actions[0]), actions[1..]);
    }
  }

  /** The initial state is consistent, so every reachable state is. */
  lemma {:induction false} ReachableConsistent(actions: seq<Action>)
    ensures Consistent(Run(InitialState, actions))
  {
    RunKeepsConsistent(InitialState, actions);
  }

  /** Loading changes are invisible to the session fields, whatever their number. */
  lemma {:induction false} LoadingOnlyTouchesLoading(s: AuthState, actions: seq<Action>)
    requires forall i :: 0 <= i < |actions| ==> actions[i].SetLoading?
    ensures Run(s, actions).user == s.user
    ensures Run(s, actions).isAuthenticated == s.isAuthenticated
    decreases |actions|
  {
    if actions != [] {
      LoadingOnlyTouchesLoading(Reduce(s, actions[0]), actions[1..]);
    }
  }

  /** Clearing twice is clearing once. */
  lemma ClearAuthIdempotent(s: AuthState)
    ensures Reduce(Reduce(s, ClearAuth), ClearAuth) == Reduce(s, ClearAuth)
  {
  }

  /** Signing in and then out restores the initial session fields and keeps
      the loading flag. */
  lemma SetUserThenClear(s: AuthState, u: AuthUser)
    ensures Run(s, [SetUser(u), ClearAuth]) == InitialState.(isLoading := s.isLoading)
  {
    var signedIn := Reduce(s, SetUser(u));
    assert [SetUser(u), ClearAuth][1..] == [ClearAuth];
    assert [ClearAuth][1..] == [];
    assert Run(s, [SetUser(u), ClearAuth]) == Run(Reduce(signedIn, ClearAuth), []);
  }

  /** `selectUser`: the stored user. */
  function SelectUser(s: AuthState): (u: Option<AuthUser>)
    ensures u == s.user
    ensures Consistent(s) ==> (u.Some? <==> s.isAuthenticated)
  {
    s.user
  }

  /** `selectIsAuthenticated`: the stored flag, which on a consistent state
      says whether `selectUser` has a user. */
  function SelectIsAuthenticated(s: AuthState): (b: bool)
    ensures b == s.isAuthenticated
    ensures Consistent(s) ==> (b <==> SelectUser(s).Some?)
  {
    s.isAuthenticated
  }

  /** The store's `auth` slice, updated in place by the reducers. */
  class AuthStore {
    var user: Option<AuthUser>
    var isAuthenticated: bool
    var isLoading: bool

    /** The current state record. */
    function State(): AuthState
      reads this
    {
      AuthState(user, isAuthenticated, isLoading)
    }

    ghost predicate Valid()
      reads this
    {
      Consistent(State())
    }

    /** The slice starts from its initial state. */
    constructor ()
      ensures State() == InitialState && Valid()
    {
      user := None;
      isAuthenticated := false;
      isLoading := false;
    }

    /** `setUser(payload)`. */
    method SetUser(payload: AuthUser)
      modifies this
      ensures State() == Reduce(old(State()), Action.SetUser(payload))
      ensures user == Some(payload) && isAuthenticated && isLoading == old(isLoading)
      ensures Valid()
    {
      user := Some(payload);
      isAuthenticated := true;
    }

    /** `clearAuth()`. */
    method ClearAuth()
      modifies this
      ensures State() == Reduce(old(State()), Action.ClearAuth)
      ensures user.None? && !isAuthenticated && isLoading == old(isLoading)
      ensures Valid()
    {
      user := None;
      isAuthenticated := false;
    }

    /** `setLoading(loading)`. */
    method SetLoading(loading: bool)
      modifies this
      ensures State() == Reduce(old(State()), Action.SetLoading(loading))
      ensures user == old(user) && isAuthenticated == old(isAuthenticated) && isLoading == loading
      ensures old(Valid()) ==> Valid()
    {
      isLoading := loading;
    }
  }
}

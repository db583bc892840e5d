/**
 * The authentication store of the frontend: its reducer, the permission and role checks,
 * and the mock login's name and role derivation from an e-mail address.
 */
module AuthContext {
  import opened Wrappers
  import opened Text

  const FACULTATIVE_UNDERWRITER := "facultative_underwriter"
  const PORTFOLIO_MANAGER := "portfolio_manager"
  const SENIOR_MANAGER := "senior_manager"

  datatype Permission = Permission(resource: string, actions: seq<string>)

  /** The user fields the checks read; avatar, department and login time are left out. */
  datatype User = User(id: string, email: string, name: string, role: string, permissions: seq<Permission>)

  datatype AuthState = AuthState(user: Option<User>, isAuthenticated: bool, isLoading: bool, error: Option<string>)

  const INITIAL_STATE: AuthState := AuthState(None, false, true, None)

  datatype AuthAction =
    | LoginStart
    | LoginSuccess(loggedIn: User)
    | LoginFailure(message: string)
    | Logout
    | ClearError
    | SetLoading(loading: bool)

  /** `authReducer`. */
  function Reduce(state: AuthState, action: AuthAction): AuthState {
    match action
    case LoginStart => state.(isLoading := true, error := None)
    case LoginSuccess(u) => state.(user := Some(u), isAuthenticated := true, isLoading := false, error := None)
    case LoginFailure(m) => state.(user := None, isAuthenticated := false, isLoading := false, error := Some(m))
    case Logout => state.(user := None, isAuthenticated := false, isLoading := false, error := None)
    case ClearError => state.(error := None)
    case SetLoading(b) => state.(isLoading := b)
  }

  /** The state's flag agrees with its user. */
  predicate Consistent(state: AuthState) {
    state.isAuthenticated <==> state.user.Some?
  }

  /** Every action keeps the flag in agreement with the user. */
  lemma ReduceKeepsConsistent(state: AuthState, action: AuthAction)
    requires Consistent(state)
    ensures Consistent(Reduce(state, action))
  {
  }

  /** The state after dispatching `actions` in order. */
  function Run(state: AuthState, actions: seq<AuthAction>): AuthState
    decreases |actions|
  {
    if actions == [] then state else Run(Reduce(state, actions[0]), actions[1..])
  }

  /** From the initial state, every sequence of actions leaves the flag and the user in agreement. */
  lemma {:induction false} RunKeepsConsistent(state: AuthState, actions: seq<AuthAction>)
    requires Consistent(state)
    ensures Consistent(Run(state, actions))
    decreases |actions|
  {
    if actions != [] {
      ReduceKeepsConsistent(state, actions[0]);
      RunKeepsConsistent(Reduce(state, actions[0]), actions[1..]);
    }
  }

  lemma InitialConsistent()
    ensures Consistent(INITIAL_STATE) && !INITIAL_STATE.isAuthenticated && INITIAL_STATE.isLoading
  {
  }

  /**
   * LOGIN_SUCCESS sets the user, clears the error and stops loading; LOGIN_FAILURE clears
   * the user and records the message; LOGOUT clears user and error; CLEAR_ERROR and
   * SET_LOADING change only their own field.
   */
  lemma ActionEffects(state: AuthState, u: User, m: string, b: bool)
    ensures Reduce(state, LoginSuccess(u)) == AuthState(Some(u), true, false, None)
    ensures Reduce(state, LoginFailure(m)) == AuthState(None, false, false, Some(m))
    ensures Reduce(state, Logout) == AuthState(None, false, false, None)
    ensures Reduce(state, ClearError) == state.(error := None)
    ensures Reduce(state, SetLoading(b)) == state.(isLoading := b)
    ensures Reduce(state, LoginStart).user == state.user
  {
  }

  /** `permissions.find(p => p.resource === resource)`. */
  function FindPermission(perms: seq<Permission>, resource: string): (r: Option<Permission>)
    ensures r.None? <==> forall i | 0 <= i < |perms| :: perms[i].resource != resource
    ensures r.Some? ==> exists i | 0 <= i < |perms| :: perms[i] == r.value && FirstFor(perms, resource, i)
  {
    if perms == [] then None
    else if perms[0].resource == resource then
      assert FirstFor(perms, resource, 0);
      Some(perms[0])
    else
      var r := FindPermission(perms[1..], resource);
      if r.Some? then
        var i :| 0 <= i < |perms[1..]| && perms[1..][i] == r.value && FirstFor(perms[1..], resource, i);
        assert FirstFor(perms, resource, i + 1);
        r
      else
        r
  }

  /** Entry `i` is the first one for `resource`. */
  predicate FirstFor(perms: seq<Permission>, resource: string, i: int) {
    0 <= i < |perms| && perms[i].resource == resource && forall j | 0 <= j < i :: perms[j].resource != resource
  }

  /** `hasPermission`. */
  function HasPermission(user: Option<User>, resource: string, action: string): (r: bool)
    ensures user.None? ==> !r
    ensures r <==> (user.Some? &&
      exists i | 0 <= i < |user.value.permissions| ::
        FirstFor(user.value.permissions, resource, i) && action in user.value.permissions[i].actions)
  {
    if user.None? then false
    else
      var p := FindPermission(user.value.permissions, resource);
      if p.Some? then
        FirstForUnique(user.value.permissions, resource);
        action in p.value.actions
      else false
  }

  lemma FirstForUnique(perms: seq<Permission>, resource: string)
    ensures forall i, j | FirstFor(perms, resource, i) && FirstFor(perms, resource, j) :: i == j
  {
  }

  /**
   * Only the first entry for a resource counts: replacing a later entry for the same
   * resource never changes the answer.
   */
  lemma OnlyFirstEntryCounts(u: User, resource: string, action: string, k: nat, replacement: Permission)
    requires k < |u.permissions| && u.permissions[k].resource == resource
    requires exists j | 0 <= j < k :: u.permissions[j].resource == resource
    ensures HasPermission(Some(u.(permissions := u.permissions[k := replacement])), resource, action)
      == HasPermission(Some(u), resource, action)
  {
    var perms := u.permissions;
    var perms' := perms[k := replacement];
    FirstForUnique(perms, resource);
    FirstForUnique(perms', resource);
    var j :| 0 <= j < k && perms[j].resource == resource;
    assert perms'[j] == perms[j];
    forall i | 0 <= i < |perms| ensures FirstFor(perms, resource, i) <==> FirstFor(perms', resource, i) {
      if FirstFor(perms, resource, i) || FirstFor(perms', resource, i) {
        assert i <= j;
        assert forall m | 0 <= m <= i :: perms'[m] == perms[m];
      }
    }
  }

  /** `hasRole`. */
  function HasRole(user: Option<User>, role: string): (r: bool)
    ensures r <==> user.Some? && user.value.role == role
  {
    user.Some? && user.value.role == role
  }

  /**
   * The mock login's role: the first of "underwriter", "portfolio", "manager" found in the
   * e-mail decides, and an e-mail with none of them is an underwriter.
   */
  function RoleFor(email: string): (r: string)
    ensures r == PORTFOLIO_MANAGER <==> !Contains(email, "underwriter") && Contains(email, "portfolio")
    ensures r == SENIOR_MANAGER <==>
      !Contains(email, "underwriter") && !Contains(email, "portfolio") && Contains(email, "manager")
    ensures r == FACULTATIVE_UNDERWRITER <==>
      Contains(email, "underwriter") || (!Contains(email, "portfolio") && !Contains(email, "manager"))
  {
    if Contains(email, "underwriter") then FACULTATIVE_UNDERWRITER
    else if Contains(email, "portfolio") then PORTFOLIO_MANAGER
    else if Contains(email, "manager") then SENIOR_MANAGER
    else FACULTATIVE_UNDERWRITER
  }

  /** `s.replace(a, b)` with a one-character pattern: only the first occurrence is replaced. */
  function ReplaceFirst(s: string, a: char, b: char): (r: string)
    ensures |r| == |s|
    ensures forall i | 0 <= i < |s| :: r[i] == if i == IndexOf(s, a) then b else s[i]
  {
    var k := IndexOf(s, a);
    if k == |s| then s else s[..k] + [b] + s[k + 1..]
  }

  function CapitalizeAll(words: seq<string>): (r: seq<string>)
    ensures |r| == |words|
    ensures forall i | 0 <= i < |words| :: r[i] == Capitalize(words[i])
  {
    if words == [] then [] else [Capitalize(words[0])] + CapitalizeAll(words[1..])
  }

  /** `s.split(' ').map(capitalize).join(' ')`. */
  function CapitalizeWords(s: string): string {
    Join(CapitalizeAll(Split(s, ' ')), " ")
  }

  /** Position `i` of `s` starts a space-separated word. */
  predicate WordStart(s: string, i: nat)
    requires i < |s|
  {
    i == 0 || s[i - 1] == ' '
  }

  /** Capitalising the words of `w + " " + tail` capitalises `w`, then the words of `tail`. */
  lemma CapitalizeWordsCons(s: string, k: nat)
    requires k < |s| && k == IndexOf(s, ' ')
    ensures CapitalizeWords(s) == Capitalize(s[..k]) + " " + CapitalizeWords(s[k + 1..])
  {
    var rest := Split(s[k + 1..], ' ');
    assert Split(s, ' ') == [s[..k]] + rest;
    var caps := CapitalizeAll([s[..k]] + rest);
    assert caps == [Capitalize(s[..k])] + CapitalizeAll(rest);
    assert caps[1..] == CapitalizeAll(rest);
  }

  /** Capitalising the words upper-cases exactly the first character of each word. */
  lemma {:induction false} CapitalizeWordsPointwise(s: string)
    ensures |CapitalizeWords(s)| == |s|
    ensures forall i | 0 <= i < |s| :: CapitalizeWords(s)[i] == if WordStart(s, i) then Upper(s[i]) else s[i]
    decreases |s|
  {
    var k := IndexOf(s, ' ');
    if k == |s| {
      assert Split(s, ' ') == [s];
      assert CapitalizeWords(s) == Capitalize(s);
      CapitalizePointwise(s);
    } else {
      var tail := s[k + 1..];
      CapitalizeWordsPointwise(tail);
      CapitalizeWordsCons(s, k);
      CapitalizePointwise(s[..k]);
      GluePointwise(s, k, Capitalize(s[..k]), CapitalizeWords(tail));
    }
  }

  /** A capitalised first word, a space and the capitalised later words have the shape of the whole. */
  lemma GluePointwise(s: string, k: nat, head: string, rest: string)
    requires k < |s| && k == IndexOf(s, ' ')
    requires |head| == k && forall i | 0 <= i < k :: head[i] == if i == 0 then Upper(s[..k][i]) else s[..k][i]
    requires |rest| == |s| - k - 1
    requires forall j | 0 <= j < |rest| ::
      rest[j] == if WordStart(s[k + 1..], j) then Upper(s[k + 1..][j]) else s[k + 1..][j]
    ensures |head + " " + rest| == |s|
    ensures forall i | 0 <= i < |s| :: (head + " " + rest)[i] == if WordStart(s, i) then Upper(s[i]) else s[i]
  {
    var r := head + " " + rest;
    forall i | 0 <= i < |s| ensures r[i] == if WordStart(s, i) then Upper(s[i]) else s[i] {
      if i < k {
        assert r[i] == head[i];
        if i > 0 {
          assert s[..k][i - 1] == s[i - 1];
        }
      } else if i == k {
        assert r[i] == ' ';
      } else {
        assert r[i] == rest[i - k - 1];
        assert s[k + 1..][i - k - 1] == s[i];
      }
    }
  }

  /** The user name the mock login derives from an e-mail. */
  function DisplayName(email: string): string {
    CapitalizeWords(ReplaceFirst(Split(email, '@')[0], '.', ' '))
  }

  /**
   * The display name is the local part of the address with its first '.' turned into a
   * space and the first letter of each space-separated word upper-cased; every other
   * character, later dots included, is kept.
   */
  lemma DisplayNameShape(email: string)
    ensures var local := email[..IndexOf(email, '@')];
      var dot := IndexOf(local, '.');
      var name := DisplayName(email);
      && |name| == |local|
      && (forall i | 0 <= i < |local| ::
            name[i] == if i == dot then ' '
                       else if i == 0 || i - 1 == dot || local[i - 1] == ' ' then Upper(local[i])
                       else local[i])
  {
    var local := email[..IndexOf(email, '@')];
    var t := ReplaceFirst(local, '.', ' ');
    CapitalizeWordsPointwise(t);
  }

  const MOCK_PERMISSIONS: seq<Permission> := [
    Permission("submissions", ["read", "write", "approve"]),
    Permission("portfolio", ["read"]),
    Permission("reports", ["read", "write"])
  ]

  /** The user the mock login builds for an e-mail. */
  function MockUser(email: string): (u: User)
    ensures u.email == email && u.permissions == MOCK_PERMISSIONS
  {
    User("1", email, DisplayName(email), RoleFor(email), MOCK_PERMISSIONS)
  }

  /** Any user holding the mock permissions may approve submissions and read the portfolio, but not write it. */
  lemma MockPermissionsGrant(u: User)
    requires u.permissions == MOCK_PERMISSIONS
    ensures HasPermission(Some(u), "submissions", "approve")
    ensures HasPermission(Some(u), "portfolio", "read")
    ensures !HasPermission(Some(u), "portfolio", "write")
    ensures !HasPermission(Some(u), "documents", "read")
  {
    var perms := u.permissions;
    assert FirstFor(perms, "submissions", 0);
    assert FirstFor(perms, "portfolio", 1);
    assert perms[0].resource != "documents" && perms[1].resource != "documents" && perms[2].resource != "documents";
  }

  /** The mock login's user, whatever the e-mail, has exactly those grants. */
  lemma MockUserPermissions(email: string)
    ensures HasPermission(Some(MockUser(email)), "submissions", "approve")
    ensures HasPermission(Some(MockUser(email)), "portfolio", "read")
    ensures !HasPermission(Some(MockUser(email)), "portfolio", "write")
    ensures !HasPermission(Some(MockUser(email)), "documents", "read")
  {
    MockPermissionsGrant(MockUser(email));
  }
}

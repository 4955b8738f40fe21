/** The credential check of `login`: the first scanned registration with
    the submitted username decides, by a plain-text password comparison. */
module Login {
  import opened Wrappers
  import opened Records

  /** The `user_data` a successful login returns (no password). */
  datatype UserData = UserData(
    id: string,
    username: string,
    email: string,
    profileImageUrl: Option<string>,
    timestamp: string)

  /** The scan's `FilterExpression="username = :username"`. */
  predicate NamedBy(username: string, user: Item<UserBody>) {
    user.body.username == Some(username)
  }

  /** Position `i` holds the first scanned user with that username. */
  predicate FirstNamedAt(scan: seq<Item<UserBody>>, username: string, i: int) {
    && 0 <= i < |scan|
    && NamedBy(username, scan[i])
    && forall j :: 0 <= j < i ==> !NamedBy(username, scan[j])
  }

  /** The stored password equals the submitted one, and the keys the
      response reads without a default (`id`, `email`) are present. */
  predicate Accepts(user: Item<UserBody>, password: string) {
    user.body.password == Some(password) && user.id.Some? && user.body.email.Some?
  }

  /** `users[0]` of the filtered scan, as a position in the whole scan. */
  function FirstNamed(scan: seq<Item<UserBody>>, username: string): (r: Option<nat>)
    ensures r.Some? ==> FirstNamedAt(scan, username, r.value)
    ensures r.None? ==> forall j :: 0 <= j < |scan| ==> !NamedBy(username, scan[j])
  {
    if scan == [] then None
    else if NamedBy(username, scan[0]) then Some(0)
    else match FirstNamed(scan[1..], username)
      case None => None
      case Some(i) => Some(i + 1)
  }

  /** `login`: no user of that name, a stored password that differs from
      (or is missing beside) the submitted one, or a missing `id` or `email`
      all raise inside the `try` and come out as the same 500 response. */
  function Login(scan: seq<Item<UserBody>>, username: string, password: string): (r: Result<UserData, Error>)
    ensures r.Failure? ==> r.error == InternalError
    ensures r.Success? <==> exists i :: FirstNamedAt(scan, username, i) && Accepts(scan[i], password)
    ensures forall i :: FirstNamedAt(scan, username, i) && r.Success? ==>
      r.value == UserData(scan[i].id.value, username, scan[i].body.email.value,
                          scan[i].body.profileImageUrl, scan[i].timestamp.GetOr(""))
  {
    match FirstNamed(scan, username)
    case None => Failure(InternalError)
    case Some(i) =>
      var user := scan[i];
      if !Accepts(user, password) then Failure(InternalError)
      else
        Success(UserData(user.id.value, username, user.body.email.value,
                         user.body.profileImageUrl, user.timestamp.GetOr("")))
  }

  /** At most one position is the first with a given username. */
  lemma FirstNamedAtUnique(scan: seq<Item<UserBody>>, username: string, i: int, j: int)
    requires FirstNamedAt(scan, username, i) && FirstNamedAt(scan, username, j)
    ensures i == j
  {
  }

  /** Once a user of that name has been scanned, whatever the scan returns
      afterwards (a duplicate username included) is never consulted. */
  lemma {:induction false} LoginIgnoresLaterUsers(scan: seq<Item<UserBody>>, later: seq<Item<UserBody>>,
                                                  username: string, password: string)
    requires exists i :: 0 <= i < |scan| && NamedBy(username, scan[i])
    ensures Login(scan + later, username, password) == Login(scan, username, password)
  {
    var i := FirstNamed(scan, username).value;
    assert FirstNamedAt(scan + later, username, i) by {
      assert forall j :: 0 <= j <= i ==> (scan + later)[j] == scan[j];
    }
    assert FirstNamed(scan + later, username) == Some(i);
  }

  /** A registration stored by `register` is found by a login with the same
      username and password, provided no earlier scanned user has that name. */
  lemma LoginFindsRegisteredUser(scan: seq<Item<UserBody>>, i: int, id: string, ts: string,
                                 username: string, email: string, password: string, url: string)
    requires 0 <= i < |scan|
    requires scan[i] == Item(Some(id), Some(ts), UserBody(Some(username), Some(email), Some(password), Some(url)))
    requires forall j :: 0 <= j < i ==> !NamedBy(username, scan[j])
    ensures Login(scan, username, password) == Success(UserData(id, username, email, Some(url), ts))
  {
    assert FirstNamedAt(scan, username, i);
  }

  /** The `id` a successful login returns, over a scan of the registrations
      table, is the non-empty key the user is stored under: the id the
      dashboard later sends with every new post. */
  lemma LoginIdNonEmpty(scan: seq<Item<UserBody>>, t: map<string, Item<UserBody>>,
                        username: string, password: string)
    requires Keyed(t) && IsScanOf(scan, t)
    requires Login(scan, username, password).Success?
    ensures Login(scan, username, password).value.id != ""
    ensures Login(scan, username, password).value.id in t
  {
    var i := FirstNamed(scan, username).value;
    ScanHasIds(scan, t, i);
  }
}

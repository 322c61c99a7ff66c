/**
 * `backend/api/db/crud/user.py`: the user lookups by key and by id, and the
 * insert. The `show_detail_info` flag only chooses eager loading, which has
 * no counterpart here: relations are read from the edge sets by
 * `Store.LoadUser` whenever a response needs them.
 */
module UserCrud {
  import opened Wrappers
  import opened Errors
  import opened Models
  import opened Store

  /** The id in `[0, n)` of a user with `key`, scanning downwards. */
  function FindKey(users: map<int, User>, key: string, n: int): (r: Option<int>)
    decreases n
    ensures r.Some? ==> 0 <= r.value < n && r.value in users && users[r.value].key == key
    ensures r.None? ==> forall id :: 0 <= id < n && id in users ==> users[id].key != key
  {
    if n <= 0 then None
    else if n - 1 in users && users[n - 1].key == key then Some(n - 1)
    else FindKey(users, key, n - 1)
  }

  /** `select_user_by_key`: the one user with that key, or None. */
  function SelectUserByKey(d: Db, key: string): (r: Option<User>)
    requires Valid(d)
    ensures r.None? <==> forall id :: id in d.users ==> d.users[id].key != key
    ensures r.Some? ==> r.value.key == key && r.value.id in d.users && d.users[r.value.id] == r.value
    ensures forall id :: id in d.users && d.users[id].key == key ==> r == Some(d.users[id])
  {
    match FindKey(d.users, key, d.nextUserId)
    case None => None
    case Some(id) => Some(d.users[id])
  }

  /** `select_user_by_id`: the user with that id, or None. */
  function SelectUserById(d: Db, userId: int): (r: Option<User>)
    requires Valid(d)
    ensures r.Some? <==> userId in d.users
    ensures r.Some? ==> r.value.id == userId && d.users[userId] == r.value
  {
    if userId in d.users then Some(d.users[userId]) else None
  }

  /**
   * The effect of `add_user`'s flush: a `String(25)` overflow or a second
   * row with the same unique key makes it raise and insert nothing;
   * otherwise the row gets the next id of the sequence.
   */
  function AddUserOutcome(d: Db, key: string, name: string): (res: (Db, Result<User, Error>))
    requires Valid(d)
    ensures Valid(res.0)
    ensures res.1.Ok? <==> |name| <= MaxNameLength && SelectUserByKey(d, key).None?
    ensures res.1.Err? ==> res.0 == d
    ensures res.1.Ok? ==>
      && res.1.value == User(d.nextUserId, key, name)
      && res.1.value.id !in d.users
      && res.0 == d.(users := d.users[res.1.value.id := res.1.value], nextUserId := d.nextUserId + 1)
      && SelectUserByKey(res.0, key) == Some(res.1.value)
  {
    if |name| > MaxNameLength then (d, Err(DataError))
    else if SelectUserByKey(d, key).Some? then (d, Err(IntegrityError))
    else
      var u := User(d.nextUserId, key, name);
      var d' := d.(users := d.users[u.id := u], nextUserId := d.nextUserId + 1);
      assert UsersValid(d');
      (d', Ok(u))
  }

  /** `add_user`: builds the row, adds it to the session and flushes. */
  method AddUser(session: Session, key: string, name: string) returns (r: Result<User, Error>)
    requires Valid(session.State())
    modifies session
    ensures (session.State(), r) == AddUserOutcome(old(session.State()), key, name)
  {
    if |name| > MaxNameLength {
      return Err(DataError);
    }
    if SelectUserByKey(session.State(), key).Some? {
      return Err(IntegrityError);
    }
    var newUser := User(session.nextUserId, key, name);
    session.users := session.users[newUser.id := newUser];
    session.nextUserId := session.nextUserId + 1;
    r := Ok(newUser);
  }

  /** After `add_user(k, n)`, looking `k` up finds the new user and every other user is unchanged. */
  lemma AddedUserIsFoundByKey(d: Db, key: string, name: string, other: string)
    requires Valid(d)
    requires AddUserOutcome(d, key, name).1.Ok?
    requires other != key
    ensures SelectUserByKey(AddUserOutcome(d, key, name).0, key) == Some(AddUserOutcome(d, key, name).1.value)
    ensures SelectUserByKey(AddUserOutcome(d, key, name).0, other) == SelectUserByKey(d, other)
    ensures forall id :: id in d.users ==> SelectUserById(AddUserOutcome(d, key, name).0, id) == SelectUserById(d, id)
  {
    var d' := AddUserOutcome(d, key, name).0;
    var u := AddUserOutcome(d, key, name).1.value;
    if SelectUserByKey(d, other).Some? {
      var w := SelectUserByKey(d, other).value;
      assert d'.users[w.id] == w;
    } else {
      assert d'.users[u.id].key != other;
    }
  }
}

/**
 * Resolve-or-register: the first step of every authenticated route. The
 * caller is looked up by key and, when unseen, registered under a
 * generated name.
 */
module Identity {
  import opened Wrappers
  import opened Errors
  import opened Models
  import opened Store
  import opened UserCrud
  import opened ServiceFunctions

  /** The store after resolving `key`, and the caller it resolved to. */
  function Resolve(d: Db, key: string, pick: nat -> nat): (res: (Db, User))
    requires Valid(d)
    ensures Valid(res.0)
    ensures res.1.key == key && res.1.id in res.0.users && res.0.users[res.1.id] == res.1
    ensures SelectUserByKey(res.0, key) == Some(res.1)
    ensures SelectUserByKey(d, key).Some? ==> res == (d, SelectUserByKey(d, key).value)
    ensures SelectUserByKey(d, key).None? ==>
      && res.1 == User(d.nextUserId, key, GenerateRandomString(pick))
      && res.1.id !in d.users
      && res.0 == d.(users := d.users[res.1.id := res.1], nextUserId := d.nextUserId + 1)
  {
    match SelectUserByKey(d, key)
    case Some(u) => (d, u)
    case None =>
      var added := AddUserOutcome(d, key, GenerateRandomString(pick));
      (added.0, added.1.value)
  }

  /** The inline `select_user_by_key` / `add_user` pair of the routes. */
  method ResolveOrRegister(session: Session, key: string, pick: nat -> nat) returns (u: User)
    requires Valid(session.State())
    modifies session
    ensures (session.State(), u) == Resolve(old(session.State()), key, pick)
  {
    var found := SelectUserByKey(session.State(), key);
    if found.Some? {
      return found.value;
    }
    var added := AddUser(session, key, GenerateRandomString(pick));
    u := added.value;
  }

  /** Resolving twice registers at most once: the second resolve changes nothing. */
  lemma ResolveIsIdempotent(d: Db, key: string, pick: nat -> nat, pick': nat -> nat)
    requires Valid(d)
    ensures Resolve(Resolve(d, key, pick).0, key, pick') == Resolve(d, key, pick)
  {
  }
}

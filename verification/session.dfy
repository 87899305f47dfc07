/** Resolving the caller: the token's user id is looked up with
    `user_utils.get_user`, and the handler then reads `.id`, `.email` and
    `.role` from what it gets back.

    `get_user` as written returns the pair `(True, user)`, and a pair has
    none of those attributes, so every handler that starts with it fails.
    `GetUserAsWritten` models that; `GetUser` is the evidently intended
    lookup that returns the row itself, and the rest of the model uses it.
    Python values are modelled only as far as the handlers use them. */
module Session {
  import opened Wrappers
  import opened Records

  /** The value `get_user` hands back: a user row, None, or a pair. */
  datatype PyValue = Row(user: User) | NoneValue | Pair(ok: bool, item: PyValue)

  /** The row the query finds, or None. */
  function RowOrNone(found: Option<User>): PyValue
  {
    match found
    case Some(u) => Row(u)
    case None => NoneValue
  }

  /** `get_user` as written: the successful query returns `(True, user)`. */
  function GetUserAsWritten(users: seq<User>, id: Id): (r: PyValue)
    ensures r.Pair? && r.ok
    ensures r.item.Row? <==> exists u :: u in users && u.id == id
    ensures r.item.Row? ==> r.item.user in users && r.item.user.id == id
  {
    Pair(true, RowOrNone(FindById(users, id)))
  }

  /** `get_user` as intended: the user row itself, or None when no row has
      that id. */
  function GetUser(users: seq<User>, id: Id): (r: PyValue)
    ensures !r.Pair?
    ensures r.Row? <==> exists u :: u in users && u.id == id
    ensures r.Row? ==> r.user in users && r.user.id == id
  {
    RowOrNone(FindById(users, id))
  }

  /** The handler's use of the looked-up value as a user: attribute access
      succeeds on a user row only; on None or on a pair it raises
      AttributeError, which the handler turns into its 400 error. */
  function AsCaller(v: PyValue): (r: Result<User>)
    ensures r.Ok? <==> v.Row?
    ensures r.Ok? ==> r.value == v.user
  {
    match v
    case Row(u) => Ok(u)
    case NoneValue => Err("'NoneType' object has no attribute 'role'")
    case Pair(_, _) => Err("'tuple' object has no attribute 'role'")
  }

  /** As written, no caller is ever resolved, whatever the users table holds. */
  lemma AsWrittenNoCallerResolves(users: seq<User>, id: Id)
    ensures AsCaller(GetUserAsWritten(users, id)).Err?
  {
  }

  /** With the corrected lookup, exactly the callers with a stored row are
      resolved, to a row with their id. */
  lemma CorrectedResolvesStoredCaller(users: seq<User>, id: Id)
    ensures AsCaller(GetUser(users, id)).Ok? <==> exists u :: u in users && u.id == id
    ensures AsCaller(GetUser(users, id)).Ok? ==> AsCaller(GetUser(users, id)).value.id == id
  {
  }
}

/** The user store of the API (metrics-api/user_manager.py): lookups that
    answer None when the row is missing or the query raises, and the
    authentication decision. Each database call's outcome and the bcrypt
    hash and check are parameters. */
module UserManager {
  import opened Optional

  /** The outcome of one awaited database call. */
  datatype DbResult<T> = Done(value: T) | Raised

  datatype UserInDB = UserInDB(id: int, email: string, fullName: Option<string>, hashedPassword: string)

  /** A `users` row as the id lookups select it; `createdAt` is the
      `str()` of the column. */
  datatype UserRow = UserRow(id: int, email: string, fullName: Option<string>, createdAt: string)

  datatype UserResponse = UserResponse(id: int, email: string, fullName: Option<string>, createdAt: string)

  datatype UserCreate = UserCreate(email: string, fullName: Option<string>, password: string)

  /** The values `create_user` inserts. */
  datatype NewRow = NewRow(email: string, fullName: Option<string>, hashedPassword: string)

  /** `get_user_by_email`: the user when the query returns a row; None
      when it returns none or raises. */
  function GetUserByEmail(email: string, fetch: string -> DbResult<Option<UserInDB>>): (r: Option<UserInDB>)
    ensures r.Some? <==> fetch(email).Done? && fetch(email).value.Some?
    ensures r.Some? ==> r.value == fetch(email).value.value
  {
    match fetch(email)
    case Raised => None
    case Done(row) => row
  }

  /** `authenticate_user`: no user, or a password that does not verify
      against the stored hash, gives None; otherwise exactly the user
      looked up. */
  function AuthenticateUser(email: string, password: string,
                            fetch: string -> DbResult<Option<UserInDB>>,
                            verify: (string, string) -> bool): (r: Option<UserInDB>)
    ensures r.Some? <==> GetUserByEmail(email, fetch).Some?
                         && verify(password, GetUserByEmail(email, fetch).value.hashedPassword)
    ensures r.Some? ==> r == GetUserByEmail(email, fetch)
  {
    var user := GetUserByEmail(email, fetch);
    if user.None? then None
    else if !verify(password, user.value.hashedPassword) then None
    else user
  }

  /** Whoever authenticates does so with a password that verifies against
      the hash stored in the row the query returned. */
  lemma AuthenticatedPasswordVerifies(email: string, password: string,
                                      fetch: string -> DbResult<Option<UserInDB>>,
                                      verify: (string, string) -> bool)
    requires AuthenticateUser(email, password, fetch, verify).Some?
    ensures verify(password, AuthenticateUser(email, password, fetch, verify).value.hashedPassword)
    ensures fetch(email) == Done(AuthenticateUser(email, password, fetch, verify))
  {
  }

  /** The row `create_user` inserts: the hash of the password is stored,
      never the password itself. */
  function InsertedRow(user: UserCreate, hash: string -> string): (row: NewRow)
    ensures row.email == user.email && row.fullName == user.fullName
    ensures row.hashedPassword == hash(user.password)
  {
    NewRow(user.email, user.fullName, hash(user.password))
  }

  function ToResponse(row: UserRow): UserResponse {
    UserResponse(row.id, row.email, row.fullName, row.createdAt)
  }

  /** `get_user_by_id`. */
  function GetUserById(id: int, fetch: int -> DbResult<Option<UserRow>>): (r: Option<UserResponse>)
    ensures r.Some? <==> fetch(id).Done? && fetch(id).value.Some?
    ensures r.Some? ==> r.value.id == fetch(id).value.value.id
                        && r.value.email == fetch(id).value.value.email
                        && r.value.fullName == fetch(id).value.value.fullName
                        && r.value.createdAt == fetch(id).value.value.createdAt
  {
    match fetch(id)
    case Raised => None
    case Done(row) => if row.Some? then Some(ToResponse(row.value)) else None
  }

  /** `create_user`: the insert's result is the new id, whose row is read
      back; an insert or read that raises, or a missing row, gives None. */
  function CreateUser(user: UserCreate, hash: string -> string,
                      insert: NewRow -> DbResult<int>,
                      fetch: int -> DbResult<Option<UserRow>>): (r: Option<UserResponse>)
    ensures insert(InsertedRow(user, hash)).Raised? ==> r.None?
    ensures insert(InsertedRow(user, hash)).Done? ==>
      r == GetUserById(insert(InsertedRow(user, hash)).value, fetch)
  {
    match insert(InsertedRow(user, hash))
    case Raised => None
    case Done(id) => GetUserById(id, fetch)
  }
}

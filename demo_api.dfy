/** The database-free demo API (metrics-api/demo_api.py): token claims
    with an expiry, and the fixed replies of its endpoints. Time is a whole
    number of minutes (`now`), and the JWT encoding is a parameter. */
module DemoApi {
  import opened Optional

  /** A claim value: text, or an expiry instant in minutes. */
  datatype Claim = Text(s: string) | Expiry(at: int)

  type Claims = map<string, Claim>

  const DefaultMinutes := 15
  const LoginMinutes := 30

  /** The lifetime a token gets: the given delta when it is truthy (a
      zero `timedelta` is falsy), else 15 minutes. */
  function Lifetime(delta: Option<int>): (minutes: int)
    ensures delta.Some? && delta.value != 0 ==> minutes == delta.value
    ensures delta.None? || delta.value == 0 ==> minutes == DefaultMinutes
    ensures minutes != 0
  {
    if delta.Some? && delta.value != 0 then delta.value else DefaultMinutes
  }

  /** The claims `create_access_token` encodes: a copy of `data` with
      `exp` set; every other claim is kept. */
  function TokenClaims(data: Claims, delta: Option<int>, now: int): (claims: Claims)
    ensures claims.Keys == data.Keys + {"exp"}
    ensures claims["exp"] == Expiry(now + Lifetime(delta))
    ensures forall k :: k in data && k != "exp" ==> claims[k] == data[k]
  {
    data["exp" := Expiry(now + Lifetime(delta))]
  }

  /** Issuing from claims that already carry an expiry replaces it: only
      the last expiry counts. */
  lemma ReissueKeepsClaims(data: Claims, d1: Option<int>, d2: Option<int>, t1: int, t2: int)
    ensures TokenClaims(TokenClaims(data, d1, t1), d2, t2) == TokenClaims(data, d2, t2)
  {
  }

  /** `create_access_token`: the claims are encoded with the secret key,
      which `encode` stands for. */
  function CreateAccessToken(data: Claims, delta: Option<int>, now: int, encode: Claims -> string): string {
    encode(TokenClaims(data, delta, now))
  }

  /** With an encoding that a decoder inverts, the token carries exactly
      the given claims plus an expiry `Lifetime(delta)` minutes from now. */
  lemma TokenCarriesClaims(data: Claims, delta: Option<int>, now: int,
                           encode: Claims -> string, decode: string -> Claims)
    requires forall c :: decode(encode(c)) == c
    ensures decode(CreateAccessToken(data, delta, now, encode)).Keys == data.Keys + {"exp"}
    ensures decode(CreateAccessToken(data, delta, now, encode))["exp"] == Expiry(now + Lifetime(delta))
    ensures forall k :: k in data && k != "exp" ==>
      decode(CreateAccessToken(data, delta, now, encode))[k] == data[k]
  {
    assert decode(CreateAccessToken(data, delta, now, encode)) == TokenClaims(data, delta, now);
  }

  datatype UserCreate = UserCreate(email: string, password: string, fullName: Option<string>)

  datatype TokenReply = TokenReply(accessToken: string, tokenType: string)

  datatype SignupReply = SignupReply(message: string, email: string)

  /** `POST /api/login`: a bearer token for the submitted email, valid for
      30 minutes; the password is not checked. */
  function Login(form: UserCreate, now: int, encode: Claims -> string): (reply: TokenReply)
    ensures reply.tokenType == "bearer"
    ensures reply.accessToken == encode(map["sub" := Text(form.email), "exp" := Expiry(now + LoginMinutes)])
  {
    var claims := map["sub" := Text(form.email)];
    assert TokenClaims(claims, Some(LoginMinutes), now)
        == map["sub" := Text(form.email), "exp" := Expiry(now + LoginMinutes)];
    TokenReply(CreateAccessToken(claims, Some(LoginMinutes), now, encode), "bearer")
  }

  /** `POST /api/signup`: nothing is stored; the email is echoed. */
  function Signup(user: UserCreate): (reply: SignupReply)
    ensures reply.email == user.email
    ensures reply.message == "User created successfully (demo mode)"
  {
    SignupReply("User created successfully (demo mode)", user.email)
  }

  datatype DemoUser = DemoUser(email: string, fullName: string, id: int)

  /** `GET /api/users/me`: the same demo user for every caller; no token
      is read. */
  function Me(): (u: DemoUser)
    ensures u.email == "demo@example.com" && u.fullName == "Demo User" && u.id == 1
  {
    DemoUser("demo@example.com", "Demo User", 1)
  }
}

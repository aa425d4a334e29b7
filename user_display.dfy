/** How the pages show the signed-in user: the avatar letter
    (`user?.full_name?.charAt(0) || user?.email?.charAt(0) || 'U'`) and the
    greeting name (`user?.full_name?.split(' ')[0] || 'User'`), shared by
    locust-dashboard/src/pages/Dashboard.js, NewDashboard.js and
    Profile.js. A field that is present but not a string has no `charAt` or
    `split`, so the expression throws. */
module UserDisplay {
  import opened Text
  import opened JsValues

  /** The TypeError thrown by calling a string method on a value that has none. */
  function NotAFunction(member: string): JsValue {
    TypeError(member + " is not a function")
  }

  /** `v?.charAt(0)`. */
  function CharAt0(v: JsValue): (c: Completion)
    ensures IsNullish(v) ==> c == Normal(Undefined)
    ensures v.Str? ==> c == Normal(Str(Prefix(v.s, 1)))
    ensures c.Throw? <==> !IsNullish(v) && !v.Str?
  {
    if IsNullish(v) then Normal(Undefined)
    else if v.Str? then Normal(Str(Prefix(v.s, 1)))
    else Throw(NotAFunction("charAt"))
  }

  /** The avatar letter. */
  function AvatarInitial(user: JsValue): (c: Completion)
    ensures c.Normal? ==> c.value.Str? && |c.value.s| == 1
    ensures OptGet(user, "full_name").Str? && OptGet(user, "full_name").s != [] ==>
      c == Normal(Str([OptGet(user, "full_name").s[0]]))
  {
    var name := OptGet(user, "full_name");
    var email := OptGet(user, "email");
    match CharAt0(name)
    case Throw(e) => Throw(e)
    case Normal(a) =>
      if Truthy(a) then Normal(a)
      else match CharAt0(email)
        case Throw(e) => Throw(e)
        case Normal(b) => Normal(Or(b, Str("U")))
  }

  /** The fallback order of the avatar letter: the name's first letter, else
      the email's, else 'U'. */
  lemma AvatarFallbacks(user: JsValue)
    ensures (IsNullish(OptGet(user, "full_name")) || OptGet(user, "full_name") == Str(""))
            && OptGet(user, "email").Str? && OptGet(user, "email").s != [] ==>
      AvatarInitial(user) == Normal(Str([OptGet(user, "email").s[0]]))
    ensures (IsNullish(OptGet(user, "full_name")) || OptGet(user, "full_name") == Str(""))
            && (IsNullish(OptGet(user, "email")) || OptGet(user, "email") == Str("")) ==>
      AvatarInitial(user) == Normal(Str("U"))
    ensures IsNullish(user) ==> AvatarInitial(user) == Normal(Str("U"))
  {
  }

  /** The greeting name: the first space-separated word of the full name,
      or 'User' when that is empty or there is no name. */
  function GreetingName(user: JsValue): (c: Completion)
    ensures c.Normal? ==> c.value.Str? && c.value.s != "" && ' ' !in c.value.s
    ensures c.Throw? <==> !IsNullish(OptGet(user, "full_name")) && !OptGet(user, "full_name").Str?
  {
    var name := OptGet(user, "full_name");
    if IsNullish(name) then Normal(Str("User"))
    else if name.Str? then Normal(Or(Str(BeforeFirst(name.s, ' ')), Str("User")))
    else Throw(NotAFunction("split"))
  }

  /** A full name greets with its first word; a name that starts with a
      space, or is empty, greets as 'User'. */
  lemma GreetingFirstWord(user: JsValue, first: string, rest: string)
    requires OptGet(user, "full_name") == Str(first + rest)
    requires ' ' !in first && (rest == [] || rest[0] == ' ')
    ensures GreetingName(user) == Normal(Str(if first == "" then "User" else first))
  {
    BeforeFirstSplit(first, rest, ' ');
  }
}

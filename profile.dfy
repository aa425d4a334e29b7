/** The profile page (locust-dashboard/src/pages/Profile.js): two fields
    seeded from the signed-in user, an edit mode that enables them, a save
    that only shows a three-second success notice, and a cancel that puts
    the current user's values back. The success timeout and a change of
    the signed-in user are explicit steps. */
module Profile {
  import opened JsValues

  /** `user?.field || ''`: the value a field starts from. */
  function Seed(user: JsValue, field: string): (v: JsValue)
    ensures Truthy(OptGet(user, field)) ==> v == OptGet(user, field)
    ensures !Truthy(OptGet(user, field)) ==> v == Str("")
  {
    Or(OptGet(user, field), Str(""))
  }

  class Page {
    /** The signed-in user, as the auth context currently holds it. */
    var user: JsValue
    var editing: bool
    var fullName: JsValue
    var email: JsValue
    var success: bool
    var pendingTimeouts: nat

    constructor (user: JsValue)
      ensures this.user == user
      ensures fullName == Seed(user, "full_name") && email == Seed(user, "email")
      ensures !editing && !success && pendingTimeouts == 0
    {
      this.user := user;
      fullName := Seed(user, "full_name");
      email := Seed(user, "email");
      editing := false;
      success := false;
      pendingTimeouts := 0;
    }

    /** The Edit Profile / Cancel Edit button: edit mode flips and the
        fields keep what was typed. */
    method ToggleEdit()
      modifies this
      ensures editing == !old(editing)
      ensures fullName == old(fullName) && email == old(email) && success == old(success)
      ensures pendingTimeouts == old(pendingTimeouts) && user == old(user)
    {
      editing := !editing;
    }

    /** Typing in the name field, which is enabled only in edit mode. */
    method EditFullName(value: string)
      requires editing
      modifies this
      ensures fullName == Str(value) && email == old(email)
      ensures editing == old(editing) && success == old(success) && pendingTimeouts == old(pendingTimeouts)
      ensures user == old(user)
    {
      fullName := Str(value);
    }

    /** Typing in the email field, which is enabled only in edit mode. */
    method EditEmail(value: string)
      requires editing
      modifies this
      ensures email == Str(value) && fullName == old(fullName)
      ensures editing == old(editing) && success == old(success) && pendingTimeouts == old(pendingTimeouts)
      ensures user == old(user)
    {
      email := Str(value);
    }

    /** `handleSave` (shown in edit mode): edit mode ends and the notice
        appears; nothing is sent anywhere and the typed values stay. */
    method HandleSave()
      requires editing
      modifies this
      ensures !editing && success
      ensures fullName == old(fullName) && email == old(email)
      ensures pendingTimeouts == old(pendingTimeouts) + 1 && user == old(user)
    {
      editing := false;
      success := true;
      pendingTimeouts := pendingTimeouts + 1;
    }

    /** The success notice's timeout fires. */
    method SuccessTimeout()
      requires pendingTimeouts > 0
      modifies this
      ensures !success && pendingTimeouts == old(pendingTimeouts) - 1
      ensures editing == old(editing) && fullName == old(fullName) && email == old(email)
      ensures user == old(user)
    {
      success := false;
      pendingTimeouts := pendingTimeouts - 1;
    }

    /** The auth context's user changes while the page is open (a login
        completing, a logout): the fields keep what they hold, since the
        initial state is read only once. */
    method UserChanged(u: JsValue)
      modifies this
      ensures user == u
      ensures editing == old(editing) && fullName == old(fullName) && email == old(email)
      ensures success == old(success) && pendingTimeouts == old(pendingTimeouts)
    {
      user := u;
    }

    /** `handleCancel` (shown in edit mode): the fields go back to the
        values of the user the context holds now, and edit mode ends. */
    method HandleCancel()
      requires editing
      modifies this
      ensures !editing
      ensures fullName == Seed(user, "full_name") && email == Seed(user, "email")
      ensures success == old(success) && pendingTimeouts == old(pendingTimeouts) && user == old(user)
    {
      fullName := Seed(user, "full_name");
      email := Seed(user, "email");
      editing := false;
    }
  }
}

/** The rules the signup pages share: an ordered list of checks whose first
    failure gives the message shown (locust-dashboard/src/pages/Signup.js,
    AdvancedSignup.js), and the password-strength meter, which maps the
    password's length to one of five buckets (AdvancedSignup.js,
    NewSignup.js). */
module SignupRules {
  import opened Optional

  /** One validation check: whether it passes and what it says when not. */
  datatype Check = Check(passes: bool, message: string)

  /** The message of the first failing check, or None when all pass. */
  function FirstFailure(checks: seq<Check>): (r: Option<string>)
    ensures r.None? <==> forall i :: 0 <= i < |checks| ==> checks[i].passes
    ensures r.Some? ==> exists i :: 0 <= i < |checks| && !checks[i].passes
                         && r.value == checks[i].message
                         && forall j :: 0 <= j < i ==> checks[j].passes
    decreases |checks|
  {
    if checks == [] then None
    else if !checks[0].passes then Some(checks[0].message)
    else
      var rest := FirstFailure(checks[1..]);
      assert forall i :: 1 <= i < |checks| ==> checks[i] == checks[1..][i - 1];
      rest
  }

  const FillAll := "Please fill in all fields."
  const Mismatch := "Passwords do not match."
  const TooShort := "Password must be at least 6 characters long."
  const AgreeTerms := "Please agree to the Terms of Service."

  /** The four checks of Signup and AdvancedSignup, in the order they run. */
  function SignupChecks(fullName: string, email: string, password: string,
                        confirmPassword: string, agreed: bool): seq<Check>
  {
    [Check(fullName != "" && email != "" && password != "" && confirmPassword != "", FillAll),
     Check(password == confirmPassword, Mismatch),
     Check(|password| >= 6, TooShort),
     Check(agreed, AgreeTerms)]
  }

  /** The first check decides when it fails; otherwise the rest do. */
  lemma FirstFailureCons(c: Check, rest: seq<Check>)
    ensures FirstFailure([c] + rest) == if c.passes then FirstFailure(rest) else Some(c.message)
  {
    assert ([c] + rest)[1..] == rest;
  }

  /** The validation message for a filled-in form, or None when signup may
      go ahead. */
  function SignupValidation(fullName: string, email: string, password: string,
                            confirmPassword: string, agreed: bool): (r: Option<string>)
    ensures (fullName == "" || email == "" || password == "" || confirmPassword == "") ==>
      r == Some(FillAll)
    ensures (fullName != "" && email != "" && password != "" && confirmPassword != ""
             && password != confirmPassword) ==> r == Some(Mismatch)
    ensures (fullName != "" && email != "" && password == confirmPassword != ""
             && |password| < 6) ==> r == Some(TooShort)
    ensures (fullName != "" && email != "" && password == confirmPassword
             && |password| >= 6 && !agreed) ==> r == Some(AgreeTerms)
    ensures r.None? <==> fullName != "" && email != "" && password == confirmPassword
                         && |password| >= 6 && agreed
  {
    var checks := SignupChecks(fullName, email, password, confirmPassword, agreed);
    FirstFailureCons(checks[0], checks[1..]);
    FirstFailureCons(checks[1], checks[2..]);
    FirstFailureCons(checks[2], checks[3..]);
    FirstFailureCons(checks[3], []);
    assert checks == [checks[0]] + checks[1..];
    assert checks[1..] == [checks[1]] + checks[2..];
    assert checks[2..] == [checks[2]] + checks[3..];
    assert checks[3..] == [checks[3]] + [];
    FirstFailure(checks)
  }

  /** The strength bucket of a password of `len` characters: empty, under
      4, under 6, under 8, or longer. */
  function Bucket(len: nat): (b: nat)
    ensures b <= 4
    ensures b == 0 <==> len == 0
    ensures b == 4 <==> len >= 8
  {
    if len == 0 then 0
    else if len < 4 then 1
    else if len < 6 then 2
    else if len < 8 then 3
    else 4
  }

  /** What the meter shows: a percentage, a label and a colour. */
  datatype Strength = Strength(strength: int, labelText: string, color: string)

  const Labels: seq<string> := ["", "Weak", "Fair", "Good", "Strong"]

  /** The meter for a password, with the page's five colours. */
  function PasswordStrength(password: string, palette: seq<string>): (s: Strength)
    requires |palette| == 5
    ensures s.strength == 25 * Bucket(|password|)
    ensures s.labelText == Labels[Bucket(|password|)] && s.color == palette[Bucket(|password|)]
    ensures 0 <= s.strength <= 100
    ensures s.strength == 0 <==> password == ""
    ensures s.strength == 100 <==> |password| >= 8
  {
    var b := Bucket(|password|);
    Strength(25 * b, Labels[b], palette[b])
  }

  /** A longer password never shows a weaker meter. */
  lemma StrengthMonotone(p: string, q: string, palette: seq<string>)
    requires |palette| == 5 && |p| <= |q|
    ensures PasswordStrength(p, palette).strength <= PasswordStrength(q, palette).strength
  {
  }

  /** The meter accepts exactly the lengths the submit check accepts as
      long enough: 'Good' or 'Strong' means at least 6 characters. */
  lemma StrengthMatchesLengthRule(password: string, palette: seq<string>)
    requires |palette| == 5
    ensures PasswordStrength(password, palette).strength >= 75 <==> |password| >= 6
  {
  }
}

/** The checks the sign-up form runs before it posts a registration. */
module Signup {
  import opened Text
  import opened Wrappers

  /** The sign-up form as submitted; `role` is the selected option, "" when none is. */
  datatype SignupForm = SignupForm(name: string, regno: string, email: string, password: string, role: string)

  /** Why a submission is refused before any request is made; each shows its own alert. */
  datatype SignupError =
    | RegnoFormat    // the registration number does not match the pattern
    | MissingFields  // some field is empty

  /** The pattern `^[0-9][A-Za-z0-9]{4,}$`: a digit followed by at least four ASCII
      letters or digits, and nothing else; equivalently, at least five characters, all
      ASCII letters or digits, the first a digit. */
  predicate RegnoPattern(regno: string)
    ensures RegnoPattern(regno) <==>
      && |regno| >= 5
      && IsAsciiDigit(regno[0])
      && forall i :: 0 <= i < |regno| ==> IsAsciiAlphanumeric(regno[i])
  {
    && |regno| >= 5
    && IsAsciiDigit(regno[0])
    && forall i :: 1 <= i < |regno| ==> IsAsciiAlphanumeric(regno[i])
  }

  /** Runs the pattern over `regno` one character at a time, as a regular-expression
      engine would, and accepts exactly the strings the pattern describes. */
  method MatchRegno(regno: string) returns (ok: bool)
    ensures ok <==> RegnoPattern(regno)
  {
    if |regno| == 0 || !IsAsciiDigit(regno[0]) {
      return false;
    }
    var i := 1;
    while i < |regno|
      invariant 1 <= i <= |regno|
      invariant forall j :: 1 <= j < i ==> IsAsciiAlphanumeric(regno[j])
    {
      if !IsAsciiAlphanumeric(regno[i]) {
        return false;
      }
      i := i + 1;
    }
    ok := |regno| >= 5;
  }

  /** The submission step of the sign-up form: the pattern check runs first, then the
      check that no field is empty, and only a form passing both is posted unchanged. */
  function SubmitSignup(form: SignupForm): (r: Result<SignupForm, SignupError>)
    ensures r.Ok? <==>
      && RegnoPattern(form.regno)
      && form.name != "" && form.email != "" && form.password != "" && form.role != ""
    ensures r.Ok? ==> r.value == form
    ensures r == Err(RegnoFormat) <==> !RegnoPattern(form.regno)
  {
    if !RegnoPattern(form.regno) then Err(RegnoFormat)
    else if form.regno == "" || form.email == "" || form.password == "" || form.role == ""
      || form.name == "" then Err(MissingFields)
    else Ok(form)
  }

  /** An empty registration number reports the pattern error, not the missing-field one,
      because the pattern check runs first. */
  lemma EmptyRegnoReportsPattern(form: SignupForm)
    requires form.regno == ""
    ensures SubmitSignup(form) == Err(RegnoFormat)
  {
  }

  /** "ab12" has no leading digit and is refused whatever else the form holds. */
  lemma NoLeadingDigitRefused(form: SignupForm)
    requires form.regno == "ab12"
    ensures SubmitSignup(form) == Err(RegnoFormat)
  {
    assert !IsAsciiDigit(form.regno[0]);
  }
}

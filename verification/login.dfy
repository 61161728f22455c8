/** The login screen: the required-field check, the call to the external
    `login`, the role picker and the sign-up toggle. `login` itself is not
    part of this model; its answer is an oracle parameter. */
module LoginScreen {

  import opened Wrappers
  import opened Types

  datatype Form = Form(email: string, password: string, role: string, isSignUp: bool)

  const InitialForm: Form := Form("", "", "", false)

  /** The arguments of one call to `login`. */
  datatype LoginRequest = LoginRequest(email: string, password: string, role: string)

  /** The toast shown after submitting. */
  datatype Notice = FillInAllFields | Welcome | InvalidCredentials

  /** The calls made to `login` during one submission, and the toast. */
  datatype Submission = Submission(calls: seq<LoginRequest>, notice: Notice)

  predicate Complete(f: Form)
  {
    f.email != "" && f.password != "" && f.role != ""
  }

  /** `handleSubmit`: with a field empty, an error and no call to `login`;
      otherwise exactly one call with the fields unchanged, and the welcome
      toast when it answers true, "Invalid credentials" when it answers false. */
  function Submit(f: Form, login: LoginRequest -> bool): (r: Submission)
    ensures !Complete(f) ==> r.calls == [] && r.notice == FillInAllFields
    ensures Complete(f) ==> r.calls == [LoginRequest(f.email, f.password, f.role)]
    ensures Complete(f) ==> (r.notice == Welcome <==> login(r.calls[0]))
    ensures Complete(f) ==> (r.notice == InvalidCredentials <==> !login(r.calls[0]))
  {
    if !Complete(f) then Submission([], FillInAllFields)
    else
      var request := LoginRequest(f.email, f.password, f.role);
      Submission([request], if login(request) then Welcome else InvalidCredentials)
  }

  /** The screen opens with every field empty, so submitting it at once makes
      no `login` call. */
  lemma InitialFormIsIncomplete(login: LoginRequest -> bool)
    ensures !Complete(InitialForm)
    ensures Submit(InitialForm, login) == Submission([], FillInAllFields)
  {
  }

  /** Sign-up mode changes only the labels: submission is the same login call. */
  lemma SubmitIgnoresSignUpMode(f: Form, login: LoginRequest -> bool)
    ensures Submit(f.(isSignUp := !f.isSignUp), login) == Submit(f, login)
  {
  }

  /** The role picker's options, in order. */
  const RoleOptions: seq<string> := ["patient", "doctor", "compounder"]

  function SelectRole(f: Form, k: nat): (r: Form)
    ensures k < |RoleOptions| ==> r.role == RoleOptions[k] && r.role != ""
    ensures k >= |RoleOptions| ==> r == f
    ensures r.email == f.email && r.password == f.password && r.isSignUp == f.isSignUp
  {
    if k < |RoleOptions| then f.(role := RoleOptions[k]) else f
  }

  /** The options are exactly the texts of the three roles. */
  lemma RoleOptionsAreTheRoles()
    ensures forall t :: t in RoleOptions <==> ParseRole(t).Some?
    ensures forall r :: RoleText(r) in RoleOptions
  {
  }

  /** The "Sign Up" / "Sign In" link. */
  function ToggleSignUp(f: Form): (r: Form)
    ensures r.isSignUp != f.isSignUp
    ensures r.(isSignUp := f.isSignUp) == f
  {
    f.(isSignUp := !f.isSignUp)
  }

  /** Toggling twice returns to the starting form. */
  lemma ToggleTwiceIsIdentity(f: Form)
    ensures ToggleSignUp(ToggleSignUp(f)) == f
  {
  }
}

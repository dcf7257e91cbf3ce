/** The sign-in flow: a selection view, a registration form and a device
    permission view. Each one-second timer is one event; device and browser
    answers are inputs carried by the events that ask for them. */
module AuthScreen {

  datatype AuthView = Selection | Register | Permissions

  datatype RegistrationForm = RegistrationForm(username: string, email: string, password: string)

  datatype FormField = Username | Email | Password

  /** The screen's local state. `registrationPending` records a running
      registration timer; `loginRequested` records that the login callback
      was invoked. */
  datatype AuthState = AuthState(
    view: AuthView,
    isProcessing: bool,
    form: RegistrationForm,
    camera: bool,
    audio: bool,
    registrationPending: bool,
    loginRequested: bool)

  /** The screen as first shown. */
  function Init(): (s: AuthState)
    ensures s.view == Selection && !s.isProcessing && !s.camera && !s.audio
    ensures s.form == RegistrationForm("", "", "") && !s.registrationPending && !s.loginRequested
  {
    AuthState(Selection, false, RegistrationForm("", "", ""), false, false, false, false)
  }

  datatype Event =
    | CreateAccountPressed
    | BackPressed
    | FieldTyped(field: FormField, value: string)
    | ContinuePressed(emailAccepted: bool)  // whether the browser accepts the e-mail's syntax
    | RegistrationTimerFired
    | CameraPressed(deviceGranted: bool)
    | AudioPressed(deviceGranted: bool)
    | LoginPressed                          // any of the four controls calling `finalizeAuth`

  /** The browser submits the form only when every `required` field is
      filled in and the e-mail field's syntax is accepted. */
  predicate Submittable(form: RegistrationForm, emailAccepted: bool)
  {
    form.username != "" && form.email != "" && form.password != "" && emailAccepted
  }

  function SetField(form: RegistrationForm, field: FormField, value: string): RegistrationForm
  {
    match field
    case Username => form.(username := value)
    case Email => form.(email := value)
    case Password => form.(password := value)
  }

  /** `requestPermission`: the flag is set whether the device call succeeds
      or fails. */
  function GrantPermission(s: AuthState, camera: bool, deviceGranted: bool): (r: AuthState)
    ensures camera ==> r.camera && r.audio == s.audio
    ensures !camera ==> r.audio && r.camera == s.camera
    ensures r.view == s.view && r.isProcessing == s.isProcessing && r.loginRequested == s.loginRequested
    ensures r.form == s.form && r.registrationPending == s.registrationPending
  {
    if camera then s.(camera := true) else s.(audio := true)
  }

  /** `finalizeAuth` with its timer: processing starts and the login callback
      is invoked. No permission is consulted. */
  function Finalize(s: AuthState): (r: AuthState)
    ensures r.loginRequested && r.isProcessing
    ensures r.view == s.view && r.camera == s.camera && r.audio == s.audio
    ensures r.form == s.form && r.registrationPending == s.registrationPending
  {
    s.(isProcessing := true, loginRequested := true)
  }

  /** One user action or timer. A control that is not on screen, or is
      disabled, does nothing. */
  function Step(s: AuthState, e: Event): (r: AuthState)
    ensures s.camera ==> r.camera
    ensures s.audio ==> r.audio
    ensures s.loginRequested ==> r.loginRequested
  {
    match e
    case CreateAccountPressed =>
      if s.view == Selection then s.(view := Register) else s
    case BackPressed =>
      if s.view == Register then s.(view := Selection) else s
    case FieldTyped(field, value) =>
      if s.view == Register then s.(form := SetField(s.form, field, value)) else s
    case ContinuePressed(emailAccepted) =>
      if s.view == Register && !s.isProcessing && Submittable(s.form, emailAccepted)
      then s.(isProcessing := true, registrationPending := true)
      else s
    case RegistrationTimerFired =>
      if s.registrationPending
      then s.(isProcessing := false, view := Permissions, registrationPending := false)
      else s
    case CameraPressed(granted) =>
      if s.view == Permissions && !s.camera then GrantPermission(s, true, granted) else s
    case AudioPressed(granted) =>
      if s.view == Permissions && !s.audio then GrantPermission(s, false, granted) else s
    case LoginPressed =>
      if s.view == Selection || s.view == Permissions then Finalize(s) else s
  }

  function Run(s: AuthState, events: seq<Event>): AuthState
    decreases |events|
  {
    if |events| == 0 then s else Run(Step(s, events[0]), events[1..])
  }

  /** Granted permissions are never withdrawn and a requested login is never
      taken back, whatever happens afterwards. */
  lemma {:induction false} RunNeverRevokes(s: AuthState, events: seq<Event>)
    ensures s.camera ==> Run(s, events).camera
    ensures s.audio ==> Run(s, events).audio
    ensures s.loginRequested ==> Run(s, events).loginRequested
    decreases |events|
  {
    if |events| > 0 {
      RunNeverRevokes(Step(s, events[0]), events[1..]);
    }
  }

  /** Submitting a complete registration form starts processing and the
      registration timer, on the same view with the same form; an incomplete
      one changes nothing. */
  lemma RegisterSubmitStartsProcessing(s: AuthState, emailAccepted: bool)
    requires s.view == Register && !s.isProcessing
    ensures Submittable(s.form, emailAccepted) ==>
              var r := Step(s, ContinuePressed(emailAccepted));
              && r.isProcessing && r.registrationPending
              && r.view == Register && r.form == s.form
              && r.camera == s.camera && r.audio == s.audio && r.loginRequested == s.loginRequested
    ensures !Submittable(s.form, emailAccepted) ==> Step(s, ContinuePressed(emailAccepted)) == s
  {
  }

  /** "Create Account" then "Back" returns to the selection view unchanged. */
  lemma CreateThenBackRestores(s: AuthState)
    requires s.view == Selection
    ensures Run(s, [CreateAccountPressed, BackPressed]) == s
  {
  }

  /** A permission request sets its flag whatever the device answers, and
      leaves the other flag alone. */
  lemma PermissionGrantedEitherWay(s: AuthState, granted: bool)
    requires s.view == Permissions
    ensures Step(s, CameraPressed(granted)).camera && Step(s, CameraPressed(granted)).audio == s.audio
    ensures Step(s, AudioPressed(granted)).audio && Step(s, AudioPressed(granted)).camera == s.camera
  {
  }

  /** Login is offered on the selection view without registering. */
  lemma LoginFromSelection()
    ensures Run(Init(), [LoginPressed]).loginRequested
  {
  }

  /** Login is offered on the permission view with both permissions still
      refused ("Skip for now"). */
  lemma LoginFromPermissionsWithoutDevices(username: string, email: string, password: string)
    requires username != "" && email != "" && password != ""
    ensures var s := Run(Init(), [CreateAccountPressed, FieldTyped(Username, username), FieldTyped(Email, email),
                                  FieldTyped(Password, password), ContinuePressed(true),
                                  RegistrationTimerFired]);
            && s.view == Permissions && !s.isProcessing && !s.camera && !s.audio
            && Run(s, [LoginPressed]).loginRequested
  {
    var events := [CreateAccountPressed, FieldTyped(Username, username), FieldTyped(Email, email),
                   FieldTyped(Password, password), ContinuePressed(true), RegistrationTimerFired];
    var s1 := Step(Init(), events[0]);
    var s2 := Step(s1, events[1]);
    var s3 := Step(s2, events[2]);
    var s4 := Step(s3, events[3]);
    assert s4.form == RegistrationForm(username, email, password);
    var s5 := Step(s4, events[4]);
    assert s5.registrationPending;
    var s6 := Step(s5, events[5]);
    assert Run(Init(), events) == Run(s1, events[1..]);
    assert Run(s1, events[1..]) == Run(s2, events[2..]);
    assert Run(s2, events[2..]) == Run(s3, events[3..]);
    assert Run(s3, events[3..]) == Run(s4, events[4..]);
    assert Run(s4, events[4..]) == Run(s5, events[5..]);
    assert Run(s5, events[5..]) == s6;
  }

  /** The registration timer is not cancelled by "Back": a user who submits
      and then returns to the selection view is still moved on to the
      permission view when the timer fires. */
  lemma BackDoesNotCancelRegistration(s: AuthState, emailAccepted: bool)
    requires s.view == Register && !s.isProcessing && Submittable(s.form, emailAccepted)
    ensures Run(s, [ContinuePressed(emailAccepted), BackPressed]).view == Selection
    ensures Run(s, [ContinuePressed(emailAccepted), BackPressed, RegistrationTimerFired]).view == Permissions
  {
    var s1 := Step(s, ContinuePressed(emailAccepted));
    var s2 := Step(s1, BackPressed);
    assert s2.view == Selection && s2.registrationPending;
    assert Run(s, [ContinuePressed(emailAccepted), BackPressed]) == Run(s1, [BackPressed]);
    assert Run(s1, [BackPressed]) == s2;
    var events := [ContinuePressed(emailAccepted), BackPressed, RegistrationTimerFired];
    assert Run(s, events) == Run(s1, events[1..]);
    assert Run(s1, events[1..]) == Run(s2, events[2..]);
  }
}

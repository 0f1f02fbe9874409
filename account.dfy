/**
 * The account page's mock sign-in. Five state fields; the handlers check that
 * the fields they need are filled and then flip one flag. No code is actually
 * sent or checked: any non-empty code logs the user in.
 */
module Account {
  import opened Wrappers

  datatype Toast = Toast(title: string, description: string, destructive: bool)

  /** Which of the three screens the page renders. */
  datatype View = AccountInfo | VerifyForm | AccessTabs

  /** What a user can do on the page: type into an input, or press a button. */
  datatype Event =
    | EditEmail(value: string)
    | EditPassword(value: string)
    | EditOtp(value: string)
    | SendOtp
    | Login
    | Signup
    | Logout
    | BackToLogin

  /** The five state hooks as one value. */
  datatype State = State(isLoggedIn: bool, email: string, password: string, otp: string, otpSent: bool)

  /** The values the five hooks start from (lines 14-18). */
  const InitialState: State := State(false, "", "", "", false)

  /** The screen a state renders: account info if logged in, else the code form once a code is sent, else the tabs. */
  function ViewOf(s: State): View
  {
    if s.isLoggedIn then AccountInfo else if s.otpSent then VerifyForm else AccessTabs
  }

  /** The controls of each screen; on the tab screen, those of either tab. */
  predicate EnabledIn(s: State, e: Event)
  {
    match ViewOf(s)
    case AccountInfo => e == Logout
    case VerifyForm => e.EditOtp? || e == Login || e == BackToLogin
    case AccessTabs => e.EditEmail? || e.EditPassword? || e == SendOtp || e == Signup
  }

  /**
   * What holds in every state reached through the rendered controls: a code
   * has been asked for only with an email entered, and a logged-in user got
   * there through the code form with a code typed in.
   */
  predicate Invariant(s: State)
  {
    && (s.otpSent ==> s.email != "")
    && (s.isLoggedIn ==> s.otpSent && s.otp != "")
  }

  /** The state once the handler behind `e` has run. */
  function Step(s: State, e: Event): State
  {
    match e
    case EditEmail(v) => s.(email := v)
    case EditPassword(v) => s.(password := v)
    case EditOtp(v) => s.(otp := v)
    case SendOtp => if s.email == "" then s else s.(otpSent := true)
    case Login => if s.otp == "" then s else s.(isLoggedIn := true)
    case Signup => if s.email == "" || s.password == "" then s else s.(otpSent := true)
    case Logout => InitialState
    case BackToLogin => s.(otpSent := false)
  }

  /** The state after a run of events, each used only while its control is on screen. */
  function Run(s: State, events: seq<Event>): (r: Option<State>)
    ensures events == [] ==> r == Some(s)
    decreases |events|
  {
    if events == [] then Some(s)
    else if !EnabledIn(s, events[0]) then None
    else Run(Step(s, events[0]), events[1..])
  }

  class AccountPage {
    var isLoggedIn: bool
    var email: string
    var password: string
    var otp: string
    var otpSent: bool

    /** The five fields as a `State`. */
    function Current(): (s: State)
      reads this
      ensures s.isLoggedIn == isLoggedIn && s.email == email && s.password == password
      ensures s.otp == otp && s.otpSent == otpSent
    {
      State(isLoggedIn, email, password, otp, otpSent)
    }

    ghost predicate Initial()
      reads this
    {
      Current() == InitialState
    }

    constructor ()
      ensures Initial()
    {
      isLoggedIn, email, password, otp, otpSent := false, "", "", "", false;
    }

    ghost predicate Valid()
      reads this
    {
      Invariant(Current())
    }

    function View(): (v: View)
      reads this
      ensures v == AccountInfo <==> isLoggedIn
      ensures v == VerifyForm <==> !isLoggedIn && otpSent
    {
      ViewOf(Current())
    }

    predicate Enabled(e: Event)
      reads this
    {
      EnabledIn(Current(), e)
    }

    method SetEmail(value: string)
      modifies this`email
      ensures email == value
    {
      email := value;
    }

    method SetPassword(value: string)
      modifies this`password
      ensures password == value
    {
      password := value;
    }

    method SetOtp(value: string)
      modifies this`otp
      ensures otp == value
    {
      otp := value;
    }

    /** `handleSendOTP`: with an email, mark the code as sent. */
    method HandleSendOtp() returns (t: Toast)
      modifies this`otpSent
      ensures otpSent == if email == "" then old(otpSent) else true
      ensures t.destructive <==> email == ""
    {
      if email == "" {
        return Toast("Error", "Please enter your email address.", true);
      }
      otpSent := true;
      t := Toast("OTP Sent", "A verification code has been sent to your email.", false);
    }

    /** `handleLogin`: any non-empty code logs in. */
    method HandleLogin() returns (t: Toast)
      modifies this`isLoggedIn
      ensures isLoggedIn == if otp == "" then old(isLoggedIn) else true
      ensures t.destructive <==> otp == ""
    {
      if otp == "" {
        return Toast("Error", "Please enter the verification code.", true);
      }
      isLoggedIn := true;
      t := Toast("Login Successful", "You have been logged in successfully.", false);
    }

    /** `handleSignup`: with both email and password, mark the code as sent. */
    method HandleSignup() returns (t: Toast)
      modifies this`otpSent
      ensures otpSent == if email == "" || password == "" then old(otpSent) else true
      ensures t.destructive <==> email == "" || password == ""
    {
      if email == "" || password == "" {
        return Toast("Error", "Please fill in all required fields.", true);
      }
      otpSent := true;
      t := Toast("Verification Required", "A verification code has been sent to your email.", false);
    }

    /** `handleLogout`: every field back to its initial value. */
    method HandleLogout() returns (t: Toast)
      modifies this
      ensures Initial()
      ensures !t.destructive
    {
      isLoggedIn := false;
      email := "";
      password := "";
      otp := "";
      otpSent := false;
      t := Toast("Logged Out", "You have been logged out successfully.", false);
    }

    /** The "Back to Login" link. */
    method HandleBackToLogin()
      modifies this`otpSent
      ensures !otpSent
    {
      otpSent := false;
    }

    /** Runs the handler behind `e`; from a valid state and a control on screen, the state stays valid. */
    method Dispatch(e: Event)
      modifies this
      ensures Current() == Step(old(Current()), e)
      ensures old(Valid()) && old(Enabled(e)) ==> Valid()
    {
      StepKeepsInvariant(Current(), e);
      match e
      case EditEmail(v) => SetEmail(v);
      case EditPassword(v) => SetPassword(v);
      case EditOtp(v) => SetOtp(v);
      case SendOtp => var _ := HandleSendOtp();
      case Login => var _ := HandleLogin();
      case Signup => var _ := HandleSignup();
      case Logout => var _ := HandleLogout();
      case BackToLogin => HandleBackToLogin();
    }
  }

  /** A control on screen, used from a state that keeps the invariant, leads to one that keeps it. */
  lemma StepKeepsInvariant(s: State, e: Event)
    ensures Invariant(s) && EnabledIn(s, e) ==> Invariant(Step(s, e))
  {
  }

  /** Every state the page can reach through its rendered controls keeps the invariant. */
  lemma {:induction false} RunKeepsInvariant(s: State, events: seq<Event>)
    requires Invariant(s)
    ensures Run(s, events).Some? ==> Invariant(Run(s, events).value)
    decreases |events|
  {
    if events != [] && EnabledIn(s, events[0]) {
      StepKeepsInvariant(s, events[0]);
      RunKeepsInvariant(Step(s, events[0]), events[1..]);
    }
  }

  /** The only way in is the login button with a code typed in, from the code form. */
  lemma LoginOnlyThroughCode(s: State, e: Event)
    requires !s.isLoggedIn && Step(s, e).isLoggedIn
    ensures e == Login && s.otp != ""
    ensures EnabledIn(s, e) <==> s.otpSent
  {
  }

  /** Logging out from any state gives the initial state, which shows the tabs. */
  lemma LogoutResets(s: State)
    ensures Step(s, Logout) == InitialState && ViewOf(Step(s, Logout)) == AccessTabs
  {
  }

  /** Typing into an input changes only that input's field and never the screen. */
  lemma EditsKeepScreen(s: State, e: Event)
    requires e.EditEmail? || e.EditPassword? || e.EditOtp?
    ensures ViewOf(Step(s, e)) == ViewOf(s)
    ensures Step(s, e).isLoggedIn == s.isLoggedIn && Step(s, e).otpSent == s.otpSent
    ensures e.EditEmail? ==> Step(s, e) == s.(email := e.value)
    ensures e.EditPassword? ==> Step(s, e) == s.(password := e.value)
    ensures e.EditOtp? ==> Step(s, e) == s.(otp := e.value)
  {
  }

  /** From the start, an email, the send button, a code and the login button log in. */
  lemma MockLoginRun(address: string, code: string)
    requires address != "" && code != ""
    ensures Run(InitialState, [EditEmail(address), SendOtp, EditOtp(code), Login])
         == Some(State(true, address, "", code, true))
  {
    var events := [EditEmail(address), SendOtp, EditOtp(code), Login];
    var s1 := State(false, address, "", "", false);
    var s2 := s1.(otpSent := true);
    var s3 := s2.(otp := code);
    assert events[1..] == [SendOtp, EditOtp(code), Login];
    assert events[1..][1..] == [EditOtp(code), Login];
    assert events[1..][1..][1..] == [Login];
    assert Run(s3, [Login]) == Run(s3.(isLoggedIn := true), []);
    assert Run(s2, [EditOtp(code), Login]) == Run(s3, [Login]);
    assert Run(s1, [SendOtp, EditOtp(code), Login]) == Run(s2, [EditOtp(code), Login]);
  }

  /**
   * The mock flow end to end: an email, the send button, any code, the login
   * button, then log out.
   */
  method LoginAndLogout(page: AccountPage, address: string, code: string)
    requires page.Initial() && address != "" && code != ""
    modifies page
    ensures page.Initial()
  {
    page.SetEmail(address);
    var sent := page.HandleSendOtp();
    assert page.View() == VerifyForm && page.Valid();
    page.SetOtp(code);
    var loggedIn := page.HandleLogin();
    assert page.View() == AccountInfo && page.email == address && page.Valid();
    var out := page.HandleLogout();
  }
}

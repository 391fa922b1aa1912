/**
 * The sign-in screen (src/components/auth/Login.tsx): credentials, a role
 * picker, the decision taken on the login reply and the entry to the rider
 * sign-up wizard.
 */
module Login {
  import opened Types

  /** How the login request ended. */
  datatype LoginResponse = NoResponse | NotOk | OkUser(user: User)

  /** What the screen does with the reply. */
  datatype LoginOutcome = NetworkAlert | CredentialsAlert | RoleMismatchAlert | SignedIn(user: User)

  /** The username that skips the role check. */
  const BypassUsername: string := "test"

  /**
   * `handleLogin` after the fetch: a non-ok reply or a failed request never
   * signs in; an ok reply signs in with the returned user when its role is
   * the selected one or the typed username is "test".
   */
  function LoginDecision(resp: LoginResponse, selected: UserRole, username: string): (r: LoginOutcome)
    ensures r.SignedIn? <==> resp.OkUser? && (resp.user.role == selected || username == BypassUsername)
    ensures r.SignedIn? ==> r.user == resp.user
    ensures r == RoleMismatchAlert <==> resp.OkUser? && resp.user.role != selected && username != BypassUsername
    ensures r == CredentialsAlert <==> resp.NotOk?
    ensures r == NetworkAlert <==> resp.NoResponse?
  {
    match resp
    case NoResponse => NetworkAlert
    case NotOk => CredentialsAlert
    case OkUser(user) =>
      if user.role != selected && username != BypassUsername then RoleMismatchAlert else SignedIn(user)
  }

  /**
   * What one press of the sign-in button captures: the credentials it posts,
   * and the role and username its reply is checked against, as they were at
   * the press.
   */
  datatype LoginAttempt = LoginAttempt(username: string, password: string, role: UserRole)

  class LoginScreen {
    var username: string
    var password: string
    var role: UserRole
    var showRegister: bool
    var signedIn: Option<User>
    /** Every press of the sign-in button so far, oldest first. */
    var attempts: seq<LoginAttempt>

    constructor ()
      ensures username == "" && password == "" && role == Customer
      ensures !showRegister && signedIn.None? && attempts == []
    {
      username := "";
      password := "";
      role := Customer;
      showRegister := false;
      signedIn := None;
      attempts := [];
    }

    method SetUsername(v: string)
      modifies this`username
      ensures username == v
    {
      username := v;
    }

    method SetPassword(v: string)
      modifies this`password
      ensures password == v
    {
      password := v;
    }

    /** One of the four role buttons. */
    method SelectRole(r: UserRole)
      modifies this`role
      ensures role == r
    {
      role := r;
    }

    /** The "register as a rider" link is drawn only while the rider role is selected. */
    predicate ShowsRiderRegisterEntry()
      reads this
    {
      role == Rider
    }

    /** The link opens the wizard; it can only be pressed while it is drawn. */
    method OpenRegister()
      requires ShowsRiderRegisterEntry()
      modifies this`showRegister
      ensures showRegister
    {
      showRegister := true;
    }

    /** The wizard's `onBack`. */
    method CloseRegister()
      modifies this`showRegister
      ensures !showRegister
    {
      showRegister := false;
    }

    /** The sign-in button: posts the credentials as they are now and remembers what the press captured. */
    method SubmitLogin() returns (body: LoginBody)
      modifies this`attempts
      ensures body == LoginBody(username, password)
      ensures attempts == old(attempts) + [LoginAttempt(username, password, role)]
    {
      body := LoginBody(username, password);
      attempts := attempts + [LoginAttempt(username, password, role)];
    }

    /**
     * The reply to the `k`-th press: `auth.login(user)` exactly when the
     * decision signs in, judged on the role and username that press captured,
     * whatever the fields hold by the time the reply arrives.
     */
    method HandleResponse(k: nat, resp: LoginResponse)
      requires k < |attempts|
      modifies this`signedIn
      ensures var a := attempts[k];
        LoginDecision(resp, a.role, a.username).SignedIn? ==> signedIn == Some(LoginDecision(resp, a.role, a.username).user)
      ensures var a := attempts[k];
        !LoginDecision(resp, a.role, a.username).SignedIn? ==> signedIn == old(signedIn)
    {
      var outcome := LoginDecision(resp, attempts[k].role, attempts[k].username);
      if outcome.SignedIn? {
        signedIn := Some(outcome.user);
      }
    }
  }

  /**
   * A rider account presses sign-in with the rider role selected and picks
   * another role before the reply arrives: the reply is still judged against
   * the rider role, so the sign-in goes through.
   */
  method RoleChangeWhileWaiting(user: User, other: UserRole) returns (signedIn: Option<User>)
    requires user.role == Rider
    ensures signedIn == Some(user)
  {
    var screen := new LoginScreen();
    screen.SetUsername("rider");
    screen.SelectRole(Rider);
    var body := screen.SubmitLogin();
    screen.SelectRole(other);
    screen.HandleResponse(0, OkUser(user));
    signedIn := screen.signedIn;
  }

  /** Signing in through the role check means the account has the selected role, unless the username is "test". */
  lemma SignedInHasSelectedRole(resp: LoginResponse, selected: UserRole, username: string)
    requires LoginDecision(resp, selected, username).SignedIn?
    requires username != BypassUsername
    ensures LoginDecision(resp, selected, username).user.role == selected
  {
  }
}

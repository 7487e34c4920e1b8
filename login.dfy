/** The login screen: the e-mail shape check on the trimmed, lower-cased address, the
    credential call, and the two authorisation checks on the account it returns (status
    `active`, a role named `associated`) before the app moves on. */
module Login {
  import opened Strings
  import opened CallLog

  /** The texts the screen shows, under the inline error or in the error modal. */
  datatype Message =
    | NoMessage
    | InvalidEmailHint
    | InvalidEmailNotice
    | InactiveAccount
    | AssociatesOnly
    | Service(text: string)

  function Text(m: Message): string {
    match m
    case NoMessage => ""
    case InvalidEmailHint => "Por favor ingresa un correo válido."
    case InvalidEmailNotice => "El correo ingresado no es válido."
    case InactiveAccount => "Tu cuenta está inactiva. Contacta al soporte para más información."
    case AssociatesOnly => "Solo se permite el ingreso a los asociados."
    case Service(text) => text
  }

  // ---------------------------------------------------------------- e-mail shape

  /** A run of `[^\s@]`. */
  predicate NoSpaceOrAt(s: string) {
    forall i :: 0 <= i < |s| ==> !IsSpace(s[i]) && s[i] != '@'
  }

  /** `^[^\s@]+@[^\s@]+\.[^\s@]+$` matched with the `@` at `k` and the `.` at `j`:
      three non-empty runs without whitespace or `@`. */
  predicate EmailShape(s: string, k: int, j: int) {
    && 0 < k && k + 1 < j && j + 1 < |s|
    && s[k] == '@' && s[j] == '.'
    && NoSpaceOrAt(s[..k]) && NoSpaceOrAt(s[k + 1..j]) && NoSpaceOrAt(s[j + 1..])
  }

  /** A `.` with at least one character on each side. */
  function InnerDot(domain: string): (b: bool)
    ensures b <==> exists j :: 0 < j < |domain| - 1 && domain[j] == '.'
  {
    if |domain| < 3 then false
    else
      var inner := domain[1..|domain| - 1];
      assert forall j :: 0 < j < |domain| - 1 ==> domain[j] == inner[j - 1];
      Any(inner, Dot)
  }

  /** `isEmailValid`, by hand: the part before the first `@` is a non-empty run without
      whitespace, and the rest is a run without whitespace or `@` with an inner dot. */
  function IsEmailValid(email: string): bool {
    match IndexOf(email, '@')
    case None => false
    case Some(k) =>
      var domain := email[k + 1..];
      k > 0 && NoSpaceOrAt(email[..k]) && NoSpaceOrAt(domain) && InnerDot(domain)
  }

  /** The hand-made check accepts exactly the strings the regular expression matches. */
  lemma EmailMatchesPattern(email: string)
    ensures IsEmailValid(email) <==> exists k, j :: EmailShape(email, k, j)
  {
    if IsEmailValid(email) {
      var k := IndexOf(email, '@').value;
      var domain := email[k + 1..];
      var d :| 0 < d < |domain| - 1 && domain[d] == '.';
      var j := k + 1 + d;
      assert email[k + 1..j] == domain[..d];
      assert email[j + 1..] == domain[d + 1..];
      assert EmailShape(email, k, j);
    }
    if k, j :| EmailShape(email, k, j) {
      assert email[..k][k - 1] == email[k - 1];
      assert IndexOf(email, '@') == Some(k) by {
        assert forall i :: 0 <= i < k ==> email[i] == email[..k][i];
      }
      var domain := email[k + 1..];
      var d := j - (k + 1);
      assert domain == email[k + 1..j] + [email[j]] + email[j + 1..];
      assert domain[d] == '.';
      assert InnerDot(domain);
      assert NoSpaceOrAt(domain);
    }
  }

  /** The address as it is checked and sent: `email.trim().toLowerCase()`. */
  function NormalizeEmail(email: string): string {
    ToLower(Trim(email))
  }

  /** A normalised address neither starts nor ends with whitespace and holds no
      upper-case letter. */
  lemma NormalizedShape(email: string)
    ensures var r := NormalizeEmail(email);
      && (r == [] || (!IsSpace(r[0]) && !IsSpace(r[|r| - 1])))
      && forall i :: 0 <= i < |r| ==> !IsUpper(r[i])
  {
    TrimEnds(email);
    ToLowerKeepsSpaces(Trim(email));
  }

  /** Normalising an address that is already normalised changes nothing. */
  lemma NormalizeIdempotent(email: string)
    ensures NormalizeEmail(NormalizeEmail(email)) == NormalizeEmail(email)
  {
    var n := NormalizeEmail(email);
    NormalizedShape(email);
    TrimNoop(n);
    ToLowerNoop(n);
  }

  /** The text shown for a failed credential call: the service's "Password inválido" is
      replaced, any other message is shown as it came. */
  function LoginErrorText(message: string): (text: string)
    ensures message == "Password inválido" ==> text == "Contraseña inválida"
    ensures message != "Password inválido" ==> text == message
  {
    if message == "Password inválido" then "Contraseña inválida" else message
  }

  // ---------------------------------------------------------------- the screen

  /** What the credential call produced: the account's status name and role names, or
      the message of the error it threw. */
  datatype LoginReply =
    | Authenticated(statusName: string, roleNames: seq<string>)
    | Rejected(message: string)

  datatype RemoteCall = LogIn(email: string, password: string)

  /** Whether a returned account may enter: active and holding the `associated` role. */
  predicate MayEnter(statusName: string, roleNames: seq<string>) {
    statusName == "active" && "associated" in roleNames
  }

  class LoginScreen {
    var email: string
    var password: string
    var error: Option<Message>
    var modalMessage: Message
    var errorModalVisible: bool
    var loading: bool
    /** The delayed move to the main screen has been scheduled. */
    var navigationScheduled: bool
    /** The remote calls issued so far, in order. */
    ghost var calls: Log<RemoteCall>

    constructor ()
      ensures email == [] && password == [] && error.None? && !errorModalVisible
      ensures !loading && !navigationScheduled && calls == Empty
    {
      email, password, error := [], [], None;
      modalMessage, errorModalVisible := NoMessage, false;
      loading, navigationScheduled := false, false;
      calls := Empty;
    }

    method SetEmail(text: string)
      modifies this`email
      ensures email == text
    {
      email := text;
    }

    method SetPassword(text: string)
      modifies this`password
      ensures password == text
    {
      password := text;
    }

    /** What `handleLogin` does with the outcome of the credential call. */
    method ApplyReply(reply: LoginReply)
      modifies this`email, this`password, this`error, this`modalMessage,
        this`errorModalVisible, this`navigationScheduled
      ensures reply.Rejected? ==>
        && email == [] && password == []
        && error == Some(Service(LoginErrorText(reply.message)))
        && modalMessage == Service(LoginErrorText(reply.message))
        && errorModalVisible && navigationScheduled == old(navigationScheduled)
      ensures reply.Authenticated? && MayEnter(reply.statusName, reply.roleNames) ==>
        && email == [] && password == [] && error.None? && navigationScheduled
        && modalMessage == old(modalMessage) && errorModalVisible == old(errorModalVisible)
      ensures reply.Authenticated? && !MayEnter(reply.statusName, reply.roleNames) ==>
        && email == old(email) && password == old(password) && error == old(error)
        && navigationScheduled == old(navigationScheduled) && errorModalVisible
        && modalMessage == (if reply.statusName != "active" then InactiveAccount else AssociatesOnly)
    {
      match reply {
        case Rejected(m) =>
          email, password := [], [];
          error := Some(Service(LoginErrorText(m)));
          modalMessage := Service(LoginErrorText(m));
          errorModalVisible := true;
        case Authenticated(status, roles) =>
          if status != "active" {
            modalMessage := InactiveAccount;
            errorModalVisible := true;
          } else if "associated" !in roles {
            modalMessage := AssociatesOnly;
            errorModalVisible := true;
          } else {
            error := None;
            email, password := [], [];
            navigationScheduled := true;
          }
      }
    }

    /** `handleLogin`. An address that fails the shape check after normalising is
        reported and nothing is called. Otherwise the credential call gets the normalised
        address; the move on is scheduled only for an active `associated` account, which
        also clears both fields and the error; a failed call clears both fields and shows
        its (mapped) message; and loading ends off on every path past the shape check. */
    method HandleLogin(reply: LoginReply)
      modifies this`email, this`password, this`error, this`modalMessage,
        this`errorModalVisible, this`loading, this`navigationScheduled, this`calls
      ensures !IsEmailValid(NormalizeEmail(old(email))) ==>
        && calls == old(calls)
        && error == Some(InvalidEmailHint) && modalMessage == InvalidEmailNotice && errorModalVisible
        && email == old(email) && password == old(password)
        && loading == old(loading) && navigationScheduled == old(navigationScheduled)
      ensures IsEmailValid(NormalizeEmail(old(email))) ==>
        calls == Then(old(calls), LogIn(NormalizeEmail(old(email)), old(password))) && !loading
      ensures IsEmailValid(NormalizeEmail(old(email))) && reply.Rejected? ==>
        && email == [] && password == []
        && error == Some(Service(LoginErrorText(reply.message)))
        && modalMessage == Service(LoginErrorText(reply.message))
        && errorModalVisible && navigationScheduled == old(navigationScheduled)
      ensures IsEmailValid(NormalizeEmail(old(email))) && reply.Authenticated?
              && MayEnter(reply.statusName, reply.roleNames) ==>
        && email == [] && password == [] && error.None? && navigationScheduled
        && modalMessage == old(modalMessage) && errorModalVisible == old(errorModalVisible)
      ensures IsEmailValid(NormalizeEmail(old(email))) && reply.Authenticated?
              && !MayEnter(reply.statusName, reply.roleNames) ==>
        && email == old(email) && password == old(password) && error == old(error)
        && navigationScheduled == old(navigationScheduled) && errorModalVisible
        && modalMessage == (if reply.statusName != "active" then InactiveAccount else AssociatesOnly)
    {
      var lowerCaseEmail := NormalizeEmail(email);
      if !IsEmailValid(lowerCaseEmail) {
        error := Some(InvalidEmailHint);
        modalMessage := InvalidEmailNotice;
        errorModalVisible := true;
        return;
      }
      loading := true;
      calls := Then(calls, LogIn(lowerCaseEmail, password));
      ApplyReply(reply);
      loading := false;
    }
  }
}

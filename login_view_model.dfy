/**
 The login screen's view model: the bound form fields, the message under the form,
 the loading flag, and the login command with its "remember me" persistence.
 */
module ViewModels {
  import opened Wrappers
  import opened Preferences
  import opened RememberedCredentials
  import opened LoginMessages

  const DefaultEmail := "user3@mail.com"
  const DefaultPassword := "user3"

  /** The authenticated user; of its fields only the display name is used here. */
  datatype Client = Client(name: string)

  /** What one call of the authentication service gives: a client, null, or an exception. */
  datatype AuthResult = Success(client: Client) | NoClient | Throws(message: string)

  /** What the login screen showed at the moment it called the authentication service. */
  datatype Screen = Screen(loading: bool, message: Message)

  /** `char.IsWhiteSpace`: the Unicode space, line and paragraph separators plus U+0009..U+000D and U+0085. */
  predicate IsWhiteSpace(c: char)
    ensures c == ' ' || c == '\t' || c == '\n' || c == '\r' ==> IsWhiteSpace(c)
    ensures 'a' <= c <= 'z' || 'A' <= c <= 'Z' || '0' <= c <= '9' || c == '@' || c == '.' ==> !IsWhiteSpace(c)
  {
    var n := c as int;
    || n == 0x20 || 0x09 <= n <= 0x0D || n == 0x85 || n == 0xA0 || n == 0x1680
    || 0x2000 <= n <= 0x200A || n == 0x2028 || n == 0x2029 || n == 0x202F || n == 0x205F
    || n == 0x3000
  }

  /** `string.IsNullOrWhiteSpace` on a non-null string: empty, or whitespace only. */
  predicate IsNullOrWhiteSpace(s: string)
  {
    forall i :: 0 <= i < |s| ==> IsWhiteSpace(s[i])
  }

  /**
   The email a new login screen starts with is blank exactly when the store asks to
   remember an email but holds none, or holds a blank one; the default password is
   never blank.
   */
  lemma StartEmailFilled(m: map<string, Pref>)
    ensures !IsNullOrWhiteSpace(DefaultPassword)
    ensures IsNullOrWhiteSpace(Restored(m, DefaultEmail, false).0) <==>
              && RememberRequested(m)
              && (SavedEmailKey !in m || (m[SavedEmailKey].StringPref? && IsNullOrWhiteSpace(m[SavedEmailKey].s)))
  {
    assert DefaultPassword[0] == 'u' && !IsWhiteSpace(DefaultPassword[0]);
    assert DefaultEmail[0] == 'u' && !IsWhiteSpace(DefaultEmail[0]);
  }

  /**
   The email check: the address parser (`System.Net.Mail.MailAddress`, None when it
   throws) must accept the input and give back exactly the input.
   */
  function IsValidEmail(parse: string -> Option<string>, email: string): (r: bool)
    ensures parse(email).None? ==> !r
    ensures parse(email).Some? && parse(email).value != email ==> !r
    ensures r <==> parse(email) == Some(email)
  {
    match parse(email)
    case None => false
    case Some(address) => address == email
  }

  /**
   The authentication service. `respond` gives its answer to a pair of credentials;
   `Calls` records the credentials of every call of `Login`, oldest first, and
   `Screens` what the calling login screen showed at each of them.
   */
  class AuthService {
    const respond: (string, string) -> AuthResult
    ghost var Calls: seq<(string, string)>
    ghost var Screens: seq<Screen>

    constructor (respond: (string, string) -> AuthResult)
      ensures this.respond == respond && Calls == [] && Screens == []
    {
      this.respond := respond;
      Calls := [];
      Screens := [];
    }

    method Login(email: string, password: string, ghost screen: LoginViewModel) returns (r: AuthResult)
      modifies this`Calls, this`Screens
      ensures r == respond(email, password)
      ensures Calls == old(Calls) + [(email, password)]
      ensures Screens == old(Screens) + [Screen(screen.IsLoading, screen.LoginMessage)]
    {
      r := respond(email, password);
      Calls := Calls + [(email, password)];
      Screens := Screens + [Screen(screen.IsLoading, screen.LoginMessage)];
    }
  }

  /** The process-wide state shared by the screens; here only the logged-in client. */
  class GlobalViewModel {
    var Client: Option<Client>

    constructor ()
      ensures Client == None
    {
      Client := None;
    }
  }

  class LoginViewModel {
    const prefs: PreferenceStore
    const global: GlobalViewModel

    var Email: string
    var Password: string
    var LoginMessage: Message
    var LoginMessageColor: Color
    var RememberMe: bool
    var IsLoading: bool


    /** The message label is visible exactly when a message is set. */
    function HasLoginMessage(): (r: bool)
      reads this
      ensures r <==> LoginMessage != Cleared
    {
      Text(LoginMessage) != ""
    }

    /** The defaults, then whatever the preference store remembers. */
    constructor (prefs: PreferenceStore, global: GlobalViewModel)
      ensures this.prefs == prefs && this.global == global
      ensures (Email, RememberMe) == Restored(prefs.entries, DefaultEmail, false)
      ensures Password == DefaultPassword
      ensures LoginMessage == Cleared && LoginMessageColor == Red
      ensures !IsLoading
    {
      this.prefs := prefs;
      this.global := global;
      Email := DefaultEmail;
      Password := DefaultPassword;
      LoginMessage := Cleared;
      LoginMessageColor := Red;
      RememberMe := false;
      IsLoading := false;
      new;
      LoadRememberedCredentials();
    }

    /** Pre-fills the email when the store says to remember it; a faulting read changes nothing. */
    method LoadRememberedCredentials()
      modifies this`Email, this`RememberMe
      ensures (Email, RememberMe) == Restored(prefs.entries, old(Email), old(RememberMe))
    {
      var flag := ReadBool(prefs.entries, RememberMeKey, false);
      if flag.Fault? {
        return;
      }
      if flag.value {
        var saved := ReadString(prefs.entries, SavedEmailKey, "");
        if saved.Fault? {
          return;
        }
        Email := saved.value;
        RememberMe := true;
      }
    }

    /** Remembers the email when RememberMe is set, and otherwise forgets both keys. */
    method SaveCredentials()
      modifies prefs
      ensures prefs.entries == SavedStore(old(prefs.entries), RememberMe, Email)
    {
      if RememberMe {
        prefs.SetBool(RememberMeKey, true);
        prefs.SetString(SavedEmailKey, Email);
      } else {
        prefs.Remove(RememberMeKey);
        prefs.Remove(SavedEmailKey);
      }
    }

    method ShowErrorMessage(message: Message)
      modifies this`LoginMessage, this`LoginMessageColor
      ensures LoginMessage == message && LoginMessageColor == Red
    {
      LoginMessage := message;
      LoginMessageColor := Red;
    }

    method ShowSuccessMessage(message: Message)
      modifies this`LoginMessage, this`LoginMessageColor
      ensures LoginMessage == message && LoginMessageColor == Green
    {
      LoginMessage := message;
      LoginMessageColor := Green;
    }

    /**
     The login command. The guards run in order (blank fields, then the email check)
     and neither reaches the authentication service; past them the loading flag is
     raised for the call and lowered on every outcome.
     */
    method Login(parse: string -> Option<string>, auth: AuthService)
      modifies this`LoginMessage, this`LoginMessageColor, this`IsLoading
      modifies prefs, global, auth
      // every exit shows a message and none leaves the loading flag raised
      ensures HasLoginMessage()
      ensures IsLoading ==> old(IsLoading)
      // blank email or password
      ensures IsNullOrWhiteSpace(Email) || IsNullOrWhiteSpace(Password) ==>
                && LoginMessage == MissingFields && LoginMessageColor == Red
                && IsLoading == old(IsLoading) && auth.Calls == old(auth.Calls) && auth.Screens == old(auth.Screens)
                && prefs.entries == old(prefs.entries) && global.Client == old(global.Client)
      // filled in, but the email is rejected
      ensures !IsNullOrWhiteSpace(Email) && !IsNullOrWhiteSpace(Password) && !IsValidEmail(parse, Email) ==>
                && LoginMessage == InvalidEmail && LoginMessageColor == Red
                && IsLoading == old(IsLoading) && auth.Calls == old(auth.Calls) && auth.Screens == old(auth.Screens)
                && prefs.entries == old(prefs.entries) && global.Client == old(global.Client)
      // past validation: exactly one call, made while loading with the message cleared
      ensures !IsNullOrWhiteSpace(Email) && !IsNullOrWhiteSpace(Password) && IsValidEmail(parse, Email) ==>
                && !IsLoading
                && auth.Calls == old(auth.Calls) + [(Email, Password)]
                && auth.Screens == old(auth.Screens) + [Screen(true, Cleared)]
      ensures !IsNullOrWhiteSpace(Email) && !IsNullOrWhiteSpace(Password) && IsValidEmail(parse, Email) ==>
                match auth.respond(Email, Password)
                case Success(client) =>
                  && prefs.entries == SavedStore(old(prefs.entries), RememberMe, Email)
                  && LoginMessage == Welcome(client.name) && LoginMessageColor == Green
                  && global.Client == Some(client)
                case NoClient =>
                  && LoginMessage == InvalidCredentials && LoginMessageColor == Red
                  && prefs.entries == old(prefs.entries) && global.Client == old(global.Client)
                case Throws(detail) =>
                  && LoginMessage == LoginError(detail) && LoginMessageColor == Red
                  && prefs.entries == old(prefs.entries) && global.Client == old(global.Client)
    {
      if IsNullOrWhiteSpace(Email) || IsNullOrWhiteSpace(Password) {
        ShowErrorMessage(MissingFields);
        return;
      }
      if !IsValidEmail(parse, Email) {
        ShowErrorMessage(InvalidEmail);
        return;
      }
      IsLoading := true;
      LoginMessage := Cleared;
      var result := auth.Login(Email, Password, this);
      match result {
        case Success(client) =>
          SaveCredentials();
          ShowSuccessMessage(Welcome(client.name));
          global.Client := Some(client);
        case NoClient =>
          ShowErrorMessage(InvalidCredentials);
        case Throws(detail) =>
          ShowErrorMessage(LoginError(detail));
      }
      IsLoading := false;
    }
  }

  /**
   A successful login followed by a new login screen on the same store: the new
   screen pre-fills the email exactly when "remember me" was on, and otherwise
   starts from the defaults.
   */
  method LoginThenReopen(prefs: PreferenceStore, global: GlobalViewModel, email: string, password: string,
                         remember: bool, parse: string -> Option<string>, auth: AuthService)
    returns (next: LoginViewModel)
    requires !IsNullOrWhiteSpace(email) && !IsNullOrWhiteSpace(password) && IsValidEmail(parse, email)
    requires auth.respond(email, password).Success?
    modifies prefs, global, auth
    ensures fresh(next) && next.prefs == prefs
    ensures next.RememberMe == remember
    ensures next.Email == if remember then email else DefaultEmail
    ensures global.Client == Some(auth.respond(email, password).client)
  {
    var first := new LoginViewModel(prefs, global);
    first.Email, first.Password, first.RememberMe := email, password, remember;
    ghost var before := prefs.entries;
    first.Login(parse, auth);
    assert prefs.entries == SavedStore(before, remember, email);
    next := new LoginViewModel(prefs, global);
    if remember {
      SaveThenRestore(before, email, DefaultEmail, false);
    } else {
      ClearThenRestore(before, email, DefaultEmail, false);
    }
  }
}

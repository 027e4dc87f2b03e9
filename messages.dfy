/**
 What the login screen shows under the form: a message kind, its Dutch text, and
 the colour it is drawn in.
 */
module LoginMessages {

  datatype Color = Red | Green

  /** The kinds of message the login screen shows; `Cleared` is the empty message. */
  datatype Message =
    | Cleared
    | MissingFields
    | InvalidEmail
    | Welcome(name: string)
    | InvalidCredentials
    | LoginError(detail: string)

  const MissingFieldsText := "Vul zowel e-mailadres als wachtwoord in."
  const InvalidEmailText := "Voer een geldig e-mailadres in."
  const WelcomePrefix := "Welkom terug, "
  const WelcomeSuffix := "!"
  const InvalidCredentialsText := "Ongeldige inloggegevens. Controleer je e-mailadres en wachtwoord."
  const LoginErrorPrefix := "Er is een fout opgetreden tijdens het inloggen: "

  /** The text bound to the message label. Only the cleared message is empty. */
  function Text(m: Message): (r: string)
    ensures r == "" <==> m == Cleared
  {
    match m
    case Cleared => ""
    case MissingFields => MissingFieldsText
    case InvalidEmail => InvalidEmailText
    case Welcome(name) => WelcomePrefix + name + WelcomeSuffix
    case InvalidCredentials => InvalidCredentialsText
    case LoginError(detail) => LoginErrorPrefix + detail
  }

  /** Lengths and a few characters that tell the texts of different kinds apart. */
  lemma TextMarks(m: Message)
    ensures m.MissingFields? ==> |Text(m)| == 40 && Text(m)[39] == '.'
    ensures m.InvalidEmail? ==> |Text(m)| == 31 && Text(m)[30] == '.'
    ensures m.InvalidCredentials? ==> |Text(m)| == 65 && Text(m)[64] == '.' && Text(m)[46] == 'd'
    ensures m.Welcome? ==> |Text(m)| == |m.name| + 15 && Text(m)[|Text(m)| - 1] == '!' && Text(m)[6] == ' '
    ensures m.LoginError? ==> |Text(m)| == |m.detail| + 48 && Text(m)[46] == ':' && Text(m)[6] == 'e'
  {
    match m
    case Welcome(name) =>
      assert Text(m)[6] == WelcomePrefix[6];
    case LoginError(detail) =>
      assert Text(m)[6] == LoginErrorPrefix[6] && Text(m)[46] == LoginErrorPrefix[46];
    case _ =>
  }

  /** Distinct message kinds show distinct texts, so the label tells which exit a login took. */
  lemma {:induction false} TextInjective(a: Message, b: Message)
    requires Text(a) == Text(b)
    ensures a == b
  {
    if a == Cleared || b == Cleared {
      return;
    }
    TextMarks(a);
    TextMarks(b);
    match a
    case Welcome(x) =>
      var y := b.name;
      assert x == Text(a)[|WelcomePrefix|..|Text(a)| - |WelcomeSuffix|];
      assert y == Text(b)[|WelcomePrefix|..|Text(b)| - |WelcomeSuffix|];
    case LoginError(x) =>
      var y := b.detail;
      assert x == Text(a)[|LoginErrorPrefix|..];
      assert y == Text(b)[|LoginErrorPrefix|..];
    case _ =>
  }
}

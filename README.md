# Login screen view model of the Grocery app

This project models `LoginViewModel`, the view model behind the Grocery app's login
screen, and proves what it guarantees. The view model holds the bound form fields
(`Email`, `Password`, `RememberMe`), the message under the form and its colour, and a
loading flag. Its login command checks its inputs in a fixed order: blank fields
first, then the email syntax, and only then a call to the authentication service.
On success it persists or forgets the email according to "remember me". When the
screen is built, it pre-fills the email from the preference store.

Files and modules:

- `wrappers.dfy` (`Wrappers`): `Option`.
- `preferences.dfy` (`Preferences`): the process-wide MAUI preference store. It is a
  class `PreferenceStore` over a `map<string, Pref>`, with the typed reads
  `ReadBool`/`ReadString` (`Preferences.Get`). The model assumes that a read of a key
  holding a value of the other type fails, and gives `Fault` for it; platform back
  ends differ on such a read. Only a store this screen did not write can hold one,
  since `SavedStore` always writes the right types.
- `credentials.dfy` (`RememberedCredentials`): the remember-me policy on plain maps.
  `SavedStore` is the store after a save. `Restored` is the `(Email, RememberMe)`
  pair after a load. The lemmas relate the two.
- `messages.dfy` (`LoginMessages`): message kinds, their Dutch texts, and the
  `Red`/`Green` colour.
- `login_view_model.dfy` (`ViewModels`): the email check, `GlobalViewModel` (only
  its `Client` property), and the class `LoginViewModel` with its constructor,
  `LoadRememberedCredentials`, `SaveCredentials`, `ShowErrorMessage`,
  `ShowSuccessMessage`, `HasLoginMessage` and `Login`. `LoginThenReopen` is a client
  of the class: it logs in, then opens a second login screen on the same store.

Collaborators are parameters of `Login`:

- The authentication service is an `AuthService` object. Its `Login` method answers
  with `respond(email, password)` and appends the credentials to its ghost call log
  `Calls`. An `AuthResult` is `Success(client)`, `NoClient` (the service returned
  null) or `Throws(message)`.
- The service's ghost log `Screens` records, at each call, the loading flag and the
  message of the login screen that made it (a ghost parameter of `AuthService.Login`).
- The `System.Net.Mail.MailAddress` parser is a function `string -> Option<string>`.
  It gives `None` where the constructor throws, and otherwise the parsed `Address`.
- `string.IsNullOrWhiteSpace` and `char.IsWhiteSpace`, called by the guard at
  Grocery.App/ViewModels/LoginViewModel.cs:85, are written out. They are the
  predicates `IsNullOrWhiteSpace` and `IsWhiteSpace`, using .NET's set of whitespace
  characters. `IsNullOrWhiteSpace` is its definition and has no contract of its own.

Three behaviours of the code worth knowing:

- With nothing remembered, the email keeps its default `user3@mail.com`. The fields
  are not left empty.
- When `RememberMe` is stored as true but `SavedEmail` is missing, the email becomes `""`.
- `Login` itself has no guard against a second attempt. The command that
  `[RelayCommand]` generates disables itself while one is pending, and the model
  leaves that out.

## Model

| member | source | states |
|---|---|---|
| `Preferences.ReadBool` | Grocery.App/ViewModels/LoginViewModel.cs:47 | a missing key gives the default; a present key gives its bool or, when it holds a string, a fault |
| `Preferences.ReadString` | Grocery.App/ViewModels/LoginViewModel.cs:49 | a missing key gives the default; a present key gives its string or, when it holds a bool, a fault |
| `Preferences.PreferenceStore.SetBool` | Grocery.App/ViewModels/LoginViewModel.cs:66 | the key now holds the bool; every other key is unchanged |
| `Preferences.PreferenceStore.SetString` | Grocery.App/ViewModels/LoginViewModel.cs:67 | the key now holds the string; every other key is unchanged |
| `Preferences.PreferenceStore.Remove` | Grocery.App/ViewModels/LoginViewModel.cs:71-72 | the key is absent afterwards; every other key is unchanged |
| `RememberedCredentials.SavedStore` | Grocery.App/ViewModels/LoginViewModel.cs:64-73 | with remember on, `RememberMe=true` and `SavedEmail=email`; with it off, neither key is present; all other keys are untouched |
| `RememberedCredentials.Restored` | Grocery.App/ViewModels/LoginViewModel.cs:43-58 | unless the store holds `RememberMe=true`, the fields keep their values; with it, the email becomes the stored `SavedEmail`, or `""` when that is missing, and RememberMe becomes true; a mistyped `SavedEmail` changes nothing |
| `RememberedCredentials.SaveThenRestore` | Grocery.App/ViewModels/LoginViewModel.cs:47-68 | after a save with remember on, a load gives exactly the saved email and RememberMe true, whatever the fields were |
| `RememberedCredentials.ClearThenRestore` | Grocery.App/ViewModels/LoginViewModel.cs:47-73 | after a save with remember off, a load leaves both fields as they were, even if an email had been saved before |
| `RememberedCredentials.SaveConsistent` | Grocery.App/ViewModels/LoginViewModel.cs:64-73 | after any save, an email is stored only together with `RememberMe=true` |
| `RememberedCredentials.LastSaveWins` | Grocery.App/ViewModels/LoginViewModel.cs:64-73 | two saves in a row give the store the second one alone gives |
| `RememberedCredentials.SaveIdempotent` | Grocery.App/ViewModels/LoginViewModel.cs:69-73 | saving twice, in particular clearing twice, gives the same store as once |
| `RememberedCredentials.RestoreSaveRestore` | Grocery.App/ViewModels/LoginViewModel.cs:43-73 | saving what a load gave and loading again gives the same fields, whatever the fields were before |
| `LoginMessages.Text` | Grocery.App/ViewModels/LoginViewModel.cs:87-126 | the shown text is empty exactly for the cleared message |
| `LoginMessages.TextInjective` | Grocery.App/ViewModels/LoginViewModel.cs:87-126 | different message kinds, names or error details never show the same text |
| `ViewModels.IsWhiteSpace` | Grocery.App/ViewModels/LoginViewModel.cs:85 | the character test behind the blank-field guard: space, tab, newline and carriage return are whitespace; letters, digits, `@` and `.` are not |
| `ViewModels.StartEmailFilled` | Grocery.App/ViewModels/LoginViewModel.cs:15-51 | the email a new screen starts with is blank exactly when the store has `RememberMe=true` and no `SavedEmail` or a blank one; the default password is not blank |
| `ViewModels.AuthService.Login` | Grocery.App/ViewModels/LoginViewModel.cs:105 | the answer is the service's response to the credentials, and the credentials are appended to the service's call log, and the caller's loading flag and message at that moment to its screen log |
| `ViewModels.IsValidEmail` | Grocery.App/ViewModels/LoginViewModel.cs:180-191 | false when the parser throws or normalises the address to something else; true exactly when it gives back the input |
| `ViewModels.LoginViewModel.HasLoginMessage` | Grocery.App/ViewModels/LoginViewModel.cs:32 | true exactly when a message other than the cleared one is set, that is, when the text is non-empty |
| `ViewModels.LoginViewModel.constructor` | Grocery.App/ViewModels/LoginViewModel.cs:14-41 | the field defaults, then the load policy applied to the store: Email and RememberMe are `Restored(store, "user3@mail.com", false)`; not loading, no message, red |
| `ViewModels.LoginViewModel.LoadRememberedCredentials` | Grocery.App/ViewModels/LoginViewModel.cs:43-58 | Email and RememberMe become `Restored` of the store and their old values; nothing else changes |
| `ViewModels.LoginViewModel.SaveCredentials` | Grocery.App/ViewModels/LoginViewModel.cs:60-80 | the store becomes `SavedStore` of the old store, RememberMe and Email; the view model is untouched |
| `ViewModels.LoginViewModel.ShowErrorMessage` | Grocery.App/ViewModels/LoginViewModel.cs:166-171 | the message is set and drawn red; nothing else changes |
| `ViewModels.LoginViewModel.ShowSuccessMessage` | Grocery.App/ViewModels/LoginViewModel.cs:173-178 | the message is set and drawn green; nothing else changes |
| `ViewModels.LoginViewModel.Login` | Grocery.App/ViewModels/LoginViewModel.cs:82-132 | blank fields give the red missing-fields message, then a rejected email gives the red invalid-email message; both leave loading, the store, the client and the service's call log alone; otherwise exactly one call with the form's credentials is made, while loading with the message cleared, loading ends false, success saves per RememberMe, shows a green welcome with the client's name and sets the client, while null and exceptions show a red message and leave store and client alone; on every exit a message is shown |
| `ViewModels.LoginThenReopen` | Grocery.App/ViewModels/LoginViewModel.cs:34-132 | after a successful login, a new login screen on the same store pre-fills the email exactly when remember me was on, and otherwise starts from the default email with RememberMe false |

## Left out

- The `Task.Delay` waits and the `async` structure: `Login` is one sequential method.
- Navigation to `AppShell` after a successful login. If that assignment threw, the
  catch block would replace the success message with an error message after the store
  and the client had already been updated; the model does not capture that.
- `NavigateToRegister` and `ForgotPassword`: they only show toasts and alerts.
- The rules of `System.Net.Mail.MailAddress`: it is a library parser, passed in as a function.
- `Debug.WriteLine` in the two catch blocks, and `OnPropertyChanged` notifications.
- Storage faults on reads other than a value of the wrong type: the catch around
  `Preferences.Get` swallows any exception, but the model can fault only when a key
  holds a value of the other type.
- `AuthService.respond` is a fixed function of the credentials, so the model's
  service always answers the same credentials the same way, and a `Throws` from a
  passing transport error would repeat. No proof relies on this, because each
  `Login` makes one call.
- Storage faults on writes: `Preferences.Set`/`Remove` always succeed in the model,
  so `SaveCredentials` never fails partway.
- The `AsyncRelayCommand` that `[RelayCommand]` generates for `Login`, which
  disables itself while an attempt is pending: the model has one sequential
  `Login` method and no command object.
- `Client` fields other than the name, and `Color` values other than red and green.
- Null strings: `Email` and `Password` are never null here, so `IsNullOrWhiteSpace`
  and `IsNullOrEmpty` test only the contents.

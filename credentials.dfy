/**
 The "remember me" policy of the login screen: which preference keys a successful
 login writes, and what the next login screen restores from them.
 */
module RememberedCredentials {
  import opened Preferences

  const RememberMeKey := "RememberMe"
  const SavedEmailKey := "SavedEmail"

  /** The store after `SaveCredentials`: remember the email, or forget both keys. */
  function SavedStore(m: map<string, Pref>, remember: bool, email: string): (r: map<string, Pref>)
    ensures remember ==> RememberMeKey in r && r[RememberMeKey] == BoolPref(true)
    ensures remember ==> SavedEmailKey in r && r[SavedEmailKey] == StringPref(email)
    ensures !remember ==> RememberMeKey !in r && SavedEmailKey !in r
    ensures forall k :: k != RememberMeKey && k != SavedEmailKey ==> (k in r <==> k in m)
    ensures forall k :: k in m && k != RememberMeKey && k != SavedEmailKey ==> r[k] == m[k]
  {
    if remember then m[RememberMeKey := BoolPref(true)][SavedEmailKey := StringPref(email)]
    else m - {RememberMeKey, SavedEmailKey}
  }

  /** The store says the email is to be remembered. */
  predicate RememberRequested(m: map<string, Pref>)
  {
    RememberMeKey in m && m[RememberMeKey] == BoolPref(true)
  }

  /**
   The (Email, RememberMe) fields after `LoadRememberedCredentials`, from the fields
   they had before. A read that faults leaves both fields as they were.
   */
  function Restored(m: map<string, Pref>, email: string, remember: bool): (r: (string, bool))
    ensures !RememberRequested(m) ==> r == (email, remember)
    ensures RememberRequested(m) && SavedEmailKey !in m ==> r == ("", true)
    ensures RememberRequested(m) && SavedEmailKey in m && m[SavedEmailKey].StringPref? ==>
              r == (m[SavedEmailKey].s, true)
    ensures SavedEmailKey in m && m[SavedEmailKey].BoolPref? ==> r == (email, remember)
  {
    match ReadBool(m, RememberMeKey, false)
    case Fault => (email, remember)
    case Ok(flag) =>
      if !flag then (email, remember)
      else match ReadString(m, SavedEmailKey, "")
        case Fault => (email, remember)
        case Ok(saved) => (saved, true)
  }

  /** No email is kept unless remembering is switched on. */
  predicate Consistent(m: map<string, Pref>)
  {
    SavedEmailKey in m ==> RememberRequested(m)
  }

  /** A save with remember on is restored exactly by the next load, whatever the fields were. */
  lemma SaveThenRestore(m: map<string, Pref>, email: string, before: string, flag: bool)
    ensures Restored(SavedStore(m, true, email), before, flag) == (email, true)
  {
  }

  /** A save with remember off makes the next load keep the fields it already had. */
  lemma ClearThenRestore(m: map<string, Pref>, email: string, before: string, flag: bool)
    ensures Restored(SavedStore(m, false, email), before, flag) == (before, flag)
  {
  }

  /** Every save leaves the store consistent, whatever it held before. */
  lemma SaveConsistent(m: map<string, Pref>, remember: bool, email: string)
    ensures Consistent(SavedStore(m, remember, email))
  {
  }

  /** The second of two saves decides the store: a clear overrides a stale save and vice versa. */
  lemma LastSaveWins(m: map<string, Pref>, r1: bool, e1: string, r2: bool, e2: string)
    ensures SavedStore(SavedStore(m, r1, e1), r2, e2) == SavedStore(m, r2, e2)
  {
  }

  /** Saving twice gives the same store as saving once; in particular clearing twice does. */
  lemma SaveIdempotent(m: map<string, Pref>, remember: bool, email: string)
    ensures SavedStore(SavedStore(m, remember, email), remember, email) == SavedStore(m, remember, email)
  {
    LastSaveWins(m, remember, email, remember, email);
  }

  /** Loading a store and saving back what was loaded yields a store that loads the same way. */
  lemma RestoreSaveRestore(m: map<string, Pref>, email: string, remember: bool)
    ensures var (e, flag) := Restored(m, email, remember);
            Restored(SavedStore(m, flag, e), email, remember) == (e, flag)
  {
  }
}

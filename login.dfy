/**
 * The login screen: the ordered form checks, the restore of a remembered
 * address, the keys a successful login writes to the device store and the
 * message shown when login fails.
 */
module Login {
  import opened Wrappers
  import opened Text
  import opened Storage
  import Register

  /** The login form's checks, in the order they are made. */
  datatype LoginFailure = EmailMissing | EmailInvalid | PasswordMissing | PasswordTooShort

  /** Every check's alert is titled `Hata`. */
  const FailureTitle: string := "Hata"

  /** The alert's text for each check. */
  function FailureMessage(f: LoginFailure): string {
    match f
    case EmailMissing => "E-posta adresinizi girin."
    case EmailInvalid => "Geçerli bir e-posta adresi girin."
    case PasswordMissing => "Şifrenizi girin."
    case PasswordTooShort => "Şifre en az 6 karakter olmalıdır."
  }

  /**
   * `validateForm`: the first failing check, or None. The `@` test looks at
   * the address as typed and the length test at the password as typed.
   */
  function ValidateLogin(email: string, password: string): (r: Option<LoginFailure>)
    ensures r.None? <==> !AllSpace(email) && Contains(email, "@") && !AllSpace(password) && Utf16Length(password) >= 6
    ensures r == Some(EmailMissing) <==> AllSpace(email)
    ensures r == Some(EmailInvalid) <==> !AllSpace(email) && forall i :: 0 <= i < |email| ==> email[i] != '@'
    ensures r == Some(PasswordMissing) <==> !AllSpace(email) && Contains(email, "@") && AllSpace(password)
    ensures r == Some(PasswordTooShort) <==>
      !AllSpace(email) && Contains(email, "@") && !AllSpace(password) && Utf16Length(password) < 6
  {
    TrimEmptyIffBlank(email);
    TrimEmptyIffBlank(password);
    ContainsCharIff(email, '@');
    if Trim(email) == [] then Some(EmailMissing)
    else if !Contains(email, "@") then Some(EmailInvalid)
    else if Trim(password) == [] then Some(PasswordMissing)
    else if Utf16Length(password) < 6 then Some(PasswordTooShort)
    else None
  }

  /**
   * The alert `validateForm` raises for the form as typed, or None when login
   * goes ahead: every check's alert is titled `Hata`, with that check's text.
   */
  function LoginAlert(email: string, password: string): (alert: Option<Register.Alert>)
    ensures alert.None? <==> !AllSpace(email) && Contains(email, "@") && !AllSpace(password) && Utf16Length(password) >= 6
    ensures AllSpace(email) ==> alert == Some(Register.Alert("Hata", "E-posta adresinizi girin."))
    ensures !AllSpace(email) && (forall i :: 0 <= i < |email| ==> email[i] != '@') ==>
      alert == Some(Register.Alert("Hata", "Geçerli bir e-posta adresi girin."))
    ensures !AllSpace(email) && Contains(email, "@") && AllSpace(password) ==>
      alert == Some(Register.Alert("Hata", "Şifrenizi girin."))
    ensures !AllSpace(email) && Contains(email, "@") && !AllSpace(password) && Utf16Length(password) < 6 ==>
      alert == Some(Register.Alert("Hata", "Şifre en az 6 karakter olmalıdır."))
  {
    match ValidateLogin(email, password)
    case None => None
    case Some(f) => Some(Register.Alert(FailureTitle, FailureMessage(f)))
  }

  /** The credentials the registration form accepts also pass the login form, the address trimmed as it is sent. */
  lemma RegisteredCredentialsPassLogin(email: string, studentId: string, password: string, confirm: string, agreed: bool)
    requires Register.ValidateRegistration(email, studentId, password, confirm, agreed).None?
    ensures ValidateLogin(Trim(email), password).None?
  {
    assert Register.EmailShape(Trim(email)) && Register.PasswordOk(password);
    WellFormedPassesLogin(Trim(email), password);
  }

  /** An address of the registration form's shape and a password of its strength pass the login form. */
  lemma WellFormedPassesLogin(e: string, password: string)
    requires Register.EmailShape(e) && Register.PasswordOk(password)
    ensures ValidateLogin(e, password).None?
  {
    var i :| 0 < i < |e| && e[i] == '@' && Register.Plain(e[..i]) && Register.DottedDomain(e[i + 1..]);
    assert !AllSpace(e) by {
      assert e[..i][0] == e[0];
    }
    assert Contains(e, "@") by {
      ContainsCharIff(e, '@');
    }
    var j :| 0 <= j < |password| && IsUpper(password[j]);
    assert !AllSpace(password) by {
      assert !IsSpace(password[j]);
    }
  }

  /** `loadSavedCredentials`: the remembered address, when there is one and remember-me was stored as `'true'`. */
  function RestoredEmail(savedEmail: Option<string>, rememberMe: Option<string>): (r: Option<string>)
    ensures r.Some? <==> savedEmail.Some? && savedEmail.value != [] && rememberMe == Some("true")
    ensures r.Some? ==> r.value == savedEmail.value
  {
    if savedEmail.Some? && savedEmail.value != [] && rememberMe == Some("true") then savedEmail else None
  }

  /** The user record the login call returns. */
  datatype LoggedInUser = LoggedInUser(id: int, email: string, studentId: Option<string>)

  /** The profile and score fetched after login: their stored texts, or None when either request failed. */
  datatype Prefetched = Prefetched(profileJson: string, score: int)

  /** The keys a login writes or removes. */
  const LoginKeys: set<string> :=
    {"userId", "userEmail", "studentId", "savedEmail", "rememberMe", "userProfile", "userScore"}

  /** The store after a successful login, from the store before it. */
  function LoginStorage(items: map<string, string>, user: LoggedInUser, email: string, rememberMe: bool,
                        prefetch: Option<Prefetched>): map<string, string>
  {
    var session := items["userId" := IntToString(user.id)]["userEmail" := user.email]
                         ["studentId" := user.studentId.GetOr("")];
    var remembered := if rememberMe then session["savedEmail" := Trim(email)]["rememberMe" := "true"]
                      else session - {"savedEmail"} - {"rememberMe"};
    match prefetch
    case None => remembered
    case Some(p) => remembered["userProfile" := p.profileJson]["userScore" := IntToString(p.score)]
  }

  /**
   * What a login leaves in the store: the session keys, the remember-me keys
   * set or removed, the prefetched data only when it arrived, and every other
   * key as it was.
   */
  lemma LoginStorageEffect(items: map<string, string>, user: LoggedInUser, email: string, rememberMe: bool,
                           prefetch: Option<Prefetched>)
    ensures var after := LoginStorage(items, user, email, rememberMe, prefetch);
      && "userId" in after && after["userId"] == IntToString(user.id)
      && "userEmail" in after && after["userEmail"] == user.email
      && "studentId" in after && after["studentId"] == (if user.studentId.Some? then user.studentId.value else "")
      && (rememberMe ==> "savedEmail" in after && after["savedEmail"] == Trim(email)
                         && "rememberMe" in after && after["rememberMe"] == "true")
      && (!rememberMe ==> "savedEmail" !in after && "rememberMe" !in after)
      && (prefetch.Some? ==> "userProfile" in after && after["userProfile"] == prefetch.value.profileJson
                             && "userScore" in after && after["userScore"] == IntToString(prefetch.value.score))
      && (prefetch.None? ==> ("userProfile" in after <==> "userProfile" in items)
                             && ("userScore" in after <==> "userScore" in items)
                             && ("userProfile" in items ==> after["userProfile"] == items["userProfile"])
                             && ("userScore" in items ==> after["userScore"] == items["userScore"]))
      && (forall k :: k !in LoginKeys ==> (k in after <==> k in items) && (k in items ==> after[k] == items[k]))
  {
  }

  /** `getItem` on a snapshot of the store. */
  function Lookup(items: map<string, string>, key: string): Option<string> {
    if key in items then Some(items[key]) else None
  }

  /**
   * The next visit of the screen after a successful login restores the
   * trimmed address exactly when remember-me was checked.
   */
  lemma RememberedEmailRestored(items: map<string, string>, user: LoggedInUser, email: string, password: string,
                                rememberMe: bool, prefetch: Option<Prefetched>)
    requires ValidateLogin(email, password).None?
    ensures var after := LoginStorage(items, user, email, rememberMe, prefetch);
      RestoredEmail(Lookup(after, "savedEmail"), Lookup(after, "rememberMe"))
      == if rememberMe then Some(Trim(email)) else None
  {
    LoginStorageEffect(items, user, email, rememberMe, prefetch);
    TrimEmptyIffBlank(email);
  }

  /** `handleLogin`'s writes, in the order the screen makes them. */
  method HandleLoginWrites(store: DeviceStorage, user: LoggedInUser, email: string, rememberMe: bool,
                           prefetch: Option<Prefetched>)
    modifies store
    ensures store.items == LoginStorage(old(store.items), user, email, rememberMe, prefetch)
  {
    store.SetItem("userId", IntToString(user.id));
    store.SetItem("userEmail", user.email);
    store.SetItem("studentId", if user.studentId.Some? then user.studentId.value else "");
    if rememberMe {
      store.SetItem("savedEmail", Trim(email));
      store.SetItem("rememberMe", "true");
    } else {
      store.RemoveItem("savedEmail");
      store.RemoveItem("rememberMe");
    }
    if prefetch.Some? {
      store.SetItem("userProfile", prefetch.value.profileJson);
      store.SetItem("userScore", IntToString(prefetch.value.score));
    }
  }

  /** The message shown when login fails; None stands for an error without a message. */
  function LoginErrorMessage(message: Option<string>): (r: string)
    ensures (message.None? || message.value == []) ==> r == "Giriş yapılamadı. Lütfen tekrar deneyin."
    ensures message.Some? && (Contains(message.value, "404") || Contains(message.value, "401")) ==>
      r == "E-posta veya şifre hatalı."
    ensures (message.Some? && !Contains(message.value, "404") && !Contains(message.value, "401")
             && (Contains(message.value, "network") || Contains(message.value, "fetch"))) ==>
      r == "Bağlantı hatası. İnternet bağlantınızı kontrol edin."
    ensures (message.Some? && message.value != [] && !Contains(message.value, "404") && !Contains(message.value, "401")
             && !Contains(message.value, "network") && !Contains(message.value, "fetch")) ==>
      r == message.value
  {
    if message.None? || message.value == [] then "Giriş yapılamadı. Lütfen tekrar deneyin."
    else if Contains(message.value, "404") || Contains(message.value, "401") then "E-posta veya şifre hatalı."
    else if Contains(message.value, "network") || Contains(message.value, "fetch") then
      "Bağlantı hatası. İnternet bağlantınızı kontrol edin."
    else message.value
  }
}

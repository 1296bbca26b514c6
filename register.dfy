/**
 * The registration screen: the ordered form checks (the first failing one is
 * reported), the password-strength meter, the choice of message for a
 * failed registration and the sample student number offered to the user.
 */
module Register {
  import opened Wrappers
  import opened Text

  /** A run of characters with no white space and no `@`: `[^\s@]+`. */
  predicate Plain(s: string) {
    |s| > 0 && forall i :: 0 <= i < |s| ==> !IsSpace(s[i]) && s[i] != '@'
  }

  /** A domain that is `[^\s@]+\.[^\s@]+`: plain, with a dot that has something on each side. */
  predicate DottedDomain(d: string) {
    Plain(d) && exists k :: 0 < k < |d| - 1 && d[k] == '.'
  }

  /** `/^[^\s@]+@[^\s@]+\.[^\s@]+$/.test(e)`: an accepted address has no white space and exactly one `@`, not at the front. */
  predicate EmailShape(e: string): (ok: bool)
    ensures ok ==> forall j :: 0 <= j < |e| ==> !IsSpace(e[j])
    ensures ok ==> exists i :: 0 < i < |e| && e[i] == '@' && forall j :: 0 <= j < |e| && j != i ==> e[j] != '@'
  {
    if exists i :: 0 < i < |e| && e[i] == '@' && Plain(e[..i]) && DottedDomain(e[i + 1..]) then
      var i :| 0 < i < |e| && e[i] == '@' && Plain(e[..i]) && DottedDomain(e[i + 1..]);
      assert forall j :: 0 <= j < |e| && j != i ==> e[j] != '@' && !IsSpace(e[j]) by {
        forall j | 0 <= j < |e| && j != i ensures e[j] != '@' && !IsSpace(e[j]) {
          if j < i {
            assert e[..i][j] == e[j];
          } else {
            assert e[i + 1..][j - i - 1] == e[j];
          }
        }
      }
      true
    else false
  }

  /** Every local part, domain name and top-level part put together as `a@b.c` is accepted. */
  lemma EmailFromParts(a: string, b: string, c: string)
    requires Plain(a) && Plain(b) && Plain(c) && forall i :: 0 <= i < |c| ==> c[i] != '.'
    ensures EmailShape(a + "@" + b + "." + c)
  {
    var e := a + "@" + b + "." + c;
    var d := b + "." + c;
    assert e[..|a|] == a;
    assert e[|a| + 1..] == d;
    assert d[|b|] == '.';
    assert e[|a|] == '@';
  }

  predicate HasUpper(s: string) { exists i :: 0 <= i < |s| && IsUpper(s[i]) }
  predicate HasLower(s: string) { exists i :: 0 <= i < |s| && IsLower(s[i]) }
  predicate HasDigit(s: string) { exists i :: 0 <= i < |s| && IsDigit(s[i]) }

  /** `[!@#$%^&*(),.?":{}|<>]` */
  predicate IsSpecial(c: char) {
    c in {'!', '@', '#', '$', '%', '^', '&', '*', '(', ')', ',', '.', '?', '"', ':', '{', '}', '|', '<', '>'}
  }

  predicate HasSpecial(s: string) { exists i :: 0 <= i < |s| && IsSpecial(s[i]) }

  /** `/^\d{9}$/` */
  predicate NineDigits(s: string) { |s| == 9 && AllDigits(s) }

  /** The checks of the registration form, in the order they are made. */
  datatype RegisterFailure =
    | EmailMissing | EmailInvalid
    | StudentIdMissing | StudentIdNotNineDigits
    | PasswordMissing | PasswordTooShort | PasswordWeak
    | PasswordsDiffer | TermsNotAccepted

  /** The alert's title: `Zayıf Şifre` for a weak password, `Hata` for every other check. */
  function FailureTitle(f: RegisterFailure): (title: string)
    ensures title == "Zayıf Şifre" <==> f == PasswordWeak
    ensures title == "Hata" <==> f != PasswordWeak
  {
    if f == PasswordWeak then "Zayıf Şifre" else "Hata"
  }

  /** The alert's text for each check. */
  function FailureMessage(f: RegisterFailure): string {
    match f
    case EmailMissing => "E-posta adresinizi girin."
    case EmailInvalid => "Geçerli bir e-posta adresi girin."
    case StudentIdMissing => "Öğrenci numaranızı girin."
    case StudentIdNotNineDigits => "Öğrenci numarası 9 haneli olmalıdır."
    case PasswordMissing => "Şifrenizi girin."
    case PasswordTooShort => "Şifre en az 8 karakter olmalıdır."
    case PasswordWeak => "Şifreniz en az bir büyük harf, küçük harf ve rakam içermelidir."
    case PasswordsDiffer => "Şifreler eşleşmiyor."
    case TermsNotAccepted => "Kullanım şartlarını kabul etmelisiniz."
  }

  /** An alert dialog: its title and its message. */
  datatype Alert = Alert(title: string, message: string)

  /**
   * The alert `validateForm` raises for the form as filled in, or None when the
   * form is sent: the title and the text of the first failing check.
   */
  function RegisterAlert(email: string, studentId: string, password: string, confirm: string, agreed: bool)
    : (alert: Option<Alert>)
    ensures alert.None? <==> ValidateRegistration(email, studentId, password, confirm, agreed).None?
    ensures var v := ValidateRegistration(email, studentId, password, confirm, agreed);
      && (v == Some(EmailMissing) ==> alert == Some(Alert("Hata", "E-posta adresinizi girin.")))
      && (v == Some(EmailInvalid) ==> alert == Some(Alert("Hata", "Geçerli bir e-posta adresi girin.")))
      && (v == Some(StudentIdMissing) ==> alert == Some(Alert("Hata", "Öğrenci numaranızı girin.")))
      && (v == Some(StudentIdNotNineDigits) ==> alert == Some(Alert("Hata", "Öğrenci numarası 9 haneli olmalıdır.")))
      && (v == Some(PasswordMissing) ==> alert == Some(Alert("Hata", "Şifrenizi girin.")))
      && (v == Some(PasswordTooShort) ==> alert == Some(Alert("Hata", "Şifre en az 8 karakter olmalıdır.")))
      && (v == Some(PasswordWeak) ==>
            alert == Some(Alert("Zayıf Şifre", "Şifreniz en az bir büyük harf, küçük harf ve rakam içermelidir.")))
      && (v == Some(PasswordsDiffer) ==> alert == Some(Alert("Hata", "Şifreler eşleşmiyor.")))
      && (v == Some(TermsNotAccepted) ==> alert == Some(Alert("Hata", "Kullanım şartlarını kabul etmelisiniz.")))
  {
    match ValidateRegistration(email, studentId, password, confirm, agreed)
    case None => None
    case Some(f) => Some(Alert(FailureTitle(f), FailureMessage(f)))
  }

  /** The password rules a submitted password must meet (it is not trimmed). */
  predicate PasswordOk(password: string) {
    Utf16Length(password) >= 8 && HasUpper(password) && HasLower(password) && HasDigit(password)
  }

  /** `validateForm`: the first failing check, or None when the form may be sent. */
  function ValidateRegistration(email: string, studentId: string, password: string, confirm: string, agreed: bool)
    : (r: Option<RegisterFailure>)
    ensures r.None? <==>
      EmailShape(Trim(email)) && NineDigits(Trim(studentId)) && PasswordOk(password) && password == confirm && agreed
    ensures r == Some(EmailMissing) <==> Trim(email) == []
    ensures r == Some(EmailInvalid) <==> Trim(email) != [] && !EmailShape(Trim(email))
    ensures r == Some(StudentIdMissing) <==> EmailShape(Trim(email)) && Trim(studentId) == []
    ensures r == Some(StudentIdNotNineDigits) <==>
      EmailShape(Trim(email)) && Trim(studentId) != [] && !NineDigits(Trim(studentId))
    ensures r == Some(PasswordMissing) <==> EmailShape(Trim(email)) && NineDigits(Trim(studentId)) && password == []
    ensures r == Some(PasswordTooShort) <==>
      EmailShape(Trim(email)) && NineDigits(Trim(studentId)) && password != [] && Utf16Length(password) < 8
    ensures r == Some(PasswordWeak) <==>
      EmailShape(Trim(email)) && NineDigits(Trim(studentId)) && Utf16Length(password) >= 8
      && !(HasUpper(password) && HasLower(password) && HasDigit(password))
    ensures r == Some(PasswordsDiffer) <==>
      EmailShape(Trim(email)) && NineDigits(Trim(studentId)) && PasswordOk(password) && password != confirm
    ensures r == Some(TermsNotAccepted) <==>
      EmailShape(Trim(email)) && NineDigits(Trim(studentId)) && PasswordOk(password) && password == confirm && !agreed
  {
    var e := Trim(email);
    var s := Trim(studentId);
    if e == [] then Some(EmailMissing)
    else if !EmailShape(e) then Some(EmailInvalid)
    else if s == [] then Some(StudentIdMissing)
    else if !NineDigits(s) then Some(StudentIdNotNineDigits)
    else if password == [] then Some(PasswordMissing)
    else if Utf16Length(password) < 8 then Some(PasswordTooShort)
    else if !HasUpper(password) || !HasLower(password) || !HasDigit(password) then Some(PasswordWeak)
    else if password != confirm then Some(PasswordsDiffer)
    else if !agreed then Some(TermsNotAccepted)
    else None
  }

  /** What the strength meter shows. */
  datatype Strength = Strength(caption: string, color: string, score: nat)

  function B2N(b: bool): nat { if b then 1 else 0 }

  /** The number of the five strength checks a non-empty password meets. */
  function StrengthScore(password: string): (score: nat)
    ensures score <= 5
    ensures score == 0 <==>
      Utf16Length(password) < 8 && !HasUpper(password) && !HasLower(password) && !HasDigit(password) && !HasSpecial(password)
  {
    B2N(Utf16Length(password) >= 8) + B2N(HasUpper(password)) + B2N(HasLower(password)) + B2N(HasDigit(password))
      + B2N(HasSpecial(password))
  }

  const StrengthLevels: seq<(string, string)> := [
    ("Çok Zayıf", "#FF4136"),
    ("Zayıf", "#FF851B"),
    ("Orta", "#FFDC00"),
    ("Güçlü", "#2ECC40"),
    ("Çok Güçlü", "#01FF70")
  ]

  /** `getPasswordStrength` */
  function PasswordStrength(password: string): (r: Strength)
    ensures password == [] ==> r == Strength("", "#ccc", 0)
    ensures password != [] ==> r.score == StrengthScore(password)
    ensures password != [] ==> r.caption == StrengthLevels[if r.score == 0 then 0 else r.score - 1].0
    ensures password != [] ==> r.color == StrengthLevels[if r.score == 0 then 0 else r.score - 1].1
  {
    if password == [] then Strength("", "#ccc", 0)
    else
      var score := StrengthScore(password);
      var level := StrengthLevels[if 0 > score - 1 then 0 else score - 1];
      Strength(level.0, level.1, score)
  }

  /** A password the form accepts shows at least `Güçlü` on the meter: four of the five checks hold. */
  lemma AcceptedPasswordIsStrong(email: string, studentId: string, password: string, confirm: string, agreed: bool)
    requires ValidateRegistration(email, studentId, password, confirm, agreed).None?
    ensures PasswordStrength(password).score >= 4
    ensures PasswordStrength(password).caption in {"Güçlü", "Çok Güçlü"}
  {
    assert PasswordOk(password);
    StrongPasswordRated(password);
  }

  /** The meter's reading of a password that passes the length and character-class checks. */
  lemma StrongPasswordRated(password: string)
    requires PasswordOk(password)
    ensures PasswordStrength(password).score >= 4
    ensures PasswordStrength(password).caption in {"Güçlü", "Çok Güçlü"}
  {
    assert password != [] by { assert |password| * 2 >= Utf16Length(password) >= 8; }
    var score := StrengthScore(password);
    assert score >= 4;
    assert PasswordStrength(password).caption == StrengthLevels[score - 1].0;
  }

  /** The message shown when registration fails; `message` is None when the error has no string message. */
  function RegisterErrorMessage(message: Option<string>): (r: string)
    ensures message.None? ==> r == "Kayıt oluşturulamadı. Lütfen tekrar deneyin."
    ensures message.Some? && (Contains(message.value, "already exists") || Contains(message.value, "409")) ==>
      r == "Bu e-posta adresi veya öğrenci numarası zaten kullanılıyor."
    ensures (message.Some? && !Contains(message.value, "already exists") && !Contains(message.value, "409")
             && Contains(message.value, "network")) ==>
      r == "Bağlantı hatası. İnternet bağlantınızı kontrol edin."
    ensures (message.Some? && !Contains(message.value, "already exists") && !Contains(message.value, "409")
             && !Contains(message.value, "network") && Contains(message.value, "400")) ==>
      r == "Girilen bilgiler geçersiz. Lütfen kontrol edin."
    ensures (message.Some? && !Contains(message.value, "already exists") && !Contains(message.value, "409")
             && !Contains(message.value, "network") && !Contains(message.value, "400")) ==>
      r == "Kayıt oluşturulamadı. Lütfen tekrar deneyin."
  {
    if message.None? then "Kayıt oluşturulamadı. Lütfen tekrar deneyin."
    else if Contains(message.value, "already exists") || Contains(message.value, "409") then
      "Bu e-posta adresi veya öğrenci numarası zaten kullanılıyor."
    else if Contains(message.value, "network") then "Bağlantı hatası. İnternet bağlantınızı kontrol edin."
    else if Contains(message.value, "400") then "Girilen bilgiler geçersiz. Lütfen kontrol edin."
    else "Kayıt oluşturulamadı. Lütfen tekrar deneyin."
  }

  /**
   * `generateSampleStudentId` with its three random draws as parameters:
   * `first` from `floor(random * 2)`, `middle` from `floor(random * 10000000)`
   * and `last` from `floor(random * 10)`.
   */
  function SampleStudentId(first: nat, middle: nat, last: nat): (id: string)
    requires first < 2 && middle < 10_000_000 && last < 10
    ensures NineDigits(id) && id[0] in {'1', '2'}
  {
    SampleStudentIdShape(first, middle, last);
    NatToString(first + 1) + PadStart(NatToString(middle), 7, '0') + NatToString(last)
  }

  lemma SampleStudentIdShape(first: nat, middle: nat, last: nat)
    requires first < 2 && middle < 10_000_000 && last < 10
    ensures var id := NatToString(first + 1) + PadStart(NatToString(middle), 7, '0') + NatToString(last);
      NineDigits(id) && id[0] in {'1', '2'}
  {
    MiddleDigits(middle);
    var head := NatToString(first + 1);
    var mid := PadStart(NatToString(middle), 7, '0');
    var tail := NatToString(last);
    assert head == [DigitChar(first + 1)];
    assert tail == [DigitChar(last)];
    AllDigitsConcat(head, mid);
    AllDigitsConcat(head + mid, tail);
    var id := head + mid + tail;
    assert |id| == 9;
    assert id[0] == head[0];
    assert head[0] == '1' || head[0] == '2';
  }

  /** A sample id is left as it is by `trim()`, so the student-number checks see all nine digits. */
  lemma SampleStudentIdTrimmed(first: nat, middle: nat, last: nat)
    requires first < 2 && middle < 10_000_000 && last < 10
    ensures Trim(SampleStudentId(first, middle, last)) == SampleStudentId(first, middle, last)
  {
    TrimOfDigits(SampleStudentId(first, middle, last));
  }

  /** A sample id reads as the three draws put side by side. */
  lemma SampleStudentIdValue(first: nat, middle: nat, last: nat)
    requires first < 2 && middle < 10_000_000 && last < 10
    ensures DigitsValue(SampleStudentId(first, middle, last)) == (first + 1) * 100_000_000 + middle * 10 + last
  {
    MiddleDigits(middle);
    var mid := PadStart(NatToString(middle), 7, '0');
    var head := [DigitChar(first + 1)];
    var tail := [DigitChar(last)];
    assert NatToString(first + 1) == head && NatToString(last) == tail;
    var id := head + mid + tail;
    assert SampleStudentId(first, middle, last) == id;
    SingleDigitValue(first + 1);
    SingleDigitValue(last);
    assert Pow10(7) == 10_000_000 && Pow10(1) == 10;
    DigitsValueConcat(head, mid, 7);
    DigitsValueConcat(head + mid, tail, 1);
    var v := DigitsValue(head + mid);
    assert v == (first + 1) * 10_000_000 + middle;
    assert DigitsValue(id) == v * 10 + last;
  }

  /** The seven middle digits: the draw padded with zeros. */
  lemma MiddleDigits(middle: nat)
    requires middle < 10_000_000
    ensures var mid := PadStart(NatToString(middle), 7, '0');
      |mid| == 7 && AllDigits(mid) && DigitsValue(mid) == middle
  {
    assert Pow10(7) == 10_000_000;
    NatToStringShort(middle, 7);
    PadZerosValue(NatToString(middle), 7);
    NatToStringRoundTrip(middle);
  }

  lemma SingleDigitValue(d: nat)
    requires d < 10
    ensures DigitsValue([DigitChar(d)]) == d
  {
    assert [DigitChar(d)][..0] == [];
  }
}

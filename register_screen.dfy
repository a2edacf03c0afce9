/**
 * The mobile app's registration screen: the field checks of `validateForm`,
 * with JavaScript's `\S+@\S+\.\S+` e-mail pattern, and the guarded call to
 * the registration endpoint.
 */
module RegisterScreen {
  import opened Wrappers
  import Js
  import opened UseReports

  const NameRequired: string := "Nome é obrigatório"
  const EmailRequired: string := "Email é obrigatório"
  const EmailInvalid: string := "Email inválido"
  const PasswordRequired: string := "Senha é obrigatória"
  const PasswordTooShort: string := "Senha deve ter pelo menos 6 caracteres"
  const PasswordsDiffer: string := "As senhas não coincidem"
  const EmailInUseAlert: string := "Este email já está em uso. Por favor, use outro email."
  const RegistrationFailedAlert: string := "Ocorreu um erro durante o cadastro. Tente novamente."
  const MinPasswordLength: nat := 6

  /** A character matched by `\S`. */
  predicate NonSpace(c: char) {
    !Js.IsSpace(c)
  }

  /** Every character of `run` is matched by `\S`. */
  predicate NonSpaceRun(run: string) {
    forall m | 0 <= m < |run| :: NonSpace(run[m])
  }

  /**
   * What `\S+\.\S+` needs after the '@': a non-empty run of non-space
   * characters, a '.', and one more non-space character.  The trailing run
   * of the pattern can always be shrunk to one character.
   */
  ghost predicate DotPart(t: string) {
    exists dot | 0 < dot < |t| - 1 :: t[dot] == '.' && NonSpaceRun(t[..dot]) && NonSpace(t[dot + 1])
  }

  /**
   * `/\S+@\S+\.\S+/.test(s)`: somewhere in `s` an '@' follows a non-space
   * character (the leading run shrunk to one character) and is followed by
   * a `DotPart`.
   */
  ghost predicate EmailPattern(s: string) {
    exists at | 0 < at < |s| :: s[at] == '@' && NonSpace(s[at - 1]) && DotPart(s[at + 1..])
  }

  /** A left-to-right scan for `DotPart`. */
  predicate DotScan(t: string) {
    |t| >= 3 && NonSpace(t[0]) && ((t[1] == '.' && NonSpace(t[2])) || DotScan(t[1..]))
  }

  /** A left-to-right scan for the whole pattern: the regular-expression test the form runs. */
  predicate EmailMatches(s: string) {
    |s| >= 2 && ((NonSpace(s[0]) && s[1] == '@' && DotScan(s[2..])) || EmailMatches(s[1..]))
  }

  lemma {:induction false} DotScanPart(t: string)
    ensures DotScan(t) <==> DotPart(t)
  {
    if |t| >= 3 {
      DotScanPart(t[1..]);
      if DotScan(t) {
        if t[1] == '.' && NonSpace(t[2]) {
          assert t[..1] == [t[0]];
          assert t[1] == '.' && NonSpaceRun(t[..1]) && NonSpace(t[2]);
        } else {
          var dot :| 0 < dot < |t[1..]| - 1 && t[1..][dot] == '.' && NonSpaceRun(t[1..][..dot]) && NonSpace(t[1..][dot + 1]);
          assert t[..dot + 1] == [t[0]] + t[1..][..dot];
          assert t[dot + 1] == '.' && NonSpaceRun(t[..dot + 1]) && NonSpace(t[dot + 2]);
        }
      }
      if DotPart(t) {
        var dot :| 0 < dot < |t| - 1 && t[dot] == '.' && NonSpaceRun(t[..dot]) && NonSpace(t[dot + 1]);
        assert NonSpace(t[0]) by { assert t[..dot][0] == t[0]; }
        if dot > 1 {
          assert t[1..][..dot - 1] == t[1..dot];
          assert t[1..][dot - 1] == '.' && NonSpaceRun(t[1..][..dot - 1]) && NonSpace(t[1..][dot]);
        }
      }
    }
  }

  /** The scan decides exactly the pattern. */
  lemma {:induction false} EmailMatchesPattern(s: string)
    ensures EmailMatches(s) <==> EmailPattern(s)
  {
    if |s| >= 2 {
      EmailMatchesPattern(s[1..]);
      DotScanPart(s[2..]);
      if EmailMatches(s) {
        if NonSpace(s[0]) && s[1] == '@' && DotScan(s[2..]) {
          assert s[1] == '@' && NonSpace(s[0]) && DotPart(s[1 + 1..]);
        } else {
          var at :| 0 < at < |s[1..]| && s[1..][at] == '@' && NonSpace(s[1..][at - 1]) && DotPart(s[1..][at + 1..]);
          assert s[1..][at + 1..] == s[at + 2..];
          assert s[at + 1] == '@' && NonSpace(s[at]) && DotPart(s[at + 2..]);
        }
      }
      if EmailPattern(s) {
        var at :| 0 < at < |s| && s[at] == '@' && NonSpace(s[at - 1]) && DotPart(s[at + 1..]);
        if at > 1 {
          assert s[1..][at..] == s[at + 1..];
          assert s[1..][at - 1] == '@' && NonSpace(s[1..][at - 2]) && DotPart(s[1..][at - 1 + 1..]);
        }
      }
    }
  }

  /** Without an '@' no address matches. */
  lemma NoAtNoMatch(s: string)
    requires '@' !in s
    ensures !EmailPattern(s)
  {
  }

  /** Any `a@b.c` with three non-space characters matches, whatever surrounds it. */
  lemma ShortestMatch(pre: string, a: char, b: char, c: char, post: string)
    requires NonSpace(a) && NonSpace(b) && NonSpace(c)
    ensures EmailPattern(pre + [a, '@', b, '.', c] + post)
  {
    var s := pre + [a, '@', b, '.', c] + post;
    var at := |pre| + 1;
    var t := s[at + 1..];
    assert t[..1] == [b] && t[1] == '.' && t[2] == c;
    assert NonSpaceRun(t[..1]);
    assert DotPart(t);
    assert s[at] == '@' && NonSpace(s[at - 1]);
  }

  /** A matching address is never blank, so "invalid" is only reported for a non-blank address. */
  lemma MatchIsNotBlank(s: string)
    requires EmailPattern(s)
    ensures Js.Trim(s) != ""
  {
    var at :| 0 < at < |s| && s[at] == '@';
    assert !(forall k | 0 <= k < |s| :: Js.IsSpace(s[k])) by {
      assert !Js.IsSpace(s[at]);
    }
    Js.TrimEmpty(s);
  }

  /** The errors `validateForm` records; a missing field is no error. */
  datatype FormErrors = FormErrors(name: Option<string>, email: Option<string>, password: Option<string>,
                                   confirmPassword: Option<string>)

  predicate NoErrors(e: FormErrors) {
    e.name.None? && e.email.None? && e.password.None? && e.confirmPassword.None?
  }

  /**
   * The errors `validateForm` records for the four fields: each field is
   * checked on its own, and the e-mail and the password each get at most
   * one error.
   */
  function FieldErrors(name: string, email: string, password: string, confirmPassword: string): FormErrors
  {
    FormErrors(
      if Js.Trim(name) == "" then Some(NameRequired) else None,
      if Js.Trim(email) == "" then Some(EmailRequired) else if !EmailMatches(email) then Some(EmailInvalid) else None,
      if password == "" then Some(PasswordRequired) else if Js.Length(password) < MinPasswordLength then Some(PasswordTooShort) else None,
      if password != confirmPassword then Some(PasswordsDiffer) else None)
  }

  /** The rules `FieldErrors` applies, one field at a time. */
  lemma FieldRules(name: string, email: string, password: string, confirmPassword: string)
    ensures var e := FieldErrors(name, email, password, confirmPassword);
      && (e.name.Some? <==> Js.Trim(name) == "")
      && (e.name.Some? ==> e.name.value == NameRequired)
      && (Js.Trim(email) == "" ==> e.email == Some(EmailRequired))
      && (Js.Trim(email) != "" ==> (e.email.None? <==> EmailPattern(email)))
      && (Js.Trim(email) != "" && e.email.Some? ==> e.email.value == EmailInvalid)
      && (password == "" ==> e.password == Some(PasswordRequired))
      && (password != "" ==> (e.password.None? <==> Js.Length(password) >= MinPasswordLength))
      && (password != "" && e.password.Some? ==> e.password.value == PasswordTooShort)
      && (e.confirmPassword.Some? <==> password != confirmPassword)
      && (e.confirmPassword.Some? ==> e.confirmPassword.value == PasswordsDiffer)
  {
    EmailMatchesPattern(email);
  }

  /** A complete form passes exactly when the name and e-mail are filled in, the e-mail matches, and the password is long enough and repeated. */
  lemma ValidExactly(name: string, email: string, password: string, confirmPassword: string)
    ensures NoErrors(FieldErrors(name, email, password, confirmPassword)) <==>
      Js.Trim(name) != "" && EmailPattern(email) && Js.Length(password) >= MinPasswordLength && password == confirmPassword
  {
    EmailMatchesPattern(email);
    if EmailPattern(email) {
      MatchIsNotBlank(email);
    }
  }

  /** The length rule counts UTF-16 code units: three emoji outside the Basic Multilingual Plane are long enough. */
  lemma ThreeAstralCharactersSuffice(name: string, email: string, password: string)
    requires |password| == 3 && forall k | 0 <= k < 3 :: Js.Astral(password[k])
    ensures FieldErrors(name, email, password, password).password.None?
  {
    Js.LengthAllAstral(password);
  }

  /** The alert shown when registration fails. */
  function RegistrationAlert(e: Thrown): (m: string)
    ensures e.ApiError? && e.status == 409 ==> m == EmailInUseAlert
    ensures e.ApiError? && e.status != 409 && e.message != "" ==> m == e.message
    ensures (e.Unexpected? || (e.status != 409 && e.message == "")) ==> m == RegistrationFailedAlert
  {
    match e
    case ApiError(status, message) =>
      if status == 409 then EmailInUseAlert
      else if message != "" then message
      else RegistrationFailedAlert
    case Unexpected => RegistrationFailedAlert
  }

  /** The three registration fields the screen sends. */
  datatype RegisterRequest = RegisterRequest(name: string, email: string, password: string)

  class RegisterForm {
    var name: string
    var email: string
    var password: string
    var confirmPassword: string
    var loading: bool
    var errors: FormErrors

    constructor()
      ensures name == "" && email == "" && password == "" && confirmPassword == "" && !loading
      ensures NoErrors(errors)
    {
      name := "";
      email := "";
      password := "";
      confirmPassword := "";
      loading := false;
      errors := FormErrors(None, None, None, None);
    }

    /** `validateForm`: the errors are built field by field and stored; the form is valid exactly when there are none. */
    method ValidateForm() returns (valid: bool)
      modifies this
      ensures name == old(name) && email == old(email) && password == old(password)
      ensures confirmPassword == old(confirmPassword) && loading == old(loading)
      ensures errors == FieldErrors(name, email, password, confirmPassword)
      ensures valid <==> NoErrors(errors)
    {
      var newErrors := FormErrors(None, None, None, None);
      if Js.Trim(name) == "" {
        newErrors := newErrors.(name := Some(NameRequired));
      }
      if Js.Trim(email) == "" {
        newErrors := newErrors.(email := Some(EmailRequired));
      } else if !EmailMatches(email) {
        newErrors := newErrors.(email := Some(EmailInvalid));
      }
      if password == "" {
        newErrors := newErrors.(password := Some(PasswordRequired));
      } else if Js.Length(password) < MinPasswordLength {
        newErrors := newErrors.(password := Some(PasswordTooShort));
      }
      if password != confirmPassword {
        newErrors := newErrors.(confirmPassword := Some(PasswordsDiffer));
      }
      errors := newErrors;
      valid := NoErrors(newErrors);
    }

    /**
     * `handleRegister`: an invalid form sends nothing.  A valid one sends
     * the three fields; `response` is the outcome of that call, and success
     * navigates to the main tabs while failure raises an alert.
     */
    method HandleRegister(response: Call<()>) returns (sent: Option<RegisterRequest>, navigated: bool, alert: Option<string>)
      modifies this
      ensures errors == FieldErrors(name, email, password, confirmPassword)
      ensures !NoErrors(errors) ==> sent == None && !navigated && alert == None && loading == old(loading)
      ensures NoErrors(errors) ==> sent == Some(RegisterRequest(name, email, password)) && !loading
      ensures NoErrors(errors) && response.Returned? ==> navigated && alert == None
      ensures NoErrors(errors) && response.Threw? ==> !navigated && alert == Some(RegistrationAlert(response.thrown))
      ensures name == old(name) && email == old(email) && password == old(password)
      ensures confirmPassword == old(confirmPassword)
    {
      navigated := false;
      alert := None;
      var valid := ValidateForm();
      if !valid {
        return None, false, None;
      }
      loading := true;
      sent := Some(RegisterRequest(name, email, password));
      match response {
        case Returned(_) => navigated := true;
        case Threw(e) => alert := Some(RegistrationAlert(e));
      }
      loading := false;
    }
  }
}

/**
 * The registration form's client-side validation, and the field checks the
 * registration endpoint repeats on the server.
 */
module Registration {
  import opened Common
  import opened Text

  // ---------------------------------------------------------------- the e-mail pattern

  /** A character of the class `[^\s@]`. */
  predicate Atom(c: char)
  {
    !IsSpace(c) && c != '@'
  }

  /** `s[from..to]` is a non-empty run of `[^\s@]`. */
  predicate AtomRun(s: string, from: int, to: int)
  {
    0 <= from < to <= |s| && forall k :: from <= k < to ==> Atom(s[k])
  }

  /** `s` is split by an `@` at `at` and a `.` at `dot` into three runs of `[^\s@]+`. */
  predicate SplitsAt(s: string, at: int, dot: int)
  {
    0 <= at < dot < |s| && s[at] == '@' && s[dot] == '.' &&
    AtomRun(s, 0, at) && AtomRun(s, at + 1, dot) && AtomRun(s, dot + 1, |s|)
  }

  /** The whole string matches `^[^\s@]+@[^\s@]+\.[^\s@]+$`. */
  predicate EmailMatches(s: string)
  {
    exists at, dot | 0 <= at < dot < |s| :: SplitsAt(s, at, dot)
  }

  /** The `@` of `s` sits at `at` and nowhere else. */
  predicate OnlyAtSignAt(s: string, at: int)
  {
    0 <= at < |s| && s[at] == '@' && forall k :: 0 <= k < |s| && s[k] == '@' ==> k == at
  }

  /** A `.` at `dot` with a character on each side. */
  predicate InnerDot(s: string, dot: int)
  {
    0 < dot < |s| - 1 && s[dot] == '.'
  }

  /**
   * The shape the pattern describes: no white space, exactly one `@`, something
   * before it, and after it a `.` with at least one character on each side.
   */
  ghost predicate WellFormedEmail(s: string)
  {
    (forall k :: 0 <= k < |s| ==> !IsSpace(s[k])) &&
    exists at :: 0 < at && OnlyAtSignAt(s, at) && exists dot :: at + 1 < dot && InnerDot(s, dot)
  }

  lemma MatchesIsWellFormed(s: string, at: int, dot: int)
    requires SplitsAt(s, at, dot)
    ensures WellFormedEmail(s)
  {
    forall k | 0 <= k < |s| ensures !IsSpace(s[k]) && (s[k] == '@' ==> k == at) {
      if k < at {
        assert Atom(s[k]);
      } else if at < k < dot {
        assert Atom(s[k]);
      } else if dot < k {
        assert Atom(s[k]);
      }
    }
    assert OnlyAtSignAt(s, at);
    assert InnerDot(s, dot);
  }

  lemma WellFormedMatches(s: string, at: int, dot: int)
    requires forall k :: 0 <= k < |s| ==> !IsSpace(s[k])
    requires 0 < at && OnlyAtSignAt(s, at) && at + 1 < dot && InnerDot(s, dot)
    ensures SplitsAt(s, at, dot)
  {
    assert forall k :: 0 <= k < |s| && k != at ==> Atom(s[k]);
  }

  /** The pattern accepts exactly the well-formed addresses. */
  lemma EmailPatternCharacterisation(s: string)
    ensures EmailMatches(s) <==> WellFormedEmail(s)
  {
    if EmailMatches(s) {
      var at, dot :| 0 <= at < dot < |s| && SplitsAt(s, at, dot);
      MatchesIsWellFormed(s, at, dot);
    }
    if WellFormedEmail(s) {
      var at :| 0 < at && OnlyAtSignAt(s, at) && exists dot :: at + 1 < dot && InnerDot(s, dot);
      var dot :| at + 1 < dot && InnerDot(s, dot);
      WellFormedMatches(s, at, dot);
    }
  }

  // ---------------------------------------------------------------- the form

  datatype RegistrationForm = RegistrationForm(name: string, email: string, password: string, confirmPassword: string)

  /** `validateForm`: valid, or the one error message it sets. */
  datatype FormOutcome = Valid | Invalid(message: string)

  const MissingFieldsMsg := "Por favor, completa todos los campos."
  const InvalidEmailMsg := "Por favor, ingresa un email válido."
  const ShortPasswordMsg := "La contraseña debe tener al menos 6 caracteres."
  const MismatchMsg := "Las contraseñas no coinciden."

  /** The shortest password accepted, in UTF-16 code units. */
  const MinPasswordLength := 6

  predicate AnyBlank(f: RegistrationForm)
  {
    Blank(f.name) || Blank(f.email) || Blank(f.password) || Blank(f.confirmPassword)
  }

  /**
   * The checks in order: every field non-blank after trimming, the e-mail
   * pattern, the untrimmed password length, then the confirmation. The first
   * failing check decides the message.
   */
  function ValidateForm(f: RegistrationForm): (r: FormOutcome)
    ensures r == Invalid(MissingFieldsMsg) <==> AnyBlank(f)
    ensures r == Invalid(InvalidEmailMsg) <==> !AnyBlank(f) && !WellFormedEmail(f.email)
    ensures r == Invalid(ShortPasswordMsg) <==>
              !AnyBlank(f) && WellFormedEmail(f.email) && Utf16Length(f.password) < MinPasswordLength
    ensures r == Invalid(MismatchMsg) <==>
              !AnyBlank(f) && WellFormedEmail(f.email) && Utf16Length(f.password) >= MinPasswordLength &&
              f.password != f.confirmPassword
    ensures r == Valid <==>
              !AnyBlank(f) && WellFormedEmail(f.email) && Utf16Length(f.password) >= MinPasswordLength &&
              f.password == f.confirmPassword
  {
    TrimEmptyIffBlank(f.name);
    TrimEmptyIffBlank(f.email);
    TrimEmptyIffBlank(f.password);
    TrimEmptyIffBlank(f.confirmPassword);
    EmailPatternCharacterisation(f.email);
    if Trim(f.name) == [] || Trim(f.email) == [] || Trim(f.password) == [] || Trim(f.confirmPassword) == [] then
      Invalid(MissingFieldsMsg)
    else if !EmailMatches(f.email) then
      Invalid(InvalidEmailMsg)
    else if Utf16Length(f.password) < MinPasswordLength then
      Invalid(ShortPasswordMsg)
    else if f.password != f.confirmPassword then
      Invalid(MismatchMsg)
    else
      Valid
  }

  // ---------------------------------------------------------------- the server's checks

  /** The registration endpoint's field checks on `nombre`, `email` and `contraseña`: `None` when they pass. */
  function ServerRegisterCheck(nombre: string, email: string, password: string): (error: Option<string>)
    ensures error.None? <==>
              nombre != "" && email != "" && password != "" && WellFormedEmail(email) &&
              Utf16Length(password) >= MinPasswordLength
  {
    EmailPatternCharacterisation(email);
    if nombre == "" || email == "" || password == "" then Some("Todos los campos son requeridos")
    else if !EmailMatches(email) then Some("Formato de email inválido")
    else if Utf16Length(password) < MinPasswordLength then Some("La contraseña debe tener al menos 6 caracteres")
    else None
  }

  /** A form the client accepts also passes the server's field checks. */
  lemma ValidFormPassesServerChecks(f: RegistrationForm)
    requires ValidateForm(f) == Valid
    ensures ServerRegisterCheck(f.name, f.email, f.password).None?
  {
  }
}

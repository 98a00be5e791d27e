/**
 * The sign-in and sign-up form (pages/Login.tsx): the ordered registration
 * checks and what each submit shows on failure.
 */
module LoginPage {
  import opened Types
  import opened Text
  import opened StorageService
  import opened AuthContext

  const NameRequired := "Nome é obrigatório."
  const UsernameTooShort := "Usuário deve ter pelo menos 3 caracteres."
  const InvalidEmail := "E-mail inválido."
  const PasswordTooShort := "Senha deve ter 6+ caracteres."
  const InvalidCredentials := "Credenciais inválidas ou usuário bloqueado."
  const RegisterFailed := "Erro ao registrar."

  datatype LoginForm = LoginForm(name: string, username: string, email: string, password: string, role: Role)

  /**
   * `handleRegister`'s checks, in order; the first failing one gives the
   * message. Name and username are measured trimmed, the password as typed,
   * each in UTF-16 code units as JavaScript's `length` counts them.
   */
  function ValidateRegistration(f: LoginForm): (r: Option<string>)
    ensures r.None? <==>
              Utf16Length(Trim(f.name)) >= 2 && Utf16Length(Trim(f.username)) >= 3 &&
              Contains(f.email, "@") && Utf16Length(f.password) >= 6
    ensures r == Some(NameRequired) <==> Utf16Length(Trim(f.name)) < 2
    ensures r == Some(UsernameTooShort) <==> Utf16Length(Trim(f.name)) >= 2 && Utf16Length(Trim(f.username)) < 3
    ensures r == Some(InvalidEmail) <==>
              Utf16Length(Trim(f.name)) >= 2 && Utf16Length(Trim(f.username)) >= 3 && !Contains(f.email, "@")
    ensures r == Some(PasswordTooShort) <==>
              Utf16Length(Trim(f.name)) >= 2 && Utf16Length(Trim(f.username)) >= 3 &&
              Contains(f.email, "@") && Utf16Length(f.password) < 6
  {
    if Utf16Length(Trim(f.name)) < 2 then Some(NameRequired)
    else if Utf16Length(Trim(f.username)) < 3 then Some(UsernameTooShort)
    else if !Contains(f.email, "@") then Some(InvalidEmail)
    else if Utf16Length(f.password) < 6 then Some(PasswordTooShort)
    else None
  }


  /** The fields handed to `register`: name, username, email and role as typed. */
  function RegistrationPatch(f: LoginForm): (r: UserPatch)
    ensures r.name == Some(f.name) && r.username == Some(f.username) && r.email == Some(f.email) && r.role == Some(f.role)
    ensures r.id.None? && r.blocked.None? && r.isOnline.None? && r.avatar.None?
    ensures r.phone.None? && r.address.None? && r.bio.None? && r.pixKey.None? && r.createdAt.None?
  {
    UserPatch(None, Some(f.name), Some(f.username), Some(f.email), Some(f.role),
              None, None, None, None, None, None, None, None)
  }

  /**
   * A user registered from this form carries the typed name, username, email
   * and role, a clock-derived id, is online and not blocked.
   */
  lemma RegisteredFromForm(f: LoginForm, now: nat)
    ensures var u := NewUser(RegistrationPatch(f), now);
            && u.name == f.name && u.username == f.username && u.email == f.email && u.role == f.role
            && u.id == NatToString(now) && !u.IsBlocked() && u.isOnline == Some(true)
            && u.bio == Some("") && u.address == Some("") && u.phone == Some("")
  {
  }

  /** The rejection's message, or the generic failure text when it has none or an empty one. */
  function RegisterErrorMessage(result: RegisterResult): (r: string)
    ensures r != ""
    ensures result.message.Some? && result.message.value != "" ==> r == result.message.value
    ensures result.message.None? || result.message.value == "" ==> r == RegisterFailed
  {
    OrDefault(result.message, RegisterFailed)
  }

  class LoginView {
    var form: LoginForm
    var error: string

    constructor ()
      ensures form == LoginForm("", "", "", "", Buyer) && error == ""
    {
      form := LoginForm("", "", "", "", Buyer);
      error := "";
    }

    method SetForm(f: LoginForm)
      modifies this`form
      ensures form == f
    {
      form := f;
    }

    /** `handleLogin`: the email field is the identifier; a failure shows one message for every cause. */
    method HandleLogin(auth: AuthProvider) returns (ok: bool)
      requires auth.Valid()
      modifies this`error, auth, auth.store`slots
      ensures auth.Valid()
      ensures ok <==> LoginMatch(old(auth.store.GetUsers()), form.email).Some?
      ensures error == (if ok then "" else InvalidCredentials)
      ensures ok ==> var u := Online(LoginMatch(old(auth.store.GetUsers()), form.email).value);
                     auth.user == Some(u) && auth.store.slots == old(auth.store.slots)[SessionKey := SessionSlot(u)]
      ensures !ok ==> auth.user == old(auth.user) && auth.store.slots == old(auth.store.slots)
    {
      error := "";
      var found := LoginMatch(auth.store.GetUsers(), form.email);
      ok := auth.Login(form.email, form.password);
      assert ok <==> found.Some?;
      if !ok {
        error := InvalidCredentials;
      }
    }

    /**
     * `handleRegister`: the first failing check is shown and `register` is
     * not called; once all pass, `register` gets the typed fields and the
     * password.
     */
    method HandleRegister(auth: AuthProvider, now: nat)
      requires auth.Valid()
      modifies this`error, auth, auth.store`slots
      ensures auth.Valid()
      ensures ValidateRegistration(form).Some? ==>
                error == ValidateRegistration(form).value &&
                auth.user == old(auth.user) && auth.store.slots == old(auth.store.slots)
      ensures ValidateRegistration(form).None? && IdentityTaken(old(auth.store.GetUsers()), RegistrationPatch(form)) ==>
                error == DuplicateIdentityMessage &&
                auth.user == old(auth.user) && auth.store.slots == old(auth.store.slots)
      ensures ValidateRegistration(form).None? && !IdentityTaken(old(auth.store.GetUsers()), RegistrationPatch(form)) ==>
                var u := NewUser(RegistrationPatch(form), now);
                && error == ""
                && auth.user == Some(u)
                && auth.store.GetUsers() == old(auth.store.GetUsers()) + [u]
                && auth.store.GetCurrentUser() == Some(u)
                && auth.store.slots == old(auth.store.slots)[UsersKey := UsersSlot(old(auth.store.GetUsers()) + [u])][SessionKey := SessionSlot(u)]
    {
      var check := ValidateRegistration(form);
      if check.Some? {
        error := check.value;
      } else {
        SubmitRegistration(auth, RegistrationPatch(form), form.password, now);
      }
    }

    /** The second half of `handleRegister`: call `register` and show a rejection's message. */
    method SubmitRegistration(auth: AuthProvider, data: UserPatch, password: string, now: nat)
      requires auth.Valid()
      modifies this`error, auth, auth.store`slots
      ensures auth.Valid()
      ensures IdentityTaken(old(auth.store.GetUsers()), data) ==>
                error == DuplicateIdentityMessage &&
                auth.user == old(auth.user) && auth.store.slots == old(auth.store.slots)
      ensures !IdentityTaken(old(auth.store.GetUsers()), data) ==>
                var u := NewUser(data, now);
                && error == ""
                && auth.user == Some(u)
                && auth.store.GetUsers() == old(auth.store.GetUsers()) + [u]
                && auth.store.GetCurrentUser() == Some(u)
                && auth.store.slots == old(auth.store.slots)[UsersKey := UsersSlot(old(auth.store.GetUsers()) + [u])][SessionKey := SessionSlot(u)]
    {
      error := "";
      var result := auth.Register(data, password, now);
      if !result.success {
        error := RegisterErrorMessage(result);
      }
    }
  }
}

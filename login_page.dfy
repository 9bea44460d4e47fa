/** app/login/page.tsx: the login and registration forms. The page state
    is a class whose fields are the React state; each asynchronous handler
    is split at its `await` into the part that runs before the call and
    the part that runs once the call settles. */
module LoginPage {
  import opened Wrappers
  import opened Types
  import opened Api

  const LoginFailed := "로그인에 실패했습니다."
  const RegisterFailed := "회원가입에 실패했습니다."
  const PasswordMismatch := "비밀번호가 일치하지 않습니다."
  const HomeRoute := "/"

  /** The registration form; the login form has exactly the fields of a
      LoginRequest and is sent as it is. */
  datatype RegisterForm = RegisterForm(username: string, name: string, email: string, password: string, passwordConfirm: string)

  datatype LoginField = LoginEmail | LoginPassword

  datatype RegisterField = Username | Name | Email | Password | PasswordConfirm

  function LoginFieldValue(form: LoginRequest, field: LoginField): string {
    match field
    case LoginEmail => form.email
    case LoginPassword => form.password
  }

  function RegisterFieldValue(form: RegisterForm, field: RegisterField): string {
    match field
    case Username => form.username
    case Name => form.name
    case Email => form.email
    case Password => form.password
    case PasswordConfirm => form.passwordConfirm
  }

  /** `{ ...loginForm, [field]: value }`. */
  function WithLoginField(form: LoginRequest, field: LoginField, value: string): (r: LoginRequest)
    ensures LoginFieldValue(r, field) == value
    ensures forall g :: g != field ==> LoginFieldValue(r, g) == LoginFieldValue(form, g)
  {
    match field
    case LoginEmail => form.(email := value)
    case LoginPassword => form.(password := value)
  }

  /** `{ ...registerForm, [field]: value }`. */
  function WithRegisterField(form: RegisterForm, field: RegisterField, value: string): (r: RegisterForm)
    ensures RegisterFieldValue(r, field) == value
    ensures forall g :: g != field ==> RegisterFieldValue(r, g) == RegisterFieldValue(form, g)
  {
    match field
    case Username => form.(username := value)
    case Name => form.(name := value)
    case Email => form.(email := value)
    case Password => form.(password := value)
    case PasswordConfirm => form.(passwordConfirm := value)
  }

  /** A form is determined by its field values, so edits of different
      fields commute. */
  lemma RegisterEditsCommute(form: RegisterForm, f: RegisterField, v: string, g: RegisterField, w: string)
    requires f != g
    ensures WithRegisterField(WithRegisterField(form, f, v), g, w) == WithRegisterField(WithRegisterField(form, g, w), f, v)
  {
    var a := WithRegisterField(WithRegisterField(form, f, v), g, w);
    var b := WithRegisterField(WithRegisterField(form, g, w), f, v);
    assert RegisterFieldValue(a, Username) == RegisterFieldValue(b, Username);
    assert RegisterFieldValue(a, Name) == RegisterFieldValue(b, Name);
    assert RegisterFieldValue(a, Email) == RegisterFieldValue(b, Email);
    assert RegisterFieldValue(a, Password) == RegisterFieldValue(b, Password);
    assert RegisterFieldValue(a, PasswordConfirm) == RegisterFieldValue(b, PasswordConfirm);
  }

  /** The registration request: the form without its confirmation. */
  function RegisterRequestOf(form: RegisterForm): (r: RegisterRequest)
    ensures r.username == RegisterFieldValue(form, Username) && r.name == RegisterFieldValue(form, Name)
    ensures r.email == RegisterFieldValue(form, Email) && r.password == RegisterFieldValue(form, Password)
  {
    RegisterRequest(form.username, form.name, form.email, form.password)
  }

  /** The confirmation field never reaches the request. */
  lemma ConfirmationIsNotSent(form: RegisterForm, confirm: string)
    ensures RegisterRequestOf(WithRegisterField(form, PasswordConfirm, confirm)) == RegisterRequestOf(form)
  {
  }

  class LoginPage {
    var isRegister: bool
    var isLoading: bool
    var error: string
    var loginForm: LoginRequest
    var registerForm: RegisterForm

    /** The page opens on the login form, everything empty. */
    constructor ()
      ensures !isRegister && !isLoading && error == ""
      ensures loginForm == LoginRequest("", "")
      ensures registerForm == RegisterForm("", "", "", "", "")
    {
      isRegister := false;
      isLoading := false;
      error := "";
      loginForm := LoginRequest("", "");
      registerForm := RegisterForm("", "", "", "", "");
    }

    /** `handleLogin` up to the call: clear the error, start loading and
        send the login form. */
    method HandleLogin() returns (request: LoginRequest)
      modifies this`error, this`isLoading
      ensures error == "" && isLoading
      ensures request == loginForm
    {
      error := "";
      isLoading := true;
      request := loginForm;
    }

    /** `handleLogin` once `authApi.login` settles: go home, or show the
        thrown message; loading ends either way. */
    method LoginSettled(outcome: Result<ApiResponse<JwtResponse>, Thrown>) returns (navigateTo: Option<string>)
      modifies this`error, this`isLoading
      ensures !isLoading
      ensures outcome.Success? ==> navigateTo == Some(HomeRoute) && error == old(error)
      ensures outcome.Failure? ==> navigateTo.None? && error == CaughtMessage(outcome.error, LoginFailed)
    {
      if outcome.Success? {
        navigateTo := Some(HomeRoute);
      } else {
        navigateTo := None;
        error := CaughtMessage(outcome.error, LoginFailed);
      }
      isLoading := false;
    }

    /** `handleRegister` up to the call: the error is cleared; differing
        passwords stop with their message and no call, without touching
        the loading flag; otherwise loading starts and the request carries
        the form without its confirmation. */
    method HandleRegister() returns (request: Option<RegisterRequest>)
      modifies this`error, this`isLoading
      ensures registerForm.password != registerForm.passwordConfirm ==>
                request.None? && error == PasswordMismatch && isLoading == old(isLoading)
      ensures registerForm.password == registerForm.passwordConfirm ==>
                request == Some(RegisterRequestOf(registerForm)) && error == "" && isLoading
    {
      error := "";
      if registerForm.password != registerForm.passwordConfirm {
        error := PasswordMismatch;
        return None;
      }
      isLoading := true;
      request := Some(RegisterRequestOf(registerForm));
    }

    /** `handleRegister` once `authApi.register` settles. */
    method RegisterSettled(outcome: Result<ApiResponse<JwtResponse>, Thrown>) returns (navigateTo: Option<string>)
      modifies this`error, this`isLoading
      ensures !isLoading
      ensures outcome.Success? ==> navigateTo == Some(HomeRoute) && error == old(error)
      ensures outcome.Failure? ==> navigateTo.None? && error == CaughtMessage(outcome.error, RegisterFailed)
    {
      if outcome.Success? {
        navigateTo := Some(HomeRoute);
      } else {
        navigateTo := None;
        error := CaughtMessage(outcome.error, RegisterFailed);
      }
      isLoading := false;
    }

    /** The link under the form: switch between login and registration,
        clear the error and keep what was typed in both forms. */
    method ToggleMode()
      modifies this`isRegister, this`error
      ensures isRegister == !old(isRegister) && error == ""
    {
      isRegister := !isRegister;
      error := "";
    }

    /** An `onChange` of the login form. */
    method EditLogin(field: LoginField, value: string)
      modifies this`loginForm
      ensures loginForm == WithLoginField(old(loginForm), field, value)
    {
      loginForm := WithLoginField(loginForm, field, value);
    }

    /** An `onChange` of the registration form. */
    method EditRegister(field: RegisterField, value: string)
      modifies this`registerForm
      ensures registerForm == WithRegisterField(old(registerForm), field, value)
    {
      registerForm := WithRegisterField(registerForm, field, value);
    }
  }
}

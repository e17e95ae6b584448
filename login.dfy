/**
 * `useLogin.js`: the login hook. Both credentials must be given; a successful login
 * stores the session token, fetches the user's information and returns both.
 */
module Login {
  import opened Wrappers
  import opened Api

  const MissingCredentialsMessage := "Por favor, ingrese tanto el usuario como la contraseña"
  const InvalidCredentialsMessage := "Credenciales inválidas"
  const LoginFailedMessage := "Error en el inicio de sesión"

  /** The user-information payload; only its identity matters here. */
  datatype UserInfo = UserInfo(username: string, role: string)

  /** What a successful `handleLogin` resolves to: `{ token, userInfo }`. */
  datatype LoginResult = LoginResult(token: string, userInfo: Option<UserInfo>)

  /**
   * `fetchUserInfo(token)`: the parsed body of an ok answer; a non-ok answer or a
   * rejected request is logged and gives `undefined`.
   */
  function FetchUserInfo(response: Response<UserInfo>): (r: Option<UserInfo>)
    ensures r.Some? <==> response.Ok?
    ensures r.Some? ==> r.value == response.payload
  {
    if response.Ok? then Some(response.payload) else None
  }

  /**
   * The hook's state hooks, and `storage`, the value of the `token` key of
   * `localStorage` (None when the key is absent).
   */
  class LoginHook {
    var username: string
    var password: string
    var error: string
    var isLoading: bool
    var userInfo: Option<UserInfo>
    var storage: Option<string>

    constructor (storage: Option<string>)
      ensures username == "" && password == "" && error == "" && !isLoading && userInfo == None
      ensures this.storage == storage
    {
      username, password, error, isLoading, userInfo := "", "", "", false, None;
      this.storage := storage;
    }

    method SetUsername(value: string)
      modifies this`username
      ensures username == value
    {
      username := value;
    }

    method SetPassword(value: string)
      modifies this`password
      ensures password == value
    {
      password := value;
    }

    /** The start of an attempt with both credentials: loading on, error cleared. */
    method BeginAttempt()
      modifies this`isLoading, this`error
      ensures isLoading && error == ""
    {
      isLoading := true;
      error := "";
    }

    /**
     * The rest of an attempt. An ok login stores its token, sets the user information
     * to what `fetchUserInfo` gave and resolves to both; a non-ok login or a rejected
     * request sets its error and resolves to nothing. Loading ends in every case.
     */
    method FinishAttempt(loginResponse: Response<string>, infoResponse: Response<UserInfo>)
      returns (r: Option<LoginResult>)
      modifies this`isLoading, this`error, this`userInfo, this`storage
      ensures !isLoading
      ensures r.Some? <==> loginResponse.Ok?
      ensures loginResponse.Ok? ==>
        r == Some(LoginResult(loginResponse.payload, FetchUserInfo(infoResponse))) &&
        storage == Some(loginResponse.payload) && userInfo == FetchUserInfo(infoResponse) &&
        error == old(error)
      ensures loginResponse.NonOk? ==>
        error == InvalidCredentialsMessage && storage == old(storage) && userInfo == old(userInfo)
      ensures loginResponse.Threw? ==>
        error == LoginFailedMessage && storage == old(storage) && userInfo == old(userInfo)
    {
      match loginResponse {
        case Ok(token) =>
          storage := Some(token);
          var info := FetchUserInfo(infoResponse);
          userInfo := info;
          r := Some(LoginResult(token, info));
        case NonOk(_, _) =>
          error := InvalidCredentialsMessage;
          r := None;
        case Threw(_) =>
          error := LoginFailedMessage;
          r := None;
      }
      isLoading := false;
    }

    /**
     * `handleLogin`. Without both credentials it only sets the guard message: no
     * request, and loading, storage and user information are untouched.
     */
    method HandleLogin(loginResponse: Response<string>, infoResponse: Response<UserInfo>)
      returns (r: Option<LoginResult>)
      modifies this`isLoading, this`error, this`userInfo, this`storage
      ensures (username == "" || password == "") ==>
        r == None && error == MissingCredentialsMessage && isLoading == old(isLoading) &&
        storage == old(storage) && userInfo == old(userInfo)
      ensures username != "" && password != "" ==>
        !isLoading && (r.Some? <==> loginResponse.Ok?)
      ensures username != "" && password != "" && loginResponse.Ok? ==>
        r == Some(LoginResult(loginResponse.payload, FetchUserInfo(infoResponse))) &&
        storage == Some(loginResponse.payload) && userInfo == FetchUserInfo(infoResponse) && error == ""
      ensures username != "" && password != "" && loginResponse.NonOk? ==>
        error == InvalidCredentialsMessage && storage == old(storage) && userInfo == old(userInfo)
      ensures username != "" && password != "" && loginResponse.Threw? ==>
        error == LoginFailedMessage && storage == old(storage) && userInfo == old(userInfo)
    {
      if username != "" && password != "" {
        BeginAttempt();
        r := FinishAttempt(loginResponse, infoResponse);
      } else {
        error := MissingCredentialsMessage;
        r := None;
      }
    }
  }

  /** A login with an empty password never reaches the network and stores nothing. */
  method LoginWithoutPassword(username: string, loginResponse: Response<string>, infoResponse: Response<UserInfo>)
    returns (r: Option<LoginResult>, error: string, stored: Option<string>)
    ensures r == None && error == MissingCredentialsMessage && stored == None
  {
    var hook := new LoginHook(None);
    hook.SetUsername(username);
    r := hook.HandleLogin(loginResponse, infoResponse);
    error, stored := hook.error, hook.storage;
  }

  /**
   * A login whose user-information request fails still succeeds, with no user
   * information, no error and the token stored.
   */
  method LoginWithoutUserInfo(username: string, password: string, token: string, infoResponse: Response<UserInfo>)
    returns (r: Option<LoginResult>, error: string, stored: Option<string>)
    requires username != "" && password != "" && !infoResponse.Ok?
    ensures r == Some(LoginResult(token, None)) && error == "" && stored == Some(token)
  {
    var hook := new LoginHook(None);
    hook.SetUsername(username);
    hook.SetPassword(password);
    r := hook.HandleLogin(Ok(token), infoResponse);
    error, stored := hook.error, hook.storage;
  }

  /** Rejected credentials leave an earlier session's token in storage. */
  method RejectedLogin(username: string, password: string, previous: string, status: nat, message: string)
    returns (error: string, stored: Option<string>, loading: bool)
    requires username != "" && password != ""
    ensures error == InvalidCredentialsMessage && stored == Some(previous) && !loading
  {
    var hook := new LoginHook(Some(previous));
    hook.SetUsername(username);
    hook.SetPassword(password);
    var r := hook.HandleLogin(NonOk(status, message), Threw("unused"));
    error, stored, loading := hook.error, hook.storage, hook.isLoading;
  }
}

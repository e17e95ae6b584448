/**
 * `useUserManagement.js` and `UserManagementSection.js`: the administrator's user
 * list, the create-user form and the confirmed delete. Each action clears the two
 * banners, shows loading while it waits and ends with a banner saying how it went.
 */
module UserManagement {
  import opened Wrappers
  import opened Api

  datatype User = User(id: string, username: string, role: string)

  const FetchFailedMessage := "Error al obtener la lista de usuarios"
  const FetchConnectionMessage := "Error de conexión al obtener usuarios"
  const CreatedMessage := "Usuario creado exitosamente"
  const CreateFailedMessage := "Error al crear el usuario"
  const CreateConnectionMessage := "Error de conexión"
  const DeletedMessage := "Usuario eliminado exitosamente"
  const DeleteFailedMessage := "Error al eliminar el usuario"
  const DeleteConnectionMessage := "Error de conexión al intentar eliminar el usuario"

  /** `data.message || fallback`: the server's message unless it is empty or absent. */
  function ServerMessage(message: string, fallback: string): (m: string)
    ensures message != "" ==> m == message
    ensures message == "" ==> m == fallback
  {
    if message != "" then message else fallback
  }

  /** The state hooks of `useUserManagement(token)`. */
  class UserManagementHook {
    var token: string
    var username: string
    var password: string
    var role: string
    var error: string
    var success: string
    var isLoading: bool
    var users: seq<User>

    constructor (token: string)
      ensures this.token == token
      ensures username == "" && password == "" && role == "" && error == "" && success == ""
      ensures !isLoading && users == []
    {
      this.token := token;
      username, password, role, error, success := "", "", "", "", "";
      isLoading := false;
      users := [];
    }

    method SetUsername(value: string)
      modifies this`username
      ensures username == value
    {
      username := value;
    }

    method SetPassword(value: string)
      modifies this`password
      ensures password == value
    {
      password := value;
    }

    method SetRole(value: string)
      modifies this`role
      ensures role == value
    {
      role := value;
    }

    /**
     * `fetchUsers`: an ok answer replaces the list; otherwise the list is kept and
     * the error banner says whether the server refused or the request failed.
     */
    method FetchUsers(response: Response<seq<User>>)
      modifies this`users, this`error
      ensures response.Ok? ==> users == response.payload && error == old(error)
      ensures response.NonOk? ==> users == old(users) && error == FetchFailedMessage
      ensures response.Threw? ==> users == old(users) && error == FetchConnectionMessage
    {
      match response {
        case Ok(list) => users := list;
        case NonOk(_, _) => error := FetchFailedMessage;
        case Threw(_) => error := FetchConnectionMessage;
      }
    }

    /** The effect keyed on `token`: it runs on mount and whenever the token changes. */
    method ChangeToken(newToken: string, response: Response<seq<User>>)
      modifies this`token, this`users, this`error
      ensures token == newToken
      ensures newToken == old(token) ==> users == old(users) && error == old(error)
      ensures newToken != old(token) && response.Ok? ==> users == response.payload && error == old(error)
      ensures newToken != old(token) && response.NonOk? ==> users == old(users) && error == FetchFailedMessage
      ensures newToken != old(token) && response.Threw? ==> users == old(users) && error == FetchConnectionMessage
    {
      if newToken != token {
        token := newToken;
        FetchUsers(response);
      }
    }

    /**
     * `handleCreateUser`. On an ok answer the success banner shows, the three fields
     * are cleared and the list is refreshed from `refresh`; otherwise the fields keep
     * what was typed and the error banner shows the server's message, its default,
     * or the connection message. Loading ends in every case.
     */
    method HandleCreateUser(response: Response<()>, refresh: Response<seq<User>>)
      modifies this`username, this`password, this`role, this`error, this`success, this`isLoading, this`users
      ensures !isLoading
      ensures response.Ok? ==>
        success == CreatedMessage && username == "" && password == "" && role == "" &&
        (refresh.Ok? ==> users == refresh.payload && error == "") &&
        (refresh.NonOk? ==> users == old(users) && error == FetchFailedMessage) &&
        (refresh.Threw? ==> users == old(users) && error == FetchConnectionMessage)
      ensures !response.Ok? ==>
        success == "" && users == old(users) &&
        username == old(username) && password == old(password) && role == old(role)
      ensures response.NonOk? ==> error == ServerMessage(response.message, CreateFailedMessage)
      ensures response.Threw? ==> error == CreateConnectionMessage
    {
      error, success, isLoading := "", "", true;
      match response {
        case Ok(_) =>
          success := CreatedMessage;
          username, password, role := "", "", "";
          isLoading := false;
          FetchUsers(refresh);
        case NonOk(_, message) =>
          error := ServerMessage(message, CreateFailedMessage);
          isLoading := false;
        case Threw(_) =>
          error := CreateConnectionMessage;
          isLoading := false;
      }
    }

    /**
     * `deleteUser(userId)`: true exactly when the answer is ok, in which case the
     * success banner shows and the list is refreshed from `refresh`; otherwise the
     * error banner shows why. Loading ends in every case.
     */
    method DeleteUser(userId: string, response: Response<()>, refresh: Response<seq<User>>)
      returns (deleted: bool)
      modifies this`error, this`success, this`isLoading, this`users
      ensures deleted <==> response.Ok?
      ensures !isLoading
      ensures response.Ok? ==>
        success == DeletedMessage &&
        (refresh.Ok? ==> users == refresh.payload && error == "") &&
        (refresh.NonOk? ==> users == old(users) && error == FetchFailedMessage) &&
        (refresh.Threw? ==> users == old(users) && error == FetchConnectionMessage)
      ensures !response.Ok? ==> success == "" && users == old(users)
      ensures response.NonOk? ==> error == ServerMessage(response.message, DeleteFailedMessage)
      ensures response.Threw? ==> error == DeleteConnectionMessage
    {
      error, success, isLoading := "", "", true;
      match response {
        case Ok(_) =>
          success := DeletedMessage;
          isLoading := false;
          FetchUsers(refresh);
          deleted := true;
        case NonOk(_, message) =>
          error := ServerMessage(message, DeleteFailedMessage);
          isLoading := false;
          deleted := false;
        case Threw(_) =>
          error := DeleteConnectionMessage;
          isLoading := false;
          deleted := false;
      }
    }
  }

  // ----- the section -----

  datatype BadgeColor = Purple | Blue

  /** The role badge: purple for administrators, blue for every other role. */
  function RoleBadge(role: string): (c: BadgeColor)
    ensures c == Purple <==> role == "Administrador"
  {
    if role == "Administrador" then Purple else Blue
  }

  datatype UserEntry = UserEntry(username: string, role: string, badge: BadgeColor)

  /** The user list, or the "no users" message when the list is empty. */
  datatype UserListView = NoUsers | UserList(entries: seq<UserEntry>)

  function RenderUsers(users: seq<User>): (v: UserListView)
    ensures v.NoUsers? <==> users == []
    ensures v.UserList? ==> |v.entries| == |users|
    ensures v.UserList? ==>
      forall k :: 0 <= k < |users| ==>
        v.entries[k] == UserEntry(users[k].username, users[k].role, RoleBadge(users[k].role))
  {
    if |users| > 0 then
      UserList(seq(|users|, k requires 0 <= k < |users| => UserEntry(users[k].username, users[k].role, RoleBadge(users[k].role))))
    else NoUsers
  }

  /** `UserManagementSection`: the hook, plus the pending delete and its modal. */
  class UserManagementSection {
    const hook: UserManagementHook
    var isDeleteModalOpen: bool
    var userToDelete: Option<User>

    constructor (token: string)
      ensures fresh(hook) && hook.token == token && hook.users == [] && hook.error == "" && hook.success == ""
      ensures !hook.isLoading && !isDeleteModalOpen && userToDelete == None
    {
      hook := new UserManagementHook(token);
      isDeleteModalOpen := false;
      userToDelete := None;
    }

    /** `handleDeleteClick(user)`: the user becomes pending and the modal opens. */
    method DeleteClick(user: User)
      modifies this`userToDelete, this`isDeleteModalOpen
      ensures userToDelete == Some(user) && isDeleteModalOpen
    {
      userToDelete := Some(user);
      isDeleteModalOpen := true;
    }

    /** The modal's close action: it closes, and the user stays pending. */
    method CancelDelete()
      modifies this`isDeleteModalOpen
      ensures !isDeleteModalOpen
    {
      isDeleteModalOpen := false;
    }

    /**
     * `handleConfirmDelete`: `deleteUser` runs only for a pending user, and gives
     * its result; either way the modal closes and nothing is pending any more.
     */
    method ConfirmDelete(response: Response<()>, refresh: Response<seq<User>>)
      returns (deleted: Option<bool>)
      modifies this`userToDelete, this`isDeleteModalOpen, hook`error, hook`success, hook`isLoading, hook`users
      ensures !isDeleteModalOpen && userToDelete == None
      ensures old(userToDelete).None? ==>
        deleted == None && hook.error == old(hook.error) && hook.success == old(hook.success) &&
        hook.isLoading == old(hook.isLoading) && hook.users == old(hook.users)
      ensures old(userToDelete).Some? ==> deleted == Some(response.Ok?) && !hook.isLoading
      ensures old(userToDelete).Some? && response.Ok? ==> hook.success == DeletedMessage
      ensures old(userToDelete).Some? && response.Ok? ==>
        (refresh.Ok? ==> hook.users == refresh.payload && hook.error == "") &&
        (refresh.NonOk? ==> hook.users == old(hook.users) && hook.error == FetchFailedMessage) &&
        (refresh.Threw? ==> hook.users == old(hook.users) && hook.error == FetchConnectionMessage)
      ensures old(userToDelete).Some? && !response.Ok? ==> hook.success == "" && hook.users == old(hook.users)
      ensures old(userToDelete).Some? && response.NonOk? ==>
        hook.error == ServerMessage(response.message, DeleteFailedMessage)
      ensures old(userToDelete).Some? && response.Threw? ==> hook.error == DeleteConnectionMessage
    {
      match userToDelete {
        case None =>
          deleted := None;
        case Some(user) =>
          var ok := hook.DeleteUser(user.id, response, refresh);
          deleted := Some(ok);
      }
      isDeleteModalOpen := false;
      userToDelete := None;
    }

    function UserListing(): UserListView
      reads this, hook
    {
      RenderUsers(hook.users)
    }
  }

  /**
   * Creating a user that the server accepts clears the form and shows the refreshed
   * list with the success banner.
   */
  method CreateAccepted(token: string, username: string, password: string, role: string, listed: seq<User>)
    returns (fields: (string, string, string), success: string, error: string, users: seq<User>)
    ensures fields == ("", "", "") && success == CreatedMessage && error == "" && users == listed
  {
    var hook := new UserManagementHook(token);
    hook.SetUsername(username);
    hook.SetPassword(password);
    hook.SetRole(role);
    hook.HandleCreateUser(Ok(()), Ok(listed));
    fields, success, error, users := (hook.username, hook.password, hook.role), hook.success, hook.error, hook.users;
  }

  /** A refused creation keeps what was typed and shows the server's reason, or the default. */
  method CreateRefused(token: string, username: string, password: string, role: string, status: nat, message: string)
    returns (fields: (string, string, string), success: string, error: string, loading: bool)
    ensures fields == (username, password, role) && success == "" && !loading
    ensures error == if message != "" then message else CreateFailedMessage
  {
    var hook := new UserManagementHook(token);
    hook.SetUsername(username);
    hook.SetPassword(password);
    hook.SetRole(role);
    hook.HandleCreateUser(NonOk(status, message), Threw("unused"));
    fields, success, error, loading := (hook.username, hook.password, hook.role), hook.success, hook.error, hook.isLoading;
  }

  /**
   * Confirming with nobody pending deletes nothing; confirming a click deletes that
   * user, and in both cases the modal ends closed with nothing pending.
   */
  method ConfirmFlow(token: string, user: User, response: Response<()>, refresh: Response<seq<User>>)
    returns (first: Option<bool>, second: Option<bool>, open: bool, pending: Option<User>)
    ensures first == None
    ensures second == Some(response.Ok?)
    ensures !open && pending == None
  {
    var section := new UserManagementSection(token);
    first := section.ConfirmDelete(response, refresh);
    section.DeleteClick(user);
    second := section.ConfirmDelete(response, refresh);
    open, pending := section.isDeleteModalOpen, section.userToDelete;
  }

  /** Cancelling keeps the user pending, so a later confirm still deletes that user. */
  method CancelThenConfirm(token: string, user: User, refresh: Response<seq<User>>)
    returns (pendingAfterCancel: Option<User>, deleted: Option<bool>)
    ensures pendingAfterCancel == Some(user) && deleted == Some(true)
  {
    var section := new UserManagementSection(token);
    section.DeleteClick(user);
    section.CancelDelete();
    pendingAfterCancel := section.userToDelete;
    deleted := section.ConfirmDelete(Ok(()), refresh);
  }
}

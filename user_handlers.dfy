/**
 * The user handlers: wp.newUser and wp.editUser, which validate a request and
 * then make one write, and wp.getUser and wp.getUsers, which answer with
 * `prepare_user` structs.
 */
module UserHandlers {
  import opened Wrappers
  import opened Php
  import opened World
  import opened Calls
  import opened Projection

  /** `array_key_exists($v, $wp_roles->get_names())`. */
  predicate RoleKnown(site: Site, v: Value) {
    ArrayKey(v).Some? && ArrayKey(v).value in site.roles
  }

  /** The answer to a user write: the ID, the WP_Error's message, or `failed` for a falsy ID. */
  function UserWritten(reply: WriteReply, failed: string): (r: Response)
    ensures r.Ok? <==> reply.Written? && reply.id != 0
    ensures r.Ok? ==> r.value == VInt(reply.id)
    ensures reply.WriteError? ==> r == Fail(Fault(500, reply.message))
  {
    match reply
    case WriteError(message) => Fail(Fault(500, message))
    case Written(id) => if id == 0 then Fail(Fault(500, failed)) else Ok(VInt(id))
  }

  // ---------------------------------------------------------------------------
  // wp.newUser

  const NewUserFailed := "Sorry, the new user failed."

  /** `$user_data['user_login']`: the username through `sanitize_user` and `trim`, or '' when unset. */
  function NewLogin(site: Site, cs: Struct): string {
    if IsSet(cs, "username") then Trim(site.sanitizeUser(Str(Get(cs, "username")))) else ""
  }

  /** The capability and the login: non-empty and not yet registered. */
  function NewLoginStep(site: Site, actor: Actor, cs: Struct): Checked<Struct> {
    var login := NewLogin(site, cs);
    if !Can(actor, "create_users") then Refused(401, "You are not allowed to create users.")
    else if login == "" || login == "0" then Refused(403, "Cannot create a user with an empty login name.")
    else if UsernameExists(site, login) then Refused(403, "This username is already registered.")
    else Success(map["user_login" := VStr(login)])
  }

  /** The password, which must not be empty. */
  function PasswordStep(cs: Struct, data: Struct): Checked<Struct> {
    if IsEmpty(cs, "password") then Refused(403, "Password cannot be empty.")
    else Success(data["user_pass" := Get(cs, "password")])
  }

  /** The email, which must be valid and not yet registered. */
  function NewEmailStep(site: Site, cs: Struct, data: Struct): Checked<Struct> {
    var email := Get(cs, "email");
    if !site.isEmail(Str(email)) then Refused(403, "This email address is not valid")
    else if EmailExists(site, Str(email)) then Refused(403, "This email address is already registered")
    else Success(data["user_email" := email])
  }

  /** The role: the site's default role, or a registered role the request names. */
  function RoleStep(site: Site, cs: Struct, data: Struct): Checked<Struct> {
    if !IsSet(cs, "role") then Success(data["role" := VStr(site.defaultRole)])
    else if !RoleKnown(site, Get(cs, "role")) then Refused(403, "The role specified is not valid")
    else Success(data["role" := Get(cs, "role")])
  }

  /** The name and the URL, '' where the request has none. */
  function NameFields(cs: Struct, data: Struct): Struct {
    data["first_name" := if IsSet(cs, "first_name") then Get(cs, "first_name") else VStr("")]
        ["last_name" := if IsSet(cs, "last_name") then Get(cs, "last_name") else VStr("")]
        ["user_url" := if IsSet(cs, "url") then Get(cs, "url") else VStr("")]
  }

  /** The `$user_data` wp.newUser hands to `wp_insert_user`, or the first guard's error. */
  function NewUserData(site: Site, actor: Actor, cs: Struct): Checked<Struct> {
    var d1 :- NewLoginStep(site, actor, cs);
    var d2 :- PasswordStep(cs, d1);
    var d3 :- NewEmailStep(site, cs, d2);
    var d4 :- RoleStep(site, cs, d3);
    Success(NameFields(cs, d4))
  }

  /** wp.newUser's whole effect: nothing on a refusal, else one insert and its answer. */
  function NewUserOutcome(site: Site, actor: Actor, cs: Struct, replies: Replies): Outcome {
    match NewUserData(site, actor, cs)
    case Failure(r) => Outcome(r, [])
    case Success(data) => Outcome(UserWritten(replies.insertUser, NewUserFailed), [InsertUser(data)])
  }

  method CheckNewLogin(site: Site, actor: Actor, cs: Struct) returns (r: Checked<Struct>)
    ensures r == NewLoginStep(site, actor, cs)
  {
    if !Can(actor, "create_users") {
      return Refused(401, "You are not allowed to create users.");
    }
    var data: Struct := map[];
    var login := "";
    if IsSet(cs, "username") {
      login := site.sanitizeUser(Str(Get(cs, "username")));
      login := Trim(login);
    }
    data := data["user_login" := VStr(login)];
    if login == "" || login == "0" {
      return Refused(403, "Cannot create a user with an empty login name.");
    }
    if UsernameExists(site, login) {
      return Refused(403, "This username is already registered.");
    }
    return Success(data);
  }

  method CheckPassword(cs: Struct, data: Struct) returns (r: Checked<Struct>)
    ensures r == PasswordStep(cs, data)
  {
    if IsEmpty(cs, "password") {
      return Refused(403, "Password cannot be empty.");
    }
    return Success(data["user_pass" := Get(cs, "password")]);
  }

  method CheckNewEmail(site: Site, cs: Struct, data: Struct) returns (r: Checked<Struct>)
    ensures r == NewEmailStep(site, cs, data)
  {
    if !site.isEmail(Str(Get(cs, "email"))) {
      return Refused(403, "This email address is not valid");
    }
    if EmailExists(site, Str(Get(cs, "email"))) {
      return Refused(403, "This email address is already registered");
    }
    return Success(data["user_email" := Get(cs, "email")]);
  }

  method CheckRole(site: Site, cs: Struct, data: Struct) returns (r: Checked<Struct>)
    ensures r == RoleStep(site, cs, data)
  {
    var out := data["role" := VStr(site.defaultRole)];
    if IsSet(cs, "role") {
      if !RoleKnown(site, Get(cs, "role")) {
        return Refused(403, "The role specified is not valid");
      }
      out := out["role" := Get(cs, "role")];
      assert out == data["role" := Get(cs, "role")];
    }
    return Success(out);
  }

  /** The guards of wp.newUser, growing `$user_data` as the handler does. */
  method BuildNewUser(site: Site, actor: Actor, cs: Struct) returns (r: Checked<Struct>)
    ensures r == NewUserData(site, actor, cs)
  {
    var data :- CheckNewLogin(site, actor, cs);
    data :- CheckPassword(cs, data);
    data :- CheckNewEmail(site, cs, data);
    data :- CheckRole(site, cs, data);
    data := data["first_name" := if IsSet(cs, "first_name") then Get(cs, "first_name") else VStr("")];
    data := data["last_name" := if IsSet(cs, "last_name") then Get(cs, "last_name") else VStr("")];
    data := data["user_url" := if IsSet(cs, "url") then Get(cs, "url") else VStr("")];
    return Success(data);
  }

  /** wp.newUser. */
  method NewUser(store: Store, site: Site, actor: Actor, cs: Struct) returns (response: Response)
    modifies store
    ensures response == NewUserOutcome(site, actor, cs, store.replies).response
    ensures store.log == old(store.log) + NewUserOutcome(site, actor, cs, store.replies).calls
  {
    var built := BuildNewUser(site, actor, cs);
    if built.Failure? {
      return built.error;
    }
    store.Record(InsertUser(built.value));
    response := UserWritten(store.replies.insertUser, NewUserFailed);
  }

  // ---------------------------------------------------------------------------
  // wp.editUser

  const EditUserFailed := "Sorry, the user cannot be updated. Something wrong happened."
  const ContactInvalid := "One of the contact method specified is not valid"

  /** The entries `foreach` walks in `$content_struct['user_contacts']`; a non-struct gives none. */
  function ContactsArg(v: Value): map<string, Value> {
    if v.VStruct? then v.members else map[]
  }

  /** Every contact key of the request is a registered contact method. */
  predicate ContactsRegistered(site: Site, contacts: map<string, Value>) {
    forall k :: k in contacts ==> k in site.contactMethods
  }

  /** The user to edit: it must exist, and be the actor unless the actor holds edit_users. */
  function EditTarget(site: Site, actor: Actor, userArg: Value): Checked<User> {
    var id := IntVal(userArg);
    if id !in site.users then Refused(404, "Invalid user ID.")
    else if !(id == actor.id || Can(actor, "edit_users")) then Refused(401, "Sorry, you cannot edit this user.")
    else Success(site.users[id])
  }

  /**
   * The login may only be repeated, never changed; a new email must be valid and
   * registered to nobody, while the user's own email passes. Both comparisons
   * with the stored user are strict.
   */
  function IdentityStep(site: Site, info: User, cs: Struct, data: Struct): Checked<Struct> {
    var email := Get(cs, "email");
    if IsSet(cs, "username") && Get(cs, "username") != VStr(info.login) then
      Refused(401, "Username cannot be changed.")
    else if !IsSet(cs, "email") then Success(data)
    else if !site.isEmail(Str(email)) then Refused(403, "This email address is not valid.")
    else if email != VStr(info.email) && EmailExists(site, Str(email)) then
      Refused(403, "This email address is already registered.")
    else Success(data["user_email" := email])
  }

  /** A role change needs edit_users and a registered role. */
  function RoleChangeStep(site: Site, actor: Actor, cs: Struct, data: Struct): Checked<Struct> {
    if !IsSet(cs, "role") then Success(data)
    else if !Can(actor, "edit_users") then Refused(401, "You are not allowed to change roles for this user")
    else if !RoleKnown(site, Get(cs, "role")) then Refused(403, "The role specified is not valid")
    else Success(data["role" := Get(cs, "role")])
  }

  /**
   * The profile fields, each copied only when its key is set. As written, a set
   * 'website' copies the request's 'url' and a set 'usernicename' copies its
   * 'nicename'.
   */
  function ProfileFields(cs: Struct, data: Struct): Struct {
    var d1 := CopyIf(data, cs, "first_name", "first_name", "first_name");
    var d2 := CopyIf(d1, cs, "last_name", "last_name", "last_name");
    var d3 := CopyIf(d2, cs, "website", "user_url", "url");
    var d4 := CopyIf(d3, cs, "nickname", "nickname", "nickname");
    var d5 := CopyIf(d4, cs, "usernicename", "user_nicename", "nicename");
    CopyIf(d5, cs, "bio", "description", "bio")
  }

  /** Every contact entry is copied over the data, once all its keys are registered. */
  function ContactsStep(site: Site, cs: Struct, data: Struct): Checked<Struct> {
    var contacts := ContactsArg(Get(cs, "user_contacts"));
    if !IsSet(cs, "user_contacts") then Success(data)
    else if !ContactsRegistered(site, contacts) then Refused(401, ContactInvalid)
    else Success(data + contacts)
  }

  /** The `$user_data` wp.editUser hands to `wp_update_user`, or the first guard's error. */
  function EditUserData(site: Site, actor: Actor, userArg: Value, cs: Struct): Checked<Struct> {
    var info :- EditTarget(site, actor, userArg);
    var d1 :- IdentityStep(site, info, cs, map["ID" := VInt(IntVal(userArg))]);
    var d2 :- RoleChangeStep(site, actor, cs, d1);
    var d3 :- ContactsStep(site, cs, ProfileFields(cs, d2));
    Success(CopyIf(d3, cs, "password", "user_pass", "password"))
  }

  /** wp.editUser's whole effect: nothing on a refusal, else one update and its answer. */
  function EditUserOutcome(site: Site, actor: Actor, userArg: Value, cs: Struct, replies: Replies): Outcome {
    match EditUserData(site, actor, userArg, cs)
    case Failure(r) => Outcome(r, [])
    case Success(data) => Outcome(UserWritten(replies.updateUser, EditUserFailed), [UpdateUser(data)])
  }

  method CheckEditTarget(site: Site, actor: Actor, userArg: Value) returns (r: Checked<User>)
    ensures r == EditTarget(site, actor, userArg)
  {
    var id := IntVal(userArg);
    if id !in site.users {
      return Refused(404, "Invalid user ID.");
    }
    if !(id == actor.id || Can(actor, "edit_users")) {
      return Refused(401, "Sorry, you cannot edit this user.");
    }
    return Success(site.users[id]);
  }

  method CheckIdentity(site: Site, info: User, cs: Struct, data: Struct) returns (r: Checked<Struct>)
    ensures r == IdentityStep(site, info, cs, data)
  {
    if IsSet(cs, "username") && Get(cs, "username") != VStr(info.login) {
      return Refused(401, "Username cannot be changed.");
    }
    var out := data;
    if IsSet(cs, "email") {
      if !site.isEmail(Str(Get(cs, "email"))) {
        return Refused(403, "This email address is not valid.");
      }
      if Get(cs, "email") != VStr(info.email) && EmailExists(site, Str(Get(cs, "email"))) {
        return Refused(403, "This email address is already registered.");
      }
      out := out["user_email" := Get(cs, "email")];
    }
    return Success(out);
  }

  method CheckRoleChange(site: Site, actor: Actor, cs: Struct, data: Struct) returns (r: Checked<Struct>)
    ensures r == RoleChangeStep(site, actor, cs, data)
  {
    var out := data;
    if IsSet(cs, "role") {
      if !Can(actor, "edit_users") {
        return Refused(401, "You are not allowed to change roles for this user");
      }
      if !RoleKnown(site, Get(cs, "role")) {
        return Refused(403, "The role specified is not valid");
      }
      out := out["role" := Get(cs, "role")];
    }
    return Success(out);
  }

  /** The contact loop: copies every entry, and stops at the first unregistered key. */
  method CopyContacts(site: Site, data: Struct, contacts: map<string, Value>) returns (r: Checked<Struct>)
    ensures ContactsRegistered(site, contacts) ==> r == Success(data + contacts)
    ensures !ContactsRegistered(site, contacts) ==> r == Refused(401, ContactInvalid)
  {
    var copied := data;
    var rest := contacts.Keys;
    while rest != {}
      invariant rest <= contacts.Keys
      invariant forall k :: k in contacts && k !in rest ==> k in site.contactMethods
      invariant copied == data + map k | k in contacts && k !in rest :: contacts[k]
      decreases rest
    {
      var k :| k in rest;
      if k !in site.contactMethods {
        return Refused(401, ContactInvalid);
      }
      copied := copied[k := contacts[k]];
      rest := rest - {k};
    }
    assert (map k | k in contacts && k !in rest :: contacts[k]) == contacts;
    return Success(copied);
  }

  method CheckContacts(site: Site, cs: Struct, data: Struct) returns (r: Checked<Struct>)
    ensures r == ContactsStep(site, cs, data)
  {
    if !IsSet(cs, "user_contacts") {
      return Success(data);
    }
    r := CopyContacts(site, data, ContactsArg(Get(cs, "user_contacts")));
  }

  /** The guards of wp.editUser, growing `$user_data` as the handler does. */
  method BuildEditUser(site: Site, actor: Actor, userArg: Value, cs: Struct) returns (r: Checked<Struct>)
    ensures r == EditUserData(site, actor, userArg, cs)
  {
    var info :- CheckEditTarget(site, actor, userArg);
    var data: Struct := map["ID" := VInt(IntVal(userArg))];
    data :- CheckIdentity(site, info, cs, data);
    data :- CheckRoleChange(site, actor, cs, data);
    data := CopyIf(data, cs, "first_name", "first_name", "first_name");
    data := CopyIf(data, cs, "last_name", "last_name", "last_name");
    data := CopyIf(data, cs, "website", "user_url", "url");
    data := CopyIf(data, cs, "nickname", "nickname", "nickname");
    data := CopyIf(data, cs, "usernicename", "user_nicename", "nicename");
    data := CopyIf(data, cs, "bio", "description", "bio");
    data :- CheckContacts(site, cs, data);
    data := CopyIf(data, cs, "password", "user_pass", "password");
    return Success(data);
  }

  /** wp.editUser. */
  method EditUser(store: Store, site: Site, actor: Actor, userArg: Value, cs: Struct) returns (response: Response)
    modifies store
    ensures response == EditUserOutcome(site, actor, userArg, cs, store.replies).response
    ensures store.log == old(store.log) + EditUserOutcome(site, actor, userArg, cs, store.replies).calls
  {
    var built := BuildEditUser(site, actor, userArg, cs);
    if built.Failure? {
      return built.error;
    }
    store.Record(UpdateUser(built.value));
    response := UserWritten(store.replies.updateUser, EditUserFailed);
  }

  // ---------------------------------------------------------------------------
  // wp.getUser and wp.getUsers

  /** wp.getUser: the user must exist, and be the actor unless the actor holds edit_users. */
  function GetUserOutcome(site: Site, actor: Actor, userArg: Value): Response {
    var id := IntVal(userArg);
    if id !in site.users then Fail(Fault(404, "Invalid user ID"))
    else if !(id == actor.id || Can(actor, "edit_users")) then Fail(Fault(401, "Sorry, you cannot edit users."))
    else Ok(UserStruct(UserReplyOf(site.users[id], site.contactMethods)))
  }

  method GetUser(site: Site, actor: Actor, userArg: Value) returns (response: Response)
    ensures response == GetUserOutcome(site, actor, userArg)
  {
    var id := IntVal(userArg);
    if id !in site.users {
      return Fail(Fault(404, "Invalid user ID"));
    }
    if !(id == actor.id || Can(actor, "edit_users")) {
      return Fail(Fault(401, "Sorry, you cannot edit users."));
    }
    var reply := PrepareUser(site.users[id], site.contactMethods);
    return Ok(UserStruct(reply));
  }

  /** The `get_users` query wp.getUsers builds from its filter. */
  function UsersQueryOf(filter: Struct): UsersQuery {
    UsersQuery(
      if IsSet(filter, "number") then AbsInt(Get(filter, "number")) else 50,
      if IsSet(filter, "offset") then AbsInt(Get(filter, "offset")) else 0,
      if IsSet(filter, "role") then Some(Get(filter, "role")) else None)
  }

  /** The `prepare_user` struct of each listed user, in listing order. */
  function PreparedUsers(users: seq<User>, contactMethods: seq<string>): (r: seq<Value>)
    ensures |r| == |users|
    ensures forall i :: 0 <= i < |users| ==> r[i] == UserStruct(UserReplyOf(users[i], contactMethods))
  {
    if users == [] then []
    else PreparedUsers(users[..|users| - 1], contactMethods) + [UserStruct(UserReplyOf(users[|users| - 1], contactMethods))]
  }

  /** wp.getUsers' whole effect: the actor needs edit_users, and a role filter must name a role. */
  function GetUsersOutcome(site: Site, actor: Actor, filter: Struct, replies: Replies): Outcome {
    if !Can(actor, "edit_users") then Outcome(Fail(Fault(401, "Sorry, you cannot edit users.")), [])
    else if IsSet(filter, "role") && !RoleKnown(site, Get(filter, "role")) then
      Outcome(Fail(Fault(403, "The role specified is not valid")), [])
    else
      Outcome(Ok(VList(PreparedUsers(replies.userListing, site.contactMethods))), [GetUsers(UsersQueryOf(filter))])
  }

  /** wp.getUsers. */
  method ListUsers(store: Store, site: Site, actor: Actor, filter: Struct) returns (response: Response)
    modifies store
    ensures response == GetUsersOutcome(site, actor, filter, store.replies).response
    ensures store.log == old(store.log) + GetUsersOutcome(site, actor, filter, store.replies).calls
  {
    if !Can(actor, "edit_users") {
      return Fail(Fault(401, "Sorry, you cannot edit users."));
    }
    var number: nat := if IsSet(filter, "number") then AbsInt(Get(filter, "number")) else 50;
    var offset: nat := if IsSet(filter, "offset") then AbsInt(Get(filter, "offset")) else 0;
    var role: Option<Value> := None;
    if IsSet(filter, "role") {
      if !RoleKnown(site, Get(filter, "role")) {
        return Fail(Fault(403, "The role specified is not valid"));
      }
      role := Some(Get(filter, "role"));
    }
    store.Record(GetUsers(UsersQuery(number, offset, role)));
    var out := PrepareAll(store.replies.userListing, site.contactMethods);
    return Ok(VList(out));
  }

  /** The loop of wp.getUsers: `prepare_user` of each listed user. */
  method PrepareAll(users: seq<User>, contactMethods: seq<string>) returns (out: seq<Value>)
    ensures out == PreparedUsers(users, contactMethods)
  {
    out := [];
    for i := 0 to |users|
      invariant out == PreparedUsers(users[..i], contactMethods)
    {
      var reply := PrepareUser(users[i], contactMethods);
      out := out + [UserStruct(reply)];
      assert users[..i + 1][..i] == users[..i];
    }
    assert users[..|users|] == users;
  }

  // ---------------------------------------------------------------------------
  // Properties

  /** wp.newUser accepts exactly the requests that pass every guard. */
  lemma NewUserAccepts(site: Site, actor: Actor, cs: Struct)
    ensures NewUserData(site, actor, cs).Success? <==>
      Can(actor, "create_users") &&
      NewLogin(site, cs) != "" && NewLogin(site, cs) != "0" && !UsernameExists(site, NewLogin(site, cs)) &&
      !IsEmpty(cs, "password") &&
      site.isEmail(Str(Get(cs, "email"))) && !EmailExists(site, Str(Get(cs, "email"))) &&
      (IsSet(cs, "role") ==> RoleKnown(site, Get(cs, "role")))
  {
  }

  /**
   * The record an accepted wp.newUser request inserts, written flat: the new
   * login, the password and the email as given, the named role or the site's
   * default role, and the names and URL, '' where the request has none.
   */
  function NewUserFields(site: Site, cs: Struct): Struct {
    map[
      "user_login" := VStr(NewLogin(site, cs)),
      "user_pass" := Get(cs, "password"),
      "user_email" := Get(cs, "email"),
      "role" := if IsSet(cs, "role") then Get(cs, "role") else VStr(site.defaultRole),
      "first_name" := if IsSet(cs, "first_name") then Get(cs, "first_name") else VStr(""),
      "last_name" := if IsSet(cs, "last_name") then Get(cs, "last_name") else VStr(""),
      "user_url" := if IsSet(cs, "url") then Get(cs, "url") else VStr("")]
  }

  /** The guard chain of wp.newUser, once it passes, builds exactly the flat record. */
  lemma NewUserShape(site: Site, actor: Actor, cs: Struct)
    requires NewUserData(site, actor, cs).Success?
    ensures NewUserData(site, actor, cs).value == NewUserFields(site, cs)
  {
    var d1 := NewLoginStep(site, actor, cs).value;
    var d2 := PasswordStep(cs, d1).value;
    var d3 := NewEmailStep(site, cs, d2).value;
    assert RoleStep(site, cs, d3).value ==
      d3["role" := if IsSet(cs, "role") then Get(cs, "role") else VStr(site.defaultRole)];
  }

  /** wp.editUser accepts exactly the requests that pass every guard. */
  lemma EditUserAccepts(site: Site, actor: Actor, userArg: Value, cs: Struct)
    ensures EditUserData(site, actor, userArg, cs).Success? <==>
      var id := IntVal(userArg);
      id in site.users && (id == actor.id || Can(actor, "edit_users")) &&
      (IsSet(cs, "username") ==> Get(cs, "username") == VStr(site.users[id].login)) &&
      (IsSet(cs, "email") ==>
        site.isEmail(Str(Get(cs, "email"))) &&
        (Get(cs, "email") == VStr(site.users[id].email) || !EmailExists(site, Str(Get(cs, "email"))))) &&
      (IsSet(cs, "role") ==> Can(actor, "edit_users") && RoleKnown(site, Get(cs, "role"))) &&
      (IsSet(cs, "user_contacts") ==> ContactsRegistered(site, ContactsArg(Get(cs, "user_contacts"))))
  {
  }

  /**
   * wp.editUser sends only what the request gives: every key of the update is
   * the ID, a contact entry, or the key copied from a key the request sets.
   */
  lemma EditUserSendsOnlyGiven(site: Site, actor: Actor, userArg: Value, cs: Struct, data: Struct)
    requires EditUserData(site, actor, userArg, cs) == Success(data)
    ensures forall k :: k in data ==>
      k == "ID" || (IsSet(cs, "user_contacts") && k in ContactsArg(Get(cs, "user_contacts"))) ||
      (k == "user_email" && IsSet(cs, "email")) || (k == "role" && IsSet(cs, "role")) ||
      (k == "first_name" && IsSet(cs, "first_name")) || (k == "last_name" && IsSet(cs, "last_name")) ||
      (k == "user_url" && IsSet(cs, "website")) || (k == "nickname" && IsSet(cs, "nickname")) ||
      (k == "user_nicename" && IsSet(cs, "usernicename")) || (k == "description" && IsSet(cs, "bio")) ||
      (k == "user_pass" && IsSet(cs, "password"))
  {
    var info := EditTarget(site, actor, userArg).value;
    var d1 := IdentityStep(site, info, cs, map["ID" := VInt(IntVal(userArg))]).value;
    var d2 := RoleChangeStep(site, actor, cs, d1).value;
    var d3 := ContactsStep(site, cs, ProfileFields(cs, d2)).value;
    assert data == CopyIf(d3, cs, "password", "user_pass", "password");
  }

  /**
   * As written, a set 'website' sends the request's 'url' as the URL, and a set
   * 'usernicename' sends the request's 'nicename' (absent from a request that
   * uses the documented key, so null).
   */
  lemma EditUserMisreadsKeys(site: Site, actor: Actor, userArg: Value, cs: Struct, data: Struct)
    requires EditUserData(site, actor, userArg, cs) == Success(data)
    requires !IsSet(cs, "user_contacts")
    ensures IsSet(cs, "website") ==> data["user_url"] == Get(cs, "url")
    ensures IsSet(cs, "usernicename") ==> data["user_nicename"] == Get(cs, "nicename")
  {
    var info := EditTarget(site, actor, userArg).value;
    var d1 := IdentityStep(site, info, cs, map["ID" := VInt(IntVal(userArg))]).value;
    var d2 := RoleChangeStep(site, actor, cs, d1).value;
    assert data == CopyIf(ProfileFields(cs, d2), cs, "password", "user_pass", "password");
  }

  /** wp.newUser inserts once, only after every guard passed, and answers with a non-zero ID or an error. */
  lemma NewUserWritesOnce(site: Site, actor: Actor, cs: Struct, replies: Replies)
    ensures var o := NewUserOutcome(site, actor, cs, replies);
      (o.calls == [] && NewUserData(site, actor, cs).Failure? && !o.response.Ok?) ||
      (NewUserData(site, actor, cs).Success? && o.calls == [InsertUser(NewUserData(site, actor, cs).value)])
    ensures var o := NewUserOutcome(site, actor, cs, replies);
      o.response.Ok? ==> replies.insertUser.Written? && replies.insertUser.id != 0 && o.response.value == VInt(replies.insertUser.id)
  {
  }

  /** wp.editUser updates once, only after every guard passed, and answers with a non-zero ID or an error. */
  lemma EditUserWritesOnce(site: Site, actor: Actor, userArg: Value, cs: Struct, replies: Replies)
    ensures var o := EditUserOutcome(site, actor, userArg, cs, replies);
      (o.calls == [] && EditUserData(site, actor, userArg, cs).Failure? && !o.response.Ok?) ||
      (EditUserData(site, actor, userArg, cs).Success? && o.calls == [UpdateUser(EditUserData(site, actor, userArg, cs).value)])
    ensures var o := EditUserOutcome(site, actor, userArg, cs, replies);
      o.response.Ok? ==> replies.updateUser.Written? && replies.updateUser.id != 0 && o.response.value == VInt(replies.updateUser.id)
  {
  }

  /**
   * wp.getUsers queries only for an actor holding edit_users, with at most one
   * registered role, 50 users from offset 0 unless the filter says otherwise,
   * and answers with one `prepare_user` struct per listed user, in order.
   */
  lemma GetUsersQuery(site: Site, actor: Actor, filter: Struct, replies: Replies)
    ensures var o := GetUsersOutcome(site, actor, filter, replies);
      o.calls == [] || (Can(actor, "edit_users") && o.calls == [GetUsers(UsersQueryOf(filter))])
    ensures var o := GetUsersOutcome(site, actor, filter, replies);
      !o.response.Ok? <==> o.calls == []
    ensures var q := UsersQueryOf(filter);
      (q.number == if IsSet(filter, "number") then AbsInt(Get(filter, "number")) else 50) &&
      (q.offset == if IsSet(filter, "offset") then AbsInt(Get(filter, "offset")) else 0) &&
      (q.role.Some? <==> IsSet(filter, "role"))
    ensures var o := GetUsersOutcome(site, actor, filter, replies);
      o.calls != [] ==> UsersQueryOf(filter).role.Some? ==> RoleKnown(site, UsersQueryOf(filter).role.value)
    ensures var o := GetUsersOutcome(site, actor, filter, replies);
      o.response.Ok? ==>
        o.response.value.VList? && |o.response.value.items| == |replies.userListing| &&
        forall i :: 0 <= i < |replies.userListing| ==>
          o.response.value.items[i] == UserStruct(UserReplyOf(replies.userListing[i], site.contactMethods))
  {
  }

  /**
   * wp.getUser answers an existing user to that user or to an actor holding
   * edit_users, with its `prepare_user` struct; a missing user is a 404 and a
   * refused actor a 401.
   */
  lemma GetUserRule(site: Site, actor: Actor, userArg: Value)
    ensures var id := IntVal(userArg);
      GetUserOutcome(site, actor, userArg).Ok? <==> id in site.users && (id == actor.id || Can(actor, "edit_users"))
    ensures IntVal(userArg) !in site.users ==> GetUserOutcome(site, actor, userArg) == Fail(Fault(404, "Invalid user ID"))
    ensures GetUserOutcome(site, actor, userArg).Ok? ==>
      GetUserOutcome(site, actor, userArg).value == UserStruct(UserReplyOf(site.users[IntVal(userArg)], site.contactMethods))
  {
  }

  /**
   * A user wp.getUsers lists is answered exactly as wp.getUser answers for its
   * ID, when the listing's row is the stored user.
   */
  lemma GetUsersAgreesWithGetUser(site: Site, actor: Actor, filter: Struct, replies: Replies, i: int)
    requires GetUsersOutcome(site, actor, filter, replies).response.Ok?
    requires 0 <= i < |replies.userListing|
    requires var u := replies.userListing[i]; u.id in site.users && site.users[u.id] == u
    ensures GetUserOutcome(site, actor, VInt(replies.userListing[i].id)) ==
      Ok(GetUsersOutcome(site, actor, filter, replies).response.value.items[i])
  {
    GetUsersQuery(site, actor, filter, replies);
  }
}

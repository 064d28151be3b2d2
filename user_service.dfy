/** UserService.java: a user's own profile and password. Each operation
    looks the user up and insists that the stored email is the
    authenticated one; failures change nothing (@Transactional). */
module UserService {
  import opened Wrappers
  import opened Text
  import opened Errors
  import opened Users
  import opened Store
  import opened UserRepository

  /** UserController.UpdateProfileRequest: every field may be null. */
  datatype ProfileUpdate = ProfileUpdate(
    email: Option<string>,
    name: Option<string>,
    phone: Option<string>,
    address: Option<string>,
    age: Option<int>,
    aboutClient: Option<string>)

  /** The lookup and identity check the three operations share, with
      `denial` the message of the identity check. */
  function OwnProfile(users: map<UserId, User>, userId: UserId, authenticatedEmail: string, denial: string)
    : (r: Result<User, Exception>)
    ensures r.Ok? <==> userId in users && users[userId].email == authenticatedEmail
    ensures r.Ok? ==> r.value == users[userId]
    ensures userId !in users ==> r == Err(Runtime("User not found"))
    ensures userId in users && r.Err? ==> r == Err(Runtime(denial))
  {
    if userId !in users then Err(Runtime("User not found"))
    else if users[userId].email != authenticatedEmail then Err(Runtime(denial))
    else Ok(users[userId])
  }

  /** getUserById. */
  function GetUserById(users: map<UserId, User>, userId: UserId, authenticatedEmail: string): (r: Result<User, Exception>)
    ensures r.Ok? <==> userId in users && users[userId].email == authenticatedEmail
    ensures r.Ok? ==> r.value == users[userId]
    ensures userId !in users ==> r == Err(Runtime("User not found"))
    ensures userId in users && r.Err? ==> r == Err(Runtime("Unauthorized: You can only view your own profile"))
  {
    OwnProfile(users, userId, authenticatedEmail, "Unauthorized: You can only view your own profile")
  }

  /** The profile after an update: each non-null field overwrites its
      counterpart. */
  function ApplyProfile(u: User, request: ProfileUpdate): User
  {
    u.(email := if request.email.Some? then request.email.value else u.email,
       name := if request.name.Some? then request.name.value else u.name,
       phone := if request.phone.Some? then request.phone else u.phone,
       address := if request.address.Some? then request.address else u.address,
       age := if request.age.Some? then request.age else u.age,
       aboutClient := if request.aboutClient.Some? then request.aboutClient else u.aboutClient)
  }

  /** An update never touches id, role or password hash, and a null field
      keeps the stored value; an all-null update changes nothing. */
  lemma ApplyProfileKeeps(u: User, request: ProfileUpdate)
    ensures var v := ApplyProfile(u, request);
      && v.id == u.id && v.role == u.role && v.passwordHash == u.passwordHash
      && (request.email.None? ==> v.email == u.email) && (request.name.None? ==> v.name == u.name)
      && (request.phone.None? ==> v.phone == u.phone) && (request.address.None? ==> v.address == u.address)
      && (request.age.None? ==> v.age == u.age) && (request.aboutClient.None? ==> v.aboutClient == u.aboutClient)
      && (request.name.Some? ==> v.name == request.name.value)
    ensures ApplyProfile(u, ProfileUpdate(None, None, None, None, None, None)) == u
  {
  }

  /** Replacing a user's row by one with the same id and an email no other
      user holds keeps the users table well formed. */
  lemma ReplaceUserKeepsEmailsUnique(users: map<UserId, User>, id: UserId, v: User)
    requires UsersWellFormed(users) && id in users && v.id == id
    requires forall other :: other in users && other != id ==> users[other].email != v.email
    ensures UsersWellFormed(users[id := v])
  {
  }

  /** updateUserProfile: a new email must not be taken by anyone; the same
      email, or none, skips that check. */
  method UpdateUserProfile(db: Database, userId: UserId, authenticatedEmail: string, request: ProfileUpdate)
    returns (r: Result<User, Exception>)
    requires db.Valid()
    modifies db
    ensures db.Valid()
    ensures db.cases == old(db.cases) && db.documents == old(db.documents) && db.notifications == old(db.notifications)
    ensures var own := OwnProfile(old(db.users), userId, authenticatedEmail, "Unauthorized: You can only update your own profile");
      && (own.Err? ==> r == own && db.users == old(db.users))
      && ((own.Ok? && request.email.Some? && request.email.value != own.value.email
           && ExistsByEmail(old(db.users), request.email.value))
          ==> r == Err(Runtime("Email is already taken")) && db.users == old(db.users))
      && (r.Ok? <==> own.Ok? && (request.email.None? || request.email.value == own.value.email
                                  || !ExistsByEmail(old(db.users), request.email.value)))
      && (r.Ok? ==> r.value == ApplyProfile(own.value, request) && db.users == old(db.users)[userId := r.value])
  {
    var found := OwnProfile(db.users, userId, authenticatedEmail, "Unauthorized: You can only update your own profile");
    if found.Err? {
      return found;
    }
    if request.email.Some? && request.email.value != found.value.email && ExistsByEmail(db.users, request.email.value) {
      return Err(Runtime("Email is already taken"));
    }
    var user := ApplyProfile(found.value, request);
    ReplaceUserKeepsEmailsUnique(db.users, userId, user);
    db.users := db.users[userId := user];
    r := Ok(user);
  }

  /** The minimum length of a new password. */
  const MinPasswordLength: nat := 6

  /** Why changePassword refuses, in the order it checks: the lookup and
      identity, the current password (which the encoder refuses to compare
      when it is null), then the new password's length in UTF-16 units. */
  function PasswordChangeFailure(users: map<UserId, User>, userId: UserId, authenticatedEmail: string,
                                 currentPassword: Option<string>, newPassword: Option<string>, encoder: PasswordEncoder)
    : (r: Option<Exception>)
    ensures r.None? <==>
      && userId in users && users[userId].email == authenticatedEmail
      && currentPassword.Some? && encoder.matches(currentPassword.value, users[userId].passwordHash)
      && newPassword.Some? && Utf16Length(newPassword.value) >= MinPasswordLength
    ensures (userId in users && users[userId].email == authenticatedEmail && currentPassword.None?)
            ==> r == Some(IllegalArgument(RawPasswordIsNull))
    ensures (userId in users && users[userId].email == authenticatedEmail && currentPassword.Some?
             && !encoder.matches(currentPassword.value, users[userId].passwordHash))
            ==> r == Some(Runtime("Current password is incorrect"))
  {
    match OwnProfile(users, userId, authenticatedEmail, "Unauthorized: You can only change your own password")
    case Err(e) => Some(e)
    case Ok(user) =>
      if currentPassword.None? then Some(IllegalArgument(RawPasswordIsNull))
      else if !encoder.matches(currentPassword.value, user.passwordHash) then Some(Runtime("Current password is incorrect"))
      else if newPassword.None? || Utf16Length(newPassword.value) < MinPasswordLength then
        Some(Runtime("New password must be at least 6 characters long"))
      else None
  }

  /** changePassword: on success the stored hash becomes the encoding of the
      new password and nothing else about the user changes. */
  method ChangePassword(db: Database, userId: UserId, authenticatedEmail: string,
                        currentPassword: Option<string>, newPassword: Option<string>, encoder: PasswordEncoder)
    returns (r: Outcome<Exception>)
    requires db.Valid()
    modifies db
    ensures db.Valid()
    ensures db.cases == old(db.cases) && db.documents == old(db.documents) && db.notifications == old(db.notifications)
    ensures var failure := PasswordChangeFailure(old(db.users), userId, authenticatedEmail, currentPassword, newPassword, encoder);
      && (r.Fail? <==> failure.Some?)
      && (r.Fail? ==> r.error == failure.value && db.users == old(db.users))
    ensures r.Pass? ==>
      db.users == old(db.users)[userId := old(db.users)[userId].(passwordHash := encoder.encode(newPassword.value))]
  {
    var found := OwnProfile(db.users, userId, authenticatedEmail, "Unauthorized: You can only change your own password");
    if found.Err? {
      return Fail(found.error);
    }
    var user := found.value;
    if currentPassword.None? {
      return Fail(IllegalArgument(RawPasswordIsNull));
    }
    if !encoder.matches(currentPassword.value, user.passwordHash) {
      return Fail(Runtime("Current password is incorrect"));
    }
    if newPassword.None? || Utf16Length(newPassword.value) < MinPasswordLength {
      return Fail(Runtime("New password must be at least 6 characters long"));
    }
    user := user.(passwordHash := encoder.encode(newPassword.value));
    ReplaceUserKeepsEmailsUnique(db.users, userId, user);
    db.users := db.users[userId := user];
    r := Pass;
  }
}

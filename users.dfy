/** The user entity (User.java): an account with a role, a unique email and
    optional profile fields. */
module Users {
  import opened Wrappers

  /** Primary keys (UUIDs in the database) are modelled as naturals. */
  type UserId = nat

  datatype Role = LAWYER | CLIENT

  datatype User = User(
    id: UserId,
    email: string,
    passwordHash: string,
    name: string,
    role: Role,
    phone: Option<string>,
    address: Option<string>,
    age: Option<int>,
    aboutClient: Option<string>)

  function RoleName(r: Role): string
  {
    match r
    case LAWYER => "LAWYER"
    case CLIENT => "CLIENT"
  }

  /** Role.valueOf: the constant with exactly this name, if any. */
  function RoleValueOf(name: string): Option<Role>
  {
    if name == "LAWYER" then Some(LAWYER)
    else if name == "CLIENT" then Some(CLIENT)
    else None
  }

  /** The hashing of the configured BCryptPasswordEncoder is outside the
      model: encode and matches are whatever functions it computes on
      non-null passwords. Its refusal of a null raw password is modelled
      where matches is called. */
  datatype PasswordEncoder = PasswordEncoder(encode: string -> string, matches: (string, string) -> bool)

  /** The message of BCryptPasswordEncoder.matches for a null raw password. */
  const RawPasswordIsNull: string := "rawPassword cannot be null"
}

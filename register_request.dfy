/** RegisterRequest.java: the sign-up body, its Bean Validation constraints
    and the role it asks for. */
module RegisterRequest {
  import opened Wrappers
  import opened Text
  import opened Errors
  import opened Users
  import opened Json

  /** The deserialized body. Jackson starts from `new RegisterRequest()`, so
      `role` is "CLIENT" unless the body names it. */
  datatype RegisterRequest = RegisterRequest(
    email: Option<string>,
    password: Option<string>,
    name: Option<string>,
    phone: Option<string>,
    role: Option<string>)

  /** The request Jackson builds from the members of a JSON body. */
  function ReadRegisterRequest(email: Field<string>, password: Field<string>, name: Field<string>,
                               phone: Field<string>, role: Field<string>): (r: RegisterRequest)
    ensures role.Absent? ==> r.role == Some("CLIENT")
    ensures role.Null? ==> r.role.None?
    ensures email.Absent? ==> r.email.None?
  {
    RegisterRequest(JsonField(email, None), JsonField(password, None), JsonField(name, None),
                    JsonField(phone, None), JsonField(role, Some("CLIENT")))
  }

  /** The JVM's text for getRoleEnum on a null role. */
  const RoleIsNull: string := "Cannot invoke \"String.toUpperCase()\" because \"this.role\" is null"

  /** getRoleEnum: the role named, ignoring case; CLIENT for any name that is
      not a role; a null role is not caught. */
  function GetRoleEnum(role: Option<string>): (r: Result<Role, Exception>)
    ensures role.None? <==> r.Err?
    ensures role.None? ==> r == Err(Runtime(RoleIsNull))
    ensures role.Some? ==> (r == Ok(LAWYER) <==> ToLower(role.value) == "lawyer")
    ensures role.Some? && ToLower(role.value) != "lawyer" ==> r == Ok(CLIENT)
  {
    if role.None? then Err(Runtime(RoleIsNull))
    else
      UpperEqualIffLowerEqual(role.value, "LAWYER");
      assert ToUpper("LAWYER") == "LAWYER" && ToLower("LAWYER") == "lawyer";
      match RoleValueOf(ToUpper(role.value))
      case Some(named) => Ok(named)
      case None => Ok(CLIENT)
  }

  /** Role names differing only in case give the same role, and a body
      without "role" registers a client. */
  lemma GetRoleEnumSpec(a: string, b: string)
    requires ToLower(a) == ToLower(b)
    ensures GetRoleEnum(Some(a)) == GetRoleEnum(Some(b))
    ensures GetRoleEnum(ReadRegisterRequest(Absent, Absent, Absent, Absent, Absent).role) == Ok(CLIENT)
    ensures GetRoleEnum(Some("Lawyer")) == Ok(LAWYER) && GetRoleEnum(Some("judge")) == Ok(CLIENT)
  {
    assert ToLower("CLIENT") == "client";
    assert ToLower("Lawyer") == "lawyer";
    assert ToLower("judge") != "lawyer";
  }

  /** @NotBlank: not null and not empty after trimming. */
  predicate NotBlank(s: Option<string>)
  {
    s.Some? && Trim(s.value) != ""
  }

  /** The constraints of the body's fields. */
  datatype Constraint = EmailRequired | EmailValid | PasswordRequired | PasswordSize | NameRequired

  /** The field error a broken constraint reports. */
  function ConstraintError(c: Constraint): FieldError
  {
    match c
    case EmailRequired => FieldError("email", "Email is required")
    case EmailValid => FieldError("email", "Email should be valid")
    case PasswordRequired => FieldError("password", "Password is required")
    case PasswordSize => FieldError("password", "Password must be at least 6 characters")
    case NameRequired => FieldError("name", "Name is required")
  }

  /** The constraints the body breaks. @Email and @Size accept a null value,
      and @Email an empty one; `wellFormedEmail` is the address grammar of
      the @Email validator. */
  function Violations(request: RegisterRequest, wellFormedEmail: string -> bool): (r: set<Constraint>)
    ensures EmailRequired in r <==> !NotBlank(request.email)
    ensures EmailValid in r <==> request.email.Some? && request.email.value != "" && !wellFormedEmail(request.email.value)
    ensures PasswordRequired in r <==> !NotBlank(request.password)
    ensures PasswordSize in r <==> request.password.Some? && Utf16Length(request.password.value) < 6
    ensures NameRequired in r <==> !NotBlank(request.name)
  {
    set c: Constraint | Breaks(request, wellFormedEmail, c)
  }

  /** Whether the body breaks constraint c. */
  predicate Breaks(request: RegisterRequest, wellFormedEmail: string -> bool, c: Constraint)
  {
    match c
    case EmailRequired => !NotBlank(request.email)
    case EmailValid => request.email.Some? && request.email.value != "" && !wellFormedEmail(request.email.value)
    case PasswordRequired => !NotBlank(request.password)
    case PasswordSize => request.password.Some? && Utf16Length(request.password.value) < 6
    case NameRequired => !NotBlank(request.name)
  }

  /** A body without violations has a non-blank, well-formed email, a
      password of at least six UTF-16 units (at least three characters) with
      a non-blank character, and a non-blank name; phone and role are not
      constrained. */
  lemma ValidRequest(request: RegisterRequest, wellFormedEmail: string -> bool)
    requires Violations(request, wellFormedEmail) == {}
    ensures request.email.Some? && wellFormedEmail(request.email.value)
    ensures request.password.Some? && Utf16Length(request.password.value) >= 6 && |request.password.value| >= 3
    ensures Trim(request.password.value) != ""
    ensures request.name.Some? && Trim(request.name.value) != ""
    ensures Violations(request.(phone := None, role := None), wellFormedEmail) == {}
  {
    assert EmailRequired !in Violations(request, wellFormedEmail);
    assert Trim([]) == [];
    assert EmailValid !in Violations(request, wellFormedEmail);
    assert PasswordSize !in Violations(request, wellFormedEmail);
    assert NameRequired !in Violations(request, wellFormedEmail);
  }
}

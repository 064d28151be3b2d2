/** The queries of UserRepository.java as functions of the users table. */
module UserRepository {
  import opened Wrappers
  import opened Text
  import opened Users
  import opened Store

  /** existsByEmail. */
  predicate ExistsByEmail(users: map<UserId, User>, email: string)
  {
    exists id :: id in users && users[id].email == email
  }

  /** findByEmail: the one user with this email (emails are unique). */
  ghost function FindByEmail(users: map<UserId, User>, email: string): (r: Option<User>)
    requires UsersWellFormed(users)
    ensures r.Some? ==> r.value.id in users && users[r.value.id] == r.value && r.value.email == email
    ensures r.None? ==> forall id :: id in users ==> users[id].email != email
  {
    if ExistsByEmail(users, email) then
      var id :| id in users && users[id].email == email;
      Some(users[id])
    else None
  }

  /** existsByEmail holds exactly when findByEmail finds someone, and what
      it finds is the only user with that email. */
  lemma ExistsIffFound(users: map<UserId, User>, email: string)
    requires UsersWellFormed(users)
    ensures ExistsByEmail(users, email) <==> FindByEmail(users, email).Some?
    ensures FindByEmail(users, email).Some? ==>
      forall id :: id in users && users[id].email == email ==> users[id] == FindByEmail(users, email).value
  {
  }

  /** findAllByRole. */
  function AllByRole(users: map<UserId, User>, role: Role): set<UserId>
  {
    set id | id in users && users[id].role == role
  }

  /** findAllClients: the JPQL filter on role = 'CLIENT'. */
  function AllClients(users: map<UserId, User>): set<UserId>
  {
    set id | id in users && RoleName(users[id].role) == "CLIENT"
  }

  /** findClientsBySearch: clients whose name or email contains the search,
      ignoring letter case. */
  function ClientsBySearch(users: map<UserId, User>, search: string): set<UserId>
  {
    set id | id in users && RoleName(users[id].role) == "CLIENT"
               && (LikeContains(users[id].name, search) || LikeContains(users[id].email, search))
  }

  /** countClients. */
  function CountClients(users: map<UserId, User>): nat
  {
    |AllClients(users)|
  }

  /** The clients query is the role query for CLIENT; a search only narrows
      it, the empty search keeps all of it, and the search ignores case. */
  lemma ClientQueriesAgree(users: map<UserId, User>, search: string, other: string)
    ensures AllClients(users) == AllByRole(users, CLIENT)
    ensures CountClients(users) == |AllByRole(users, CLIENT)|
    ensures ClientsBySearch(users, search) <= AllClients(users)
    ensures ClientsBySearch(users, "") == AllClients(users)
    ensures ToLower(search) == ToLower(other) ==> ClientsBySearch(users, search) == ClientsBySearch(users, other)
  {
    forall id | id in AllClients(users) ensures id in ClientsBySearch(users, "") {
      ContainsEmpty(ToLower(users[id].name));
    }
    assert AllClients(users) == AllByRole(users, CLIENT);
  }
}

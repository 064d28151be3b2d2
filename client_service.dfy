/** ClientService.java: the lawyer's view of the clients. */
module ClientService {
  import opened Wrappers
  import opened Text
  import opened Errors
  import opened Paging
  import opened Users
  import opened UserRepository

  /** A page of clients: the matching ids and the page request. */
  datatype ClientListing = ClientListing(matching: set<UserId>, request: PageRequest)

  /** getAllClients: sorted by name; a null or blank search lists every
      client, any other search is trimmed and matched. */
  function GetAllClients(users: map<UserId, User>, page: int, size: int, search: Option<string>): (r: Result<ClientListing, Exception>)
    ensures r.Ok? <==> 0 <= page && 1 <= size
    ensures r.Ok? ==> r.value.request.sort == Some(Sort("name", ASC))
    ensures r.Ok? && (search.None? || Trim(search.value) == "") ==> r.value.matching == AllClients(users)
    ensures r.Ok? && search.Some? && Trim(search.value) != "" ==>
      r.value.matching == ClientsBySearch(users, Trim(search.value))
    ensures r.Ok? ==> r.value.matching <= AllClients(users)
  {
    match PageRequestOf(page, size, Some(Sort("name", ASC)))
    case Err(e) => Err(e)
    case Ok(pageable) =>
      ClientQueriesAgree(users, if search.Some? then Trim(search.value) else "", "");
      if search.Some? && Trim(search.value) != "" then Ok(ClientListing(ClientsBySearch(users, Trim(search.value)), pageable))
      else Ok(ClientListing(AllClients(users), pageable))
  }

  /** A search of only spaces and control characters lists every client,
      and surrounding blanks never change the result. */
  lemma BlankSearchListsAll(users: map<UserId, User>, page: int, size: int, search: string)
    requires 0 <= page && 1 <= size
    ensures (forall i :: 0 <= i < |search| ==> Trimmable(search[i])) ==>
      GetAllClients(users, page, size, Some(search)) == GetAllClients(users, page, size, None)
    ensures GetAllClients(users, page, size, Some(search)) == GetAllClients(users, page, size, Some(" " + search + " "))
  {
    TrimSpec(search);
    TrimPadded(search);
  }

  /** getClientById: "Client not found" for an unknown id, "User is not a
      client" for a lawyer. */
  function GetClientById(users: map<UserId, User>, clientId: UserId): (r: Result<User, Exception>)
    ensures r.Ok? <==> clientId in AllClients(users)
    ensures r.Ok? ==> r.value == users[clientId]
    ensures clientId !in users ==> r == Err(Runtime("Client not found"))
    ensures clientId in users && users[clientId].role == LAWYER ==> r == Err(Runtime("User is not a client"))
  {
    if clientId !in users then Err(Runtime("Client not found"))
    else if users[clientId].role != CLIENT then Err(Runtime("User is not a client"))
    else Ok(users[clientId])
  }

  /** getTotalClientsCount: the number of users with role CLIENT. */
  function GetTotalClientsCount(users: map<UserId, User>): (n: nat)
    ensures n == |AllByRole(users, CLIENT)|
  {
    ClientQueriesAgree(users, "", "");
    CountClients(users)
  }
}

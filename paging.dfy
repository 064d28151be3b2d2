/** Spring Data's PageRequest and Sort, as far as the services build them. */
module Paging {
  import opened Wrappers
  import opened Errors

  datatype Direction = ASC | DESC

  /** Sort.by(direction, property). */
  datatype Sort = Sort(property: string, direction: Direction)

  datatype PageRequest = PageRequest(page: nat, size: nat, sort: Option<Sort>)

  /** PageRequest.of rejects a negative page index and a size below one with
      an IllegalArgumentException. */
  function PageRequestOf(page: int, size: int, sort: Option<Sort>): (r: Result<PageRequest, Exception>)
    ensures r.Ok? <==> 0 <= page && 1 <= size
    ensures r.Ok? ==> r.value.page == page && r.value.size == size && r.value.sort == sort
    ensures r.Err? ==> r.error.IllegalArgument?
    ensures page < 0 ==> r == Err(IllegalArgument("Page index must not be less than zero"))
    ensures 0 <= page && size < 1 ==> r == Err(IllegalArgument("Page size must not be less than one"))
  {
    if page < 0 then Err(IllegalArgument("Page index must not be less than zero"))
    else if size < 1 then Err(IllegalArgument("Page size must not be less than one"))
    else Ok(PageRequest(page, size, sort))
  }
}

/** The index page's effect: where it sends the browser once the session
    is known. */
module Index {
  import opened Types

  function IndexNavigation(isLoading: bool, isAuthenticated: bool): (target: Option<string>)
    ensures target.None? <==> isLoading
    ensures target.Some? ==> target.value in {"/dashboard", "/login"}
    ensures target == Some("/dashboard") <==> !isLoading && isAuthenticated
    ensures target == Some("/login") <==> !isLoading && !isAuthenticated
  {
    if !isLoading then
      if isAuthenticated then Some("/dashboard") else Some("/login")
    else None
  }
}

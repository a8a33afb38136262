/**
 * The application's routes and which role each dashboard route is
 * guarded for.
 */
module Routes {
  import opened Wrappers
  import opened Auth

  const LOGIN: string := "/"
  const EMPLOYEE: string := "/employee"
  const RETAIL: string := "/retail"

  /** The dashboard of a role: `userType === "employee" ? EMPLOYEE : RETAIL`. */
  function DashboardFor(userType: UserType): (path: string)
    ensures path != LOGIN
    ensures userType == Employee <==> path == EMPLOYEE
    ensures userType == Retail <==> path == RETAIL
  {
    assert EMPLOYEE[1] != RETAIL[1];
    match userType
    case Employee => EMPLOYEE
    case Retail => RETAIL
  }

  /**
   * The role the route table guards a path for: EMPLOYEE for employees,
   * RETAIL for retail customers; any other path is not guarded.
   */
  function GuardedRole(path: string): (role: Option<UserType>)
    ensures role.Some? <==> path == EMPLOYEE || path == RETAIL
    ensures role.Some? ==> DashboardFor(role.value) == path
  {
    if path == EMPLOYEE then Some(Employee)
    else if path == RETAIL then Some(Retail)
    else None
  }

  /** Each role's dashboard is guarded for that role and no other. */
  lemma DashboardGuardedForItsRole(userType: UserType)
    ensures GuardedRole(DashboardFor(userType)) == Some(userType)
  {
  }
}
